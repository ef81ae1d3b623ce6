/** What a lifecycle handler (Create, Read, Update, Delete, ImportState)
    leaves in its response: the diagnostics it appended, what it did to the
    Terraform state, and the API calls it issued, in order. */
module Lifecycle {
  import opened Diagnostics
  import opened Remote

  /** `Untouched`: the handler never called `State.Set` (Terraform then keeps
      nothing new; after a successful Delete it drops the resource itself).
      `Saved(m)`: `State.Set` with model `m`. `Removed`: `State.RemoveResource`. */
  datatype StateUpdate<+M> = Untouched | Saved(model: M) | Removed

  datatype Response<+M> = Response(diags: seq<Diagnostic>, state: StateUpdate<M>, calls: seq<Call>)

  /** The handler issued exactly `calls`, reported one error and saved nothing. */
  predicate Aborted<M>(r: Response<M>, calls: seq<Call>, summary: string, detail: string) {
    r.diags == [NewError(summary, detail)] && r.state.Untouched? && r.calls == calls
  }
}
