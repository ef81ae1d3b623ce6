/** Diagnostics that a handler appends to its response: an error aborts the
    operation for Terraform, a warning is only shown to the user. */
module Diagnostics {

  datatype Severity = Error | Warning

  /** `path` is the attribute path of an attribute diagnostic (`[]` for none). */
  datatype Diagnostic = Diagnostic(severity: Severity, path: seq<string>, summary: string, detail: string)

  /** `Diagnostics.AddError(summary, detail)`. */
  function NewError(summary: string, detail: string): Diagnostic {
    Diagnostic(Error, [], summary, detail)
  }

  /** `Diagnostics.AddWarning(summary, detail)`. */
  function NewWarning(summary: string, detail: string): Diagnostic {
    Diagnostic(Warning, [], summary, detail)
  }

  /** `Diagnostics.AddAttributeError(path, summary, detail)`. */
  function AttributeError(path: seq<string>, summary: string, detail: string): Diagnostic {
    Diagnostic(Error, path, summary, detail)
  }

  /** `Diagnostics.HasError()`. */
  predicate HasError(ds: seq<Diagnostic>) {
    exists i | 0 <= i < |ds| :: ds[i].severity == Error
  }
}
