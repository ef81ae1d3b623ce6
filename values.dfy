/** Values of the Terraform plugin framework, as the provider sees them.

    Every attribute of a resource model is a framework value that is either
    null (not configured), unknown (to be computed during apply) or a known
    value. The provider reads them with `ValueString`, `ValueBool` and
    `ValueInt64`, which give the zero value for null and unknown alike.
 */
module Values {

  datatype Option<+T> = None | Some(value: T)

  /** The outcome of a call into code outside the provider. */
  datatype Result<+T> = Ok(value: T) | Err(msg: string)

  /** A framework attribute value: `types.String`, `types.Bool`, `types.List`, ... */
  datatype Value<+T> = Null | Unknown | Known(v: T)

  /** `types.String.ValueString()`: the string, or "" when null or unknown. */
  function ValueString(x: Value<string>): (s: string)
    ensures x.Known? ==> s == x.v
    ensures !x.Known? ==> s == ""
  {
    if x.Known? then x.v else ""
  }

  /** `types.Bool.ValueBool()`: the boolean, or false when null or unknown. */
  function ValueBool(x: Value<bool>): (b: bool)
    ensures b <==> x == Known(true)
  {
    x.Known? && x.v
  }

  /** `types.Int64.ValueInt64()`: the integer, or 0 when null or unknown. */
  function ValueInt64(x: Value<int>): (n: int)
    ensures x.Known? ==> n == x.v
    ensures !x.Known? ==> n == 0
  {
    if x.Known? then x.v else 0
  }

  /** `IsNull()` is false for an unknown value: an unknown value counts as present. */
  predicate IsNull<T>(x: Value<T>) {
    x.Null?
  }
}
