/** Values and diagnostics of the Terraform plugin framework, as the resources of
    pkg/bridge see them: the three-state attribute values of package `types`, a
    Go `int64`, and the diagnostics a verb appends to its response. */
module Framework {

  datatype Option<T> = None | Some(value: T)

  /** The Go `int64` that `types.Int64` carries. No arithmetic is done on it. */
  newtype int64 = x: int | -0x8000_0000_0000_0000 <= x < 0x8000_0000_0000_0000

  /** An attribute value (`types.String`, `types.Int64`, `types.Bool`,
      `types.List`): null (absent from the configuration), unknown (not yet
      computed) or known. */
  datatype Value<T> = Null | Unknown | Known(value: T)
  {
    /** `ValueString()`, `ValueInt64()`, `ValueBool()`: the carried value, and
        the zero value of the type for a null or unknown attribute. */
    function ValueOr(zero: T): (r: T)
      ensures Known? ==> r == value
      ensures !Known? ==> r == zero
    {
      if Known? then value else zero
    }
  }

  function ValueString(v: Value<string>): string { v.ValueOr("") }

  function ValueInt64(v: Value<int64>): int64 { v.ValueOr(0) }

  function ValueBool(v: Value<bool>): bool { v.ValueOr(false) }

  /** The diagnostics the resources raise. The four "Unable to ..." errors are
      the shared helpers UnableTo{Create,Refresh,Update,Delete}ResourceError,
      whose detail is the transport error text or the response body. */
  datatype Diagnostic =
    | MissingPairingToken
    | PairingTokenIgnored
    | UnableToCreate(detail: string)
    | UnableToRefresh(detail: string)
    | UnableToUpdate(detail: string)
    | UnableToDelete(detail: string)
  {
    /** Every diagnostic is an error except the pairing-token warning. */
    predicate IsError() { !PairingTokenIgnored? }
  }

  predicate HasError(diags: seq<Diagnostic>)
  {
    exists i | 0 <= i < |diags| :: diags[i].IsError()
  }
}
