/** The exceptions the core can raise: the two project-defined ones and the
    Python built-ins that its dictionary lookups and loop raise. */
module Exceptions {
  import opened Json

  /** Why a `TypeError` was raised. */
  datatype TypeErrorKind =
    | NotSubscriptable   // `x['status']` on a value that is not a dict (for a list or
                         // string Python says its indices must be integers)
    | Unhashable         // a list or dict used as a dictionary key
    | NotIterable        // `for x in v` on a number, a bool or None

  datatype PyError =
    | TokenError(message: string)
    | ResponseError(message: string)
    | KeyError(key: Json)
    | TypeError(kind: TypeErrorKind)
    | AttributeError(attribute: string)
}
