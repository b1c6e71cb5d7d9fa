/** The optional-value datatype used for the backend's `Optional[...]` fields and
    query parameters, plus the truthiness tests the routes apply to them. */
module Wrappers {

  datatype Option<+T> = None | Some(value: T) {

    /** Returns the value in Some or a default value if None */
    function GetOr(default: T): T {
      match this
      case Some(v) => v
      case None() => default
    }
  }

  /** Python truthiness of an `Optional[str]`: absent and empty strings are false. */
  predicate PresentText(o: Option<string>) {
    o.Some? && o.value != ""
  }

  /** Python truthiness of an `Optional[int]`: absent and zero are false. */
  predicate PresentNumber(o: Option<int>) {
    o.Some? && o.value != 0
  }
}
