/** Optional values, standing in for Python's `None`, and the truthiness
    test the watchdog applies to optional strings. */
module Maybe {

  /** `None` is a missing key or a JSON `null`; `Some` carries the value. */
  datatype Option<+T> = None | Some(value: T) {

    /** The value, or `default` when there is none (Python's `d.get(k, default)`). */
    function GetOr(default: T): T {
      match this
      case Some(v) => v
      case None => default
    }
  }

  /** Python truthiness of an optional string: `None` and `""` are falsy. */
  predicate Truthy(s: Option<string>) {
    s.Some? && s.value != ""
  }
}
