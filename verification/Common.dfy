/** Small shared vocabulary: optional values and results. */
module Common {

  datatype Option<+T> = None | Some(value: T) {
    function GetOr(default: T): T {
      if Some? then value else default
    }
  }

  /** A value, or the exception the source would throw. */
  datatype Result<+T> = Ok(value: T) | Thrown

  function Min(a: int, b: int): int {
    if a <= b then a else b
  }

  /** JavaScript truthiness of an optional string: absent and empty are both falsy. */
  predicate Truthy(o: Option<string>) {
    o.Some? && o.value != ""
  }
}
