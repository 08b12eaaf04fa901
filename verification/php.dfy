/** Values of the PHP runtime that the field descriptor stores and the views test. */
module Php {

  /** A nullable value: PHP's `null` is `None`. */
  datatype Option<+T> = None | Some(value: T) {

    /** PHP's null-coalescing `$x ?? $fallback`: falls back only on `null`. */
    function Coalesce(fallback: T): T
    {
      match this
      case Some(v) => v
      case None => fallback
    }
  }

  /**
   * A `mixed` PHP value, as held by a field's validation rules (a string such as
   * "required|email" or an array of rule strings) and by its default value.
   * Floats and objects are not modelled.
   */
  datatype Value =
    | Null
    | Bool(b: bool)
    | Int(i: int)
    | String(s: string)
    | Arr(items: seq<Value>)

  /** The truthiness PHP gives a nullable string in an `@if(...)`: null, "" and "0" are false. */
  predicate Truthy(s: Option<string>)
  {
    s.Some? && s.value != "" && s.value != "0"
  }
}
