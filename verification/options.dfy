/** The optional value used wherever the source may meet `undefined`. */
module Options {

  datatype Option<+T> = None | Some(value: T) {

    /** The value inside `Some`, or `default` for `None`. */
    function GetOr(default: T): T {
      match this
      case Some(v) => v
      case None => default
    }
  }

  /** JavaScript truthiness of an optional string field: present and non-empty. */
  predicate Truthy(o: Option<string>) {
    o.Some? && o.value != ""
  }
}
