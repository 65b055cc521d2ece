/** Small value types shared by the backend and client models. */
module Common {

  /** A value that may be absent: a missing key, a JSON null, an unset
      storage entry. */
  datatype Option<+T> = None | Some(value: T) {
    function GetOr(default: T): T {
      match this
      case Some(v) => v
      case None => default
    }
  }

  /** JavaScript and Python truthiness of an optional string: present and
      non-empty. */
  predicate Truthy(s: Option<string>) {
    s.Some? && s.value != []
  }
}
