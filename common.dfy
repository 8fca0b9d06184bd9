/** Values shared by the two route handlers: optional request-body fields and
    JavaScript truthiness of strings. */
module Common {

  /** A field of a JSON request body that the caller may leave out. */
  datatype Option<+T> = None | Some(value: T)

  /** `x || fallback` and `!x` in the handlers test JavaScript truthiness: a
      string field is truthy exactly when it is present and not empty. */
  predicate Truthy(field: Option<string>)
  {
    field.Some? && field.value != ""
  }
}
