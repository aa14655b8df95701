/** A value that may be absent: an unset environment variable, a query
    parameter the request did not carry, a lookup that failed. */
module Options {

  datatype Option<+T> = None | Some(value: T)

  /** JavaScript truthiness of a value that is a string or `undefined`:
      only a present, non-empty string is truthy. */
  predicate Truthy(v: Option<string>) {
    v.Some? && v.value != ""
  }

  /** What a template literal prints for a value that is a string or
      `undefined`. */
  function TemplateText(v: Option<string>): string {
    match v
    case None => "undefined"
    case Some(s) => s
  }
}
