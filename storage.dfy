/**
 * The browser's local storage, as far as the two stores use it.
 *
 * A key is either absent (`getItem` returns null, modelled by `None`) or holds
 * text. JSON is not modelled character by character: text is either what
 * `JSON.stringify` wrote for some value (`Json(v)`), which `JSON.parse` turns
 * back into that value, or some other text (`Text(raw)`), on which
 * `JSON.parse` throws.
 */
module Storage {
  import opened Wrappers

  datatype Stored<T> = Json(value: T) | Text(raw: string)

  /** `JSON.stringify`: serialised text is never empty. */
  function Stringify<T>(v: T): Stored<T> {
    Json(v)
  }

  /** `JSON.parse` as a partial function: `None` is the thrown SyntaxError. */
  function Parse<T>(s: Stored<T>): Option<T> {
    match s
    case Json(v) => Some(v)
    case Text(_) => None
  }

  /** JavaScript truthiness of the string held under a key: only "" is falsy. */
  predicate Truthy<T>(s: Stored<T>) {
    s.Json? || s.raw != ""
  }

  /** Truthiness of a plain string, or of a string that may be null. */
  predicate Present(s: Option<string>) {
    s.Some? && s.value != ""
  }
}
