/** The parts of JavaScript value semantics that the request handlers rely on:
    truthiness of an optional string, the `||` fallback, and the `\s`
    character class of JavaScript regular expressions. */
module JsValues {
  import opened Wrappers

  /** A string field of a JSON body is truthy when it is present and not empty
      (`undefined`, `null` and `''` are all falsy). */
  predicate Truthy(field: Option<string>) {
    field.Some? && |field.value| > 0
  }

  /** `field || fallback` for a string field and a string literal fallback. */
  function OrElse(field: Option<string>, fallback: string): string {
    if Truthy(field) then field.value else fallback
  }

  /** `first || second` for two optional strings: the second operand is the
      result whenever the first is falsy, whatever the second is. */
  function Or(first: Option<string>, second: Option<string>): Option<string> {
    if Truthy(first) then first else second
  }

  /** The `\s` class: the ECMAScript WhiteSpace and LineTerminator characters. */
  predicate IsWhitespace(c: char) {
    || c == '\t' || c == '\n' || c == '\U{000B}' || c == '\U{000C}' || c == '\r'
    || c == ' ' || c == '\U{00A0}' || c == '\U{1680}'
    || ('\U{2000}' <= c <= '\U{200A}')
    || c == '\U{2028}' || c == '\U{2029}' || c == '\U{202F}' || c == '\U{205F}'
    || c == '\U{3000}' || c == '\U{FEFF}'
  }
}
