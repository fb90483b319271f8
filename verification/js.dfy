/** JavaScript value semantics the storefront's session code relies on:
    absent values, the truthiness of an optional string, and the white
    space that `String.prototype.trim` removes. */
module Js {

  /** A value that may be absent (`null` or `undefined` in the source). */
  datatype Option<+T> = None | Some(value: T)

  /** `!!s` for a string that may be absent: the empty string is falsy too. */
  predicate Truthy(s: Option<string>) {
    s.Some? && s.value != ""
  }

  /** The characters `trim` removes: the WhiteSpace and LineTerminator
      productions of ECMAScript (TAB, VT, FF, SP, NBSP, ZWNBSP, the
      Space_Separator category, LF, CR, LS and PS). */
  predicate IsWhitespace(c: char) {
    var n := c as int;
    || (0x09 <= n <= 0x0D)
    || n == 0x20
    || n == 0xA0
    || n == 0x1680
    || (0x2000 <= n <= 0x200A)
    || n == 0x2028
    || n == 0x2029
    || n == 0x202F
    || n == 0x205F
    || n == 0x3000
    || n == 0xFEFF
  }

  /** `!s.trim()`: nothing is left once surrounding white space is removed. */
  predicate Blank(s: string) {
    forall i :: 0 <= i < |s| ==> IsWhitespace(s[i])
  }
}
