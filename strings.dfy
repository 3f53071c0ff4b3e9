/** The string checks used by the failed-download service (`IsNullOrWhiteSpace` and its negation). */
module Strings {
  import opened Wrappers

  /** The characters .NET's `char.IsWhiteSpace` accepts: the space, line and paragraph
      separators, the controls U+0009 to U+000D and U+0085. */
  predicate IsWhiteSpaceChar(c: char) {
    var n := c as int;
    (0x09 <= n <= 0x0D) || n == 0x20 || n == 0x85 || n == 0xA0 || n == 0x1680 ||
    (0x2000 <= n <= 0x200A) || n == 0x2028 || n == 0x2029 || n == 0x202F ||
    n == 0x205F || n == 0x3000
  }

  /** True when every character of `s` is white space (so also for the empty string). */
  function AllWhiteSpace(s: string): (b: bool)
    ensures b <==> forall i :: 0 <= i < |s| ==> IsWhiteSpaceChar(s[i])
  {
    if s == [] then true else IsWhiteSpaceChar(s[0]) && AllWhiteSpace(s[1..])
  }

  /** `string.IsNullOrWhiteSpace`: a null string, an empty one, or one of white space only. */
  predicate IsNullOrWhiteSpace(s: Option<string>) {
    s.None? || AllWhiteSpace(s.value)
  }

  /** A string with one character that is not white space is never blank. */
  lemma {:induction false} NotBlankWhenSomeCharIsNot(s: string, i: nat)
    requires i < |s| && !IsWhiteSpaceChar(s[i])
    ensures !IsNullOrWhiteSpace(Some(s))
  {
  }
}
