/** The string tests that the contracts apply to identifiers. */
module Text {
  // The characters that Python counts as white space.
  predicate Whitespace(c: char) {
    var u := c as int;
    || 9 <= u <= 13 || 28 <= u <= 32 || u == 0x85 || u == 0xA0 || u == 0x1680
    || 0x2000 <= u <= 0x200A || u == 0x2028 || u == 0x2029 || u == 0x202F || u == 0x205F || u == 0x3000
  }

  // Tabs, line ends, the four separators and the blank, among the characters of ASCII.
  lemma WhitespaceOfAscii(c: char)
    requires c as int < 128
    ensures Whitespace(c) <==> c in {'\t', '\n', 11 as char, 12 as char, '\r', 28 as char, 29 as char, 30 as char, 31 as char, ' '}
  {
  }

  // Nothing remains of the string once white space is stripped.
  predicate Blank(s: string) {
    forall i :: 0 <= i < |s| ==> Whitespace(s[i])
  }

  function StripLeft(s: string): string {
    if s != [] && Whitespace(s[0]) then StripLeft(s[1..]) else s
  }

  function StripRight(s: string): string {
    if s != [] && Whitespace(s[|s| - 1]) then StripRight(s[..|s| - 1]) else s
  }

  // The string without white space at either end.
  function Strip(s: string): string { StripRight(StripLeft(s)) }
}
