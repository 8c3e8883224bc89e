/** The string operations the models share, on ASCII text. */
module Texts {
  predicate IsSpace(c: char) { c in {' ', '\t', '\n', '\r'} }

  function StripRight(s: string): string {
    if s != [] && IsSpace(s[|s| - 1]) then StripRight(s[..|s| - 1]) else s
  }

  function StripLeft(s: string): string {
    if s != [] && IsSpace(s[0]) then StripLeft(s[1..]) else s
  }

  function Strip(s: string): string { StripLeft(StripRight(s)) }

  function Lower(s: string): string {
    seq(|s|, i requires 0 <= i < |s| => if 'A' <= s[i] <= 'Z' then s[i] - 'A' + 'a' else s[i])
  }
}
