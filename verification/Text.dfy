/** The string operations of Python that the models need, on ASCII text. */
module Text {
  import opened Wrappers

  /** The truth of an optional string: given, and not empty. */
  predicate Given(s: Option<string>) {
    s.Some? && s.value != ""
  }

  /** str.isspace, which strip() and \s use. */
  predicate IsSpace(c: char) {
    c == ' ' || '\t' <= c <= '\r' || '\U{1c}' <= c <= '\U{1f}'
  }

  function LowerChar(c: char): char {
    if 'A' <= c <= 'Z' then (c as int + 32) as char else c
  }

  function Lower(s: string): (r: string)
    ensures |r| == |s| && forall i :: 0 <= i < |s| ==> r[i] == LowerChar(s[i])
  {
    seq(|s|, i requires 0 <= i < |s| => LowerChar(s[i]))
  }

  function StripLeft(s: string, drop: char -> bool): string {
    if s != [] && drop(s[0]) then StripLeft(s[1..], drop) else s
  }

  function StripRight(s: string, drop: char -> bool): string {
    if s != [] && drop(s[|s| - 1]) then StripRight(s[..|s| - 1], drop) else s
  }

  function Strip(s: string, drop: char -> bool): string {
    StripRight(StripLeft(s, drop), drop)
  }

  /** Stripping keeps a suffix. */
  lemma {:induction false} StripLeftKeeps(s: string, drop: char -> bool)
    ensures var r := StripLeft(s, drop);
            |r| <= |s| && r == s[|s| - |r|..] && (r != [] ==> !drop(r[0]))
  {
    if s != [] && drop(s[0]) {
      StripLeftKeeps(s[1..], drop);
    }
  }

  /** Stripping keeps a prefix. */
  lemma {:induction false} StripRightKeeps(s: string, drop: char -> bool)
    ensures var r := StripRight(s, drop);
            |r| <= |s| && r == s[..|r|] && (r != [] ==> !drop(r[|r| - 1]))
  {
    if s != [] && drop(s[|s| - 1]) {
      StripRightKeeps(s[..|s| - 1], drop);
    }
  }
}
