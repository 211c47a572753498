// Searching and trimming text.

module Strings {
  import opened Common

  /** The index of the first x, or the length. */
  function FirstAt(s: string, x: char): (i: nat)
    ensures i <= |s| && x !in s[..i] && (i < |s| ==> s[i] == x)
  {
    if s == "" || s[0] == x then 0
    else
      var i := FirstAt(s[1..], x);
      assert s[..i + 1] == [s[0]] + s[1..][..i];
      i + 1
  }

  lemma {:induction false} FirstIs(a: string, x: char, b: string)
    requires x !in a
    ensures FirstAt(a + [x] + b, x) == |a|
  {
    var s, i := a + [x] + b, FirstAt(a + [x] + b, x);
    assert forall k :: 0 <= k < |a| ==> s[k] == a[k] && a[k] in a;
    assert s[|a|] == x;
    assert forall k :: 0 <= k < i ==> s[k] in s[..i];
  }

  predicate IsSpace(c: char) { c == ' ' || '\t' <= c <= '\r' }

  function TrimEnd(s: string, drop: char -> bool): (t: string)
    ensures t <= s
  {
    if s != "" && drop(s[|s| - 1]) then TrimEnd(s[..|s| - 1], drop) else s
  }

  function TrimStart(s: string, drop: char -> bool): string {
    if s != "" && drop(s[0]) then TrimStart(s[1..], drop) else s
  }

  function TrimSpace(s: string): string { TrimStart(TrimEnd(s, IsSpace), IsSpace) }

  predicate IsCR(c: char) { c == '\r' }

  function TrimCR(s: string): string { TrimEnd(s, IsCR) }

  predicate StandsAt(s: string, t: string, i: nat) {
    i + |t| <= |s| && forall k :: 0 <= k < |t| ==> s[i + k] == t[k]
  }

  predicate Contains(s: string, t: string) { exists i :: 0 <= i <= |s| && StandsAt(s, t, i) }

  predicate HasPrefix(s: string, t: string) { |t| <= |s| && s[..|t|] == t }

  /** What follows the first t. */
  function After(s: string, t: string): Option<string> {
    if HasPrefix(s, t) then Some(s[|t|..]) else if s == "" then None else After(s[1..], t)
  }
}
