/** Vocabulary shared by every component: optional values, and the few string
    primitives of the source language that more than one component relies on. */
module Prelude {
  datatype Option<+T> = None | Some(value: T) {
    function GetOr(default: T): T {
      match this
      case Some(v) => v
      case None => default
    }
  }

  /** The first index at or after `from` where `c` stands, or the length of `s`. */
  function IndexFrom(s: string, c: char, from: nat): (i: nat)
    requires from <= |s|
    ensures from <= i <= |s|
    ensures forall k :: from <= k < i ==> s[k] != c
    ensures i < |s| ==> s[i] == c
    decreases |s| - from
  {
    if from == |s| || s[from] == c then from else IndexFrom(s, c, from + 1)
  }

  /** The index of the first `c`, or the length of `s` when there is none. */
  function IndexOf(s: string, c: char): (i: nat)
    ensures i <= |s|
    ensures forall k :: 0 <= k < i ==> s[k] != c
    ensures i < |s| ==> s[i] == c
  {
    IndexFrom(s, c, 0)
  }

  lemma IndexOfIsFirst(s: string, c: char, i: nat)
    requires i <= |s| && forall k :: 0 <= k < i ==> s[k] != c
    requires i < |s| ==> s[i] == c
    ensures IndexOf(s, c) == i
  {
  }

  predicate StartsWith(s: string, prefix: string) {
    |prefix| <= |s| && s[..|prefix|] == prefix
  }

  lemma Regroup<T>(a: seq<T>, b: seq<T>, c: seq<T>)
    ensures a + (b + c) == a + b + c
  {
  }

  predicate IsDigit(c: char) {
    '0' <= c <= '9'
  }

  predicate AllDigits(s: string) {
    s != "" && forall i :: 0 <= i < |s| ==> IsDigit(s[i])
  }

  const LOWER := "abcdefghijklmnopqrstuvwxyz"
  const UPPER := "ABCDEFGHIJKLMNOPQRSTUVWXYZ"
  const DIGITS := "0123456789"

  /** The ranges of characters, one by one. */
  lemma LowerIsListed(c: char)
    ensures 'a' <= c <= 'z' <==> c in LOWER
    ensures 'a' <= c <= 'z' ==> LOWER[c as int - 97] == c
  {
    assert forall k :: 0 <= k < 26 ==> LOWER[k] as int == 97 + k;
    if 'a' <= c <= 'z' { assert LOWER[c as int - 97] == c; }
  }

  lemma UpperIsListed(c: char)
    ensures 'A' <= c <= 'Z' <==> c in UPPER
  {
    assert forall k :: 0 <= k < 26 ==> UPPER[k] as int == 65 + k;
    if 'A' <= c <= 'Z' { assert UPPER[c as int - 65] == c; }
  }

  lemma DigitIsListed(c: char)
    ensures IsDigit(c) <==> c in DIGITS
  {
    assert forall k :: 0 <= k < 10 ==> DIGITS[k] as int == 48 + k;
    if IsDigit(c) { assert DIGITS[c as int - 48] == c; }
  }
}
