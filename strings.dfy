/**
 * The little of Swift's `String` the core relies on: `lowercased()` and the
 * case-insensitive comparison `a.lowercased() == b.lowercased()`.
 * Only ASCII letters are folded; every other character is kept as it is.
 */
module Strings {

  predicate IsAsciiUpper(c: char) {
    'A' <= c <= 'Z'
  }

  function LowerChar(c: char): (r: char)
    ensures !IsAsciiUpper(r)
    ensures IsAsciiUpper(c) ==> r as int == c as int + 32
    ensures !IsAsciiUpper(c) ==> r == c
  {
    if IsAsciiUpper(c) then (c as int + 32) as char else c
  }

  /** `s.lowercased()` */
  function Lowercased(s: string): (r: string)
    ensures |r| == |s|
    ensures forall i :: 0 <= i < |s| ==> r[i] == LowerChar(s[i])
  {
    if s == [] then [] else [LowerChar(s[0])] + Lowercased(s[1..])
  }

  /** `a.lowercased() == b.lowercased()` */
  predicate EqualsIgnoringCase(a: string, b: string) {
    Lowercased(a) == Lowercased(b)
  }

  /** A lowercased string contains no upper-case ASCII letter. */
  lemma LowercasedHasNoUpper(s: string)
    ensures forall i :: 0 <= i < |Lowercased(s)| ==> !IsAsciiUpper(Lowercased(s)[i])
  {
  }

  /** Lowering twice is lowering once. */
  lemma LowercasedIdempotent(s: string)
    ensures Lowercased(Lowercased(s)) == Lowercased(s)
  {
    var l := Lowercased(s);
    assert forall i :: 0 <= i < |l| ==> Lowercased(l)[i] == l[i];
  }

  /** Exact equality implies equality ignoring case, and the relation is an equivalence. */
  lemma EqualsIgnoringCaseIsEquivalence(a: string, b: string, c: string)
    ensures a == b ==> EqualsIgnoringCase(a, b)
    ensures EqualsIgnoringCase(a, b) ==> EqualsIgnoringCase(b, a)
    ensures EqualsIgnoringCase(a, b) && EqualsIgnoringCase(b, c) ==> EqualsIgnoringCase(a, c)
  {
  }
}
