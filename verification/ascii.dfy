/**
  ASCII lower-casing and the case-insensitive comparison of storage roots.
  Storage roots are hexadecimal strings, so only the letters 'A' to 'Z' are
  folded; every other character is kept as it is.
 */
module Ascii {

  predicate IsUpper(c: char) {
    'A' <= c <= 'Z'
  }

  predicate IsLower(c: char) {
    'a' <= c <= 'z'
  }

  /** Lower-cases one character: an upper-case ASCII letter becomes its
      lower-case partner, anything else is returned unchanged. */
  function LowerChar(c: char): (d: char)
    ensures !IsUpper(d)
    ensures IsUpper(c) ==> IsLower(d) && d as int - c as int == 'a' as int - 'A' as int
    ensures !IsUpper(c) ==> d == c
  {
    if IsUpper(c) then (c as int - 'A' as int + 'a' as int) as char else c
  }

  /** Lower-cases a whole string character by character. */
  function Lower(s: string): (r: string)
    ensures |r| == |s|
    ensures forall i :: 0 <= i < |s| ==> r[i] == LowerChar(s[i])
  {
    if s == [] then [] else [LowerChar(s[0])] + Lower(s[1..])
  }

  /** Lower-casing twice is lower-casing once. */
  lemma LowerIdempotent(s: string)
    ensures Lower(Lower(s)) == Lower(s)
  {
    assert forall i :: 0 <= i < |s| ==> Lower(Lower(s))[i] == Lower(s)[i];
  }

  /** Two roots compare equal when their lower-cased forms are identical. */
  predicate EqualsIgnoreCase(a: string, b: string) {
    Lower(a) == Lower(b)
  }

  /** Reference definition of the same relation, position by position. */
  predicate SameLetters(a: string, b: string) {
    && |a| == |b|
    && forall i :: 0 <= i < |a| ==> LowerChar(a[i]) == LowerChar(b[i])
  }

  lemma {:induction false} EqualsIgnoreCaseIsSameLetters(a: string, b: string)
    ensures EqualsIgnoreCase(a, b) <==> SameLetters(a, b)
  {
    if SameLetters(a, b) {
      assert forall i :: 0 <= i < |a| ==> Lower(a)[i] == Lower(b)[i];
    }
    if EqualsIgnoreCase(a, b) {
      forall i | 0 <= i < |a|
        ensures LowerChar(a[i]) == LowerChar(b[i])
      {
        assert Lower(a)[i] == Lower(b)[i];
      }
    }
  }

  /** The case-insensitive comparison is an equivalence relation. */
  lemma EqualsIgnoreCaseIsEquivalence(a: string, b: string, c: string)
    ensures EqualsIgnoreCase(a, a)
    ensures EqualsIgnoreCase(a, b) ==> EqualsIgnoreCase(b, a)
    ensures EqualsIgnoreCase(a, b) && EqualsIgnoreCase(b, c) ==> EqualsIgnoreCase(a, c)
  {
  }

  /** Identical strings compare equal, but equal-ignoring-case strings need
      not be identical. */
  lemma EqualsIgnoreCaseIsCoarser()
    ensures forall a, b :: a == b ==> EqualsIgnoreCase(a, b)
    ensures EqualsIgnoreCase("0xABCD", "0xabcd") && "0xABCD" != "0xabcd"
  {
    assert Lower("0xABCD") == "0xabcd" by {
      assert forall i :: 0 <= i < 6 ==> Lower("0xABCD")[i] == "0xabcd"[i];
    }
    assert Lower("0xabcd") == "0xabcd" by {
      assert forall i :: 0 <= i < 6 ==> Lower("0xabcd")[i] == "0xabcd"[i];
    }
    assert "0xABCD"[2] != "0xabcd"[2];
  }
}
