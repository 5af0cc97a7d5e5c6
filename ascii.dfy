/**
 * Case folding as `String.prototype.toUpperCase` and `toLowerCase` perform it on
 * ASCII letters; every other character is left as it is.
 */
module Ascii {

  predicate IsLower(c: char) { 'a' <= c <= 'z' }

  predicate IsUpper(c: char) { 'A' <= c <= 'Z' }

  predicate IsLetter(c: char) { IsLower(c) || IsUpper(c) }

  function UpperChar(c: char): (u: char)
    ensures !IsLower(u)
    ensures IsLetter(c) <==> IsLetter(u)
    ensures LowerChar(u) == LowerChar(c)
  {
    if IsLower(c) then (c as int - 32) as char else c
  }

  function LowerChar(c: char): (l: char)
    ensures !IsUpper(l)
    ensures IsLetter(c) <==> IsLetter(l)
  {
    if IsUpper(c) then (c as int + 32) as char else c
  }

  /** `s.toUpperCase()`: same length, every character folded on its own. */
  function Upper(s: string): (r: string)
    ensures |r| == |s|
    ensures forall i :: 0 <= i < |s| ==> r[i] == UpperChar(s[i])
  {
    if s == [] then [] else [UpperChar(s[0])] + Upper(s[1..])
  }

  /** `s.toLowerCase()`: same length, every character folded on its own. */
  function Lower(s: string): (r: string)
    ensures |r| == |s|
    ensures forall i :: 0 <= i < |s| ==> r[i] == LowerChar(s[i])
  {
    if s == [] then [] else [LowerChar(s[0])] + Lower(s[1..])
  }

  /** The comparison `a.toUpperCase() === b.toUpperCase()`. */
  predicate EqualIgnoringCase(a: string, b: string) {
    Upper(a) == Upper(b)
  }

  /** Upper-casing twice is upper-casing once. */
  lemma {:induction false} UpperIdempotent(s: string)
    ensures Upper(Upper(s)) == Upper(s)
  {
    if s != [] {
      UpperIdempotent(s[1..]);
      assert Upper(s)[1..] == Upper(s[1..]);
    }
  }

  /** Lower-casing first does not change what upper-casing yields. */
  lemma {:induction false} UpperOfLower(s: string)
    ensures Upper(Lower(s)) == Upper(s)
  {
    if s != [] {
      UpperOfLower(s[1..]);
      assert Lower(s)[1..] == Lower(s[1..]);
    }
  }

  /** Lower-casing and upper-casing agree exactly on the strings without letters. */
  lemma {:induction false} UpperEqualsLowerIffNoLetter(s: string)
    ensures Upper(s) == Lower(s) <==> forall i :: 0 <= i < |s| ==> !IsLetter(s[i])
  {
    if s != [] {
      UpperEqualsLowerIffNoLetter(s[1..]);
      assert Upper(s)[1..] == Upper(s[1..]);
      assert Lower(s)[1..] == Lower(s[1..]);
      if forall i :: 0 <= i < |s| ==> !IsLetter(s[i]) {
        assert forall i :: 0 <= i < |s| - 1 ==> !IsLetter(s[1..][i]) by {
          forall i | 0 <= i < |s| - 1 ensures !IsLetter(s[1..][i]) {
            assert s[1..][i] == s[i + 1];
          }
        }
      } else {
        var k :| 0 <= k < |s| && IsLetter(s[k]);
        assert Upper(s)[k] != Lower(s)[k];
      }
    }
  }

  /** The literals the handlers compare against and store. */
  lemma PaidLiterals()
    ensures Upper("PAID") == "PAID" && Lower("PAID") == "paid" && Upper("paid") == "PAID"
  {
    assert Upper("PAID")[0] == 'P';
    assert Lower("PAID")[0] == 'p';
    assert Upper("paid")[3] == 'D';
  }
}
