/** The string comparisons the filters use: ordinal `Contains` and its
    `StringComparison.OrdinalIgnoreCase` form. Case folding is over ASCII letters. */
module Text {

  /** Ordinal `s.Contains(key)`: `key` occurs in `s` at some position. The empty key occurs everywhere. */
  predicate Contains(s: string, key: string)
  {
    exists i | 0 <= i <= |s| - |key| :: OccursAt(s, key, i)
  }

  predicate OccursAt(s: string, key: string, i: int)
  {
    0 <= i <= |s| - |key| && s[i..i + |key|] == key
  }

  function UpperChar(c: char): char
  {
    if 'a' <= c <= 'z' then (c as int - 32) as char else c
  }

  function LowerChar(c: char): char
  {
    if 'A' <= c <= 'Z' then (c as int + 32) as char else c
  }

  function Upper(s: string): (r: string)
    ensures |r| == |s| && forall i | 0 <= i < |s| :: r[i] == UpperChar(s[i])
  {
    seq(|s|, i requires 0 <= i < |s| => UpperChar(s[i]))
  }

  function Lower(s: string): (r: string)
    ensures |r| == |s| && forall i | 0 <= i < |s| :: r[i] == LowerChar(s[i])
  {
    seq(|s|, i requires 0 <= i < |s| => LowerChar(s[i]))
  }

  /** `s.Contains(key, StringComparison.OrdinalIgnoreCase)`: both sides compared upper-cased. */
  predicate ContainsIgnoreCase(s: string, key: string)
  {
    Contains(Upper(s), Upper(key))
  }

  lemma ContainsEmpty(s: string)
    ensures Contains(s, "")
  {
    assert OccursAt(s, "", 0);
  }

  /** A key with a character that `s` lacks does not occur in `s`. */
  lemma NotContainedMissingChar(s: string, key: string, c: char)
    requires c in key && c !in s
    ensures !Contains(s, key)
  {
    var j :| 0 <= j < |key| && key[j] == c;
    forall i | 0 <= i <= |s| - |key| ensures !OccursAt(s, key, i) {
      assert s[i..i + |key|][j] == s[i + j];
    }
  }

  lemma {:induction false} CaseFoldingFixesUpper(s: string)
    ensures Upper(Upper(s)) == Upper(s) && Upper(Lower(s)) == Upper(s)
  {
    forall i | 0 <= i < |s| ensures Upper(Upper(s))[i] == Upper(s)[i] && Upper(Lower(s))[i] == Upper(s)[i] {
      var c := s[i];
      assert Upper(Upper(s))[i] == UpperChar(UpperChar(c));
      assert Upper(Lower(s))[i] == UpperChar(LowerChar(c));
    }
  }

  /** Case does not matter: a key and its upper- or lower-cased form are found in the same strings. */
  lemma IgnoreCaseIsCaseBlind(s: string, key: string)
    ensures ContainsIgnoreCase(s, Upper(key)) == ContainsIgnoreCase(s, key)
    ensures ContainsIgnoreCase(s, Lower(key)) == ContainsIgnoreCase(s, key)
  {
    CaseFoldingFixesUpper(key);
  }
}
