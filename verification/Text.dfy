/** Counting substrings, and how a count splits at a character the pattern does not use. */
module Text {

  /** How many positions of s the pattern starts at. */
  function Count(s: string, pat: string): nat
    requires pat != []
  {
    if |s| < |pat| then 0
    else (if s[..|pat|] == pat then 1 else 0) + Count(s[1..], pat)
  }

  predicate MatchAt(s: string, pat: string, i: nat) {
    i + |pat| <= |s| && s[i..i + |pat|] == pat
  }

  predicate Contains(s: string, pat: string) {
    exists i: nat | i <= |s| :: MatchAt(s, pat, i)
  }

  lemma MatchShifts(s: string, pat: string, i: nat)
    requires 0 < i <= |s|
    ensures MatchAt(s, pat, i) == MatchAt(s[1..], pat, i - 1)
  {
    if i + |pat| <= |s| {
      var a, b := s[i..i + |pat|], s[1..][i - 1..i - 1 + |pat|];
      assert forall k :: 0 <= k < |pat| ==> a[k] == b[k];
      assert a == b;
    }
  }

  lemma {:induction false} ContainsIffCounted(s: string, pat: string)
    requires pat != []
    ensures Contains(s, pat) <==> Count(s, pat) > 0
  {
    if |s| < |pat| {
    } else {
      var rest := s[1..];
      ContainsIffCounted(rest, pat);
      forall i: nat | 0 < i <= |s|
        ensures MatchAt(s, pat, i) == MatchAt(rest, pat, i - 1)
      {
        MatchShifts(s, pat, i);
      }
      assert MatchAt(s, pat, 0) == (s[..|pat|] == pat);
      if i: nat :| i <= |rest| && MatchAt(rest, pat, i) {
        assert MatchAt(s, pat, i + 1);
      }
    }
  }

  /** No match crosses a character that the pattern does not contain. */
  lemma {:induction false} CountSplits(a: string, c: char, b: string, pat: string)
    requires pat != [] && c !in pat
    ensures Count(a + [c] + b, pat) == Count(a, pat) + Count(b, pat)
  {
    var s := a + [c] + b;
    if a == [] {
      assert s[1..] == b;
      assert |s| >= |pat| ==> s[..|pat|][0] == c;
    } else {
      assert s[1..] == a[1..] + [c] + b;
      CountSplits(a[1..], c, b, pat);
      if |a| >= |pat| {
        assert s[..|pat|] == a[..|pat|];
      } else {
        assert |s| >= |pat| ==> s[..|pat|][|a|] == c;
      }
    }
  }

  /** Text that lacks one of the pattern's characters has no match. */
  lemma {:induction false} CountMissing(s: string, pat: string, c: char)
    requires c in pat && c !in s
    ensures Count(s, pat) == 0
  {
    if |s| < |pat| {
    } else {
      CountMissing(s[1..], pat, c);
      var i :| 0 <= i < |pat| && pat[i] == c;
      assert s[..|pat|][i] == s[i];
    }
  }

  /** A match cannot begin with indentation. */
  lemma CountIndented(c: char, s: string, pat: string)
    requires pat != [] && pat[0] != c
    ensures Count([c] + s, pat) == Count(s, pat)
  {
    var t := [c] + s;
    assert t[1..] == s;
    assert |t| >= |pat| ==> t[..|pat|][0] == c;
  }
}
