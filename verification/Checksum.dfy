/** The configuration checksum: contents framed by a terminating NUL each, then hashed. */
module Checksum {

  /** A collision-free hash: two digests are equal exactly when the hashed messages are. */
  datatype Digest = Sha256(message: string)

  const NUL: char := '\0'

  predicate NulFree(s: string) {
    NUL !in s
  }

  function Frame(contents: seq<string>): string {
    if contents == [] then "" else contents[0] + [NUL] + Frame(contents[1..])
  }

  lemma {:induction false} FrameAppends(contents: seq<string>, last: string)
    ensures Frame(contents + [last]) == Frame(contents) + last + [NUL]
  {
    var all := contents + [last];
    if contents == [] {
      assert all[1..] == [];
    } else {
      assert all[1..] == contents[1..] + [last];
      FrameAppends(contents[1..], last);
    }
  }

  /** The hash state is fed one content and one NUL at a time. */
  method ConfigChecksum(contents: seq<string>) returns (sum: Digest)
    ensures sum == Sha256(Frame(contents))
  {
    var fed := "";
    for i := 0 to |contents|
      invariant fed == Frame(contents[..i])
    {
      FrameAppends(contents[..i], contents[i]);
      assert contents[..i + 1] == contents[..i] + [contents[i]];
      fed := fed + contents[i];
      fed := fed + [NUL];
    }
    assert contents[..|contents|] == contents;
    sum := Sha256(fed);
  }

  /** The first NUL of a + NUL + rest is where a NUL-free a ends. */
  lemma FirstNul(a: string, rest: string, b: string, more: string)
    requires NulFree(a) && NulFree(b) && a + [NUL] + rest == b + [NUL] + more
    ensures a == b && rest == more
  {
    var s, t := a + [NUL] + rest, b + [NUL] + more;
    assert s[|a|] == NUL && t[|b|] == NUL;
    assert forall j :: 0 <= j < |b| ==> t[j] == b[j];
    assert forall j :: 0 <= j < |a| ==> s[j] == a[j];
    assert s[..|a|] == a && t[..|b|] == b;
    assert s[|a| + 1..] == rest && t[|b| + 1..] == more;
  }

  /** NUL-free contents are recovered from their frame, whatever their number. */
  lemma {:induction false} FrameInjective(a: seq<string>, b: seq<string>)
    requires forall s :: s in a ==> NulFree(s)
    requires forall s :: s in b ==> NulFree(s)
    requires Frame(a) == Frame(b)
    ensures a == b
  {
    if a == [] || b == [] {
    } else {
      FirstNul(a[0], Frame(a[1..]), b[0], Frame(b[1..]));
      FrameInjective(a[1..], b[1..]);
      assert a == [a[0]] + a[1..] && b == [b[0]] + b[1..];
    }
  }

  lemma FrameOfTwo(a: string, b: string)
    ensures Frame([a, b]) == a + [NUL] + b + [NUL]
  {
    assert [a, b][1..] == [b];
    assert [b][1..] == [];
    assert Frame([b]) == b + [NUL];
    assert a + [NUL] + (b + [NUL]) == a + [NUL] + b + [NUL];
  }

  /** No other pair of contents has the same frame. */
  ghost predicate OnlyPair(a: string, b: string) {
    forall c, d :: Frame([c, d]) == Frame([a, b]) ==> c == a && d == b
  }

  /** The checksum pins down a pair of contents exactly when neither holds a NUL. */
  lemma PairPinnedDownIffNulFree(a: string, b: string)
    ensures OnlyPair(a, b) <==> NulFree(a) && NulFree(b)
  {
    FrameOfTwo(a, b);
    if NulFree(a) && NulFree(b) {
      forall c, d | Frame([c, d]) == Frame([a, b])
        ensures c == a && d == b
      {
        FrameOfTwo(c, d);
        NulsOfTwo(a, b, c, d);
      }
    } else if !NulFree(a) {
      var i :| 0 <= i < |a| && a[i] == NUL;
      var c, d := a[..i], a[i + 1..] + [NUL] + b;
      FrameOfTwo(c, d);
      assert a == c + [NUL] + a[i + 1..];
      assert c + [NUL] + d + [NUL] == a + [NUL] + b + [NUL];
      assert Frame([c, d]) == Frame([a, b]) && |c| < |a|;
    } else {
      var i :| 0 <= i < |b| && b[i] == NUL;
      var c, d := a + [NUL] + b[..i], b[i + 1..];
      FrameOfTwo(c, d);
      assert b == b[..i] + [NUL] + d;
      assert c + [NUL] + d + [NUL] == a + [NUL] + b + [NUL];
      assert Frame([c, d]) == Frame([a, b]) && |a| < |c|;
    }
  }

  lemma NulsOfTwo(a: string, b: string, c: string, d: string)
    requires NulFree(a) && NulFree(b)
    requires c + [NUL] + d + [NUL] == a + [NUL] + b + [NUL]
    ensures c == a && d == b
  {
    var s, t := a + [NUL] + b + [NUL], c + [NUL] + d + [NUL];
    // Before its last character s has one NUL, at |a|.
    assert forall j :: 0 <= j < |a| ==> s[j] == a[j];
    assert forall j :: |a| < j < |s| - 1 ==> s[j] == b[j - |a| - 1];
    assert t[|c|] == NUL;
    assert |c| == |a|;
    assert s[..|a|] == a && t[..|c|] == c;
    assert s[|a| + 1..|s| - 1] == b && t[|c| + 1..|t| - 1] == d;
  }
}
