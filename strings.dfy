/** The string operations the adapter uses: `sep.join(parts)` and `s.rstrip(c)`. */
module Strings {

  /** `sep.join(parts)`. */
  function JoinWith(sep: string, parts: seq<string>): string
    decreases |parts|
  {
    if parts == [] then ""
    else if |parts| == 1 then parts[0]
    else JoinWith(sep, parts[..|parts| - 1]) + sep + parts[|parts| - 1]
  }

  /** `s.split(c)`: the pieces of `s` between occurrences of `c`; the inverse of joining on `c`. */
  function SplitOn(s: string, c: char): (pieces: seq<string>)
    ensures |pieces| >= 1
    decreases |s|
  {
    if c !in s then [s]
    else
      var i := LastIndexOf(s, c);
      SplitOn(s[..i], c) + [s[i + 1..]]
  }

  /** The position of the last `c` in `s`. */
  function LastIndexOf(s: string, c: char): (i: nat)
    requires c in s
    ensures i < |s| && s[i] == c && c !in s[i + 1..]
    decreases |s|
  {
    if s[|s| - 1] == c then |s| - 1
    else
      assert c in s[..|s| - 1] by {
        var j :| 0 <= j < |s| && s[j] == c;
        assert s[..|s| - 1][j] == c;
      }
      var i := LastIndexOf(s[..|s| - 1], c);
      assert s[i + 1..] == s[..|s| - 1][i + 1..] + [s[|s| - 1]];
      i
  }

  /**
    Joining fragments free of `c` on `c` and splitting the result on `c`
    gives the fragments back: joining loses no information.
   */
  lemma {:induction false} SplitJoinRoundTrip(parts: seq<string>, c: char)
    requires |parts| >= 1
    requires forall i | 0 <= i < |parts| :: c !in parts[i]
    ensures SplitOn(JoinWith([c], parts), c) == parts
    decreases |parts|
  {
    if |parts| > 1 {
      var init, last := parts[..|parts| - 1], parts[|parts| - 1];
      SplitJoinRoundTrip(init, c);
      var prefix := JoinWith([c], init);
      var s := prefix + [c] + last;
      assert s == JoinWith([c], parts);
      assert c in s by { assert s[|prefix|] == c; }
      LastIndexOfJoint(prefix, c, last);
      var i := LastIndexOf(s, c);
      assert s[..i] == prefix;
      assert s[i + 1..] == last;
      assert parts == init + [last];
    }
  }

  lemma {:induction false} LastIndexOfJoint(p: string, c: char, q: string)
    requires c !in q
    ensures c in p + [c] + q && LastIndexOf(p + [c] + q, c) == |p|
    decreases |q|
  {
    var s := p + [c] + q;
    assert s[|p|] == c;
    if q != [] {
      var q' := q[..|q| - 1];
      assert s[..|s| - 1] == p + [c] + q';
      assert s[|s| - 1] == q[|q| - 1];
      LastIndexOfJoint(p, c, q');
    }
  }

  /** `s.rstrip(c)`: `s` without its trailing run of `c`. */
  function RStrip(s: string, c: char): (r: string)
    ensures r <= s
    ensures r == [] || r[|r| - 1] != c
    ensures forall i | |r| <= i < |s| :: s[i] == c
    decreases |s|
  {
    if |s| > 0 && s[|s| - 1] == c then RStrip(s[..|s| - 1], c) else s
  }
}
