/** Support and resistance levels: distinct rounded swing values in ascending order. */
module Levels {
  import opened Numeric
  import opened Swings

  predicate StrictlyAscending(s: seq<int>)
  {
    forall i, j :: 0 <= i < j < |s| ==> s[i] < s[j]
  }

  /** Places x into an ascending sequence, dropping it when already present. */
  function Insert(x: int, s: seq<int>): (r: seq<int>)
    requires StrictlyAscending(s)
    ensures StrictlyAscending(r)
    ensures forall y :: y in r <==> y == x || y in s
    ensures |r| <= |s| + 1
    decreases |s|
  {
    if |s| == 0 then [x]
    else if x < s[0] then [x] + s
    else if x == s[0] then s
    else
      var tail := Insert(x, s[1..]);
      assert forall y :: y in tail ==> s[0] < y;
      var r := [s[0]] + tail;
      forall i, j | 0 <= i < j < |r|
        ensures r[i] < r[j]
      {
        assert r[j] == tail[j - 1] && tail[j - 1] in tail;
        if 0 < i {
          assert r[i] == tail[i - 1];
          assert StrictlyAscending(tail);
          assert tail[i - 1] < tail[j - 1];
        }
      }
      assert s == [s[0]] + s[1..];
      r
  }

  /** `[...new Set(xs)].sort((a, b) => a - b)` */
  function SortedDistinct(xs: seq<int>): (r: seq<int>)
    ensures StrictlyAscending(r)
    ensures forall y :: y in r <==> y in xs
    ensures |r| <= |xs|
  {
    if |xs| == 0 then []
    else
      var r := Insert(xs[|xs| - 1], SortedDistinct(xs[..|xs| - 1]));
      assert xs == xs[..|xs| - 1] + [xs[|xs| - 1]];
      r
  }

  /** `points.slice(-3)` */
  function LastThree(points: seq<SwingPoint>): (r: seq<SwingPoint>)
    ensures |r| <= 3
    ensures forall p :: p in r <==> exists k :: 0 <= k < |points| && |points| - 3 <= k && points[k] == p
  {
    var r := if |points| <= 3 then points else points[|points| - 3..];
    assert forall k :: 0 <= k < |points| && |points| - 3 <= k ==> points[k] == r[k - (|points| - |r|)];
    r
  }

  /** `[...new Set(points.slice(-3).map((p) => Math.round(p.val)))].sort((a, b) => a - b)` */
  function LevelsOf(points: seq<SwingPoint>): (r: seq<int>)
    ensures StrictlyAscending(r)
    ensures |r| <= 3
    ensures forall y :: y in r <==> exists p :: p in LastThree(points) && Round(p.val) == y
  {
    var last := LastThree(points);
    var rounded := seq(|last|, k requires 0 <= k < |last| => Round(last[k].val));
    assert forall p :: p in last ==> Round(p.val) in rounded by {
      forall p | p in last ensures Round(p.val) in rounded {
        var k :| 0 <= k < |last| && last[k] == p;
        assert rounded[k] == Round(p.val);
      }
    }
    SortedDistinct(rounded)
  }

  /**
   * A strictly ascending sequence is determined by its set of elements, so
   * de-duplicating and sorting gives one answer whatever the order of the input.
   */
  lemma {:induction false} AscendingUnique(a: seq<int>, b: seq<int>)
    requires StrictlyAscending(a) && StrictlyAscending(b)
    requires forall y :: y in a <==> y in b
    ensures a == b
    decreases |a|
  {
    if 0 < |b| {
      assert b[0] in b;
    }
    if |a| == 0 {
    } else {
      assert a[0] in a;
      assert |b| > 0;
      assert b[0] in b;
      assert a[0] == b[0];
      forall y ensures y in a[1..] <==> y in b[1..]
      {
        if y in a[1..] {
          var k :| 0 <= k < |a[1..]| && a[1..][k] == y;
          assert a[k + 1] == y;
        }
        if y in b[1..] {
          var k :| 0 <= k < |b[1..]| && b[1..][k] == y;
          assert b[k + 1] == y;
        }
        assert y in a[1..] <==> y in a && a[0] < y;
        assert y in b[1..] <==> y in b && b[0] < y;
      }
      AscendingUnique(a[1..], b[1..]);
      assert a == [a[0]] + a[1..];
      assert b == [b[0]] + b[1..];
    }
  }

  /** The levels do not depend on the order in which the last three points are listed. */
  lemma LevelsCanonical(points: seq<SwingPoint>, other: seq<int>)
    requires StrictlyAscending(other)
    requires forall y :: y in other <==> exists p :: p in LastThree(points) && Round(p.val) == y
    ensures LevelsOf(points) == other
  {
    AscendingUnique(LevelsOf(points), other);
  }
}
