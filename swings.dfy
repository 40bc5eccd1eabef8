/** Swing points: local extrema of a series over a symmetric window. */
module Swings {
  import opened Numeric

  datatype SwingPoint = SwingPoint(idx: nat, val: real)

  /** Index i has a full window [i − w, i + w] inside the series. */
  predicate InWindowRange(data: seq<real>, w: nat, i: nat)
  {
    w <= i && i + w < |data|
  }

  /** data[i] is the greatest value of its window (ties included). */
  predicate IsSwingHigh(data: seq<real>, w: nat, i: nat)
  {
    InWindowRange(data, w, i) && forall j :: i - w <= j <= i + w ==> data[j] <= data[i]
  }

  /** data[i] is the least value of its window (ties included). */
  predicate IsSwingLow(data: seq<real>, w: nat, i: nat)
  {
    InWindowRange(data, w, i) && forall j :: i - w <= j <= i + w ==> data[i] <= data[j]
  }

  /** One past the last index the scan visits: `data.length - window`, or none at all. */
  function ScanEnd(data: seq<real>, w: nat): nat
  {
    if |data| < w then 0 else |data| - w
  }

  /** The swing highs among indices [w, n), in index order. */
  function SwingHighsBefore(data: seq<real>, w: nat, n: nat): seq<SwingPoint>
    requires n <= ScanEnd(data, w)
  {
    if n <= w then []
    else SwingHighsBefore(data, w, n - 1) + (if IsSwingHigh(data, w, n - 1) then [SwingPoint(n - 1, data[n - 1])] else [])
  }

  /** The swing lows among indices [w, n), in index order. */
  function SwingLowsBefore(data: seq<real>, w: nat, n: nat): seq<SwingPoint>
    requires n <= ScanEnd(data, w)
  {
    if n <= w then []
    else SwingLowsBefore(data, w, n - 1) + (if IsSwingLow(data, w, n - 1) then [SwingPoint(n - 1, data[n - 1])] else [])
  }

  function SwingHighs(data: seq<real>, w: nat): seq<SwingPoint>
  {
    SwingHighsBefore(data, w, ScanEnd(data, w))
  }

  function SwingLows(data: seq<real>, w: nat): seq<SwingPoint>
  {
    SwingLowsBefore(data, w, ScanEnd(data, w))
  }

  /** `findSwingHighs(data, window)` */
  method FindSwingHighs(data: seq<real>, window: nat) returns (r: seq<SwingPoint>)
    ensures r == SwingHighs(data, window)
  {
    r := [];
    var i := window;
    while i < |data| - window
      invariant window <= i <= ScanEnd(data, window) || (i == window && ScanEnd(data, window) <= window)
      invariant r == SwingHighsBefore(data, window, if i <= ScanEnd(data, window) then i else ScanEnd(data, window))
    {
      var slice := data[i - window .. i + window + 1];
      assert slice[window] == data[i];
      assert forall j :: i - window <= j <= i + window ==> data[j] == slice[j - (i - window)];
      if data[i] == Max(slice) {
        r := r + [SwingPoint(i, data[i])];
      }
      i := i + 1;
    }
  }

  /** `findSwingLows(data, window)` */
  method FindSwingLows(data: seq<real>, window: nat) returns (r: seq<SwingPoint>)
    ensures r == SwingLows(data, window)
  {
    r := [];
    var i := window;
    while i < |data| - window
      invariant window <= i <= ScanEnd(data, window) || (i == window && ScanEnd(data, window) <= window)
      invariant r == SwingLowsBefore(data, window, if i <= ScanEnd(data, window) then i else ScanEnd(data, window))
    {
      var slice := data[i - window .. i + window + 1];
      assert slice[window] == data[i];
      assert forall j :: i - window <= j <= i + window ==> data[j] == slice[j - (i - window)];
      if data[i] == Min(slice) {
        r := r + [SwingPoint(i, data[i])];
      }
      i := i + 1;
    }
  }

  predicate IndicesIncrease(r: seq<SwingPoint>)
  {
    forall k, l :: 0 <= k < l < |r| ==> r[k].idx < r[l].idx
  }

  /** Every point of `r` is a swing high in [w, n), carrying its value. */
  predicate OnlySwingHighs(data: seq<real>, w: nat, n: nat, r: seq<SwingPoint>)
  {
    forall k :: 0 <= k < |r| ==> w <= r[k].idx < n && r[k].idx < |data| && r[k].val == data[r[k].idx] && IsSwingHigh(data, w, r[k].idx)
  }

  /** Every swing high in [w, n) appears in `r`. */
  predicate AllSwingHighs(data: seq<real>, w: nat, n: nat, r: seq<SwingPoint>)
  {
    forall i :: w <= i < n && IsSwingHigh(data, w, i) ==> exists k :: 0 <= k < |r| && r[k].idx == i
  }

  lemma {:induction false} SwingHighsSound(data: seq<real>, w: nat, n: nat)
    requires n <= ScanEnd(data, w)
    ensures OnlySwingHighs(data, w, n, SwingHighsBefore(data, w, n))
    ensures IndicesIncrease(SwingHighsBefore(data, w, n))
  {
    if n > w {
      SwingHighsSound(data, w, n - 1);
      var r := SwingHighsBefore(data, w, n);
      var r0 := SwingHighsBefore(data, w, n - 1);
      forall k | 0 <= k < |r|
        ensures w <= r[k].idx < n && r[k].idx < |data| && r[k].val == data[r[k].idx] && IsSwingHigh(data, w, r[k].idx)
      {
        if k < |r0| {
          assert r[k] == r0[k];
        }
      }
      forall k, l | 0 <= k < l < |r|
        ensures r[k].idx < r[l].idx
      {
        assert r[k] == r0[k];
        if l < |r0| {
          assert r[l] == r0[l];
        }
      }
    }
  }

  lemma {:induction false} SwingHighsComplete(data: seq<real>, w: nat, n: nat)
    requires n <= ScanEnd(data, w)
    ensures AllSwingHighs(data, w, n, SwingHighsBefore(data, w, n))
  {
    if n > w {
      SwingHighsComplete(data, w, n - 1);
      var r := SwingHighsBefore(data, w, n);
      var r0 := SwingHighsBefore(data, w, n - 1);
      forall i | w <= i < n && IsSwingHigh(data, w, i)
        ensures exists k :: 0 <= k < |r| && r[k].idx == i
      {
        if i < n - 1 {
          var k :| 0 <= k < |r0| && r0[k].idx == i;
          assert r[k] == r0[k];
        } else {
          assert r[|r| - 1].idx == i;
        }
      }
    }
  }

  /** Every point of `r` is a swing low in [w, n), carrying its value. */
  predicate OnlySwingLows(data: seq<real>, w: nat, n: nat, r: seq<SwingPoint>)
  {
    forall k :: 0 <= k < |r| ==> w <= r[k].idx < n && r[k].idx < |data| && r[k].val == data[r[k].idx] && IsSwingLow(data, w, r[k].idx)
  }

  /** Every swing low in [w, n) appears in `r`. */
  predicate AllSwingLows(data: seq<real>, w: nat, n: nat, r: seq<SwingPoint>)
  {
    forall i :: w <= i < n && IsSwingLow(data, w, i) ==> exists k :: 0 <= k < |r| && r[k].idx == i
  }

  lemma {:induction false} SwingLowsSound(data: seq<real>, w: nat, n: nat)
    requires n <= ScanEnd(data, w)
    ensures OnlySwingLows(data, w, n, SwingLowsBefore(data, w, n))
    ensures IndicesIncrease(SwingLowsBefore(data, w, n))
  {
    if n > w {
      SwingLowsSound(data, w, n - 1);
      var r := SwingLowsBefore(data, w, n);
      var r0 := SwingLowsBefore(data, w, n - 1);
      forall k | 0 <= k < |r|
        ensures w <= r[k].idx < n && r[k].idx < |data| && r[k].val == data[r[k].idx] && IsSwingLow(data, w, r[k].idx)
      {
        if k < |r0| {
          assert r[k] == r0[k];
        }
      }
      forall k, l | 0 <= k < l < |r|
        ensures r[k].idx < r[l].idx
      {
        assert r[k] == r0[k];
        if l < |r0| {
          assert r[l] == r0[l];
        }
      }
    }
  }

  lemma {:induction false} SwingLowsComplete(data: seq<real>, w: nat, n: nat)
    requires n <= ScanEnd(data, w)
    ensures AllSwingLows(data, w, n, SwingLowsBefore(data, w, n))
  {
    if n > w {
      SwingLowsComplete(data, w, n - 1);
      var r := SwingLowsBefore(data, w, n);
      var r0 := SwingLowsBefore(data, w, n - 1);
      forall i | w <= i < n && IsSwingLow(data, w, i)
        ensures exists k :: 0 <= k < |r| && r[k].idx == i
      {
        if i < n - 1 {
          var k :| 0 <= k < |r0| && r0[k].idx == i;
          assert r[k] == r0[k];
        } else {
          assert r[|r| - 1].idx == i;
        }
      }
    }
  }

  /**
   * The swing highs are exactly the indices whose value tops their window:
   * each reported point is one (with its value), the indices strictly increase,
   * and no qualifying index is left out, so a plateau yields one point per index.
   */
  lemma SwingHighsExact(data: seq<real>, w: nat, n: nat)
    requires n <= ScanEnd(data, w)
    ensures OnlySwingHighs(data, w, n, SwingHighsBefore(data, w, n))
    ensures IndicesIncrease(SwingHighsBefore(data, w, n))
    ensures AllSwingHighs(data, w, n, SwingHighsBefore(data, w, n))
  {
    SwingHighsSound(data, w, n);
    SwingHighsComplete(data, w, n);
  }

  /** The same three facts for the swing lows. */
  lemma SwingLowsExact(data: seq<real>, w: nat, n: nat)
    requires n <= ScanEnd(data, w)
    ensures OnlySwingLows(data, w, n, SwingLowsBefore(data, w, n))
    ensures IndicesIncrease(SwingLowsBefore(data, w, n))
    ensures AllSwingLows(data, w, n, SwingLowsBefore(data, w, n))
  {
    SwingLowsSound(data, w, n);
    SwingLowsComplete(data, w, n);
  }
}
