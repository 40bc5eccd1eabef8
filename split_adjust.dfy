/**
 * Split adjustment: detects forward and reverse stock splits from the gap
 * between a close and the next open, and rescales every earlier bar.
 */
module SplitAdjust {
  import opened Numeric
  import opened Bars

  /** What one day boundary calls for: nothing, a forward split by `n`, or a reverse split by `n`. */
  datatype Rescale = Keep | Divide(n: int) | Multiply(n: int)

  predicate ValidRescale(r: Rescale)
  {
    r.Keep? || 1 <= r.n
  }

  /** A ratio under 0.4 rounds its reciprocal to at least 3. */
  lemma ForwardFactor(ratio: real)
    requires 0.0 < ratio < 0.4
    ensures 1.0 / ratio > 2.5 && 3 <= Round(1.0 / ratio)
  {
    assert 2.5 * ratio < 1.0;
  }

  /**
   * The check on the boundary between a bar closing at `prevClose` and the next
   * opening at `currOpen`: non-positive prices are skipped, an open under 0.4 times
   * the close is a forward split, one over 2.5 times it a reverse split.
   */
  function Detect(prevClose: real, currOpen: real): (r: Rescale)
    ensures ValidRescale(r)
    ensures r.Keep? <==> prevClose <= 0.0 || currOpen <= 0.0 || 0.4 <= currOpen / prevClose <= 2.5
    ensures r.Divide? <==> 0.0 < prevClose && 0.0 < currOpen && currOpen / prevClose < 0.4
    ensures r.Multiply? <==> 0.0 < prevClose && 0.0 < currOpen && currOpen / prevClose > 2.5
    ensures r.Divide? ==> 3 <= r.n && r.n == Round(prevClose / currOpen)
    ensures r.Multiply? ==> 3 <= r.n && r.n == Round(currOpen / prevClose)
  {
    if prevClose <= 0.0 || currOpen <= 0.0 then Keep
    else
      var ratio := currOpen / prevClose;
      if ratio < 0.4 then
        ForwardFactor(ratio);
        assert 1.0 / ratio == prevClose / currOpen;
        Divide(Round(1.0 / ratio))
      else if ratio > 2.5 then Multiply(Round(ratio))
      else Keep
  }

  /** `Math.round(volume / n)` */
  function MergedVolume(volume: int, n: int): int
    requires 1 <= n
  {
    Round(volume as real / n as real)
  }

  /** One bar rescaled: prices divided and volume multiplied, or the reverse with volume rounded. */
  function Rescaled(b: DailyBar, r: Rescale): DailyBar
    requires ValidRescale(r)
  {
    match r
    case Keep => b
    case Divide(n) =>
      var f := n as real;
      b.(open := b.open / f, high := b.high / f, low := b.low / f, close := b.close / f, volume := b.volume * n)
    case Multiply(n) =>
      var f := n as real;
      b.(open := b.open * f, high := b.high * f, low := b.low * f, close := b.close * f,
         volume := MergedVolume(b.volume, n))
  }

  /** Every bar strictly before index `i` rescaled, the rest as they were. */
  function RescaleBefore(s: seq<DailyBar>, i: nat, r: Rescale): (t: seq<DailyBar>)
    requires i <= |s| && ValidRescale(r)
    ensures |t| == |s|
    ensures forall k :: 0 <= k < |s| ==> t[k].date == s[k].date
    ensures forall k :: i <= k < |s| ==> t[k] == s[k]
  {
    seq(|s|, k requires 0 <= k < |s| => if k < i then Rescaled(s[k], r) else s[k])
  }

  /** The bars when the scan reaches index `k`: boundaries 1 to k - 1 have been handled, in order. */
  function AfterSteps(s: seq<DailyBar>, k: nat): (t: seq<DailyBar>)
    requires 1 <= k <= |s|
    ensures |t| == |s|
    decreases k
  {
    if k == 1 then s
    else
      var t := AfterSteps(s, k - 1);
      RescaleBefore(t, k - 1, Detect(t[k - 2].close, t[k - 1].open))
  }

  /** `adjustForSplits(bars)` on the values of the bars. */
  function Adjusted(s: seq<DailyBar>): seq<DailyBar>
  {
    if |s| < 2 then s else AfterSteps(s, |s|)
  }

  /** No boundary of the series calls for a rescale. */
  predicate Settled(s: seq<DailyBar>)
  {
    forall i :: 1 <= i < |s| ==> Detect(s[i - 1].close, s[i].open) == Keep
  }

  // ---------------------------------------------------------------- the scan, in place

  /** `result[j].open /= n; ...; result[j].volume *= n` for every `j < i`. */
  method DivideBefore(result: array<DailyBar>, i: nat, n: int)
    requires i <= result.Length && 1 <= n
    modifies result
    ensures result[..] == RescaleBefore(old(result[..]), i, Divide(n))
  {
    for j := 0 to i
      invariant forall k :: 0 <= k < j ==> result[k] == Rescaled(old(result[k]), Divide(n))
      invariant forall k :: j <= k < result.Length ==> result[k] == old(result[k])
    {
      var b := result[j];
      var f := n as real;
      result[j] := b.(open := b.open / f, high := b.high / f, low := b.low / f, close := b.close / f,
                      volume := b.volume * n);
    }
  }

  /** `result[j].open *= n; ...; result[j].volume = Math.round(result[j].volume / n)` for every `j < i`. */
  method MultiplyBefore(result: array<DailyBar>, i: nat, n: int)
    requires i <= result.Length && 1 <= n
    modifies result
    ensures result[..] == RescaleBefore(old(result[..]), i, Multiply(n))
  {
    for j := 0 to i
      invariant forall k :: 0 <= k < j ==> result[k] == Rescaled(old(result[k]), Multiply(n))
      invariant forall k :: j <= k < result.Length ==> result[k] == old(result[k])
    {
      var b := result[j];
      var f := n as real;
      var scaled := b.(open := b.open * f, high := b.high * f, low := b.low * f, close := b.close * f,
                       volume := MergedVolume(b.volume, n));
      assert scaled == Rescaled(b, Multiply(n));
      result[j] := scaled;
    }
  }

  /** One turn of the scan: the boundary before bar `i`, checked on the current values. */
  method CheckBoundary(result: array<DailyBar>, i: nat)
    requires 1 <= i < result.Length
    modifies result
    ensures result[..] == RescaleBefore(old(result[..]), i, Detect(old(result[i - 1].close), old(result[i].open)))
  {
    var prevClose := result[i - 1].close;
    var currOpen := result[i].open;
    if prevClose <= 0.0 || currOpen <= 0.0 {
      assert RescaleBefore(result[..], i, Keep) == result[..];
      return;
    }
    var ratio := currOpen / prevClose;
    if ratio < 0.4 {
      ForwardFactor(ratio);
      var splitRatio := Round(1.0 / ratio);
      DivideBefore(result, i, splitRatio);
    } else if ratio > 2.5 {
      var mergeRatio := Round(ratio);
      MultiplyBefore(result, i, mergeRatio);
    } else {
      assert RescaleBefore(result[..], i, Keep) == result[..];
    }
  }

  /** `adjustForSplits(bars)`: a short series is returned as is; otherwise a copy is scanned and rescaled. */
  method AdjustForSplits(bars: array<DailyBar>) returns (result: array<DailyBar>)
    ensures bars.Length < 2 ==> result == bars
    ensures 2 <= bars.Length ==> fresh(result)
    ensures result[..] == Adjusted(bars[..])
  {
    if bars.Length < 2 {
      return bars;
    }
    result := new DailyBar[bars.Length](k reads bars requires 0 <= k < bars.Length => bars[k]);
    assert result[..] == AfterSteps(bars[..], 1);
    for i := 1 to result.Length
      invariant result[..] == AfterSteps(bars[..], i)
    {
      CheckBoundary(result, i);
    }
  }

  // ---------------------------------------------------------------- properties

  /**
   * Step `i` rescales only bars before `i`, so when the scan reaches `k` the bars from
   * `k - 1` on are the original ones: each check compares original prices. Dates never change.
   */
  lemma {:induction false} AfterStepsFrame(s: seq<DailyBar>, k: nat)
    requires 1 <= k <= |s|
    ensures forall j :: k - 1 <= j < |s| ==> AfterSteps(s, k)[j] == s[j]
    ensures forall j :: 0 <= j < |s| ==> AfterSteps(s, k)[j].date == s[j].date
  {
    if k > 1 {
      AfterStepsFrame(s, k - 1);
    }
  }

  /** The result has the input's length and dates; under two bars it is the input itself. */
  lemma AdjustedShape(s: seq<DailyBar>)
    ensures |Adjusted(s)| == |s|
    ensures forall j :: 0 <= j < |s| ==> Adjusted(s)[j].date == s[j].date
    ensures |s| < 2 ==> Adjusted(s) == s
  {
    if 2 <= |s| {
      AfterStepsFrame(s, |s|);
    }
  }

  /** A whole number rounds to itself. */
  lemma RoundWhole(n: int)
    ensures Round(n as real) == n
  {
  }

  /** An exact N:1 split with N at least 3 is detected as a forward split by N. */
  lemma ExactSplitDetected(close: real, n: int)
    requires 0.0 < close && 3 <= n
    ensures Detect(close, close / n as real) == Divide(n)
  {
    var f := n as real;
    var open := close / f;
    assert open / close == 1.0 / f;
    assert close / open == f;
    RoundWhole(n);
  }

  /** An open more than 2.5 times the close is a reverse split by the rounded ratio. */
  lemma DetectAbove(c: real, o: real)
    requires 0.0 < c && 0.0 < o && o / c > 2.5
    ensures Detect(c, o) == Multiply(Round(o / c))
  {
  }

  /** An exact 1:N reverse split with N at least 3 is detected as a reverse split by N. */
  lemma ExactMergeDetected(close: real, n: int)
    requires 0.0 < close && 3 <= n
    ensures Detect(close, close * (n as real)) == Multiply(n)
  {
    var f := n as real;
    var o := close * f;
    MulDivCancel(f, close);
    assert o / close == f;
    RoundWhole(n);
    assert Round(o / close) == n;
    DetectAbove(close, o);
    assert Detect(close, o) == Multiply(n);
    assert o == close * (n as real);
    assert Detect(close, close * (n as real)) == Multiply(n);
  }

  /** A 2:1 split, or a 1:2 reverse split, stays inside the thresholds and is not detected. */
  lemma HalvingNotDetected(close: real)
    requires 0.0 < close
    ensures Detect(close, close / 2.0) == Keep
    ensures Detect(close, close * 2.0) == Keep
  {
    assert (close / 2.0) / close == 0.5;
    assert (close * 2.0) / close == 2.0;
  }

  lemma MulDivCancel(a: real, b: real)
    requires b != 0.0
    ensures (b * a) / b == a
  {
    var q := (b * a) / b;
    assert q * b == a * b;
    assert (q - a) * b == 0.0;
  }
  lemma CancelCommon(o: real, c: real, f: real)
    requires c != 0.0 && f != 0.0
    ensures (o * f) / (c * f) == o / c
  {
    var q := (o * f) / (c * f);
    assert q * (c * f) == o * f;
    assert (q * c - o) * f == 0.0;
    assert q * c == o;
  }
  lemma DivAssoc(o: real, c: real, f: real)
    requires c != 0.0 && f != 0.0
    ensures o / (c * f) == (o / c) / f
  {
    var q := o / (c * f);
    assert q * (c * f) == o;
    assert (q * f) * c == o;
    assert q * f == o / c;
  }

  /** Rounding `x` to `n` keeps `n / x` and `x / n` within [0.4, 2.5] once `x` exceeds 2.5. */
  lemma RoundedRatio(x: real, n: real)
    requires 2.5 < x && x - 0.5 < n <= x + 0.5
    ensures 0.4 <= n / x <= 2.5 && 0.4 <= x / n <= 2.5
  {
    assert 0.4 * x <= n <= 2.5 * x;
    assert n / x * x == n;
    assert 0.4 * n <= x <= 2.5 * n;
    assert x / n * n == x;
  }

  /** A boundary whose ratio lies within [0.4, 2.5] calls for nothing. */
  lemma QuietBetween(c: real, o: real)
    requires 0.0 < c && 0.4 <= o / c <= 2.5
    ensures Detect(c, o) == Keep
  {
  }

  /** Dividing the earlier close by the detected factor brings the boundary back within the thresholds. */
  lemma DivideSettles(c: real, o: real, n: int)
    requires 0.0 < c && 0.0 < o && o / c < 0.4 && n == Round(c / o) && 3 <= n
    ensures Detect(c / n as real, o) == Keep
  {
    var f := n as real;
    var x := c / o;
    assert x * (o / c) == 1.0;
    assert 2.5 < x;
    RoundedRatio(x, f);
    var c2 := c / f;
    assert 0.0 < c2;
    assert o / c2 == o * f / c;
    assert f / x == f * o / c;
    QuietBetween(c2, o);
  }

  /** Multiplying the earlier close by the detected factor brings the boundary back within the thresholds. */
  lemma MultiplySettles(c: real, o: real, n: int)
    requires 0.0 < c && 0.0 < o && o / c > 2.5 && n == Round(o / c) && 3 <= n
    ensures Detect(c * n as real, o) == Keep
  {
    var f := n as real;
    var x := o / c;
    RoundedRatio(x, f);
    var c2 := c * f;
    assert 0.0 < c2;
    DivAssoc(o, c, f);
    assert o / c2 == x / f;
    QuietBetween(c2, o);
  }

  /** After the rescale it calls for, a boundary no longer calls for one. */
  lemma RescaleSettles(a: DailyBar, b: DailyBar)
    ensures Detect(Rescaled(a, Detect(a.close, b.open)).close, b.open) == Keep
  {
    var r := Detect(a.close, b.open);
    if r.Divide? {
      DivideSettles(a.close, b.open, r.n);
    } else if r.Multiply? {
      MultiplySettles(a.close, b.open, r.n);
    }
  }

  /** Dividing both prices by the same positive factor keeps a quiet boundary quiet. */
  lemma QuietUnderDivide(c: real, o: real, f: real, c2: real, o2: real)
    requires 0.0 < f && c2 == c / f && o2 == o / f && Detect(c, o) == Keep
    ensures Detect(c2, o2) == Keep
  {
    if 0.0 < c && 0.0 < o {
      CancelCommon(o, c, 1.0 / f);
      assert o2 / c2 == o / c;
    }
  }

  /** Multiplying both prices by the same positive factor keeps a quiet boundary quiet. */
  lemma QuietUnderMultiply(c: real, o: real, f: real, c2: real, o2: real)
    requires 0.0 < f && c2 == c * f && o2 == o * f && Detect(c, o) == Keep
    ensures Detect(c2, o2) == Keep
  {
    if 0.0 < c && 0.0 < o {
      CancelCommon(o, c, f);
      assert o2 / c2 == o / c;
    }
  }

  /** Rescaling both bars of a boundary by the same factor keeps its ratio, so a quiet boundary stays quiet. */
  lemma ScalingKeepsQuiet(a: DailyBar, b: DailyBar, r: Rescale)
    requires ValidRescale(r) && Detect(a.close, b.open) == Keep
    ensures Detect(Rescaled(a, r).close, Rescaled(b, r).open) == Keep
  {
    var c, o := Rescaled(a, r).close, Rescaled(b, r).open;
    if r.Divide? {
      QuietUnderDivide(a.close, b.open, r.n as real, c, o);
    } else if r.Multiply? {
      QuietUnderMultiply(a.close, b.open, r.n as real, c, o);
    }
  }

  /** When the scan reaches `k`, every boundary before `k` is quiet. */
  lemma {:induction false} StepsSettle(s: seq<DailyBar>, k: nat)
    requires 1 <= k <= |s|
    ensures forall i :: 1 <= i < k ==> Detect(AfterSteps(s, k)[i - 1].close, AfterSteps(s, k)[i].open) == Keep
  {
    if k > 1 {
      StepsSettle(s, k - 1);
      var prev := AfterSteps(s, k - 1);
      var r := Detect(prev[k - 2].close, prev[k - 1].open);
      var t := AfterSteps(s, k);
      assert t == RescaleBefore(prev, k - 1, r);
      forall i | 1 <= i < k
        ensures Detect(t[i - 1].close, t[i].open) == Keep
      {
        if i < k - 1 {
          ScalingKeepsQuiet(prev[i - 1], prev[i], r);
        } else {
          RescaleSettles(prev[k - 2], prev[k - 1]);
        }
      }
    }
  }

  /** On a series with no boundary to rescale, the scan changes nothing. */
  lemma {:induction false} SettledSteps(s: seq<DailyBar>, k: nat)
    requires Settled(s) && 1 <= k <= |s|
    ensures AfterSteps(s, k) == s
  {
    if k > 1 {
      SettledSteps(s, k - 1);
      assert RescaleBefore(s, k - 1, Keep) == s;
    }
  }

  /** After one pass no boundary calls for a rescale. */
  lemma AdjustedSettled(s: seq<DailyBar>)
    ensures Settled(Adjusted(s))
  {
    if 2 <= |s| {
      StepsSettle(s, |s|);
    }
  }

  /** A settled series is returned unchanged. */
  lemma SettledFixed(s: seq<DailyBar>)
    requires Settled(s)
    ensures Adjusted(s) == s
  {
    if 2 <= |s| {
      SettledSteps(s, |s|);
    }
  }

  /** Adjusting an adjusted series changes nothing. */
  lemma Idempotent(s: seq<DailyBar>)
    ensures Adjusted(Adjusted(s)) == Adjusted(s)
  {
    AdjustedSettled(s);
    SettledFixed(Adjusted(s));
  }
}
