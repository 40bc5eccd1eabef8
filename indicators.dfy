/**
 * The series transforms of the indicator library: each returns a series as long
 * as its input in which the positions without enough history hold None.
 */
module Indicators {
  import opened Wrappers
  import opened Numeric
  import opened Bars

  // ---------------------------------------------------------------- SMA

  /** Mean of the `period` values ending at index i. */
  function WindowMean(data: seq<real>, period: nat, i: nat): real
    requires 1 <= period && period - 1 <= i < |data|
  {
    Sum(data[i - period + 1 .. i + 1]) / period as real
  }

  /** `sma(data, period)` */
  function Sma(data: seq<real>, period: nat): (r: seq<Option<real>>)
    requires 1 <= period
    ensures |r| == |data|
    ensures forall i :: 0 <= i < |data| ==> (r[i].None? <==> i < period - 1)
  {
    seq(|data|, i requires 0 <= i < |data| =>
      if i < period - 1 then None else Some(WindowMean(data, period, i)))
  }

  /** Every defined moving average lies between the least and the greatest value of its window. */
  lemma SmaWithinWindow(data: seq<real>, period: nat, i: nat, lo: real, hi: real)
    requires 1 <= period && i < |data|
    requires forall k :: i - period < k <= i && 0 <= k ==> lo <= data[k] <= hi
    ensures Sma(data, period)[i].Some? ==> lo <= Sma(data, period)[i].value <= hi
  {
    if period - 1 <= i {
      var w := data[i - period + 1 .. i + 1];
      SumBounds(w, lo, hi);
      assert |w| as real == period as real;
      DivBounds(Sum(w), period as real, lo, hi);
    }
  }

  /** n·lo ≤ x ≤ n·hi with n > 0 puts x / n within [lo, hi]. */
  lemma DivBounds(x: real, n: real, lo: real, hi: real)
    requires 0.0 < n && n * lo <= x <= n * hi
    ensures lo <= x / n <= hi
  {
    var q := x / n;
    assert q * n == x;
    assert (q - lo) * n >= 0.0;
    assert (hi - q) * n >= 0.0;
  }

  /** Consecutive averages differ by the value entering the window less the one leaving it. */
  lemma {:induction false} SmaSlide(data: seq<real>, period: nat, i: nat)
    requires 1 <= period && period <= i < |data|
    ensures Sma(data, period)[i].Some? && Sma(data, period)[i - 1].Some?
    ensures (Sma(data, period)[i].value - Sma(data, period)[i - 1].value) * period as real
            == data[i] - data[i - period]
  {
    var w := data[i - period .. i + 1];
    assert data[i - period + 1 .. i + 1] == w[1..];
    assert data[i - period .. i] == w[..|w| - 1];
    SumDropFirst(w);
    assert w[|w| - 1] == data[i] && w[0] == data[i - period];
    assert w[1..][..|w[1..]| - 1] == w[1..|w| - 1];
    var p := period as real;
    assert Sum(w[1..]) == Sum(w[1..|w| - 1]) + data[i];
    assert Sum(w[..|w| - 1]) == data[i - period] + Sum(w[1..|w| - 1]);
    assert Sum(w[1..]) / p * p == Sum(w[1..]);
    assert Sum(w[..|w| - 1]) / p * p == Sum(w[..|w| - 1]);
  }

  /** Taking the first element off a sum. */
  lemma {:induction false} SumDropFirst(s: seq<real>)
    requires |s| > 0
    ensures Sum(s) == s[0] + Sum(s[1..])
  {
    if |s| > 1 {
      SumDropFirst(s[..|s| - 1]);
      assert s[..|s| - 1][1..] == s[1..][..|s[1..]| - 1];
    }
  }

  // ---------------------------------------------------------------- EMA

  /** The smoothing factor 2 / (period + 1). */
  function EmaMultiplier(period: nat): (k: real)
    requires 1 <= period
    ensures 0.0 < k <= 1.0
  {
    2.0 / (period + 1) as real
  }

  /** The EMA at a position where it is defined: the seed mean, then the recurrence. */
  function EmaValue(data: seq<real>, period: nat, i: nat): real
    requires 1 <= period && period - 1 <= i < |data|
    decreases i
  {
    if i == period - 1 then Sum(data[..period]) / period as real
    else
      var prev := EmaValue(data, period, i - 1);
      (data[i] - prev) * EmaMultiplier(period) + prev
  }

  function EmaAt(data: seq<real>, period: nat, i: nat): Option<real>
    requires 1 <= period && i < |data|
  {
    if i < period - 1 then None else Some(EmaValue(data, period, i))
  }

  /** `ema(data, period)` */
  method Ema(data: seq<real>, period: nat) returns (r: seq<Option<real>>)
    requires 1 <= period
    ensures |r| == |data|
    ensures forall i :: 0 <= i < |data| ==> r[i] == EmaAt(data, period, i)
  {
    r := [];
    var multiplier := 2.0 / (period + 1) as real;
    for i := 0 to |data|
      invariant |r| == i
      invariant forall k :: 0 <= k < i ==> r[k] == EmaAt(data, period, k)
    {
      if i < period - 1 {
        r := r + [None];
      } else if i == period - 1 {
        var initial := Sum(data[..period]) / period as real;
        assert EmaAt(data, period, i) == Some(initial);
        r := r + [Some(initial)];
      } else {
        var prev := r[i - 1].value;
        assert prev == EmaValue(data, period, i - 1);
        r := r + [Some((data[i] - prev) * multiplier + prev)];
        assert r[i].value == EmaValue(data, period, i);
      }
    }
  }

  /** The seed of the EMA is the simple moving average over the same first window. */
  lemma EmaSeedIsSma(data: seq<real>, period: nat)
    requires 1 <= period <= |data|
    ensures EmaAt(data, period, period - 1) == Sma(data, period)[period - 1]
  {
    assert data[period - 1 - period + 1 .. period - 1 + 1] == data[..period];
  }

  /** Once defined, every EMA value lies between the least and greatest input seen so far. */
  lemma {:induction false} EmaWithinRange(data: seq<real>, period: nat, i: nat, lo: real, hi: real)
    requires 1 <= period && period - 1 <= i < |data|
    requires forall k :: 0 <= k <= i ==> lo <= data[k] <= hi
    ensures lo <= EmaValue(data, period, i) <= hi
  {
    if i == period - 1 {
      SumBounds(data[..period], lo, hi);
      DivBounds(Sum(data[..period]), period as real, lo, hi);
    } else {
      EmaWithinRange(data, period, i - 1, lo, hi);
      EmaStepWithin(EmaValue(data, period, i - 1), data[i], EmaMultiplier(period), lo, hi);
    }
  }

  /** One smoothing step moves the average towards x and never past it. */
  lemma EmaStepWithin(prev: real, x: real, m: real, lo: real, hi: real)
    requires 0.0 < m <= 1.0 && lo <= prev <= hi && lo <= x <= hi
    ensures lo <= (x - prev) * m + prev <= hi
  {
    NonNegProduct(m, x - lo);
    NonNegProduct(1.0 - m, prev - lo);
    NonNegProduct(m, hi - x);
    NonNegProduct(1.0 - m, hi - prev);
    assert (x - prev) * m + prev - lo == m * (x - lo) + (1.0 - m) * (prev - lo);
    assert hi - ((x - prev) * m + prev) == m * (hi - x) + (1.0 - m) * (hi - prev);
  }

  // ---------------------------------------------------------------- RSI

  /** `closes[k + 1] - closes[k]`, the change that the loop meets at index k + 1. */
  function Change(closes: seq<real>, k: nat): real
    requires k + 1 < |closes|
  {
    closes[k + 1] - closes[k]
  }

  /** `change > 0 ? change : 0` */
  function GainOf(change: real): (g: real)
    ensures 0.0 <= g
  {
    if change > 0.0 then change else 0.0
  }

  /** `change < 0 ? Math.abs(change) : 0` */
  function LossOf(change: real): (l: real)
    ensures 0.0 <= l
  {
    if change < 0.0 then Abs(change) else 0.0
  }

  /** The `gains` array once the loop has run to the end. */
  function Gains(closes: seq<real>): (g: seq<real>)
    ensures |g| == if |closes| == 0 then 0 else |closes| - 1
    ensures forall k :: 0 <= k < |g| ==> g[k] == GainOf(Change(closes, k))
  {
    seq(if |closes| == 0 then 0 else |closes| - 1, k requires 0 <= k < |closes| - 1 => GainOf(Change(closes, k)))
  }

  /** The `losses` array once the loop has run to the end. */
  function Losses(closes: seq<real>): (l: seq<real>)
    ensures |l| == if |closes| == 0 then 0 else |closes| - 1
    ensures forall k :: 0 <= k < |l| ==> l[k] == LossOf(Change(closes, k))
  {
    seq(if |closes| == 0 then 0 else |closes| - 1, k requires 0 <= k < |closes| - 1 => LossOf(Change(closes, k)))
  }

  /** Plain mean of the `period` entries of s that end just before index i. */
  function TrailingMean(s: seq<real>, period: nat, i: nat): (m: real)
    requires 1 <= period <= i <= |s|
    requires forall k :: 0 <= k < |s| ==> 0.0 <= s[k]
    ensures 0.0 <= m
  {
    SumNonNegative(s[i - period .. i]);
    Sum(s[i - period .. i]) / period as real
  }

  /** 100 when there was no loss, else 100 − 100 / (1 + RS): the value both RSI branches push. */
  function RsiOf(avgGain: real, avgLoss: real): real
    requires 0.0 <= avgGain && 0.0 <= avgLoss
  {
    if avgLoss == 0.0 then 100.0 else 100.0 - 100.0 / (1.0 + avgGain / avgLoss)
  }

  /**
   * The RSI at index i: the plain means of the `period` gains and losses that end
   * at i (no Wilder smoothing), or None before index `period`.
   */
  function RsiAt(closes: seq<real>, period: nat, i: nat): Option<real>
    requires 1 <= period && i < |closes|
  {
    if i < period then None
    else Some(RsiOf(TrailingMean(Gains(closes), period, i), TrailingMean(Losses(closes), period, i)))
  }

  /** `rsi(closes, period)` */
  method Rsi(closes: seq<real>, period: nat) returns (r: seq<Option<real>>)
    requires 1 <= period
    ensures |r| == |closes|
    ensures forall i :: 0 <= i < |closes| ==> r[i] == RsiAt(closes, period, i)
  {
    r := [];
    var gains: seq<real> := [];
    var losses: seq<real> := [];
    for i := 0 to |closes|
      invariant |r| == i
      invariant forall k :: 0 <= k < i ==> r[k] == RsiAt(closes, period, k)
      invariant gains == Gains(closes)[..if i == 0 then 0 else i - 1]
      invariant losses == Losses(closes)[..if i == 0 then 0 else i - 1]
    {
      if i == 0 {
        r := r + [None];
      } else {
        var change := closes[i] - closes[i - 1];
        gains := gains + [GainOf(change)];
        losses := losses + [LossOf(change)];
        PrefixExtends(Gains(closes), i);
        PrefixExtends(Losses(closes), i);
        if i < period {
          r := r + [None];
        } else {
          var value := RsiEntry(closes, gains, losses, period, i);
          r := r + [Some(value)];
        }
      }
      assert r[i] == RsiAt(closes, period, i);
    }
  }

  /** A defined entry of `rsi`: the first window's means at `period`, the last window's after it. */
  method RsiEntry(closes: seq<real>, gains: seq<real>, losses: seq<real>, period: nat, i: nat) returns (value: real)
    requires 1 <= period <= i < |closes|
    requires gains == Gains(closes)[..i] && losses == Losses(closes)[..i]
    ensures Some(value) == RsiAt(closes, period, i)
  {
    var avgGain, avgLoss;
    TrailingWindowMean(Gains(closes), gains, period, i);
    TrailingWindowMean(Losses(closes), losses, period, i);
    if i == period {
      avgGain := Sum(gains[..period]) / period as real;
      avgLoss := Sum(losses[..period]) / period as real;
    } else {
      var recentGains := gains[|gains| - period..];
      var recentLosses := losses[|losses| - period..];
      avgGain := Sum(recentGains) / period as real;
      avgLoss := Sum(recentLosses) / period as real;
    }
    value := RsiOf(avgGain, avgLoss);
  }

  lemma PrefixExtends(s: seq<real>, i: nat)
    requires 1 <= i <= |s|
    ensures s[..i] == s[..i - 1] + [s[i - 1]]
  {
  }

  /**
   * Once the loop has pushed i entries, its first `period` entries (at i == period)
   * and its last `period` entries (later) are both the window that ends at i.
   */
  lemma TrailingWindowMean(s: seq<real>, prefix: seq<real>, period: nat, i: nat)
    requires 1 <= period <= i <= |s| && prefix == s[..i]
    requires forall k :: 0 <= k < |s| ==> 0.0 <= s[k]
    ensures i == period ==> Sum(prefix[..period]) / period as real == TrailingMean(s, period, i)
    ensures Sum(prefix[|prefix| - period..]) / period as real == TrailingMean(s, period, i)
  {
    assert prefix[|prefix| - period..] == s[i - period .. i];
    if i == period {
      assert prefix[..period] == s[i - period .. i];
    }
  }

  /** Every defined RSI value lies in [0, 100]. */
  lemma RsiBounded(closes: seq<real>, period: nat, i: nat)
    requires 1 <= period && i < |closes|
    ensures RsiAt(closes, period, i).Some? <==> period <= i
    ensures RsiAt(closes, period, i).Some? ==> 0.0 <= RsiAt(closes, period, i).value <= 100.0
  {
    if period <= i {
      RsiOfBounded(TrailingMean(Gains(closes), period, i), TrailingMean(Losses(closes), period, i));
    }
  }

  lemma RsiOfBounded(avgGain: real, avgLoss: real)
    requires 0.0 <= avgGain && 0.0 <= avgLoss
    ensures 0.0 <= RsiOf(avgGain, avgLoss) <= 100.0
    ensures RsiOf(avgGain, avgLoss) == 100.0 <==> avgLoss == 0.0
  {
    if avgLoss != 0.0 {
      var d := 1.0 + avgGain / avgLoss;
      assert 1.0 <= d;
      assert 0.0 < 100.0 / d <= 100.0;
    }
  }

  /** The RSI is exactly 100 precisely when the trailing window holds no loss. */
  lemma RsiHundredIff(closes: seq<real>, period: nat, i: nat)
    requires 1 <= period <= i < |closes|
    ensures RsiAt(closes, period, i) == Some(100.0)
            <==> forall k :: i - period <= k < i ==> Losses(closes)[k] == 0.0
  {
    var avgGain := TrailingMean(Gains(closes), period, i);
    var avgLoss := TrailingMean(Losses(closes), period, i);
    RsiOfBounded(avgGain, avgLoss);
    TrailingMeanZeroIff(Losses(closes), period, i);
    assert RsiAt(closes, period, i) == Some(RsiOf(avgGain, avgLoss));
  }

  /** A mean of non-negative terms is zero exactly when its window holds only zeros. */
  lemma TrailingMeanZeroIff(s: seq<real>, period: nat, i: nat)
    requires 1 <= period <= i <= |s|
    requires forall k :: 0 <= k < |s| ==> 0.0 <= s[k]
    ensures TrailingMean(s, period, i) == 0.0 <==> forall k :: i - period <= k < i ==> s[k] == 0.0
  {
    var w := s[i - period .. i];
    SumZeroIff(w);
    assert forall k :: i - period <= k < i ==> s[k] == w[k - (i - period)];
    assert TrailingMean(s, period, i) == Sum(w) / period as real;
  }

  /** A constant series has no losses, so each defined RSI is 100. */
  lemma RsiOfConstantSeries(closes: seq<real>, period: nat, i: nat)
    requires 1 <= period <= i < |closes|
    requires forall k :: 0 <= k < |closes| ==> closes[k] == closes[0]
    ensures RsiAt(closes, period, i) == Some(100.0)
  {
    RsiHundredIff(closes, period, i);
  }

  // ---------------------------------------------------------------- MACD

  /** MACD line at i: fast EMA less slow EMA, once both are defined. */
  function MacdLineAt(closes: seq<real>, fast: nat, slow: nat, i: nat): Option<real>
    requires 1 <= fast && 1 <= slow && i < |closes|
  {
    var f := EmaAt(closes, fast, i);
    var s := EmaAt(closes, slow, i);
    if f.None? || s.None? then None else Some(f.value - s.value)
  }

  function MacdLine(closes: seq<real>, fast: nat, slow: nat): (line: seq<Option<real>>)
    requires 1 <= fast && 1 <= slow
    ensures |line| == |closes|
    ensures forall i :: 0 <= i < |closes| ==> line[i] == MacdLineAt(closes, fast, slow, i)
  {
    seq(|closes|, i requires 0 <= i < |closes| => MacdLineAt(closes, fast, slow, i))
  }

  /** `s.filter((v) => v !== null)`: the defined values, in order. */
  function Defined(s: seq<Option<real>>): seq<real>
  {
    if |s| == 0 then []
    else Defined(s[..|s| - 1]) + (if s[|s| - 1].Some? then [s[|s| - 1].value] else [])
  }

  /** A defined entry at i has a place of its own among the defined values: `signalIdx` stays in range. */
  lemma {:induction false} DefinedBefore(s: seq<Option<real>>, i: nat)
    requires i < |s| && s[i].Some?
    ensures |Defined(s[..i])| < |Defined(s)|
    ensures Defined(s)[|Defined(s[..i])|] == s[i].value
  {
    if i == |s| - 1 {
      assert s[..|s| - 1] == s[..i];
    } else {
      DefinedBefore(s[..|s| - 1], i);
      assert s[..|s| - 1][..i] == s[..i];
    }
  }

  /**
   * Signal line at i: where the MACD line is defined, the EMA of the defined MACD
   * values taken at the position that the MACD value at i holds among them.
   */
  function SignalAt(closes: seq<real>, fast: nat, slow: nat, signal: nat, i: nat): Option<real>
    requires 1 <= fast && 1 <= slow && 1 <= signal && i < |closes|
  {
    var line := MacdLine(closes, fast, slow);
    if line[i].None? then None
    else
      DefinedBefore(line, i);
      EmaAt(Defined(line), signal, |Defined(line[..i])|)
  }

  /** Histogram at i: MACD less signal where both are defined. */
  function HistogramAt(closes: seq<real>, fast: nat, slow: nat, signal: nat, i: nat): Option<real>
    requires 1 <= fast && 1 <= slow && 1 <= signal && i < |closes|
  {
    var m := MacdLineAt(closes, fast, slow, i);
    var s := SignalAt(closes, fast, slow, signal, i);
    if m.Some? && s.Some? then Some(m.value - s.value) else None
  }

  /** `macd(closes, fastPeriod, slowPeriod, signalPeriod)` */
  method Macd(closes: seq<real>, fast: nat, slow: nat, signalPeriod: nat)
    returns (macdLine: seq<Option<real>>, signal: seq<Option<real>>, histogram: seq<Option<real>>)
    requires 1 <= fast && 1 <= slow && 1 <= signalPeriod
    ensures macdLine == MacdLine(closes, fast, slow)
    ensures |signal| == |closes| && |histogram| == |closes|
    ensures forall i :: 0 <= i < |closes| ==>
      signal[i] == SignalAt(closes, fast, slow, signalPeriod, i) &&
      histogram[i] == HistogramAt(closes, fast, slow, signalPeriod, i)
  {
    var fastEma := Ema(closes, fast);
    var slowEma := Ema(closes, slow);
    macdLine := seq(|closes|, i requires 0 <= i < |closes| =>
      if fastEma[i].None? || slowEma[i].None? then None else Some(fastEma[i].value - slowEma[i].value));
    assert macdLine == MacdLine(closes, fast, slow);
    var macdValues := Defined(macdLine);
    var signalEma := Ema(macdValues, signalPeriod);
    signal, histogram := SignalLines(closes, fast, slow, signalPeriod, macdLine, signalEma);
  }

  /** The loop of `macd` that aligns the signal EMA with the defined MACD values. */
  method SignalLines(closes: seq<real>, fast: nat, slow: nat, signalPeriod: nat,
                     macdLine: seq<Option<real>>, signalEma: seq<Option<real>>)
    returns (signal: seq<Option<real>>, histogram: seq<Option<real>>)
    requires 1 <= fast && 1 <= slow && 1 <= signalPeriod
    requires macdLine == MacdLine(closes, fast, slow)
    requires |signalEma| == |Defined(macdLine)|
    requires forall j :: 0 <= j < |signalEma| ==> signalEma[j] == EmaAt(Defined(macdLine), signalPeriod, j)
    ensures |signal| == |closes| && |histogram| == |closes|
    ensures forall i :: 0 <= i < |closes| ==>
      signal[i] == SignalAt(closes, fast, slow, signalPeriod, i) &&
      histogram[i] == HistogramAt(closes, fast, slow, signalPeriod, i)
  {
    signal, histogram := [], [];
    var signalIdx := 0;
    for i := 0 to |macdLine|
      invariant |signal| == i && |histogram| == i
      invariant signalIdx == |Defined(macdLine[..i])|
      invariant forall k :: 0 <= k < i ==>
        signal[k] == SignalAt(closes, fast, slow, signalPeriod, k) &&
        histogram[k] == HistogramAt(closes, fast, slow, signalPeriod, k)
    {
      var sig, hist := MacdEntry(closes, fast, slow, signalPeriod, macdLine, signalEma, signalIdx, i);
      signal := signal + [sig];
      histogram := histogram + [hist];
      assert macdLine[..i + 1][..i] == macdLine[..i];
      if macdLine[i].Some? {
        signalIdx := signalIdx + 1;
      }
    }
  }

  /** One step of the `macd` loop: the signal value it reads and the histogram it pushes. */
  method MacdEntry(closes: seq<real>, fast: nat, slow: nat, signalPeriod: nat,
                   macdLine: seq<Option<real>>, signalEma: seq<Option<real>>, signalIdx: nat, i: nat)
    returns (sig: Option<real>, hist: Option<real>)
    requires 1 <= fast && 1 <= slow && 1 <= signalPeriod && i < |closes|
    requires macdLine == MacdLine(closes, fast, slow)
    requires |signalEma| == |Defined(macdLine)|
    requires forall j :: 0 <= j < |signalEma| ==> signalEma[j] == EmaAt(Defined(macdLine), signalPeriod, j)
    requires signalIdx == |Defined(macdLine[..i])|
    ensures sig == SignalAt(closes, fast, slow, signalPeriod, i)
    ensures hist == HistogramAt(closes, fast, slow, signalPeriod, i)
  {
    if macdLine[i].None? {
      sig, hist := None, None;
    } else {
      DefinedBefore(macdLine, i);
      // `signalEma[signalIdx] ?? null`: an index past the end would read as null
      sig := if signalIdx < |signalEma| then signalEma[signalIdx] else None;
      hist := if sig.Some? then Some(macdLine[i].value - sig.value) else None;
    }
  }

  /** The MACD line's first defined index: both EMAs have their seed there. */
  function MacdStart(fast: nat, slow: nat): nat
    requires 1 <= fast && 1 <= slow
  {
    if fast < slow then slow - 1 else fast - 1
  }

  /** Before MacdStart no MACD value is defined, from it on every one is. */
  lemma {:induction false} DefinedMacdCount(closes: seq<real>, fast: nat, slow: nat, n: nat)
    requires 1 <= fast && 1 <= slow && n <= |closes|
    ensures |Defined(MacdLine(closes, fast, slow)[..n])| == if n <= MacdStart(fast, slow) then 0 else n - MacdStart(fast, slow)
  {
    var line := MacdLine(closes, fast, slow);
    if n > 0 {
      DefinedMacdCount(closes, fast, slow, n - 1);
      assert line[..n][..n - 1] == line[..n - 1];
    }
  }

  /**
   * The shape of `macd`: the line is defined from MacdStart on, the signal from
   * `signal − 1` places later, the k-th defined MACD value is the one at
   * MacdStart + k, and the histogram is MACD less signal exactly where the signal
   * is defined.
   */
  lemma MacdShape(closes: seq<real>, fast: nat, slow: nat, signal: nat, i: nat)
    requires 1 <= fast && 1 <= slow && 1 <= signal && i < |closes|
    ensures MacdLineAt(closes, fast, slow, i).Some? <==> MacdStart(fast, slow) <= i
    ensures |Defined(MacdLine(closes, fast, slow))| == if |closes| <= MacdStart(fast, slow) then 0 else |closes| - MacdStart(fast, slow)
    ensures MacdStart(fast, slow) <= i ==>
      Defined(MacdLine(closes, fast, slow))[i - MacdStart(fast, slow)] == MacdLineAt(closes, fast, slow, i).value
    ensures SignalAt(closes, fast, slow, signal, i).Some? <==> MacdStart(fast, slow) + signal - 1 <= i
    ensures HistogramAt(closes, fast, slow, signal, i).Some? <==> SignalAt(closes, fast, slow, signal, i).Some?
    ensures HistogramAt(closes, fast, slow, signal, i).Some? ==>
      HistogramAt(closes, fast, slow, signal, i).value
        == MacdLineAt(closes, fast, slow, i).value - SignalAt(closes, fast, slow, signal, i).value
  {
    var line := MacdLine(closes, fast, slow);
    DefinedMacdCount(closes, fast, slow, |closes|);
    assert line[..|closes|] == line;
    if MacdStart(fast, slow) <= i {
      DefinedMacdCount(closes, fast, slow, i);
      DefinedBefore(line, i);
    }
  }

  /** With the library's defaults (12, 26, 9) the histogram is defined from index 33 on. */
  lemma DefaultHistogramStart(closes: seq<real>, i: nat)
    requires i < |closes|
    ensures HistogramAt(closes, 12, 26, 9, i).Some? <==> 33 <= i
  {
    MacdShape(closes, 12, 26, 9, i);
  }

  // ---------------------------------------------------------------- Bollinger Bands

  /** `slice.reduce((sum, v) => sum + (v - mid) ** 2, 0)` */
  function SquaredDeviations(window: seq<real>, mid: real): real
  {
    if |window| == 0 then 0.0
    else
      var d := window[|window| - 1] - mid;
      SquaredDeviations(window[..|window| - 1], mid) + d * d
  }

  /** stdDev · sqrt(population variance) of the window that ends at i. */
  function BandOffset(closes: seq<real>, period: nat, stdDev: real, sqrt: real -> real, i: nat): real
    requires 1 <= period && period - 1 <= i < |closes|
  {
    var mid := WindowMean(closes, period, i);
    sqrt(SquaredDeviations(closes[i - period + 1 .. i + 1], mid) / period as real) * stdDev
  }

  function UpperAt(closes: seq<real>, period: nat, stdDev: real, sqrt: real -> real, i: nat): Option<real>
    requires 1 <= period && i < |closes|
  {
    if i < period - 1 then None
    else Some(WindowMean(closes, period, i) + BandOffset(closes, period, stdDev, sqrt, i))
  }

  function LowerAt(closes: seq<real>, period: nat, stdDev: real, sqrt: real -> real, i: nat): Option<real>
    requires 1 <= period && i < |closes|
  {
    if i < period - 1 then None
    else Some(WindowMean(closes, period, i) - BandOffset(closes, period, stdDev, sqrt, i))
  }

  /** `bollingerBands(closes, period, stdDev)`, with `Math.sqrt` passed in as `sqrt`. */
  method BollingerBands(closes: seq<real>, period: nat, stdDev: real, sqrt: real -> real)
    returns (upper: seq<Option<real>>, middle: seq<Option<real>>, lower: seq<Option<real>>)
    requires 1 <= period
    ensures middle == Sma(closes, period)
    ensures |upper| == |closes| && |lower| == |closes|
    ensures forall i :: 0 <= i < |closes| ==>
      upper[i] == UpperAt(closes, period, stdDev, sqrt, i) && lower[i] == LowerAt(closes, period, stdDev, sqrt, i)
  {
    middle := Sma(closes, period);
    upper, lower := [], [];
    for i := 0 to |closes|
      invariant |upper| == i && |lower| == i
      invariant forall k :: 0 <= k < i ==>
        upper[k] == UpperAt(closes, period, stdDev, sqrt, k) && lower[k] == LowerAt(closes, period, stdDev, sqrt, k)
    {
      var mid := middle[i];
      if mid.None? {
        upper := upper + [None];
        lower := lower + [None];
      } else {
        var slice := closes[i - period + 1 .. i + 1];
        var variance := SquaredDeviations(slice, mid.value) / period as real;
        var sd := sqrt(variance) * stdDev;
        assert mid.value == WindowMean(closes, period, i);
        assert sd == BandOffset(closes, period, stdDev, sqrt, i);
        upper := upper + [Some(mid.value + sd)];
        lower := lower + [Some(mid.value - sd)];
      }
    }
  }

  lemma {:induction false} SquaredDeviationsNonNegative(window: seq<real>, mid: real)
    ensures 0.0 <= SquaredDeviations(window, mid)
  {
    if |window| > 0 {
      SquaredDeviationsNonNegative(window[..|window| - 1], mid);
      var d := window[|window| - 1] - mid;
      assert 0.0 <= d * d;
    }
  }

  /**
   * The bands are defined exactly where the middle band is, sit symmetrically
   * around it, and (for a non-negative width factor) the upper one is not below it.
   */
  lemma BandsSymmetric(closes: seq<real>, period: nat, stdDev: real, sqrt: real -> real, i: nat)
    requires 1 <= period && i < |closes|
    ensures UpperAt(closes, period, stdDev, sqrt, i).Some? <==> Sma(closes, period)[i].Some?
    ensures LowerAt(closes, period, stdDev, sqrt, i).Some? <==> Sma(closes, period)[i].Some?
    ensures Sma(closes, period)[i].Some? ==>
      var mid := Sma(closes, period)[i].value;
      UpperAt(closes, period, stdDev, sqrt, i).value - mid == mid - LowerAt(closes, period, stdDev, sqrt, i).value
    ensures Sma(closes, period)[i].Some? && 0.0 <= stdDev && IsSqrt(sqrt) ==>
      Sma(closes, period)[i].value <= UpperAt(closes, period, stdDev, sqrt, i).value
  {
    if period - 1 <= i && IsSqrt(sqrt) {
      var mid := WindowMean(closes, period, i);
      var w := closes[i - period + 1 .. i + 1];
      SquaredDeviationsNonNegative(w, mid);
      var v := SquaredDeviations(w, mid) / period as real;
      DivNonNegative(SquaredDeviations(w, mid), period as real);
      if 0.0 <= stdDev {
        NonNegProduct(sqrt(v), stdDev);
      }
    }
  }

  // ---------------------------------------------------------------- ATR

  function Max2(a: real, b: real): (m: real)
    ensures a <= m && b <= m && (m == a || m == b)
  {
    if a >= b then a else b
  }

  /** max(high − low, |high − prevClose|, |low − prevClose|) */
  function TrueRange(prev: DailyBar, cur: DailyBar): real
  {
    Max2(Max2(cur.high - cur.low, Abs(cur.high - prev.close)), Abs(cur.low - prev.close))
  }

  /** The `trs` array that the ATR loop builds: one true range per bar after the first. */
  function TrueRanges(bars: seq<DailyBar>): (trs: seq<real>)
    ensures |trs| == if |bars| == 0 then 0 else |bars| - 1
    ensures forall k :: 0 <= k < |trs| ==> trs[k] == TrueRange(bars[k], bars[k + 1]) && 0.0 <= trs[k]
  {
    seq(if |bars| == 0 then 0 else |bars| - 1, k requires 0 <= k < |bars| - 1 => TrueRange(bars[k], bars[k + 1]))
  }

  /** The ATR: the mean of the last `period` true ranges, or None with `period` bars or fewer. */
  function Atr(bars: seq<DailyBar>, period: nat): Option<real>
    requires 1 <= period
  {
    if |bars| < period + 1 then None
    else Some(Sum(TrueRanges(bars)[|bars| - 1 - period ..]) / period as real)
  }

  /** The loop of `calcAtr` that fills `trs`, one true range per bar after the first. */
  method CollectTrueRanges(bars: seq<DailyBar>) returns (trs: seq<real>)
    requires 1 <= |bars|
    ensures trs == TrueRanges(bars)
  {
    trs := [];
    for i := 1 to |bars|
      invariant trs == TrueRanges(bars)[..i - 1]
    {
      var tr := Max2(Max2(bars[i].high - bars[i].low, Abs(bars[i].high - bars[i - 1].close)),
                     Abs(bars[i].low - bars[i - 1].close));
      assert tr == TrueRange(bars[i - 1], bars[i]);
      trs := trs + [tr];
      assert trs == TrueRanges(bars)[..i] by {
        assert TrueRanges(bars)[..i] == TrueRanges(bars)[..i - 1] + [TrueRanges(bars)[i - 1]];
      }
    }
    assert trs == TrueRanges(bars)[..|bars| - 1];
  }

  /** `calcAtr(bars, period)` */
  method CalcAtr(bars: seq<DailyBar>, period: nat) returns (atr: Option<real>)
    requires 1 <= period
    ensures atr == Atr(bars, period)
    ensures atr.None? <==> |bars| < period + 1
    ensures atr.Some? ==> 0.0 <= atr.value
  {
    if |bars| < period + 1 {
      return None;
    }
    var trs := CollectTrueRanges(bars);
    var recent := trs[|trs| - period..];
    atr := Some(Sum(recent) / period as real);
    AtrNonNegative(bars, period);
  }

  /** True ranges are non-negative, and so is their mean. */
  lemma AtrNonNegative(bars: seq<DailyBar>, period: nat)
    requires 1 <= period
    ensures Atr(bars, period).Some? ==> 0.0 <= Atr(bars, period).value
  {
    if period + 1 <= |bars| {
      var trs := TrueRanges(bars);
      var from := |bars| - 1 - period;
      var recent := trs[from..];
      forall k | 0 <= k < |recent|
        ensures 0.0 <= recent[k]
      {
        assert recent[k] == trs[from + k];
      }
      SumNonNegative(recent);
      var mean := Sum(recent) / period as real;
      DivNonNegative(Sum(recent), period as real);
      assert Atr(bars, period) == Some(mean);
    }
  }
}
