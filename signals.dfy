/** Independent signal tags for the latest bar: RSI zone, SMA cross, MACD, Bollinger touch, volume. */
module Signals {
  import opened Wrappers
  import opened Numeric
  import opened Bars
  import opened Indicators
  import opened Tones

  /** Which tag a signal is; its label and description text are not modelled. */
  datatype SignalKind =
    | RsiZone(rsi: real)
    | GoldenCross | DeadCross | SmaAbove | SmaBelow
    | MacdCrossUp | MacdCrossDown | MacdPositive | MacdNegative
    | UpperBandTouch | LowerBandTouch
    | VolumeSurge

  datatype Signal = Signal(tone: Tone, kind: SignalKind)

  /** The check each kind of signal comes from, in the order the checks run. */
  function Category(k: SignalKind): nat
  {
    match k
    case RsiZone(_) => 0
    case GoldenCross | DeadCross | SmaAbove | SmaBelow => 1
    case MacdCrossUp | MacdCrossDown | MacdPositive | MacdNegative => 2
    case UpperBandTouch | LowerBandTouch => 3
    case VolumeSurge => 4
  }

  /** At most one signal per check, in check order. */
  predicate CategoriesAscending(signals: seq<Signal>)
  {
    forall i, j :: 0 <= i < j < |signals| ==> Category(signals[i].kind) < Category(signals[j].kind)
  }

  /** The indicator values the checks read. */
  datatype Readings = Readings(
    rsi: Option<real>,          // 14-day RSI, latest
    sma20: Option<real>,        // latest and previous 20- and 50-day SMAs
    sma50: Option<real>,
    sma20Prev: Option<real>,
    sma50Prev: Option<real>,
    hist: Option<real>,         // MACD (12, 26, 9) histogram, latest and previous
    prevHist: Option<real>,
    close: real,
    prevClose: Option<real>,
    upper: Option<real>,        // Bollinger bands (20, 2), latest
    lower: Option<real>,
    latestVolume: real,
    avgVolume: real)            // sum of the last (up to) 20 volumes, divided by 20

  /** The volumes of the last twenty days, or of all of them. */
  function RecentVolumes(bars: seq<DailyBar>): seq<real>
  {
    var v := Volumes(bars);
    if |v| < 20 then v else v[|v| - 20..]
  }

  /** The readings of a series; an index before the start reads as no value. */
  function ReadingsOf(bars: seq<DailyBar>, sqrt: real -> real): Readings
    requires 1 <= |bars|
  {
    var closes := Closes(bars);
    var last := |bars| - 1;
    Readings(
      RsiAt(closes, 14, last),
      Sma(closes, 20)[last],
      Sma(closes, 50)[last],
      if 2 <= |bars| then Sma(closes, 20)[last - 1] else None,
      if 2 <= |bars| then Sma(closes, 50)[last - 1] else None,
      HistogramAt(closes, 12, 26, 9, last),
      if 2 <= |bars| then HistogramAt(closes, 12, 26, 9, last - 1) else None,
      bars[last].close,
      if 2 <= |bars| then Some(bars[last - 1].close) else None,
      UpperAt(closes, 20, 2.0, sqrt, last),
      LowerAt(closes, 20, 2.0, sqrt, last),
      bars[last].volume as real,
      Sum(RecentVolumes(bars)) / 20.0)
  }

  /** The RSI check: overbought at 70 and above, oversold at 30 and below, neutral between. */
  function RsiSignal(rsi: Option<real>): (part: seq<Signal>)
    ensures |part| <= 1 && (|part| == 1 <==> rsi.Some?)
    ensures forall x :: x in part ==> rsi.Some? && x.kind == RsiZone(rsi.value) && Category(x.kind) == 0
    ensures rsi.Some? ==>
      (Signal(Bearish, RsiZone(rsi.value)) in part <==> rsi.value >= 70.0) &&
      (Signal(Bullish, RsiZone(rsi.value)) in part <==> rsi.value <= 30.0) &&
      (Signal(Neutral, RsiZone(rsi.value)) in part <==> 30.0 < rsi.value < 70.0)
  {
    if rsi.None? then []
    else if rsi.value >= 70.0 then [Signal(Bearish, RsiZone(rsi.value))]
    else if rsi.value <= 30.0 then [Signal(Bullish, RsiZone(rsi.value))]
    else [Signal(Neutral, RsiZone(rsi.value))]
  }

  predicate SmaPairsDefined(r: Readings)
  {
    r.sma20.Some? && r.sma50.Some? && r.sma20Prev.Some? && r.sma50Prev.Some?
  }

  /** The SMA check: a cross when the order of SMA20 and SMA50 flipped, else their current order. */
  function SmaSignal(r: Readings): (part: seq<Signal>)
    ensures |part| <= 1 && (|part| == 1 <==> SmaPairsDefined(r))
    ensures forall x :: x in part ==> Category(x.kind) == 1
    ensures SmaPairsDefined(r) ==>
      var prevAbove := r.sma20Prev.value > r.sma50Prev.value;
      var currAbove := r.sma20.value > r.sma50.value;
      (Signal(Bullish, GoldenCross) in part <==> !prevAbove && currAbove) &&
      (Signal(Bearish, DeadCross) in part <==> prevAbove && !currAbove) &&
      (Signal(Bullish, SmaAbove) in part <==> prevAbove && currAbove) &&
      (Signal(Bearish, SmaBelow) in part <==> !prevAbove && !currAbove)
  {
    if !SmaPairsDefined(r) then []
    else
      var prevAbove := r.sma20Prev.value > r.sma50Prev.value;
      var currAbove := r.sma20.value > r.sma50.value;
      if !prevAbove && currAbove then [Signal(Bullish, GoldenCross)]
      else if prevAbove && !currAbove then [Signal(Bearish, DeadCross)]
      else if currAbove then [Signal(Bullish, SmaAbove)]
      else [Signal(Bearish, SmaBelow)]
  }

  /** The MACD check: a zero crossing of the histogram, else its sign. */
  function MacdSignal(hist: Option<real>, prevHist: Option<real>): (part: seq<Signal>)
    ensures |part| <= 1 && (|part| == 1 <==> hist.Some? && prevHist.Some?)
    ensures forall x :: x in part ==> Category(x.kind) == 2
    ensures hist.Some? && prevHist.Some? ==>
      (Signal(Bullish, MacdCrossUp) in part <==> prevHist.value < 0.0 <= hist.value) &&
      (Signal(Bearish, MacdCrossDown) in part <==> hist.value < 0.0 <= prevHist.value) &&
      (Signal(Bullish, MacdPositive) in part <==> 0.0 <= prevHist.value && 0.0 <= hist.value) &&
      (Signal(Bearish, MacdNegative) in part <==> prevHist.value < 0.0 && hist.value < 0.0)
  {
    if hist.None? || prevHist.None? then []
    else if prevHist.value < 0.0 && hist.value >= 0.0 then [Signal(Bullish, MacdCrossUp)]
    else if prevHist.value >= 0.0 && hist.value < 0.0 then [Signal(Bearish, MacdCrossDown)]
    else if hist.value >= 0.0 then [Signal(Bullish, MacdPositive)]
    else [Signal(Bearish, MacdNegative)]
  }

  /** The Bollinger check: a touch of the upper band, else of the lower band. */
  function BandSignal(close: real, upper: Option<real>, lower: Option<real>): (part: seq<Signal>)
    ensures |part| <= 1 && forall x :: x in part ==> Category(x.kind) == 3
    ensures |part| == 1 <==>
      upper.Some? && lower.Some? && (close >= upper.value || close <= lower.value)
    ensures Signal(Bearish, UpperBandTouch) in part <==>
      upper.Some? && lower.Some? && close >= upper.value
    ensures Signal(Bullish, LowerBandTouch) in part <==>
      upper.Some? && lower.Some? && close < upper.value && close <= lower.value
  {
    if upper.None? || lower.None? then []
    else if close >= upper.value then [Signal(Bearish, UpperBandTouch)]
    else if close <= lower.value then [Signal(Bullish, LowerBandTouch)]
    else []
  }

  /** The volume check: latest volume above 1.5 times the average, toned by the day's direction. */
  function VolumeSignal(latestVolume: real, avgVolume: real, priceUp: bool): (part: seq<Signal>)
    ensures |part| <= 1 && forall x :: x in part ==> Category(x.kind) == 4
    ensures |part| == 1 <==> latestVolume > avgVolume * 1.5
    ensures |part| == 1 ==>
      part[0] == Signal(if priceUp then Bullish else Bearish, VolumeSurge)
  {
    if latestVolume > avgVolume * 1.5 then
      [Signal(if priceUp then Bullish else Bearish, VolumeSurge)]
    else []
  }

  /** The latest close is above the previous one (false on a single bar). */
  predicate PriceUp(r: Readings)
  {
    r.prevClose.Some? && r.close > r.prevClose.value
  }

  /** The five checks in order, each contributing zero or one signal. */
  function SignalsFor(r: Readings): seq<Signal>
  {
    RsiSignal(r.rsi) + SmaSignal(r) + MacdSignal(r.hist, r.prevHist) +
    BandSignal(r.close, r.upper, r.lower) + VolumeSignal(r.latestVolume, r.avgVolume, PriceUp(r))
  }

  /** Reads every indicator the checks consult, at the latest bar. */
  method ReadSignalInputs(bars: seq<DailyBar>, sqrt: real -> real) returns (r: Readings)
    requires 1 <= |bars|
    ensures r == ReadingsOf(bars, sqrt)
  {
    var closes := Closes(bars);
    var len := |closes|;

    var rsiValues := Rsi(closes, 14);
    var latestRsi := rsiValues[len - 1];
    assert latestRsi == RsiAt(closes, 14, len - 1);

    var sma20 := Sma(closes, 20);
    var sma50 := Sma(closes, 50);

    var _, _, histogram := Macd(closes, 12, 26, 9);
    var latestHist := histogram[len - 1];
    var prevHist := if len >= 2 then histogram[len - 2] else None;
    assert latestHist == HistogramAt(closes, 12, 26, 9, len - 1);
    assert prevHist == if len >= 2 then HistogramAt(closes, 12, 26, 9, len - 2) else None;

    var upper, _, lower := BollingerBands(closes, 20, 2.0, sqrt);
    var latestUpper := upper[len - 1];
    var latestLower := lower[len - 1];
    assert latestUpper == UpperAt(closes, 20, 2.0, sqrt, len - 1);
    assert latestLower == LowerAt(closes, 20, 2.0, sqrt, len - 1);

    var volumes := Volumes(bars);
    var recent := if len < 20 then volumes else volumes[len - 20..];
    var avgVolume := Sum(recent) / 20.0;

    r := Readings(latestRsi, sma20[len - 1], sma50[len - 1],
                  if len >= 2 then sma20[len - 2] else None, if len >= 2 then sma50[len - 2] else None,
                  latestHist, prevHist, closes[len - 1], if len >= 2 then Some(closes[len - 2]) else None,
                  latestUpper, latestLower, volumes[len - 1], avgVolume);
  }

  /** The signals are ordered by check and all come from checks before `bound`. */
  predicate OrderedBelow(signals: seq<Signal>, bound: nat)
  {
    CategoriesAscending(signals) &&
    forall i :: 0 <= i < |signals| ==> Category(signals[i].kind) < bound
  }

  /** Appending the (at most one) signal of check `c` after the earlier checks keeps the order. */
  lemma AppendCheck(signals: seq<Signal>, part: seq<Signal>, c: nat)
    requires OrderedBelow(signals, c)
    requires |part| <= 1 && forall x :: x in part ==> Category(x.kind) == c
    ensures OrderedBelow(signals + part, c + 1)
  {
    if |part| == 1 {
      assert part[0] in part;
    }
  }

  /** The checks run in category order, so their signals come out ordered, at most one each. */
  lemma SignalsOrdered(r: Readings)
    ensures CategoriesAscending(SignalsFor(r))
    ensures |SignalsFor(r)| <= 5
  {
    var a := RsiSignal(r.rsi);
    var b := SmaSignal(r);
    var c := MacdSignal(r.hist, r.prevHist);
    var d := BandSignal(r.close, r.upper, r.lower);
    var e := VolumeSignal(r.latestVolume, r.avgVolume, PriceUp(r));
    AppendCheck([], a, 0);
    assert [] + a == a;
    AppendCheck(a, b, 1);
    AppendCheck(a + b, c, 2);
    AppendCheck(a + b + c, d, 3);
    AppendCheck(a + b + c + d, e, 4);
  }

  /** `detectSignals(bars)`: tags the latest bar with at most one signal per check. */
  method DetectSignals(bars: seq<DailyBar>, sqrt: real -> real) returns (signals: seq<Signal>)
    requires 1 <= |bars|
    ensures signals == DetectedFor(bars, sqrt)
    ensures CategoriesAscending(signals)
    ensures |signals| <= 5
  {
    var r := ReadSignalInputs(bars, sqrt);
    signals := SignalsFor(r);
    SignalsOrdered(r);
  }

  // ---------------------------------------------------------------- properties

  /** Some signal came from check `c`. */
  predicate HasCategory(signals: seq<Signal>, c: nat)
  {
    exists i :: 0 <= i < |signals| && Category(signals[i].kind) == c
  }

  lemma HasCategoryConcat(a: seq<Signal>, b: seq<Signal>, c: nat)
    ensures HasCategory(a + b, c) <==> HasCategory(a, c) || HasCategory(b, c)
  {
    if HasCategory(a + b, c) {
      var i :| 0 <= i < |a + b| && Category((a + b)[i].kind) == c;
      if i >= |a| {
        assert b[i - |a|] == (a + b)[i];
      }
    }
    if HasCategory(a, c) {
      var i :| 0 <= i < |a| && Category(a[i].kind) == c;
      assert (a + b)[i] == a[i];
    }
    if HasCategory(b, c) {
      var i :| 0 <= i < |b| && Category(b[i].kind) == c;
      assert (a + b)[|a| + i] == b[i];
    }
  }

  /** A check's part holds a signal of category `c` exactly when it is non-empty and is check `c`. */
  lemma HasCategoryPart(part: seq<Signal>, k: nat, c: nat)
    requires |part| <= 1 && forall x :: x in part ==> Category(x.kind) == k
    ensures HasCategory(part, c) <==> |part| == 1 && c == k
  {
    if |part| == 1 {
      assert part[0] in part;
    }
  }

  /** Each check contributes a signal exactly when its inputs are defined (and, for the bands and the volume, its condition holds). */
  lemma {:induction false} CheckPresence(r: Readings)
    ensures HasCategory(SignalsFor(r), 0) <==> r.rsi.Some?
    ensures HasCategory(SignalsFor(r), 1) <==> SmaPairsDefined(r)
    ensures HasCategory(SignalsFor(r), 2) <==> r.hist.Some? && r.prevHist.Some?
    ensures HasCategory(SignalsFor(r), 3) <==>
      r.upper.Some? && r.lower.Some? && (r.close >= r.upper.value || r.close <= r.lower.value)
    ensures HasCategory(SignalsFor(r), 4) <==> r.latestVolume > r.avgVolume * 1.5
  {
    var a := RsiSignal(r.rsi);
    var b := SmaSignal(r);
    var c := MacdSignal(r.hist, r.prevHist);
    var d := BandSignal(r.close, r.upper, r.lower);
    var e := VolumeSignal(r.latestVolume, r.avgVolume, PriceUp(r));
    forall cat: nat | cat <= 4
      ensures HasCategory(SignalsFor(r), cat) <==>
        (|a| == 1 && cat == 0) || (|b| == 1 && cat == 1) || (|c| == 1 && cat == 2) ||
        (|d| == 1 && cat == 3) || (|e| == 1 && cat == 4)
    {
      HasCategoryConcat(a + b + c + d, e, cat);
      HasCategoryConcat(a + b + c, d, cat);
      HasCategoryConcat(a + b, c, cat);
      HasCategoryConcat(a, b, cat);
      HasCategoryPart(a, 0, cat);
      HasCategoryPart(b, 1, cat);
      HasCategoryPart(c, 2, cat);
      HasCategoryPart(d, 3, cat);
      HasCategoryPart(e, 4, cat);
    }
  }

  /** How much history each check needs: RSI 15 bars, the SMA cross 51, MACD 35, the bands 20. */
  lemma WarmUp(bars: seq<DailyBar>, sqrt: real -> real)
    requires 1 <= |bars|
    ensures HasCategory(DetectedFor(bars, sqrt), 0) <==> 15 <= |bars|
    ensures HasCategory(DetectedFor(bars, sqrt), 1) <==> 51 <= |bars|
    ensures HasCategory(DetectedFor(bars, sqrt), 2) <==> 35 <= |bars|
    ensures HasCategory(DetectedFor(bars, sqrt), 3) ==> 20 <= |bars|
  {
    var r := ReadingsOf(bars, sqrt);
    var closes := Closes(bars);
    CheckPresence(r);
    DefaultHistogramStart(closes, |bars| - 1);
    if 2 <= |bars| {
      DefaultHistogramStart(closes, |bars| - 2);
    }
  }

  /** The signals `detectSignals` returns for a series. */
  function DetectedFor(bars: seq<DailyBar>, sqrt: real -> real): seq<Signal>
    requires 1 <= |bars|
  {
    SignalsFor(ReadingsOf(bars, sqrt))
  }

  /** Over a constant volume, the recent volumes sum to their count times that volume. */
  lemma RecentVolumesFlat(bars: seq<DailyBar>, v: int)
    requires forall i :: 0 <= i < |bars| ==> bars[i].volume == v
    ensures |RecentVolumes(bars)| == if |bars| < 20 then |bars| else 20
    ensures Sum(RecentVolumes(bars)) == |RecentVolumes(bars)| as real * v as real
  {
    var all := Volumes(bars);
    var recent := RecentVolumes(bars);
    forall k | 0 <= k < |recent|
      ensures recent[k] == v as real
    {
      if 20 <= |all| {
        assert recent[k] == all[|all| - 20 + k];
      }
    }
    SumBounds(recent, v as real, v as real);
  }

  /** The volume check reads the latest volume and the recent volumes' sum over 20. */
  lemma VolumeReadings(bars: seq<DailyBar>, sqrt: real -> real)
    requires 1 <= |bars|
    ensures ReadingsOf(bars, sqrt).latestVolume == bars[|bars| - 1].volume as real
    ensures ReadingsOf(bars, sqrt).avgVolume == Sum(RecentVolumes(bars)) / 20.0
  {
  }

  /** The volume check fires exactly on a surge, whatever the other readings. */
  lemma SurgePresence(r: Readings)
    ensures HasCategory(SignalsFor(r), 4) <==> r.latestVolume > r.avgVolume * 1.5
  {
    CheckPresence(r);
  }

  /** A surge is the latest volume above 1.5 times the recent volumes' sum over 20. */
  lemma SurgeDetected(bars: seq<DailyBar>, sqrt: real -> real)
    requires 1 <= |bars|
    ensures HasCategory(DetectedFor(bars, sqrt), 4)
            <==> bars[|bars| - 1].volume as real > Sum(RecentVolumes(bars)) / 20.0 * 1.5
  {
    VolumeReadings(bars, sqrt);
    SurgePresence(ReadingsOf(bars, sqrt));
  }

  /** At most 13 days of constant volume v add up to no more than 13v. */
  lemma ShortFlatTotal(bars: seq<DailyBar>, v: int)
    requires |bars| <= 13 && 0 < v
    requires forall i :: 0 <= i < |bars| ==> bars[i].volume == v
    ensures Sum(RecentVolumes(bars)) <= 13.0 * v as real
  {
    RecentVolumesFlat(bars, v);
    var n := |RecentVolumes(bars)| as real;
    assert n * v as real <= 13.0 * v as real;
  }

  /**
   * The average always divides by 20: on a short history of constant positive volume the
   * average is understated, so the latest day reads as a surge.
   */
  lemma ShortFlatVolumeSurges(bars: seq<DailyBar>, sqrt: real -> real)
    requires 1 <= |bars| <= 13
    requires 0 < bars[0].volume
    requires forall i :: 0 <= i < |bars| ==> bars[i].volume == bars[0].volume
    ensures HasCategory(DetectedFor(bars, sqrt), 4)
  {
    ShortFlatTotal(bars, bars[0].volume);
    SurgeDetected(bars, sqrt);
  }

  /** With twenty days of history, a constant volume is its own average and is no surge. */
  lemma FullFlatVolumeNoSurge(bars: seq<DailyBar>, sqrt: real -> real)
    requires 20 <= |bars|
    requires 0 <= bars[0].volume
    requires forall i :: 0 <= i < |bars| ==> bars[i].volume == bars[0].volume
    ensures !HasCategory(DetectedFor(bars, sqrt), 4)
  {
    RecentVolumesFlat(bars, bars[0].volume);
    SurgeDetected(bars, sqrt);
  }
}
