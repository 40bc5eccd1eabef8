/**
 * The rules-based stock analysis: market structure, a verdict from four
 * back-tested setups, explanatory reasons, support/resistance and ATR levels.
 */
module Analysis {
  import opened Wrappers
  import opened Numeric
  import opened Bars
  import opened Indicators
  import opened Swings
  import opened Levels
  import opened Tones

  /** Market structure read from the last two swing highs and lows. */
  datatype Structure = Range | Uptrend | Downtrend | Converging | Expanding

  datatype Verdict = ConsiderBuying | ConsiderSelling | Wait

  /** Which message a reason carries; its wording and number formatting are not modelled. */
  datatype ReasonKind =
    | StructureNote(structure: Structure)
    | AboveSma50 | BelowSma50
    | RsiExtremelyOversold | RsiOversold | RsiElevated | RsiReading
    | VolumeSurge(upDay: bool)
    | FarBelowLowerBand | NearLowerBand | NearUpperBand
    | OffHigh
    | BuyRationale | BandStallRationale | CrossdownRationale

  datatype Reason = Reason(tone: Tone, kind: ReasonKind)

  datatype Action = Buy | Sell | Watch
  datatype Priority = High | Medium | Low
  datatype NextAction = NextAction(trigger: string, action: Action, priority: Priority)

  datatype StockAnalysis = StockAnalysis(
    structure: Structure,
    verdict: Verdict,
    verdictType: Tone,
    reasons: seq<Reason>,
    support: seq<int>,
    resistance: seq<int>,
    atrStop: Option<real>,
    atrTarget: Option<real>,
    upsidePct: Option<real>,
    downsideRisk: Option<real>,
    nextActions: seq<NextAction>)

  /** The position of each kind of reason in the list; one slot per analysis step. */
  function Slot(k: ReasonKind): nat
  {
    match k
    case StructureNote(_) => 0
    case AboveSma50 | BelowSma50 => 1
    case RsiExtremelyOversold | RsiOversold | RsiElevated | RsiReading => 2
    case VolumeSurge(_) => 3
    case FarBelowLowerBand | NearLowerBand | NearUpperBand => 4
    case OffHigh => 5
    case BuyRationale | BandStallRationale | CrossdownRationale => 6
  }

  /** The tone each kind of reason is always reported with. */
  function KindTone(k: ReasonKind): Tone
  {
    match k
    case StructureNote(s) => if s == Uptrend then Bullish else if s == Downtrend then Bearish else Neutral
    case AboveSma50 => Bullish
    case BelowSma50 => Bearish
    case RsiExtremelyOversold | RsiOversold => Bullish
    case RsiElevated | RsiReading => Neutral
    case VolumeSurge(_) => Neutral
    case FarBelowLowerBand | NearLowerBand => Bullish
    case NearUpperBand | OffHigh => Neutral
    case BuyRationale => Bullish
    case BandStallRationale | CrossdownRationale => Bearish
  }

  function VerdictTone(v: Verdict): Tone
  {
    match v
    case ConsiderBuying => Bullish
    case ConsiderSelling => Bearish
    case Wait => Neutral
  }

  /** At most one reason per slot, in slot order. */
  predicate SlotsAscending(rs: seq<Reason>)
  {
    forall i, j :: 0 <= i < j < |rs| ==> Slot(rs[i].kind) < Slot(rs[j].kind)
  }

  predicate WellToned(rs: seq<Reason>)
  {
    forall r :: r in rs ==> r.tone == KindTone(r.kind)
  }

  // ---- The indicator values the rules read, all at the latest bar ----

  const SwingWindow: nat := 5

  /** What the analysis reads from the indicators before applying its rules. */
  datatype Snapshot = Snapshot(
    price: real,                 // latest close
    prevClose: Option<real>,     // the close before it, when there is one
    swingHighs: seq<SwingPoint>,
    swingLows: seq<SwingPoint>,
    sma50: Option<real>,
    rsi: Option<real>,           // 14-day RSI
    avgVolume: real,             // mean volume of the last (up to) 20 days
    latestVolume: real,
    atr: Option<real>,           // 14-day ATR
    high: real,                  // highest high of the series
    bbUpper: Option<real>,       // Bollinger bands (20, 2)
    bbLower: Option<real>,
    hist: Option<real>,          // MACD (12, 26, 9) histogram, latest and previous
    prevHist: Option<real>,
    macd: Option<real>,          // MACD line, latest
    sma20: Option<real>,         // 20-day SMA, latest and previous
    sma20Prev: Option<real>)

  function Price(bars: seq<DailyBar>): real
    requires 1 <= |bars|
  {
    bars[|bars| - 1].close
  }

  /** Days in the volume average: the last twenty, or all of them. */
  function VolumeDays(bars: seq<DailyBar>): nat
  {
    if |bars| < 20 then |bars| else 20
  }

  function AverageVolume(bars: seq<DailyBar>): real
    requires 1 <= |bars|
  {
    Sum(Volumes(bars)[|bars| - VolumeDays(bars)..]) / VolumeDays(bars) as real
  }

  /** The snapshot of a series; an index before the start reads as no value. */
  function SnapshotOf(bars: seq<DailyBar>, sqrt: real -> real): Snapshot
    requires 1 <= |bars|
  {
    var closes := Closes(bars);
    var last := |bars| - 1;
    Snapshot(
      Price(bars),
      if 2 <= |bars| then Some(bars[last - 1].close) else None,
      SwingHighs(closes, SwingWindow),
      SwingLows(closes, SwingWindow),
      Sma(closes, 50)[last],
      RsiAt(closes, 14, last),
      AverageVolume(bars),
      bars[last].volume as real,
      Atr(bars, 14),
      Max(Highs(bars)),
      UpperAt(closes, 20, 2.0, sqrt, last),
      LowerAt(closes, 20, 2.0, sqrt, last),
      HistogramAt(closes, 12, 26, 9, last),
      if 2 <= |bars| then HistogramAt(closes, 12, 26, 9, last - 1) else None,
      MacdLineAt(closes, 12, 26, last),
      Sma(closes, 20)[last],
      if 2 <= |bars| then Sma(closes, 20)[last - 1] else None)
  }

  /** The latest swing point is strictly above the one before it. */
  predicate Rising(points: seq<SwingPoint>)
  {
    2 <= |points| && points[|points| - 1].val > points[|points| - 2].val
  }

  /** The latest swing point is strictly below the one before it. */
  predicate Falling(points: seq<SwingPoint>)
  {
    2 <= |points| && points[|points| - 1].val < points[|points| - 2].val
  }

  /** Whether the close is above the 50-day SMA, when that exists. */
  function TrendFlag(s: Snapshot): Option<bool>
  {
    if s.sma50.Some? then Some(s.price > s.sma50.value) else None
  }

  predicate RsiBelow(s: Snapshot, level: real)
  {
    s.rsi.Some? && s.rsi.value < level
  }

  /** The close is at least 1% under the lower Bollinger band. */
  predicate DeepBelowBand(s: Snapshot)
  {
    s.bbLower.Some? && s.price <= s.bbLower.value * 0.99
  }

  /** The close is no more than 1% over the lower Bollinger band. */
  predicate BelowBand(s: Snapshot)
  {
    s.bbLower.Some? && s.price <= s.bbLower.value * 1.01
  }

  /** The close is within 1% under the upper band, or above it. */
  predicate NearUpper(s: Snapshot)
  {
    s.bbUpper.Some? && s.price >= s.bbUpper.value * 0.99
  }

  /** %B: where the close sits between the bands, 0.5 when the bands are missing or collapsed. */
  function PercentB(s: Snapshot): real
  {
    var bandwidth := if s.bbUpper.Some? && s.bbLower.Some? then s.bbUpper.value - s.bbLower.value else 0.0;
    if bandwidth > 0.0 then (s.price - s.bbLower.value) / bandwidth else 0.5
  }

  predicate HistogramDeclining(s: Snapshot)
  {
    s.hist.Some? && s.prevHist.Some? && s.hist.value < s.prevHist.value
  }

  predicate MacdNegative(s: Snapshot)
  {
    s.macd.Some? && s.macd.value < 0.0
  }

  /** The close went from at or above the 20-day SMA to under it. */
  predicate CrossedBelowSma20(s: Snapshot)
  {
    s.sma20.Some? && s.price < s.sma20.value &&
    s.sma20Prev.Some? && s.prevClose.Some? && s.prevClose.value >= s.sma20Prev.value
  }

  /** RSI under 30 with a deep break of the lower band, or RSI under 20 near it. */
  predicate BuySetup(s: Snapshot)
  {
    (RsiBelow(s, 30.0) && DeepBelowBand(s)) || (RsiBelow(s, 20.0) && BelowBand(s))
  }

  /** %B above 0.95 while the MACD histogram declines. */
  predicate BandStall(s: Snapshot)
  {
    PercentB(s) > 0.95 && HistogramDeclining(s)
  }

  predicate SellSetup(s: Snapshot)
  {
    BandStall(s) || (CrossedBelowSma20(s) && MacdNegative(s))
  }

  /**
   * The latest volume is more than 1.5 times the average; a zero average
   * compares as the IEEE quotient does (infinite for a positive volume, NaN for zero).
   */
  predicate VolumeSpike(s: Snapshot)
  {
    if s.avgVolume == 0.0 then 0.0 < s.latestVolume else s.latestVolume / s.avgVolume > 1.5
  }

  /** The latest close is above the previous one (false on a single bar). */
  predicate UpDay(s: Snapshot)
  {
    s.prevClose.Some? && s.price > s.prevClose.value
  }

  /** The close is more than 15% under the highest high of the series. */
  predicate FarBelowHigh(s: Snapshot)
  {
    s.high != 0.0 && (s.price - s.high) / s.high * 100.0 < -15.0
  }

  /** JavaScript truthiness of a nullable number. */
  predicate Truthy(x: Option<real>)
  {
    x.Some? && x.value != 0.0
  }

  /** Ordered, correctly toned, and every slot so far is below `next`. */
  predicate Ordered(rs: seq<Reason>, next: nat)
  {
    SlotsAscending(rs) && WellToned(rs) && forall r :: r in rs ==> Slot(r.kind) < next
  }

  /** A step's contribution: at most one reason, of the step's slot, correctly toned. */
  predicate StepPart(part: seq<Reason>, slot: nat)
  {
    |part| <= 1 && forall r :: r in part ==> Slot(r.kind) == slot && r.tone == KindTone(r.kind)
  }

  /** `reasons.push(...)` for whatever the step contributes. */
  function PushStep(rs: seq<Reason>, part: seq<Reason>, slot: nat): (out: seq<Reason>)
    requires Ordered(rs, slot) && StepPart(part, slot)
    ensures out == rs + part
    ensures Ordered(out, slot + 1)
  {
    assert forall i :: 0 <= i < |rs| ==> rs[i] in rs;
    assert forall i :: 0 <= i < |part| ==> part[i] in part;
    rs + part
  }

  /** The slot-0 reason: the structure, toned by its direction. */
  function StructureReason(structure: Structure): (r: Reason)
    ensures r.kind == StructureNote(structure) && r.tone == KindTone(r.kind)
  {
    if structure == Uptrend then Reason(Bullish, StructureNote(structure))
    else if structure == Downtrend then Reason(Bearish, StructureNote(structure))
    else Reason(Neutral, StructureNote(structure))
  }

  /** The slot-1 reason: the close against the 50-day SMA, when that exists. */
  function TrendReason(aboveSma50: Option<bool>): (part: seq<Reason>)
    ensures StepPart(part, 1)
    ensures Reason(Bullish, AboveSma50) in part <==> aboveSma50 == Some(true)
    ensures Reason(Bearish, BelowSma50) in part <==> aboveSma50 == Some(false)
  {
    if aboveSma50 == Some(true) then [Reason(Bullish, AboveSma50)]
    else if aboveSma50 == Some(false) then [Reason(Bearish, BelowSma50)]
    else []
  }

  /** The slot-2 reason: the RSI band, when the RSI exists. */
  function RsiReason(rsiVal: Option<real>): (part: seq<Reason>)
    ensures StepPart(part, 2)
    ensures Reason(Bullish, RsiExtremelyOversold) in part <==> rsiVal.Some? && rsiVal.value < 20.0
    ensures Reason(Bullish, RsiOversold) in part <==> rsiVal.Some? && 20.0 <= rsiVal.value < 30.0
    ensures Reason(Neutral, RsiElevated) in part <==> rsiVal.Some? && rsiVal.value > 70.0
    ensures Reason(Neutral, RsiReading) in part <==> rsiVal.Some? && 30.0 <= rsiVal.value <= 70.0
  {
    if rsiVal.None? then []
    else if rsiVal.value < 20.0 then [Reason(Bullish, RsiExtremelyOversold)]
    else if rsiVal.value < 30.0 then [Reason(Bullish, RsiOversold)]
    else if rsiVal.value > 70.0 then [Reason(Neutral, RsiElevated)]
    else [Reason(Neutral, RsiReading)]
  }

  /** The slot-3 reason: a volume spike, with the direction of the day. */
  function VolumeReason(volumeSpike: bool, upDay: bool): (part: seq<Reason>)
    ensures StepPart(part, 3)
    ensures Reason(Neutral, VolumeSurge(upDay)) in part <==> volumeSpike
    ensures Reason(Neutral, VolumeSurge(!upDay)) !in part
  {
    if volumeSpike then [Reason(Neutral, VolumeSurge(upDay))] else []
  }

  /** The slot-4 reason: the close against the Bollinger bands; the lower band takes precedence. */
  function BandReason(deepBelowBB: bool, belowBB: bool, nearUpper: bool): (part: seq<Reason>)
    ensures StepPart(part, 4)
    ensures Reason(Bullish, FarBelowLowerBand) in part <==> deepBelowBB
    ensures Reason(Bullish, NearLowerBand) in part <==> belowBB && !deepBelowBB
    ensures Reason(Neutral, NearUpperBand) in part <==> !deepBelowBB && !belowBB && nearUpper
  {
    if deepBelowBB then [Reason(Bullish, FarBelowLowerBand)]
    else if belowBB then [Reason(Bullish, NearLowerBand)]
    else if nearUpper then [Reason(Neutral, NearUpperBand)]
    else []
  }

  /** The slot-5 reason: the close is far under the period high. */
  function RangeReason(farBelowHigh: bool): (part: seq<Reason>)
    ensures StepPart(part, 5)
    ensures Reason(Neutral, OffHigh) in part <==> farBelowHigh
  {
    if farBelowHigh then [Reason(Neutral, OffHigh)] else []
  }

  /** The slot-6 reason: the rationale of a non-neutral verdict; a sell names the setup that fired first. */
  function VerdictReason(verdictType: Tone, bandStall: bool): (part: seq<Reason>)
    ensures StepPart(part, 6)
    ensures Reason(Bullish, BuyRationale) in part <==> verdictType == Bullish
    ensures Reason(Bearish, BandStallRationale) in part <==> verdictType == Bearish && bandStall
    ensures Reason(Bearish, CrossdownRationale) in part <==> verdictType == Bearish && !bandStall
  {
    if verdictType == Bullish then [Reason(Bullish, BuyRationale)]
    else if verdictType == Bearish then
      (if bandStall then [Reason(Bearish, BandStallRationale)] else [Reason(Bearish, CrossdownRationale)])
    else []
  }

  /** Step 1 of the analysis: classify the structure from the last two swing highs and lows. */
  method ClassifyStructure(swHighs: seq<SwingPoint>, swLows: seq<SwingPoint>) returns (structure: Structure)
    ensures structure == Uptrend <==> Rising(swHighs) && Rising(swLows)
    ensures structure == Downtrend <==> Falling(swHighs) && Falling(swLows)
    ensures structure == Converging <==> Falling(swHighs) && Rising(swLows)
    ensures structure == Expanding <==> Rising(swHighs) && Falling(swLows)
  {
    structure := Range;
    if |swHighs| >= 2 && |swLows| >= 2 {
      var hh := swHighs[|swHighs| - 1].val > swHighs[|swHighs| - 2].val;
      var hl := swLows[|swLows| - 1].val > swLows[|swLows| - 2].val;
      var lh := swHighs[|swHighs| - 1].val < swHighs[|swHighs| - 2].val;
      var ll := swLows[|swLows| - 1].val < swLows[|swLows| - 2].val;
      if hh && hl {
        structure := Uptrend;
      } else if lh && ll {
        structure := Downtrend;
      } else if lh && hl {
        structure := Converging;
      } else if hh && ll {
        structure := Expanding;
      }
    }
  }

  /** Steps 1 to 7 of the analysis: every indicator it consults, read at the latest bar. */
  method ReadIndicators(bars: seq<DailyBar>, sqrt: real -> real) returns (s: Snapshot)
    requires 1 <= |bars|
    ensures s == SnapshotOf(bars, sqrt)
    ensures s.atr.Some? ==> 0.0 <= s.atr.value
  {
    var closes := Closes(bars);
    var highs := Highs(bars);
    var volumes := Volumes(bars);
    var len := |closes|;
    var price := closes[len - 1];
    var prevClose := if len >= 2 then Some(closes[len - 2]) else None;

    var swHighs := FindSwingHighs(closes, SwingWindow);
    var swLows := FindSwingLows(closes, SwingWindow);

    var sma50vals := Sma(closes, 50);
    var sma50 := sma50vals[len - 1];

    var rsiVals := Rsi(closes, 14);
    var rsiVal := rsiVals[len - 1];
    assert rsiVal == RsiAt(closes, 14, len - 1);

    var days := if len < 20 then len else 20;
    var avgVol20 := Sum(volumes[len - days..]) / days as real;
    assert avgVol20 == AverageVolume(bars);
    var latestVol := volumes[len - 1];

    var atr := CalcAtr(bars, 14);
    assert atr == Atr(bars, 14);

    var high90 := Max(highs);

    var bbUpperVals, _, bbLowerVals := BollingerBands(closes, 20, 2.0, sqrt);
    var bbUpper := bbUpperVals[len - 1];
    var bbLower := bbLowerVals[len - 1];
    assert bbUpper == UpperAt(closes, 20, 2.0, sqrt, len - 1) && bbLower == LowerAt(closes, 20, 2.0, sqrt, len - 1);

    var macdLine, _, histogram := Macd(closes, 12, 26, 9);
    var latestHist := histogram[len - 1];
    var prevHist := if len >= 2 then histogram[len - 2] else None;
    var latestMacd := macdLine[len - 1];
    assert latestHist == HistogramAt(closes, 12, 26, 9, len - 1);
    assert prevHist == if len >= 2 then HistogramAt(closes, 12, 26, 9, len - 2) else None;
    assert latestMacd == MacdLineAt(closes, 12, 26, len - 1);

    var sma20vals := Sma(closes, 20);
    var sma20Current := sma20vals[len - 1];
    var sma20Prev := if len >= 2 then sma20vals[len - 2] else None;

    s := Snapshot(price, prevClose, swHighs, swLows, sma50, rsiVal, avgVol20, latestVol, atr, high90,
                  bbUpper, bbLower, latestHist, prevHist, latestMacd, sma20Current, sma20Prev);
  }

  /** The reasons block: what each step contributes, in step order, then the verdict's rationale. */
  method ExplainReasons(structure: Structure, aboveSma50: Option<bool>, rsiVal: Option<real>,
                        volumeSpike: bool, upDay: bool, deepBelowBB: bool, belowBB: bool, nearUpper: bool,
                        farBelowHigh: bool, verdictType: Tone, bandStall: bool)
    returns (reasons: seq<Reason>)
    ensures reasons ==
      [StructureReason(structure)] + TrendReason(aboveSma50) + RsiReason(rsiVal) +
      VolumeReason(volumeSpike, upDay) + BandReason(deepBelowBB, belowBB, nearUpper) +
      RangeReason(farBelowHigh) + VerdictReason(verdictType, bandStall)
    ensures SlotsAscending(reasons) && WellToned(reasons)
  {
    reasons := [StructureReason(structure)];
    assert Ordered(reasons, 1) by {
      assert forall r :: r in reasons ==> r == StructureReason(structure);
    }
    reasons := PushStep(reasons, TrendReason(aboveSma50), 1);
    reasons := PushStep(reasons, RsiReason(rsiVal), 2);
    reasons := PushStep(reasons, VolumeReason(volumeSpike, upDay), 3);
    reasons := PushStep(reasons, BandReason(deepBelowBB, belowBB, nearUpper), 4);
    reasons := PushStep(reasons, RangeReason(farBelowHigh), 5);
    reasons := PushStep(reasons, VerdictReason(verdictType, bandStall), 6);

  }

  /** The verdict rules: the two buy setups take precedence over the two sell setups. */
  method Decide(s: Snapshot) returns (verdict: Verdict, verdictType: Tone)
    ensures verdict == ConsiderBuying <==> BuySetup(s)
    ensures verdict == ConsiderSelling <==> !BuySetup(s) && SellSetup(s)
    ensures verdictType == VerdictTone(verdict)
  {
    var price := s.price;
    var deepBelowBB := s.bbLower.Some? && price <= s.bbLower.value * 0.99;
    var belowBB := s.bbLower.Some? && price <= s.bbLower.value * 1.01;
    var rsiOversold := s.rsi.Some? && s.rsi.value < 30.0;
    var rsiDeepOversold := s.rsi.Some? && s.rsi.value < 20.0;

    // Sell features
    var bbBandwidth := if s.bbUpper.Some? && s.bbLower.Some? then s.bbUpper.value - s.bbLower.value else 0.0;
    var pctB := if bbBandwidth > 0.0 then (price - s.bbLower.value) / bbBandwidth else 0.5;
    var macdHistDeclining := s.hist.Some? && s.prevHist.Some? && s.hist.value < s.prevHist.value;
    var macdNegative := s.macd.Some? && s.macd.value < 0.0;

    // SMA20 cross-down
    var priceBelowSma20 := s.sma20.Some? && price < s.sma20.value;
    var prevAboveSma20 := s.sma20Prev.Some? && s.prevClose.Some? && s.prevClose.value >= s.sma20Prev.value;
    var crossedBelowSma20 := priceBelowSma20 && prevAboveSma20;

    verdict := Wait;
    verdictType := Neutral;
    if rsiOversold && deepBelowBB {
      verdict, verdictType := ConsiderBuying, Bullish;
    } else if rsiDeepOversold && belowBB {
      verdict, verdictType := ConsiderBuying, Bullish;
    } else if pctB > 0.95 && macdHistDeclining {
      verdict, verdictType := ConsiderSelling, Bearish;
    } else if crossedBelowSma20 && macdNegative {
      verdict, verdictType := ConsiderSelling, Bearish;
    }
  }

  /** Stop and target two and three ATRs from the close, and their distances in percent of it. */
  method RiskLevels(price: real, atr: Option<real>)
    returns (atrStop: Option<real>, atrTarget: Option<real>, upsidePct: Option<real>, downsideRisk: Option<real>)
    requires 0.0 < price
    requires atr.Some? ==> 0.0 <= atr.value
    ensures atrStop.Some? <==> Truthy(atr)
    ensures atrTarget.Some? <==> Truthy(atr)
    ensures atrStop.Some? ==>
      0.0 < atr.value && atrStop.value == price - 2.0 * atr.value && atrTarget.value == price + 3.0 * atr.value
    ensures upsidePct.Some? <==> atrTarget.Some?
    ensures upsidePct.Some? ==> upsidePct.value == 300.0 * atr.value / price
    ensures downsideRisk.Some? <==> Truthy(atrStop)
    ensures downsideRisk.Some? ==> downsideRisk.value == 200.0 * atr.value / price
    ensures upsidePct.Some? && downsideRisk.Some? ==> 2.0 * upsidePct.value == 3.0 * downsideRisk.value
  {
    var truthyAtr := atr.Some? && atr.value != 0.0;
    atrStop := if truthyAtr then Some(price - atr.value * 2.0) else None;
    atrTarget := if truthyAtr then Some(price + atr.value * 3.0) else None;
    upsidePct := if Truthy(atrTarget) then Some((atrTarget.value - price) / price * 100.0) else None;
    downsideRisk := if Truthy(atrStop) then Some((price - atrStop.value) / price * 100.0) else None;
  }

  /**
   * What the rules make of a snapshot: the structure from the last two swing
   * points, the verdict from the buy and sell setups, the reasons step by step,
   * the levels, and the ATR risk levels with their 3:2 reward-to-risk ratio.
   */
  predicate Explains(s: Snapshot, a: StockAnalysis)
    requires 0.0 < s.price
  {
    // structure
    (a.structure == Uptrend <==> Rising(s.swingHighs) && Rising(s.swingLows)) &&
    (a.structure == Downtrend <==> Falling(s.swingHighs) && Falling(s.swingLows)) &&
    (a.structure == Converging <==> Falling(s.swingHighs) && Rising(s.swingLows)) &&
    (a.structure == Expanding <==> Rising(s.swingHighs) && Falling(s.swingLows)) &&
    // verdict
    (a.verdict == ConsiderBuying <==> BuySetup(s)) &&
    (a.verdict == ConsiderSelling <==> !BuySetup(s) && SellSetup(s)) &&
    a.verdictType == VerdictTone(a.verdict) &&
    // reasons: one part per step, in step order, then the verdict's rationale
    a.reasons ==
      [StructureReason(a.structure)] + TrendReason(TrendFlag(s)) + RsiReason(s.rsi) +
      VolumeReason(VolumeSpike(s), UpDay(s)) + BandReason(DeepBelowBand(s), BelowBand(s), NearUpper(s)) +
      RangeReason(FarBelowHigh(s)) + VerdictReason(a.verdictType, BandStall(s)) &&
    SlotsAscending(a.reasons) && WellToned(a.reasons) &&
    // support and resistance
    a.support == LevelsOf(s.swingLows) && a.resistance == LevelsOf(s.swingHighs) &&
    // risk levels: two ATRs down, three ATRs up, when the ATR is non-zero
    (a.atrStop.Some? <==> Truthy(s.atr)) && (a.atrTarget.Some? <==> Truthy(s.atr)) &&
    (a.atrStop.Some? ==>
      0.0 < s.atr.value &&
      a.atrStop.value == s.price - 2.0 * s.atr.value && a.atrTarget.value == s.price + 3.0 * s.atr.value) &&
    (a.upsidePct.Some? <==> a.atrTarget.Some?) &&
    (a.upsidePct.Some? ==> a.upsidePct.value == 300.0 * s.atr.value / s.price) &&
    (a.downsideRisk.Some? <==> Truthy(a.atrStop)) &&
    (a.downsideRisk.Some? ==> a.downsideRisk.value == 200.0 * s.atr.value / s.price) &&
    (a.upsidePct.Some? && a.downsideRisk.Some? ==> 2.0 * a.upsidePct.value == 3.0 * a.downsideRisk.value) &&
    a.nextActions == []
  }

  /** The rules of the analysis applied to a snapshot of the indicators. */
  method ApplyRules(s: Snapshot) returns (a: StockAnalysis)
    requires 0.0 < s.price
    requires s.atr.Some? ==> 0.0 <= s.atr.value
    ensures Explains(s, a)
  {
    // 1. Market structure
    var structure := ClassifyStructure(s.swingHighs, s.swingLows);
    // 2. Trend context
    var aboveSma50 := TrendFlag(s);
    // 4. Volume
    var volumeSpike := VolumeSpike(s);
    // 6. Range context
    var farBelowHigh := FarBelowHigh(s);
    // Support / resistance
    var support := LevelsOf(s.swingLows);
    var resistance := LevelsOf(s.swingHighs);
    // Verdict
    var verdict, verdictType := Decide(s);
    // Context reasons
    var reasons := ExplainReasons(structure, aboveSma50, s.rsi, volumeSpike, UpDay(s), DeepBelowBand(s),
                                  BelowBand(s), NearUpper(s), farBelowHigh, verdictType, BandStall(s));
    // Risk levels
    var atrStop, atrTarget, upsidePct, downsideRisk := RiskLevels(s.price, s.atr);

    a := StockAnalysis(structure, verdict, verdictType, reasons, support, resistance,
                       atrStop, atrTarget, upsidePct, downsideRisk, []);
  }

  /** `analyzeStock(bars)` */
  method AnalyzeStock(bars: seq<DailyBar>, sqrt: real -> real) returns (a: StockAnalysis)
    requires 1 <= |bars|
    requires WellFormed(bars)
    ensures Explains(SnapshotOf(bars, sqrt), a)
  {
    var s := ReadIndicators(bars, sqrt);
    assert 0.0 < s.price;
    a := ApplyRules(s);
  }

  // ---------------------------------------------------------------- properties

  /** One reason per step at most: never more than seven reasons. */
  lemma AtMostSevenReasons(rs: seq<Reason>)
    requires SlotsAscending(rs)
    ensures |rs| <= 7
  {
    var slots := seq(|rs|, i requires 0 <= i < |rs| => Slot(rs[i].kind));
    AscendingBounded(slots, 6);
  }

  /** The reasons open with the structure and close with a rationale exactly when the verdict is not to wait. */
  lemma RationaleLast(s: Snapshot, a: StockAnalysis)
    requires 0.0 < s.price && Explains(s, a)
    ensures 1 <= |a.reasons| && a.reasons[0] == StructureReason(a.structure)
    ensures a.verdict != Wait <==> Slot(a.reasons[|a.reasons| - 1].kind) == 6
    ensures a.verdict == ConsiderBuying ==> a.reasons[|a.reasons| - 1] == Reason(Bullish, BuyRationale)
  {
    var head := [StructureReason(a.structure)] + TrendReason(TrendFlag(s)) + RsiReason(s.rsi) +
      VolumeReason(VolumeSpike(s), UpDay(s)) + BandReason(DeepBelowBand(s), BelowBand(s), NearUpper(s)) +
      RangeReason(FarBelowHigh(s));
    var tail := VerdictReason(a.verdictType, BandStall(s));
    assert a.reasons == head + tail;
    assert head[0] == StructureReason(a.structure);
    var last := a.reasons[|a.reasons| - 1];
    if tail == [] {
      assert last == head[|head| - 1] && last in head;
      assert Slot(last.kind) <= 5;
    } else {
      assert last == tail[0] && last in tail;
    }
  }

  /** Under twenty bars there are no Bollinger bands and no previous 20-day SMA, so no setup fires. */
  lemma ShortHistoryWaits(bars: seq<DailyBar>, sqrt: real -> real, a: StockAnalysis)
    requires 1 <= |bars| < 20 && WellFormed(bars)
    requires 0.0 < SnapshotOf(bars, sqrt).price && Explains(SnapshotOf(bars, sqrt), a)
    ensures a.verdict == Wait && a.verdictType == Neutral
  {
    var s := SnapshotOf(bars, sqrt);
    assert s.bbLower.None? && s.bbUpper.None?;
    assert s.sma20Prev.None?;
    assert PercentB(s) == 0.5;
  }

  /** Both buy setups need an RSI under 30 and a close at most 1% over a positive lower band. */
  lemma BuyNeedsOversoldNearLowerBand(s: Snapshot)
    requires 0.0 < s.price && BuySetup(s)
    ensures RsiBelow(s, 30.0) && BelowBand(s) && 0.0 < s.bbLower.value
  {
    var lower := s.bbLower.value;
    if DeepBelowBand(s) {
      assert 0.0 < lower * 0.99;
    }
  }
}
