/** One trading day, as the data source delivers it. */
module Bars {

  datatype DailyBar = DailyBar(date: string, open: real, high: real, low: real, close: real, volume: int)

  /** `bars.map((b) => b.close)` */
  function Closes(bars: seq<DailyBar>): (c: seq<real>)
    ensures |c| == |bars|
    ensures forall i :: 0 <= i < |bars| ==> c[i] == bars[i].close
  {
    seq(|bars|, i requires 0 <= i < |bars| => bars[i].close)
  }

  /** `bars.map((b) => b.high)` */
  function Highs(bars: seq<DailyBar>): (h: seq<real>)
    ensures |h| == |bars|
    ensures forall i :: 0 <= i < |bars| ==> h[i] == bars[i].high
  {
    seq(|bars|, i requires 0 <= i < |bars| => bars[i].high)
  }

  /** `bars.map((b) => b.volume)` */
  function Volumes(bars: seq<DailyBar>): (v: seq<real>)
    ensures |v| == |bars|
    ensures forall i :: 0 <= i < |bars| ==> v[i] == bars[i].volume as real
  {
    seq(|bars|, i requires 0 <= i < |bars| => bars[i].volume as real)
  }

  /** The data source's contract: positive prices and non-negative volume. */
  predicate WellFormed(bars: seq<DailyBar>)
  {
    forall i :: 0 <= i < |bars| ==>
      0.0 < bars[i].open && 0.0 < bars[i].high && 0.0 < bars[i].low && 0.0 < bars[i].close && 0 <= bars[i].volume
  }
}
