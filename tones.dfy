/** The bullish / bearish / neutral tone shared by analysis reasons, verdicts and signals. */
module Tones {

  datatype Tone = Bullish | Bearish | Neutral
}
