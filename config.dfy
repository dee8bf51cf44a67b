/**
 * The compile-time configuration of the visualizer and its two comparison
 * macros. The constants fix the shapes of the pipeline's arrays: a frame is
 * NumSamples samples per channel, there are NumBins bars per channel, and
 * every per-channel array has MaxChannels rows.
 */
module VizConfig {

  const WindowXSize: int := 800
  const WindowYSize: int := 400

  const SampleRate: int := 48000
  const NumSamples: int := 512
  const NumBins: int := 15

  /** Rows of the per-channel arrays (`[2][...]` in the declarations). */
  const MaxChannels: int := 2

  /** `viz_max(a, b)`: `a > b ? a : b`, so a tie yields `b`. */
  function VizMax(a: int, b: int): (r: int)
    ensures r >= a && r >= b
    ensures r == a || r == b
    ensures a <= b ==> r == b
  {
    if a > b then a else b
  }

  /** `viz_min(a, b)`: `a < b ? a : b`, so a tie yields `b`. */
  function VizMin(a: int, b: int): (r: int)
    ensures r <= a && r <= b
    ensures r == a || r == b
    ensures b <= a ==> r == b
  {
    if a < b then a else b
  }
}
