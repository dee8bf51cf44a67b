/**
 * The horizontal placement of the bars in `draw_visualizer`: channel 0's
 * bars run from the left edge toward the centre, channel 1's from the
 * right edge toward the centre. Heights and drawing are not modelled.
 */
module Layout {
  import opened VizConfig

  const BarWidth: int := 20
  const BarSpacing: int := 5
  /** Distance of the outermost bar from the window edge. */
  const EdgeMargin: int := 10

  /** Left edge of bar `i` of the left (channel 0) group. */
  function LeftBarX(i: int): (x: int)
    requires 0 <= i < NumBins
    ensures 0 <= x && x + BarWidth <= WindowXSize / 2
  {
    EdgeMargin + (BarWidth + BarSpacing) * i
  }

  /** Left edge of bar `i` of the right (channel 1) group. */
  function RightBarX(i: int): (x: int)
    requires 0 <= i < NumBins
    ensures WindowXSize / 2 <= x && x + BarWidth <= WindowXSize
  {
    var x := WindowXSize - (BarWidth + BarSpacing) * i - BarWidth;
    x - EdgeMargin
  }

  /** The bars sit at `10 + 25*i` and `770 - 25*i`. */
  lemma BarPositions(i: int)
    requires 0 <= i < NumBins
    ensures LeftBarX(i) == 10 + 25 * i
    ensures RightBarX(i) == 770 - 25 * i
  {
  }

  /** The two groups mirror each other about the window's centre. */
  lemma GroupsMirror(i: int)
    requires 0 <= i < NumBins
    ensures LeftBarX(i) + BarWidth + RightBarX(i) == WindowXSize
  {
  }

  /** Neighbouring bars of a group are `BarSpacing` apart. */
  lemma AdjacentBarsSpaced(i: int)
    requires 0 <= i && i + 1 < NumBins
    ensures LeftBarX(i + 1) - (LeftBarX(i) + BarWidth) == BarSpacing
    ensures RightBarX(i) - (RightBarX(i + 1) + BarWidth) == BarSpacing
  {
  }

  /**
   * The left group ends at 380 and the right group starts at 420, so no bar
   * of one group overlaps a bar of the other.
   */
  lemma GroupsDisjoint(i: int, k: int)
    requires 0 <= i < NumBins && 0 <= k < NumBins
    ensures LeftBarX(NumBins - 1) + BarWidth == 380
    ensures RightBarX(NumBins - 1) == 420
    ensures LeftBarX(i) + BarWidth < RightBarX(k)
  {
  }
}
