/** drawBar: the cells of one gauge, without the screen. */
module Bar {

  /** One character written by the bar, at `column` cells right of the start
      of the bar, under colour pair `pair` (0 for the terminal default). */
  datatype Cell = Cell(column: int, glyph: char, pair: int)

  /** The width the monitor draws its bars with. */
  const DefaultWidth: int := 50

  /** Conversion to int, which truncates toward zero. */
  function Trunc(x: real): (n: int)
    ensures n as real <= x < n as real + 1.0 || n as real - 1.0 < x <= n as real
    ensures 0.0 <= x ==> 0 <= n && n as real <= x < n as real + 1.0
    ensures x <= 0.0 ==> n <= 0 && n as real - 1.0 < x <= n as real
  {
    if x >= 0.0 then x.Floor else -((-x).Floor)
  }

  /** The exact share of the width that percent asks for. */
  function Scaled(percent: real, width: int): (x: real) {
    percent / 100.0 * width as real
  }

  /** Number of '#' cells: percent of the width, truncated. */
  function Filled(percent: real, width: int): (f: int)
    ensures 0.0 <= Scaled(percent, width) ==> 0 <= f && f as real <= Scaled(percent, width) < f as real + 1.0
    ensures Scaled(percent, width) <= 0.0 ==> f <= 0 && f as real - 1.0 < Scaled(percent, width) <= f as real
  {
    Trunc(Scaled(percent, width))
  }

  /** Colour pair 1 below 50%, 2 below 80%, 3 from 80% up. */
  function ColorPair(percent: real): (pair: int)
    ensures 1 <= pair <= 3
    ensures pair == 1 <==> percent < 50.0
    ensures pair == 2 <==> 50.0 <= percent < 80.0
    ensures pair == 3 <==> 80.0 <= percent
  {
    if percent < 50.0 then 1 else if percent < 80.0 then 2 else 3
  }

  /** The cells the two loops of drawBar write, in order: '#' in the colour
      of the band at columns 0 .. filled - 1, then '-' in the default colour
      at columns filled .. width - 1. */
  function BarCells(percent: real, width: int): (cells: seq<Cell>)
    ensures 0 <= Filled(percent, width) ==>
      |cells| == if width > Filled(percent, width) then width else Filled(percent, width)
    ensures 0 <= Filled(percent, width) ==> forall c :: 0 <= c < |cells| ==>
      cells[c].column == c && (cells[c].glyph == '#' <==> c < Filled(percent, width))
    ensures forall c :: 0 <= c < |cells| ==>
      if cells[c].glyph == '#' then cells[c].pair == ColorPair(percent)
      else cells[c].glyph == '-' && cells[c].pair == 0
    ensures Filled(percent, width) < 0 ==>
      |cells| == (if width > Filled(percent, width) then width - Filled(percent, width) else 0)
      && forall c :: 0 <= c < |cells| ==> cells[c].column == Filled(percent, width) + c && cells[c].glyph == '-'
  {
    var f := Filled(percent, width);
    var hashes := if f > 0 then f else 0;
    var dashes := if width - f > 0 then width - f else 0;
    seq(hashes, i => Cell(i, '#', ColorPair(percent)))
      + seq(dashes, k => Cell(f + k, '-', 0))
  }

  /** The two cell-writing loops of drawBar. */
  method DrawBar(percent: real, width: int) returns (cells: seq<Cell>)
    ensures cells == BarCells(percent, width)
  {
    var filled := Filled(percent, width);
    var color := ColorPair(percent);
    cells := [];
    var i := 0;
    while i < filled
      invariant 0 <= i <= (if filled > 0 then filled else 0)
      invariant cells == seq(i, c => Cell(c, '#', color))
    {
      cells := cells + [Cell(i, '#', color)];
      i := i + 1;
    }
    assert i == if filled > 0 then filled else 0;
    ghost var hashes := cells;
    i := filled;
    while i < width
      invariant filled <= i <= (if width > filled then width else filled)
      invariant cells == hashes + seq(i - filled, k => Cell(filled + k, '-', 0))
    {
      cells := cells + [Cell(i, '-', 0)];
      i := i + 1;
    }
    assert i - filled == if width - filled > 0 then width - filled else 0;
  }

  /** For a percentage in [0, 100] and a non-negative width the fill lies in
      [0, width] and is the percentage of the width rounded down. */
  lemma FilledWithinWidth(percent: real, width: int)
    requires 0.0 <= percent <= 100.0 && width >= 0
    ensures 0 <= Filled(percent, width) <= width
    ensures Filled(percent, width) as real <= Scaled(percent, width) < Filled(percent, width) as real + 1.0
  {
    ScaledWithinWidth(percent, width);
    TruncWithin(Scaled(percent, width), width);
  }

  /** A value in [0, w] truncates to an integer in [0, w]. */
  lemma TruncWithin(x: real, w: int)
    requires 0.0 <= x <= w as real
    ensures 0 <= Trunc(x) <= w
  {
  }

  /** A percentage in [0, 100] of a non-negative width lies in [0, width]. */
  lemma ScaledWithinWidth(percent: real, width: int)
    requires 0.0 <= percent <= 100.0 && width >= 0
    ensures 0.0 <= Scaled(percent, width) <= width as real
  {
    ScaleWithinWidth(percent / 100.0, width as real);
  }

  lemma ScaleWithinWidth(p: real, w: real)
    requires 0.0 <= p <= 1.0 && 0.0 <= w
    ensures 0.0 <= p * w <= w
  {
  }

  /** Then the bar has exactly `width` cells, one per column 0 .. width - 1,
      and the cell at column c is '#' exactly when c < filled. */
  lemma BarHasWidthCells(percent: real, width: int)
    requires 0.0 <= percent <= 100.0 && width >= 0
    ensures |BarCells(percent, width)| == width
    ensures forall c :: 0 <= c < width ==> BarCells(percent, width)[c].column == c
    ensures forall c :: 0 <= c < width ==>
      (BarCells(percent, width)[c].glyph == '#' <==> c < Filled(percent, width))
  {
    FilledWithinWidth(percent, width);
  }

  /** Over 100% the bar is all '#' and longer than the width. */
  lemma BarOverfull(percent: real, width: int)
    requires percent > 100.0 && width > 0
    ensures |BarCells(percent, width)| == Filled(percent, width) >= width
    ensures forall c :: 0 <= c < |BarCells(percent, width)| ==> BarCells(percent, width)[c].glyph == '#'
  {
  }

  /** 60% of 50 cells: 30 '#' in the middle band and 20 '-'. */
  lemma BarExample()
    ensures Filled(60.0, DefaultWidth) == 30
    ensures ColorPair(60.0) == 2
    ensures |BarCells(60.0, DefaultWidth)| == 50
  {
  }
}
