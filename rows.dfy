// The body of render's per-row goroutine (mandelbrot.go), run here one row
// at a time, and the centroid reduction that follows the rows. The escape-time
// maths that produces each pixel's iteration value is given as a Cell.

module Rows {
  import opened Colour
  import opened Sums

  /** What the floating-point part of render yields for one pixel: index is
      int(|iteration|), the ramp position, and mu is uint32(iteration), the
      interpolation weight. */
  datatype Cell = Cell(index: nat, mu: Word)

  /** The outcome of one column: skipped by the ramp guard, or painted with a
      packed colour. */
  datatype Shade = Skipped | Painted(colour: Word)

  /** The colour of one column: the guard index < len(colors) - 1 admits the
      column, and then reads the ramp at index and index + 1. A ramp of fewer
      than two colours paints nothing; a weight of 0 or 1 paints exactly the
      ramp colour at index or at index + 1. */
  function ShadeOf(colours: seq<Rgba>, pack: Rgba -> Word, cell: Cell): (s: Shade)
    ensures s.Painted? <==> cell.index + 1 < |colours|
    ensures |colours| <= 1 ==> s == Skipped
    ensures s.Painted? && cell.mu == 0 ==> s.colour == pack(colours[cell.index])
    ensures s.Painted? && cell.mu == 1 ==> s.colour == pack(colours[cell.index + 1])
  {
    if cell.index < |colours| - 1 then
      Painted(LinearInterpolation(pack(colours[cell.index]), pack(colours[cell.index + 1]), cell.mu))
    else
      Skipped
  }

  /** The shades of the columns of one row. */
  function RowShades(colours: seq<Rgba>, pack: Rgba -> Word, row: seq<Cell>): (s: seq<Shade>)
    ensures |s| == |row|
  {
    seq(|row|, ix requires 0 <= ix < |row| => ShadeOf(colours, pack, row[ix]))
  }

  /** The value of previousColor after the given columns: the colour of the
      last painted one, or 0 when none is painted. */
  function LastColour(shades: seq<Shade>): Word
  {
    if |shades| == 0 then 0
    else match shades[|shades| - 1]
      case Skipped => LastColour(shades[..|shades| - 1])
      case Painted(c) => c
  }

  /** Column ix is an edge when it is painted with a colour different from
      previousColor. */
  predicate IsEdge(shades: seq<Shade>, ix: int)
    requires 0 <= ix < |shades|
  {
    shades[ix].Painted? && shades[ix].colour != LastColour(shades[..ix])
  }

  /** The edge columns a row records in xs, left to right. */
  function Edges(shades: seq<Shade>): seq<int>
  {
    if |shades| == 0 then []
    else
      var n := |shades| - 1;
      Edges(shades[..n]) + (if IsEdge(shades, n) then [n] else [])
  }

  /** The recorded edge columns are strictly increasing and lie in the row. */
  lemma {:induction false} EdgesAscending(shades: seq<Shade>)
    ensures forall k :: 0 <= k < |Edges(shades)| ==> 0 <= Edges(shades)[k] < |shades|
    ensures forall k, l :: 0 <= k < l < |Edges(shades)| ==> Edges(shades)[k] < Edges(shades)[l]
  {
    if |shades| > 0 {
      EdgesAscending(shades[..|shades| - 1]);
    }
  }

  /** A column is recorded exactly when it is an edge. */
  lemma {:induction false} EdgeIff(shades: seq<Shade>, ix: int)
    ensures ix in Edges(shades) <==> 0 <= ix < |shades| && IsEdge(shades, ix)
  {
    if |shades| > 0 {
      var n := |shades| - 1;
      var front := shades[..n];
      EdgesAscending(front);
      EdgeIff(front, ix);
      if 0 <= ix < n {
        assert front[..ix] == shades[..ix];
        assert IsEdge(front, ix) == IsEdge(shades, ix);
      }
    }
  }

  /** What one column does to previousColor: a painted column sets it to its
      colour, a skipped one leaves it as it was. */
  lemma ColumnUpdatesPrevious(shades: seq<Shade>, ix: int)
    requires 0 <= ix < |shades|
    ensures shades[ix].Painted? ==> LastColour(shades[..ix + 1]) == shades[ix].colour
    ensures shades[ix].Skipped? ==> LastColour(shades[..ix + 1]) == LastColour(shades[..ix])
  {
    assert shades[..ix + 1][..ix] == shades[..ix];
  }

  /** A skipped column records no edge and leaves previousColor unchanged. */
  lemma SkippedColumn(shades: seq<Shade>, ix: int)
    requires 0 <= ix < |shades| && shades[ix].Skipped?
    ensures ix !in Edges(shades)
    ensures LastColour(shades[..ix + 1]) == LastColour(shades[..ix])
  {
    EdgeIff(shades, ix);
    ColumnUpdatesPrevious(shades, ix);
  }

  /** Column 0 is an edge exactly when it is painted with a colour other than
      0, the initial previousColor. */
  lemma FirstColumn(shades: seq<Shade>)
    requires |shades| > 0
    ensures 0 in Edges(shades) <==> shades[0].Painted? && shades[0].colour != 0
  {
    EdgeIff(shades, 0);
  }

  /** The pixel a column leaves over what was there: its colour when painted,
      the old pixel when skipped. */
  function Over(s: Shade, under: Rgba): Rgba
  {
    match s
    case Skipped => under
    case Painted(c) => ToRgba(c)
  }

  /** One more column extends the edge list by that column when it is an edge. */
  lemma EdgesStep(shades: seq<Shade>, ix: int)
    requires 0 <= ix < |shades|
    ensures Edges(shades[..ix + 1]) == Edges(shades[..ix]) + if IsEdge(shades, ix) then [ix] else []
  {
    var front := shades[..ix + 1];
    assert front[..ix] == shades[..ix];
    assert IsEdge(front, ix) == IsEdge(shades, ix);
  }

  /** One row of render: paints the admitted columns of row iy, records the
      edge columns in xs and the row index beside each of them in ys, and
      leaves every other pixel of the image alone. */
  method ScanRow(img: array2<Rgba>, iy: nat, row: seq<Cell>, colours: seq<Rgba>, pack: Rgba -> Word)
    returns (xs: seq<int>, ys: seq<int>)
    requires iy < img.Length0 && |row| == img.Length1
    modifies img
    ensures xs == Edges(RowShades(colours, pack, row))
    ensures |ys| == |xs| && forall k :: 0 <= k < |ys| ==> ys[k] == iy
    ensures forall ix :: 0 <= ix < img.Length1 ==>
      img[iy, ix] == Over(RowShades(colours, pack, row)[ix], old(img[iy, ix]))
    ensures forall y, x :: 0 <= y < img.Length0 && 0 <= x < img.Length1 && y != iy ==>
      img[y, x] == old(img[y, x])
  {
    ghost var shades := RowShades(colours, pack, row);
    xs, ys := [], [];
    var previousColor: Word := 0;
    for ix := 0 to |row|
      invariant xs == Edges(shades[..ix])
      invariant |ys| == |xs| && forall k :: 0 <= k < |ys| ==> ys[k] == iy
      invariant previousColor == LastColour(shades[..ix])
      invariant forall y, x :: 0 <= y < img.Length0 && 0 <= x < img.Length1 ==>
        img[y, x] == if y == iy && x < ix then Over(shades[x], old(img[y, x])) else old(img[y, x])
    {
      EdgesStep(shades, ix);
      ColumnUpdatesPrevious(shades, ix);
      var k := row[ix].index;
      if k < |colours| - 1 {
        var color1 := colours[k];
        var color2 := colours[k + 1];
        var color := LinearInterpolation(pack(color1), pack(color2), row[ix].mu);
        assert shades[ix] == Painted(color);
        if previousColor != color {
          xs := xs + [ix];
          ys := ys + [iy];
        }
        previousColor := color;
        img[iy, ix] := ToRgba(color);
      } else {
        assert shades[ix] == Skipped;
      }
    }
    assert shades[..|row|] == shades;
  }

  /** The body of one row goroutine: the row scan, then the row's means
      sum(xs) / len(xs) and sum(ys) / len(ys). An empty edge list divides by
      zero, which makes Go panic: ok is false. */
  method RenderRow(img: array2<Rgba>, iy: nat, row: seq<Cell>, colours: seq<Rgba>, pack: Rgba -> Word)
    returns (ok: bool, xMean: int, yMean: int)
    requires iy < img.Length0 && |row| == img.Length1
    modifies img
    ensures var edges := Edges(RowShades(colours, pack, row));
      ok == (|edges| > 0) &&
      (ok ==> xMean == Mean(edges) && yMean == Mean(Repeat(iy, |edges|)))
    ensures ok ==> 0 <= xMean < |row| && yMean == iy
    ensures forall ix :: 0 <= ix < img.Length1 ==>
      img[iy, ix] == Over(RowShades(colours, pack, row)[ix], old(img[iy, ix]))
    ensures forall y, x :: 0 <= y < img.Length0 && 0 <= x < img.Length1 && y != iy ==>
      img[y, x] == old(img[y, x])
  {
    var xs, ys := ScanRow(img, iy, row, colours, pack);
    if |xs| == 0 {
      return false, 0, 0;
    }
    assert ys == Repeat(iy, |xs|);
    var sumX := Sum(xs);
    var sumY := Sum(ys);
    ok, xMean, yMean := true, DivTrunc(sumX, |xs|), DivTrunc(sumY, |ys|);
    EdgesAscending(RowShades(colours, pack, row));
    MeanBounds(xs, |row|);
    ConstantMean(iy, |xs|);
  }

  /** The cells of row iy of a width-column image. */
  function RowCells(cells: (nat, nat) -> Cell, width: nat, iy: nat): (row: seq<Cell>)
    ensures |row| == width
  {
    seq(width, ix requires 0 <= ix => cells(ix, iy))
  }

  /** The shades of every row of a width x height image. */
  function Grid(colours: seq<Rgba>, pack: Rgba -> Word, cells: (nat, nat) -> Cell, width: nat, height: nat)
    : (grid: seq<seq<Shade>>)
    ensures |grid| == height
    ensures forall iy :: 0 <= iy < height ==> |grid[iy]| == width
  {
    seq(height, iy requires 0 <= iy => RowShades(colours, pack, RowCells(cells, width, iy)))
  }

  /** render's row loop: one RenderRow per row, top to bottom, collecting the
      row means in xMiddle and yMiddle. ok is false when some row panicked. */
  method PaintRows(img: array2<Rgba>, colours: seq<Rgba>, pack: Rgba -> Word, cells: (nat, nat) -> Cell)
    returns (ok: bool, xMiddle: seq<int>, yMiddle: seq<int>)
    modifies img
    ensures var grid := Grid(colours, pack, cells, img.Length1, img.Length0);
      ok == EveryRowHasEdge(grid) &&
      (ok ==> xMiddle == MeansX(grid) && yMiddle == MeansY(grid)) &&
      (ok ==> forall y, x :: 0 <= y < img.Length0 && 0 <= x < img.Length1 ==>
         img[y, x] == Over(grid[y][x], old(img[y, x])))
  {
    var width := img.Length1;
    xMiddle, yMiddle := [], [];
    var iy := 0;
    while iy < img.Length0
      invariant 0 <= iy <= img.Length0 && |xMiddle| == iy && |yMiddle| == iy
      invariant forall r :: 0 <= r < iy ==> RowMeans(RowShades(colours, pack, RowCells(cells, width, r)), r, xMiddle[r], yMiddle[r])
      invariant forall y, x :: 0 <= y < iy && 0 <= x < width ==>
        img[y, x] == Over(RowShades(colours, pack, RowCells(cells, width, y))[x], old(img[y, x]))
      invariant forall y, x :: iy <= y < img.Length0 && 0 <= x < width ==> img[y, x] == old(img[y, x])
    {
      var rowOk, xMean, yMean := RenderRow(img, iy, RowCells(cells, width, iy), colours, pack);
      if !rowOk {
        GridRow(colours, pack, cells, width, img.Length0, iy);
        return false, xMiddle, yMiddle;
      }
      xMiddle := xMiddle + [xMean];
      yMiddle := yMiddle + [yMean];
      iy := iy + 1;
    }
    MeansOfRows(colours, pack, cells, width, img.Length0, xMiddle, yMiddle);
    ok := true;
  }

  /** Row y's edge list is non-empty and its means are xMean and yMean. */
  predicate RowMeans(shades: seq<Shade>, y: int, xMean: int, yMean: int)
  {
    |Edges(shades)| > 0 && xMean == Mean(Edges(shades)) && yMean == Mean(Repeat(y, |Edges(shades)|))
  }

  /** Row iy of the grid is the shades of row iy's cells. */
  lemma GridRow(colours: seq<Rgba>, pack: Rgba -> Word, cells: (nat, nat) -> Cell, width: nat, height: nat, iy: nat)
    requires iy < height
    ensures Grid(colours, pack, cells, width, height)[iy] == RowShades(colours, pack, RowCells(cells, width, iy))
  {
  }

  /** Row-by-row means collected in order are MeansX and MeansY. */
  lemma MeansOfRows(colours: seq<Rgba>, pack: Rgba -> Word, cells: (nat, nat) -> Cell, width: nat, height: nat,
                    xs: seq<int>, ys: seq<int>)
    requires |xs| == height && |ys| == height
    requires forall r :: 0 <= r < height ==> RowMeans(RowShades(colours, pack, RowCells(cells, width, r)), r, xs[r], ys[r])
    ensures var grid := Grid(colours, pack, cells, width, height);
      EveryRowHasEdge(grid) && xs == MeansX(grid) && ys == MeansY(grid)
  {
  }

  /** The outcome of the centroid reduction: a division by zero (a row with
      no edge, or no row at all) makes Go panic; otherwise the centre. */
  datatype Centroid = DivisionByZero | Centre(x: int, y: int)

  predicate EveryRowHasEdge(grid: seq<seq<Shade>>)
  {
    forall iy :: 0 <= iy < |grid| ==> |Edges(grid[iy])| > 0
  }

  /** The ys of row iy: the row index once per edge column. */
  function RowYs(grid: seq<seq<Shade>>, iy: int): seq<int>
    requires 0 <= iy < |grid|
  {
    Repeat(iy, |Edges(grid[iy])|)
  }

  /** xMiddle: sum(xs) / len(xs) of every row, in row order. */
  function MeansX(grid: seq<seq<Shade>>): (m: seq<int>)
    requires EveryRowHasEdge(grid)
    ensures |m| == |grid|
  {
    seq(|grid|, iy requires 0 <= iy < |grid| => Mean(Edges(grid[iy])))
  }

  /** yMiddle: sum(ys) / len(ys) of every row, in row order. */
  function MeansY(grid: seq<seq<Shade>>): (m: seq<int>)
    requires EveryRowHasEdge(grid)
    ensures |m| == |grid|
  {
    seq(|grid|, iy requires 0 <= iy < |grid| => Mean(RowYs(grid, iy)))
  }

  /** middX and middY of render, after its rows. */
  function CentroidOf(grid: seq<seq<Shade>>): Centroid
  {
    if |grid| == 0 || !EveryRowHasEdge(grid) then DivisionByZero
    else Centre(Mean(MeansX(grid)), Mean(MeansY(grid)))
  }

  /** The reduction render applies after the rows: middX and middY, the
      means of xMiddle and yMiddle. No row at all divides by zero. */
  method Reduce(ghost grid: seq<seq<Shade>>, xMiddle: seq<int>, yMiddle: seq<int>)
    returns (ok: bool, middX: int, middY: int)
    requires EveryRowHasEdge(grid) && xMiddle == MeansX(grid) && yMiddle == MeansY(grid)
    ensures ok == CentroidOf(grid).Centre?
    ensures ok ==> CentroidOf(grid) == Centre(middX, middY)
  {
    if |xMiddle| == 0 {
      // sum(xMiddle) / len(xMiddle) divides by zero
      return false, 0, 0;
    }
    var sumX := Sum(xMiddle);
    var sumY := Sum(yMiddle);
    ok, middX, middY := true, DivTrunc(sumX, |xMiddle|), DivTrunc(sumY, |yMiddle|);
  }

  /** Whatever the image, a centre lies inside the columns and its row is the
      middle row (height - 1) / 2, because every row contributes its own index. */
  lemma CentroidBounds(grid: seq<seq<Shade>>, width: nat)
    requires forall iy :: 0 <= iy < |grid| ==> |grid[iy]| == width
    ensures CentroidOf(grid).Centre? ==>
      0 <= CentroidOf(grid).x < width && CentroidOf(grid).y == (|grid| - 1) / 2
  {
    if CentroidOf(grid).Centre? {
      var mx := MeansX(grid);
      forall iy | 0 <= iy < |grid|
        ensures 0 <= mx[iy] < width
      {
        EdgesAscending(grid[iy]);
        MeanBounds(Edges(grid[iy]), width);
      }
      MeanBounds(mx, width);
      var my := MeansY(grid);
      forall iy | 0 <= iy < |grid|
        ensures my[iy] == iy
      {
        ConstantMean(iy, |Edges(grid[iy])|);
      }
      assert my == Indices(|grid|);
      MeanIndex(|grid|);
    }
  }
}
