/** Drawing one orientation as text: a grid of blanks as wide and as high as
    the orientation's box, with a `#` written into each of its cells, read out
    row by row. */
module Render {
  import opened Geometry

  const FILLED: char := '#'
  const EMPTY: char := ' '

  /** The character drawn at column `x` of row `y`. */
  function Mark(o: PieceInfo, x: nat, y: nat): char {
    if Coord(x, y) in o.p then FILLED else EMPTY
  }

  /** The drawing of `o`: `height` rows of `width` characters each. */
  function Picture(o: PieceInfo): (r: seq<string>)
    ensures |r| == o.height
    ensures forall y :: 0 <= y < |r| ==> |r[y]| == o.width
    ensures forall y, x :: 0 <= y < |r| && 0 <= x < |r[y]| ==> r[y][x] == FILLED || r[y][x] == EMPTY
  {
    seq(o.height, y requires 0 <= y < o.height =>
      seq(o.width, x requires 0 <= x < o.width => Mark(o, x, y)))
  }

  /** The cells a drawing shows: the positions of its `#` characters. */
  function CellsDrawn(rows: seq<string>): set<Coord> {
    set y: nat, x: nat | y < |rows| && x < |rows[y]| && rows[y][x] == FILLED :: Coord(x, y)
  }

  /** Fills a `height` by `width` grid with blanks and writes `#` at each cell
      of `o`, one cell after the other. */
  method FillGrid(o: PieceInfo) returns (grid: array2<char>)
    requires InBox(o)
    ensures fresh(grid)
    ensures grid.Length0 == o.height && grid.Length1 == o.width
    ensures forall y, x :: 0 <= y < o.height && 0 <= x < o.width ==> grid[y, x] == Mark(o, x, y)
  {
    grid := new char[o.height, o.width]((y, x) => EMPTY);
    var i := 0;
    while i < |o.p|
      invariant 0 <= i <= |o.p|
      invariant forall y, x :: 0 <= y < o.height && 0 <= x < o.width ==>
                  grid[y, x] == (if Coord(x, y) in o.p[..i] then FILLED else EMPTY)
    {
      var c := o.p[i];
      grid[c.y, c.x] := FILLED;
      assert o.p[..i + 1] == o.p[..i] + [c];
      i := i + 1;
    }
    assert o.p[..i] == o.p;
  }

  /** Renders `o` as its rows of text, top row first. */
  method RenderRows(o: PieceInfo) returns (rows: seq<string>)
    requires InBox(o)
    ensures rows == Picture(o)
  {
    var grid := FillGrid(o);
    rows := [];
    var y := 0;
    while y < o.height
      invariant 0 <= y <= o.height
      invariant |rows| == y
      invariant forall r :: 0 <= r < y ==> rows[r] == Picture(o)[r]
    {
      var text := seq(o.width, x requires 0 <= x < o.width reads grid => grid[y, x]);
      assert text == Picture(o)[y];
      rows := rows + [text];
      y := y + 1;
    }
  }

  /** Reading the `#` characters back from the drawing gives exactly the cells
      of the orientation. */
  lemma PictureShowsCells(o: PieceInfo)
    requires InBox(o)
    ensures CellsDrawn(Picture(o)) == CellSet(o)
  {
    var pic := Picture(o);
    forall c | c in CellSet(o) ensures c in CellsDrawn(pic) {
      assert pic[c.y][c.x] == FILLED;
    }
    forall c | c in CellsDrawn(pic) ensures c in CellSet(o) {
      assert pic[c.y][c.x] == FILLED;
    }
  }

  /** Orientations with the same box and the same cells draw the same way,
      whatever the order of their cells. */
  lemma SameShapeSamePicture(a: PieceInfo, b: PieceInfo)
    requires SameShape(a, b)
    ensures Picture(a) == Picture(b)
  {
    forall y | 0 <= y < a.height ensures Picture(a)[y] == Picture(b)[y] {
      forall x | 0 <= x < a.width ensures Mark(a, x, y) == Mark(b, x, y) {
        assert (Coord(x, y) in a.p) == (Coord(x, y) in CellSet(a));
        assert (Coord(x, y) in b.p) == (Coord(x, y) in CellSet(b));
      }
    }
  }

  /** Orientations with different cells draw differently. */
  lemma DistinctPictures(a: PieceInfo, b: PieceInfo)
    requires InBox(a) && InBox(b) && CellSet(a) != CellSet(b)
    ensures Picture(a) != Picture(b)
  {
    PictureShowsCells(a);
    PictureShowsCells(b);
  }

  /** A drawing has exactly as many `#` positions as the orientation has
      distinct cells: five for every well-formed orientation. */
  lemma FiveMarks(o: PieceInfo)
    requires Framed(o)
    ensures |CellsDrawn(Picture(o))| == CELL_COUNT
  {
    PictureShowsCells(o);
    DistinctCount(o.p);
  }
}
