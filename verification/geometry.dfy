/** Geometry of five-cell puzzle pieces: cell coordinates, orientation records,
    the invariants every orientation is meant to satisfy, and the eight
    rotations and mirror images of an orientation inside its bounding box. */
module Geometry {

  /** A cell offset inside an orientation's bounding box: column `x`, row `y`
      (row 0 is the top of the drawn shape). */
  datatype Coord = Coord(x: nat, y: nat)

  /** One orientation of a piece: the size of its bounding box and its cells. */
  datatype PieceInfo = PieceInfo(width: nat, height: nat, p: seq<Coord>)

  /** Every piece is made of this many unit cells. */
  const CELL_COUNT := 5

  function CellSet(o: PieceInfo): set<Coord> {
    set c | c in o.p
  }

  /** A list of pairwise different cells has as many cells as entries. */
  lemma {:induction false} DistinctCount(s: seq<Coord>)
    requires DistinctCells(s)
    ensures |set c | c in s| == |s|
  {
    if |s| > 0 {
      var rest := s[1..];
      assert DistinctCells(rest) by {
        forall i, j | 0 <= i < j < |rest| ensures rest[i] != rest[j] {
          assert rest[i] == s[i + 1] && rest[j] == s[j + 1];
        }
      }
      DistinctCount(rest);
      assert s[0] !in rest by {
        forall i | 0 <= i < |rest| ensures rest[i] != s[0] {
          assert rest[i] == s[i + 1];
        }
      }
      assert (set c | c in s) == {s[0]} + (set c | c in rest);
    }
  }

  /** Every cell lies inside the box: `0 <= x < width` and `0 <= y < height`. */
  predicate InBox(o: PieceInfo) {
    forall i :: 0 <= i < |o.p| ==> o.p[i].x < o.width && o.p[i].y < o.height
  }

  predicate DistinctCells(s: seq<Coord>) {
    forall i, j :: 0 <= i < j < |s| ==> s[i] != s[j]
  }

  /** No empty border column or row: some cell touches each side of the box. */
  predicate TightBox(o: PieceInfo) {
    && (exists c :: c in o.p && c.x == 0)
    && (exists c :: c in o.p && c.x + 1 == o.width)
    && (exists c :: c in o.p && c.y == 0)
    && (exists c :: c in o.p && c.y + 1 == o.height)
  }

  /** Two cells share an edge (not merely a corner). */
  predicate Adjacent(a: Coord, b: Coord) {
    || (a.y == b.y && (a.x + 1 == b.x || b.x + 1 == a.x))
    || (a.x == b.x && (a.y + 1 == b.y || b.y + 1 == a.y))
  }

  /** Some cell of `s` shares an edge with some cell of `t`. */
  ghost predicate Crossing(s: set<Coord>, t: set<Coord>) {
    exists a, b :: a in s && b in t && Adjacent(a, b)
  }

  /** The cells form one edge-connected region: however they are split into
      two non-empty parts, some edge joins the parts. */
  ghost predicate EdgeConnected(cells: set<Coord>) {
    forall part :: part <= cells && part != {} && part != cells ==> Crossing(part, cells - part)
  }

  /** The invariants of an orientation record that need no search: five
      distinct cells, all inside a box that fits them tightly. */
  predicate Framed(o: PieceInfo) {
    && |o.p| == CELL_COUNT
    && DistinctCells(o.p)
    && InBox(o)
    && TightBox(o)
  }

  /** The invariants every orientation record is meant to satisfy. */
  ghost predicate WellFormed(o: PieceInfo) {
    Framed(o) && EdgeConnected(CellSet(o))
  }

  /** Same bounding box and same occupied cells, whatever their order. */
  ghost predicate SameShape(a: PieceInfo, b: PieceInfo) {
    a.width == b.width && a.height == b.height && CellSet(a) == CellSet(b)
  }

  // ---------------------------------------------------------------------------
  // Connectivity certificates

  /** `chain` lists cells so that each one after the first shares an edge with
      an earlier one, namely `chain[parent[k]]`: a spanning tree of the cells. */
  predicate SpanningChain(chain: seq<Coord>, parent: seq<nat>) {
    && |parent| == |chain|
    && forall k :: 0 < k < |chain| ==> parent[k] < k && Adjacent(chain[parent[k]], chain[k])
  }

  /** Index of the first element of `chain` whose membership in `part` differs
      from that of `chain[0]`. */
  lemma FirstSwitch(chain: seq<Coord>, part: set<Coord>, k: nat) returns (m: nat)
    requires 0 < k < |chain|
    requires (chain[0] in part) != (chain[k] in part)
    ensures 0 < m <= k
    ensures (chain[m] in part) != (chain[0] in part)
    ensures forall j :: 0 <= j < m ==> (chain[j] in part) == (chain[0] in part)
  {
    m := 1;
    while (chain[m] in part) == (chain[0] in part)
      invariant 0 < m <= k
      invariant forall j :: 0 <= j < m ==> (chain[j] in part) == (chain[0] in part)
      decreases k - m
    {
      m := m + 1;
    }
  }

  /** A spanning chain certifies that its cells are edge-connected. */
  lemma ChainConnected(chain: seq<Coord>, parent: seq<nat>)
    requires SpanningChain(chain, parent)
    ensures EdgeConnected(set c | c in chain)
  {
    var cells := set c | c in chain;
    forall part | part <= cells && part != {} && part != cells
      ensures Crossing(part, cells - part)
    {
      // an element on the other side of the split from chain[0]
      var k: nat;
      if chain[0] in part {
        var c :| c in cells && c !in part;
        k :| 0 <= k < |chain| && chain[k] == c;
      } else {
        var c :| c in part;
        k :| 0 <= k < |chain| && chain[k] == c;
      }
      var m := FirstSwitch(chain, part, k);
      var q := parent[m];
      assert Adjacent(chain[q], chain[m]);
      if chain[m] in part {
        assert Adjacent(chain[m], chain[q]);
      } else {
        assert chain[q] in part;
      }
    }
  }

  // ---------------------------------------------------------------------------
  // Rotations and mirror images

  /** Quarter turns clockwise. */
  type Quarter = k: nat | k < 4

  /** The symmetry "mirror left to right if `mirrored`, then turn clockwise
      `turns` quarter turns". */
  datatype Symmetry = Symmetry(turns: Quarter, mirrored: bool)

  const SYMMETRIES: seq<Symmetry> := [
    Symmetry(0, false), Symmetry(1, false), Symmetry(2, false), Symmetry(3, false),
    Symmetry(0, true), Symmetry(1, true), Symmetry(2, true), Symmetry(3, true)
  ]

  /** One quarter turn clockwise: the box becomes `height` wide and `width`
      high, and the cell `(x, y)` moves to `(height - 1 - y, x)`. */
  function Rotate(o: PieceInfo): (r: PieceInfo)
    requires InBox(o)
    ensures r.width == o.height && r.height == o.width && |r.p| == |o.p|
    ensures InBox(r)
    ensures forall i :: 0 <= i < |o.p| ==> r.p[i] == Coord(o.height - 1 - o.p[i].y, o.p[i].x)
  {
    PieceInfo(o.height, o.width, seq(|o.p|, i requires 0 <= i < |o.p| => Coord(o.height - 1 - o.p[i].y, o.p[i].x)))
  }

  /** The mirror image left to right: `(x, y)` moves to `(width - 1 - x, y)`. */
  function Mirror(o: PieceInfo): (r: PieceInfo)
    requires InBox(o)
    ensures r.width == o.width && r.height == o.height && |r.p| == |o.p|
    ensures InBox(r)
    ensures forall i :: 0 <= i < |o.p| ==> r.p[i] == Coord(o.width - 1 - o.p[i].x, o.p[i].y)
  {
    PieceInfo(o.width, o.height, seq(|o.p|, i requires 0 <= i < |o.p| => Coord(o.width - 1 - o.p[i].x, o.p[i].y)))
  }

  /** `k` successive clockwise quarter turns. */
  function Rotations(o: PieceInfo, k: nat): (r: PieceInfo)
    requires InBox(o)
    ensures InBox(r) && |r.p| == |o.p|
  {
    if k == 0 then o else Rotate(Rotations(o, k - 1))
  }

  /** Width and height of the box after applying `s` to a `w` by `h` box. */
  function BoxWidth(s: Symmetry, w: nat, h: nat): nat {
    if s.turns % 2 == 0 then w else h
  }

  function BoxHeight(s: Symmetry, w: nat, h: nat): nat {
    if s.turns % 2 == 0 then h else w
  }

  /** Where `s` sends the cell `c` of a `w` by `h` box, in closed form. */
  function Move(s: Symmetry, c: Coord, w: nat, h: nat): (r: Coord)
    requires c.x < w && c.y < h
    ensures r.x < BoxWidth(s, w, h) && r.y < BoxHeight(s, w, h)
  {
    var m := if s.mirrored then Coord(w - 1 - c.x, c.y) else c;
    if s.turns == 0 then m
    else if s.turns == 1 then Coord(h - 1 - m.y, m.x)
    else if s.turns == 2 then Coord(w - 1 - m.x, h - 1 - m.y)
    else Coord(m.y, w - 1 - m.x)
  }

  /** The orientation obtained by applying `s` to `o`. */
  function Transform(o: PieceInfo, s: Symmetry): (r: PieceInfo)
    requires InBox(o)
    ensures r.width == BoxWidth(s, o.width, o.height) && r.height == BoxHeight(s, o.width, o.height)
    ensures |r.p| == |o.p| && InBox(r)
    ensures forall i :: 0 <= i < |o.p| ==> r.p[i] == Move(s, o.p[i], o.width, o.height)
  {
    PieceInfo(BoxWidth(s, o.width, o.height), BoxHeight(s, o.width, o.height),
              seq(|o.p|, i requires 0 <= i < |o.p| => Move(s, o.p[i], o.width, o.height)))
  }

  /** One more quarter turn in the closed form is one more clockwise turn of
      the cell in the box the first `turns` turns produced. */
  lemma MoveStep(s: Symmetry, c: Coord, w: nat, h: nat)
    requires c.x < w && c.y < h && s.turns < 3
    ensures var m := Move(s, c, w, h);
            Move(Symmetry(s.turns + 1, s.mirrored), c, w, h) == Coord(BoxHeight(s, w, h) - 1 - m.y, m.x)
  {
  }

  lemma TransformStep(o: PieceInfo, s: Symmetry)
    requires InBox(o) && s.turns < 3
    ensures Transform(o, Symmetry(s.turns + 1, s.mirrored)) == Rotate(Transform(o, s))
  {
    var next := Transform(o, Symmetry(s.turns + 1, s.mirrored));
    var r := Rotate(Transform(o, s));
    forall i | 0 <= i < |o.p| ensures next.p[i] == r.p[i] {
      MoveStep(s, o.p[i], o.width, o.height);
    }
    assert next.p == r.p;
  }

  /** The closed form agrees with mirroring and then turning step by step. */
  lemma {:induction false} TransformIsRotations(o: PieceInfo, s: Symmetry)
    requires InBox(o)
    ensures Transform(o, s) == Rotations(if s.mirrored then Mirror(o) else o, s.turns)
  {
    var base := if s.mirrored then Mirror(o) else o;
    assert Transform(o, Symmetry(0, s.mirrored)).p == base.p;
    var k: nat := 0;
    while k < s.turns
      invariant k <= s.turns
      invariant Transform(o, Symmetry(k, s.mirrored)) == Rotations(base, k)
    {
      TransformStep(o, Symmetry(k, s.mirrored));
      k := k + 1;
    }
  }

  /** Four quarter turns give back the same orientation, cell for cell. */
  lemma FourTurns(o: PieceInfo)
    requires InBox(o)
    ensures Rotations(o, 4) == o
  {
    TransformIsRotations(o, Symmetry(3, false));
    var three := Transform(o, Symmetry(3, false));
    var r := Rotate(three);
    forall i | 0 <= i < |o.p| ensures r.p[i] == o.p[i] {
      assert three.p[i] == Coord(o.p[i].y, o.width - 1 - o.p[i].x);
    }
    assert r.p == o.p;
  }

  /** Mirroring twice gives back the same orientation, cell for cell. */
  lemma MirrorTwice(o: PieceInfo)
    requires InBox(o)
    ensures Mirror(Mirror(o)) == o
  {
    assert Mirror(Mirror(o)).p == o.p;
  }

  /** The symmetry that undoes `s`: a mirror image is its own inverse, and a
      turn by `k` is undone by a turn by `4 - k`. */
  function Inverse(s: Symmetry): Symmetry {
    if s.mirrored || s.turns == 0 then s else Symmetry(4 - s.turns, false)
  }

  lemma MoveInverse(s: Symmetry, c: Coord, w: nat, h: nat)
    requires c.x < w && c.y < h
    ensures BoxWidth(Inverse(s), BoxWidth(s, w, h), BoxHeight(s, w, h)) == w
    ensures BoxHeight(Inverse(s), BoxWidth(s, w, h), BoxHeight(s, w, h)) == h
    ensures Move(Inverse(s), Move(s, c, w, h), BoxWidth(s, w, h), BoxHeight(s, w, h)) == c
  {
  }

  /** Applying the inverse first and then `s` also gives the cell back. */
  lemma MoveUndo(s: Symmetry, c: Coord, w: nat, h: nat)
    requires c.x < BoxWidth(s, w, h) && c.y < BoxHeight(s, w, h)
    ensures BoxWidth(Inverse(s), BoxWidth(s, w, h), BoxHeight(s, w, h)) == w
    ensures BoxHeight(Inverse(s), BoxWidth(s, w, h), BoxHeight(s, w, h)) == h
    ensures Move(s, Move(Inverse(s), c, BoxWidth(s, w, h), BoxHeight(s, w, h)), w, h) == c
  {
  }

  /** Applying `s` and then its inverse gives back the same orientation. */
  lemma TransformInverse(o: PieceInfo, s: Symmetry)
    requires InBox(o)
    ensures Transform(Transform(o, s), Inverse(s)) == o
  {
    var t := Transform(o, s);
    var back := Transform(t, Inverse(s));
    forall i | 0 <= i < |o.p| ensures back.p[i] == o.p[i] {
      MoveInverse(s, o.p[i], o.width, o.height);
    }
    assert back.width == o.width && back.height == o.height;
    assert back.p == o.p;
  }

  lemma MoveAdjacent(s: Symmetry, a: Coord, b: Coord, w: nat, h: nat)
    requires a.x < w && a.y < h && b.x < w && b.y < h
    requires Adjacent(a, b)
    ensures Adjacent(Move(s, a, w, h), Move(s, b, w, h))
  {
  }

  /** `b` is the image of `a` under `s`, certified by index maps: the boxes
      correspond, cell `i` of `a` is sent to cell `fwd[i]` of `b`, and every
      cell `j` of `b` is reached, from cell `back[j]` of `a`. */
  predicate ImageBy(a: PieceInfo, s: Symmetry, b: PieceInfo, fwd: seq<nat>, back: seq<nat>)
    requires InBox(a)
  {
    && b.width == BoxWidth(s, a.width, a.height)
    && b.height == BoxHeight(s, a.width, a.height)
    && |fwd| == |a.p| && |back| == |b.p|
    && (forall i :: 0 <= i < |a.p| ==> fwd[i] < |b.p| && b.p[fwd[i]] == Move(s, a.p[i], a.width, a.height))
    && (forall j :: 0 <= j < |b.p| ==> back[j] < |a.p| && fwd[back[j]] == j)
  }

  /** A certified image has the shape of the transformed orientation. */
  lemma ImageBySameShape(a: PieceInfo, s: Symmetry, b: PieceInfo, fwd: seq<nat>, back: seq<nat>)
    requires InBox(a) && ImageBy(a, s, b, fwd, back)
    ensures SameShape(Transform(a, s), b)
  {
    var t := Transform(a, s);
    forall c | c in CellSet(t) ensures c in CellSet(b) {
      var i :| 0 <= i < |t.p| && t.p[i] == c;
      assert b.p[fwd[i]] == c;
    }
    forall c | c in CellSet(b) ensures c in CellSet(t) {
      var j :| 0 <= j < |b.p| && b.p[j] == c;
      assert t.p[back[j]] == c;
    }
  }

  /** The cells of `a` that `s` sends into `part` split `a` in two when
      `part` splits the image of `a` in two. */
  lemma PreimageSplits(a: PieceInfo, s: Symmetry, part: set<Coord>, pre: set<Coord>)
    requires InBox(a)
    requires part <= CellSet(Transform(a, s)) && part != {} && part != CellSet(Transform(a, s))
    requires pre == set c | c in CellSet(a) && Move(s, c, a.width, a.height) in part
    ensures pre <= CellSet(a) && pre != {} && pre != CellSet(a)
  {
    var t := Transform(a, s);
    var u :| u in part;
    var i :| 0 <= i < |t.p| && t.p[i] == u;
    assert a.p[i] in pre;
    var v :| v in CellSet(t) && v !in part;
    var j :| 0 <= j < |t.p| && t.p[j] == v;
    assert a.p[j] in CellSet(a) && a.p[j] !in pre;
  }

  /** An edge across the split of `a` is sent to an edge across the split of
      its image. */
  lemma CrossingMoves(a: PieceInfo, s: Symmetry, part: set<Coord>, pre: set<Coord>)
    requires InBox(a)
    requires pre == set c | c in CellSet(a) && Move(s, c, a.width, a.height) in part
    requires Crossing(pre, CellSet(a) - pre)
    ensures Crossing(part, CellSet(Transform(a, s)) - part)
  {
    var t := Transform(a, s);
    var c, d :| c in pre && d in CellSet(a) - pre && Adjacent(c, d);
    MoveAdjacent(s, c, d, a.width, a.height);
    var ic :| 0 <= ic < |a.p| && a.p[ic] == c;
    var id :| 0 <= id < |a.p| && a.p[id] == d;
    assert t.p[ic] in part && t.p[id] in CellSet(t) - part;
  }

  /** Rotating or mirroring keeps a region edge-connected. */
  lemma TransformConnected(a: PieceInfo, s: Symmetry)
    requires InBox(a) && EdgeConnected(CellSet(a))
    ensures EdgeConnected(CellSet(Transform(a, s)))
  {
    var image := CellSet(Transform(a, s));
    forall part | part <= image && part != {} && part != image
      ensures Crossing(part, image - part)
    {
      var pre := set c | c in CellSet(a) && Move(s, c, a.width, a.height) in part;
      PreimageSplits(a, s, part, pre);
      CrossingMoves(a, s, part, pre);
    }
  }

  /** Connectivity carries over from an orientation to every certified image
      of it. */
  lemma ImageConnected(a: PieceInfo, s: Symmetry, b: PieceInfo, fwd: seq<nat>, back: seq<nat>)
    requires InBox(a) && EdgeConnected(CellSet(a)) && ImageBy(a, s, b, fwd, back)
    ensures EdgeConnected(CellSet(b))
  {
    TransformConnected(a, s);
    ImageBySameShape(a, s, b, fwd, back);
  }

  // ---------------------------------------------------------------------------
  // Small facts used to check the catalog

  /** The cells of `o` visited in the order `order` (which reaches every
      index, from `back`) form a spanning chain: `o` is connected. */
  lemma OrderConnected(o: PieceInfo, order: seq<nat>, parent: seq<nat>, back: seq<nat>)
    requires forall k :: 0 <= k < |order| ==> order[k] < |o.p|
    requires |back| == |o.p| && forall i :: 0 <= i < |o.p| ==> back[i] < |order| && order[back[i]] == i
    requires SpanningChain(seq(|order|, k requires 0 <= k < |order| => o.p[order[k]]), parent)
    ensures EdgeConnected(CellSet(o))
  {
    var chain := seq(|order|, k requires 0 <= k < |order| => o.p[order[k]]);
    ChainConnected(chain, parent);
    forall c | c in CellSet(o) ensures c in chain {
      var i :| 0 <= i < |o.p| && o.p[i] == c;
      assert chain[back[i]] == c;
    }
    assert (set c | c in chain) == CellSet(o);
  }

  /** A cell of `a` that `b` lacks shows that the two have different cells. */
  lemma DifferAt(a: PieceInfo, b: PieceInfo, i: nat)
    requires i < |a.p| && a.p[i] !in b.p
    ensures CellSet(a) != CellSet(b)
  {
    assert a.p[i] in CellSet(a);
  }

  /** A tight box is the smallest box holding the cells: any `w` by `h` box
      that holds every cell is at least as wide and as high. */
  lemma TightIsSmallest(o: PieceInfo, w: nat, h: nat)
    requires TightBox(o)
    requires forall c :: c in o.p ==> c.x < w && c.y < h
    ensures o.width <= w && o.height <= h
  {
    var right :| right in o.p && right.x + 1 == o.width;
    var bottom :| bottom in o.p && bottom.y + 1 == o.height;
  }

  /** Orientations with tight boxes and the same cells have the same box. */
  lemma BoxFromCells(a: PieceInfo, b: PieceInfo)
    requires InBox(a) && InBox(b) && TightBox(a) && TightBox(b)
    requires CellSet(a) == CellSet(b)
    ensures a.width == b.width && a.height == b.height
  {
    forall c | c in a.p ensures c.x < b.width && c.y < b.height {
      assert c in CellSet(b);
    }
    forall c | c in b.p ensures c.x < a.width && c.y < a.height {
      assert c in CellSet(a);
    }
    TightIsSmallest(a, b.width, b.height);
    TightIsSmallest(b, a.width, a.height);
  }

  // ---------------------------------------------------------------------------
  // Five-cell records, checked cell by cell
  //
  // Every orientation record holds exactly five cells. The predicates below
  // spell out, one cell at a time, conditions that the predicates above state
  // with quantifiers, so that a record written out in full is checked by
  // evaluation; each comes with the lemma that it implies the general one.

  /** `Framed`, spelled out: five cells, pairwise different, inside the box,
      touching each of its sides. */
  predicate FramedFive(o: PieceInfo) {
    && |o.p| == 5
    && o.p[0] != o.p[1] && o.p[0] != o.p[2] && o.p[0] != o.p[3] && o.p[0] != o.p[4]
    && o.p[1] != o.p[2] && o.p[1] != o.p[3] && o.p[1] != o.p[4]
    && o.p[2] != o.p[3] && o.p[2] != o.p[4]
    && o.p[3] != o.p[4]
    && o.p[0].x < o.width && o.p[0].y < o.height && o.p[1].x < o.width && o.p[1].y < o.height && o.p[2].x < o.width && o.p[2].y < o.height
    && o.p[3].x < o.width && o.p[3].y < o.height && o.p[4].x < o.width && o.p[4].y < o.height
    && (o.p[0].x == 0 || o.p[1].x == 0 || o.p[2].x == 0 || o.p[3].x == 0 || o.p[4].x == 0)
    && (o.p[0].x + 1 == o.width || o.p[1].x + 1 == o.width || o.p[2].x + 1 == o.width || o.p[3].x + 1 == o.width || o.p[4].x + 1 == o.width)
    && (o.p[0].y == 0 || o.p[1].y == 0 || o.p[2].y == 0 || o.p[3].y == 0 || o.p[4].y == 0)
    && (o.p[0].y + 1 == o.height || o.p[1].y + 1 == o.height || o.p[2].y + 1 == o.height || o.p[3].y + 1 == o.height || o.p[4].y + 1 == o.height)
  }

  lemma FramedFiveSound(o: PieceInfo)
    requires FramedFive(o)
    ensures Framed(o)
  {
    forall i | 0 <= i < |o.p| ensures o.p[i].x < o.width && o.p[i].y < o.height {
      if i == 0 {} else if i == 1 {} else if i == 2 {} else if i == 3 {} else {}
    }
    forall i, j | 0 <= i < j < |o.p| ensures o.p[i] != o.p[j] {
      if i == 0 {} else if i == 1 {} else if i == 2 {} else {}
    }
    assert o.p[0] in o.p && o.p[1] in o.p && o.p[2] in o.p && o.p[3] in o.p && o.p[4] in o.p;
  }

  /** `ImageBy`, spelled out for five cells. */
  predicate ImageFive(a: PieceInfo, s: Symmetry, b: PieceInfo, fwd: seq<nat>, back: seq<nat>)
    requires FramedFive(a)
  {
    && b.width == BoxWidth(s, a.width, a.height)
    && b.height == BoxHeight(s, a.width, a.height)
    && |b.p| == 5 && |fwd| == 5 && |back| == 5
    && fwd[0] < 5 && b.p[fwd[0]] == Move(s, a.p[0], a.width, a.height)
    && fwd[1] < 5 && b.p[fwd[1]] == Move(s, a.p[1], a.width, a.height)
    && fwd[2] < 5 && b.p[fwd[2]] == Move(s, a.p[2], a.width, a.height)
    && fwd[3] < 5 && b.p[fwd[3]] == Move(s, a.p[3], a.width, a.height)
    && fwd[4] < 5 && b.p[fwd[4]] == Move(s, a.p[4], a.width, a.height)
    && back[0] < 5 && fwd[back[0]] == 0
    && back[1] < 5 && fwd[back[1]] == 1
    && back[2] < 5 && fwd[back[2]] == 2
    && back[3] < 5 && fwd[back[3]] == 3
    && back[4] < 5 && fwd[back[4]] == 4
  }

  lemma ImageFiveSound(a: PieceInfo, s: Symmetry, b: PieceInfo, fwd: seq<nat>, back: seq<nat>)
    requires FramedFive(a) && ImageFive(a, s, b, fwd, back)
    ensures InBox(a) && ImageBy(a, s, b, fwd, back)
  {
    FramedFiveSound(a);
    forall i | 0 <= i < |a.p| ensures fwd[i] < |b.p| && b.p[fwd[i]] == Move(s, a.p[i], a.width, a.height) {
      if i == 0 {} else if i == 1 {} else if i == 2 {} else if i == 3 {} else {}
    }
    forall j | 0 <= j < |b.p| ensures back[j] < |a.p| && fwd[back[j]] == j {
      if j == 0 {} else if j == 1 {} else if j == 2 {} else if j == 3 {} else {}
    }
  }

  /** The certificate of `OrderConnected`, spelled out for five cells. */
  predicate ChainFive(o: PieceInfo, order: seq<nat>, parent: seq<nat>, back: seq<nat>) {
    && |o.p| == 5 && |order| == 5 && |parent| == 5 && |back| == 5
    && order[0] < 5 && order[1] < 5 && order[2] < 5 && order[3] < 5 && order[4] < 5
    && back[0] < 5 && order[back[0]] == 0
    && back[1] < 5 && order[back[1]] == 1
    && back[2] < 5 && order[back[2]] == 2
    && back[3] < 5 && order[back[3]] == 3
    && back[4] < 5 && order[back[4]] == 4
    && parent[1] < 1 && Adjacent(o.p[order[parent[1]]], o.p[order[1]])
    && parent[2] < 2 && Adjacent(o.p[order[parent[2]]], o.p[order[2]])
    && parent[3] < 3 && Adjacent(o.p[order[parent[3]]], o.p[order[3]])
    && parent[4] < 4 && Adjacent(o.p[order[parent[4]]], o.p[order[4]])
  }

  lemma ChainFiveConnected(o: PieceInfo, order: seq<nat>, parent: seq<nat>, back: seq<nat>)
    requires ChainFive(o, order, parent, back)
    ensures EdgeConnected(CellSet(o))
  {
    var chain := seq(|order|, k requires 0 <= k < |order| => o.p[order[k]]);
    forall k | 0 <= k < |order| ensures order[k] < |o.p| {
      if k == 0 {} else if k == 1 {} else if k == 2 {} else if k == 3 {} else {}
    }
    forall i | 0 <= i < |o.p| ensures back[i] < |order| && order[back[i]] == i {
      if i == 0 {} else if i == 1 {} else if i == 2 {} else if i == 3 {} else {}
    }
    forall k | 0 < k < |chain| ensures parent[k] < k && Adjacent(chain[parent[k]], chain[k]) {
      if k == 1 {} else if k == 2 {} else if k == 3 {} else {}
    }
    OrderConnected(o, order, parent, back);
  }
}
