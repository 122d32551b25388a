/** The fixed catalog of the twelve pieces: every orientation of every piece,
    written out cell by cell, what the catalog's own comments say about each
    piece, and the properties the catalog is meant to have. */
module Catalog {
  import opened Geometry

  // ---------------------------------------------------------------------------
  // The orientations, piece by piece, in catalog order

  // Piece 0, the X shape: one rotation.
  const PIECE_0_0 := PieceInfo(3, 3, [Coord(1, 0), Coord(0, 1), Coord(1, 1), Coord(2, 1), Coord(1, 2)])

  // Piece 1, the I shape: two rotations.
  const PIECE_1_0 := PieceInfo(5, 1, [Coord(0, 0), Coord(1, 0), Coord(2, 0), Coord(3, 0), Coord(4, 0)])
  const PIECE_1_1 := PieceInfo(1, 5, [Coord(0, 0), Coord(0, 1), Coord(0, 2), Coord(0, 3), Coord(0, 4)])

  // Piece 2, the Z shape: two rotations, same again mirrored.
  const PIECE_2_0 := PieceInfo(3, 3, [Coord(0, 0), Coord(0, 1), Coord(1, 1), Coord(2, 1), Coord(2, 2)])
  const PIECE_2_1 := PieceInfo(3, 3, [Coord(2, 0), Coord(1, 0), Coord(1, 1), Coord(1, 2), Coord(0, 2)])
  const PIECE_2_2 := PieceInfo(3, 3, [Coord(2, 0), Coord(2, 1), Coord(1, 1), Coord(0, 1), Coord(0, 2)])
  const PIECE_2_3 := PieceInfo(3, 3, [Coord(0, 0), Coord(1, 0), Coord(1, 1), Coord(1, 2), Coord(2, 2)])

  // Piece 3, the W shape: four rotations.
  const PIECE_3_0 := PieceInfo(3, 3, [Coord(0, 0), Coord(1, 0), Coord(1, 1), Coord(2, 1), Coord(2, 2)])
  const PIECE_3_1 := PieceInfo(3, 3, [Coord(2, 0), Coord(2, 1), Coord(1, 1), Coord(1, 2), Coord(0, 2)])
  const PIECE_3_2 := PieceInfo(3, 3, [Coord(0, 0), Coord(0, 1), Coord(1, 1), Coord(1, 2), Coord(2, 2)])
  const PIECE_3_3 := PieceInfo(3, 3, [Coord(2, 0), Coord(1, 0), Coord(1, 1), Coord(0, 1), Coord(0, 2)])

  // Piece 4, the U shape: four rotations.
  const PIECE_4_0 := PieceInfo(3, 2, [Coord(0, 1), Coord(0, 0), Coord(1, 0), Coord(2, 0), Coord(2, 1)])
  const PIECE_4_1 := PieceInfo(2, 3, [Coord(0, 0), Coord(1, 0), Coord(1, 1), Coord(1, 2), Coord(0, 2)])
  const PIECE_4_2 := PieceInfo(3, 2, [Coord(0, 0), Coord(0, 1), Coord(1, 1), Coord(2, 1), Coord(2, 0)])
  const PIECE_4_3 := PieceInfo(2, 3, [Coord(1, 0), Coord(0, 0), Coord(0, 1), Coord(0, 2), Coord(1, 2)])

  // Piece 5, the T shape: four rotations.
  const PIECE_5_0 := PieceInfo(3, 3, [Coord(0, 0), Coord(1, 0), Coord(2, 0), Coord(1, 1), Coord(1, 2)])
  const PIECE_5_1 := PieceInfo(3, 3, [Coord(2, 0), Coord(2, 1), Coord(2, 2), Coord(1, 1), Coord(0, 1)])
  const PIECE_5_2 := PieceInfo(3, 3, [Coord(1, 0), Coord(1, 1), Coord(0, 2), Coord(1, 2), Coord(2, 2)])
  const PIECE_5_3 := PieceInfo(3, 3, [Coord(0, 0), Coord(0, 1), Coord(0, 2), Coord(1, 1), Coord(2, 1)])

  // Piece 6, the V shape: four rotations.
  const PIECE_6_0 := PieceInfo(3, 3, [Coord(2, 0), Coord(1, 0), Coord(0, 0), Coord(0, 1), Coord(0, 2)])
  const PIECE_6_1 := PieceInfo(3, 3, [Coord(0, 0), Coord(1, 0), Coord(2, 0), Coord(2, 1), Coord(2, 2)])
  const PIECE_6_2 := PieceInfo(3, 3, [Coord(2, 0), Coord(2, 1), Coord(2, 2), Coord(1, 2), Coord(0, 2)])
  const PIECE_6_3 := PieceInfo(3, 3, [Coord(0, 0), Coord(0, 1), Coord(0, 2), Coord(1, 2), Coord(2, 2)])

  // Piece 7, the L shape: four rotations, same again mirrored.
  const PIECE_7_0 := PieceInfo(4, 2, [Coord(0, 0), Coord(1, 0), Coord(2, 0), Coord(3, 0), Coord(3, 1)])
  const PIECE_7_1 := PieceInfo(2, 4, [Coord(1, 0), Coord(1, 1), Coord(1, 2), Coord(1, 3), Coord(0, 3)])
  const PIECE_7_2 := PieceInfo(4, 2, [Coord(0, 0), Coord(0, 1), Coord(1, 1), Coord(2, 1), Coord(3, 1)])
  const PIECE_7_3 := PieceInfo(2, 4, [Coord(1, 0), Coord(0, 0), Coord(0, 1), Coord(0, 2), Coord(0, 3)])
  const PIECE_7_4 := PieceInfo(4, 2, [Coord(0, 1), Coord(0, 0), Coord(1, 0), Coord(2, 0), Coord(3, 0)])
  const PIECE_7_5 := PieceInfo(2, 4, [Coord(0, 0), Coord(1, 0), Coord(1, 1), Coord(1, 2), Coord(1, 3)])
  const PIECE_7_6 := PieceInfo(4, 2, [Coord(3, 0), Coord(3, 1), Coord(2, 1), Coord(1, 1), Coord(0, 1)])
  const PIECE_7_7 := PieceInfo(2, 4, [Coord(0, 0), Coord(0, 1), Coord(0, 2), Coord(0, 3), Coord(1, 3)])

  // Piece 8, the Y shape: four rotations, same again mirrored.
  const PIECE_8_0 := PieceInfo(4, 2, [Coord(0, 0), Coord(1, 0), Coord(2, 0), Coord(3, 0), Coord(2, 1)])
  const PIECE_8_1 := PieceInfo(2, 4, [Coord(1, 0), Coord(1, 1), Coord(1, 2), Coord(1, 3), Coord(0, 2)])
  const PIECE_8_2 := PieceInfo(4, 2, [Coord(1, 0), Coord(0, 1), Coord(1, 1), Coord(2, 1), Coord(3, 1)])
  const PIECE_8_3 := PieceInfo(2, 4, [Coord(1, 1), Coord(0, 0), Coord(0, 1), Coord(0, 2), Coord(0, 3)])
  const PIECE_8_4 := PieceInfo(4, 2, [Coord(1, 1), Coord(0, 0), Coord(1, 0), Coord(2, 0), Coord(3, 0)])
  const PIECE_8_5 := PieceInfo(2, 4, [Coord(0, 1), Coord(1, 0), Coord(1, 1), Coord(1, 2), Coord(1, 3)])
  const PIECE_8_6 := PieceInfo(4, 2, [Coord(2, 0), Coord(3, 1), Coord(2, 1), Coord(1, 1), Coord(0, 1)])
  const PIECE_8_7 := PieceInfo(2, 4, [Coord(0, 0), Coord(0, 1), Coord(0, 2), Coord(0, 3), Coord(1, 2)])

  // Piece 9, the N shape: four rotations, same again mirrored.
  const PIECE_9_0 := PieceInfo(4, 2, [Coord(0, 0), Coord(1, 0), Coord(2, 0), Coord(2, 1), Coord(3, 1)])
  const PIECE_9_1 := PieceInfo(2, 4, [Coord(1, 0), Coord(1, 1), Coord(1, 2), Coord(0, 2), Coord(0, 3)])
  const PIECE_9_2 := PieceInfo(4, 2, [Coord(0, 0), Coord(1, 0), Coord(1, 1), Coord(2, 1), Coord(3, 1)])
  const PIECE_9_3 := PieceInfo(2, 4, [Coord(1, 0), Coord(1, 1), Coord(0, 1), Coord(0, 2), Coord(0, 3)])
  const PIECE_9_4 := PieceInfo(4, 2, [Coord(0, 1), Coord(1, 1), Coord(1, 0), Coord(2, 0), Coord(3, 0)])
  const PIECE_9_5 := PieceInfo(2, 4, [Coord(0, 0), Coord(0, 1), Coord(1, 1), Coord(1, 2), Coord(1, 3)])
  const PIECE_9_6 := PieceInfo(4, 2, [Coord(3, 0), Coord(2, 0), Coord(2, 1), Coord(1, 1), Coord(0, 1)])
  const PIECE_9_7 := PieceInfo(2, 4, [Coord(0, 0), Coord(0, 1), Coord(0, 2), Coord(1, 2), Coord(1, 3)])

  // Piece 10, the F shape: four rotations, same again mirrored.
  const PIECE_10_0 := PieceInfo(3, 3, [Coord(0, 0), Coord(0, 1), Coord(1, 1), Coord(2, 1), Coord(1, 2)])
  const PIECE_10_1 := PieceInfo(3, 3, [Coord(1, 0), Coord(2, 0), Coord(0, 1), Coord(1, 1), Coord(1, 2)])
  const PIECE_10_2 := PieceInfo(3, 3, [Coord(1, 0), Coord(0, 1), Coord(1, 1), Coord(2, 1), Coord(2, 2)])
  const PIECE_10_3 := PieceInfo(3, 3, [Coord(1, 0), Coord(1, 1), Coord(2, 1), Coord(0, 2), Coord(1, 2)])
  const PIECE_10_4 := PieceInfo(3, 3, [Coord(2, 0), Coord(0, 1), Coord(1, 1), Coord(2, 1), Coord(1, 2)])
  const PIECE_10_5 := PieceInfo(3, 3, [Coord(1, 0), Coord(0, 1), Coord(1, 1), Coord(1, 2), Coord(2, 2)])
  const PIECE_10_6 := PieceInfo(3, 3, [Coord(1, 0), Coord(0, 1), Coord(1, 1), Coord(2, 1), Coord(0, 2)])
  const PIECE_10_7 := PieceInfo(3, 3, [Coord(0, 0), Coord(1, 0), Coord(1, 1), Coord(2, 1), Coord(1, 2)])

  // Piece 11, the P shape: four rotations, same again mirrored.
  const PIECE_11_0 := PieceInfo(3, 2, [Coord(0, 0), Coord(1, 0), Coord(2, 0), Coord(0, 1), Coord(1, 1)])
  const PIECE_11_1 := PieceInfo(2, 3, [Coord(0, 0), Coord(1, 0), Coord(0, 1), Coord(1, 1), Coord(1, 2)])
  const PIECE_11_2 := PieceInfo(3, 2, [Coord(1, 0), Coord(2, 0), Coord(0, 1), Coord(1, 1), Coord(2, 1)])
  const PIECE_11_3 := PieceInfo(2, 3, [Coord(0, 0), Coord(0, 1), Coord(1, 1), Coord(0, 2), Coord(1, 2)])
  const PIECE_11_4 := PieceInfo(3, 2, [Coord(0, 0), Coord(1, 0), Coord(2, 0), Coord(1, 1), Coord(2, 1)])
  const PIECE_11_5 := PieceInfo(2, 3, [Coord(1, 0), Coord(0, 1), Coord(1, 1), Coord(0, 2), Coord(1, 2)])
  const PIECE_11_6 := PieceInfo(3, 2, [Coord(0, 0), Coord(1, 0), Coord(0, 1), Coord(1, 1), Coord(2, 1)])
  const PIECE_11_7 := PieceInfo(2, 3, [Coord(0, 0), Coord(1, 0), Coord(0, 1), Coord(1, 1), Coord(0, 2)])

  const PIECE_0: seq<PieceInfo> := [PIECE_0_0]
  const PIECE_1: seq<PieceInfo> := [PIECE_1_0, PIECE_1_1]
  const PIECE_2: seq<PieceInfo> := [PIECE_2_0, PIECE_2_1, PIECE_2_2, PIECE_2_3]
  const PIECE_3: seq<PieceInfo> := [PIECE_3_0, PIECE_3_1, PIECE_3_2, PIECE_3_3]
  const PIECE_4: seq<PieceInfo> := [PIECE_4_0, PIECE_4_1, PIECE_4_2, PIECE_4_3]
  const PIECE_5: seq<PieceInfo> := [PIECE_5_0, PIECE_5_1, PIECE_5_2, PIECE_5_3]
  const PIECE_6: seq<PieceInfo> := [PIECE_6_0, PIECE_6_1, PIECE_6_2, PIECE_6_3]
  const PIECE_7: seq<PieceInfo> := [PIECE_7_0, PIECE_7_1, PIECE_7_2, PIECE_7_3, PIECE_7_4, PIECE_7_5, PIECE_7_6, PIECE_7_7]
  const PIECE_8: seq<PieceInfo> := [PIECE_8_0, PIECE_8_1, PIECE_8_2, PIECE_8_3, PIECE_8_4, PIECE_8_5, PIECE_8_6, PIECE_8_7]
  const PIECE_9: seq<PieceInfo> := [PIECE_9_0, PIECE_9_1, PIECE_9_2, PIECE_9_3, PIECE_9_4, PIECE_9_5, PIECE_9_6, PIECE_9_7]
  const PIECE_10: seq<PieceInfo> := [PIECE_10_0, PIECE_10_1, PIECE_10_2, PIECE_10_3, PIECE_10_4, PIECE_10_5, PIECE_10_6, PIECE_10_7]
  const PIECE_11: seq<PieceInfo> := [PIECE_11_0, PIECE_11_1, PIECE_11_2, PIECE_11_3, PIECE_11_4, PIECE_11_5, PIECE_11_6, PIECE_11_7]

  /** The whole catalog, in the order the report lists it. */
  const PIECES: seq<seq<PieceInfo>> := [
    PIECE_0, PIECE_1, PIECE_2, PIECE_3, PIECE_4, PIECE_5,
    PIECE_6, PIECE_7, PIECE_8, PIECE_9, PIECE_10, PIECE_11
  ]

  /** What the comment above each piece says: how many rotations it has, and
      whether the same again mirrored follows. */
  const DOC_ROTATIONS: seq<nat> := [1, 2, 2, 4, 4, 4, 4, 4, 4, 4, 4, 4]
  const DOC_MIRRORED: seq<bool> := [false, false, true, false, false, false, false, true, true, true, true, true]

  // ---------------------------------------------------------------------------
  // What the catalog is meant to satisfy

  /** No two orientations of one piece have the same cells. */
  ghost predicate DistinctShapes(orients: seq<PieceInfo>) {
    forall j, k :: 0 <= j < k < |orients| ==> CellSet(orients[j]) != CellSet(orients[k])
  }

  /** Orientation `k` has the shape of the first orientation transformed by `s`. */
  ghost predicate ListedAt(orients: seq<PieceInfo>, s: Symmetry, k: nat)
    requires 0 < |orients| && InBox(orients[0])
  {
    k < |orients| && SameShape(Transform(orients[0], s), orients[k])
  }

  /** Some orientation among `orients[lo..hi]` has the shape of the first
      orientation transformed by `s`. */
  ghost predicate ListedAmong(orients: seq<PieceInfo>, s: Symmetry, lo: nat, hi: nat)
    requires 0 < |orients| && InBox(orients[0])
  {
    exists k :: lo <= k < hi && ListedAt(orients, s, k)
  }

  /** The orientation list is what "`rotations` rotations", followed by "same
      again mirrored" when `mirrored`, describes: entry `k` is the first entry
      turned clockwise `k` times, then (when mirrored) its mirror image turned
      clockwise `k - rotations` times; every rotation of the first entry is
      among the first `rotations` entries; and every mirror image is among the
      mirrored entries or, for a piece listed without them, among the
      rotations. */
  ghost predicate Documented(orients: seq<PieceInfo>, rotations: nat, mirrored: bool) {
    && 0 < rotations <= 4
    && |orients| == (if mirrored then 2 * rotations else rotations)
    && InBox(orients[0])
    && (forall k :: 0 <= k < |orients| ==> ListedAt(orients, Symmetry(k % rotations, k >= rotations), k))
    && (forall s: Symmetry :: ListedAmong(orients, s, ListFrom(s, rotations, mirrored), ListTo(s, rotations, mirrored)))
  }

  /** Everything the catalog promises about one piece. */
  ghost predicate ValidPiece(orients: seq<PieceInfo>, rotations: nat, mirrored: bool) {
    && Documented(orients, rotations, mirrored)
    && (forall k :: 0 <= k < |orients| ==> WellFormed(orients[k]))
    && DistinctShapes(orients)
  }

  /** Orientations with different boxes differ; those with the same box must be
      told apart cell by cell. */
  lemma DistinctByBox(orients: seq<PieceInfo>)
    requires forall k :: 0 <= k < |orients| ==> InBox(orients[k]) && TightBox(orients[k])
    requires forall j, k :: 0 <= j < k < |orients| && SameBox(orients[j], orients[k]) ==> CellSet(orients[j]) != CellSet(orients[k])
    ensures DistinctShapes(orients)
  {
    forall j, k | 0 <= j < k < |orients| ensures CellSet(orients[j]) != CellSet(orients[k]) {
      if CellSet(orients[j]) == CellSet(orients[k]) {
        BoxFromCells(orients[j], orients[k]);
      }
    }
  }

  /** Where a valid piece lists the shape of its first orientation under `s`. */
  lemma Slot(orients: seq<PieceInfo>, rotations: nat, mirrored: bool, s: Symmetry) returns (k: nat)
    requires Documented(orients, rotations, mirrored)
    ensures ListFrom(s, rotations, mirrored) <= k < ListTo(s, rotations, mirrored)
    ensures ListedAt(orients, s, k)
  {
    assert ListedAmong(orients, s, ListFrom(s, rotations, mirrored), ListTo(s, rotations, mirrored));
    k :| ListFrom(s, rotations, mirrored) <= k < ListTo(s, rotations, mirrored) && ListedAt(orients, s, k);
  }

  /** No shape of a valid piece is listed twice. */
  lemma SlotUnique(orients: seq<PieceInfo>, rotations: nat, mirrored: bool, s: Symmetry, j: nat, k: nat)
    requires ValidPiece(orients, rotations, mirrored)
    requires ListedAt(orients, s, j) && ListedAt(orients, s, k)
    ensures j == k
  {
    assert CellSet(orients[j]) == CellSet(orients[k]);
  }

  /** In a valid piece every one of the eight symmetries takes the first
      orientation to exactly one listed orientation. */
  lemma ListedOnce(orients: seq<PieceInfo>, rotations: nat, mirrored: bool)
    requires ValidPiece(orients, rotations, mirrored)
    ensures forall s: Symmetry :: ListedAmong(orients, s, 0, |orients|)
    ensures forall s: Symmetry, j, k :: ListedAt(orients, s, j) && ListedAt(orients, s, k) ==> j == k
  {
    forall s: Symmetry ensures ListedAmong(orients, s, 0, |orients|) {
      var k := Slot(orients, rotations, mirrored, s);
    }
    forall s: Symmetry, j: nat, k: nat | ListedAt(orients, s, j) && ListedAt(orients, s, k) ensures j == k {
      SlotUnique(orients, rotations, mirrored, s, j, k);
    }
  }

  /** A piece listed with mirrored entries is chiral: no turn of its mirror
      image gives a turn of the piece itself. */
  lemma MirroredIsChiral(orients: seq<PieceInfo>, rotations: nat)
    requires ValidPiece(orients, rotations, true)
    ensures forall s: Symmetry, t: Symmetry :: !s.mirrored && t.mirrored ==>
              CellSet(Transform(orients[0], s)) != CellSet(Transform(orients[0], t))
  {
    forall s: Symmetry, t: Symmetry | !s.mirrored && t.mirrored
      ensures CellSet(Transform(orients[0], s)) != CellSet(Transform(orients[0], t))
    {
      var j := Slot(orients, rotations, true, s);
      var k := Slot(orients, rotations, true, t);
      assert CellSet(orients[j]) != CellSet(orients[k]);
    }
  }

  /** The turn of a piece listed without mirrored entries that gives the
      shape of its first orientation under `t`. */
  lemma TurnFor(orients: seq<PieceInfo>, rotations: nat, t: Symmetry) returns (q: Quarter)
    requires ValidPiece(orients, rotations, false)
    ensures SameShape(Transform(orients[0], t), Transform(orients[0], Symmetry(q, false)))
  {
    var k := Slot(orients, rotations, false, t);
    q := k % rotations;
    assert ListedAt(orients, Symmetry(q, k >= rotations), k);
  }

  /** Transforming `o` by `s` gives the same shape as one of its turns. */
  ghost predicate AmongTurns(o: PieceInfo, s: Symmetry)
    requires InBox(o)
  {
    exists q: Quarter :: SameShape(Transform(o, s), Transform(o, Symmetry(q, false)))
  }

  /** A piece listed without mirrored entries is its own mirror image up to
      rotation: every mirror image is one of its turns. */
  lemma UnmirroredIsSymmetric(orients: seq<PieceInfo>, rotations: nat)
    requires ValidPiece(orients, rotations, false)
    ensures forall t: Symmetry :: AmongTurns(orients[0], t)
  {
    forall t: Symmetry ensures AmongTurns(orients[0], t) {
      var q := TurnFor(orients, rotations, t);
      assert SameShape(Transform(orients[0], t), Transform(orients[0], Symmetry(q, false)));
    }
  }

  // ---------------------------------------------------------------------------
  // Certificates: a piece checked by evaluation

  /** Position of a symmetry in `SYMMETRIES`. */
  function SymmetryIndex(s: Symmetry): (q: nat)
    ensures q < |SYMMETRIES| && SYMMETRIES[q] == s
  {
    s.turns + (if s.mirrored then 4 else 0)
  }

  /** Where the orientations of the shape of the first one under `s` are to be
      listed: among the mirrored entries when `s` mirrors and the piece has
      them, and among the rotations otherwise. */
  function ListFrom(s: Symmetry, rotations: nat, mirrored: bool): nat {
    if s.mirrored && mirrored then rotations else 0
  }

  function ListTo(s: Symmetry, rotations: nat, mirrored: bool): nat {
    if s.mirrored && mirrored then 2 * rotations else rotations
  }

  /** The facts about a piece that a search would have to find, written down
      so that they can be checked instead:
      - `order`, `parent` and `visit`: a spanning chain through the cells of
        the first orientation, as in `ChainFive`;
      - `slot[q]`: the orientation that has the shape of the first one under
        `SYMMETRIES[q]`, with `fwd[q]` and `back[q]` the index maps between
        the two, as in `ImageFive`;
      - `differ[j][k]`: for two orientations with the same box, a cell of the
        `j`-th that the `k`-th lacks. */
  datatype Certificate = Certificate(
    order: seq<nat>, parent: seq<nat>, visit: seq<nat>,
    slot: seq<nat>, fwd: seq<seq<nat>>, back: seq<seq<nat>>,
    differ: seq<seq<nat>>)

  /** `c` is none of the five cells of `p`. */
  predicate NotAmongFive(c: Coord, p: seq<Coord>)
    requires |p| == 5
  {
    c != p[0] && c != p[1] && c != p[2] && c != p[3] && c != p[4]
  }

  predicate SameBox(a: PieceInfo, b: PieceInfo) {
    a.width == b.width && a.height == b.height
  }

  /** Cell `i` of `a` is not a cell of the five-cell record `b`. */
  predicate TellApart(a: PieceInfo, b: PieceInfo, i: nat) {
    i < |a.p| && |b.p| == 5 && NotAmongFive(a.p[i], b.p)
  }

  lemma TellApartSound(a: PieceInfo, b: PieceInfo, i: nat)
    requires TellApart(a, b, i)
    ensures CellSet(a) != CellSet(b)
  {
    forall m | 0 <= m < |b.p| ensures b.p[m] != a.p[i] {
      if m == 0 {} else if m == 1 {} else if m == 2 {} else if m == 3 {} else {}
    }
    DifferAt(a, b, i);
  }

  predicate AllFramed(orients: seq<PieceInfo>) {
    forall k :: 0 <= k < |orients| ==> FramedFive(orients[k])
  }

  /** The sizes the certificate promises, and where it says each image of the
      first orientation is listed. */
  predicate SlotsChecked(orients: seq<PieceInfo>, rotations: nat, mirrored: bool, cert: Certificate) {
    && 0 < rotations <= 4
    && |orients| == (if mirrored then 2 * rotations else rotations)
    && |cert.slot| == |SYMMETRIES| && |cert.fwd| == |SYMMETRIES| && |cert.back| == |SYMMETRIES|
    && (forall q :: 0 <= q < |SYMMETRIES| ==>
          ListFrom(SYMMETRIES[q], rotations, mirrored) <= cert.slot[q] < ListTo(SYMMETRIES[q], rotations, mirrored))
    && (forall k :: 0 <= k < |orients| ==> cert.slot[SymmetryIndex(Symmetry(k % rotations, k >= rotations))] == k)
  }

  /** The image of the first orientation under `SYMMETRIES[q]` is certified. */
  predicate ImageChecked(orients: seq<PieceInfo>, cert: Certificate, q: nat) {
    && 0 < |orients| && FramedFive(orients[0])
    && q < |SYMMETRIES| && q < |cert.slot| && q < |cert.fwd| && q < |cert.back|
    && cert.slot[q] < |orients|
    && ImageFive(orients[0], SYMMETRIES[q], orients[cert.slot[q]], cert.fwd[q], cert.back[q])
  }

  /** Orientation `j` is told apart by a cell from each later orientation
      with the same box. */
  predicate DifferRow(orients: seq<PieceInfo>, cert: Certificate, j: nat) {
    && j < |orients| && j < |cert.differ| && |cert.differ[j]| == |orients|
    && (forall k :: j < k < |orients| && SameBox(orients[j], orients[k]) ==>
          TellApart(orients[j], orients[k], cert.differ[j][k]))
  }

  /** Any two orientations with the same box are told apart by a cell. */
  predicate DifferChecked(orients: seq<PieceInfo>, cert: Certificate) {
    forall j :: 0 <= j < |orients| ==> DifferRow(orients, cert, j)
  }

  /** `cert` certifies that `orients` is a valid piece listed with `rotations`
      rotations, followed by the same again mirrored when `mirrored`. */
  predicate Checked(orients: seq<PieceInfo>, rotations: nat, mirrored: bool, cert: Certificate) {
    && SlotsChecked(orients, rotations, mirrored, cert)
    && AllFramed(orients)
    && ChainFive(orients[0], cert.order, cert.parent, cert.visit)
    && (forall q :: 0 <= q < |SYMMETRIES| ==> ImageChecked(orients, cert, q))
    && DifferChecked(orients, cert)
  }

  /** What a certificate gives for each symmetry `SYMMETRIES[q]`. */
  lemma CheckedImage(orients: seq<PieceInfo>, rotations: nat, mirrored: bool, cert: Certificate, q: nat)
    requires Checked(orients, rotations, mirrored, cert) && q < |SYMMETRIES|
    ensures InBox(orients[0])
    ensures ListedAt(orients, SYMMETRIES[q], cert.slot[q])
    ensures ListFrom(SYMMETRIES[q], rotations, mirrored) <= cert.slot[q] < ListTo(SYMMETRIES[q], rotations, mirrored)
  {
    assert ImageChecked(orients, cert, q);
    ImageFiveSound(orients[0], SYMMETRIES[q], orients[cert.slot[q]], cert.fwd[q], cert.back[q]);
    ImageBySameShape(orients[0], SYMMETRIES[q], orients[cert.slot[q]], cert.fwd[q], cert.back[q]);
  }

  lemma CheckedDocumented(orients: seq<PieceInfo>, rotations: nat, mirrored: bool, cert: Certificate)
    requires Checked(orients, rotations, mirrored, cert)
    ensures Documented(orients, rotations, mirrored)
  {
    CheckedImage(orients, rotations, mirrored, cert, 0);
    forall k | 0 <= k < |orients|
      ensures ListedAt(orients, Symmetry(k % rotations, k >= rotations), k)
    {
      CheckedImage(orients, rotations, mirrored, cert, SymmetryIndex(Symmetry(k % rotations, k >= rotations)));
    }
    forall s: Symmetry
      ensures ListedAmong(orients, s, ListFrom(s, rotations, mirrored), ListTo(s, rotations, mirrored))
    {
      CheckedImage(orients, rotations, mirrored, cert, SymmetryIndex(s));
    }
  }

  lemma CheckedWellFormed(orients: seq<PieceInfo>, rotations: nat, mirrored: bool, cert: Certificate)
    requires Checked(orients, rotations, mirrored, cert)
    ensures forall k :: 0 <= k < |orients| ==> WellFormed(orients[k])
  {
    ChainFiveConnected(orients[0], cert.order, cert.parent, cert.visit);
    forall k | 0 <= k < |orients| ensures WellFormed(orients[k]) {
      FramedFiveSound(orients[k]);
      var s := Symmetry(k % rotations, k >= rotations);
      var q := SymmetryIndex(s);
      CheckedImage(orients, rotations, mirrored, cert, q);
      assert ImageChecked(orients, cert, q);
      ImageFiveSound(orients[0], s, orients[k], cert.fwd[q], cert.back[q]);
      ImageConnected(orients[0], s, orients[k], cert.fwd[q], cert.back[q]);
    }
  }

  lemma CheckedDistinct(orients: seq<PieceInfo>, cert: Certificate)
    requires AllFramed(orients) && DifferChecked(orients, cert)
    ensures DistinctShapes(orients)
  {
    forall k | 0 <= k < |orients| ensures InBox(orients[k]) && TightBox(orients[k]) {
      FramedFiveSound(orients[k]);
    }
    forall j, k | 0 <= j < k < |orients| && SameBox(orients[j], orients[k])
      ensures CellSet(orients[j]) != CellSet(orients[k])
    {
      assert DifferRow(orients, cert, j);
      TellApartSound(orients[j], orients[k], cert.differ[j][k]);
    }
    DistinctByBox(orients);
  }

  /** A checked certificate shows that the piece is valid. */
  lemma CheckedValid(orients: seq<PieceInfo>, rotations: nat, mirrored: bool, cert: Certificate)
    requires Checked(orients, rotations, mirrored, cert)
    ensures ValidPiece(orients, rotations, mirrored)
  {
    CheckedDocumented(orients, rotations, mirrored, cert);
    CheckedWellFormed(orients, rotations, mirrored, cert);
    CheckedDistinct(orients, cert);
  }

}
