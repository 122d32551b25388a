/** The program's run over the catalog: every orientation can be drawn, and
    the printed report can be read back piece by piece into the drawings of
    the orientations the comments promise. */
module CatalogReport {
  import opened Geometry
  import opened Catalog
  import opened CatalogProofs
  import opened Render
  import opened Report

  /** A well-formed orientation fits its box and is at least one column wide. */
  lemma WellFormedIsPrintable(o: PieceInfo)
    requires WellFormed(o)
    ensures InBox(o) && o.width > 0
  {
    var c :| c in o.p && c.x + 1 == o.width;
  }

  /** Every orientation of the catalog can be written into its grid, and none
      is zero columns wide. */
  lemma CatalogPrintable()
    ensures AllInBox(PIECES) && AllWide(PIECES)
  {
    CatalogValid();
    forall i, k | 0 <= i < |PIECES| && 0 <= k < |PIECES[i]|
      ensures InBox(PIECES[i][k]) && PIECES[i][k].width > 0
    {
      WellFormedIsPrintable(PIECES[i][k]);
    }
  }

  /** Reading back what the program prints gives twelve pieces, each with as
      many drawings as its comment announces (the rotations, twice over when
      mirrored), each drawing showing exactly the cells of its orientation. */
  lemma CatalogReportReadsBack()
    ensures AllInBox(PIECES)
    ensures ReadReport(ReportLines(PIECES)) == Pictures(PIECES)
    ensures |ReadReport(ReportLines(PIECES))| == 12
    ensures forall i :: 0 <= i < 12 ==>
              |ReadReport(ReportLines(PIECES))[i]| == (if DOC_MIRRORED[i] then 2 * DOC_ROTATIONS[i] else DOC_ROTATIONS[i])
    ensures forall i, k :: 0 <= i < 12 && 0 <= k < |PIECES[i]| ==>
              CellsDrawn(ReadReport(ReportLines(PIECES))[i][k]) == CellSet(PIECES[i][k])
  {
    CatalogValid();
    CatalogPrintable();
    ReadReportBack(PIECES);
    ReportShowsCells(PIECES);
    forall i | 0 <= i < 12
      ensures |PIECES[i]| == (if DOC_MIRRORED[i] then 2 * DOC_ROTATIONS[i] else DOC_ROTATIONS[i])
    {
      assert Documented(PIECES[i], DOC_ROTATIONS[i], DOC_MIRRORED[i]);
    }
  }

  /** The catalog has 63 orientations: 1 + 2 + 2 * 2 + 4 * 4 + 8 * 5. */
  lemma CatalogOrientationTotal()
    ensures OrientationTotal(PIECES) == 63
  {
    CatalogEntries();
    assert OrientationTotal(PIECES[11..]) == 8;
    assert OrientationTotal(PIECES[10..]) == 16;
    assert OrientationTotal(PIECES[9..]) == 24;
    assert OrientationTotal(PIECES[8..]) == 32;
    assert OrientationTotal(PIECES[7..]) == 40;
    assert OrientationTotal(PIECES[6..]) == 44;
    assert OrientationTotal(PIECES[5..]) == 48;
    assert OrientationTotal(PIECES[4..]) == 52;
    assert OrientationTotal(PIECES[3..]) == 56;
    assert OrientationTotal(PIECES[2..]) == 60;
    assert OrientationTotal(PIECES[1..]) == 62;
    assert OrientationTotal(PIECES[0..]) == 63;
    assert PIECES[0..] == PIECES;
  }

  /** The program's output over the catalog holds 12 delimiter lines, one per
      piece, and 63 blank lines, one per orientation. */
  lemma CatalogLineCounts()
    ensures AllInBox(PIECES)
    ensures multiset(ReportLines(PIECES))[DELIMITER] == 12
    ensures multiset(ReportLines(PIECES))[""] == 63
  {
    CatalogValid();
    CatalogPrintable();
    DelimiterLines(PIECES);
    BlankLines(PIECES);
    CatalogOrientationTotal();
  }
}
