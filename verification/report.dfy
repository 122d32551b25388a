/** The program's output: every orientation of every piece drawn as its rows
    of text followed by a blank line, and every piece closed by a line of
    dashes. Each printed line ends with a newline, so the output is the
    sequence of lines below, each followed by `\n`. */
module Report {
  import opened Geometry
  import opened Render

  /** The line printed after the last orientation of each piece. */
  const DELIMITER: string := "------------------------------"

  // ---------------------------------------------------------------------------
  // Blocks of lines, each closed by a separator line, and reading them back

  /** `blocks` written one after the other, each followed by the line `sep`. */
  function Terminated(blocks: seq<seq<string>>, sep: string): (r: seq<string>)
    ensures blocks != [] ==> |r| > 0 && r[|r| - 1] == sep
  {
    if blocks == [] then [] else blocks[0] + [sep] + Terminated(blocks[1..], sep)
  }

  /** Closing one more block adds its lines and a separator at the end. */
  lemma {:induction false} TerminatedAppend(blocks: seq<seq<string>>, block: seq<string>, sep: string)
    ensures Terminated(blocks + [block], sep) == Terminated(blocks, sep) + block + [sep]
    decreases |blocks|
  {
    if blocks == [] {
      assert Terminated([block], sep) == block + [sep] + Terminated([], sep);
    } else {
      assert (blocks + [block])[1..] == blocks[1..] + [block];
      TerminatedAppend(blocks[1..], block, sep);
    }
  }

  /** The position of the first line equal to `sep`. */
  function FirstIndex(lines: seq<string>, sep: string): (i: nat)
    requires sep in lines
    ensures i < |lines| && lines[i] == sep && sep !in lines[..i]
  {
    if lines[0] == sep then 0 else 1 + FirstIndex(lines[1..], sep)
  }

  /** The first separator after a stretch of lines without one closes that
      stretch. */
  lemma {:induction false} FirstIndexAfter(prefix: seq<string>, sep: string, rest: seq<string>)
    requires sep !in prefix
    ensures FirstIndex(prefix + [sep] + rest, sep) == |prefix|
    decreases |prefix|
  {
    if prefix != [] {
      assert (prefix + [sep] + rest)[1..] == prefix[1..] + [sep] + rest;
      FirstIndexAfter(prefix[1..], sep, rest);
    }
  }

  /** Cuts `lines` at every line equal to `sep`, dropping the separators; lines
      after the last separator form a final block. */
  function Split(lines: seq<string>, sep: string): seq<seq<string>>
    decreases |lines|
  {
    if lines == [] then []
    else if sep !in lines then [lines]
    else
      var i := FirstIndex(lines, sep);
      [lines[..i]] + Split(lines[i + 1..], sep)
  }

  /** Splitting undoes closing the blocks, as long as no block holds a line
      equal to the separator. */
  lemma {:induction false} SplitTerminated(blocks: seq<seq<string>>, sep: string)
    requires forall b :: b in blocks ==> sep !in b
    ensures Split(Terminated(blocks, sep), sep) == blocks
    decreases |blocks|
  {
    if blocks != [] {
      var lines := Terminated(blocks, sep);
      var rest := Terminated(blocks[1..], sep);
      assert lines == blocks[0] + [sep] + rest;
      assert blocks[0] in blocks;
      FirstIndexAfter(blocks[0], sep, rest);
      assert lines[..|blocks[0]|] == blocks[0];
      assert lines[|blocks[0]| + 1..] == rest;
      SplitTerminated(blocks[1..], sep);
    }
  }

  /** How many lines equal to `t` the blocks hold altogether. */
  function CountIn(blocks: seq<seq<string>>, t: string): nat {
    if blocks == [] then 0 else multiset(blocks[0])[t] + CountIn(blocks[1..], t)
  }

  /** Closed blocks hold the lines of the blocks, plus one separator per
      block. */
  lemma {:induction false} CountTerminated(blocks: seq<seq<string>>, sep: string, t: string)
    ensures multiset(Terminated(blocks, sep))[t] == CountIn(blocks, t) + (if t == sep then |blocks| else 0)
    decreases |blocks|
  {
    if blocks != [] {
      assert Terminated(blocks, sep) == blocks[0] + [sep] + Terminated(blocks[1..], sep);
      CountTerminated(blocks[1..], sep, t);
    }
  }

  /** Blocks none of which holds `t` hold no line `t`. */
  lemma {:induction false} CountInNone(blocks: seq<seq<string>>, t: string)
    requires forall b :: b in blocks ==> t !in b
    ensures CountIn(blocks, t) == 0
    decreases |blocks|
  {
    if blocks != [] {
      assert blocks[0] in blocks;
      CountInNone(blocks[1..], t);
    }
  }

  // ---------------------------------------------------------------------------
  // The report

  /** Every orientation of every piece fits its box, as the program needs to
      write its cells into the grid. */
  predicate AllInBox(pieces: seq<seq<PieceInfo>>) {
    forall i, k :: 0 <= i < |pieces| && 0 <= k < |pieces[i]| ==> InBox(pieces[i][k])
  }

  /** The drawings of the orientations of one piece, in order. */
  function PiecePictures(orients: seq<PieceInfo>): (r: seq<seq<string>>)
    requires forall k :: 0 <= k < |orients| ==> InBox(orients[k])
    ensures |r| == |orients|
  {
    seq(|orients|, k requires 0 <= k < |orients| => Picture(orients[k]))
  }

  /** The drawings of every orientation, piece by piece. */
  function Pictures(pieces: seq<seq<PieceInfo>>): (r: seq<seq<seq<string>>>)
    requires AllInBox(pieces)
    ensures |r| == |pieces|
    ensures forall i :: 0 <= i < |pieces| ==> |r[i]| == |pieces[i]|
  {
    seq(|pieces|, i requires 0 <= i < |pieces| => PiecePictures(pieces[i]))
  }

  /** The lines printed for one piece: each orientation's drawing followed by
      a blank line. */
  function PieceLines(orients: seq<PieceInfo>): (r: seq<string>)
    requires forall k :: 0 <= k < |orients| ==> InBox(orients[k])
    ensures orients != [] ==> |Picture(orients[0])| < |r| && r[..|Picture(orients[0])|] == Picture(orients[0])
    ensures orients != [] ==> r[|r| - 1] == ""
  {
    Terminated(PiecePictures(orients), "")
  }

  /** The lines printed for each piece, in order. */
  function PieceBlocks(pieces: seq<seq<PieceInfo>>): (r: seq<seq<string>>)
    requires AllInBox(pieces)
    ensures |r| == |pieces|
  {
    seq(|pieces|, i requires 0 <= i < |pieces| => PieceLines(pieces[i]))
  }

  /** The lines printed for a list of pieces: each piece's lines followed by
      the delimiter. */
  function ReportLines(pieces: seq<seq<PieceInfo>>): (r: seq<string>)
    requires AllInBox(pieces)
    ensures pieces != [] ==> |PieceLines(pieces[0])| < |r| && r[..|PieceLines(pieces[0])|] == PieceLines(pieces[0])
    ensures pieces != [] ==> r[|r| - 1] == DELIMITER
  {
    Terminated(PieceBlocks(pieces), DELIMITER)
  }

  /** Prints one piece: for each orientation, the rows of its grid and then a
      blank line. */
  method PrintPiece(orients: seq<PieceInfo>) returns (lines: seq<string>)
    requires forall k :: 0 <= k < |orients| ==> InBox(orients[k])
    ensures lines == PieceLines(orients)
  {
    ghost var pictures := PiecePictures(orients);
    lines := [];
    var j := 0;
    while j < |orients|
      invariant 0 <= j <= |orients|
      invariant lines == Terminated(pictures[..j], "")
    {
      var rows := RenderRows(orients[j]);
      TerminatedAppend(pictures[..j], rows, "");
      assert pictures[..j + 1] == pictures[..j] + [rows];
      lines := lines + rows + [""];
      j := j + 1;
    }
    assert pictures[..j] == pictures;
  }

  /** Prints the report: each piece's lines, then the delimiter. */
  method Run(pieces: seq<seq<PieceInfo>>) returns (lines: seq<string>)
    requires AllInBox(pieces)
    ensures lines == ReportLines(pieces)
  {
    ghost var blocks := PieceBlocks(pieces);
    lines := [];
    var i := 0;
    while i < |pieces|
      invariant 0 <= i <= |pieces|
      invariant lines == Terminated(blocks[..i], DELIMITER)
    {
      var pieceLines := PrintPiece(pieces[i]);
      TerminatedAppend(blocks[..i], pieceLines, DELIMITER);
      assert blocks[..i + 1] == blocks[..i] + [pieceLines];
      lines := lines + pieceLines + [DELIMITER];
      i := i + 1;
    }
    assert blocks[..i] == blocks;
  }

  // ---------------------------------------------------------------------------
  // Reading the report back

  /** Reads a report: cut at the delimiters into pieces, and each piece at the
      blank lines into drawings. */
  function ReadReport(lines: seq<string>): seq<seq<seq<string>>> {
    var blocks := Split(lines, DELIMITER);
    seq(|blocks|, i requires 0 <= i < |blocks| => Split(blocks[i], ""))
  }

  /** Every orientation has at least one column. */
  predicate AllWide(pieces: seq<seq<PieceInfo>>) {
    forall i, k :: 0 <= i < |pieces| && 0 <= k < |pieces[i]| ==> pieces[i][k].width > 0
  }

  /** A drawing row holds only `#` and blanks, so it is never the delimiter;
      with at least one column it is never blank either. */
  lemma RowsAreNotSeparators(o: PieceInfo)
    requires InBox(o)
    ensures DELIMITER !in Picture(o)
    ensures o.width > 0 ==> "" !in Picture(o)
  {
    forall y | 0 <= y < |Picture(o)| ensures Picture(o)[y] != DELIMITER {
      if |Picture(o)[y]| == |DELIMITER| {
        assert Picture(o)[y][0] != DELIMITER[0];
      }
    }
  }

  /** No piece's lines include the delimiter. */
  lemma NoDelimiterInPiece(pictures: seq<seq<string>>)
    requires forall k :: 0 <= k < |pictures| ==> DELIMITER !in pictures[k]
    ensures DELIMITER !in Terminated(pictures, "")
    decreases |pictures|
  {
    if pictures != [] {
      NoDelimiterInPiece(pictures[1..]);
    }
  }

  /** Reading the report back gives every drawing, piece by piece and in
      order: the report loses nothing, provided no orientation is zero
      columns wide. */
  lemma ReadReportBack(pieces: seq<seq<PieceInfo>>)
    requires AllInBox(pieces) && AllWide(pieces)
    ensures ReadReport(ReportLines(pieces)) == Pictures(pieces)
  {
    var pictures := Pictures(pieces);
    var blocks := PieceBlocks(pieces);
    forall i | 0 <= i < |pieces| ensures DELIMITER !in blocks[i] && Split(blocks[i], "") == pictures[i] {
      forall k | 0 <= k < |pieces[i]| ensures DELIMITER !in pictures[i][k] && "" !in pictures[i][k] {
        RowsAreNotSeparators(pieces[i][k]);
      }
      NoDelimiterInPiece(pictures[i]);
      SplitTerminated(pictures[i], "");
    }
    SplitTerminated(blocks, DELIMITER);
  }

  /** The number of orientations of all the pieces together. */
  function OrientationTotal(pieces: seq<seq<PieceInfo>>): nat {
    if pieces == [] then 0 else |pieces[0]| + OrientationTotal(pieces[1..])
  }

  /** The report holds one delimiter line per piece. */
  lemma DelimiterLines(pieces: seq<seq<PieceInfo>>)
    requires AllInBox(pieces)
    ensures multiset(ReportLines(pieces))[DELIMITER] == |pieces|
  {
    var blocks := PieceBlocks(pieces);
    forall b | b in blocks ensures DELIMITER !in b {
      var i :| 0 <= i < |blocks| && blocks[i] == b;
      forall k | 0 <= k < |pieces[i]| ensures DELIMITER !in PiecePictures(pieces[i])[k] {
        RowsAreNotSeparators(pieces[i][k]);
      }
      NoDelimiterInPiece(PiecePictures(pieces[i]));
    }
    CountInNone(blocks, DELIMITER);
    CountTerminated(blocks, DELIMITER, DELIMITER);
  }

  /** One piece's lines hold one blank line per orientation, when no
      orientation is zero columns wide. */
  lemma PieceBlankLines(orients: seq<PieceInfo>)
    requires forall k :: 0 <= k < |orients| ==> InBox(orients[k]) && orients[k].width > 0
    ensures multiset(PieceLines(orients))[""] == |orients|
  {
    var pictures := PiecePictures(orients);
    forall b | b in pictures ensures "" !in b {
      var k :| 0 <= k < |pictures| && pictures[k] == b;
      RowsAreNotSeparators(orients[k]);
    }
    CountInNone(pictures, "");
    CountTerminated(pictures, "", "");
  }

  /** The blank lines of the pieces' blocks, one per orientation. */
  lemma {:induction false} BlankLinesIn(pieces: seq<seq<PieceInfo>>)
    requires AllInBox(pieces) && AllWide(pieces)
    ensures CountIn(PieceBlocks(pieces), "") == OrientationTotal(pieces)
    decreases |pieces|
  {
    if pieces != [] {
      assert PieceBlocks(pieces)[1..] == PieceBlocks(pieces[1..]);
      PieceBlankLines(pieces[0]);
      BlankLinesIn(pieces[1..]);
    }
  }

  /** The report holds one blank line per orientation, when no orientation is
      zero columns wide: the delimiter is never blank. */
  lemma BlankLines(pieces: seq<seq<PieceInfo>>)
    requires AllInBox(pieces) && AllWide(pieces)
    ensures multiset(ReportLines(pieces))[""] == OrientationTotal(pieces)
  {
    BlankLinesIn(pieces);
    CountTerminated(PieceBlocks(pieces), DELIMITER, "");
  }

  /** Read back, the report shows exactly the cells of every orientation. */
  lemma ReportShowsCells(pieces: seq<seq<PieceInfo>>)
    requires AllInBox(pieces) && AllWide(pieces)
    ensures |ReadReport(ReportLines(pieces))| == |pieces|
    ensures forall i, k :: 0 <= i < |pieces| && 0 <= k < |pieces[i]| ==>
              k < |ReadReport(ReportLines(pieces))[i]| &&
              CellsDrawn(ReadReport(ReportLines(pieces))[i][k]) == CellSet(pieces[i][k])
  {
    ReadReportBack(pieces);
    forall i, k | 0 <= i < |pieces| && 0 <= k < |pieces[i]|
      ensures CellsDrawn(Pictures(pieces)[i][k]) == CellSet(pieces[i][k])
    {
      PictureShowsCells(pieces[i][k]);
    }
  }
}
