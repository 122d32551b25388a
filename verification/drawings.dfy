/** The drawings in the comments of the catalog, checked against the cell
    lists. Each comment draws a piece's first orientation with `#` for a cell
    and a blank for an empty square, leaving out the blanks at the end of a
    row; the pictures below are written out to the full width of the box. */
module Drawings {
  import opened Geometry
  import opened Catalog
  import opened Render
  import opened CatalogProofs

  /** Piece 0 is drawn as its comment shows. */
  lemma Piece0Drawing()
    ensures Picture(PIECE_0_0) == [" # ", "###", " # "]
  {
    assert Mark(PIECE_0_0, 0, 0) == ' ';
    assert Mark(PIECE_0_0, 1, 0) == '#';
    assert Mark(PIECE_0_0, 2, 0) == ' ';
    assert Picture(PIECE_0_0)[0] == " # ";
    assert Mark(PIECE_0_0, 0, 1) == '#';
    assert Mark(PIECE_0_0, 1, 1) == '#';
    assert Mark(PIECE_0_0, 2, 1) == '#';
    assert Picture(PIECE_0_0)[1] == "###";
    assert Mark(PIECE_0_0, 0, 2) == ' ';
    assert Mark(PIECE_0_0, 1, 2) == '#';
    assert Mark(PIECE_0_0, 2, 2) == ' ';
    assert Picture(PIECE_0_0)[2] == " # ";
  }

  /** Piece 1 is drawn as its comment shows. */
  lemma Piece1Drawing()
    ensures Picture(PIECE_1_0) == ["#####"]
  {
    assert Mark(PIECE_1_0, 0, 0) == '#';
    assert Mark(PIECE_1_0, 1, 0) == '#';
    assert Mark(PIECE_1_0, 2, 0) == '#';
    assert Mark(PIECE_1_0, 3, 0) == '#';
    assert Mark(PIECE_1_0, 4, 0) == '#';
    assert Picture(PIECE_1_0)[0] == "#####";
  }

  /** Piece 2 is drawn as its comment shows. */
  lemma Piece2Drawing()
    ensures Picture(PIECE_2_0) == ["#  ", "###", "  #"]
  {
    assert Mark(PIECE_2_0, 0, 0) == '#';
    assert Mark(PIECE_2_0, 1, 0) == ' ';
    assert Mark(PIECE_2_0, 2, 0) == ' ';
    assert Picture(PIECE_2_0)[0] == "#  ";
    assert Mark(PIECE_2_0, 0, 1) == '#';
    assert Mark(PIECE_2_0, 1, 1) == '#';
    assert Mark(PIECE_2_0, 2, 1) == '#';
    assert Picture(PIECE_2_0)[1] == "###";
    assert Mark(PIECE_2_0, 0, 2) == ' ';
    assert Mark(PIECE_2_0, 1, 2) == ' ';
    assert Mark(PIECE_2_0, 2, 2) == '#';
    assert Picture(PIECE_2_0)[2] == "  #";
  }

  /** Piece 3 is drawn as its comment shows. */
  lemma Piece3Drawing()
    ensures Picture(PIECE_3_0) == ["## ", " ##", "  #"]
  {
    assert Mark(PIECE_3_0, 0, 0) == '#';
    assert Mark(PIECE_3_0, 1, 0) == '#';
    assert Mark(PIECE_3_0, 2, 0) == ' ';
    assert Picture(PIECE_3_0)[0] == "## ";
    assert Mark(PIECE_3_0, 0, 1) == ' ';
    assert Mark(PIECE_3_0, 1, 1) == '#';
    assert Mark(PIECE_3_0, 2, 1) == '#';
    assert Picture(PIECE_3_0)[1] == " ##";
    assert Mark(PIECE_3_0, 0, 2) == ' ';
    assert Mark(PIECE_3_0, 1, 2) == ' ';
    assert Mark(PIECE_3_0, 2, 2) == '#';
    assert Picture(PIECE_3_0)[2] == "  #";
  }

  /** Piece 4 is drawn as its comment shows. */
  lemma Piece4Drawing()
    ensures Picture(PIECE_4_0) == ["###", "# #"]
  {
    assert Mark(PIECE_4_0, 0, 0) == '#';
    assert Mark(PIECE_4_0, 1, 0) == '#';
    assert Mark(PIECE_4_0, 2, 0) == '#';
    assert Picture(PIECE_4_0)[0] == "###";
    assert Mark(PIECE_4_0, 0, 1) == '#';
    assert Mark(PIECE_4_0, 1, 1) == ' ';
    assert Mark(PIECE_4_0, 2, 1) == '#';
    assert Picture(PIECE_4_0)[1] == "# #";
  }

  /** Piece 5 is drawn as its comment shows. */
  lemma Piece5Drawing()
    ensures Picture(PIECE_5_0) == ["###", " # ", " # "]
  {
    assert Mark(PIECE_5_0, 0, 0) == '#';
    assert Mark(PIECE_5_0, 1, 0) == '#';
    assert Mark(PIECE_5_0, 2, 0) == '#';
    assert Picture(PIECE_5_0)[0] == "###";
    assert Mark(PIECE_5_0, 0, 1) == ' ';
    assert Mark(PIECE_5_0, 1, 1) == '#';
    assert Mark(PIECE_5_0, 2, 1) == ' ';
    assert Picture(PIECE_5_0)[1] == " # ";
    assert Mark(PIECE_5_0, 0, 2) == ' ';
    assert Mark(PIECE_5_0, 1, 2) == '#';
    assert Mark(PIECE_5_0, 2, 2) == ' ';
    assert Picture(PIECE_5_0)[2] == " # ";
  }

  /** Piece 6 is drawn as its comment shows. */
  lemma Piece6Drawing()
    ensures Picture(PIECE_6_0) == ["###", "#  ", "#  "]
  {
    assert Mark(PIECE_6_0, 0, 0) == '#';
    assert Mark(PIECE_6_0, 1, 0) == '#';
    assert Mark(PIECE_6_0, 2, 0) == '#';
    assert Picture(PIECE_6_0)[0] == "###";
    assert Mark(PIECE_6_0, 0, 1) == '#';
    assert Mark(PIECE_6_0, 1, 1) == ' ';
    assert Mark(PIECE_6_0, 2, 1) == ' ';
    assert Picture(PIECE_6_0)[1] == "#  ";
    assert Mark(PIECE_6_0, 0, 2) == '#';
    assert Mark(PIECE_6_0, 1, 2) == ' ';
    assert Mark(PIECE_6_0, 2, 2) == ' ';
    assert Picture(PIECE_6_0)[2] == "#  ";
  }

  /** Piece 7 is drawn as its comment shows. */
  lemma Piece7Drawing()
    ensures Picture(PIECE_7_0) == ["####", "   #"]
  {
    assert Mark(PIECE_7_0, 0, 0) == '#';
    assert Mark(PIECE_7_0, 1, 0) == '#';
    assert Mark(PIECE_7_0, 2, 0) == '#';
    assert Mark(PIECE_7_0, 3, 0) == '#';
    assert Picture(PIECE_7_0)[0] == "####";
    assert Mark(PIECE_7_0, 0, 1) == ' ';
    assert Mark(PIECE_7_0, 1, 1) == ' ';
    assert Mark(PIECE_7_0, 2, 1) == ' ';
    assert Mark(PIECE_7_0, 3, 1) == '#';
    assert Picture(PIECE_7_0)[1] == "   #";
  }

  /** Piece 8 is drawn as its comment shows. */
  lemma Piece8Drawing()
    ensures Picture(PIECE_8_0) == ["####", "  # "]
  {
    assert Mark(PIECE_8_0, 0, 0) == '#';
    assert Mark(PIECE_8_0, 1, 0) == '#';
    assert Mark(PIECE_8_0, 2, 0) == '#';
    assert Mark(PIECE_8_0, 3, 0) == '#';
    assert Picture(PIECE_8_0)[0] == "####";
    assert Mark(PIECE_8_0, 0, 1) == ' ';
    assert Mark(PIECE_8_0, 1, 1) == ' ';
    assert Mark(PIECE_8_0, 2, 1) == '#';
    assert Mark(PIECE_8_0, 3, 1) == ' ';
    assert Picture(PIECE_8_0)[1] == "  # ";
  }

  /** Piece 9 is drawn as its comment shows. */
  lemma Piece9Drawing()
    ensures Picture(PIECE_9_0) == ["### ", "  ##"]
  {
    assert Mark(PIECE_9_0, 0, 0) == '#';
    assert Mark(PIECE_9_0, 1, 0) == '#';
    assert Mark(PIECE_9_0, 2, 0) == '#';
    assert Mark(PIECE_9_0, 3, 0) == ' ';
    assert Picture(PIECE_9_0)[0] == "### ";
    assert Mark(PIECE_9_0, 0, 1) == ' ';
    assert Mark(PIECE_9_0, 1, 1) == ' ';
    assert Mark(PIECE_9_0, 2, 1) == '#';
    assert Mark(PIECE_9_0, 3, 1) == '#';
    assert Picture(PIECE_9_0)[1] == "  ##";
  }

  /** Piece 10 is drawn as its comment shows. */
  lemma Piece10Drawing()
    ensures Picture(PIECE_10_0) == ["#  ", "###", " # "]
  {
    assert Mark(PIECE_10_0, 0, 0) == '#';
    assert Mark(PIECE_10_0, 1, 0) == ' ';
    assert Mark(PIECE_10_0, 2, 0) == ' ';
    assert Picture(PIECE_10_0)[0] == "#  ";
    assert Mark(PIECE_10_0, 0, 1) == '#';
    assert Mark(PIECE_10_0, 1, 1) == '#';
    assert Mark(PIECE_10_0, 2, 1) == '#';
    assert Picture(PIECE_10_0)[1] == "###";
    assert Mark(PIECE_10_0, 0, 2) == ' ';
    assert Mark(PIECE_10_0, 1, 2) == '#';
    assert Mark(PIECE_10_0, 2, 2) == ' ';
    assert Picture(PIECE_10_0)[2] == " # ";
  }

  /** Piece 11 is drawn as its comment shows. */
  lemma Piece11Drawing()
    ensures Picture(PIECE_11_0) == ["###", "## "]
  {
    assert Mark(PIECE_11_0, 0, 0) == '#';
    assert Mark(PIECE_11_0, 1, 0) == '#';
    assert Mark(PIECE_11_0, 2, 0) == '#';
    assert Picture(PIECE_11_0)[0] == "###";
    assert Mark(PIECE_11_0, 0, 1) == '#';
    assert Mark(PIECE_11_0, 1, 1) == '#';
    assert Mark(PIECE_11_0, 2, 1) == ' ';
    assert Picture(PIECE_11_0)[1] == "## ";
  }

  /** The overview at the head of the file draws piece 10 turned half a
      turn: its drawing is that of the third orientation, not the first. */
  lemma OverviewDrawsPiece10Turned()
    ensures Picture(PIECE_10_2) == [" # ", "###", "  #"]
    ensures Picture(PIECE_10_0) != [" # ", "###", "  #"]
  {
    assert Mark(PIECE_10_2, 0, 0) == ' ';
    assert Mark(PIECE_10_2, 1, 0) == '#';
    assert Mark(PIECE_10_2, 2, 0) == ' ';
    assert Picture(PIECE_10_2)[0] == " # ";
    assert Mark(PIECE_10_2, 0, 1) == '#';
    assert Mark(PIECE_10_2, 1, 1) == '#';
    assert Mark(PIECE_10_2, 2, 1) == '#';
    assert Picture(PIECE_10_2)[1] == "###";
    assert Mark(PIECE_10_2, 0, 2) == ' ';
    assert Mark(PIECE_10_2, 1, 2) == ' ';
    assert Mark(PIECE_10_2, 2, 2) == '#';
    assert Picture(PIECE_10_2)[2] == "  #";
    Piece10Drawing();
    assert Picture(PIECE_10_0)[0] != Picture(PIECE_10_2)[0];
  }

  /** The third orientation of piece 10 is its first turned half a turn, so
      the overview's drawing is a true picture of the piece. */
  lemma Piece10HalfTurn()
    ensures Picture(Transform(PIECE_10_0, Symmetry(2, false))) == Picture(PIECE_10_2)
  {
    Piece10Image2();
    assert PIECE_10[0] == PIECE_10_0 && PIECE_10[CERT_10.slot[2]] == PIECE_10_2;
    ImageFiveSound(PIECE_10_0, SYMMETRIES[2], PIECE_10_2, CERT_10.fwd[2], CERT_10.back[2]);
    ImageBySameShape(PIECE_10_0, SYMMETRIES[2], PIECE_10_2, CERT_10.fwd[2], CERT_10.back[2]);
    SameShapeSamePicture(Transform(PIECE_10_0, Symmetry(2, false)), PIECE_10_2);
  }
}
