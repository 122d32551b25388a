/** Certificates for the twelve pieces of the catalog, and the proofs that
    they check: each piece is what the comment above it says it is.

    Each concrete fact about a certificate (one image, one framed entry, one
    row of telling-apart cells) is a lemma of its own, so that every proof
    obligation over the literal data stays small; the `Piece{i}Valid` lemmas
    only gather them. */
module CatalogProofs {
  import opened Geometry
  import opened Catalog

  // ---------------------------------------------------------------------------
  // Piece 0, the X shape

  const CERT_0 := Certificate(
    [0, 2, 1, 3, 4], [0, 0, 1, 1, 1], [0, 2, 1, 3, 4],
    [0, 0, 0, 0, 0, 0, 0, 0],
    [[0, 1, 2, 3, 4], [3, 0, 2, 4, 1], [4, 3, 2, 1, 0], [1, 4, 2, 0, 3], [0, 3, 2, 1, 4], [3, 4, 2, 0, 1], [4, 1, 2, 3, 0], [1, 0, 2, 4, 3]],
    [[0, 1, 2, 3, 4], [1, 4, 2, 0, 3], [4, 3, 2, 1, 0], [3, 0, 2, 4, 1], [0, 3, 2, 1, 4], [3, 4, 2, 0, 1], [4, 1, 2, 3, 0], [1, 0, 2, 4, 3]],
    [[0]])

  lemma Piece0Framed0()
    ensures FramedFive(PIECE_0[0])
  {
  }

  lemma Piece0Image0()
    ensures ImageChecked(PIECE_0, CERT_0, 0)
  {
  }

  lemma Piece0Image1()
    ensures ImageChecked(PIECE_0, CERT_0, 1)
  {
  }

  lemma Piece0Image2()
    ensures ImageChecked(PIECE_0, CERT_0, 2)
  {
  }

  lemma Piece0Image3()
    ensures ImageChecked(PIECE_0, CERT_0, 3)
  {
  }

  lemma Piece0Image4()
    ensures ImageChecked(PIECE_0, CERT_0, 4)
  {
  }

  lemma Piece0Image5()
    ensures ImageChecked(PIECE_0, CERT_0, 5)
  {
  }

  lemma Piece0Image6()
    ensures ImageChecked(PIECE_0, CERT_0, 6)
  {
  }

  lemma Piece0Image7()
    ensures ImageChecked(PIECE_0, CERT_0, 7)
  {
  }

  lemma Piece0Slots()
    ensures SlotsChecked(PIECE_0, 1, false, CERT_0)
  {
  }

  lemma Piece0Chain()
    ensures |PIECE_0| > 0 && ChainFive(PIECE_0[0], CERT_0.order, CERT_0.parent, CERT_0.visit)
  {
  }

  lemma Piece0Differ0()
    ensures DifferRow(PIECE_0, CERT_0, 0)
  {
  }

  lemma Piece0Framed()
    ensures AllFramed(PIECE_0)
  {
    forall k | 0 <= k < |PIECE_0| ensures FramedFive(PIECE_0[k]) {
      Piece0Framed0();
    }
  }

  lemma Piece0Images()
    ensures forall q :: 0 <= q < |SYMMETRIES| ==> ImageChecked(PIECE_0, CERT_0, q)
  {
    forall q | 0 <= q < |SYMMETRIES| ensures ImageChecked(PIECE_0, CERT_0, q) {
      if q == 0 {
        Piece0Image0();
      } else if q == 1 {
        Piece0Image1();
      } else if q == 2 {
        Piece0Image2();
      } else if q == 3 {
        Piece0Image3();
      } else if q == 4 {
        Piece0Image4();
      } else if q == 5 {
        Piece0Image5();
      } else if q == 6 {
        Piece0Image6();
      } else {
        Piece0Image7();
      }
    }
  }

  lemma Piece0Differ()
    ensures DifferChecked(PIECE_0, CERT_0)
  {
    forall j | 0 <= j < |PIECE_0| ensures DifferRow(PIECE_0, CERT_0, j) {
      Piece0Differ0();
    }
  }

  lemma Piece0Checked()
    ensures Checked(PIECE_0, 1, false, CERT_0)
  {
    Piece0Slots();
    Piece0Framed();
    Piece0Chain();
    Piece0Images();
    Piece0Differ();
  }

  lemma Piece0Valid()
    ensures ValidPiece(PIECE_0, 1, false)
  {
    Piece0Checked();
    CheckedValid(PIECE_0, 1, false, CERT_0);
  }

  // ---------------------------------------------------------------------------
  // Piece 1, the I shape

  const CERT_1 := Certificate(
    [0, 1, 2, 3, 4], [0, 0, 1, 2, 3], [0, 1, 2, 3, 4],
    [0, 1, 0, 1, 0, 1, 0, 1],
    [[0, 1, 2, 3, 4], [0, 1, 2, 3, 4], [4, 3, 2, 1, 0], [4, 3, 2, 1, 0], [4, 3, 2, 1, 0], [4, 3, 2, 1, 0], [0, 1, 2, 3, 4], [0, 1, 2, 3, 4]],
    [[0, 1, 2, 3, 4], [0, 1, 2, 3, 4], [4, 3, 2, 1, 0], [4, 3, 2, 1, 0], [4, 3, 2, 1, 0], [4, 3, 2, 1, 0], [0, 1, 2, 3, 4], [0, 1, 2, 3, 4]],
    [[0, 0], [0, 0]])

  lemma Piece1Framed0()
    ensures FramedFive(PIECE_1[0])
  {
  }

  lemma Piece1Framed1()
    ensures FramedFive(PIECE_1[1])
  {
  }

  lemma Piece1Image0()
    ensures ImageChecked(PIECE_1, CERT_1, 0)
  {
  }

  lemma Piece1Image1()
    ensures ImageChecked(PIECE_1, CERT_1, 1)
  {
  }

  lemma Piece1Image2()
    ensures ImageChecked(PIECE_1, CERT_1, 2)
  {
  }

  lemma Piece1Image3()
    ensures ImageChecked(PIECE_1, CERT_1, 3)
  {
  }

  lemma Piece1Image4()
    ensures ImageChecked(PIECE_1, CERT_1, 4)
  {
  }

  lemma Piece1Image5()
    ensures ImageChecked(PIECE_1, CERT_1, 5)
  {
  }

  lemma Piece1Image6()
    ensures ImageChecked(PIECE_1, CERT_1, 6)
  {
  }

  lemma Piece1Image7()
    ensures ImageChecked(PIECE_1, CERT_1, 7)
  {
  }

  lemma Piece1Slots()
    ensures SlotsChecked(PIECE_1, 2, false, CERT_1)
  {
  }

  lemma Piece1Chain()
    ensures |PIECE_1| > 0 && ChainFive(PIECE_1[0], CERT_1.order, CERT_1.parent, CERT_1.visit)
  {
  }

  lemma Piece1Differ0()
    ensures DifferRow(PIECE_1, CERT_1, 0)
  {
  }

  lemma Piece1Differ1()
    ensures DifferRow(PIECE_1, CERT_1, 1)
  {
  }

  lemma Piece1Framed()
    ensures AllFramed(PIECE_1)
  {
    forall k | 0 <= k < |PIECE_1| ensures FramedFive(PIECE_1[k]) {
      if k == 0 {
        Piece1Framed0();
      } else {
        Piece1Framed1();
      }
    }
  }

  lemma Piece1Images()
    ensures forall q :: 0 <= q < |SYMMETRIES| ==> ImageChecked(PIECE_1, CERT_1, q)
  {
    forall q | 0 <= q < |SYMMETRIES| ensures ImageChecked(PIECE_1, CERT_1, q) {
      if q == 0 {
        Piece1Image0();
      } else if q == 1 {
        Piece1Image1();
      } else if q == 2 {
        Piece1Image2();
      } else if q == 3 {
        Piece1Image3();
      } else if q == 4 {
        Piece1Image4();
      } else if q == 5 {
        Piece1Image5();
      } else if q == 6 {
        Piece1Image6();
      } else {
        Piece1Image7();
      }
    }
  }

  lemma Piece1Differ()
    ensures DifferChecked(PIECE_1, CERT_1)
  {
    forall j | 0 <= j < |PIECE_1| ensures DifferRow(PIECE_1, CERT_1, j) {
      if j == 0 {
        Piece1Differ0();
      } else {
        Piece1Differ1();
      }
    }
  }

  lemma Piece1Checked()
    ensures Checked(PIECE_1, 2, false, CERT_1)
  {
    Piece1Slots();
    Piece1Framed();
    Piece1Chain();
    Piece1Images();
    Piece1Differ();
  }

  lemma Piece1Valid()
    ensures ValidPiece(PIECE_1, 2, false)
  {
    Piece1Checked();
    CheckedValid(PIECE_1, 2, false, CERT_1);
  }

  // ---------------------------------------------------------------------------
  // Piece 2, the Z shape

  const CERT_2 := Certificate(
    [0, 1, 2, 3, 4], [0, 0, 1, 2, 3], [0, 1, 2, 3, 4],
    [0, 1, 0, 1, 2, 3, 2, 3],
    [[0, 1, 2, 3, 4], [0, 1, 2, 3, 4], [4, 3, 2, 1, 0], [4, 3, 2, 1, 0], [0, 1, 2, 3, 4], [4, 3, 2, 1, 0], [4, 3, 2, 1, 0], [0, 1, 2, 3, 4]],
    [[0, 1, 2, 3, 4], [0, 1, 2, 3, 4], [4, 3, 2, 1, 0], [4, 3, 2, 1, 0], [0, 1, 2, 3, 4], [4, 3, 2, 1, 0], [4, 3, 2, 1, 0], [0, 1, 2, 3, 4]],
    [[0, 0, 0, 1], [0, 0, 1, 0], [0, 0, 0, 0], [0, 0, 0, 0]])

  lemma Piece2Framed0()
    ensures FramedFive(PIECE_2[0])
  {
  }

  lemma Piece2Framed1()
    ensures FramedFive(PIECE_2[1])
  {
  }

  lemma Piece2Framed2()
    ensures FramedFive(PIECE_2[2])
  {
  }

  lemma Piece2Framed3()
    ensures FramedFive(PIECE_2[3])
  {
  }

  lemma Piece2Image0()
    ensures ImageChecked(PIECE_2, CERT_2, 0)
  {
  }

  lemma Piece2Image1()
    ensures ImageChecked(PIECE_2, CERT_2, 1)
  {
  }

  lemma Piece2Image2()
    ensures ImageChecked(PIECE_2, CERT_2, 2)
  {
  }

  lemma Piece2Image3()
    ensures ImageChecked(PIECE_2, CERT_2, 3)
  {
  }

  lemma Piece2Image4()
    ensures ImageChecked(PIECE_2, CERT_2, 4)
  {
  }

  lemma Piece2Image5()
    ensures ImageChecked(PIECE_2, CERT_2, 5)
  {
  }

  lemma Piece2Image6()
    ensures ImageChecked(PIECE_2, CERT_2, 6)
  {
  }

  lemma Piece2Image7()
    ensures ImageChecked(PIECE_2, CERT_2, 7)
  {
  }

  lemma Piece2Slots()
    ensures SlotsChecked(PIECE_2, 2, true, CERT_2)
  {
  }

  lemma Piece2Chain()
    ensures |PIECE_2| > 0 && ChainFive(PIECE_2[0], CERT_2.order, CERT_2.parent, CERT_2.visit)
  {
  }

  lemma Piece2Differ0()
    ensures DifferRow(PIECE_2, CERT_2, 0)
  {
  }

  lemma Piece2Differ1()
    ensures DifferRow(PIECE_2, CERT_2, 1)
  {
  }

  lemma Piece2Differ2()
    ensures DifferRow(PIECE_2, CERT_2, 2)
  {
  }

  lemma Piece2Differ3()
    ensures DifferRow(PIECE_2, CERT_2, 3)
  {
  }

  lemma Piece2Framed()
    ensures AllFramed(PIECE_2)
  {
    forall k | 0 <= k < |PIECE_2| ensures FramedFive(PIECE_2[k]) {
      if k == 0 {
        Piece2Framed0();
      } else if k == 1 {
        Piece2Framed1();
      } else if k == 2 {
        Piece2Framed2();
      } else {
        Piece2Framed3();
      }
    }
  }

  lemma Piece2Images()
    ensures forall q :: 0 <= q < |SYMMETRIES| ==> ImageChecked(PIECE_2, CERT_2, q)
  {
    forall q | 0 <= q < |SYMMETRIES| ensures ImageChecked(PIECE_2, CERT_2, q) {
      if q == 0 {
        Piece2Image0();
      } else if q == 1 {
        Piece2Image1();
      } else if q == 2 {
        Piece2Image2();
      } else if q == 3 {
        Piece2Image3();
      } else if q == 4 {
        Piece2Image4();
      } else if q == 5 {
        Piece2Image5();
      } else if q == 6 {
        Piece2Image6();
      } else {
        Piece2Image7();
      }
    }
  }

  lemma Piece2Differ()
    ensures DifferChecked(PIECE_2, CERT_2)
  {
    forall j | 0 <= j < |PIECE_2| ensures DifferRow(PIECE_2, CERT_2, j) {
      if j == 0 {
        Piece2Differ0();
      } else if j == 1 {
        Piece2Differ1();
      } else if j == 2 {
        Piece2Differ2();
      } else {
        Piece2Differ3();
      }
    }
  }

  lemma Piece2Checked()
    ensures Checked(PIECE_2, 2, true, CERT_2)
  {
    Piece2Slots();
    Piece2Framed();
    Piece2Chain();
    Piece2Images();
    Piece2Differ();
  }

  lemma Piece2Valid()
    ensures ValidPiece(PIECE_2, 2, true)
  {
    Piece2Checked();
    CheckedValid(PIECE_2, 2, true, CERT_2);
  }

  // ---------------------------------------------------------------------------
  // Piece 3, the W shape

  const CERT_3 := Certificate(
    [0, 1, 2, 3, 4], [0, 0, 1, 2, 3], [0, 1, 2, 3, 4],
    [0, 1, 2, 3, 3, 0, 1, 2],
    [[0, 1, 2, 3, 4], [0, 1, 2, 3, 4], [4, 3, 2, 1, 0], [4, 3, 2, 1, 0], [0, 1, 2, 3, 4], [4, 3, 2, 1, 0], [4, 3, 2, 1, 0], [0, 1, 2, 3, 4]],
    [[0, 1, 2, 3, 4], [0, 1, 2, 3, 4], [4, 3, 2, 1, 0], [4, 3, 2, 1, 0], [0, 1, 2, 3, 4], [4, 3, 2, 1, 0], [4, 3, 2, 1, 0], [0, 1, 2, 3, 4]],
    [[0, 0, 1, 0], [0, 0, 0, 1], [0, 0, 0, 0], [0, 0, 0, 0]])

  lemma Piece3Framed0()
    ensures FramedFive(PIECE_3[0])
  {
  }

  lemma Piece3Framed1()
    ensures FramedFive(PIECE_3[1])
  {
  }

  lemma Piece3Framed2()
    ensures FramedFive(PIECE_3[2])
  {
  }

  lemma Piece3Framed3()
    ensures FramedFive(PIECE_3[3])
  {
  }

  lemma Piece3Image0()
    ensures ImageChecked(PIECE_3, CERT_3, 0)
  {
  }

  lemma Piece3Image1()
    ensures ImageChecked(PIECE_3, CERT_3, 1)
  {
  }

  lemma Piece3Image2()
    ensures ImageChecked(PIECE_3, CERT_3, 2)
  {
  }

  lemma Piece3Image3()
    ensures ImageChecked(PIECE_3, CERT_3, 3)
  {
  }

  lemma Piece3Image4()
    ensures ImageChecked(PIECE_3, CERT_3, 4)
  {
  }

  lemma Piece3Image5()
    ensures ImageChecked(PIECE_3, CERT_3, 5)
  {
  }

  lemma Piece3Image6()
    ensures ImageChecked(PIECE_3, CERT_3, 6)
  {
  }

  lemma Piece3Image7()
    ensures ImageChecked(PIECE_3, CERT_3, 7)
  {
  }

  lemma Piece3Slots()
    ensures SlotsChecked(PIECE_3, 4, false, CERT_3)
  {
  }

  lemma Piece3Chain()
    ensures |PIECE_3| > 0 && ChainFive(PIECE_3[0], CERT_3.order, CERT_3.parent, CERT_3.visit)
  {
  }

  lemma Piece3Differ0()
    ensures DifferRow(PIECE_3, CERT_3, 0)
  {
  }

  lemma Piece3Differ1()
    ensures DifferRow(PIECE_3, CERT_3, 1)
  {
  }

  lemma Piece3Differ2()
    ensures DifferRow(PIECE_3, CERT_3, 2)
  {
  }

  lemma Piece3Differ3()
    ensures DifferRow(PIECE_3, CERT_3, 3)
  {
  }

  lemma Piece3Framed()
    ensures AllFramed(PIECE_3)
  {
    forall k | 0 <= k < |PIECE_3| ensures FramedFive(PIECE_3[k]) {
      if k == 0 {
        Piece3Framed0();
      } else if k == 1 {
        Piece3Framed1();
      } else if k == 2 {
        Piece3Framed2();
      } else {
        Piece3Framed3();
      }
    }
  }

  lemma Piece3Images()
    ensures forall q :: 0 <= q < |SYMMETRIES| ==> ImageChecked(PIECE_3, CERT_3, q)
  {
    forall q | 0 <= q < |SYMMETRIES| ensures ImageChecked(PIECE_3, CERT_3, q) {
      if q == 0 {
        Piece3Image0();
      } else if q == 1 {
        Piece3Image1();
      } else if q == 2 {
        Piece3Image2();
      } else if q == 3 {
        Piece3Image3();
      } else if q == 4 {
        Piece3Image4();
      } else if q == 5 {
        Piece3Image5();
      } else if q == 6 {
        Piece3Image6();
      } else {
        Piece3Image7();
      }
    }
  }

  lemma Piece3Differ()
    ensures DifferChecked(PIECE_3, CERT_3)
  {
    forall j | 0 <= j < |PIECE_3| ensures DifferRow(PIECE_3, CERT_3, j) {
      if j == 0 {
        Piece3Differ0();
      } else if j == 1 {
        Piece3Differ1();
      } else if j == 2 {
        Piece3Differ2();
      } else {
        Piece3Differ3();
      }
    }
  }

  lemma Piece3Checked()
    ensures Checked(PIECE_3, 4, false, CERT_3)
  {
    Piece3Slots();
    Piece3Framed();
    Piece3Chain();
    Piece3Images();
    Piece3Differ();
  }

  lemma Piece3Valid()
    ensures ValidPiece(PIECE_3, 4, false)
  {
    Piece3Checked();
    CheckedValid(PIECE_3, 4, false, CERT_3);
  }

  // ---------------------------------------------------------------------------
  // Piece 4, the U shape

  const CERT_4 := Certificate(
    [0, 1, 2, 3, 4], [0, 0, 1, 2, 3], [0, 1, 2, 3, 4],
    [0, 1, 2, 3, 0, 1, 2, 3],
    [[0, 1, 2, 3, 4], [0, 1, 2, 3, 4], [4, 3, 2, 1, 0], [4, 3, 2, 1, 0], [4, 3, 2, 1, 0], [4, 3, 2, 1, 0], [0, 1, 2, 3, 4], [0, 1, 2, 3, 4]],
    [[0, 1, 2, 3, 4], [0, 1, 2, 3, 4], [4, 3, 2, 1, 0], [4, 3, 2, 1, 0], [4, 3, 2, 1, 0], [4, 3, 2, 1, 0], [0, 1, 2, 3, 4], [0, 1, 2, 3, 4]],
    [[0, 0, 2, 0], [0, 0, 0, 2], [0, 0, 0, 0], [0, 0, 0, 0]])

  lemma Piece4Framed0()
    ensures FramedFive(PIECE_4[0])
  {
  }

  lemma Piece4Framed1()
    ensures FramedFive(PIECE_4[1])
  {
  }

  lemma Piece4Framed2()
    ensures FramedFive(PIECE_4[2])
  {
  }

  lemma Piece4Framed3()
    ensures FramedFive(PIECE_4[3])
  {
  }

  lemma Piece4Image0()
    ensures ImageChecked(PIECE_4, CERT_4, 0)
  {
  }

  lemma Piece4Image1()
    ensures ImageChecked(PIECE_4, CERT_4, 1)
  {
  }

  lemma Piece4Image2()
    ensures ImageChecked(PIECE_4, CERT_4, 2)
  {
  }

  lemma Piece4Image3()
    ensures ImageChecked(PIECE_4, CERT_4, 3)
  {
  }

  lemma Piece4Image4()
    ensures ImageChecked(PIECE_4, CERT_4, 4)
  {
  }

  lemma Piece4Image5()
    ensures ImageChecked(PIECE_4, CERT_4, 5)
  {
  }

  lemma Piece4Image6()
    ensures ImageChecked(PIECE_4, CERT_4, 6)
  {
  }

  lemma Piece4Image7()
    ensures ImageChecked(PIECE_4, CERT_4, 7)
  {
  }

  lemma Piece4Slots()
    ensures SlotsChecked(PIECE_4, 4, false, CERT_4)
  {
  }

  lemma Piece4Chain()
    ensures |PIECE_4| > 0 && ChainFive(PIECE_4[0], CERT_4.order, CERT_4.parent, CERT_4.visit)
  {
  }

  lemma Piece4Differ0()
    ensures DifferRow(PIECE_4, CERT_4, 0)
  {
  }

  lemma Piece4Differ1()
    ensures DifferRow(PIECE_4, CERT_4, 1)
  {
  }

  lemma Piece4Differ2()
    ensures DifferRow(PIECE_4, CERT_4, 2)
  {
  }

  lemma Piece4Differ3()
    ensures DifferRow(PIECE_4, CERT_4, 3)
  {
  }

  lemma Piece4Framed()
    ensures AllFramed(PIECE_4)
  {
    forall k | 0 <= k < |PIECE_4| ensures FramedFive(PIECE_4[k]) {
      if k == 0 {
        Piece4Framed0();
      } else if k == 1 {
        Piece4Framed1();
      } else if k == 2 {
        Piece4Framed2();
      } else {
        Piece4Framed3();
      }
    }
  }

  lemma Piece4Images()
    ensures forall q :: 0 <= q < |SYMMETRIES| ==> ImageChecked(PIECE_4, CERT_4, q)
  {
    forall q | 0 <= q < |SYMMETRIES| ensures ImageChecked(PIECE_4, CERT_4, q) {
      if q == 0 {
        Piece4Image0();
      } else if q == 1 {
        Piece4Image1();
      } else if q == 2 {
        Piece4Image2();
      } else if q == 3 {
        Piece4Image3();
      } else if q == 4 {
        Piece4Image4();
      } else if q == 5 {
        Piece4Image5();
      } else if q == 6 {
        Piece4Image6();
      } else {
        Piece4Image7();
      }
    }
  }

  lemma Piece4Differ()
    ensures DifferChecked(PIECE_4, CERT_4)
  {
    forall j | 0 <= j < |PIECE_4| ensures DifferRow(PIECE_4, CERT_4, j) {
      if j == 0 {
        Piece4Differ0();
      } else if j == 1 {
        Piece4Differ1();
      } else if j == 2 {
        Piece4Differ2();
      } else {
        Piece4Differ3();
      }
    }
  }

  lemma Piece4Checked()
    ensures Checked(PIECE_4, 4, false, CERT_4)
  {
    Piece4Slots();
    Piece4Framed();
    Piece4Chain();
    Piece4Images();
    Piece4Differ();
  }

  lemma Piece4Valid()
    ensures ValidPiece(PIECE_4, 4, false)
  {
    Piece4Checked();
    CheckedValid(PIECE_4, 4, false, CERT_4);
  }

  // ---------------------------------------------------------------------------
  // Piece 5, the T shape

  const CERT_5 := Certificate(
    [0, 1, 2, 3, 4], [0, 0, 1, 1, 3], [0, 1, 2, 3, 4],
    [0, 1, 2, 3, 0, 1, 2, 3],
    [[0, 1, 2, 3, 4], [0, 1, 2, 3, 4], [4, 3, 2, 1, 0], [2, 1, 0, 3, 4], [2, 1, 0, 3, 4], [2, 1, 0, 3, 4], [2, 3, 4, 1, 0], [0, 1, 2, 3, 4]],
    [[0, 1, 2, 3, 4], [0, 1, 2, 3, 4], [4, 3, 2, 1, 0], [2, 1, 0, 3, 4], [2, 1, 0, 3, 4], [2, 1, 0, 3, 4], [4, 3, 0, 1, 2], [0, 1, 2, 3, 4]],
    [[0, 0, 0, 1], [0, 0, 0, 0], [0, 0, 0, 0], [0, 0, 0, 0]])

  lemma Piece5Framed0()
    ensures FramedFive(PIECE_5[0])
  {
  }

  lemma Piece5Framed1()
    ensures FramedFive(PIECE_5[1])
  {
  }

  lemma Piece5Framed2()
    ensures FramedFive(PIECE_5[2])
  {
  }

  lemma Piece5Framed3()
    ensures FramedFive(PIECE_5[3])
  {
  }

  lemma Piece5Image0()
    ensures ImageChecked(PIECE_5, CERT_5, 0)
  {
  }

  lemma Piece5Image1()
    ensures ImageChecked(PIECE_5, CERT_5, 1)
  {
  }

  lemma Piece5Image2()
    ensures ImageChecked(PIECE_5, CERT_5, 2)
  {
  }

  lemma Piece5Image3()
    ensures ImageChecked(PIECE_5, CERT_5, 3)
  {
  }

  lemma Piece5Image4()
    ensures ImageChecked(PIECE_5, CERT_5, 4)
  {
  }

  lemma Piece5Image5()
    ensures ImageChecked(PIECE_5, CERT_5, 5)
  {
  }

  lemma Piece5Image6()
    ensures ImageChecked(PIECE_5, CERT_5, 6)
  {
  }

  lemma Piece5Image7()
    ensures ImageChecked(PIECE_5, CERT_5, 7)
  {
  }

  lemma Piece5Slots()
    ensures SlotsChecked(PIECE_5, 4, false, CERT_5)
  {
  }

  lemma Piece5Chain()
    ensures |PIECE_5| > 0 && ChainFive(PIECE_5[0], CERT_5.order, CERT_5.parent, CERT_5.visit)
  {
  }

  lemma Piece5Differ0()
    ensures DifferRow(PIECE_5, CERT_5, 0)
  {
  }

  lemma Piece5Differ1()
    ensures DifferRow(PIECE_5, CERT_5, 1)
  {
  }

  lemma Piece5Differ2()
    ensures DifferRow(PIECE_5, CERT_5, 2)
  {
  }

  lemma Piece5Differ3()
    ensures DifferRow(PIECE_5, CERT_5, 3)
  {
  }

  lemma Piece5Framed()
    ensures AllFramed(PIECE_5)
  {
    forall k | 0 <= k < |PIECE_5| ensures FramedFive(PIECE_5[k]) {
      if k == 0 {
        Piece5Framed0();
      } else if k == 1 {
        Piece5Framed1();
      } else if k == 2 {
        Piece5Framed2();
      } else {
        Piece5Framed3();
      }
    }
  }

  lemma Piece5Images()
    ensures forall q :: 0 <= q < |SYMMETRIES| ==> ImageChecked(PIECE_5, CERT_5, q)
  {
    forall q | 0 <= q < |SYMMETRIES| ensures ImageChecked(PIECE_5, CERT_5, q) {
      if q == 0 {
        Piece5Image0();
      } else if q == 1 {
        Piece5Image1();
      } else if q == 2 {
        Piece5Image2();
      } else if q == 3 {
        Piece5Image3();
      } else if q == 4 {
        Piece5Image4();
      } else if q == 5 {
        Piece5Image5();
      } else if q == 6 {
        Piece5Image6();
      } else {
        Piece5Image7();
      }
    }
  }

  lemma Piece5Differ()
    ensures DifferChecked(PIECE_5, CERT_5)
  {
    forall j | 0 <= j < |PIECE_5| ensures DifferRow(PIECE_5, CERT_5, j) {
      if j == 0 {
        Piece5Differ0();
      } else if j == 1 {
        Piece5Differ1();
      } else if j == 2 {
        Piece5Differ2();
      } else {
        Piece5Differ3();
      }
    }
  }

  lemma Piece5Checked()
    ensures Checked(PIECE_5, 4, false, CERT_5)
  {
    Piece5Slots();
    Piece5Framed();
    Piece5Chain();
    Piece5Images();
    Piece5Differ();
  }

  lemma Piece5Valid()
    ensures ValidPiece(PIECE_5, 4, false)
  {
    Piece5Checked();
    CheckedValid(PIECE_5, 4, false, CERT_5);
  }

  // ---------------------------------------------------------------------------
  // Piece 6, the V shape

  const CERT_6 := Certificate(
    [0, 1, 2, 3, 4], [0, 0, 1, 2, 3], [0, 1, 2, 3, 4],
    [0, 1, 2, 3, 1, 2, 3, 0],
    [[0, 1, 2, 3, 4], [4, 3, 2, 1, 0], [4, 3, 2, 1, 0], [0, 1, 2, 3, 4], [0, 1, 2, 3, 4], [0, 1, 2, 3, 4], [4, 3, 2, 1, 0], [4, 3, 2, 1, 0]],
    [[0, 1, 2, 3, 4], [4, 3, 2, 1, 0], [4, 3, 2, 1, 0], [0, 1, 2, 3, 4], [0, 1, 2, 3, 4], [0, 1, 2, 3, 4], [4, 3, 2, 1, 0], [4, 3, 2, 1, 0]],
    [[0, 3, 1, 0], [0, 0, 0, 1], [0, 0, 0, 0], [0, 0, 0, 0]])

  lemma Piece6Framed0()
    ensures FramedFive(PIECE_6[0])
  {
  }

  lemma Piece6Framed1()
    ensures FramedFive(PIECE_6[1])
  {
  }

  lemma Piece6Framed2()
    ensures FramedFive(PIECE_6[2])
  {
  }

  lemma Piece6Framed3()
    ensures FramedFive(PIECE_6[3])
  {
  }

  lemma Piece6Image0()
    ensures ImageChecked(PIECE_6, CERT_6, 0)
  {
  }

  lemma Piece6Image1()
    ensures ImageChecked(PIECE_6, CERT_6, 1)
  {
  }

  lemma Piece6Image2()
    ensures ImageChecked(PIECE_6, CERT_6, 2)
  {
  }

  lemma Piece6Image3()
    ensures ImageChecked(PIECE_6, CERT_6, 3)
  {
  }

  lemma Piece6Image4()
    ensures ImageChecked(PIECE_6, CERT_6, 4)
  {
  }

  lemma Piece6Image5()
    ensures ImageChecked(PIECE_6, CERT_6, 5)
  {
  }

  lemma Piece6Image6()
    ensures ImageChecked(PIECE_6, CERT_6, 6)
  {
  }

  lemma Piece6Image7()
    ensures ImageChecked(PIECE_6, CERT_6, 7)
  {
  }

  lemma Piece6Slots()
    ensures SlotsChecked(PIECE_6, 4, false, CERT_6)
  {
  }

  lemma Piece6Chain()
    ensures |PIECE_6| > 0 && ChainFive(PIECE_6[0], CERT_6.order, CERT_6.parent, CERT_6.visit)
  {
  }

  lemma Piece6Differ0()
    ensures DifferRow(PIECE_6, CERT_6, 0)
  {
  }

  lemma Piece6Differ1()
    ensures DifferRow(PIECE_6, CERT_6, 1)
  {
  }

  lemma Piece6Differ2()
    ensures DifferRow(PIECE_6, CERT_6, 2)
  {
  }

  lemma Piece6Differ3()
    ensures DifferRow(PIECE_6, CERT_6, 3)
  {
  }

  lemma Piece6Framed()
    ensures AllFramed(PIECE_6)
  {
    forall k | 0 <= k < |PIECE_6| ensures FramedFive(PIECE_6[k]) {
      if k == 0 {
        Piece6Framed0();
      } else if k == 1 {
        Piece6Framed1();
      } else if k == 2 {
        Piece6Framed2();
      } else {
        Piece6Framed3();
      }
    }
  }

  lemma Piece6Images()
    ensures forall q :: 0 <= q < |SYMMETRIES| ==> ImageChecked(PIECE_6, CERT_6, q)
  {
    forall q | 0 <= q < |SYMMETRIES| ensures ImageChecked(PIECE_6, CERT_6, q) {
      if q == 0 {
        Piece6Image0();
      } else if q == 1 {
        Piece6Image1();
      } else if q == 2 {
        Piece6Image2();
      } else if q == 3 {
        Piece6Image3();
      } else if q == 4 {
        Piece6Image4();
      } else if q == 5 {
        Piece6Image5();
      } else if q == 6 {
        Piece6Image6();
      } else {
        Piece6Image7();
      }
    }
  }

  lemma Piece6Differ()
    ensures DifferChecked(PIECE_6, CERT_6)
  {
    forall j | 0 <= j < |PIECE_6| ensures DifferRow(PIECE_6, CERT_6, j) {
      if j == 0 {
        Piece6Differ0();
      } else if j == 1 {
        Piece6Differ1();
      } else if j == 2 {
        Piece6Differ2();
      } else {
        Piece6Differ3();
      }
    }
  }

  lemma Piece6Checked()
    ensures Checked(PIECE_6, 4, false, CERT_6)
  {
    Piece6Slots();
    Piece6Framed();
    Piece6Chain();
    Piece6Images();
    Piece6Differ();
  }

  lemma Piece6Valid()
    ensures ValidPiece(PIECE_6, 4, false)
  {
    Piece6Checked();
    CheckedValid(PIECE_6, 4, false, CERT_6);
  }

  // ---------------------------------------------------------------------------
  // Piece 7, the L shape

  const CERT_7 := Certificate(
    [0, 1, 2, 3, 4], [0, 0, 1, 2, 3], [0, 1, 2, 3, 4],
    [0, 1, 2, 3, 4, 5, 6, 7],
    [[0, 1, 2, 3, 4], [0, 1, 2, 3, 4], [4, 3, 2, 1, 0], [4, 3, 2, 1, 0], [4, 3, 2, 1, 0], [4, 3, 2, 1, 0], [4, 3, 2, 1, 0], [0, 1, 2, 3, 4]],
    [[0, 1, 2, 3, 4], [0, 1, 2, 3, 4], [4, 3, 2, 1, 0], [4, 3, 2, 1, 0], [4, 3, 2, 1, 0], [4, 3, 2, 1, 0], [4, 3, 2, 1, 0], [0, 1, 2, 3, 4]],
    [[0, 0, 1, 0, 4, 0, 0, 0], [0, 0, 0, 1, 0, 4, 0, 0], [0, 0, 0, 0, 2, 0, 0, 0], [0, 0, 0, 0, 0, 2, 0, 0], [0, 0, 0, 0, 0, 0, 1, 0], [0, 0, 0, 0, 0, 0, 0, 1], [0, 0, 0, 0, 0, 0, 0, 0], [0, 0, 0, 0, 0, 0, 0, 0]])

  lemma Piece7Framed0()
    ensures FramedFive(PIECE_7[0])
  {
  }

  lemma Piece7Framed1()
    ensures FramedFive(PIECE_7[1])
  {
  }

  lemma Piece7Framed2()
    ensures FramedFive(PIECE_7[2])
  {
  }

  lemma Piece7Framed3()
    ensures FramedFive(PIECE_7[3])
  {
  }

  lemma Piece7Framed4()
    ensures FramedFive(PIECE_7[4])
  {
  }

  lemma Piece7Framed5()
    ensures FramedFive(PIECE_7[5])
  {
  }

  lemma Piece7Framed6()
    ensures FramedFive(PIECE_7[6])
  {
  }

  lemma Piece7Framed7()
    ensures FramedFive(PIECE_7[7])
  {
  }

  lemma Piece7Image0()
    ensures ImageChecked(PIECE_7, CERT_7, 0)
  {
  }

  lemma Piece7Image1()
    ensures ImageChecked(PIECE_7, CERT_7, 1)
  {
  }

  lemma Piece7Image2()
    ensures ImageChecked(PIECE_7, CERT_7, 2)
  {
  }

  lemma Piece7Image3()
    ensures ImageChecked(PIECE_7, CERT_7, 3)
  {
  }

  lemma Piece7Image4()
    ensures ImageChecked(PIECE_7, CERT_7, 4)
  {
  }

  lemma Piece7Image5()
    ensures ImageChecked(PIECE_7, CERT_7, 5)
  {
  }

  lemma Piece7Image6()
    ensures ImageChecked(PIECE_7, CERT_7, 6)
  {
  }

  lemma Piece7Image7()
    ensures ImageChecked(PIECE_7, CERT_7, 7)
  {
  }

  lemma Piece7Slots()
    ensures SlotsChecked(PIECE_7, 4, true, CERT_7)
  {
  }

  lemma Piece7Chain()
    ensures |PIECE_7| > 0 && ChainFive(PIECE_7[0], CERT_7.order, CERT_7.parent, CERT_7.visit)
  {
  }

  lemma Piece7Differ0()
    ensures DifferRow(PIECE_7, CERT_7, 0)
  {
  }

  lemma Piece7Differ1()
    ensures DifferRow(PIECE_7, CERT_7, 1)
  {
  }

  lemma Piece7Differ2()
    ensures DifferRow(PIECE_7, CERT_7, 2)
  {
  }

  lemma Piece7Differ3()
    ensures DifferRow(PIECE_7, CERT_7, 3)
  {
  }

  lemma Piece7Differ4()
    ensures DifferRow(PIECE_7, CERT_7, 4)
  {
  }

  lemma Piece7Differ5()
    ensures DifferRow(PIECE_7, CERT_7, 5)
  {
  }

  lemma Piece7Differ6()
    ensures DifferRow(PIECE_7, CERT_7, 6)
  {
  }

  lemma Piece7Differ7()
    ensures DifferRow(PIECE_7, CERT_7, 7)
  {
  }

  lemma Piece7Framed()
    ensures AllFramed(PIECE_7)
  {
    forall k | 0 <= k < |PIECE_7| ensures FramedFive(PIECE_7[k]) {
      if k == 0 {
        Piece7Framed0();
      } else if k == 1 {
        Piece7Framed1();
      } else if k == 2 {
        Piece7Framed2();
      } else if k == 3 {
        Piece7Framed3();
      } else if k == 4 {
        Piece7Framed4();
      } else if k == 5 {
        Piece7Framed5();
      } else if k == 6 {
        Piece7Framed6();
      } else {
        Piece7Framed7();
      }
    }
  }

  lemma Piece7Images()
    ensures forall q :: 0 <= q < |SYMMETRIES| ==> ImageChecked(PIECE_7, CERT_7, q)
  {
    forall q | 0 <= q < |SYMMETRIES| ensures ImageChecked(PIECE_7, CERT_7, q) {
      if q == 0 {
        Piece7Image0();
      } else if q == 1 {
        Piece7Image1();
      } else if q == 2 {
        Piece7Image2();
      } else if q == 3 {
        Piece7Image3();
      } else if q == 4 {
        Piece7Image4();
      } else if q == 5 {
        Piece7Image5();
      } else if q == 6 {
        Piece7Image6();
      } else {
        Piece7Image7();
      }
    }
  }

  lemma Piece7Differ()
    ensures DifferChecked(PIECE_7, CERT_7)
  {
    forall j | 0 <= j < |PIECE_7| ensures DifferRow(PIECE_7, CERT_7, j) {
      if j == 0 {
        Piece7Differ0();
      } else if j == 1 {
        Piece7Differ1();
      } else if j == 2 {
        Piece7Differ2();
      } else if j == 3 {
        Piece7Differ3();
      } else if j == 4 {
        Piece7Differ4();
      } else if j == 5 {
        Piece7Differ5();
      } else if j == 6 {
        Piece7Differ6();
      } else {
        Piece7Differ7();
      }
    }
  }

  lemma Piece7Checked()
    ensures Checked(PIECE_7, 4, true, CERT_7)
  {
    Piece7Slots();
    Piece7Framed();
    Piece7Chain();
    Piece7Images();
    Piece7Differ();
  }

  lemma Piece7Valid()
    ensures ValidPiece(PIECE_7, 4, true)
  {
    Piece7Checked();
    CheckedValid(PIECE_7, 4, true, CERT_7);
  }

  // ---------------------------------------------------------------------------
  // Piece 8, the Y shape

  const CERT_8 := Certificate(
    [0, 1, 2, 3, 4], [0, 0, 1, 2, 2], [0, 1, 2, 3, 4],
    [0, 1, 2, 3, 4, 5, 6, 7],
    [[0, 1, 2, 3, 4], [0, 1, 2, 3, 4], [4, 3, 2, 1, 0], [4, 3, 2, 1, 0], [4, 3, 2, 1, 0], [4, 3, 2, 1, 0], [4, 3, 2, 1, 0], [0, 1, 2, 3, 4]],
    [[0, 1, 2, 3, 4], [0, 1, 2, 3, 4], [4, 3, 2, 1, 0], [4, 3, 2, 1, 0], [4, 3, 2, 1, 0], [4, 3, 2, 1, 0], [4, 3, 2, 1, 0], [0, 1, 2, 3, 4]],
    [[0, 0, 0, 0, 4, 0, 0, 0], [0, 0, 0, 0, 0, 4, 0, 0], [0, 0, 0, 0, 1, 0, 0, 0], [0, 0, 0, 0, 0, 1, 0, 0], [0, 0, 0, 0, 0, 0, 1, 0], [0, 0, 0, 0, 0, 0, 0, 1], [0, 0, 0, 0, 0, 0, 0, 0], [0, 0, 0, 0, 0, 0, 0, 0]])

  lemma Piece8Framed0()
    ensures FramedFive(PIECE_8[0])
  {
  }

  lemma Piece8Framed1()
    ensures FramedFive(PIECE_8[1])
  {
  }

  lemma Piece8Framed2()
    ensures FramedFive(PIECE_8[2])
  {
  }

  lemma Piece8Framed3()
    ensures FramedFive(PIECE_8[3])
  {
  }

  lemma Piece8Framed4()
    ensures FramedFive(PIECE_8[4])
  {
  }

  lemma Piece8Framed5()
    ensures FramedFive(PIECE_8[5])
  {
  }

  lemma Piece8Framed6()
    ensures FramedFive(PIECE_8[6])
  {
  }

  lemma Piece8Framed7()
    ensures FramedFive(PIECE_8[7])
  {
  }

  lemma Piece8Image0()
    ensures ImageChecked(PIECE_8, CERT_8, 0)
  {
  }

  lemma Piece8Image1()
    ensures ImageChecked(PIECE_8, CERT_8, 1)
  {
  }

  lemma Piece8Image2()
    ensures ImageChecked(PIECE_8, CERT_8, 2)
  {
  }

  lemma Piece8Image3()
    ensures ImageChecked(PIECE_8, CERT_8, 3)
  {
  }

  lemma Piece8Image4()
    ensures ImageChecked(PIECE_8, CERT_8, 4)
  {
  }

  lemma Piece8Image5()
    ensures ImageChecked(PIECE_8, CERT_8, 5)
  {
  }

  lemma Piece8Image6()
    ensures ImageChecked(PIECE_8, CERT_8, 6)
  {
  }

  lemma Piece8Image7()
    ensures ImageChecked(PIECE_8, CERT_8, 7)
  {
  }

  lemma Piece8Slots()
    ensures SlotsChecked(PIECE_8, 4, true, CERT_8)
  {
  }

  lemma Piece8Chain()
    ensures |PIECE_8| > 0 && ChainFive(PIECE_8[0], CERT_8.order, CERT_8.parent, CERT_8.visit)
  {
  }

  lemma Piece8Differ0()
    ensures DifferRow(PIECE_8, CERT_8, 0)
  {
  }

  lemma Piece8Differ1()
    ensures DifferRow(PIECE_8, CERT_8, 1)
  {
  }

  lemma Piece8Differ2()
    ensures DifferRow(PIECE_8, CERT_8, 2)
  {
  }

  lemma Piece8Differ3()
    ensures DifferRow(PIECE_8, CERT_8, 3)
  {
  }

  lemma Piece8Differ4()
    ensures DifferRow(PIECE_8, CERT_8, 4)
  {
  }

  lemma Piece8Differ5()
    ensures DifferRow(PIECE_8, CERT_8, 5)
  {
  }

  lemma Piece8Differ6()
    ensures DifferRow(PIECE_8, CERT_8, 6)
  {
  }

  lemma Piece8Differ7()
    ensures DifferRow(PIECE_8, CERT_8, 7)
  {
  }

  lemma Piece8Framed()
    ensures AllFramed(PIECE_8)
  {
    forall k | 0 <= k < |PIECE_8| ensures FramedFive(PIECE_8[k]) {
      if k == 0 {
        Piece8Framed0();
      } else if k == 1 {
        Piece8Framed1();
      } else if k == 2 {
        Piece8Framed2();
      } else if k == 3 {
        Piece8Framed3();
      } else if k == 4 {
        Piece8Framed4();
      } else if k == 5 {
        Piece8Framed5();
      } else if k == 6 {
        Piece8Framed6();
      } else {
        Piece8Framed7();
      }
    }
  }

  lemma Piece8Images()
    ensures forall q :: 0 <= q < |SYMMETRIES| ==> ImageChecked(PIECE_8, CERT_8, q)
  {
    forall q | 0 <= q < |SYMMETRIES| ensures ImageChecked(PIECE_8, CERT_8, q) {
      if q == 0 {
        Piece8Image0();
      } else if q == 1 {
        Piece8Image1();
      } else if q == 2 {
        Piece8Image2();
      } else if q == 3 {
        Piece8Image3();
      } else if q == 4 {
        Piece8Image4();
      } else if q == 5 {
        Piece8Image5();
      } else if q == 6 {
        Piece8Image6();
      } else {
        Piece8Image7();
      }
    }
  }

  lemma Piece8Differ()
    ensures DifferChecked(PIECE_8, CERT_8)
  {
    forall j | 0 <= j < |PIECE_8| ensures DifferRow(PIECE_8, CERT_8, j) {
      if j == 0 {
        Piece8Differ0();
      } else if j == 1 {
        Piece8Differ1();
      } else if j == 2 {
        Piece8Differ2();
      } else if j == 3 {
        Piece8Differ3();
      } else if j == 4 {
        Piece8Differ4();
      } else if j == 5 {
        Piece8Differ5();
      } else if j == 6 {
        Piece8Differ6();
      } else {
        Piece8Differ7();
      }
    }
  }

  lemma Piece8Checked()
    ensures Checked(PIECE_8, 4, true, CERT_8)
  {
    Piece8Slots();
    Piece8Framed();
    Piece8Chain();
    Piece8Images();
    Piece8Differ();
  }

  lemma Piece8Valid()
    ensures ValidPiece(PIECE_8, 4, true)
  {
    Piece8Checked();
    CheckedValid(PIECE_8, 4, true, CERT_8);
  }

  // ---------------------------------------------------------------------------
  // Piece 9, the N shape

  const CERT_9 := Certificate(
    [0, 1, 2, 3, 4], [0, 0, 1, 2, 3], [0, 1, 2, 3, 4],
    [0, 1, 2, 3, 4, 5, 6, 7],
    [[0, 1, 2, 3, 4], [0, 1, 2, 3, 4], [4, 3, 2, 1, 0], [4, 3, 2, 1, 0], [4, 3, 2, 1, 0], [4, 3, 2, 1, 0], [4, 3, 2, 1, 0], [0, 1, 2, 3, 4]],
    [[0, 1, 2, 3, 4], [0, 1, 2, 3, 4], [4, 3, 2, 1, 0], [4, 3, 2, 1, 0], [4, 3, 2, 1, 0], [4, 3, 2, 1, 0], [4, 3, 2, 1, 0], [0, 1, 2, 3, 4]],
    [[0, 0, 2, 0, 0, 0, 0, 0], [0, 0, 0, 2, 0, 0, 0, 0], [0, 0, 0, 0, 0, 0, 0, 0], [0, 0, 0, 0, 0, 0, 0, 0], [0, 0, 0, 0, 0, 0, 2, 0], [0, 0, 0, 0, 0, 0, 0, 2], [0, 0, 0, 0, 0, 0, 0, 0], [0, 0, 0, 0, 0, 0, 0, 0]])

  lemma Piece9Framed0()
    ensures FramedFive(PIECE_9[0])
  {
  }

  lemma Piece9Framed1()
    ensures FramedFive(PIECE_9[1])
  {
  }

  lemma Piece9Framed2()
    ensures FramedFive(PIECE_9[2])
  {
  }

  lemma Piece9Framed3()
    ensures FramedFive(PIECE_9[3])
  {
  }

  lemma Piece9Framed4()
    ensures FramedFive(PIECE_9[4])
  {
  }

  lemma Piece9Framed5()
    ensures FramedFive(PIECE_9[5])
  {
  }

  lemma Piece9Framed6()
    ensures FramedFive(PIECE_9[6])
  {
  }

  lemma Piece9Framed7()
    ensures FramedFive(PIECE_9[7])
  {
  }

  lemma Piece9Image0()
    ensures ImageChecked(PIECE_9, CERT_9, 0)
  {
  }

  lemma Piece9Image1()
    ensures ImageChecked(PIECE_9, CERT_9, 1)
  {
  }

  lemma Piece9Image2()
    ensures ImageChecked(PIECE_9, CERT_9, 2)
  {
  }

  lemma Piece9Image3()
    ensures ImageChecked(PIECE_9, CERT_9, 3)
  {
  }

  lemma Piece9Image4()
    ensures ImageChecked(PIECE_9, CERT_9, 4)
  {
  }

  lemma Piece9Image5()
    ensures ImageChecked(PIECE_9, CERT_9, 5)
  {
  }

  lemma Piece9Image6()
    ensures ImageChecked(PIECE_9, CERT_9, 6)
  {
  }

  lemma Piece9Image7()
    ensures ImageChecked(PIECE_9, CERT_9, 7)
  {
  }

  lemma Piece9Slots()
    ensures SlotsChecked(PIECE_9, 4, true, CERT_9)
  {
  }

  lemma Piece9Chain()
    ensures |PIECE_9| > 0 && ChainFive(PIECE_9[0], CERT_9.order, CERT_9.parent, CERT_9.visit)
  {
  }

  lemma Piece9Differ0()
    ensures DifferRow(PIECE_9, CERT_9, 0)
  {
  }

  lemma Piece9Differ1()
    ensures DifferRow(PIECE_9, CERT_9, 1)
  {
  }

  lemma Piece9Differ2()
    ensures DifferRow(PIECE_9, CERT_9, 2)
  {
  }

  lemma Piece9Differ3()
    ensures DifferRow(PIECE_9, CERT_9, 3)
  {
  }

  lemma Piece9Differ4()
    ensures DifferRow(PIECE_9, CERT_9, 4)
  {
  }

  lemma Piece9Differ5()
    ensures DifferRow(PIECE_9, CERT_9, 5)
  {
  }

  lemma Piece9Differ6()
    ensures DifferRow(PIECE_9, CERT_9, 6)
  {
  }

  lemma Piece9Differ7()
    ensures DifferRow(PIECE_9, CERT_9, 7)
  {
  }

  lemma Piece9Framed()
    ensures AllFramed(PIECE_9)
  {
    forall k | 0 <= k < |PIECE_9| ensures FramedFive(PIECE_9[k]) {
      if k == 0 {
        Piece9Framed0();
      } else if k == 1 {
        Piece9Framed1();
      } else if k == 2 {
        Piece9Framed2();
      } else if k == 3 {
        Piece9Framed3();
      } else if k == 4 {
        Piece9Framed4();
      } else if k == 5 {
        Piece9Framed5();
      } else if k == 6 {
        Piece9Framed6();
      } else {
        Piece9Framed7();
      }
    }
  }

  lemma Piece9Images()
    ensures forall q :: 0 <= q < |SYMMETRIES| ==> ImageChecked(PIECE_9, CERT_9, q)
  {
    forall q | 0 <= q < |SYMMETRIES| ensures ImageChecked(PIECE_9, CERT_9, q) {
      if q == 0 {
        Piece9Image0();
      } else if q == 1 {
        Piece9Image1();
      } else if q == 2 {
        Piece9Image2();
      } else if q == 3 {
        Piece9Image3();
      } else if q == 4 {
        Piece9Image4();
      } else if q == 5 {
        Piece9Image5();
      } else if q == 6 {
        Piece9Image6();
      } else {
        Piece9Image7();
      }
    }
  }

  lemma Piece9Differ()
    ensures DifferChecked(PIECE_9, CERT_9)
  {
    forall j | 0 <= j < |PIECE_9| ensures DifferRow(PIECE_9, CERT_9, j) {
      if j == 0 {
        Piece9Differ0();
      } else if j == 1 {
        Piece9Differ1();
      } else if j == 2 {
        Piece9Differ2();
      } else if j == 3 {
        Piece9Differ3();
      } else if j == 4 {
        Piece9Differ4();
      } else if j == 5 {
        Piece9Differ5();
      } else if j == 6 {
        Piece9Differ6();
      } else {
        Piece9Differ7();
      }
    }
  }

  lemma Piece9Checked()
    ensures Checked(PIECE_9, 4, true, CERT_9)
  {
    Piece9Slots();
    Piece9Framed();
    Piece9Chain();
    Piece9Images();
    Piece9Differ();
  }

  lemma Piece9Valid()
    ensures ValidPiece(PIECE_9, 4, true)
  {
    Piece9Checked();
    CheckedValid(PIECE_9, 4, true, CERT_9);
  }

  // ---------------------------------------------------------------------------
  // Piece 10, the F shape

  const CERT_10 := Certificate(
    [0, 1, 2, 3, 4], [0, 0, 1, 2, 2], [0, 1, 2, 3, 4],
    [0, 1, 2, 3, 4, 5, 6, 7],
    [[0, 1, 2, 3, 4], [1, 0, 3, 4, 2], [4, 3, 2, 1, 0], [3, 4, 1, 0, 2], [0, 3, 2, 1, 4], [4, 3, 2, 0, 1], [4, 1, 2, 3, 0], [0, 1, 2, 4, 3]],
    [[0, 1, 2, 3, 4], [1, 0, 4, 2, 3], [4, 3, 2, 1, 0], [3, 2, 4, 0, 1], [0, 3, 2, 1, 4], [3, 4, 2, 1, 0], [4, 1, 2, 3, 0], [0, 1, 2, 4, 3]],
    [[0, 0, 0, 0, 0, 0, 0, 1], [0, 0, 1, 1, 0, 1, 1, 1], [0, 0, 0, 1, 0, 3, 4, 1], [0, 0, 0, 0, 0, 2, 4, 3], [0, 0, 0, 0, 0, 0, 0, 0], [0, 0, 0, 0, 0, 0, 3, 1], [0, 0, 0, 0, 0, 0, 0, 1], [0, 0, 0, 0, 0, 0, 0, 0]])

  lemma Piece10Framed0()
    ensures FramedFive(PIECE_10[0])
  {
  }

  lemma Piece10Framed1()
    ensures FramedFive(PIECE_10[1])
  {
  }

  lemma Piece10Framed2()
    ensures FramedFive(PIECE_10[2])
  {
  }

  lemma Piece10Framed3()
    ensures FramedFive(PIECE_10[3])
  {
  }

  lemma Piece10Framed4()
    ensures FramedFive(PIECE_10[4])
  {
  }

  lemma Piece10Framed5()
    ensures FramedFive(PIECE_10[5])
  {
  }

  lemma Piece10Framed6()
    ensures FramedFive(PIECE_10[6])
  {
  }

  lemma Piece10Framed7()
    ensures FramedFive(PIECE_10[7])
  {
  }

  lemma Piece10Image0()
    ensures ImageChecked(PIECE_10, CERT_10, 0)
  {
  }

  lemma Piece10Image1()
    ensures ImageChecked(PIECE_10, CERT_10, 1)
  {
  }

  lemma Piece10Image2()
    ensures ImageChecked(PIECE_10, CERT_10, 2)
  {
  }

  lemma Piece10Image3()
    ensures ImageChecked(PIECE_10, CERT_10, 3)
  {
  }

  lemma Piece10Image4()
    ensures ImageChecked(PIECE_10, CERT_10, 4)
  {
  }

  lemma Piece10Image5()
    ensures ImageChecked(PIECE_10, CERT_10, 5)
  {
  }

  lemma Piece10Image6()
    ensures ImageChecked(PIECE_10, CERT_10, 6)
  {
  }

  lemma Piece10Image7()
    ensures ImageChecked(PIECE_10, CERT_10, 7)
  {
  }

  lemma Piece10Slots()
    ensures SlotsChecked(PIECE_10, 4, true, CERT_10)
  {
  }

  lemma Piece10Chain()
    ensures |PIECE_10| > 0 && ChainFive(PIECE_10[0], CERT_10.order, CERT_10.parent, CERT_10.visit)
  {
  }

  lemma Piece10Differ0()
    ensures DifferRow(PIECE_10, CERT_10, 0)
  {
  }

  lemma Piece10Differ1()
    ensures DifferRow(PIECE_10, CERT_10, 1)
  {
  }

  lemma Piece10Differ2()
    ensures DifferRow(PIECE_10, CERT_10, 2)
  {
  }

  lemma Piece10Differ3()
    ensures DifferRow(PIECE_10, CERT_10, 3)
  {
  }

  lemma Piece10Differ4()
    ensures DifferRow(PIECE_10, CERT_10, 4)
  {
  }

  lemma Piece10Differ5()
    ensures DifferRow(PIECE_10, CERT_10, 5)
  {
  }

  lemma Piece10Differ6()
    ensures DifferRow(PIECE_10, CERT_10, 6)
  {
  }

  lemma Piece10Differ7()
    ensures DifferRow(PIECE_10, CERT_10, 7)
  {
  }

  lemma Piece10Framed()
    ensures AllFramed(PIECE_10)
  {
    forall k | 0 <= k < |PIECE_10| ensures FramedFive(PIECE_10[k]) {
      if k == 0 {
        Piece10Framed0();
      } else if k == 1 {
        Piece10Framed1();
      } else if k == 2 {
        Piece10Framed2();
      } else if k == 3 {
        Piece10Framed3();
      } else if k == 4 {
        Piece10Framed4();
      } else if k == 5 {
        Piece10Framed5();
      } else if k == 6 {
        Piece10Framed6();
      } else {
        Piece10Framed7();
      }
    }
  }

  lemma Piece10Images()
    ensures forall q :: 0 <= q < |SYMMETRIES| ==> ImageChecked(PIECE_10, CERT_10, q)
  {
    forall q | 0 <= q < |SYMMETRIES| ensures ImageChecked(PIECE_10, CERT_10, q) {
      if q == 0 {
        Piece10Image0();
      } else if q == 1 {
        Piece10Image1();
      } else if q == 2 {
        Piece10Image2();
      } else if q == 3 {
        Piece10Image3();
      } else if q == 4 {
        Piece10Image4();
      } else if q == 5 {
        Piece10Image5();
      } else if q == 6 {
        Piece10Image6();
      } else {
        Piece10Image7();
      }
    }
  }

  lemma Piece10Differ()
    ensures DifferChecked(PIECE_10, CERT_10)
  {
    forall j | 0 <= j < |PIECE_10| ensures DifferRow(PIECE_10, CERT_10, j) {
      if j == 0 {
        Piece10Differ0();
      } else if j == 1 {
        Piece10Differ1();
      } else if j == 2 {
        Piece10Differ2();
      } else if j == 3 {
        Piece10Differ3();
      } else if j == 4 {
        Piece10Differ4();
      } else if j == 5 {
        Piece10Differ5();
      } else if j == 6 {
        Piece10Differ6();
      } else {
        Piece10Differ7();
      }
    }
  }

  lemma Piece10Checked()
    ensures Checked(PIECE_10, 4, true, CERT_10)
  {
    Piece10Slots();
    Piece10Framed();
    Piece10Chain();
    Piece10Images();
    Piece10Differ();
  }

  lemma Piece10Valid()
    ensures ValidPiece(PIECE_10, 4, true)
  {
    Piece10Checked();
    CheckedValid(PIECE_10, 4, true, CERT_10);
  }

  // ---------------------------------------------------------------------------
  // Piece 11, the P shape

  const CERT_11 := Certificate(
    [0, 1, 2, 3, 4], [0, 0, 1, 0, 1], [0, 1, 2, 3, 4],
    [0, 1, 2, 3, 4, 5, 6, 7],
    [[0, 1, 2, 3, 4], [1, 3, 4, 0, 2], [4, 3, 2, 1, 0], [3, 1, 0, 4, 2], [2, 1, 0, 4, 3], [4, 2, 0, 3, 1], [2, 3, 4, 0, 1], [0, 2, 4, 1, 3]],
    [[0, 1, 2, 3, 4], [3, 0, 4, 1, 2], [4, 3, 2, 1, 0], [2, 1, 4, 0, 3], [2, 1, 0, 4, 3], [2, 4, 1, 3, 0], [3, 4, 0, 1, 2], [0, 3, 1, 4, 2]],
    [[0, 0, 0, 0, 3, 0, 2, 0], [0, 0, 0, 1, 0, 0, 0, 4], [0, 0, 0, 0, 2, 0, 1, 0], [0, 0, 0, 0, 0, 0, 0, 4], [0, 0, 0, 0, 0, 0, 2, 0], [0, 0, 0, 0, 0, 0, 0, 4], [0, 0, 0, 0, 0, 0, 0, 0], [0, 0, 0, 0, 0, 0, 0, 0]])

  lemma Piece11Framed0()
    ensures FramedFive(PIECE_11[0])
  {
  }

  lemma Piece11Framed1()
    ensures FramedFive(PIECE_11[1])
  {
  }

  lemma Piece11Framed2()
    ensures FramedFive(PIECE_11[2])
  {
  }

  lemma Piece11Framed3()
    ensures FramedFive(PIECE_11[3])
  {
  }

  lemma Piece11Framed4()
    ensures FramedFive(PIECE_11[4])
  {
  }

  lemma Piece11Framed5()
    ensures FramedFive(PIECE_11[5])
  {
  }

  lemma Piece11Framed6()
    ensures FramedFive(PIECE_11[6])
  {
  }

  lemma Piece11Framed7()
    ensures FramedFive(PIECE_11[7])
  {
  }

  lemma Piece11Image0()
    ensures ImageChecked(PIECE_11, CERT_11, 0)
  {
  }

  lemma Piece11Image1()
    ensures ImageChecked(PIECE_11, CERT_11, 1)
  {
  }

  lemma Piece11Image2()
    ensures ImageChecked(PIECE_11, CERT_11, 2)
  {
  }

  lemma Piece11Image3()
    ensures ImageChecked(PIECE_11, CERT_11, 3)
  {
  }

  lemma Piece11Image4()
    ensures ImageChecked(PIECE_11, CERT_11, 4)
  {
  }

  lemma Piece11Image5()
    ensures ImageChecked(PIECE_11, CERT_11, 5)
  {
  }

  lemma Piece11Image6()
    ensures ImageChecked(PIECE_11, CERT_11, 6)
  {
  }

  lemma Piece11Image7()
    ensures ImageChecked(PIECE_11, CERT_11, 7)
  {
  }

  lemma Piece11Slots()
    ensures SlotsChecked(PIECE_11, 4, true, CERT_11)
  {
  }

  lemma Piece11Chain()
    ensures |PIECE_11| > 0 && ChainFive(PIECE_11[0], CERT_11.order, CERT_11.parent, CERT_11.visit)
  {
  }

  lemma Piece11Differ0()
    ensures DifferRow(PIECE_11, CERT_11, 0)
  {
  }

  lemma Piece11Differ1()
    ensures DifferRow(PIECE_11, CERT_11, 1)
  {
  }

  lemma Piece11Differ2()
    ensures DifferRow(PIECE_11, CERT_11, 2)
  {
  }

  lemma Piece11Differ3()
    ensures DifferRow(PIECE_11, CERT_11, 3)
  {
  }

  lemma Piece11Differ4()
    ensures DifferRow(PIECE_11, CERT_11, 4)
  {
  }

  lemma Piece11Differ5()
    ensures DifferRow(PIECE_11, CERT_11, 5)
  {
  }

  lemma Piece11Differ6()
    ensures DifferRow(PIECE_11, CERT_11, 6)
  {
  }

  lemma Piece11Differ7()
    ensures DifferRow(PIECE_11, CERT_11, 7)
  {
  }

  lemma Piece11Framed()
    ensures AllFramed(PIECE_11)
  {
    forall k | 0 <= k < |PIECE_11| ensures FramedFive(PIECE_11[k]) {
      if k == 0 {
        Piece11Framed0();
      } else if k == 1 {
        Piece11Framed1();
      } else if k == 2 {
        Piece11Framed2();
      } else if k == 3 {
        Piece11Framed3();
      } else if k == 4 {
        Piece11Framed4();
      } else if k == 5 {
        Piece11Framed5();
      } else if k == 6 {
        Piece11Framed6();
      } else {
        Piece11Framed7();
      }
    }
  }

  lemma Piece11Images()
    ensures forall q :: 0 <= q < |SYMMETRIES| ==> ImageChecked(PIECE_11, CERT_11, q)
  {
    forall q | 0 <= q < |SYMMETRIES| ensures ImageChecked(PIECE_11, CERT_11, q) {
      if q == 0 {
        Piece11Image0();
      } else if q == 1 {
        Piece11Image1();
      } else if q == 2 {
        Piece11Image2();
      } else if q == 3 {
        Piece11Image3();
      } else if q == 4 {
        Piece11Image4();
      } else if q == 5 {
        Piece11Image5();
      } else if q == 6 {
        Piece11Image6();
      } else {
        Piece11Image7();
      }
    }
  }

  lemma Piece11Differ()
    ensures DifferChecked(PIECE_11, CERT_11)
  {
    forall j | 0 <= j < |PIECE_11| ensures DifferRow(PIECE_11, CERT_11, j) {
      if j == 0 {
        Piece11Differ0();
      } else if j == 1 {
        Piece11Differ1();
      } else if j == 2 {
        Piece11Differ2();
      } else if j == 3 {
        Piece11Differ3();
      } else if j == 4 {
        Piece11Differ4();
      } else if j == 5 {
        Piece11Differ5();
      } else if j == 6 {
        Piece11Differ6();
      } else {
        Piece11Differ7();
      }
    }
  }

  lemma Piece11Checked()
    ensures Checked(PIECE_11, 4, true, CERT_11)
  {
    Piece11Slots();
    Piece11Framed();
    Piece11Chain();
    Piece11Images();
    Piece11Differ();
  }

  lemma Piece11Valid()
    ensures ValidPiece(PIECE_11, 4, true)
  {
    Piece11Checked();
    CheckedValid(PIECE_11, 4, true, CERT_11);
  }

  // ---------------------------------------------------------------------------
  // The whole catalog

  lemma CatalogEntries()
    ensures PIECES[0] == PIECE_0 && DOC_ROTATIONS[0] == 1 && DOC_MIRRORED[0] == false
    ensures PIECES[1] == PIECE_1 && DOC_ROTATIONS[1] == 2 && DOC_MIRRORED[1] == false
    ensures PIECES[2] == PIECE_2 && DOC_ROTATIONS[2] == 2 && DOC_MIRRORED[2] == true
    ensures PIECES[3] == PIECE_3 && DOC_ROTATIONS[3] == 4 && DOC_MIRRORED[3] == false
    ensures PIECES[4] == PIECE_4 && DOC_ROTATIONS[4] == 4 && DOC_MIRRORED[4] == false
    ensures PIECES[5] == PIECE_5 && DOC_ROTATIONS[5] == 4 && DOC_MIRRORED[5] == false
    ensures PIECES[6] == PIECE_6 && DOC_ROTATIONS[6] == 4 && DOC_MIRRORED[6] == false
    ensures PIECES[7] == PIECE_7 && DOC_ROTATIONS[7] == 4 && DOC_MIRRORED[7] == true
    ensures PIECES[8] == PIECE_8 && DOC_ROTATIONS[8] == 4 && DOC_MIRRORED[8] == true
    ensures PIECES[9] == PIECE_9 && DOC_ROTATIONS[9] == 4 && DOC_MIRRORED[9] == true
    ensures PIECES[10] == PIECE_10 && DOC_ROTATIONS[10] == 4 && DOC_MIRRORED[10] == true
    ensures PIECES[11] == PIECE_11 && DOC_ROTATIONS[11] == 4 && DOC_MIRRORED[11] == true
  {
  }

  /** Every piece is what the comment above it says it is. */
  lemma CatalogValid()
    ensures |PIECES| == |DOC_ROTATIONS| == |DOC_MIRRORED| == 12
    ensures forall i :: 0 <= i < |PIECES| ==> ValidPiece(PIECES[i], DOC_ROTATIONS[i], DOC_MIRRORED[i])
  {
    CatalogEntries();
    forall i | 0 <= i < |PIECES| ensures ValidPiece(PIECES[i], DOC_ROTATIONS[i], DOC_MIRRORED[i]) {
      if i == 0 {
        Piece0Valid();
      } else if i == 1 {
        Piece1Valid();
      } else if i == 2 {
        Piece2Valid();
      } else if i == 3 {
        Piece3Valid();
      } else if i == 4 {
        Piece4Valid();
      } else if i == 5 {
        Piece5Valid();
      } else if i == 6 {
        Piece6Valid();
      } else if i == 7 {
        Piece7Valid();
      } else if i == 8 {
        Piece8Valid();
      } else if i == 9 {
        Piece9Valid();
      } else if i == 10 {
        Piece10Valid();
      } else {
        Piece11Valid();
      }
    }
  }

}
