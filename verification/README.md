# Hexed puzzle pieces

A model of the piece catalog and the report printer of a finder for
solutions of the "Hexed" pentomino puzzle (a 6 by 10 board filled with
twelve five-cell pieces). The program as it stands holds no search. It
defines every orientation of each of the twelve pieces as an explicit
record and prints each orientation as a small grid of `#` characters.

## What is modelled

- **Orientation records.** `Coord(x, y)` (src/main.rs:50) becomes the
  datatype `Geometry.Coord` of two naturals.
  `PieceInfo { width, height, p: [Coord; 5] }` (src/main.rs:52-56) becomes
  `Geometry.PieceInfo(width, height, p: seq<Coord>)`. That a record has exactly five
  cells is a checked property (`Geometry.Framed`), not a type.
  Module `Geometry`, file `geometry.dfy`.
- **The catalog.** The 63 `PIECE_i_j` constants (src/main.rs:60-414) are
  copied cell for cell in source order as `Catalog.PIECE_i_j`, as are the
  twelve `PIECE_i` lists (src/main.rs:416-427) and `PIECES`
  (src/main.rs:429). The comment above each piece says how many rotations it
  has and whether the "same again mirrored" follows; those counts are the
  constants `Catalog.DOC_ROTATIONS` and `Catalog.DOC_MIRRORED`. Module
  `Catalog`, file `catalog.dfy`.
- **What the catalog promises.** The comments promise that every piece has
  five cells, that the list holds the stated number of rotations, and, where
  they say "same again mirrored", the mirror images after them. Every
  rotation and mirror image of the first entry appears in the list, and no
  entry repeats another. `Catalog.ValidPiece` states this, together with five
  different cells inside a tight box, all edge-connected.
- **What the data also satisfies.** The comments state the order of the
  entries only for piece 2 (src/main.rs:89, 94, 99); for pieces 7 to 11 they
  only mark where the mirrored entries start. The data nevertheless follows
  one fixed order, and `Catalog.Documented` (part of `ValidPiece`) states it:
  entry `k` is the first entry turned clockwise `k` times, mirrored left to
  right first for the entries after the rotations. The rotations and mirror
  images are defined once, in closed form, in `Geometry.Transform`. They are
  related to step-by-step quarter turns and to their inverses.
- **Checking the catalog.** Each piece comes with a certificate, checked by
  evaluation:
  - a chain through the cells of its first orientation;
  - for each of the eight symmetries, the entry it leads to, with the index
    correspondence between the cells;
  - for entries with the same box, a cell that tells them apart.

  `Catalog.CheckedValid` turns a checked certificate into `ValidPiece`.
  Module `CatalogProofs` (file `catalog_proofs.dfy`) checks the twelve
  certificates and proves `CatalogValid`.
- **The drawings in the comments.** Module `Drawings` proves that the first
  orientation of every piece draws exactly as the comment above it.
- **Rendering.** `Render.FillGrid` writes `#` into a `height` by `width` grid
  of blanks (an `array2<char>`), one cell after the other. `Render.RenderRows`
  reads the grid out row by row. Both are proved against the specification
  function `Render.Picture`.
- **The program.** `Report.Run` and `Report.PrintPiece` print every
  orientation's rows and a blank line, piece by piece, with the 30-dash
  delimiter (`Report.DELIMITER`, src/main.rs:444) after each piece. They are
  proved to produce `Report.ReportLines`.
  The partner of printing is reading back:
  - `Report.ReadReportBack`: cutting the output at the delimiters and then at
    the blank lines recovers every drawing;
  - `Report.ReportShowsCells`: each recovered drawing shows exactly its
    orientation's cells;
  - `CatalogReport`: for the real catalog, this gives 12 pieces with 1, 2, 4,
    4, 4, 4, 4, 8, 8, 8, 8, 8 drawings, and 12 delimiter lines and 63 blank
    lines in all.

The piece names used in comments (X, I, Z, W, U, T, V, L, Y, N, F, P) are the
usual pentomino names. They are not part of the program, which numbers the
pieces 0 to 11.

The comments of the program disagree with each other in one place. The
overview at the head of `src/main.rs` (lines 42-44) draws piece 10 turned half
a turn. The comment on the piece itself (lines 329-331) draws it as
`PIECE_10_0` lists it. The program's data follows the piece comment.
`Drawings.OverviewDrawsPiece10Turned` and `Drawings.Piece10HalfTurn` show that
the overview's drawing is the third orientation, `PIECE_10_2`: the same piece,
turned half a turn. Since only a comment is involved, the model follows the
data.

## Model

| member | source | states |
|---|---|---|
| Geometry.DistinctCount | src/main.rs:55 | a record of pairwise different cells occupies as many squares as it lists, so five distinct cells cover five squares |
| Geometry.ChainConnected | src/main.rs:6 | a spanning chain (each cell after the first next to an earlier one) makes the cells one edge-connected region |
| Geometry.OrderConnected | src/main.rs:6 | the cells of an orientation visited in a chain order that reaches every cell form one edge-connected region |
| Geometry.TransformIsRotations | src/main.rs:14 | the closed-form symmetry "mirror, then turn clockwise k times" is exactly k successive quarter turns of the (mirrored) orientation |
| Geometry.TransformStep | src/main.rs:18 | one more quarter turn in the closed form equals rotating the already-turned orientation once more |
| Geometry.FourTurns | src/main.rs:18 | four quarter turns give back the same orientation, cell for cell, so a piece never has more than four rotations |
| Geometry.MirrorTwice | src/main.rs:33 | mirroring twice gives back the same orientation, cell for cell |
| Geometry.TransformInverse | src/main.rs:5-47 | every rotation or mirror image is undone by its inverse symmetry: applying both gives back the orientation |
| Geometry.MoveInverse | src/main.rs:5-47 | the inverse symmetry sends every moved cell back to its place and restores the box |
| Geometry.MoveUndo | src/main.rs:5-47 | applying the inverse first and then the symmetry also gives every cell of the turned box back |
| Geometry.MoveAdjacent | src/main.rs:6 | rotating or mirroring keeps two edge-adjacent cells edge-adjacent |
| Geometry.TransformConnected | src/main.rs:6 | a rotation or mirror image of an edge-connected piece is edge-connected |
| Geometry.ImageBySameShape | src/main.rs:60-414 | an orientation matched cell by cell (both directions) with the image of another under a symmetry has exactly the cells and box of that image |
| Geometry.ImageConnected | src/main.rs:60-414 | every orientation so matched with a connected one is connected |
| Geometry.DifferAt | src/main.rs:60-414 | a cell of one orientation missing from another shows that their cell sets differ |
| Geometry.TightIsSmallest | src/main.rs:52-56 | a box touched by the cells on all four sides is the smallest box holding them |
| Geometry.BoxFromCells | src/main.rs:52-56 | two tight orientations with the same cells have the same width and height |
| Geometry.FramedFiveSound | src/main.rs:52-56 | the cell-by-cell check of a five-cell record implies five distinct cells inside a tight box |
| Geometry.ImageFiveSound | src/main.rs:55 | the cell-by-cell check of a five-cell correspondence implies the general one |
| Geometry.ChainFiveConnected | src/main.rs:55 | the cell-by-cell chain check of a five-cell record implies that its cells are edge-connected |
| Catalog.Documented | src/main.rs:5-47 | a piece is listed as its comment says: the stated number of rotations, twice over when "same again mirrored", entry k being the first turned clockwise k times (mirrored first after the rotations), and every rotation and mirror image of the first entry listed in the part of the list where it belongs |
| Catalog.ValidPiece | src/main.rs:5-47 | everything the catalog promises of one piece: documented as above, every orientation five distinct edge-connected cells in a tight box, and no two orientations with the same cells |
| Catalog.DistinctByBox | src/main.rs:60-414 | orientations with tight boxes differ when their boxes differ, so only same-box pairs need telling apart |
| Catalog.Slot | src/main.rs:5-47 | a documented piece lists the shape of its first orientation under any symmetry in the place its comment implies: among the rotations, or among the mirrored entries for a mirror image of a piece that has them |
| Catalog.SlotUnique | src/main.rs:60-414 | in a valid piece no shape is listed at two positions |
| Catalog.ListedOnce | src/main.rs:60-414 | each of the eight symmetries takes the first orientation of a valid piece to exactly one listed orientation |
| Catalog.MirroredIsChiral | src/main.rs:14 | a valid piece listed as "same again mirrored" is chiral: no turn of it has the cells of any turn of its mirror image |
| Catalog.TurnFor | src/main.rs:8-31 | for a piece listed without mirrored entries, the turn that has the shape of any given symmetry of it |
| Catalog.UnmirroredIsSymmetric | src/main.rs:8-31 | a valid piece listed without "same again mirrored" has every mirror image among its own turns |
| Catalog.SymmetryIndex | src/main.rs:5-47 | the position of a symmetry in the list of all eight, which holds that symmetry |
| Catalog.TellApartSound | src/main.rs:60-414 | a cell of one five-cell record that is none of another's five shows their cells differ |
| Catalog.CheckedImage | src/main.rs:60-414 | a checked certificate places the image of the first orientation under each symmetry at its slot, inside the documented range |
| Catalog.CheckedDocumented | src/main.rs:5-47 | a checked piece is listed as its comment describes: entry k is the first entry turned k times (mirrored after the rotations), and every rotation and mirror image is listed |
| Catalog.CheckedWellFormed | src/main.rs:5-6 | every orientation of a checked piece has five distinct, edge-connected cells in a tight box |
| Catalog.CheckedDistinct | src/main.rs:60-414 | no two orientations of a checked piece have the same cells |
| Catalog.CheckedValid | src/main.rs:58-414 | a checked certificate makes a piece valid: documented, well formed and without repeats |
| CatalogProofs.Piece0Valid | src/main.rs:60-67 | piece 0 (X) is valid with one rotation: 1 distinct, connected, tightly boxed orientations, every rotation listed in order |
| CatalogProofs.Piece1Valid | src/main.rs:69-79 | piece 1 (I) is valid with two rotations: 2 distinct, connected, tightly boxed orientations, every rotation listed in order |
| CatalogProofs.Piece2Valid | src/main.rs:81-103 | piece 2 (Z) is valid with two rotations, same again mirrored: 4 distinct, connected, tightly boxed orientations, every rotation and mirror image listed in order |
| CatalogProofs.Piece3Valid | src/main.rs:105-127 | piece 3 (W) is valid with four rotations: 4 distinct, connected, tightly boxed orientations, every rotation listed in order |
| CatalogProofs.Piece4Valid | src/main.rs:129-150 | piece 4 (U) is valid with four rotations: 4 distinct, connected, tightly boxed orientations, every rotation listed in order |
| CatalogProofs.Piece5Valid | src/main.rs:152-174 | piece 5 (T) is valid with four rotations: 4 distinct, connected, tightly boxed orientations, every rotation listed in order |
| CatalogProofs.Piece6Valid | src/main.rs:176-198 | piece 6 (V) is valid with four rotations: 4 distinct, connected, tightly boxed orientations, every rotation listed in order |
| CatalogProofs.Piece7Valid | src/main.rs:200-241 | piece 7 (L) is valid with four rotations, same again mirrored: 8 distinct, connected, tightly boxed orientations, every rotation and mirror image listed in order |
| CatalogProofs.Piece8Valid | src/main.rs:243-284 | piece 8 (Y) is valid with four rotations, same again mirrored: 8 distinct, connected, tightly boxed orientations, every rotation and mirror image listed in order |
| CatalogProofs.Piece9Valid | src/main.rs:286-327 | piece 9 (N) is valid with four rotations, same again mirrored: 8 distinct, connected, tightly boxed orientations, every rotation and mirror image listed in order |
| CatalogProofs.Piece10Valid | src/main.rs:329-371 | piece 10 (F) is valid with four rotations, same again mirrored: 8 distinct, connected, tightly boxed orientations, every rotation and mirror image listed in order |
| CatalogProofs.Piece11Valid | src/main.rs:373-414 | piece 11 (P) is valid with four rotations, same again mirrored: 8 distinct, connected, tightly boxed orientations, every rotation and mirror image listed in order |
| CatalogProofs.CatalogValid | src/main.rs:58-429 | all twelve pieces of the catalog are valid with the counts their comments state |
| Drawings.Piece0Drawing | src/main.rs:60-67 | the first orientation of piece 0 draws exactly as the comment above it |
| Drawings.Piece1Drawing | src/main.rs:69-74 | the first orientation of piece 1 draws exactly as the comment above it |
| Drawings.Piece2Drawing | src/main.rs:81-88 | the first orientation of piece 2 draws exactly as the comment above it |
| Drawings.Piece3Drawing | src/main.rs:105-112 | the first orientation of piece 3 draws exactly as the comment above it |
| Drawings.Piece4Drawing | src/main.rs:129-135 | the first orientation of piece 4 draws exactly as the comment above it |
| Drawings.Piece5Drawing | src/main.rs:152-159 | the first orientation of piece 5 draws exactly as the comment above it |
| Drawings.Piece6Drawing | src/main.rs:176-183 | the first orientation of piece 6 draws exactly as the comment above it |
| Drawings.Piece7Drawing | src/main.rs:200-206 | the first orientation of piece 7 draws exactly as the comment above it |
| Drawings.Piece8Drawing | src/main.rs:243-249 | the first orientation of piece 8 draws exactly as the comment above it |
| Drawings.Piece9Drawing | src/main.rs:286-292 | the first orientation of piece 9 draws exactly as the comment above it |
| Drawings.Piece10Drawing | src/main.rs:329-336 | the first orientation of piece 10 draws exactly as the comment above it |
| Drawings.Piece11Drawing | src/main.rs:373-379 | the first orientation of piece 11 draws exactly as the comment above it |
| Drawings.OverviewDrawsPiece10Turned | src/main.rs:42-44 | the overview's drawing of piece 10 is that of its third orientation and not its first |
| Drawings.Piece10HalfTurn | src/main.rs:332-346 | the third orientation of piece 10 is its first turned half a turn, so the overview still shows the right piece |
| Render.FillGrid | src/main.rs:434-437 | the grid is height by width and holds `#` exactly at the cells of the orientation and a blank elsewhere |
| Render.RenderRows | src/main.rs:438-441 | the printed rows are the orientation's picture: one row per grid row, one character per column |
| Render.PictureShowsCells | src/main.rs:434-441 | the `#` positions of the picture are exactly the orientation's cells |
| Render.SameShapeSamePicture | src/main.rs:434-441 | the picture depends only on the box and the set of cells, not on their order |
| Render.DistinctPictures | src/main.rs:434-441 | orientations with different cells are drawn differently |
| Render.FiveMarks | src/main.rs:434-437 | a framed orientation's picture shows exactly five `#` |
| Report.TerminatedAppend | src/main.rs:442-444 | printing one more block and its separator appends them to the output so far |
| Report.FirstIndex | src/main.rs:442-444 | the first separator line: it is the separator and none comes before it |
| Report.FirstIndexAfter | src/main.rs:442-444 | the first separator after a stretch of lines without one is the one that closes the stretch |
| Report.SplitTerminated | src/main.rs:442-444 | cutting at separators recovers the blocks, provided no block contains the separator |
| Report.PieceLines | src/main.rs:433-443 | what is printed for one piece starts with the first orientation's drawing and ends with a blank line |
| Report.ReportLines | src/main.rs:431-446 | what the program prints starts with the first piece's lines and ends with the 30-dash delimiter |
| Report.PrintPiece | src/main.rs:433-443 | the lines printed for a piece are each orientation's rows followed by a blank line |
| Report.Run | src/main.rs:431-446 | the lines printed for all pieces are each piece's lines followed by the 30-dash delimiter |
| Report.RowsAreNotSeparators | src/main.rs:438-444 | a row of `#` and blanks is never the delimiter, and never blank when the box has a column |
| Report.NoDelimiterInPiece | src/main.rs:438-444 | the lines printed for one piece never include the delimiter |
| Report.ReadReportBack | src/main.rs:431-446 | cutting the output at delimiters and then at blank lines gives back every drawing, piece by piece, in order |
| Report.ReportShowsCells | src/main.rs:431-446 | the output read back shows, for each piece and orientation, exactly that orientation's cells |
| CatalogReport.WellFormedIsPrintable | src/main.rs:434-437 | a well-formed orientation fits its grid (no out-of-range write) and is at least one column wide |
| CatalogReport.CatalogPrintable | src/main.rs:431-437 | every orientation of the catalog can be written into its grid without an out-of-range index |
| CatalogReport.CatalogReportReadsBack | src/main.rs:416-446 | the program's output reads back as 12 pieces with 1, 2, 4, 4, 4, 4, 4, 8, 8, 8, 8, 8 drawings, each showing exactly its orientation's cells |
| Render.Picture | src/main.rs:434-441 | a drawing has `height` rows of `width` characters each, every one `#` or a blank |
| Report.CountTerminated | src/main.rs:442-444 | the output holds the lines of the blocks plus exactly one separator line per block |
| Report.CountInNone | src/main.rs:438-444 | blocks that never hold a given line contribute none of it |
| Report.DelimiterLines | src/main.rs:444 | the output holds exactly one delimiter line per piece |
| Report.PieceBlankLines | src/main.rs:442 | a piece's lines hold exactly one blank line per orientation |
| Report.BlankLinesIn | src/main.rs:432-443 | all the pieces' lines together hold one blank line per orientation |
| Report.BlankLines | src/main.rs:431-446 | the whole output holds exactly one blank line per orientation (the delimiter is never blank) |
| CatalogReport.CatalogOrientationTotal | src/main.rs:416-429 | the catalog lists 63 orientations in all |
| CatalogReport.CatalogLineCounts | src/main.rs:431-446 | the output over the catalog holds exactly 12 delimiter lines and 63 blank lines |

## Left out

- Printing: `println!` and `print!` are modelled as a returned sequence of
  lines. Every line the program prints ends with a newline, so the text
  printed is those lines, each followed by `\n`. Write errors on the output
  stream are not modelled.
- Render.FillGrid: requires every cell to lie inside the box. The program
  indexes `piece_array[p.1][p.0]` and would panic on a cell outside it; the
  model rules that case out. `CatalogReport.CatalogPrintable` proves that no
  orientation of the catalog has such a cell.
- Render.RenderRows: requires every cell inside the box, as `FillGrid` does.
- Report.PrintPiece: requires every cell of every orientation inside its box,
  as `FillGrid` does.
- Report.Run: requires every cell of every orientation of every piece inside
  its box, as `FillGrid` does.
- Report.ReadReportBack: reads back only orientations at least one column
  wide, because a zero-width row would print as a blank line and read as a
  separator. Every orientation of the catalog is at least one column wide
  (`CatalogReport.CatalogPrintable`).
- Report.BlankLines: counts blank lines under the same at-least-one-column
  hypothesis, for the same reason.
- The 6 by 10 board and the search for a solution are described in the
  program's overview comment, but no code implements them. They are not
  modelled.
- `usize` widths, heights and coordinates are modelled as unbounded naturals.
  All values in the catalog are below 6, so no overflow can occur.
- The comments draw each piece without the blanks at the end of a row. The
  pictures in `Drawings` are written out to the full width of the box,
  because that is what the program prints.
- Only the first orientation of each piece has a drawing in a comment. The
  other orientations are tied to it by `CatalogProofs.CatalogValid`, not by
  drawings.
