/**
 * The unfolded print layout of `ValueCube.get_face_id_index`: a grid of 9
 * columns (x) by 12 rows (y) holding a cross of the six faces, Z- on top,
 * then X-, Z+ and X+ down the middle column, with Y- and Y+ left and
 * right of X-.
 */
module Layout {
  import opened Geometry

  /** A grid cell inside the cross; anything else prints blank. */
  predicate InCross(x: int, y: int)
  {
    0 <= x < 9 && 0 <= y < 12 && (y / 3 == 1 || x / 3 == 1)
  }

  /** `get_face_id_index`: the sticker shown in cell (x, y), or (-1, 0) outside the cross. */
  function FaceIdIndex(x: int, y: int): (r: (int, int))
    requires 0 <= x < 9 && 0 <= y < 12
  {
    if y / 3 != 1 && x / 3 != 1 then (-1, 0)
    else
      var (face, vpos, hpos) :=
        if y / 3 == 0 then (4, x - 3, 2 - y)
        else if y / 3 == 3 then (1, 11 - y, x - 3)
        else if y / 3 == 2 then (5, x - 3, y - 6)
        else if x / 3 == 0 then (2, 2 - x, y - 3)
        else if x / 3 == 1 then (0, y - 3, x - 3)
        else (3, x - 6, y - 3);
      (face, vpos * 3 + hpos)
  }

  /** Where sticker (face, square) is drawn. */
  function CellOf(face: Face, square: Square): (int, int)
  {
    var vpos, hpos := square / 3, square % 3;
    if face == 4 then (vpos + 3, 2 - hpos)
    else if face == 1 then (hpos + 3, 11 - vpos)
    else if face == 5 then (vpos + 3, hpos + 6)
    else if face == 2 then (2 - vpos, hpos + 3)
    else if face == 0 then (hpos + 3, vpos + 3)
    else (vpos + 6, hpos + 3)
  }

  /** Cells outside the cross show nothing; inside, a real sticker. */
  lemma FaceIdIndexRange(x: int, y: int)
    requires 0 <= x < 9 && 0 <= y < 12
    ensures var (face, index) := FaceIdIndex(x, y);
      if InCross(x, y) then 0 <= face < 6 && 0 <= index < 9 else face == -1 && index == 0
  {
  }

  /** Every sticker is drawn in the cross, in a cell that shows it. */
  lemma StickerDrawnOnce(face: Face, square: Square)
    ensures var (x, y) := CellOf(face, square);
      InCross(x, y) && FaceIdIndex(x, y) == (face as int, square as int)
  {
  }

  /** Every cell of the cross shows the sticker drawn there. */
  lemma CellShowsItsSticker(x: int, y: int)
    requires InCross(x, y)
    ensures var (face, index) := FaceIdIndex(x, y);
      0 <= face < 6 && 0 <= index < 9 && CellOf(face, index) == (x, y)
  {
  }

  /**
   * The net folds into the cube: two cells side by side in the grid that
   * show stickers of different faces show stickers that touch across the
   * edge between those faces.
   */
  lemma NetFolds(x: int, y: int, x': int, y': int)
    requires InCross(x, y) && InCross(x', y')
    requires (x' == x + 1 && y' == y) || (x' == x && y' == y + 1)
    requires FaceIdIndex(x, y).0 != FaceIdIndex(x', y').0
    ensures var (a, sa) := FaceIdIndex(x, y);
      var (b, sb) := FaceIdIndex(x', y');
      0 <= a < 6 && 0 <= b < 6 && 0 <= sa < 9 && 0 <= sb < 9 && a / 2 != b / 2
      && NeighborArrayPos(a, sa, DirectionTo(a, b)) == sb
  {
  }
}
