/**
 * Cube geometry shared by the concrete cube and the rotation relation.
 *
 * The six faces are numbered by axis and sign (X-, X+, Y-, Y+, Z-, Z+ as
 * 0..5), so `face / 2` is the axis and `face % 2` the sign; two faces on the
 * same axis are opposite.  Square `pos` of a face is the grid cell
 * (vpos, hpos) = (pos / 3, pos % 3): coordinate 0 touches the neighbour on
 * the negative side along that grid direction, 2 the one on the positive
 * side, 1 neither.
 */
module Geometry {

  type Face = f: int | 0 <= f < 6
  type Square = s: int | 0 <= s < 9

  /** The four edges of a face: horizontal/vertical, positive/negative. */
  datatype NeighborDirection = HP | VP | HN | VN

  /** The face on the same axis with the negative sign (`(face >> 1) << 1`). */
  function NegativeFace(face: Face): Face
  {
    face / 2 * 2
  }

  /** The neighbour across edge `dir` of `face`; every face of the other two axes is one. */
  function NeighborFace(face: Face, dir: NeighborDirection): Face
  {
    match dir
    case HN => (NegativeFace(face) + 2) % 6
    case HP => (NegativeFace(face) + 3) % 6
    case VN => (NegativeFace(face) + 4) % 6
    case VP => (NegativeFace(face) + 5) % 6
  }

  /** Whether square `pos` of `face` touches `neighborFace`. */
  function IsAttached(face: Face, pos: Square, neighborFace: Face): bool
  {
    if face / 2 == neighborFace / 2 then false
    else
      var negFace := NegativeFace(face);
      var negNeighborFace := NegativeFace(neighborFace);
      var neighborDir := neighborFace % 2 * 2;
      var vpos := pos / 3;
      var hpos := pos % 3;
      if (negNeighborFace + 6 - negFace) % 6 == 4 then vpos == neighborDir
      else hpos == neighborDir
  }

  /**
   * The square of the neighbour across edge `dir` that touches square
   * `position` of `face`, or -1 when `position` does not lie on that edge.
   * (The source's test `n_dir == n_dir == HP` is a chained comparison and
   * means `n_dir == HP`.)
   */
  function NeighborArrayPos(face: Face, position: Square, dir: NeighborDirection): int
  {
    var vpos := position / 3;
    var hpos := position % 3;
    var selfPos := face % 2 * 2;
    var nvpos := if dir == HN || dir == HP then selfPos else hpos;
    var nhpos := if dir == HN || dir == HP then vpos else selfPos;
    if (dir == HP && hpos != 2) || (dir == HN && hpos != 0)
       || (dir == VP && vpos != 2) || (dir == VN && vpos != 0)
    then -1
    else nvpos * 3 + nhpos
  }

  /** The edge of `face` across which the off-axis face `other` lies. */
  function DirectionTo(face: Face, other: Face): (d: NeighborDirection)
    requires face / 2 != other / 2
    ensures NeighborFace(face, d) == other
  {
    var diff := (NegativeFace(other) + 6 - NegativeFace(face)) % 6;
    if diff == 2 then (if other % 2 == 0 then HN else HP)
    else (if other % 2 == 0 then VN else VP)
  }

  /** The edge of the neighbour across `dir` that leads back to `face`. */
  function BackDirection(face: Face, dir: NeighborDirection): NeighborDirection
  {
    if dir == HN || dir == HP then (if face % 2 == 0 then VN else VP)
    else (if face % 2 == 0 then HN else HP)
  }

  /**
   * Order in which a forward turn carries the edge strips around a face:
   * the HN strip moves onto VN, VN onto HP, HP onto VP and VP onto HN.
   */
  function Next(d: NeighborDirection): NeighborDirection
  {
    match d
    case HN => VN
    case VN => HP
    case HP => VP
    case VP => HN
  }

  /** The strip that a forward turn carries onto edge `d`. */
  function Previous(d: NeighborDirection): NeighborDirection
  {
    match d
    case VN => HN
    case HP => VN
    case VP => HP
    case HN => VP
  }

  /** The quarter-turn of a face's own squares: square i moves to RotationMap(i). */
  function RotationMap(i: Square): Square
  {
    [2, 5, 8, 1, 4, 7, 0, 3, 6][i]
  }

  /** The square that a quarter-turn moves onto square s. */
  function InverseRotation(s: Square): Square
  {
    [6, 3, 0, 7, 4, 1, 8, 5, 2][s]
  }

  // ---------------------------------------------------------------------
  // Facts about the adjacency algebra.
  // ---------------------------------------------------------------------

  lemma LookupMatchesAttachment(face: Face, pos: Square, dir: NeighborDirection)
    ensures NeighborArrayPos(face, pos, dir) >= 0 <==> IsAttached(face, pos, NeighborFace(face, dir))
  {
  }

  lemma LookupSentinel(face: Face, pos: Square, dir: NeighborDirection)
    ensures NeighborArrayPos(face, pos, dir) < 0 ==> NeighborArrayPos(face, pos, dir) == -1
    ensures NeighborArrayPos(face, pos, dir) < 9
  {
  }

  lemma LookupAttachedBack(face: Face, pos: Square, dir: NeighborDirection)
    requires NeighborArrayPos(face, pos, dir) >= 0
    ensures IsAttached(NeighborFace(face, dir), NeighborArrayPos(face, pos, dir), face)
  {
  }

  /**
   * Adjacency agreement: the edge lookup succeeds exactly for the squares
   * attached to the neighbour across that edge, otherwise it is -1, and a
   * successful lookup is a square of that neighbour attached to `face`.
   */
  lemma AdjacencyAgreement(face: Face, pos: Square, dir: NeighborDirection)
    ensures NeighborArrayPos(face, pos, dir) >= 0 <==> IsAttached(face, pos, NeighborFace(face, dir))
    ensures NeighborArrayPos(face, pos, dir) < 0 ==> NeighborArrayPos(face, pos, dir) == -1
    ensures NeighborArrayPos(face, pos, dir) >= 0 ==>
              NeighborArrayPos(face, pos, dir) < 9
              && IsAttached(NeighborFace(face, dir), NeighborArrayPos(face, pos, dir), face)
  {
    LookupMatchesAttachment(face, pos, dir);
    LookupSentinel(face, pos, dir);
    if NeighborArrayPos(face, pos, dir) >= 0 {
      LookupAttachedBack(face, pos, dir);
    }
  }

  lemma BackDirectionLeadsBack(face: Face, dir: NeighborDirection)
    ensures NeighborFace(face, dir) / 2 != face / 2
    ensures DirectionTo(NeighborFace(face, dir), face) == BackDirection(face, dir)
  {
  }

  lemma LookupBackAndForth(face: Face, pos: Square, dir: NeighborDirection)
    requires NeighborArrayPos(face, pos, dir) >= 0
    ensures var q := NeighborArrayPos(face, pos, dir);
            0 <= q < 9 && NeighborArrayPos(NeighborFace(face, dir), q, BackDirection(face, dir)) == pos
  {
  }

  /**
   * Adjacency round trip: stepping from a square across an edge and then
   * back across the matching edge of the neighbour returns to that square.
   */
  lemma NeighborRoundTrip(face: Face, pos: Square, dir: NeighborDirection)
    requires NeighborArrayPos(face, pos, dir) >= 0
    ensures var n := NeighborFace(face, dir);
            var q := NeighborArrayPos(face, pos, dir);
            n / 2 != face / 2 && 0 <= q < 9
            && NeighborArrayPos(n, q, DirectionTo(n, face)) == pos
  {
    BackDirectionLeadsBack(face, dir);
    LookupBackAndForth(face, pos, dir);
  }

  /** Each edge names a different neighbour, so the edge is recovered from the face. */
  lemma DirectionToNeighbor(face: Face, dir: NeighborDirection)
    ensures NeighborFace(face, dir) / 2 != face / 2
    ensures DirectionTo(face, NeighborFace(face, dir)) == dir
  {
  }

  lemma RotationTable(i: Square)
    ensures RotationMap(i) == 3 * (i % 3) + (2 - i / 3)
    ensures InverseRotation(RotationMap(i)) == i && RotationMap(InverseRotation(i)) == i
  {
    if i == 0 {} else if i == 1 {} else if i == 2 {} else if i == 3 {} else if i == 4 {}
    else if i == 5 {} else if i == 6 {} else if i == 7 {} else {}
  }

  /** A quarter-turn carries the squares on edge `d` onto edge `Next(d)`. */
  lemma RotationCarriesEdges(face: Face, i: Square, d: NeighborDirection)
    ensures NeighborArrayPos(face, i, d) >= 0 <==> NeighborArrayPos(face, RotationMap(i), Next(d)) >= 0
  {
    RotationTable(i);
  }

  /** Four quarter-turns of a face's own squares are the identity; the centre is fixed. */
  lemma {:induction false} InverseRotationOrderFour(s: Square)
    ensures InverseRotation(InverseRotation(InverseRotation(InverseRotation(s)))) == s
    ensures InverseRotation(4) == 4 && RotationMap(4) == 4
  {
    if s == 0 {} else if s == 1 {} else if s == 2 {} else if s == 3 {} else if s == 4 {}
    else if s == 5 {} else if s == 6 {} else if s == 7 {} else {}
  }

  /** A face and its four edge neighbours are five different faces. */
  lemma NeighborsDistinct(face: Face)
    ensures var hn, hp, vn, vp := NeighborFace(face, HN), NeighborFace(face, HP), NeighborFace(face, VN), NeighborFace(face, VP);
            face != hn && face != hp && face != vn && face != vp
            && hn != hp && hn != vn && hn != vp && hp != vn && hp != vp && vn != vp
  {
  }

  /** The faces off the axis of `face` are exactly its four edge neighbours. */
  lemma NeighborsOffAxis(face: Face, other: Face)
    ensures face / 2 != other / 2 <==>
              other in {NeighborFace(face, HN), NeighborFace(face, HP), NeighborFace(face, VN), NeighborFace(face, VP)}
  {
  }
}
