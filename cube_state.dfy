/**
 * The symbolic cube state (`CubeState`).  Every constraint the source
 * emits between two states is an equality between one square of each, so a
 * constraint set is modelled by its meaning: a predicate over the two cubes
 * of colours that a solver's model would assign to the two states.
 */
module CubeStates {
  import opened Geometry
  import opened ValueCubes

  /**
   * The equality emitted for the strip square of edge d touching square i:
   * the source square across d equals, after the turn, the square across
   * Next(d) touching RotationMap(i).
   */
  predicate StripConstraint(src: Cube, dst: Cube, face: Face, i: Square, d: NeighborDirection)
  {
    var pos := NeighborArrayPos(face, i, d);
    pos >= 0 ==>
      (RotationCarriesEdges(face, i, d);
       AdjacencyAgreement(face, RotationMap(i), Next(d));
       src[NeighborFace(face, d)][pos] == dst[NeighborFace(face, Next(d))][NeighborArrayPos(face, RotationMap(i), Next(d))])
  }

  /** The constraints `__rotate_face` emits in iteration i of its first loop. */
  predicate StepConstraints(src: Cube, dst: Cube, face: Face, i: Square)
  {
    && src[face][i] == dst[face][RotationMap(i)]
    && StripConstraint(src, dst, face, i, HN)
    && StripConstraint(src, dst, face, i, VN)
    && StripConstraint(src, dst, face, i, HP)
    && StripConstraint(src, dst, face, i, VP)
  }

  /** `src.__rotate_face(dst, face)`: the relation of a forward turn of `face`. */
  predicate ForwardRelation(src: Cube, dst: Cube, face: Face)
  {
    && (forall i :: 0 <= i < 9 ==> StepConstraints(src, dst, face, i))
    && (forall f, j :: 0 <= f < 6 && 0 <= j < 9 && f != face && !IsAttached(f, j, face) ==> src[f][j] == dst[f][j])
  }

  /** `__rotate_nothing` and `set_value_constraints`: all 54 squares equal. */
  predicate AllSquaresEqual(a: Cube, b: Cube)
  {
    forall f, i :: 0 <= f < 6 && 0 <= i < 9 ==> a[f][i] == b[f][i]
  }

  /**
   * `rotate_face(src, dst, face, dir)`: face 6 is idle; direction 0 is the
   * forward relation, any other direction the forward relation with the
   * roles of the two states swapped.
   */
  predicate RotateRelation(src: Cube, dst: Cube, face: int, dir: int)
    requires 0 <= face <= 6
  {
    if face == 6 then AllSquaresEqual(src, dst)
    else if dir == 0 then ForwardRelation(src, dst, face)
    else ForwardRelation(dst, src, face)
  }

  /** The equality constraints over 54 squares hold exactly when the two cubes are equal. */
  lemma AllSquaresEqualIsEquality(a: Cube, b: Cube)
    ensures AllSquaresEqual(a, b) <==> a == b
  {
    if AllSquaresEqual(a, b) {
      CubeExtensionality(a, b);
    }
  }

  /** The constraints of a forward turn are met by the concrete forward turn. */
  lemma TurnMeetsRelation(src: Cube, face: Face)
    ensures ForwardRelation(src, Turn(src, face), face)
  {
    var dst := Turn(src, face);
    forall i | 0 <= i < 9
      ensures StepConstraints(src, dst, face, i)
    {
      OwnFaceWrite(src, face, i);
      forall d: NeighborDirection | NeighborArrayPos(face, i, d) >= 0
        ensures StripConstraint(src, dst, face, i, d)
      {
        StripWrite(src, face, i, d);
      }
    }
  }

  /** Any pair of cubes meeting the forward-turn constraints is a concrete forward turn. */
  lemma RelationDeterminesTurn(src: Cube, dst: Cube, face: Face)
    requires ForwardRelation(src, dst, face)
    ensures dst == Turn(src, face)
  {
    var t := Turn(src, face);
    forall f, s | 0 <= f < 6 && 0 <= s < 9
      ensures dst[f][s] == t[f][s]
    {
      var i := WriterStep(face, f, s);
      if i < 9 {
        WriterStepInverse(face, f, s);
        assert StepConstraints(src, dst, face, i);
        if f == face {
          OwnFaceWrite(src, face, i);
        } else {
          var d := Previous(DirectionTo(face, f));
          assert StripConstraint(src, dst, face, i, d);
          StripWrite(src, face, i, d);
        }
      }
    }
    CubeExtensionality(dst, t);
  }

  /**
   * Relation equals concrete turn: the constraint set of a forward turn of
   * `face` holds between two cubes exactly when the second is the forward
   * turn of the first.
   */
  lemma ForwardRelationIsTurn(src: Cube, dst: Cube, face: Face)
    ensures ForwardRelation(src, dst, face) <==> dst == Turn(src, face)
  {
    if ForwardRelation(src, dst, face) {
      RelationDeterminesTurn(src, dst, face);
    } else {
      TurnMeetsRelation(src, face);
    }
  }

  /**
   * The swapped-role relation (direction 1) holds exactly when the second
   * cube is the reverse turn, three forward turns, of the first.
   */
  lemma ReverseRelationIsTurnBack(src: Cube, dst: Cube, face: Face)
    ensures ForwardRelation(dst, src, face) <==> dst == TurnBack(src, face)
  {
    ForwardRelationIsTurn(dst, src, face);
    if src == Turn(dst, face) {
      TurnInverses(dst, face);
    }
    if dst == TurnBack(src, face) {
      TurnInverses(src, face);
    }
  }

  /** The relation of every move code holds exactly when the second cube is the replayed move. */
  lemma RotateRelationIsRotated(src: Cube, dst: Cube, face: int, dir: int)
    requires 0 <= face <= 6 && 0 <= dir <= 1
    ensures RotateRelation(src, dst, face, dir) <==> dst == Rotated(src, face, dir)
  {
    if face == 6 {
      AllSquaresEqualIsEquality(src, dst);
    } else if dir == 0 {
      ForwardRelationIsTurn(src, dst, face);
    } else {
      ReverseRelationIsTurnBack(src, dst, face);
    }
  }
}
