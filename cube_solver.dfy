/**
 * `CubeSolver`: finds the fewest moves that take its cube to its targets by
 * asking the solver about paths of 1, 2, 3, ... moves and applying the
 * moves of the first model it gets. The SMT solver itself is a parameter:
 * any function from a formula to an answer.
 */
module CubeSolvers {
  import opened Geometry
  import opened ValueCubes
  import opened BitArrays
  import opened MovePruning
  import opened CubePaths

  /** What `solve` gives back: a model, `unsat`, or nothing when the solver gives up. */
  datatype Answer = Sat(model: Assignment) | Unsat | Unknown

  /** How `solve_minimum` ended, and at which number of moves. */
  datatype Outcome = Solved(horizon: nat, model: Assignment) | GaveUp(horizon: nat)

  /** A solver whose models satisfy the formula and whose `unsat` is true. */
  ghost predicate SoundSolver(solve: seq<Constraint> -> Answer)
  {
    forall cs ::
      && (solve(cs).Sat? ==> Shaped(solve(cs).model) && AllHold(solve(cs).model, cs))
      && (solve(cs).Unsat? ==> forall a :: Shaped(a) ==> !AllHold(a, cs))
  }

  /**
   * The first horizon the solver does not answer `unsat` is the fewest
   * moves that reach the goals: its model's moves reach them, and unless
   * the cube already meets them, no shorter move sequence does.
   */
  lemma ShortestSolution(solve: seq<Constraint> -> Answer, cube: Cube, goals: seq<Goal>, n: nat)
    requires SoundSolver(solve) && FitsBits(cube) && n >= 1
    requires forall k :: 1 <= k < n ==> solve(PathConstraints(cube, k, goals)).Unsat?
    requires solve(PathConstraints(cube, n, goals)).Sat?
    ensures var a := solve(PathConstraints(cube, n, goals)).model;
      && Shaped(a) && n <= |a.moves|
      && Pruned(MoveCodes(a, n))
      && GoalsMet(Replay(cube, MoveCodes(a, n)), goals)
    ensures !GoalsMet(cube, goals) ==>
      forall codes :: Selected(codes) && |codes| < n ==> !GoalsMet(Replay(cube, codes), goals)
  {
    var a := solve(PathConstraints(cube, n, goals)).model;
    PathSound(a, cube, n, goals);
    if !GoalsMet(cube, goals) {
      forall codes | Selected(codes) && |codes| < n
        ensures !GoalsMet(Replay(cube, codes), goals)
      {
        if GoalsMet(Replay(cube, codes), goals) {
          var r := Normalize(codes);
          NormalizeReplay(cube, codes);
          if |r| > 0 {
            PathComplete(cube, r, goals);
          }
        }
      }
    }
  }

  class CubeSolver {
    var valueCube: Cube
    var targetConstraints: seq<Goal>
    var model: Option<Assignment>
    var cubePath: CubePath?

    constructor (startingCube: Cube)
      ensures valueCube == startingCube && targetConstraints == []
      ensures model == None && cubePath == null
    {
      valueCube := startingCube;
      targetConstraints := [];
      model := None;
      cubePath := null;
    }

    method AddTargetConstraint(face: Face, index: Square, value: int)
      modifies this
      ensures valueCube == old(valueCube)
      ensures targetConstraints == old(targetConstraints) + [Goal(face, index, value)]
      ensures model == old(model) && cubePath == old(cubePath)
    {
      targetConstraints := targetConstraints + [Goal(face, index, value)];
    }

    /** The path for `trySat` moves with every target on its last state. */
    method BuildPath(trySat: nat) returns (path: CubePath)
      ensures fresh(path) && path.Valid() && path.moveCount == trySat
      ensures path.constraints == PathConstraints(valueCube, trySat, targetConstraints)
    {
      path := new CubePath();
      path.SetInitConstraints(valueCube);
      path.AddNRotations(trySat);
      var base := path.constraints;
      for t := 0 to |targetConstraints|
        invariant path.Valid() && path.moveCount == trySat
        invariant path.constraints == base + GoalConstraints(trySat, targetConstraints[..t])
      {
        var c := targetConstraints[t];
        path.AddTargetConstraint(c.face, c.index, c.value);
        assert GoalConstraints(trySat, targetConstraints[..t + 1])
          == GoalConstraints(trySat, targetConstraints[..t]) + [Target(trySat, c.face, c.index, c.value)];
      }
      assert targetConstraints[..|targetConstraints|] == targetConstraints;
    }

    /**
     * `solve_minimum`. The source loops for ever when every horizon is
     * `unsat`; here some horizon must get another answer. On a model the
     * cube becomes the start cube replayed through the model's moves, which
     * meets every target; when the solver gives up the cube is left as it was.
     */
    method SolveMinimum(solve: seq<Constraint> -> Answer) returns (outcome: Outcome)
      modifies this
      requires SoundSolver(solve) && FitsBits(valueCube)
      requires exists n :: n >= 1 && !solve(PathConstraints(valueCube, n, targetConstraints)).Unsat?
      ensures targetConstraints == old(targetConstraints) && FitsBits(valueCube)
      ensures outcome.horizon >= 1
      ensures cubePath != null && fresh(cubePath) && cubePath.Valid() && cubePath.moveCount == outcome.horizon
      ensures cubePath.constraints == PathConstraints(old(valueCube), outcome.horizon, targetConstraints)
      ensures forall k :: 1 <= k < outcome.horizon ==> solve(PathConstraints(old(valueCube), k, targetConstraints)).Unsat?
      ensures outcome.GaveUp? ==>
        && solve(PathConstraints(old(valueCube), outcome.horizon, targetConstraints)).Unknown?
        && valueCube == old(valueCube) && model == None
      ensures outcome.Solved? ==>
        && solve(PathConstraints(old(valueCube), outcome.horizon, targetConstraints)) == Sat(outcome.model)
        && model == Some(outcome.model)
        && Shaped(outcome.model) && outcome.horizon <= |outcome.model.moves|
        && Pruned(MoveCodes(outcome.model, outcome.horizon))
        && valueCube == Replay(old(valueCube), MoveCodes(outcome.model, outcome.horizon))
        && GoalsMet(valueCube, targetConstraints)
    {
      ghost var bound :| bound >= 1 && !solve(PathConstraints(valueCube, bound, targetConstraints)).Unsat?;
      var maxUnsat := 0;
      var minSat := 15;
      var trySat := 0;
      var res := Unsat;
      while true
        invariant valueCube == old(valueCube) && targetConstraints == old(targetConstraints)
        invariant 0 <= trySat < bound && maxUnsat == trySat
        invariant forall k :: 1 <= k <= trySat ==> solve(PathConstraints(valueCube, k, targetConstraints)).Unsat?
        decreases bound - trySat
      {
        trySat := trySat + 1;
        var path := BuildPath(trySat);
        res := solve(path.constraints);
        if res.Unsat? {
          maxUnsat := trySat;
        } else {
          minSat := trySat;
          cubePath := path;
          break;
        }
      }
      if res.Sat? {
        var a := res.model;
        PathSound(a, valueCube, trySat, targetConstraints);
        model := Some(a);
        valueCube := ApplyMoves(valueCube, MoveCodes(a, trySat));
        ReplayFits(old(valueCube), MoveCodes(a, trySat));
        outcome := Solved(trySat, a);
      } else {
        model := None;
        outcome := GaveUp(trySat);
      }
    }
  }
}
