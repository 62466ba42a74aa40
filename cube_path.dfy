/**
 * `CubePath`: the formula the solver is asked to satisfy for a fixed number
 * of moves. The path owns one `CubeState` per step and one 12-way move
 * selector per move, and collects constraints over them. Each constraint is
 * kept as a value of `Constraint`; `Holds` gives its meaning under an
 * assignment of the path's Boolean variables, which is what a model of the
 * formula is.
 */
module CubePaths {
  import opened Geometry
  import opened ValueCubes
  import opened CubeStates
  import opened BitArrays
  import opened MovePruning

  /** Bits per square colour (`BooleanArray(..., 3)` in `FaceState`). */
  const ColourWidth := 3

  /** Entries of a move selector (`FlattedBooleanArray("M:k", 12)`). */
  const SelectorSize := 12

  // ---------------------------------------------------------------------
  // States under an assignment
  // ---------------------------------------------------------------------

  /** A `CubeState` under an assignment: 3 bits for each square of each face. */
  predicate IsBitCube(s: seq<seq<seq<bool>>>)
  {
    |s| == 6 && forall f :: 0 <= f < 6 ==> |s[f]| == 9 && forall q :: 0 <= q < 9 ==> |s[f][q]| == ColourWidth
  }

  /** The colours the bits of a state stand for. */
  function Decoded(s: seq<seq<seq<bool>>>): Cube
    requires IsBitCube(s)
  {
    seq(6, f requires 0 <= f < 6 => seq(9, q requires 0 <= q < 9 => Value(s[f][q])))
  }

  /** The bits standing for a cube's colours. */
  function Encoded(c: Cube): (s: seq<seq<seq<bool>>>)
    ensures IsBitCube(s)
  {
    seq(6, f requires 0 <= f < 6 => seq(9, q requires 0 <= q < 9 => Encode(c[f][q], ColourWidth)))
  }

  /** Every colour fits the three bits of a square. */
  predicate FitsBits(c: Cube)
  {
    forall f, q :: 0 <= f < 6 && 0 <= q < 9 ==> 0 <= c[f][q] < 8
  }

  lemma ColourRange()
    ensures Pow2(ColourWidth) == 8
  {
  }

  /** Encoding a cube whose colours fit and decoding it gives the cube back. */
  lemma EncodedRoundTrip(c: Cube)
    requires FitsBits(c)
    ensures Decoded(Encoded(c)) == c
  {
    ColourRange();
    var e := Encoded(c);
    forall f, q | 0 <= f < 6 && 0 <= q < 9
      ensures Value(e[f][q]) == c[f][q]
    {
      DecodeEncode(c[f][q], ColourWidth);
    }
    CubeExtensionality(Decoded(e), c);
  }

  /** Every decoded colour fits three bits. */
  lemma DecodedFits(s: seq<seq<seq<bool>>>)
    requires IsBitCube(s)
    ensures FitsBits(Decoded(s))
  {
    ColourRange();
    forall f, q | 0 <= f < 6 && 0 <= q < 9
      ensures 0 <= Decoded(s)[f][q] < 8
    {
      ValueRange(s[f][q]);
    }
  }

  /** Turns only move colours around, so colours that fit keep fitting. */
  lemma {:induction false} ReplayFits(c: Cube, codes: seq<int>)
    requires FitsBits(c) && AllCodes(codes)
    ensures FitsBits(Replay(c, codes))
    decreases |codes|
  {
    if codes != [] {
      var init := codes[..|codes| - 1];
      ReplayFits(c, init);
      var b := Replay(c, init);
      var m := codes[|codes| - 1];
      if m / 2 < 6 {
        var t1 := Turn(b, m / 2);
        var t2 := Turn(t1, m / 2);
        assert FitsBits(t1) && FitsBits(t2) && FitsBits(Turn(t2, m / 2));
      }
    }
  }

  // ---------------------------------------------------------------------
  // Assignments and constraints
  // ---------------------------------------------------------------------

  /**
   * Values for the path's variables: the bits of every state, the selector
   * bits of every move and the auxiliary ladder bits `M:k.s:0..12` of every
   * selector.
   */
  datatype Assignment = Assignment(states: seq<seq<seq<seq<bool>>>>, moves: seq<seq<bool>>, ladders: seq<seq<bool>>)

  /** One state more than moves, and every variable group of its width. */
  predicate Shaped(a: Assignment)
  {
    && |a.states| == |a.moves| + 1
    && |a.ladders| == |a.moves|
    && (forall k :: 0 <= k < |a.states| ==> IsBitCube(a.states[k]))
    && (forall k :: 0 <= k < |a.moves| ==> |a.moves[k]| == SelectorSize)
    && (forall k :: 0 <= k < |a.ladders| ==> |a.ladders[k]| == SelectorSize + 1)
  }

  /** The constraints a `CubePath` collects. */
  datatype Constraint =
    | InitValues(cube: Cube)                                      // set_init_constraints
    | Target(state: int, face: Face, index: Square, value: int)   // add_target_constraint
    | Rotation(move: int)                                         // add_rotation
    | NoUndoAt(move: int, code: int)                              // first pruning rule
    | NoTripleAt(move: int, code: int)                            // second pruning rule
    | NoDoubleReverseAt(move: int, code: int)                     // third pruning rule

  /** `CubeState.set_value_constraints`: each square equals the cube's colour. */
  predicate ValueConstraints(s: seq<seq<seq<bool>>>, cube: Cube)
    requires IsBitCube(s)
  {
    forall f, q :: 0 <= f < 6 && 0 <= q < 9 ==> EqualsInt(s[f][q], cube[f][q])
  }

  /**
   * The meaning of one constraint. Equalities between two squares are read
   * on their decoded colours (`ArrayEqualsIsValueEquality` shows the
   * bitwise equality means exactly that).
   */
  predicate Holds(a: Assignment, c: Constraint)
    requires Shaped(a)
  {
    match c
    case InitValues(cube) =>
      ValueConstraints(a.states[0], cube)
    case Target(st, face, index, value) =>
      0 <= st < |a.states| && EqualsInt(a.states[st][face][index], value)
    case Rotation(k) =>
      && 0 <= k < |a.moves|
      && Ladder(a.moves[k], a.ladders[k])
      && (exists i :: 0 <= i < SelectorSize && SelectorIs(a.moves[k], i))
      && (forall i :: 0 <= i < SelectorSize && SelectorIs(a.moves[k], i) ==>
            RotateRelation(Decoded(a.states[k]), Decoded(a.states[k + 1]), i / 2, i % 2))
    case NoUndoAt(k, j) =>
      && 1 <= k < |a.moves| && 0 <= j < SelectorSize
      && (SelectorIs(a.moves[k], j) ==> !SelectorIs(a.moves[k - 1], Opposite(j)))
    case NoTripleAt(k, j) =>
      && 2 <= k < |a.moves| && 0 <= j < SelectorSize
      && (SelectorIs(a.moves[k], j) ==> SelectorIs(a.moves[k - 1], j) ==> !SelectorIs(a.moves[k - 2], j))
    case NoDoubleReverseAt(k, j) =>
      && 1 <= k < |a.moves| && 0 <= j < SelectorSize
      && (SelectorIs(a.moves[k], j) ==> !SelectorIs(a.moves[k - 1], j))
  }

  /** `get_constraints`: the conjunction of everything collected. */
  predicate AllHold(a: Assignment, cs: seq<Constraint>)
    requires Shaped(a)
  {
    forall c :: c in cs ==> Holds(a, c)
  }

  // ---------------------------------------------------------------------
  // The constraint lists the path builds
  // ---------------------------------------------------------------------

  /** `add_rotation` called n times starting at move `from`. */
  function RotationSteps(from: int, n: nat): seq<Constraint>
  {
    seq(n, k => Rotation(from + k))
  }

  /** First rule for moves 1 .. i-1, every code j: `M:k == j` forbids `M:k-1 == j^1`. */
  function UndoRules(i: int): seq<Constraint>
    decreases i
  {
    if i <= 1 then [] else UndoRules(i - 1) + seq(12, j => NoUndoAt(i - 1, j))
  }

  /** Second rule for moves 2 .. i-1, every code. */
  function TripleRules(i: int): seq<Constraint>
    decreases i
  {
    if i <= 2 then [] else TripleRules(i - 1) + seq(12, j => NoTripleAt(i - 1, j))
  }

  /** Third rule for moves 1 .. i-1, the odd codes 1, 3, .., 11. */
  function DoubleReverseRules(i: int): seq<Constraint>
    decreases i
  {
    if i <= 1 then [] else DoubleReverseRules(i - 1) + seq(6, t => NoDoubleReverseAt(i - 1, 2 * t + 1))
  }

  /** `add_helper_constraints` on a path of n moves. */
  function HelperRules(n: int): seq<Constraint>
  {
    UndoRules(n) + TripleRules(n) + DoubleReverseRules(n)
  }

  /** A target `(face, index, value)` as `CubeSolver` keeps it. */
  datatype Goal = Goal(face: Face, index: Square, value: int)

  function GoalConstraints(state: int, goals: seq<Goal>): seq<Constraint>
  {
    seq(|goals|, t requires 0 <= t < |goals| => Target(state, goals[t].face, goals[t].index, goals[t].value))
  }

  /**
   * The formula `solve_minimum` hands to the solver for n moves: the start
   * cube, n rotations, the pruning rules, and the goals on the last state.
   */
  function PathConstraints(cube: Cube, n: nat, goals: seq<Goal>): seq<Constraint>
  {
    [InitValues(cube)] + RotationSteps(0, n) + HelperRules(n) + GoalConstraints(n, goals)
  }

  // ---------------------------------------------------------------------
  // The path builder
  // ---------------------------------------------------------------------

  /**
   * `CubePath`. Its states and move selectors are fresh variables named by
   * their position, so the model keeps only how many there are.
   */
  class CubePath {
    var stateCount: nat
    var moveCount: nat
    var constraints: seq<Constraint>

    /** `states` always holds one entry more than `moves`. */
    predicate Valid()
      reads this
    {
      stateCount == moveCount + 1
    }

    constructor ()
      ensures Valid() && moveCount == 0 && constraints == []
    {
      stateCount := 1;
      moveCount := 0;
      constraints := [];
    }

    method SetInitConstraints(cube: Cube)
      modifies this
      requires Valid()
      ensures Valid() && moveCount == old(moveCount)
      ensures constraints == old(constraints) + [InitValues(cube)]
    {
      constraints := constraints + [InitValues(cube)];
    }

    /** Pins a square of the current last state to a colour. */
    method AddTargetConstraint(face: Face, index: Square, value: int)
      modifies this
      requires Valid()
      ensures Valid() && moveCount == old(moveCount)
      ensures constraints == old(constraints) + [Target(moveCount, face, index, value)]
    {
      constraints := constraints + [Target(stateCount - 1, face, index, value)];
    }

    /** One more state and move selector, tied to the previous state by the selected turn. */
    method AddRotation()
      modifies this
      requires Valid()
      ensures Valid() && moveCount == old(moveCount) + 1
      ensures constraints == old(constraints) + [Rotation(old(moveCount))]
    {
      constraints := constraints + [Rotation(moveCount)];
      stateCount := stateCount + 1;
      moveCount := moveCount + 1;
    }

    /** The three pruning rules over all moves so far. */
    method AddHelperConstraints()
      modifies this
      requires Valid()
      ensures Valid() && moveCount == old(moveCount)
      ensures constraints == old(constraints) + HelperRules(moveCount)
    {
      AddUndoRules();
      AddTripleRules();
      AddDoubleReverseRules();
    }

    /** A move and its reversal must not be consecutive. */
    method AddUndoRules()
      modifies this
      requires Valid()
      ensures Valid() && moveCount == old(moveCount)
      ensures constraints == old(constraints) + UndoRules(moveCount)
    {
      var n := moveCount;
      var start := constraints;
      var i := 1;
      while i < n
        invariant 1 <= i <= if n >= 1 then n else 1
        invariant moveCount == n && stateCount == n + 1
        invariant constraints == start + UndoRules(i)
      {
        var block := constraints;
        for j := 0 to 12
          invariant moveCount == n && stateCount == n + 1
          invariant constraints == block + seq(j, j' => NoUndoAt(i, j'))
        {
          constraints := constraints + [NoUndoAt(i, j)];
        }
        i := i + 1;
      }
      assert UndoRules(i) == UndoRules(n);
    }

    /** No move three times in a row. */
    method AddTripleRules()
      modifies this
      requires Valid()
      ensures Valid() && moveCount == old(moveCount)
      ensures constraints == old(constraints) + TripleRules(moveCount)
    {
      var n := moveCount;
      var start := constraints;
      var i := 2;
      while i < n
        invariant 2 <= i <= if n >= 2 then n else 2
        invariant moveCount == n && stateCount == n + 1
        invariant constraints == start + TripleRules(i)
      {
        var block := constraints;
        for j := 0 to 12
          invariant moveCount == n && stateCount == n + 1
          invariant constraints == block + seq(j, j' => NoTripleAt(i, j'))
        {
          constraints := constraints + [NoTripleAt(i, j)];
        }
        i := i + 1;
      }
      assert TripleRules(i) == TripleRules(n);
    }

    /** No reverse move twice in a row. */
    method AddDoubleReverseRules()
      modifies this
      requires Valid()
      ensures Valid() && moveCount == old(moveCount)
      ensures constraints == old(constraints) + DoubleReverseRules(moveCount)
    {
      var n := moveCount;
      var start := constraints;
      var i := 1;
      while i < n
        invariant 1 <= i <= if n >= 1 then n else 1
        invariant moveCount == n && stateCount == n + 1
        invariant constraints == start + DoubleReverseRules(i)
      {
        var block := constraints;
        for t := 0 to 6
          invariant moveCount == n && stateCount == n + 1
          invariant constraints == block + seq(t, t' => NoDoubleReverseAt(i, 2 * t' + 1))
        {
          constraints := constraints + [NoDoubleReverseAt(i, 2 * t + 1)];
        }
        i := i + 1;
      }
      assert DoubleReverseRules(i) == DoubleReverseRules(n);
    }

    method AddNRotations(n: nat)
      modifies this
      requires Valid()
      ensures Valid() && moveCount == old(moveCount) + n
      ensures constraints == old(constraints) + RotationSteps(old(moveCount), n) + HelperRules(moveCount)
    {
      var start := constraints;
      var from := moveCount;
      for k := 0 to n
        invariant Valid() && moveCount == from + k
        invariant constraints == start + RotationSteps(from, k)
      {
        AddRotation();
      }
      AddHelperConstraints();
    }
  }

  // ---------------------------------------------------------------------
  // What a satisfying assignment means
  // ---------------------------------------------------------------------

  /** The cube meets every goal, each goal colour cut to its three bits. */
  predicate GoalsMet(c: Cube, goals: seq<Goal>)
  {
    forall t :: 0 <= t < |goals| ==> c[goals[t].face][goals[t].index] == goals[t].value % 8
  }

  /** The selector k of the assignment, decoded; -1 stands for "no bit set". */
  function MoveCodes(a: Assignment, n: nat): seq<int>
    requires Shaped(a) && n <= |a.moves|
  {
    seq(n, k requires 0 <= k < n => match FirstSet(a.moves[k]) case Some(m) => m case None => -1)
  }

  lemma AllHoldAppend(a: Assignment, xs: seq<Constraint>, ys: seq<Constraint>)
    requires Shaped(a)
    ensures AllHold(a, xs + ys) <==> AllHold(a, xs) && AllHold(a, ys)
  {
  }

  lemma RotationStepsHold(a: Assignment, n: nat)
    requires Shaped(a)
    ensures AllHold(a, RotationSteps(0, n)) <==> forall k :: 0 <= k < n ==> Holds(a, Rotation(k))
  {
    var rs := RotationSteps(0, n);
    assert forall k :: 0 <= k < n ==> rs[k] == Rotation(k);
  }

  lemma GoalConstraintsHold(a: Assignment, n: nat, goals: seq<Goal>)
    requires Shaped(a)
    ensures AllHold(a, GoalConstraints(n, goals)) <==>
      forall t :: 0 <= t < |goals| ==> Holds(a, Target(n, goals[t].face, goals[t].index, goals[t].value))
  {
    var gs := GoalConstraints(n, goals);
    assert forall t :: 0 <= t < |goals| ==> gs[t] == Target(n, goals[t].face, goals[t].index, goals[t].value);
  }

  /** The path's formula splits into its four parts. */
  lemma PathParts(a: Assignment, cube: Cube, n: nat, goals: seq<Goal>)
    requires Shaped(a)
    ensures AllHold(a, PathConstraints(cube, n, goals)) <==>
      && ValueConstraints(a.states[0], cube)
      && (forall k :: 0 <= k < n ==> Holds(a, Rotation(k)))
      && AllHold(a, HelperRules(n))
      && (forall t :: 0 <= t < |goals| ==> Holds(a, Target(n, goals[t].face, goals[t].index, goals[t].value)))
  {
    var init := [InitValues(cube)];
    assert AllHold(a, init) <==> Holds(a, InitValues(cube));
    AllHoldAppend(a, init, RotationSteps(0, n));
    AllHoldAppend(a, init + RotationSteps(0, n), HelperRules(n));
    AllHoldAppend(a, init + RotationSteps(0, n) + HelperRules(n), GoalConstraints(n, goals));
    RotationStepsHold(a, n);
    GoalConstraintsHold(a, n, goals);
  }

  lemma AllHoldIndexed(a: Assignment, cs: seq<Constraint>)
    requires Shaped(a)
    ensures AllHold(a, cs) <==> forall p :: 0 <= p < |cs| ==> Holds(a, cs[p])
  {
  }

  lemma {:induction false} UndoRulesHold(a: Assignment, i: int)
    requires Shaped(a)
    ensures AllHold(a, UndoRules(i)) <==>
      forall k, j :: 1 <= k < i && 0 <= j < 12 ==> Holds(a, NoUndoAt(k, j))
    decreases i
  {
    if i > 1 {
      UndoRulesHold(a, i - 1);
      var block := seq(12, j => NoUndoAt(i - 1, j));
      AllHoldAppend(a, UndoRules(i - 1), block);
      AllHoldIndexed(a, block);
      assert forall j :: 0 <= j < 12 ==> block[j] == NoUndoAt(i - 1, j);
      if forall k, j :: 1 <= k < i && 0 <= j < 12 ==> Holds(a, NoUndoAt(k, j)) {
        assert AllHold(a, UndoRules(i - 1)) && AllHold(a, block);
      }
      if AllHold(a, UndoRules(i)) {
        forall k, j | 1 <= k < i && 0 <= j < 12
          ensures Holds(a, NoUndoAt(k, j))
        {
          if k == i - 1 {
            assert block[j] == NoUndoAt(k, j);
          }
        }
      }
    }
  }

  lemma {:induction false} TripleRulesHold(a: Assignment, i: int)
    requires Shaped(a)
    ensures AllHold(a, TripleRules(i)) <==>
      forall k, j :: 2 <= k < i && 0 <= j < 12 ==> Holds(a, NoTripleAt(k, j))
    decreases i
  {
    if i > 2 {
      TripleRulesHold(a, i - 1);
      var block := seq(12, j => NoTripleAt(i - 1, j));
      AllHoldAppend(a, TripleRules(i - 1), block);
      AllHoldIndexed(a, block);
      assert forall j :: 0 <= j < 12 ==> block[j] == NoTripleAt(i - 1, j);
      if forall k, j :: 2 <= k < i && 0 <= j < 12 ==> Holds(a, NoTripleAt(k, j)) {
        assert AllHold(a, TripleRules(i - 1)) && AllHold(a, block);
      }
      if AllHold(a, TripleRules(i)) {
        forall k, j | 2 <= k < i && 0 <= j < 12
          ensures Holds(a, NoTripleAt(k, j))
        {
          if k == i - 1 {
            assert block[j] == NoTripleAt(k, j);
          }
        }
      }
    }
  }

  lemma {:induction false} DoubleReverseRulesHold(a: Assignment, i: int)
    requires Shaped(a)
    ensures AllHold(a, DoubleReverseRules(i)) <==>
      forall k, j :: 1 <= k < i && 0 <= j < 12 && j % 2 == 1 ==> Holds(a, NoDoubleReverseAt(k, j))
    decreases i
  {
    if i > 1 {
      DoubleReverseRulesHold(a, i - 1);
      var block := seq(6, t => NoDoubleReverseAt(i - 1, 2 * t + 1));
      AllHoldAppend(a, DoubleReverseRules(i - 1), block);
      AllHoldIndexed(a, block);
      assert forall t :: 0 <= t < 6 ==> block[t] == NoDoubleReverseAt(i - 1, 2 * t + 1);
      if forall k, j :: 1 <= k < i && 0 <= j < 12 && j % 2 == 1 ==> Holds(a, NoDoubleReverseAt(k, j)) {
        assert AllHold(a, DoubleReverseRules(i - 1));
        forall t | 0 <= t < 6
          ensures Holds(a, block[t])
        {
          assert block[t] == NoDoubleReverseAt(i - 1, 2 * t + 1);
        }
      }
      if AllHold(a, DoubleReverseRules(i)) {
        forall k, j | 1 <= k < i && 0 <= j < 12 && j % 2 == 1
          ensures Holds(a, NoDoubleReverseAt(k, j))
        {
          if k == i - 1 {
            assert block[j / 2] == NoDoubleReverseAt(k, j);
          }
        }
      }
    }
  }

  /** Selectors 0 .. |codes|-1 of the assignment are one-hot at the given codes. */
  predicate OneHotMoves(a: Assignment, codes: seq<int>)
    requires Shaped(a)
  {
    |codes| <= |a.moves| && forall k :: 0 <= k < |codes| ==> OneHotAt(a.moves[k], codes[k])
  }

  lemma OneHotSelected(a: Assignment, codes: seq<int>)
    requires Shaped(a) && OneHotMoves(a, codes)
    ensures Selected(codes)
  {
    forall k | 0 <= k < |codes|
      ensures 0 <= codes[k] < 12
    {
      assert |a.moves[k]| == SelectorSize;
    }
  }

  lemma UndoMeansNoUndo(a: Assignment, codes: seq<int>)
    requires Shaped(a) && OneHotMoves(a, codes) && |codes| < |a.moves| + 1
    ensures Selected(codes)
    ensures (forall k, j :: 1 <= k < |codes| && 0 <= j < 12 ==> Holds(a, NoUndoAt(k, j))) <==> NoUndo(codes)
  {
    OneHotSelected(a, codes);
    if NoUndo(codes) {
      forall k, j | 1 <= k < |codes| && 0 <= j < 12
        ensures Holds(a, NoUndoAt(k, j))
      {
        if SelectorIs(a.moves[k], j) {
          assert j == codes[k];
        }
      }
    }
    if forall k, j :: 1 <= k < |codes| && 0 <= j < 12 ==> Holds(a, NoUndoAt(k, j)) {
      forall i | 1 <= i < |codes|
        ensures codes[i - 1] != Opposite(codes[i])
      {
        assert Holds(a, NoUndoAt(i, codes[i]));
      }
    }
  }

  lemma TripleMeansNoTriple(a: Assignment, codes: seq<int>)
    requires Shaped(a) && OneHotMoves(a, codes)
    ensures (forall k, j :: 2 <= k < |codes| && 0 <= j < 12 ==> Holds(a, NoTripleAt(k, j))) <==> NoTriple(codes)
  {
    OneHotSelected(a, codes);
    if NoTriple(codes) {
      forall k, j | 2 <= k < |codes| && 0 <= j < 12
        ensures Holds(a, NoTripleAt(k, j))
      {
        if SelectorIs(a.moves[k], j) && SelectorIs(a.moves[k - 1], j) {
          assert j == codes[k] && j == codes[k - 1];
        }
      }
    }
    if forall k, j :: 2 <= k < |codes| && 0 <= j < 12 ==> Holds(a, NoTripleAt(k, j)) {
      forall i | 2 <= i < |codes|
        ensures !(codes[i] == codes[i - 1] && codes[i - 1] == codes[i - 2])
      {
        assert Holds(a, NoTripleAt(i, codes[i]));
      }
    }
  }

  lemma DoubleReverseMeansNoDoubleReverse(a: Assignment, codes: seq<int>)
    requires Shaped(a) && OneHotMoves(a, codes)
    ensures (forall k, j :: 1 <= k < |codes| && 0 <= j < 12 && j % 2 == 1 ==> Holds(a, NoDoubleReverseAt(k, j))) <==> NoDoubleReverse(codes)
  {
    OneHotSelected(a, codes);
    if NoDoubleReverse(codes) {
      forall k, j | 1 <= k < |codes| && 0 <= j < 12 && j % 2 == 1
        ensures Holds(a, NoDoubleReverseAt(k, j))
      {
        if SelectorIs(a.moves[k], j) {
          assert j == codes[k];
        }
      }
    }
    if forall k, j :: 1 <= k < |codes| && 0 <= j < 12 && j % 2 == 1 ==> Holds(a, NoDoubleReverseAt(k, j)) {
      forall i | 1 <= i < |codes|
        ensures !(codes[i] % 2 == 1 && codes[i - 1] == codes[i])
      {
        if codes[i] % 2 == 1 {
          assert Holds(a, NoDoubleReverseAt(i, codes[i]));
        }
      }
    }
  }

  /**
   * On one-hot selectors, the pruning constraints hold exactly when the
   * selected codes obey the three pruning rules.
   */
  lemma HelperRulesArePruning(a: Assignment, codes: seq<int>)
    requires Shaped(a) && OneHotMoves(a, codes)
    ensures AllHold(a, HelperRules(|codes|)) <==> Pruned(codes)
  {
    var n := |codes|;
    AllHoldAppend(a, UndoRules(n), TripleRules(n));
    AllHoldAppend(a, UndoRules(n) + TripleRules(n), DoubleReverseRules(n));
    UndoRulesHold(a, n);
    TripleRulesHold(a, n);
    DoubleReverseRulesHold(a, n);
    UndoMeansNoUndo(a, codes);
    TripleMeansNoTriple(a, codes);
    DoubleReverseMeansNoDoubleReverse(a, codes);
  }

  /** With colours that fit, the init constraints pin the first state to the cube. */
  lemma InitDecodes(s: seq<seq<seq<bool>>>, cube: Cube)
    requires IsBitCube(s) && FitsBits(cube)
    ensures ValueConstraints(s, cube) <==> Decoded(s) == cube
  {
    ColourRange();
    forall f, q | 0 <= f < 6 && 0 <= q < 9
      ensures EqualsInt(s[f][q], cube[f][q]) <==> Decoded(s)[f][q] == cube[f][q]
    {
      ConstraintDecodes(s[f][q], cube[f][q]);
    }
    if ValueConstraints(s, cube) {
      CubeExtensionality(Decoded(s), cube);
    }
  }

  /**
   * A rotation constraint selects exactly one code, and the next state is
   * the current one turned by that code.
   */
  lemma RotationStep(a: Assignment, k: int)
    requires Shaped(a) && Holds(a, Rotation(k))
    ensures 0 <= k < |a.moves| && FirstSet(a.moves[k]).Some?
    ensures var m := FirstSet(a.moves[k]).value;
      && m < SelectorSize && OneHotAt(a.moves[k], m)
      && Decoded(a.states[k + 1]) == ApplyCode(Decoded(a.states[k]), m)
  {
    LadderIsExactlyOne(a.moves[k]);
    var m :| 0 <= m < |a.moves[k]| && OneHotAt(a.moves[k], m);
    OneHotDecodes(a.moves[k], m);
    assert SelectorIs(a.moves[k], m);
    RotateRelationIsRotated(Decoded(a.states[k]), Decoded(a.states[k + 1]), m / 2, m % 2);
  }

  /** Under the rotation constraints the decoded states replay the decoded moves. */
  lemma {:induction false} StatesReplay(a: Assignment, n: nat, k: nat)
    requires Shaped(a) && n <= |a.moves| && k <= n
    requires forall k' :: 0 <= k' < n ==> Holds(a, Rotation(k'))
    ensures OneHotMoves(a, MoveCodes(a, n)) && Selected(MoveCodes(a, n))
    ensures Decoded(a.states[k]) == Replay(Decoded(a.states[0]), MoveCodes(a, n)[..k])
    decreases k
  {
    var codes := MoveCodes(a, n);
    forall k' | 0 <= k' < n
      ensures OneHotAt(a.moves[k'], codes[k'])
    {
      RotationStep(a, k');
    }
    OneHotSelected(a, codes);
    if k == 0 {
      assert codes[..0] == [];
    } else {
      StatesReplay(a, n, k - 1);
      RotationStep(a, k - 1);
      assert codes[..k][..k - 1] == codes[..k - 1];
    }
  }

  /**
   * Soundness of the encoding: an assignment meeting the path's formula
   * selects a pruned move sequence, its last state is the start cube
   * replayed through those moves (what `apply_moves` computes), and that
   * cube meets every goal.
   */
  lemma PathSound(a: Assignment, cube: Cube, n: nat, goals: seq<Goal>)
    requires Shaped(a) && FitsBits(cube) && AllHold(a, PathConstraints(cube, n, goals))
    ensures n <= |a.moves|
    ensures var codes := MoveCodes(a, n);
      && Pruned(codes)
      && Decoded(a.states[n]) == Replay(cube, codes)
      && GoalsMet(Replay(cube, codes), goals)
  {
    PathParts(a, cube, n, goals);
    if n > 0 {
      RotationStep(a, n - 1);
    }
    InitDecodes(a.states[0], cube);
    StatesReplay(a, n, n);
    var codes := MoveCodes(a, n);
    assert codes[..n] == codes;
    HelperRulesArePruning(a, codes);
    ColourRange();
    forall t | 0 <= t < |goals|
      ensures Replay(cube, codes)[goals[t].face][goals[t].index] == goals[t].value % 8
    {
      assert Holds(a, Target(n, goals[t].face, goals[t].index, goals[t].value));
      ConstraintDecodes(a.states[n][goals[t].face][goals[t].index], goals[t].value);
    }
  }

  /** The assignment that sets every state, selector and ladder bit along a move sequence. */
  function Witness(cube: Cube, codes: seq<int>): (a: Assignment)
    requires Selected(codes)
    ensures Shaped(a) && |a.moves| == |codes|
  {
    var n := |codes|;
    Assignment(
      seq(n + 1, k requires 0 <= k <= n => Encoded(Replay(cube, codes[..k]))),
      seq(n, k requires 0 <= k < n => seq(SelectorSize, i => i == codes[k])),
      seq(n, k requires 0 <= k < n => seq(SelectorSize + 1, i => i > codes[k])))
  }

  lemma WitnessOneHot(cube: Cube, codes: seq<int>)
    requires Selected(codes)
    ensures OneHotMoves(Witness(cube, codes), codes)
    ensures MoveCodes(Witness(cube, codes), |codes|) == codes
  {
    var a := Witness(cube, codes);
    forall k | 0 <= k < |codes|
      ensures OneHotAt(a.moves[k], codes[k]) && FirstSet(a.moves[k]) == Some(codes[k])
    {
      OneHotDecodes(a.moves[k], codes[k]);
    }
  }

  lemma WitnessStates(cube: Cube, codes: seq<int>, k: int)
    requires FitsBits(cube) && Selected(codes) && 0 <= k <= |codes|
    ensures Decoded(Witness(cube, codes).states[k]) == Replay(cube, codes[..k])
  {
    ReplayFits(cube, codes[..k]);
    EncodedRoundTrip(Replay(cube, codes[..k]));
  }

  lemma WitnessStep(cube: Cube, codes: seq<int>, k: int)
    requires FitsBits(cube) && Selected(codes) && 0 <= k < |codes|
    ensures Holds(Witness(cube, codes), Rotation(k))
  {
    var a := Witness(cube, codes);
    var m := codes[k];
    WitnessSelector(cube, codes, k);
    WitnessTurns(cube, codes, k);
    forall i | 0 <= i < SelectorSize && SelectorIs(a.moves[k], i)
      ensures RotateRelation(Decoded(a.states[k]), Decoded(a.states[k + 1]), i / 2, i % 2)
    {
      assert i == m;
    }
  }

  /** The witness's selector k meets the ladder and selects exactly code k. */
  lemma WitnessSelector(cube: Cube, codes: seq<int>, k: int)
    requires Selected(codes) && 0 <= k < |codes|
    ensures var a := Witness(cube, codes);
      && Ladder(a.moves[k], a.ladders[k])
      && SelectorIs(a.moves[k], codes[k])
      && forall i :: 0 <= i < SelectorSize && SelectorIs(a.moves[k], i) ==> i == codes[k]
  {
    var a := Witness(cube, codes);
    var m := codes[k];
    WitnessOneHot(cube, codes);
    LadderOfOneHot(a.moves[k], m);
    assert a.ladders[k] == seq(|a.moves[k]| + 1, i => i > m);
    assert SelectorIs(a.moves[k], m);
  }

  /** Witness state k + 1 is witness state k turned by code k. */
  lemma WitnessTurns(cube: Cube, codes: seq<int>, k: int)
    requires FitsBits(cube) && Selected(codes) && 0 <= k < |codes|
    ensures var a := Witness(cube, codes);
      RotateRelation(Decoded(a.states[k]), Decoded(a.states[k + 1]), codes[k] / 2, codes[k] % 2)
  {
    var a := Witness(cube, codes);
    var m := codes[k];
    WitnessStates(cube, codes, k);
    WitnessStates(cube, codes, k + 1);
    assert codes[..k + 1][..k] == codes[..k];
    RotateRelationIsRotated(Decoded(a.states[k]), Decoded(a.states[k + 1]), m / 2, m % 2);
  }

  /**
   * Completeness of the encoding: a pruned move sequence whose replay meets
   * the goals gives an assignment meeting the path's formula, and that
   * assignment decodes back to the sequence.
   */
  lemma PathComplete(cube: Cube, codes: seq<int>, goals: seq<Goal>)
    requires FitsBits(cube) && Pruned(codes) && GoalsMet(Replay(cube, codes), goals)
    ensures AllHold(Witness(cube, codes), PathConstraints(cube, |codes|, goals))
    ensures MoveCodes(Witness(cube, codes), |codes|) == codes
  {
    var n := |codes|;
    var a := Witness(cube, codes);
    PathParts(a, cube, n, goals);
    WitnessStates(cube, codes, 0);
    assert codes[..0] == [];
    InitDecodes(a.states[0], cube);
    forall k | 0 <= k < n
      ensures Holds(a, Rotation(k))
    {
      WitnessStep(cube, codes, k);
    }
    WitnessOneHot(cube, codes);
    HelperRulesArePruning(a, codes);
    WitnessStates(cube, codes, n);
    assert codes[..n] == codes;
    ColourRange();
    forall t | 0 <= t < |goals|
      ensures Holds(a, Target(n, goals[t].face, goals[t].index, goals[t].value))
    {
      ConstraintDecodes(a.states[n][goals[t].face][goals[t].index], goals[t].value);
    }
  }

  /** The path's formula for n moves has a model. */
  ghost predicate Satisfiable(cube: Cube, n: nat, goals: seq<Goal>)
  {
    exists a :: Shaped(a) && AllHold(a, PathConstraints(cube, n, goals))
  }

  /** Some pruned sequence of n moves takes the cube to the goals. */
  ghost predicate Reachable(cube: Cube, n: nat, goals: seq<Goal>)
  {
    exists codes :: |codes| == n && Pruned(codes) && GoalsMet(Replay(cube, codes), goals)
  }

  /** The formula for n moves has a model exactly when n pruned moves reach the goals. */
  lemma EncodingExact(cube: Cube, n: nat, goals: seq<Goal>)
    requires FitsBits(cube)
    ensures Satisfiable(cube, n, goals) <==> Reachable(cube, n, goals)
  {
    if Satisfiable(cube, n, goals) {
      var a :| Shaped(a) && AllHold(a, PathConstraints(cube, n, goals));
      PathSound(a, cube, n, goals);
      var codes := MoveCodes(a, n);
      assert |codes| == n && Pruned(codes) && GoalsMet(Replay(cube, codes), goals);
    }
    if Reachable(cube, n, goals) {
      var codes :| |codes| == n && Pruned(codes) && GoalsMet(Replay(cube, codes), goals);
      PathComplete(cube, codes, goals);
      var a := Witness(cube, codes);
      assert Shaped(a) && AllHold(a, PathConstraints(cube, n, goals));
    }
  }
}
