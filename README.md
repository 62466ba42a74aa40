# A verified model of the Rubik's cube path encoder in solve.py

`solve.py` searches for the fewest face turns that take a given 3×3×3 cube to a set of
target colours.

- **The cube.** The cube is 6 faces of 9 squares. Faces 0..5 are X-, X+, Y-, Y+, Z-, Z+.
  The axis of a face is `face / 2` and its sign is `face % 2`. Square `pos` sits at row
  `pos / 3`, column `pos % 3`.
- **Turns, twice over.** A turn is written once as a concrete operation on a `ValueCube`
  and once as Z3 equality constraints between two symbolic `CubeState`s.
- **The path.** A `CubePath` chains `n` symbolic states. Each pair of neighbouring states
  is linked by a 12-way one-hot move selector, which has a "ladder" exactly-one constraint
  and an implication per move code. Three pruning rules forbid redundant move patterns.
- **The search.** `CubeSolver.solve_minimum` asks the solver about paths of 1, 2, 3, …
  moves and replays the first model it gets.
- **The notation.** `faces_to_relative` and `get_relative_moves` print the moves as
  F/B/L/R/U/D letters relative to a viewer.

The Dafny modules follow the source:

| module | file | models |
|---|---|---|
| `Geometry` | geometry.dfy | `CubeState.is_attached`, `get_neighbor_array_pos`, the neighbour faces of a turned face, `rotation_map` |
| `ValueCubes` | value_cube.dfy | `ValueCube`, its `__rotate_face` (an in-place fill of a fresh 6×9 array), `rotate_face`, `apply_moves` |
| `CubeStates` | cube_state.dfy | `CubeState.__rotate_face`, `__rotate_nothing`, `rotate_face` as relations between two cubes |
| `BitArrays` | bit_arrays.dfy | `BooleanArray` (little-endian colours) and `FlattedBooleanArray` (one-hot move selectors) |
| `MovePruning` | move_pruning.dfy | the three rules of `add_helper_constraints`, and why they lose no solution |
| `CubePaths` | cube_path.dfy | `CubePath`, and the meaning of its constraints over a bit-level assignment |
| `Notation` | notation.dfy | `faces_to_relative`, `get_relative_moves` |
| `Layout` | layout.dfy | `ValueCube.get_face_id_index`, the unfolded 9×12 drawing |
| `CubeSolvers` | cube_solver.dfy | `CubeSolver` and its deepening loop `solve_minimum` |

How the model represents the source:

- **Cubes and colours.** A cube is a `seq<seq<int>>` of 6×9 colours. The concrete turn
  `Turn(c, face)` is stated as a gather: every result square names the one square it is
  copied from. `RotateForward` then fills a fresh `array2` in the order the source's loops
  write, and is proved equal to it. A backward turn is three forward turns, as in the source.
- **Move codes.** A move code `m` turns face `m / 2` in direction `m % 2`. Codes 12 and 13
  (face 6) are idle.
- **Constraints.** Z3 formulas become a `Constraint` datatype. An `Assignment` gives every
  Z3 boolean a value: the states' colour bits, the move selectors and the ladder bits.
  `Holds` says what each constraint means under it.
- **The solver.** The solver is a function parameter of `SolveMinimum`, with two
  assumptions about it: it is sound, and some horizon is not answered `unsat` (see
  "Left out").

## Model

| member | source | states |
|---|---|---|
| Geometry.DirectionTo | solve.py:235-239 | the neighbour direction chosen for an off-axis face leads to that face |
| Geometry.LookupMatchesAttachment | solve.py:187-219 | `get_neighbor_array_pos` in a direction is non-negative exactly when the square is attached to the neighbour face in that direction |
| Geometry.LookupSentinel | solve.py:203-219 | the neighbour lookup returns either -1 or a square below 9 |
| Geometry.LookupAttachedBack | solve.py:187-219 | a found neighbour square is itself attached to the turned face |
| Geometry.AdjacencyAgreement | solve.py:187-219 | the lookup agrees with `is_attached` in both directions, misses only with -1, and a hit is a square attached back to the face |
| Geometry.BackDirectionLeadsBack | solve.py:235-239 | from the neighbour face, the back direction leads to the original face |
| Geometry.LookupBackAndForth | solve.py:203-219 | looking up the neighbour square and then looking back returns the original square |
| Geometry.NeighborRoundTrip | solve.py:187-219 | the adjacency round trip: square → neighbour square → same square |
| Geometry.DirectionToNeighbor | solve.py:235-239 | the four neighbour faces `(neg+2..5)%6` are off-axis, and the chosen direction to each is the one that named it |
| Geometry.RotationTable | solve.py:233 | `rotation_map[i] == 3*(i%3) + 2 - i/3`, and it has an inverse |
| Geometry.RotationCarriesEdges | solve.py:241-274 | `rotation_map` carries a square on edge d to a square on the next edge |
| Geometry.InverseRotationOrderFour | solve.py:233 | the rotation map has order four and fixes the centre square 4 |
| Geometry.NeighborsDistinct | solve.py:235-239 | the face and its four neighbours are five distinct faces |
| Geometry.NeighborsOffAxis | solve.py:188-190 | a face is a neighbour exactly when it is on another axis |
| ValueCubes.SolvedCube | solve.py:428-437 | `ValueCube()`: every square of face f has colour f |
| ValueCubes.TouchingSquare | solve.py:203-219 | for a strip square of a neighbour, names the square of the turned face that touches it |
| ValueCubes.AttachedLookup | solve.py:187-219 | every attached square of a neighbour face is reached by the lookup from the turned face |
| ValueCubes.WriterStep | solve.py:451-486 | every result square is written by exactly one step of the loops; a square is copied unchanged exactly when it is off the turned face and not attached to it |
| ValueCubes.OwnFaceWrite | solve.py:453-454 | the turned face is written through `rotation_map` |
| ValueCubes.StripWrite | solve.py:464-480 | each edge strip moves to the next neighbour: h_neg → v_neg → h_pos → v_pos → h_neg |
| ValueCubes.WriterStepInverse | solve.py:451-486 | the writing step of a square identifies where it was written from |
| ValueCubes.MoveStripSquare | solve.py:464-480 | one strip write keeps the loop's progress invariant |
| ValueCubes.TurnStep | solve.py:451-480 | one step of the first loop writes the turned-face square and the four strip squares of its step, keeping the progress invariant |
| ValueCubes.CopyUntouched | solve.py:482-486 | after the second loop every square of the fresh cube holds its turned colour: the squares off the turned face and not attached to it are copied |
| ValueCubes.RotateForward | solve.py:439-487 | the in-place fill of a fresh cube yields exactly the forward turn |
| ValueCubes.SourceAlongStrip | solve.py:464-480 | the source of a strip square lies on the previous neighbour, at the inverse-rotated position |
| ValueCubes.StripSquareDetermined | solve.py:464-480 | a strip square is determined by its face's direction and its touching square |
| ValueCubes.SourceOrderFour | solve.py:443-487 | following a square's source four times returns to the square |
| ValueCubes.TurnOrderFour | solve.py:443-487 | four forward turns of a face give back the cube |
| ValueCubes.TurnInverses | solve.py:439-441 | the backward turn (three forward turns) undoes the forward turn and vice versa |
| ValueCubes.TurnLocality | solve.py:443-486 | squares off the turned face and not attached to it, and every centre square, keep their colour under both directions |
| ValueCubes.TurnPermutes | solve.py:444-486 | a turn permutes the 54 stickers: the multiset of colours is unchanged |
| ValueCubes.TurnFace | solve.py:439-441 | direction 1 is the backward turn, any other direction the forward turn |
| ValueCubes.RotateFace | solve.py:489-495 | `rotate_face` is the idle move for face 6 and the turn otherwise |
| ValueCubes.ApplyMoves | solve.py:557-564 | the loop over decoded codes gives the left-to-right replay of the codes |
| ValueCubes.ReplayAppend | solve.py:557-564 | replaying `a + b` is replaying `a` then `b` |
| ValueCubes.Opposite | solve.py:344 | `j ^ 1` turns the same face the other way |
| ValueCubes.MoveThenOpposite | solve.py:339-346 | a move followed by its reversal is the identity |
| ValueCubes.IdleMoves | solve.py:490-491 | codes 12 and 13 leave the cube unchanged |
| ValueCubes.TripleIsOpposite | solve.py:348-355 | three equal moves equal the opposite move once |
| ValueCubes.DoubleReverseIsDoubleForward | solve.py:357-364 | an odd code twice equals code-1 twice |
| CubeStates.AllSquaresEqualIsEquality | solve.py:284-290 | the idle relation holds exactly when the two cubes are equal |
| CubeStates.TurnMeetsRelation | solve.py:231-282 | the concrete forward turn satisfies every emitted equality |
| CubeStates.RelationDeterminesTurn | solve.py:231-282 | the emitted equalities pin the target to the forward turn |
| CubeStates.ForwardRelationIsTurn | solve.py:231-282 | the relation holds exactly when the target is the concrete forward turn |
| CubeStates.ReverseRelationIsTurnBack | solve.py:298 | with the roles swapped, the relation holds exactly when the target is the backward turn |
| CubeStates.RotateRelationIsRotated | solve.py:292-298 | `rotate_face(final, face, dir)` holds exactly when the final cube is the concrete `rotate_face` of the first |
| BitArrays.DecodeBits | solve.py:155-162 | the high-to-low decoding loop computes the little-endian value |
| BitArrays.ValueRange | solve.py:155-162 | the decoded value is in 0 .. 2^size-1 |
| BitArrays.EqualsIntIsEncode | solve.py:137-142 | `equals(int)` holds exactly for the encoding of the int |
| BitArrays.DecodeEncode | solve.py:137-162 | decoding the encoding of v gives v for 0 ≤ v < 2^size |
| BitArrays.EncodeDecode | solve.py:137-162 | encoding the decoded value gives back the bits |
| BitArrays.EncodeTruncates | solve.py:139-142 | the encoding keeps v mod 2^size: wider values are truncated |
| BitArrays.ConstraintDecodes | solve.py:137-162 | `equals(v)` holds exactly when the bits decode to v mod 2^size |
| BitArrays.ArrayEqualsIsValueEquality | solve.py:143-150 | comparing two arrays fails on a size mismatch and otherwise holds exactly when they decode equal |
| BitArrays.LadderPropagates | solve.py:100-111 | once a ladder bit is set, every later ladder bit is set |
| BitArrays.LadderIsExactlyOne | solve.py:100-111 | the ladder constraint is satisfiable for some auxiliary bits exactly when exactly one bit is set |
| BitArrays.LadderOfOneHot | solve.py:100-111 | the ladder bits for a one-hot array at k are `s[i] == i > k` |
| BitArrays.FirstSet | solve.py:119-123 | the first-set decode returns the lowest set bit, or nothing when no bit is set |
| BitArrays.DecodeOneHot | solve.py:119-123 | the early-return loop computes the first set bit |
| BitArrays.OneHotDecodes | solve.py:86-90 | for a one-hot array at k, the decode is k and `move == j` holds exactly for j == k |
| MovePruning.Push | solve.py:338-364 | appending a move to a pruned sequence by rewriting the forbidden pattern keeps it pruned and grows it by at most one |
| MovePruning.PrunedAppend | solve.py:338-364 | the rules only look back two moves: a move that breaks none of them against the last two moves keeps the sequence pruned |
| MovePruning.PushReplay | solve.py:338-364 | that rewrite replays the same as appending the move |
| MovePruning.PushPruned | solve.py:338-364 | when appending keeps the sequence pruned, the rewrite just appends |
| MovePruning.Normalize | solve.py:338-364 | any sequence of codes 0..11 rewrites to a pruned one that is no longer |
| MovePruning.NormalizeReplay | solve.py:338-364 | the rewritten sequence reaches the same cube |
| MovePruning.NormalizePruned | solve.py:338-364 | a pruned sequence is left unchanged |
| MovePruning.PrunedSuffices | solve.py:338-364 | whatever a move sequence reaches, a pruned sequence no longer reaches too: the rules lose no shortest solution |
| CubePaths.Encoded | solve.py:165-175 | a cube encodes as 6×9 arrays of 3 bits |
| CubePaths.ColourRange | solve.py:169 | 3-bit squares hold 8 values |
| CubePaths.EncodedRoundTrip | solve.py:165-175 | a cube with colours 0..7 decodes back from its bits |
| CubePaths.DecodedFits | solve.py:165-175 | every bit cube decodes to colours 0..7 |
| CubePaths.ReplayFits | solve.py:557-564 | replay keeps colours in 0..7 |
| CubePaths.CubePath.constructor | solve.py:302-305 | a fresh path has one state, no moves, no constraints |
| CubePaths.CubePath.SetInitConstraints | solve.py:307-309 | appends the equalities of state 0 to the cube |
| CubePaths.CubePath.AddTargetConstraint | solve.py:311-313 | appends the target on the last state |
| CubePaths.CubePath.AddRotation | solve.py:315-336 | adds one state and one move, and appends that move's step constraint |
| CubePaths.CubePath.AddHelperConstraints | solve.py:338-364 | appends the three pruning rule blocks |
| CubePaths.CubePath.AddUndoRules | solve.py:339-346 | appends 12 no-undo implications per move after the first |
| CubePaths.CubePath.AddTripleRules | solve.py:348-355 | appends 12 no-triple implications per move after the second |
| CubePaths.CubePath.AddDoubleReverseRules | solve.py:357-364 | appends 6 no-double-reverse implications per move after the first |
| CubePaths.CubePath.AddNRotations | solve.py:366-369 | appends n step constraints and then the pruning rules over all moves |
| CubePaths.AllHoldAppend | solve.py:371-372 | the conjunction of appended constraint lists is the conjunction of both |
| CubePaths.AllHoldIndexed | solve.py:371-372 | the conjunction holds exactly when every constraint holds |
| CubePaths.RotationStepsHold | solve.py:366-369 | the step constraints hold exactly when every step holds |
| CubePaths.GoalConstraintsHold | solve.py:311-313 | the targets hold exactly when each target holds on the last state |
| CubePaths.PathParts | solve.py:301-372 | a whole path formula splits into init, steps, pruning rules and targets |
| CubePaths.UndoRulesHold | solve.py:339-346 | the no-undo block holds exactly when every implication of it holds |
| CubePaths.TripleRulesHold | solve.py:348-355 | the no-triple block holds exactly when every implication of it holds |
| CubePaths.DoubleReverseRulesHold | solve.py:357-364 | the no-double-reverse block holds exactly when every implication of it holds, for odd codes |
| CubePaths.OneHotSelected | solve.py:315-330 | one-hot selectors decode to codes 0..11 |
| CubePaths.UndoMeansNoUndo | solve.py:339-346 | the no-undo implications hold exactly when no code follows its reversal |
| CubePaths.TripleMeansNoTriple | solve.py:348-355 | the no-triple implications hold exactly when no code repeats three times |
| CubePaths.DoubleReverseMeansNoDoubleReverse | solve.py:357-364 | the no-double-reverse implications hold exactly when no odd code repeats |
| CubePaths.HelperRulesArePruning | solve.py:338-364 | the pruning constraints hold exactly when the decoded codes are pruned |
| CubePaths.InitDecodes | solve.py:307-309 | the init equalities hold exactly when state 0 decodes to the cube |
| CubePaths.RotationStep | solve.py:315-336 | a step constraint forces a one-hot move m < 12 and makes the next state the concrete move m of this one |
| CubePaths.StatesReplay | solve.py:315-336 | state k decodes to the replay of the first k decoded moves |
| CubePaths.PathSound | solve.py:301-372 | any model of a path formula gives pruned codes whose replay is the last state and meets every target |
| CubePaths.Witness | solve.py:315-336 | builds a well-shaped assignment for a code sequence |
| CubePaths.WitnessOneHot | solve.py:315-330 | the witness selectors are one-hot and decode to the codes |
| CubePaths.WitnessStates | solve.py:315-336 | witness state k is the replay of the first k codes |
| CubePaths.WitnessStep | solve.py:315-336 | every step constraint holds for the witness |
| CubePaths.WitnessSelector | solve.py:315-330 | the witness selector k meets the ladder and selects exactly code k |
| CubePaths.WitnessTurns | solve.py:331-336 | witness state k+1 is witness state k turned by code k |
| CubePaths.PathComplete | solve.py:301-372 | every pruned sequence reaching the targets gives a model of the path formula of its length |
| CubePaths.EncodingExact | solve.py:301-372 | a path formula of n moves is satisfiable exactly when some pruned sequence of n moves reaches the targets |
| Notation.Across | solve.py:378-381 | `face ^ 1` is the other face on the same axis |
| Notation.FillLabels | solve.py:376-398 | filling the list in the source's order leaves, per face, the last letter written to it |
| Notation.FacesToRelativeAsWritten | solve.py:375-399 | `faces_to_relative` as written labels the faces with its own top face |
| Notation.FacesToRelative | solve.py:375-399 | the corrected `faces_to_relative` labels the faces with the corrected top face |
| Notation.LabelsKeepRoles | solve.py:376-398 | on three distinct axes, front/back/left/right/top/bottom get F/B/L/R/U/D |
| Notation.LabelsNameEachFaceOnce | solve.py:376-398 | on three distinct axes the six letters are a permutation of FBLRUD |
| Notation.AsWrittenFirstBranch | solve.py:387-391 | when the left axis follows the front axis, the labels are a permutation and the top is left × front |
| Notation.AsWrittenSecondBranch | solve.py:392-398 | otherwise the top lands on the left axis: L and R are overwritten, the third axis keeps the default L on both faces, and no face is R |
| Notation.AsWrittenCounterexample | solve.py:392-398 | front 0, left 4 yields F, B, L, L, D, U |
| Notation.CorrectedLabels | solve.py:384-398 | with the corrected top axis, the labels are a permutation, the top face is U, and the top normal is left × front in both branches |
| Notation.CorrectedTopFace | solve.py:387-398 | the corrected top face lies on the third axis and its normal is left × front |
| Notation.PrintTokens | solve.py:404-417 | the loop emits one token per non-idle code: the face's label, with a tick exactly when `dir ^ (face & 1) == 1` |
| Notation.GetRelativeMoves | solve.py:401-418 | the printed moves are the tokens of the codes under the labels of `faces_to_relative` as written |
| Notation.GetRelativeMovesCorrected | solve.py:401-418 | the printed moves are the tokens of the codes under the corrected labels |
| Notation.TokensPerMove | solve.py:401-418 | there is one token per code below 12 |
| Notation.TokensOfSelected | solve.py:401-418 | for codes 0..11, token k translates code k |
| Notation.CorrectedLabelsDistinct | solve.py:375-399 | the corrected labels are six distinct letters |
| Notation.TokenReadsBack | solve.py:409-417 | with distinct labels, a token reads back to its code |
| Notation.RelativeMovesReadBack | solve.py:401-418 | with the corrected labels, the printed moves determine the absolute move codes |
| Notation.AsWrittenPrintsWrongFace | solve.py:392-418 | for front 0, left 4 the source prints code 4 as L, where the corrected labels print D |
| Notation.AsWrittenTokensClash | solve.py:392-418 | with the as-written labels for front 0, left 4, codes 4 and 7 both print L |
| Layout.FaceIdIndexRange | solve.py:526-555 | a cell inside the cross gives a face 0..5 and a square 0..8; a cell outside gives (-1, 0) |
| Layout.StickerDrawnOnce | solve.py:526-555 | every sticker has a cell in the cross that shows it |
| Layout.CellShowsItsSticker | solve.py:526-555 | every cell of the cross shows one sticker, and that sticker's cell is this cell |
| Layout.NetFolds | solve.py:526-555 | cells side by side across a fold in the drawing show stickers that touch on the cube |
| CubeSolvers.ShortestSolution | solve.py:631-666 | at the first horizon that is not unsat, the model's moves are pruned and reach the targets, and unless the cube already meets them no shorter move sequence does |
| CubeSolvers.CubeSolver.constructor | solve.py:624-626 | starts from the given cube with no targets, no model and no path |
| CubeSolvers.CubeSolver.AddTargetConstraint | solve.py:628-629 | appends the target and keeps the cube, the model and the path |
| CubeSolvers.CubeSolver.BuildPath | solve.py:642-649 | the loop body's path is the init equalities, n steps, the pruning rules and every target on the last state |
| CubeSolvers.CubeSolver.SolveMinimum | solve.py:631-666 | the horizons 1, 2, … before the result were all unsat; on a model, the cube becomes the replay of its pruned moves and meets every target; on unknown, the cube is unchanged; either way the solver keeps the fresh path of the last horizon tried, whose constraints are the path formula for the start cube and the targets |

## Left out

- **The Z3 solver.** The calls `solve` and `minimize` (solve.py:16-39) and Z3 term
  construction are left out. The formulas are the `Constraint` datatype with its `Holds`
  semantics, and the solver is a function parameter of `SolveMinimum`.
  `CubeSolvers.SoundSolver` states the one assumption about it: models satisfy the
  formula, and `unsat` means there is no model.
- **Reading a Z3 model.** `get_int_value_from_model` looks bits up in a Z3 model. Here it
  decodes concrete `seq<bool>` values from an `Assignment`.
- **An unknown answer.** On `unknown`, `solve` returns `None`. `solve_minimum` then treats
  that as a model and crashes in `apply_moves`. `SolveMinimum` reports `GaveUp` instead and
  leaves the cube as it was. Callers need to tell `unknown` from `unsat`; the source cannot,
  so `SolveMinimum` reports `GaveUp`.
- CubeSolvers.CubeSolver.SolveMinimum: requires that some horizon is not answered `unsat`.
  The source loops for ever otherwise.
- **Orientation checks.** The source never checks that `faces_to_relative`'s front and
  left faces are on different axes. `Viewpoint` is a precondition of the notation members.
- **Console output and timing.** Left out are the console rendering (`print_index_chart`,
  `print_cube`, `print_relative_moves`, solve.py:566-607, 420-425, 668-673), the progress
  and timing prints inside `solve_minimum` (solve.py:638, 650-654), and the random demo
  script (solve.py:675-757).
- **Source details with no effect.** The unused imports (solve.py:1-6) and the
  `NeighborDirection` tuple values (solve.py:71-75) are left out. `NeighborDirection` is a
  plain datatype.
- **Colours.** Colours are unbounded integers. The bit-level results (`EncodingExact`,
  `PathSound`, `SolveMinimum`) require colours 0..7 (`FitsBits`), which is what 3-bit
  squares can hold. `EncodeTruncates` states what happens to wider values.
- **CubePath's lists.** `CubePath` keeps its symbolic states and moves as the counts
  `stateCount` and `moveCount`. The constraints name states and moves by index, and an
  `Assignment` supplies their bits.
- **Object state of CubeSolver.** Assigning `self.cube_path` is modelled as the
  `cubePath` field. `min_sat` and `max_unsat` are kept as locals the result never reads,
  as in the source. The source creates `self.model` and `self.cube_path` only in
  `solve_minimum`; the constructor starts them as `None` and `null`.

## Findings

| source | as written | input that shows it | evidently intended | confidence | as-written member | corrected member |
|---|---|---|---|---|---|---|
| solve.py:393 | in the `else` branch `top_axis = (front_axis+2) % 3`, which is the left axis there; U/D then overwrite L/R, and both faces of the third axis keep the default `'L'` | front face 0, left face 4: labels F, B, L, L, D, U, so move codes 4 and 7 both print `L` | `top_axis = (front_axis+1) % 3`, the remaining axis; the sign formula on lines 394-395 then gives the right-handed top face (normal = left × front) | not executed | Notation.AsWrittenSecondBranch, Notation.AsWrittenCounterexample, Notation.AsWrittenTokensClash, Notation.AsWrittenPrintsWrongFace | Notation.CorrectedLabels, Notation.FacesToRelative, Notation.GetRelativeMovesCorrected |
