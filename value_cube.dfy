/**
 * The concrete cube (`ValueCube`): 6 faces of 9 squares, each holding a
 * colour.  A face turn builds a fresh cube, so cubes are values here.
 */
module ValueCubes {
  import opened Geometry

  predicate IsCube(c: seq<seq<int>>)
  {
    |c| == 6 && forall f :: 0 <= f < 6 ==> |c[f]| == 9
  }

  type Cube = c: seq<seq<int>> | IsCube(c)
    witness [[0, 0, 0, 0, 0, 0, 0, 0, 0], [1, 1, 1, 1, 1, 1, 1, 1, 1], [2, 2, 2, 2, 2, 2, 2, 2, 2],
             [3, 3, 3, 3, 3, 3, 3, 3, 3], [4, 4, 4, 4, 4, 4, 4, 4, 4], [5, 5, 5, 5, 5, 5, 5, 5, 5]]

  /** A square of the cube, named by face and position. */
  datatype Sticker = Sticker(face: Face, square: Square)

  /** The solved cube `ValueCube()`: every square of face f has colour f. */
  function SolvedCube(): (c: Cube)
    ensures forall f, s :: 0 <= f < 6 && 0 <= s < 9 ==> c[f][s] == f
  {
    seq(6, f requires 0 <= f < 6 => seq(9, s requires 0 <= s < 9 => f))
  }

  /** Two cubes that agree on every square are equal. */
  lemma CubeExtensionality(a: Cube, b: Cube)
    requires forall f, s :: 0 <= f < 6 && 0 <= s < 9 ==> a[f][s] == b[f][s]
    ensures a == b
  {
    forall f | 0 <= f < 6
      ensures a[f] == b[f]
    {
    }
  }

  // ---------------------------------------------------------------------
  // Specification of a forward turn, stated per destination square.
  // ---------------------------------------------------------------------

  /**
   * The square of `face` that touches square s of the attached face f.
   */
  function TouchingSquare(face: Face, f: Face, s: Square): (p: Square)
    requires f != face && IsAttached(f, s, face)
    ensures NeighborArrayPos(face, p, DirectionTo(face, f)) == s
  {
    AttachedLookup(face, f, s);
    NeighborArrayPos(f, s, DirectionTo(f, face))
  }

  lemma AttachedLookup(face: Face, f: Face, s: Square)
    requires f != face && IsAttached(f, s, face)
    ensures var p := NeighborArrayPos(f, s, DirectionTo(f, face));
            0 <= p < 9 && NeighborArrayPos(face, p, DirectionTo(face, f)) == s
  {
    var dd := DirectionTo(f, face);
    AdjacencyAgreement(f, s, dd);
    NeighborRoundTrip(f, s, dd);
    DirectionToNeighbor(face, DirectionTo(face, f));
  }

  /**
   * Where the square that a forward turn of `face` puts at (f, s) comes
   * from: the face's own squares turn by a quarter, the edge strips of the
   * four neighbours move one step along HN -> VN -> HP -> VP -> HN, and every
   * other square stays where it is.
   */
  function SourceOf(face: Face, f: Face, s: Square): (src: Sticker)
  {
    if f == face then Sticker(face, InverseRotation(s))
    else if IsAttached(f, s, face) then
      var d := DirectionTo(face, f);
      var i := InverseRotation(TouchingSquare(face, f, s));
      SourceOnStrip(face, i, Previous(d));
      Sticker(NeighborFace(face, Previous(d)), NeighborArrayPos(face, i, Previous(d)))
    else Sticker(f, s)
  }

  lemma SourceOnStrip(face: Face, i: Square, d: NeighborDirection)
    requires NeighborArrayPos(face, RotationMap(i), Next(d)) >= 0 || NeighborArrayPos(face, i, d) >= 0
    ensures 0 <= NeighborArrayPos(face, i, d) < 9
  {
    RotationCarriesEdges(face, i, d);
    AdjacencyAgreement(face, i, d);
  }

  /** The forward turn of `face` (direction 0): each square takes the colour of its source. */
  function Turn(c: Cube, face: Face): (r: Cube)
  {
    seq(6, f requires 0 <= f < 6 =>
      seq(9, s requires 0 <= s < 9 => c[SourceOf(face, f, s).face][SourceOf(face, f, s).square]))
  }

  // ---------------------------------------------------------------------
  // Which step of the source's first loop writes which square.
  // ---------------------------------------------------------------------

  /** The iteration of the turn's first loop that writes (f, s); 9 for squares it never writes. */
  function WriterStep(face: Face, f: Face, s: Square): (k: int)
    ensures 0 <= k <= 9
    ensures k == 9 <==> f != face && !IsAttached(f, s, face)
  {
    if f == face then InverseRotation(s)
    else if IsAttached(f, s, face) then InverseRotation(TouchingSquare(face, f, s))
    else 9
  }

  /** Step i of the first loop writes square RotationMap(i) of the turned face with its old square i. */
  lemma OwnFaceWrite(c: Cube, face: Face, i: Square)
    ensures WriterStep(face, face, RotationMap(i)) == i
    ensures Turn(c, face)[face][RotationMap(i)] == c[face][i]
  {
    RotationTable(i);
  }

  /**
   * Step i of the first loop moves the strip square of edge d touching
   * square i onto the strip square of edge Next(d) touching RotationMap(i).
   */
  lemma StripWrite(c: Cube, face: Face, i: Square, d: NeighborDirection)
    requires NeighborArrayPos(face, i, d) >= 0
    ensures var t := NeighborArrayPos(face, RotationMap(i), Next(d));
            var g := NeighborFace(face, Next(d));
            0 <= t < 9 && g != face && IsAttached(g, t, face) && WriterStep(face, g, t) == i
            && Turn(c, face)[g][t] == c[NeighborFace(face, d)][NeighborArrayPos(face, i, d)]
  {
    var p := RotationMap(i);
    RotationCarriesEdges(face, i, d);
    var t := NeighborArrayPos(face, p, Next(d));
    var g := NeighborFace(face, Next(d));
    AdjacencyAgreement(face, p, Next(d));
    NeighborRoundTrip(face, p, Next(d));
    DirectionToNeighbor(face, Next(d));
    assert TouchingSquare(face, g, t) == p;
    RotationTable(i);
  }

  /** Every square the first loop writes is written by the step WriterStep names, and by one write. */
  lemma WriterStepInverse(face: Face, f: Face, s: Square)
    requires WriterStep(face, f, s) < 9
    ensures var i := WriterStep(face, f, s);
            if f == face then s == RotationMap(i)
            else
              var d := Previous(DirectionTo(face, f));
              NeighborArrayPos(face, i, d) >= 0 && f == NeighborFace(face, Next(d))
              && s == NeighborArrayPos(face, RotationMap(i), Next(d))
  {
    var i := WriterStep(face, f, s);
    if f == face {
      RotationTable(s);
    } else {
      var p := TouchingSquare(face, f, s);
      RotationTable(p);
      var d := Previous(DirectionTo(face, f));
      assert Next(d) == DirectionTo(face, f);
      RotationCarriesEdges(face, i, d);
    }
  }

  /**
   * Progress of the turn's first loop: the squares written by steps before
   * i, and by step i on the faces in `done`, hold their turned colour; all
   * others still hold the colour f of `SolvedCube()`, which fills the fresh cube.
   */
  ghost predicate TurnProgress(final: array2<int>, c: Cube, face: Face, i: int, done: set<int>)
    requires final.Length0 == 6 && final.Length1 == 9
    reads final
  {
    forall f, s :: 0 <= f < 6 && 0 <= s < 9 ==>
      final[f, s] == if WriterStep(face, f, s) < i || (WriterStep(face, f, s) == i && f in done)
                     then Turn(c, face)[f][s] else f
  }

  // ---------------------------------------------------------------------
  // The turn as the source performs it: writes into a fresh solved cube.
  // ---------------------------------------------------------------------

  /**
   * One of the four strip moves of step i: when square i of `face` lies on
   * edge d, the neighbour square across d is copied onto the square across
   * edge Next(d) that touches RotationMap(i).
   */
  method MoveStripSquare(final: array2<int>, c: Cube, face: Face, i: Square, d: NeighborDirection,
                         ghost done: set<int>)
    requires final.Length0 == 6 && final.Length1 == 9
    requires TurnProgress(final, c, face, i, done)
    modifies final
    ensures TurnProgress(final, c, face, i, done + {NeighborFace(face, Next(d))})
  {
    var pos := NeighborArrayPos(face, i, d);
    if pos >= 0 {
      StripWrite(c, face, i, d);
      var target := NeighborArrayPos(face, RotationMap(i), Next(d));
      final[NeighborFace(face, Next(d)), target] := c[NeighborFace(face, d)][pos];
    }
    forall f, s | 0 <= f < 6 && 0 <= s < 9 && f == NeighborFace(face, Next(d)) && WriterStep(face, f, s) == i
      ensures final[f, s] == Turn(c, face)[f][s]
    {
      DirectionToNeighbor(face, Next(d));
      assert Previous(Next(d)) == d;
      WriterStepInverse(face, f, s);
    }
  }

  /**
   * Step i of the turn's first loop: square i of `face` goes to
   * RotationMap(i), then the four strip squares across its edges move one
   * edge on (h_neg to v_neg, v_neg to h_pos, h_pos to v_pos, v_pos to h_neg).
   */
  method TurnStep(final: array2<int>, c: Cube, face: Face, i: Square)
    requires final.Length0 == 6 && final.Length1 == 9
    requires TurnProgress(final, c, face, i, {})
    modifies final
    ensures TurnProgress(final, c, face, i + 1, {})
  {
    var faceHNeg := NeighborFace(face, HN);
    var faceHPos := NeighborFace(face, HP);
    var faceVNeg := NeighborFace(face, VN);
    var faceVPos := NeighborFace(face, VP);
    var fi := RotationMap(i);
    final[face, fi] := c[face][i];
    OwnFaceWrite(c, face, i);
    assert TurnProgress(final, c, face, i, {face}) by {
      forall s | 0 <= s < 9 && WriterStep(face, face, s) == i
        ensures final[face, s] == Turn(c, face)[face][s]
      {
        WriterStepInverse(face, face, s);
      }
    }
    MoveStripSquare(final, c, face, i, HN, {face});
    MoveStripSquare(final, c, face, i, VN, {face, faceVNeg});
    MoveStripSquare(final, c, face, i, HP, {face, faceVNeg, faceHPos});
    MoveStripSquare(final, c, face, i, VP, {face, faceVNeg, faceHPos, faceVPos});
    forall f, s | 0 <= f < 6 && 0 <= s < 9 && WriterStep(face, f, s) == i
      ensures f in {face, faceVNeg, faceHPos, faceVPos, faceHNeg}
    {
      WriterStepInverse(face, f, s);
      NeighborsOffAxis(face, f);
    }
  }

  /**
   * The turn's second loop: every square of another face that does not
   * touch `face` is copied from the old cube.
   */
  method CopyUntouched(final: array2<int>, c: Cube, face: Face)
    requires final.Length0 == 6 && final.Length1 == 9
    requires TurnProgress(final, c, face, 9, {})
    modifies final
    ensures forall g, s :: 0 <= g < 6 && 0 <= s < 9 ==> final[g, s] == Turn(c, face)[g][s]
  {
    for f := 0 to 6
      invariant forall g, s :: 0 <= g < 6 && 0 <= s < 9 ==>
                  final[g, s] == if WriterStep(face, g, s) < 9 || g < f then Turn(c, face)[g][s] else g
    {
      if f != face {
        for j := 0 to 9
          invariant forall g, s :: 0 <= g < 6 && 0 <= s < 9 ==>
                      final[g, s] == if WriterStep(face, g, s) < 9 || g < f || (g == f && s < j)
                                     then Turn(c, face)[g][s] else g
        {
          if !IsAttached(f, j, face) {
            final[f, j] := c[f][j];
          }
        }
      }
    }
  }

  /**
   * `ValueCube.__rotate_face(face, 0)`: turn `face` forward (the positive
   * face anticlockwise, the negative face clockwise).  Every one of the 54
   * squares of the fresh cube is overwritten, so no colour of the solved
   * cube it starts from survives.
   */
  method RotateForward(c: Cube, face: Face) returns (r: Cube)
    ensures r == Turn(c, face)
  {
    var final := new int[6, 9]((f, s) requires 0 <= f < 6 && 0 <= s < 9 => SolvedCube()[f][s]);
    assert forall f, s :: 0 <= f < 6 && 0 <= s < 9 ==> final[f, s] == SolvedCube()[f][s] == f;
    for i := 0 to 9
      invariant TurnProgress(final, c, face, i, {})
    {
      TurnStep(final, c, face, i);
    }
    CopyUntouched(final, c, face);
    r := seq(6, f requires 0 <= f < 6 reads final =>
               seq(9, s requires 0 <= s < 9 reads final => final[f, s]));
    CubeExtensionality(r, Turn(c, face));
  }

  // ---------------------------------------------------------------------
  // Algebra of the forward turn.
  // ---------------------------------------------------------------------

  /** The source of a square under a forward turn, as a map on stickers. */
  function Source(face: Face, st: Sticker): Sticker
  {
    SourceOf(face, st.face, st.square)
  }

  /**
   * A square of the strip around `face` comes from the strip one edge back
   * (Previous), at the square touching the pre-image of its own touching square.
   */
  lemma SourceAlongStrip(face: Face, f: Face, s: Square)
    requires f != face && IsAttached(f, s, face)
    ensures var src := SourceOf(face, f, s);
            src.face != face && IsAttached(src.face, src.square, face)
            && DirectionTo(face, src.face) == Previous(DirectionTo(face, f))
            && TouchingSquare(face, src.face, src.square) == InverseRotation(TouchingSquare(face, f, s))
  {
    var d := Previous(DirectionTo(face, f));
    var i := InverseRotation(TouchingSquare(face, f, s));
    var src := SourceOf(face, f, s);
    SourceOnStrip(face, i, d);
    AdjacencyAgreement(face, i, d);
    NeighborsDistinct(face);
    DirectionToNeighbor(face, d);
    NeighborRoundTrip(face, i, d);
  }

  /** A strip square is determined by its edge and the square of `face` it touches. */
  lemma StripSquareDetermined(face: Face, f: Face, s: Square)
    requires f != face && IsAttached(f, s, face)
    ensures f == NeighborFace(face, DirectionTo(face, f))
    ensures s == NeighborArrayPos(face, TouchingSquare(face, f, s), DirectionTo(face, f))
  {
  }

  /** Four forward turns bring every square back to where it started. */
  lemma {:induction false} SourceOrderFour(face: Face, st: Sticker)
    ensures Source(face, Source(face, Source(face, Source(face, st)))) == st
  {
    var s1 := Source(face, st);
    var s2 := Source(face, s1);
    var s3 := Source(face, s2);
    var s4 := Source(face, s3);
    if st.face == face {
      InverseRotationOrderFour(st.square);
    } else if IsAttached(st.face, st.square, face) {
      SourceAlongStrip(face, st.face, st.square);
      SourceAlongStrip(face, s1.face, s1.square);
      SourceAlongStrip(face, s2.face, s2.square);
      SourceAlongStrip(face, s3.face, s3.square);
      InverseRotationOrderFour(TouchingSquare(face, st.face, st.square));
      var d := DirectionTo(face, st.face);
      assert Previous(Previous(Previous(Previous(d)))) == d;
      StripSquareDetermined(face, st.face, st.square);
      StripSquareDetermined(face, s4.face, s4.square);
    }
  }

  /** The reverse turn (direction 1): three forward turns, as `__rotate_face(face, 1)` does. */
  function TurnBack(c: Cube, face: Face): (r: Cube)
  {
    Turn(Turn(Turn(c, face), face), face)
  }

  /** Order four: four forward turns of any face give back the original cube. */
  lemma TurnOrderFour(c: Cube, face: Face)
    ensures Turn(Turn(Turn(Turn(c, face), face), face), face) == c
  {
    var r := Turn(Turn(Turn(Turn(c, face), face), face), face);
    forall f, s | 0 <= f < 6 && 0 <= s < 9
      ensures r[f][s] == c[f][s]
    {
      SourceOrderFour(face, Sticker(f, s));
    }
    CubeExtensionality(r, c);
  }

  /** A forward turn followed by a reverse turn, or the other way round, is the identity. */
  lemma TurnInverses(c: Cube, face: Face)
    ensures TurnBack(Turn(c, face), face) == c
    ensures Turn(TurnBack(c, face), face) == c
  {
    TurnOrderFour(c, face);
  }

  /**
   * Locality: a turn of `face`, in either direction, leaves every square of
   * another face that is not attached to `face` unchanged, and the centre
   * square of every face.
   */
  lemma TurnLocality(c: Cube, face: Face, f: Face, s: Square)
    requires (f != face && !IsAttached(f, s, face)) || s == 4
    ensures Turn(c, face)[f][s] == c[f][s]
    ensures TurnBack(c, face)[f][s] == c[f][s]
  {
    InverseRotationOrderFour(s);
  }

  /** The 54 squares of a cube read face by face. */
  function Flatten(c: Cube): (r: seq<int>)
    ensures |r| == 54
  {
    seq(54, k requires 0 <= k < 54 => c[k / 9][k % 9])
  }

  function Index(st: Sticker): (k: int)
  {
    st.face * 9 + st.square
  }

  function StickerAt(k: int): Sticker
    requires 0 <= k < 54
  {
    Sticker(k / 9, k % 9)
  }

  lemma IndexRoundTrip(st: Sticker)
    ensures 0 <= Index(st) < 54 && StickerAt(Index(st)) == st
  {
  }

  /** Reordering a sequence along a bijection (p with inverse q) keeps its multiset. */
  lemma {:induction false} ReindexedMultiset(a: seq<int>, b: seq<int>, p: seq<int>, q: seq<int>)
    requires |a| == |b| == |p| == |q|
    requires forall k :: 0 <= k < |p| ==> 0 <= p[k] < |p|
    requires forall k :: 0 <= k < |q| ==> 0 <= q[k] < |q|
    requires forall k :: 0 <= k < |p| ==> q[p[k]] == k
    requires forall k :: 0 <= k < |q| ==> p[q[k]] == k
    requires forall k :: 0 <= k < |b| ==> b[k] == a[p[k]]
    ensures multiset(a) == multiset(b)
    decreases |a|
  {
    if |a| > 0 {
      var n := |a| - 1;
      var j := p[n];
      var a' := a[..j] + a[j + 1..];
      var b' := b[..n];
      var p' := seq(n, k requires 0 <= k < n => if p[k] < j then p[k] else p[k] - 1);
      var q' := seq(n, m requires 0 <= m < n => if m < j then q[m] else q[m + 1]);
      forall k | 0 <= k < n
        ensures p[k] != j
      {
        assert q[p[k]] == k && q[j] == n;
      }
      forall m | 0 <= m < n
        ensures 0 <= q'[m] < n && p'[q'[m]] == m
      {
        var m' := if m < j then m else m + 1;
        assert p[q[m']] == m';
        assert q[m'] != n;
      }
      forall k | 0 <= k < n
        ensures 0 <= p'[k] < n && q'[p'[k]] == k && b'[k] == a'[p'[k]]
      {
        var pk := p[k];
        assert 0 <= pk < n + 1 && pk != j && q[pk] == k && b[k] == a[pk];
        if pk < j {
          assert p'[k] == pk && q'[pk] == q[pk];
          assert a'[pk] == a[pk];
        } else {
          assert p'[k] == pk - 1 && q'[pk - 1] == q[pk];
          assert a'[pk - 1] == a[j + 1..][pk - 1 - j] == a[pk];
        }
      }
      ReindexedMultiset(a', b', p', q');
      assert a == a[..j] + [a[j]] + a[j + 1..];
      assert b == b' + [b[n]];
    }
  }

  /** A turn only moves stickers: the colour counts of the cube are preserved. */
  lemma TurnPermutes(c: Cube, face: Face)
    ensures multiset(Flatten(Turn(c, face))) == multiset(Flatten(c))
  {
    var p := seq(54, k requires 0 <= k < 54 => Index(Source(face, StickerAt(k))));
    var q := seq(54, k requires 0 <= k < 54 =>
                   Index(Source(face, Source(face, Source(face, StickerAt(k))))));
    forall k | 0 <= k < 54
      ensures q[p[k]] == k && p[q[k]] == k
    {
      SourceOrderFour(face, StickerAt(k));
      var st := Source(face, StickerAt(k));
      IndexRoundTrip(st);
      SourceOrderFour(face, st);
      var st3 := Source(face, Source(face, Source(face, StickerAt(k))));
      IndexRoundTrip(st3);
      IndexRoundTrip(StickerAt(k));
    }
    forall k | 0 <= k < 54
      ensures Flatten(Turn(c, face))[k] == Flatten(c)[p[k]]
    {
      IndexRoundTrip(Source(face, StickerAt(k)));
    }
    ReindexedMultiset(Flatten(c), Flatten(Turn(c, face)), p, q);
  }

  // ---------------------------------------------------------------------
  // Dispatch and replay of move codes.
  // ---------------------------------------------------------------------

  /**
   * `rotate_face(face, dir)`: face 6 is the idle move and returns the cube
   * itself; direction 1 is three forward turns, any other direction one.
   */
  function Rotated(c: Cube, face: int, dir: int): Cube
    requires 0 <= face <= 6
  {
    if face == 6 then c else if dir == 1 then TurnBack(c, face) else Turn(c, face)
  }

  /** `ValueCube.__rotate_face(face, dir)`: direction 1 is three forward turns. */
  method TurnFace(c: Cube, face: Face, dir: int) returns (r: Cube)
    ensures r == if dir == 1 then TurnBack(c, face) else Turn(c, face)
  {
    if dir == 1 {
      var once := RotateForward(c, face);
      var twice := RotateForward(once, face);
      r := RotateForward(twice, face);
    } else {
      r := RotateForward(c, face);
    }
  }

  /** `ValueCube.rotate_face(face, dir)`. */
  method RotateFace(c: Cube, face: int, dir: int) returns (r: Cube)
    requires 0 <= face <= 6
    ensures r == Rotated(c, face, dir)
  {
    if face == 6 {
      return c;
    }
    r := TurnFace(c, face, dir);
  }

  /**
   * A move code m (0..11 from the move selector, 12 and 13 idle) turns face
   * m / 2 in direction m % 2.
   */
  predicate IsCode(m: int)
  {
    0 <= m < 14
  }

  predicate AllCodes(codes: seq<int>)
  {
    forall k :: 0 <= k < |codes| ==> IsCode(codes[k])
  }

  function ApplyCode(c: Cube, m: int): Cube
    requires IsCode(m)
  {
    Rotated(c, m / 2, m % 2)
  }

  /** The cube after the moves `codes`, applied first to last. */
  function Replay(c: Cube, codes: seq<int>): Cube
    requires AllCodes(codes)
    decreases |codes|
  {
    if codes == [] then c else ApplyCode(Replay(c, codes[..|codes| - 1]), codes[|codes| - 1])
  }

  /** `ValueCube.apply_moves`, with the decoded move codes given directly. */
  method ApplyMoves(c: Cube, codes: seq<int>) returns (output: Cube)
    requires AllCodes(codes)
    ensures output == Replay(c, codes)
  {
    output := c;
    for k := 0 to |codes|
      invariant output == Replay(c, codes[..k])
    {
      assert codes[..k + 1][..k] == codes[..k];
      output := RotateFace(output, codes[k] / 2, codes[k] % 2);
    }
    assert codes[..|codes|] == codes;
  }

  /** Replaying a concatenation replays the first part, then the second. */
  lemma {:induction false} ReplayAppend(c: Cube, a: seq<int>, b: seq<int>)
    requires AllCodes(a) && AllCodes(b)
    ensures AllCodes(a + b) && Replay(c, a + b) == Replay(Replay(c, a), b)
    decreases |b|
  {
    if b != [] {
      var b' := b[..|b| - 1];
      assert (a + b)[..|a + b| - 1] == a + b';
      ReplayAppend(c, a, b');
    } else {
      assert a + b == a;
    }
  }

  /** The code of the same face turned the other way (`m ^ 1`). */
  function Opposite(m: int): (r: int)
    requires 0 <= m < 12
    ensures 0 <= r < 12 && r / 2 == m / 2 && r % 2 != m % 2
  {
    if m % 2 == 0 then m + 1 else m - 1
  }

  /** A move followed by its opposite returns the cube unchanged. */
  lemma MoveThenOpposite(c: Cube, m: int)
    requires 0 <= m < 12
    ensures ApplyCode(ApplyCode(c, m), Opposite(m)) == c
  {
    TurnInverses(c, m / 2);
  }

  /** The idle codes leave the cube unchanged. */
  lemma IdleMoves(c: Cube)
    ensures ApplyCode(c, 12) == c && ApplyCode(c, 13) == c
  {
  }

  /** Three equal moves have the effect of the opposite move once. */
  lemma TripleIsOpposite(c: Cube, m: int)
    requires 0 <= m < 12
    ensures ApplyCode(ApplyCode(ApplyCode(c, m), m), m) == ApplyCode(c, Opposite(m))
  {
    var face := m / 2;
    if m % 2 == 1 {
      var t := Turn(c, face);
      TurnOrderFour(t, face);
      TurnOrderFour(Turn(Turn(Turn(Turn(t, face), face), face), face), face);
    }
  }

  /** Two equal reverse moves have the effect of two forward moves of the same face. */
  lemma DoubleReverseIsDoubleForward(c: Cube, m: int)
    requires 0 <= m < 12 && m % 2 == 1
    ensures ApplyCode(ApplyCode(c, m), m) == ApplyCode(ApplyCode(c, m - 1), m - 1)
  {
    var face := m / 2;
    var t2 := Turn(Turn(c, face), face);
    TurnOrderFour(t2, face);
  }
}
