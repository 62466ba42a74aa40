/**
 * Move notation relative to a viewer: `CubePath.faces_to_relative` names
 * each absolute face F, B, L, R, U or D given the faces in front and on the
 * left, and `get_relative_moves` prints every move as that letter, with a
 * tick for a counter-clockwise turn.
 */
module Notation {
  import opened Geometry
  import opened ValueCubes
  import opened MovePruning

  /** The face on the other end of the axis (`face ^ 1`). */
  function Across(face: Face): (r: Face)
    ensures r / 2 == face / 2 && r != face
  {
    if face % 2 == 0 then face + 1 else face - 1
  }

  /** `x ^ y` on single bits. */
  function Xor(x: int, y: int): int
  {
    if (x % 2 == 1) != (y % 2 == 1) then 1 else 0
  }

  /** Front and left lie on different axes; the code relies on it without checking. */
  predicate Viewpoint(front: Face, left: Face)
  {
    front / 2 != left / 2
  }

  /**
   * The label of face f after the writes of `faces_to_relative`, in their
   * order: default 'L', then F, B, L, R, U, D, so a later write wins.
   */
  function Label(front: Face, left: Face, top: Face, f: int): char
  {
    if f == Across(top) then 'D'
    else if f == top then 'U'
    else if f == Across(left) then 'R'
    else if f == left then 'L'
    else if f == Across(front) then 'B'
    else if f == front then 'F'
    else 'L'
  }

  function Labels(front: Face, left: Face, top: Face): seq<char>
  {
    seq(6, f => Label(front, left, top, f))
  }

  /** Fills the six labels the way `faces_to_relative` fills its list. */
  method FillLabels(front: Face, left: Face, top: Face) returns (faces: seq<char>)
    ensures faces == Labels(front, left, top)
  {
    var a := new char[6](_ => 'L');
    a[front] := 'F';
    a[Across(front)] := 'B';
    a[left] := 'L';
    a[Across(left)] := 'R';
    a[top] := 'U';
    a[Across(top)] := 'D';
    faces := a[..];
  }

  /** The top face as line 387-396 compute it. */
  function TopFaceAsWritten(front: Face, left: Face): Face
  {
    var leftAxis, frontAxis := left / 2, front / 2;
    if leftAxis == (frontAxis + 1) % 3 then
      2 * ((leftAxis + 1) % 3) + Xor(left, front)
    else
      2 * ((frontAxis + 2) % 3) + Xor(Xor(left, front), 1)
  }

  /** The top face with the third axis in the second branch too: `(front_axis + 1) % 3`. */
  function TopFace(front: Face, left: Face): Face
  {
    var leftAxis, frontAxis := left / 2, front / 2;
    if leftAxis == (frontAxis + 1) % 3 then
      2 * ((leftAxis + 1) % 3) + Xor(left, front)
    else
      2 * ((frontAxis + 1) % 3) + Xor(Xor(left, front), 1)
  }

  /** `faces_to_relative` as the source writes it. */
  method FacesToRelativeAsWritten(front: Face, left: Face) returns (faces: seq<char>)
    requires Viewpoint(front, left)
    ensures faces == Labels(front, left, TopFaceAsWritten(front, left))
  {
    faces := FillLabels(front, left, TopFaceAsWritten(front, left));
  }

  /** `faces_to_relative` with the second branch's top axis corrected. */
  method FacesToRelative(front: Face, left: Face) returns (faces: seq<char>)
    requires Viewpoint(front, left)
    ensures faces == Labels(front, left, TopFace(front, left))
  {
    faces := FillLabels(front, left, TopFace(front, left));
  }

  // ---------------------------------------------------------------------
  // Geometry of the labels
  // ---------------------------------------------------------------------

  /** Component `axis` (0 = x, 1 = y, 2 = z) of the outward unit normal of a face. */
  function Component(face: Face, axis: int): int
  {
    if face / 2 != axis then 0 else if face % 2 == 1 then 1 else -1
  }

  /** The product of two components in -1 .. 1, the only values a normal has, without multiplying. */
  function Times(a: int, b: int): int
  {
    if a == 0 || b == 0 then 0 else if a == b then 1 else -1
  }

  lemma TimesIsProduct(a: int, b: int)
    requires -1 <= a <= 1 && -1 <= b <= 1
    ensures Times(a, b) == a * b
  {
    if a == -1 {
      assert a * b == -b;
    } else if a == 1 {
      assert a * b == b;
    } else {
      assert a * b == 0;
    }
  }

  /** The normal of face c is the cross product of the normals of a and b: a x b = c. */
  predicate NormalIsCross(c: Face, a: Face, b: Face)
  {
    && Component(c, 0) == Times(Component(a, 1), Component(b, 2)) - Times(Component(a, 2), Component(b, 1))
    && Component(c, 1) == Times(Component(a, 2), Component(b, 0)) - Times(Component(a, 0), Component(b, 2))
    && Component(c, 2) == Times(Component(a, 0), Component(b, 1)) - Times(Component(a, 1), Component(b, 0))
  }

  /** The six letters, each once. */
  function Letters(): seq<char>
  {
    ['F', 'B', 'L', 'R', 'U', 'D']
  }

  lemma SameAxis(k: int, g: Face)
    requires 0 <= k < 6 && k / 2 == g / 2
    ensures k == g || k == Across(g)
  {
  }

  /** Three faces on three different axes, with their opposites, are all six faces. */
  lemma ThreeAxesCover(front: Face, left: Face, top: Face, k: int)
    requires front / 2 != left / 2 && left / 2 != top / 2 && top / 2 != front / 2 && 0 <= k < 6
    ensures k == front || k == Across(front) || k == left || k == Across(left) || k == top || k == Across(top)
  {
    if k / 2 == front / 2 {
      SameAxis(k, front);
    } else if k / 2 == left / 2 {
      SameAxis(k, left);
    } else {
      SameAxis(k, top);
    }
  }

  /** The face named by letter i of `Letters()`. */
  function FaceOfRole(front: Face, left: Face, top: Face, i: int): int
  {
    if i == 0 then front else if i == 1 then Across(front)
    else if i == 2 then left else if i == 3 then Across(left)
    else if i == 4 then top else Across(top)
  }

  /** The position in `Letters()` of face f's role. */
  function RoleOfFace(front: Face, left: Face, top: Face, f: int): int
  {
    if f == front then 0 else if f == Across(front) then 1
    else if f == left then 2 else if f == Across(left) then 3
    else if f == top then 4 else 5
  }

  lemma RolesLabelled(front: Face, left: Face, top: Face, i: int)
    requires front / 2 != left / 2 && left / 2 != top / 2 && top / 2 != front / 2 && 0 <= i < 6
    ensures Label(front, left, top, FaceOfRole(front, left, top, i)) == Letters()[i]
    ensures RoleOfFace(front, left, top, FaceOfRole(front, left, top, i)) == i
  {
  }

  lemma RolesCover(front: Face, left: Face, top: Face, f: int)
    requires front / 2 != left / 2 && left / 2 != top / 2 && top / 2 != front / 2 && 0 <= f < 6
    ensures 0 <= RoleOfFace(front, left, top, f) < 6
    ensures FaceOfRole(front, left, top, RoleOfFace(front, left, top, f)) == f
  {
    ThreeAxesCover(front, left, top, f);
  }

  /** When the three faces lie on three different axes, each keeps its letter, and so do their opposites. */
  lemma LabelsKeepRoles(front: Face, left: Face, top: Face)
    requires front / 2 != left / 2 && left / 2 != top / 2 && top / 2 != front / 2
    ensures var r := Labels(front, left, top);
      && r[front] == 'F' && r[Across(front)] == 'B'
      && r[left] == 'L' && r[Across(left)] == 'R'
      && r[top] == 'U' && r[Across(top)] == 'D'
  {
  }

  /** When the three faces lie on three different axes, every letter is used exactly once. */
  lemma LabelsNameEachFaceOnce(front: Face, left: Face, top: Face)
    requires front / 2 != left / 2 && left / 2 != top / 2 && top / 2 != front / 2
    ensures multiset(Labels(front, left, top)) == multiset(Letters())
  {
    var r := Labels(front, left, top);
    var faces := seq(6, i => FaceOfRole(front, left, top, i));
    var p := seq(6, f => RoleOfFace(front, left, top, f));
    forall i | 0 <= i < 6
      ensures 0 <= faces[i] < 6 && p[faces[i]] == i && r[faces[i]] == Letters()[i]
    {
      RolesLabelled(front, left, top, i);
    }
    forall f | 0 <= f < 6
      ensures 0 <= p[f] < 6 && faces[p[f]] == f && r[f] == Letters()[p[f]]
    {
      RolesCover(front, left, top, f);
      RolesLabelled(front, left, top, p[f]);
    }
    ReindexedChars(Letters(), r, p, faces);
  }

  /** p and q are inverse bijections of the indices 0..|p|-1. */
  predicate InverseIndices(p: seq<int>, q: seq<int>)
  {
    && |p| == |q|
    && (forall k :: 0 <= k < |p| ==> 0 <= p[k] < |p|)
    && (forall k :: 0 <= k < |q| ==> 0 <= q[k] < |q|)
    && (forall k :: 0 <= k < |p| ==> q[p[k]] == k)
    && (forall k :: 0 <= k < |q| ==> p[q[k]] == k)
  }

  /** The first n entries of p, renumbered as if index j were gone. */
  function Squeeze(p: seq<int>, n: nat, j: int): (r: seq<int>)
    requires n <= |p|
    ensures |r| == n
  {
    seq(n, k requires 0 <= k < n => if p[k] < j then p[k] else p[k] - 1)
  }

  /** q without its entry j. */
  function Skip(q: seq<int>, j: int): (r: seq<int>)
    requires 0 <= j < |q|
    ensures |r| == |q| - 1
  {
    seq(|q| - 1, m requires 0 <= m < |q| - 1 => if m < j then q[m] else q[m + 1])
  }

  /** Dropping the last index of p, and its image from q, leaves inverse bijections. */
  lemma SqueezeInverse(p: seq<int>, q: seq<int>)
    requires InverseIndices(p, q) && |p| > 0
    ensures var n := |p| - 1;
      && (forall k :: 0 <= k < n ==> p[k] != p[n])
      && InverseIndices(Squeeze(p, n, p[n]), Skip(q, p[n]))
  {
    var n := |p| - 1;
    var j := p[n];
    var p', q' := Squeeze(p, n, j), Skip(q, j);
    forall k | 0 <= k < n
      ensures p[k] != j
    {
      assert q[p[k]] == k && q[p[n]] == n;
    }
    forall m | 0 <= m < n
      ensures 0 <= q'[m] < n && p'[q'[m]] == m
    {
      var mm := if m < j then m else m + 1;
      assert p[q[mm]] == mm;
      assert q[mm] != n;
    }
    forall k | 0 <= k < n
      ensures 0 <= p'[k] < n && q'[p'[k]] == k
    {
      assert q[p[k]] == k;
    }
  }

  /** A sequence read through a bijection of its indices has the same elements. */
  lemma {:induction false} ReindexedChars(a: seq<char>, b: seq<char>, p: seq<int>, q: seq<int>)
    requires |a| == |b| && InverseIndices(p, q) && |p| == |a|
    requires forall k :: 0 <= k < |b| ==> b[k] == a[p[k]]
    ensures multiset(a) == multiset(b)
    decreases |a|
  {
    if |a| > 0 {
      var n := |a| - 1;
      var j := p[n];
      var a' := a[..j] + a[j + 1..];
      var b' := b[..n];
      var p' := Squeeze(p, n, j);
      SqueezeInverse(p, q);
      forall k | 0 <= k < n
        ensures b'[k] == a'[p'[k]]
      {
        assert p[k] != j;
      }
      ReindexedChars(a', b', p', Skip(q, j));
      assert a == a[..j] + [a[j]] + a[j + 1..];
      assert b == b' + [b[n]];
    }
  }

  /**
   * In the first branch (left axis follows the front axis) the source's
   * labels are a naming of the six faces, and U is the face a viewer sees
   * above: its normal is left x front in the right-handed frame.
   */
  lemma AsWrittenFirstBranch(front: Face, left: Face)
    requires Viewpoint(front, left) && left / 2 == (front / 2 + 1) % 3
    ensures TopFaceAsWritten(front, left) == TopFace(front, left)
    ensures multiset(Labels(front, left, TopFaceAsWritten(front, left))) == multiset(Letters())
    ensures NormalIsCross(TopFaceAsWritten(front, left), left, front)
  {
    var top := TopFaceAsWritten(front, left);
    LabelsNameEachFaceOnce(front, left, top);
  }

  /**
   * In the second branch the source puts the top on the left axis: U and D
   * overwrite L and R, both faces of the third axis keep the default 'L',
   * and no face is named R.
   */
  lemma AsWrittenSecondBranch(front: Face, left: Face)
    requires Viewpoint(front, left) && left / 2 != (front / 2 + 1) % 3
    ensures TopFaceAsWritten(front, left) / 2 == left / 2
    ensures var r := Labels(front, left, TopFaceAsWritten(front, left));
      && r[left] != 'L'
      && forall k :: 0 <= k < 6 ==> (r[k] == 'L' <==> k / 2 == 3 - front / 2 - left / 2) && r[k] != 'R'
  {
    var top := TopFaceAsWritten(front, left);
    forall k | 0 <= k < 6
      ensures var c := Label(front, left, top, k);
        (c == 'L' <==> k / 2 == 3 - front / 2 - left / 2) && c != 'R'
    {
      if k / 2 == left / 2 {
        SameAxis(k, top);
      }
    }
  }

  /** Front X-, left Z-: the source names faces X-, X+, Y-, Y+, Z-, Z+ as F, B, L, L, D, U. */
  lemma AsWrittenCounterexample()
    ensures Labels(0, 4, TopFaceAsWritten(0, 4)) == ['F', 'B', 'L', 'L', 'D', 'U']
  {
    assert TopFaceAsWritten(0, 4) == 5;
    assert Across(0) == 1 && Across(4) == 5 && Across(5) == 4;
    var r := Labels(0, 4, 5);
    assert r[0] == 'F' && r[1] == 'B' && r[2] == 'L' && r[3] == 'L' && r[4] == 'D' && r[5] == 'U';
  }

  /** With the correction every viewpoint names each face once, with U above. */
  lemma CorrectedLabels(front: Face, left: Face)
    requires Viewpoint(front, left)
    ensures var top := TopFace(front, left);
      && multiset(Labels(front, left, top)) == multiset(Letters())
      && Labels(front, left, top)[top] == 'U'
      && NormalIsCross(top, left, front)
  {
    var top := TopFace(front, left);
    CorrectedTopFace(front, left);
    LabelsKeepRoles(front, left, top);
    LabelsNameEachFaceOnce(front, left, top);
  }

  /** The corrected top face lies on the third axis, on the side left x front points to. */
  lemma CorrectedTopFace(front: Face, left: Face)
    requires Viewpoint(front, left)
    ensures var top := TopFace(front, left);
      top / 2 != front / 2 && top / 2 != left / 2 && NormalIsCross(top, left, front)
  {
  }

  // ---------------------------------------------------------------------
  // Relative moves
  // ---------------------------------------------------------------------

  /**
   * Direction 0 turns a positive face anti-clockwise and a negative face
   * clockwise, so the move is anti-clockwise (ticked) when `dir ^ (face & 1)` is 1.
   */
  predicate Ticked(code: int)
  {
    Xor(code % 2, code / 2) == 1
  }

  /** The printed move: the face's letter, then a tick for anti-clockwise. */
  function Token(labels: seq<char>, code: int): string
    requires |labels| == 6 && 0 <= code < 12
  {
    [labels[code / 2]] + (if Ticked(code) then "'" else "")
  }

  /** The tokens for a list of codes; the idle codes 12 and 13 print nothing. */
  function Tokens(labels: seq<char>, codes: seq<int>): seq<string>
    requires |labels| == 6 && AllCodes(codes)
    decreases |codes|
  {
    if codes == [] then []
    else
      var last := codes[|codes| - 1];
      Tokens(labels, codes[..|codes| - 1]) + (if last / 2 == 6 then [] else [Token(labels, last)])
  }

  /**
   * The loop of `get_relative_moves`: every non-idle code becomes its
   * face's label, ticked when `dir ^ (face & 1)` is 1.
   */
  method PrintTokens(relativeFaces: seq<char>, codes: seq<int>) returns (relativeMoves: seq<string>)
    requires |relativeFaces| == 6 && AllCodes(codes)
    ensures relativeMoves == Tokens(relativeFaces, codes)
  {
    relativeMoves := [];
    for k := 0 to |codes|
      invariant relativeMoves == Tokens(relativeFaces, codes[..k])
    {
      assert codes[..k + 1][..k] == codes[..k];
      var face := codes[k] / 2;
      var dir := codes[k] % 2;
      if face == 6 {
        continue;
      }
      var relativeDir := Xor(dir, face);
      var tick := if relativeDir == 1 then "'" else "";
      relativeMoves := relativeMoves + [[relativeFaces[face]] + tick];
    }
    assert codes[..|codes|] == codes;
  }

  /**
   * `get_relative_moves`, with the decoded move codes given directly: it
   * labels the faces with `faces_to_relative` as written.
   */
  method GetRelativeMoves(codes: seq<int>, front: Face, left: Face) returns (relativeMoves: seq<string>)
    requires AllCodes(codes) && Viewpoint(front, left)
    ensures relativeMoves == Tokens(Labels(front, left, TopFaceAsWritten(front, left)), codes)
  {
    var relativeFaces := FacesToRelativeAsWritten(front, left);
    relativeMoves := PrintTokens(relativeFaces, codes);
  }

  /** `get_relative_moves` over the corrected `faces_to_relative`. */
  method GetRelativeMovesCorrected(codes: seq<int>, front: Face, left: Face) returns (relativeMoves: seq<string>)
    requires AllCodes(codes) && Viewpoint(front, left)
    ensures relativeMoves == Tokens(Labels(front, left, TopFace(front, left)), codes)
  {
    var relativeFaces := FacesToRelative(front, left);
    relativeMoves := PrintTokens(relativeFaces, codes);
  }

  /** How many idle codes a list holds. */
  function IdleCount(codes: seq<int>): nat
    decreases |codes|
  {
    if codes == [] then 0
    else IdleCount(codes[..|codes| - 1]) + (if codes[|codes| - 1] >= 12 then 1 else 0)
  }

  /** One token per turning move: idle codes are dropped. */
  lemma {:induction false} TokensPerMove(labels: seq<char>, codes: seq<int>)
    requires |labels| == 6 && AllCodes(codes)
    ensures |Tokens(labels, codes)| == |codes| - IdleCount(codes)
    decreases |codes|
  {
    if codes != [] {
      TokensPerMove(labels, codes[..|codes| - 1]);
    }
  }

  /** Without idle codes, token k is the printed form of move k. */
  lemma {:induction false} TokensOfSelected(labels: seq<char>, codes: seq<int>)
    requires |labels| == 6 && Selected(codes)
    ensures |Tokens(labels, codes)| == |codes|
    ensures forall k :: 0 <= k < |codes| ==> Tokens(labels, codes)[k] == Token(labels, codes[k])
    decreases |codes|
  {
    if codes != [] {
      var init := codes[..|codes| - 1];
      TokensOfSelected(labels, init);
      forall k | 0 <= k < |codes|
        ensures Tokens(labels, codes)[k] == Token(labels, codes[k])
      {
        if k < |init| {
          assert init[k] == codes[k];
        }
      }
    }
  }

  /** Every face has its own letter. */
  predicate Distinct(labels: seq<char>)
  {
    forall i, j :: 0 <= i < j < |labels| ==> labels[i] != labels[j]
  }

  lemma CorrectedLabelsDistinct(front: Face, left: Face)
    requires Viewpoint(front, left)
    ensures Distinct(Labels(front, left, TopFace(front, left)))
  {
    var top := TopFace(front, left);
    var r := Labels(front, left, top);
    forall i, j | 0 <= i < j < 6
      ensures r[i] != r[j]
    {
      RolesCover(front, left, top, i);
      RolesCover(front, left, top, j);
      RolesLabelled(front, left, top, RoleOfFace(front, left, top, i));
      RolesLabelled(front, left, top, RoleOfFace(front, left, top, j));
    }
  }

  /** The first face carrying letter c, or -1. */
  function FaceWithLabel(labels: seq<char>, c: char): (f: int)
    ensures -1 <= f < |labels|
    ensures f >= 0 ==> labels[f] == c && forall g :: 0 <= g < f ==> labels[g] != c
    ensures f == -1 ==> c !in labels
    decreases |labels|
  {
    if |labels| == 0 then -1
    else if labels[0] == c then 0
    else
      var f := FaceWithLabel(labels[1..], c);
      if f == -1 then -1 else f + 1
  }

  /** Reads a printed move back into a code. */
  function CodeOfToken(labels: seq<char>, token: string): int
    requires |token| >= 1
  {
    var face := FaceWithLabel(labels, token[0]);
    2 * face + Xor(if |token| == 2 then 1 else 0, face)
  }

  /** With one letter per face, every printed move reads back as the move. */
  lemma TokenReadsBack(labels: seq<char>, code: int)
    requires |labels| == 6 && Distinct(labels) && 0 <= code < 12
    ensures CodeOfToken(labels, Token(labels, code)) == code
  {
    var f := FaceWithLabel(labels, labels[code / 2]);
    assert f == code / 2;
  }

  /** The corrected notation loses nothing: the printed moves determine the moves. */
  lemma RelativeMovesReadBack(front: Face, left: Face, codes: seq<int>)
    requires Viewpoint(front, left) && Selected(codes)
    ensures var tokens := Tokens(Labels(front, left, TopFace(front, left)), codes);
      && |tokens| == |codes|
      && forall k :: 0 <= k < |codes| ==> |tokens[k]| >= 1 && CodeOfToken(Labels(front, left, TopFace(front, left)), tokens[k]) == codes[k]
  {
    var labels := Labels(front, left, TopFace(front, left));
    TokensOfSelected(labels, codes);
    CorrectedLabelsDistinct(front, left);
    forall k | 0 <= k < |codes|
      ensures CodeOfToken(labels, Token(labels, codes[k])) == codes[k]
    {
      TokenReadsBack(labels, codes[k]);
    }
  }

  /**
   * With the source's labels for front X-, left Z-, the moves Y- forward
   * (code 4) and Y+ back (code 7) both print as "L".
   */
  lemma AsWrittenTokensClash()
    ensures var labels := Labels(0, 4, TopFaceAsWritten(0, 4));
      Token(labels, 4) == Token(labels, 7) == "L"
  {
    AsWrittenCounterexample();
  }

  /**
   * Front X-, left Z-: the source prints the move Y- forward (code 4) as
   * "L", where the corrected labels print it as "D", the face below.
   */
  lemma AsWrittenPrintsWrongFace()
    ensures Tokens(Labels(0, 4, TopFaceAsWritten(0, 4)), [4]) == ["L"]
    ensures Tokens(Labels(0, 4, TopFace(0, 4)), [4]) == ["D"]
  {
    AsWrittenCounterexample();
    var asWritten := Labels(0, 4, TopFaceAsWritten(0, 4));
    assert TopFace(0, 4) == 3 && Across(3) == 2;
    var corrected := Labels(0, 4, 3);
    assert corrected[2] == 'D';
    assert !Ticked(4);
    assert [4][..0] == [];
    assert Token(asWritten, 4) == "L";
    assert Token(corrected, 4) == "D";
    assert Tokens(asWritten, [4]) == Tokens(asWritten, []) + [Token(asWritten, 4)];
    assert Tokens(corrected, [4]) == Tokens(corrected, []) + [Token(corrected, 4)];
  }
}
