/**
 * The three pruning rules `CubePath.add_helper_constraints` puts on the
 * move selectors, read on the decoded move codes 0..11, and a normaliser
 * that turns any move sequence into one obeying the rules, no longer and
 * with the same effect on every cube. The rules therefore never exclude
 * all shortest solutions.
 */
module MovePruning {
  import opened ValueCubes

  /** Codes a 12-way move selector can stand for. */
  predicate Selected(codes: seq<int>)
  {
    forall k :: 0 <= k < |codes| ==> 0 <= codes[k] < 12
  }

  /** A move is never directly followed by the same face turned back. */
  predicate NoUndo(codes: seq<int>)
    requires Selected(codes)
  {
    forall i :: 1 <= i < |codes| ==> codes[i - 1] != Opposite(codes[i])
  }

  /** No move appears three times in a row. */
  predicate NoTriple(codes: seq<int>)
  {
    forall i :: 2 <= i < |codes| ==> !(codes[i] == codes[i - 1] && codes[i - 1] == codes[i - 2])
  }

  /** No reverse (odd) move appears twice in a row. */
  predicate NoDoubleReverse(codes: seq<int>)
  {
    forall i :: 1 <= i < |codes| ==> !(codes[i] % 2 == 1 && codes[i - 1] == codes[i])
  }

  predicate Pruned(codes: seq<int>)
  {
    Selected(codes) && NoUndo(codes) && NoTriple(codes) && NoDoubleReverse(codes)
  }

  lemma OppositeTwice(m: int)
    requires 0 <= m < 12
    ensures Opposite(Opposite(m)) == m
  {
  }

  lemma PrunedPrefix(p: seq<int>, k: int)
    requires Pruned(p) && 0 <= k <= |p|
    ensures Pruned(p[..k])
  {
    var q := p[..k];
    assert forall i :: 0 <= i < k ==> q[i] == p[i];
  }

  /** The rules only look at the last two moves before a new one. */
  lemma PrunedAppend(p: seq<int>, m: int)
    requires Pruned(p) && 0 <= m < 12
    requires |p| >= 1 ==> p[|p| - 1] != Opposite(m)
    requires |p| >= 2 ==> !(p[|p| - 1] == m && p[|p| - 2] == m)
    requires m % 2 == 1 && |p| >= 1 ==> p[|p| - 1] != m
    ensures Pruned(p + [m])
  {
    AppendSelected(p, m);
    AppendNoUndo(p, m);
    AppendNoTriple(p, m);
    AppendNoDoubleReverse(p, m);
  }

  lemma AppendSelected(p: seq<int>, m: int)
    requires Selected(p) && 0 <= m < 12
    ensures Selected(p + [m])
  {
    var s := p + [m];
    forall k | 0 <= k < |s|
      ensures 0 <= s[k] < 12
    {
      if k < |p| {
        assert s[k] == p[k];
      }
    }
  }

  lemma AppendNoUndo(p: seq<int>, m: int)
    requires Selected(p) && NoUndo(p) && 0 <= m < 12
    requires |p| >= 1 ==> p[|p| - 1] != Opposite(m)
    ensures Selected(p + [m]) && NoUndo(p + [m])
  {
    AppendSelected(p, m);
    var s := p + [m];
    forall i | 1 <= i < |s|
      ensures s[i - 1] != Opposite(s[i])
    {
      assert s[i - 1] == p[i - 1];
      if i < |p| {
        assert s[i] == p[i];
      }
    }
  }

  lemma AppendNoTriple(p: seq<int>, m: int)
    requires NoTriple(p)
    requires |p| >= 2 ==> !(p[|p| - 1] == m && p[|p| - 2] == m)
    ensures NoTriple(p + [m])
  {
    var s := p + [m];
    forall i | 2 <= i < |s|
      ensures !(s[i] == s[i - 1] && s[i - 1] == s[i - 2])
    {
      assert s[i - 1] == p[i - 1] && s[i - 2] == p[i - 2];
      if i < |p| {
        assert s[i] == p[i];
      }
    }
  }

  lemma AppendNoDoubleReverse(p: seq<int>, m: int)
    requires NoDoubleReverse(p)
    requires m % 2 == 1 && |p| >= 1 ==> p[|p| - 1] != m
    ensures NoDoubleReverse(p + [m])
  {
    var s := p + [m];
    forall i | 1 <= i < |s|
      ensures !(s[i] % 2 == 1 && s[i - 1] == s[i])
    {
      assert s[i - 1] == p[i - 1];
      if i < |p| {
        assert s[i] == p[i];
      }
    }
  }

  /**
   * Appends move m to a pruned sequence, rewriting the tail so that the
   * result is pruned again: j then j^1 cancels, j,j,j becomes j^1, and an
   * odd j,j becomes j-1,j-1.
   */
  function Push(p: seq<int>, m: int): (r: seq<int>)
    requires Pruned(p) && 0 <= m < 12
    ensures Pruned(r) && |r| <= |p| + 1
    decreases |p|, m % 2
  {
    var n := |p|;
    if n >= 1 && p[n - 1] == Opposite(m) then
      PrunedPrefix(p, n - 1);
      p[..n - 1]
    else if n >= 2 && p[n - 1] == m && p[n - 2] == m then
      PrunedPrefix(p, n - 2);
      Push(p[..n - 2], Opposite(m))
    else if m % 2 == 1 && n >= 1 && p[n - 1] == m then
      PrunedPrefix(p, n - 1);
      var q := Push(p[..n - 1], m - 1);
      assert |q| <= n && (m - 1) % 2 == 0;
      Push(q, m - 1)
    else
      PrunedAppend(p, m);
      p + [m]
  }

  /** A move right after its reversal cancels it. */
  lemma CancelReplay(c: Cube, p: seq<int>, m: int)
    requires Selected(p) && 0 <= m < 12 && |p| >= 1 && p[|p| - 1] == Opposite(m)
    ensures Replay(c, p[..|p| - 1]) == ApplyCode(Replay(c, p), m)
  {
    var before := Replay(c, p[..|p| - 1]);
    OppositeTwice(m);
    MoveThenOpposite(before, Opposite(m));
  }

  /** A move after the same move twice is its reversal once. */
  lemma TripleReplay(c: Cube, p: seq<int>, m: int)
    requires Selected(p) && 0 <= m < 12 && |p| >= 2 && p[|p| - 1] == m && p[|p| - 2] == m
    ensures ApplyCode(Replay(c, p), m) == ApplyCode(Replay(c, p[..|p| - 2]), Opposite(m))
  {
    var n := |p|;
    assert p[..n - 1][..n - 2] == p[..n - 2];
    var before := Replay(c, p[..n - 2]);
    assert Replay(c, p[..n - 1]) == ApplyCode(before, m);
    TripleIsOpposite(before, m);
  }

  /** An odd move after itself is the even move of that face twice. */
  lemma DoubleReverseReplay(c: Cube, p: seq<int>, m: int)
    requires Selected(p) && 0 <= m < 12 && m % 2 == 1 && |p| >= 1 && p[|p| - 1] == m
    ensures ApplyCode(Replay(c, p), m) == ApplyCode(ApplyCode(Replay(c, p[..|p| - 1]), m - 1), m - 1)
  {
    DoubleReverseIsDoubleForward(Replay(c, p[..|p| - 1]), m);
  }

  /** Pushing a move has the effect of appending it. */
  lemma {:induction false} PushReplay(c: Cube, p: seq<int>, m: int)
    requires Pruned(p) && 0 <= m < 12
    ensures Replay(c, Push(p, m)) == ApplyCode(Replay(c, p), m)
    decreases |p|, m % 2, 1
  {
    var n := |p|;
    if n >= 1 && p[n - 1] == Opposite(m) {
      PushCancelReplay(c, p, m);
    } else if n >= 2 && p[n - 1] == m && p[n - 2] == m {
      PushTripleReplay(c, p, m);
    } else if m % 2 == 1 && n >= 1 && p[n - 1] == m {
      PushDoubleReverseReplay(c, p, m);
    } else {
      PushAppendReplay(c, p, m);
    }
  }

  /** `PushReplay` when m undoes the last move. */
  lemma PushCancelReplay(c: Cube, p: seq<int>, m: int)
    requires Pruned(p) && 0 <= m < 12 && |p| >= 1 && p[|p| - 1] == Opposite(m)
    ensures Replay(c, Push(p, m)) == ApplyCode(Replay(c, p), m)
  {
    CancelReplay(c, p, m);
  }

  /** `PushReplay` when m breaks no rule and is appended. */
  lemma PushAppendReplay(c: Cube, p: seq<int>, m: int)
    requires Pruned(p) && 0 <= m < 12
    requires !(|p| >= 1 && p[|p| - 1] == Opposite(m))
    requires !(|p| >= 2 && p[|p| - 1] == m && p[|p| - 2] == m)
    requires !(m % 2 == 1 && |p| >= 1 && p[|p| - 1] == m)
    ensures Replay(c, Push(p, m)) == ApplyCode(Replay(c, p), m)
  {
    assert (p + [m])[..|p|] == p;
  }

  /** `PushReplay` when m completes a triple. */
  lemma {:induction false} PushTripleReplay(c: Cube, p: seq<int>, m: int)
    requires Pruned(p) && 0 <= m < 12 && |p| >= 2 && p[|p| - 1] == m && p[|p| - 2] == m
    ensures Replay(c, Push(p, m)) == ApplyCode(Replay(c, p), m)
    decreases |p|, m % 2, 0
  {
    var n := |p|;
    PrunedPrefix(p, n - 2);
    PushReplay(c, p[..n - 2], Opposite(m));
    TripleReplay(c, p, m);
  }

  /** `PushReplay` when an odd m repeats the last move. */
  lemma {:induction false} PushDoubleReverseReplay(c: Cube, p: seq<int>, m: int)
    requires Pruned(p) && 0 <= m < 12 && m % 2 == 1 && |p| >= 1 && p[|p| - 1] == m
    requires !(|p| >= 2 && p[|p| - 2] == m)
    ensures Replay(c, Push(p, m)) == ApplyCode(Replay(c, p), m)
    decreases |p|, m % 2, 0
  {
    PushDoubleReverseUnfolds(p, m);
    PushTwiceReplay(c, p[..|p| - 1], m - 1);
    DoubleReverseReplay(c, p, m);
  }

  /** Pushing an even move twice has the effect of appending it twice. */
  lemma {:induction false} PushTwiceReplay(c: Cube, p: seq<int>, m: int)
    requires Pruned(p) && 0 <= m < 12 && m % 2 == 0
    ensures Replay(c, Push(Push(p, m), m)) == ApplyCode(ApplyCode(Replay(c, p), m), m)
    decreases |p| + 1, 0, 2
  {
    var q := Push(p, m);
    PushReplay(c, p, m);
    PushReplay(c, q, m);
  }

  lemma PushDoubleReverseUnfolds(p: seq<int>, m: int)
    requires Pruned(p) && 0 <= m < 12 && m % 2 == 1 && |p| >= 1 && p[|p| - 1] == m
    requires !(|p| >= 2 && p[|p| - 2] == m)
    ensures Pruned(p[..|p| - 1])
    ensures Push(p, m) == Push(Push(p[..|p| - 1], m - 1), m - 1)
  {
    PrunedPrefix(p, |p| - 1);
    assert p[|p| - 1] != Opposite(m);
  }

  /** A move that keeps the sequence pruned is appended unchanged. */
  lemma PushPruned(p: seq<int>, m: int)
    requires Pruned(p) && 0 <= m < 12 && Pruned(p + [m])
    ensures Push(p, m) == p + [m]
  {
    var n := |p|;
    var s := p + [m];
    if n >= 1 {
      assert s[n] == m && s[n - 1] == p[n - 1];
    }
    if n >= 2 {
      assert s[n - 2] == p[n - 2];
    }
  }

  /** Pushes the moves one by one. */
  function Normalize(codes: seq<int>): (r: seq<int>)
    requires Selected(codes)
    ensures Pruned(r) && |r| <= |codes|
    decreases |codes|
  {
    if codes == [] then [] else Push(Normalize(codes[..|codes| - 1]), codes[|codes| - 1])
  }

  /** The normalised sequence has the effect of the original on every cube. */
  lemma {:induction false} NormalizeReplay(c: Cube, codes: seq<int>)
    requires Selected(codes)
    ensures Replay(c, Normalize(codes)) == Replay(c, codes)
    decreases |codes|
  {
    if codes != [] {
      var init := codes[..|codes| - 1];
      NormalizeReplay(c, init);
      PushReplay(c, Normalize(init), codes[|codes| - 1]);
    }
  }

  /** Pruned sequences are left as they are. */
  lemma {:induction false} NormalizePruned(codes: seq<int>)
    requires Pruned(codes)
    ensures Normalize(codes) == codes
    decreases |codes|
  {
    if codes != [] {
      var init, last := codes[..|codes| - 1], codes[|codes| - 1];
      assert codes == init + [last];
      PrunedPrefix(codes, |codes| - 1);
      NormalizePruned(init);
      PushPruned(init, last);
      assert Normalize(codes) == Push(Normalize(init), last);
    }
  }

  /**
   * Whatever a move sequence reaches, a pruned sequence that is no longer
   * reaches too.
   */
  lemma PrunedSuffices(c: Cube, codes: seq<int>)
    requires Selected(codes)
    ensures exists r :: Pruned(r) && |r| <= |codes| && Replay(c, r) == Replay(c, codes)
  {
    NormalizeReplay(c, codes);
  }
}
