/**
 * The two Boolean-vector encodings of integers: `BooleanArray`, a
 * little-endian binary number (used for the colour of every square), and
 * `FlattedBooleanArray`, a one-hot vector (used for the move selector).
 * The solver's Boolean variables are modelled by the values a model assigns
 * to them, so each constraint becomes a predicate over `seq<bool>`.
 */
module BitArrays {

  datatype Option<T> = None | Some(value: T)

  /** Comparing two arrays of different sizes raises "Size mismatch" in the source. */
  datatype Result<T> = Success(value: T) | SizeMismatch

  function Pow2(n: nat): (r: nat)
    ensures r >= 1
  {
    if n == 0 then 1 else 2 * Pow2(n - 1)
  }

  // ---------------------------------------------------------------------
  // BooleanArray
  // ---------------------------------------------------------------------

  /**
   * `BooleanArray.equals(v)` for an integer v: bit i equals `(v >> i) & 1 == 1`,
   * where the source shifts v right once per bit (a floor division by 2).
   */
  predicate EqualsInt(bits: seq<bool>, v: int)
    decreases |bits|
  {
    |bits| == 0 || (bits[0] == (v % 2 == 1) && EqualsInt(bits[1..], v / 2))
  }

  /** The number a little-endian bit vector stands for. */
  function Value(bits: seq<bool>): int
    decreases |bits|
  {
    if |bits| == 0 then 0 else (if bits[0] then 1 else 0) + 2 * Value(bits[1..])
  }

  /** The bit vector of `size` bits that `EqualsInt` forces for v. */
  function Encode(v: int, size: nat): (bits: seq<bool>)
    ensures |bits| == size
    decreases size
  {
    if size == 0 then [] else [v % 2 == 1] + Encode(v / 2, size - 1)
  }

  /**
   * `BooleanArray.get_int_value_from_model`: read the bits from the most
   * significant down, doubling and adding each.
   */
  method DecodeBits(bits: seq<bool>) returns (ret: int)
    ensures ret == Value(bits)
  {
    ret := 0;
    var i := |bits|;
    while i > 0
      invariant 0 <= i <= |bits|
      invariant ret == Value(bits[i..])
    {
      i := i - 1;
      assert bits[i..][1..] == bits[i + 1..];
      ret := ret * 2;
      if bits[i] {
        ret := ret + 1;
      }
    }
  }

  /** A vector of n bits stands for a number in 0 .. 2^n - 1. */
  lemma {:induction false} ValueRange(bits: seq<bool>)
    ensures 0 <= Value(bits) < Pow2(|bits|)
    decreases |bits|
  {
    if |bits| > 0 {
      ValueRange(bits[1..]);
    }
  }

  /** The integer constraint for v in range forces exactly Encode(v, size). */
  lemma {:induction false} EqualsIntIsEncode(bits: seq<bool>, v: int)
    ensures EqualsInt(bits, v) <==> bits == Encode(v, |bits|)
    decreases |bits|
  {
    if |bits| > 0 {
      EqualsIntIsEncode(bits[1..], v / 2);
      if bits == Encode(v, |bits|) {
        assert bits[1..] == Encode(v / 2, |bits| - 1);
      }
    }
  }

  /** Encoding then decoding returns v for every 0 <= v < 2^size. */
  lemma {:induction false} DecodeEncode(v: int, size: nat)
    requires 0 <= v < Pow2(size)
    ensures Value(Encode(v, size)) == v
    decreases size
  {
    if size > 0 {
      DecodeEncode(v / 2, size - 1);
      assert Encode(v, size)[1..] == Encode(v / 2, size - 1);
    }
  }

  /** Decoding then encoding returns the same bits. */
  lemma {:induction false} EncodeDecode(bits: seq<bool>)
    ensures Encode(Value(bits), |bits|) == bits
    decreases |bits|
  {
    if |bits| > 0 {
      EncodeDecode(bits[1..]);
      var b := if bits[0] then 1 else 0;
      assert (b + 2 * Value(bits[1..])) / 2 == Value(bits[1..]);
    }
  }

  lemma ModuloUnique(v: int, m: int, q: int, r: int)
    requires m > 0 && v == m * q + r && 0 <= r < m
    ensures v % m == r && v / m == q
  {
    var q', r' := v / m, v % m;
    assert v == m * q' + r';
    if q > q' {
      assert m * q - m * q' == m * (q - q');
      MulAtLeast(m, q - q');
    } else if q < q' {
      assert m * q' - m * q == m * (q' - q);
      MulAtLeast(m, q' - q);
    }
  }

  lemma {:induction false} MulAtLeast(m: int, d: int)
    requires m > 0 && d >= 1
    ensures m * d >= m
    decreases d
  {
    if d > 1 {
      MulAtLeast(m, d - 1);
      assert m * d == m * (d - 1) + m;
    }
  }

  /** Encoding keeps only the low `size` bits: decoding gives v modulo 2^size. */
  lemma {:induction false} EncodeTruncates(v: int, size: nat)
    ensures Value(Encode(v, size)) == v % Pow2(size)
    decreases size
  {
    if size > 0 {
      var p := Pow2(size - 1);
      EncodeTruncates(v / 2, size - 1);
      assert Encode(v, size)[1..] == Encode(v / 2, size - 1);
      var q, r := (v / 2) / p, (v / 2) % p;
      assert v / 2 == p * q + r;
      assert v == (2 * p) * q + (2 * r + v % 2);
      ModuloUnique(v, 2 * p, q, 2 * r + v % 2);
    }
  }

  /**
   * Round trip through the constraint: bits meet `equals(v)` exactly when
   * they decode to v modulo 2^size, so to v itself when v is in range.
   */
  lemma ConstraintDecodes(bits: seq<bool>, v: int)
    ensures EqualsInt(bits, v) <==> Value(bits) == v % Pow2(|bits|)
  {
    var n := |bits|;
    EqualsIntIsEncode(bits, v);
    EncodeTruncates(v, n);
    EncodeDecode(bits);
    EncodeDecode(Encode(v, n));
  }

  /**
   * `equals` between two arrays: the conjunction of `a[i] ==> b[i]` and
   * `b[i] ==> a[i]`, or the size-mismatch error.
   */
  function ArrayEquals(a: seq<bool>, b: seq<bool>): Result<bool>
  {
    if |a| != |b| then SizeMismatch
    else Success(forall i :: 0 <= i < |a| ==> (a[i] ==> b[i]) && (b[i] ==> a[i]))
  }

  /**
   * Two squares' bit arrays are constrained equal exactly when they have the
   * same size and stand for the same colour; arrays of different sizes are
   * an error.
   */
  lemma ArrayEqualsIsValueEquality(a: seq<bool>, b: seq<bool>)
    ensures ArrayEquals(a, b) == SizeMismatch <==> |a| != |b|
    ensures ArrayEquals(a, b) == Success(true) <==> |a| == |b| && Value(a) == Value(b)
  {
    if |a| == |b| {
      EncodeDecode(a);
      EncodeDecode(b);
      if Value(a) == Value(b) {
        assert a == b;
      }
    }
  }

  // ---------------------------------------------------------------------
  // FlattedBooleanArray
  // ---------------------------------------------------------------------

  /**
   * `get_sanity_constraints` with auxiliary bits s[0..size]: s[i] implies
   * s[i+1], a set bit i implies s[i+1], s[i] forbids bit i, and some bit is
   * set.
   */
  predicate Ladder(bits: seq<bool>, s: seq<bool>)
  {
    && |s| == |bits| + 1
    && (forall i :: 0 <= i < |bits| ==> (s[i] ==> s[i + 1]) && (bits[i] ==> s[i + 1]) && (s[i] ==> !bits[i]))
    && (exists i :: 0 <= i < |bits| && bits[i])
  }

  /** Exactly bit k is set. */
  predicate OneHotAt(bits: seq<bool>, k: int)
  {
    0 <= k < |bits| && bits[k] && forall j :: 0 <= j < |bits| && j != k ==> !bits[j]
  }

  predicate ExactlyOne(bits: seq<bool>)
  {
    exists k :: 0 <= k < |bits| && OneHotAt(bits, k)
  }

  lemma {:induction false} LadderPropagates(bits: seq<bool>, s: seq<bool>, i: int, j: int)
    requires Ladder(bits, s) && 0 <= i <= j <= |bits| && s[i]
    ensures s[j]
    decreases j - i
  {
    if i < j {
      LadderPropagates(bits, s, i + 1, j);
    }
  }

  /**
   * The ladder constraint can be met by some choice of the auxiliary bits
   * exactly when exactly one bit of the array is set.
   */
  lemma LadderIsExactlyOne(bits: seq<bool>)
    ensures (exists s :: Ladder(bits, s)) <==> ExactlyOne(bits)
  {
    if s :| Ladder(bits, s) {
      var k :| 0 <= k < |bits| && bits[k];
      forall j | 0 <= j < |bits| && j != k
        ensures !bits[j]
      {
        if bits[j] {
          var lo, hi := if j < k then j else k, if j < k then k else j;
          LadderPropagates(bits, s, lo + 1, hi);
        }
      }
      assert OneHotAt(bits, k);
    }
    if ExactlyOne(bits) {
      var k :| 0 <= k < |bits| && OneHotAt(bits, k);
      LadderOfOneHot(bits, k);
    }
  }

  /** For a one-hot array with bit k, the auxiliary bits "some bit before i is set" meet the ladder. */
  lemma LadderOfOneHot(bits: seq<bool>, k: int)
    requires OneHotAt(bits, k)
    ensures Ladder(bits, seq(|bits| + 1, i => i > k))
  {
  }

  /** The index of the first set bit, if any. */
  function FirstSet(bits: seq<bool>): (r: Option<nat>)
    ensures r.Some? ==> r.value < |bits| && bits[r.value] && forall j :: 0 <= j < r.value ==> !bits[j]
    ensures r.None? ==> forall j :: 0 <= j < |bits| ==> !bits[j]
    decreases |bits|
  {
    if |bits| == 0 then None
    else if bits[0] then Some(0)
    else match FirstSet(bits[1..])
      case None => None
      case Some(k) => Some(k + 1)
  }

  /**
   * `FlattedBooleanArray.get_int_value_from_model`: the first set bit, or
   * nothing (Python's implicit `None`) when no bit is set.
   */
  method DecodeOneHot(bits: seq<bool>) returns (r: Option<nat>)
    ensures r == FirstSet(bits)
  {
    for i := 0 to |bits|
      invariant forall j :: 0 <= j < i ==> !bits[j]
    {
      if bits[i] {
        FirstSetOf(bits, i);
        return Some(i);
      }
    }
    FirstSetOf(bits, |bits|);
    return None;
  }

  lemma {:induction false} FirstSetOf(bits: seq<bool>, i: nat)
    requires i <= |bits| && forall j :: 0 <= j < i ==> !bits[j]
    ensures FirstSet(bits) == if i < |bits| && bits[i] then Some(i) else if i == |bits| then None else FirstSet(bits)
    decreases i
  {
    if i > 0 && |bits| > 0 {
      FirstSetOf(bits[1..], i - 1);
    }
  }

  /** `equals(k)` for an integer k is the single bit k. */
  predicate SelectorIs(bits: seq<bool>, k: int)
    requires 0 <= k < |bits|
  {
    bits[k]
  }

  /** A one-hot vector decodes to the position of its bit. */
  lemma OneHotDecodes(bits: seq<bool>, k: int)
    requires OneHotAt(bits, k)
    ensures FirstSet(bits) == Some(k)
    ensures forall j :: 0 <= j < |bits| ==> (SelectorIs(bits, j) <==> j == k)
  {
  }
}
