/** Bit vectors kept as bytes, most significant bit first. */
module BitVectors {
  import opened Options

  const BUCKET_SIZE := 8

  /** The byte with only the p-th bit from the left set. */
  function Mask(p: nat): bv8
    requires p < 8
  {
    0x80 >> p
  }

  predicate BitOf(byte: bv8, p: nat)
    requires p < 8
  {
    byte & Mask(p) != 0
  }

  lemma OrMask(byte: bv8, p: nat, q: nat)
    requires p < 8 && q < 8
    ensures BitOf(byte | Mask(p), q) <==> p == q || BitOf(byte, q)
  {
    MaskTable();
  }

  lemma MaskTable()
    ensures Mask(0) == 0x80 && Mask(1) == 0x40 && Mask(2) == 0x20 && Mask(3) == 0x10
    ensures Mask(4) == 0x08 && Mask(5) == 0x04 && Mask(6) == 0x02 && Mask(7) == 0x01
  {}

  /** For a mask with a single bit, a byte either has it or not. */
  lemma Single(a: bv8, p: nat)
    requires p < 8
    ensures a & Mask(p) == 0 || a & Mask(p) == Mask(p)
    ensures Mask(p) != 0
  {
    MaskTable();
  }

  lemma AndBits(a: bv8, b: bv8, p: nat)
    requires p < 8
    ensures BitOf(a & b, p) <==> BitOf(a, p) && BitOf(b, p)
  {
    Single(a, p);
    Single(b, p);
    assert (a & b) & Mask(p) == (a & Mask(p)) & (b & Mask(p));
  }

  lemma OrBits(a: bv8, b: bv8, p: nat)
    requires p < 8
    ensures BitOf(a | b, p) <==> BitOf(a, p) || BitOf(b, p)
  {
    assert (a | b) & Mask(p) == (a & Mask(p)) | (b & Mask(p));
  }

  lemma ZeroByte(byte: bv8)
    ensures byte == 0 <==> forall p :: 0 <= p < 8 ==> !BitOf(byte, p)
  {
    MaskTable();
    if byte != 0 {
      assert BitOf(byte, 0) || BitOf(byte, 1) || BitOf(byte, 2) || BitOf(byte, 3)
          || BitOf(byte, 4) || BitOf(byte, 5) || BitOf(byte, 6) || BitOf(byte, 7);
    }
  }

  // ---------------------------------------------------------------- vectors of bytes

  predicate IsSet(inner: seq<bv8>, pos: nat) {
    pos / BUCKET_SIZE < |inner| && BitOf(inner[pos / BUCKET_SIZE], pos % BUCKET_SIZE)
  }

  /** Positions run through the bytes in order, and through each byte from its most significant bit. */
  lemma BitLayout(inner: seq<bv8>, q: nat, p: nat)
    requires q < |inner| && p < 8
    ensures IsSet(inner, BUCKET_SIZE * q + p) <==> inner[q] & (0x80 >> p) != 0
  {
    assert (BUCKET_SIZE * q + p) / BUCKET_SIZE == q && (BUCKET_SIZE * q + p) % BUCKET_SIZE == p;
  }

  /** Buckets needed for `n` bits. */
  function RequiredBuckets(n: nat): (k: nat)
    ensures n <= BUCKET_SIZE * k && (k > 0 ==> BUCKET_SIZE * (k - 1) < n)
  {
    if n == 0 then 0 else (n - 1) / BUCKET_SIZE + 1
  }

  function Zeros(k: nat): (r: seq<bv8>)
    ensures |r| == k && forall i :: 0 <= i < k ==> r[i] == 0
  {
    seq(k, _ => 0)
  }

  lemma NoneSet(inner: seq<bv8>, pos: nat)
    requires forall i :: 0 <= i < |inner| ==> inner[i] == 0
    ensures !IsSet(inner, pos)
  {
    if pos / BUCKET_SIZE < |inner| { ZeroByte(inner[pos / BUCKET_SIZE]); }
  }

  /** The bytes with one more position set. */
  function SetBit(inner: seq<bv8>, pos: nat): seq<bv8>
    requires pos / BUCKET_SIZE < |inner|
  {
    var bucket := pos / BUCKET_SIZE;
    inner[bucket := inner[bucket] | Mask(pos - bucket * BUCKET_SIZE)]
  }

  lemma SetBitSets(inner: seq<bv8>, pos: nat)
    requires pos / BUCKET_SIZE < |inner|
    ensures forall q: nat :: IsSet(SetBit(inner, pos), q) <==> q == pos || IsSet(inner, q)
    ensures Ones(SetBit(inner, pos)) == Ones(inner) + {pos}
  {
    var bucket := pos / BUCKET_SIZE;
    forall q: nat ensures IsSet(SetBit(inner, pos), q) <==> q == pos || IsSet(inner, q) {
      if q / BUCKET_SIZE == bucket { OrMask(inner[bucket], pos - bucket * BUCKET_SIZE, q % BUCKET_SIZE); }
    }
  }

  /** The set positions. */
  function Ones(inner: seq<bv8>): (r: set<nat>)
    ensures forall q: nat :: q in r <==> IsSet(inner, q)
  {
    set q: nat | q < |inner| * BUCKET_SIZE && IsSet(inner, q)
  }

  /** The members of `s` below `k`, in order. */
  function Below(s: set<nat>, k: nat): (r: seq<nat>)
    ensures forall i :: 0 <= i < |r| ==> r[i] < k && r[i] in s
  {
    if k == 0 then []
    else Below(s, k - 1) + if k - 1 in s then [k - 1] else []
  }

  /** Increasing, and complete. */
  lemma {:induction false} BelowExact(s: set<nat>, k: nat)
    ensures forall i, j :: 0 <= i < j < |Below(s, k)| ==> Below(s, k)[i] < Below(s, k)[j]
    ensures forall q :: q in Below(s, k) <==> 0 <= q < k && q in s
  {
    if k > 0 { BelowExact(s, k - 1); }
  }

  lemma {:induction false} BelowPrefix(s: set<nat>, a: nat, b: nat)
    requires a <= b
    ensures Below(s, a) <= Below(s, b)
  {
    if a < b { BelowPrefix(s, a, b - 1); }
  }

  function SetOf(xs: seq<nat>): set<nat> { set x | x in xs }

  predicate Increasing(xs: seq<nat>, k: nat) {
    (forall i, j :: 0 <= i < j < |xs| ==> xs[i] < xs[j]) && forall i :: 0 <= i < |xs| ==> xs[i] < k
  }

  ghost predicate SameMembers(s: set<nat>, xs: seq<nat>, k: nat) {
    forall q: nat {:trigger q in s} :: q < k ==> (q in s <==> q in xs)
  }

  lemma WithoutLast(s: set<nat>, xs: seq<nat>, k: nat)
    requires Increasing(xs, k) && SameMembers(s, xs, k) && xs != [] && xs[|xs| - 1] == k - 1
    ensures var ys := xs[..|xs| - 1]; Increasing(ys, k - 1) && SameMembers(s, ys, k - 1) && xs == ys + [k - 1]
    ensures k - 1 in s
  {
    var n := |xs| - 1;
    assert xs == xs[..n] + [xs[n]] && xs[n] in xs;
  }

  lemma StaysBelow(s: set<nat>, xs: seq<nat>, k: nat)
    requires Increasing(xs, k) && SameMembers(s, xs, k) && k > 0 && (xs == [] || xs[|xs| - 1] != k - 1)
    ensures Increasing(xs, k - 1) && SameMembers(s, xs, k - 1) && k - 1 !in s
  {
    forall i | 0 <= i < |xs| ensures xs[i] < k - 1 { assert xs[i] <= xs[|xs| - 1]; }
  }

  /** An increasing list is what its members, listed in order, give back. */
  lemma {:induction false} BelowOfIncreasing(s: set<nat>, xs: seq<nat>, k: nat)
    requires Increasing(xs, k) && SameMembers(s, xs, k)
    ensures Below(s, k) == xs
    decreases k
  {
    if k == 0 {
      assert |xs| == 0;
    } else if xs != [] && xs[|xs| - 1] == k - 1 {
      WithoutLast(s, xs, k);
      BelowOfIncreasing(s, xs[..|xs| - 1], k - 1);
      assert Below(s, k) == Below(s, k - 1) + [k - 1];
    } else {
      StaysBelow(s, xs, k);
      BelowOfIncreasing(s, xs, k - 1);
      assert Below(s, k) == Below(s, k - 1);
    }
  }

  /** iter_ones: all positions, filtered. */
  function IterOnes(inner: seq<bv8>): seq<nat> { Below(Ones(inner), |inner| * BUCKET_SIZE) }

  function Bit(byte: bv8, p: nat): nat
    requires p < 8
  {
    if BitOf(byte, p) then 1 else 0
  }

  /** Set bits among the first `p` of a byte. */
  function BitsBelow(byte: bv8, p: nat): nat
    requires p <= 8
  {
    if p == 0 then 0 else BitsBelow(byte, p - 1) + Bit(byte, p - 1)
  }

  function CountOnes(inner: seq<bv8>): nat {
    if inner == [] then 0 else CountOnes(inner[..|inner| - 1]) + BitsBelow(inner[|inner| - 1], 8)
  }

  function CountBelow(inner: seq<bv8>, k: nat): nat {
    if k == 0 then 0 else CountBelow(inner, k - 1) + if IsSet(inner, k - 1) then 1 else 0
  }

  lemma {:induction false} LengthIsCount(inner: seq<bv8>, k: nat)
    ensures |Below(Ones(inner), k)| == CountBelow(inner, k)
  {
    if k > 0 { LengthIsCount(inner, k - 1); }
  }

  lemma {:induction false} CountOfPrefix(inner: seq<bv8>, k: nat)
    requires inner != [] && k <= (|inner| - 1) * BUCKET_SIZE
    ensures CountBelow(inner, k) == CountBelow(inner[..|inner| - 1], k)
  {
    if k > 0 { CountOfPrefix(inner, k - 1); }
  }

  lemma {:induction false} CountOfByte(inner: seq<bv8>, b: nat, p: nat)
    requires b < |inner| && p <= 8
    ensures CountBelow(inner, b * BUCKET_SIZE + p) == CountBelow(inner, b * BUCKET_SIZE) + BitsBelow(inner[b], p)
  {
    if p > 0 {
      CountOfByte(inner, b, p - 1);
      var q := b * BUCKET_SIZE + p - 1;
      assert q / BUCKET_SIZE == b && q % BUCKET_SIZE == p - 1;
    }
  }

  lemma {:induction false} CountOfAll(inner: seq<bv8>)
    ensures CountOnes(inner) == CountBelow(inner, |inner| * BUCKET_SIZE)
  {
    if inner != [] {
      var n := |inner| - 1;
      CountOfAll(inner[..n]);
      CountOfPrefix(inner, n * BUCKET_SIZE);
      CountOfByte(inner, n, 8);
    }
  }

  /** count_ones counts exactly what iter_ones lists. */
  lemma CountIsLength(inner: seq<bv8>)
    ensures CountOnes(inner) == |IterOnes(inner)|
  {
    CountOfAll(inner);
    LengthIsCount(inner, |inner| * BUCKET_SIZE);
  }

  /** The number of trailing zero bits of a byte that is not zero. */
  function TrailingZeros(byte: bv8): (z: nat)
    requires byte != 0
    ensures z < 8 && BitOf(byte, 7 - z) && forall q :: 7 - z < q < 8 ==> !BitOf(byte, q)
  {
    ZeroByte(byte);
    if BitOf(byte, 7) then 0 else if BitOf(byte, 6) then 1 else if BitOf(byte, 5) then 2 else if BitOf(byte, 4) then 3
    else if BitOf(byte, 3) then 4 else if BitOf(byte, 2) then 5 else if BitOf(byte, 1) then 6 else 7
  }

  /** last_set_bit: the highest set position. */
  function LastSetBit(inner: seq<bv8>): (r: Option<nat>)
    ensures r.Some? ==> r.value < BUCKET_SIZE * |inner| && IsSet(inner, r.value)
    ensures forall q :: (if r.Some? then r.value else -1) < q ==> !IsSet(inner, q)
    decreases |inner|
  {
    if inner == [] then None
    else
      var n := |inner| - 1;
      var prefix := inner[..n];
      assert forall q :: 0 <= q < BUCKET_SIZE * n ==> IsSet(prefix, q) == IsSet(inner, q);
      if inner[n] != 0 then Some(BUCKET_SIZE * |inner| - TrailingZeros(inner[n]) - 1)
      else
        ZeroByte(inner[n]);
        LastSetBit(prefix)
  }

  class BitVec {
    var inner: seq<bv8>

    constructor WithNumBits(n: nat)
      ensures |inner| == RequiredBuckets(n) && forall q: nat :: !IsSet(inner, q)
    {
      inner := Zeros(RequiredBuckets(n));
      new;
      forall q: nat ensures !IsSet(inner, q) { NoneSet(inner, q); }
    }

    /** Set one position, growing the vector if needed; all others stay. */
    method Set(pos: nat)
      modifies this
      ensures |inner| == if pos / BUCKET_SIZE < |old(inner)| then |old(inner)| else pos / BUCKET_SIZE + 1
      ensures forall q: nat :: IsSet(inner, q) <==> q == pos || IsSet(old(inner), q)
    {
      var bucket := pos / BUCKET_SIZE;
      ghost var before := inner;
      if |inner| <= bucket { inner := inner + Zeros(bucket + 1 - |inner|); }
      ghost var grown := inner;
      SetBitSets(inner, pos);
      inner := SetBit(inner, pos);
      forall q: nat ensures IsSet(grown, q) == IsSet(before, q) {
        if |before| <= q / BUCKET_SIZE < |grown| { ZeroByte(grown[q / BUCKET_SIZE]); }
      }
    }
  }

  /** bitand: as long as the shorter of the two. */
  method BitAnd(a: seq<bv8>, b: seq<bv8>) returns (r: seq<bv8>)
    ensures |r| == if |a| < |b| then |a| else |b|
    ensures forall q: nat :: IsSet(r, q) <==> IsSet(a, q) && IsSet(b, q)
  {
    var len := if |a| < |b| then |a| else |b|;
    r := [];
    for i := 0 to len
      invariant |r| == i && forall k :: 0 <= k < i ==> r[k] == a[k] & b[k]
    {
      r := r + [a[i] & b[i]];
    }
    forall q: nat ensures IsSet(r, q) <==> IsSet(a, q) && IsSet(b, q) {
      var k := q / BUCKET_SIZE;
      if k < len { AndBits(a[k], b[k], q % BUCKET_SIZE); }
    }
  }

  function ByteAt(a: seq<bv8>, i: nat): bv8 { if i < |a| then a[i] else 0 }

  /** bitor: as long as the longer of the two. */
  method BitOr(a: seq<bv8>, b: seq<bv8>) returns (r: seq<bv8>)
    ensures |r| == if |a| < |b| then |b| else |a|
    ensures forall q: nat :: IsSet(r, q) <==> IsSet(a, q) || IsSet(b, q)
  {
    var len := if |a| < |b| then |b| else |a|;
    r := [];
    for i := 0 to len
      invariant |r| == i && forall k :: 0 <= k < i ==> r[k] == ByteAt(a, k) | ByteAt(b, k)
    {
      r := r + [ByteAt(a, i) | ByteAt(b, i)];
    }
    forall q: nat ensures IsSet(r, q) <==> IsSet(a, q) || IsSet(b, q) {
      var k := q / BUCKET_SIZE;
      if k < len {
        OrBits(ByteAt(a, k), ByteAt(b, k), q % BUCKET_SIZE);
        ZeroByte(0);
      }
    }
  }
}
