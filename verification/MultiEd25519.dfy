/**
 Multi-key Ed25519: several signatures with a 32-bit map saying which keys made them, several
 public keys with a threshold, and their byte layouts.  Single keys and signatures stay
 abstract; all that is used of them is their fixed size and that parsing inverts serializing.
 */
module MultiEd25519 {
  import opened Options
  import opened BitVectors

  type Bytes = seq<bv8>

  type Sig(==, !new)
  type Key(==, !new)
  type Message(==)

  const MAX_NUM_OF_KEYS := 32
  const BITMAP_NUM_OF_BYTES := 4
  const SIGNATURE_LENGTH := 64
  const PUBLIC_KEY_LENGTH := 32

  datatype Error = WrongLength | Validation | Deserialization | BitVecError

  datatype Result<T> = Ok(value: T) | Err(error: Error)

  // ---------------------------------------------------------------- fixed-size items

  datatype Codec<!T> = Codec(size: nat, encode: T -> Bytes, decode: Bytes -> Option<T>)

  ghost predicate Inverts<T(!new)>(c: Codec<T>) {
    && c.size > 0
    && (forall x :: |c.encode(x)| == c.size && c.decode(c.encode(x)) == Some(x))
    && (forall b :: c.decode(b).Some? ==> c.encode(c.decode(b).value) == b)
  }

  function EncodeAll<T>(c: Codec<T>, xs: seq<T>): Bytes {
    if xs == [] then [] else EncodeAll(c, xs[..|xs| - 1]) + c.encode(xs[|xs| - 1])
  }

  /** Where the n-th item starts. */
  function Offset(n: nat, size: nat): nat { if n == 0 then 0 else Offset(n - 1, size) + size }

  /** The first `n` chunks, each decoded. */
  function DecodeChunks<T>(c: Codec<T>, b: Bytes, n: nat): Option<seq<T>>
    requires Offset(n, c.size) <= |b|
  {
    if n == 0 then Some([])
    else
      var rest := DecodeChunks(c, b, n - 1);
      var x := c.decode(b[Offset(n - 1, c.size)..Offset(n, c.size)]);
      if rest.None? || x.None? then None else Some(rest.value + [x.value])
  }

  lemma {:induction false} EncodeLength<T(!new)>(c: Codec<T>, xs: seq<T>)
    requires Inverts(c)
    ensures |EncodeAll(c, xs)| == Offset(|xs|, c.size)
  {
    if xs != [] { EncodeLength(c, xs[..|xs| - 1]); }
  }

  /** Parsing what was serialized, whatever follows it. */
  lemma {:induction false} DecodeEncoded<T(!new)>(c: Codec<T>, xs: seq<T>, tail: Bytes)
    requires Inverts(c)
    ensures |EncodeAll(c, xs)| == Offset(|xs|, c.size)
    ensures DecodeChunks(c, EncodeAll(c, xs) + tail, |xs|) == Some(xs)
  {
    EncodeLength(c, xs);
    if xs != [] {
      var n := |xs| - 1;
      var last := c.encode(xs[n]);
      EncodeLength(c, xs[..n]);
      DecodeEncoded(c, xs[..n], last + tail);
      assert EncodeAll(c, xs) + tail == EncodeAll(c, xs[..n]) + (last + tail);
      var b := EncodeAll(c, xs) + tail;
      assert b[Offset(n, c.size)..Offset(|xs|, c.size)] == last && xs == xs[..n] + [xs[n]];
    }
  }

  /** Serializing what was parsed. */
  lemma {:induction false} EncodeDecoded<T(!new)>(c: Codec<T>, b: Bytes, n: nat)
    requires Inverts(c) && Offset(n, c.size) <= |b| && DecodeChunks(c, b, n).Some?
    ensures var xs := DecodeChunks(c, b, n).value; |xs| == n && EncodeAll(c, xs) == b[..Offset(n, c.size)]
  {
    if n > 0 {
      EncodeDecoded(c, b, n - 1);
      var xs := DecodeChunks(c, b, n).value;
      assert xs[..n - 1] == DecodeChunks(c, b, n - 1).value;
      var lo, hi := Offset(n - 1, c.size), Offset(n, c.size);
      assert b[..hi] == b[..lo] + b[lo..hi];
    }
  }

  lemma {:induction false} OffsetIs(n: nat, size: nat)
    ensures Offset(n, size) == n * size
  {
    if n > 0 { OffsetIs(n - 1, size); }
  }

  // ---------------------------------------------------------------- public keys

  datatype MultiKey = MultiKey(keys: seq<Key>, threshold: bv8)

  predicate ValidKey(k: MultiKey) {
    1 <= |k.keys| <= MAX_NUM_OF_KEYS && k.threshold != 0 && k.threshold as nat <= |k.keys|
  }

  function NewKey(keys: seq<Key>, threshold: bv8): (r: Result<MultiKey>)
    ensures r.Ok? <==> ValidKey(MultiKey(keys, threshold))
    ensures r.Ok? ==> r.value == MultiKey(keys, threshold)
    ensures r == Err(Validation) <==> threshold == 0 || threshold as nat > |keys|
  {
    if threshold == 0 || |keys| < threshold as nat then Err(Validation)
    else if |keys| > MAX_NUM_OF_KEYS then Err(WrongLength)
    else Ok(MultiKey(keys, threshold))
  }

  function KeyToBytes(c: Codec<Key>, k: MultiKey): Bytes { EncodeAll(c, k.keys) + [k.threshold] }

  function CheckAndGetThreshold(b: Bytes, keySize: nat): Result<bv8>
    requires keySize > 0
  {
    if b == [] then Err(WrongLength)
    else
      var num, threshold := |b| / keySize, b[|b| - 1];
      if num == 0 || num > MAX_NUM_OF_KEYS || |b| % keySize != 1 then Err(WrongLength)
      else if threshold == 0 || threshold as nat > num then Err(Validation)
      else Ok(threshold)
  }

  function KeyFromBytes(c: Codec<Key>, b: Bytes): Result<MultiKey>
    requires c.size == PUBLIC_KEY_LENGTH
  {
    var t := CheckAndGetThreshold(b, c.size);
    OffsetIs(|b| / c.size, c.size);
    if t.Err? then Err(t.error)
    else
      var keys := DecodeChunks(c, b, |b| / c.size);
      if keys.None? then Err(Deserialization) else Ok(MultiKey(keys.value, t.value))
  }

  lemma KeyRoundTrip(c: Codec<Key>, k: MultiKey)
    requires Inverts(c) && c.size == PUBLIC_KEY_LENGTH && ValidKey(k)
    ensures KeyFromBytes(c, KeyToBytes(c, k)) == Ok(k)
  {
    DecodeEncoded(c, k.keys, [k.threshold]);
    OffsetIs(|k.keys|, c.size);
    var b := KeyToBytes(c, k);
    assert |b| == |k.keys| * PUBLIC_KEY_LENGTH + 1;
  }

  lemma KeyBytesRoundTrip(c: Codec<Key>, b: Bytes)
    requires Inverts(c) && c.size == PUBLIC_KEY_LENGTH && KeyFromBytes(c, b).Ok?
    ensures var k := KeyFromBytes(c, b).value; ValidKey(k) && KeyToBytes(c, k) == b
  {
    var n := |b| / c.size;
    OffsetIs(n, c.size);
    EncodeDecoded(c, b, n);
    assert |b| == n * c.size + 1;
    assert b == b[..n * c.size] + [b[|b| - 1]];
  }

  // ---------------------------------------------------------------- signatures

  datatype MultiSig = MultiSig(sigs: seq<Sig>, bitmap: Bytes)

  /** As many signatures as set bits, at least one. */
  predicate ValidSig(m: MultiSig) {
    1 <= |m.sigs| <= MAX_NUM_OF_KEYS && |m.bitmap| == BITMAP_NUM_OF_BYTES && CountOnes(m.bitmap) == |m.sigs|
  }

  function SigToBytes(c: Codec<Sig>, m: MultiSig): Bytes { EncodeAll(c, m.sigs) + m.bitmap }

  function SigFromBytes(c: Codec<Sig>, b: Bytes): Result<MultiSig>
    requires c.size == SIGNATURE_LENGTH
  {
    var num := |b| / c.size;
    if num == 0 || num > MAX_NUM_OF_KEYS || |b| % c.size != BITMAP_NUM_OF_BYTES then Err(WrongLength)
    else
      var bitmap := b[|b| - BITMAP_NUM_OF_BYTES..];
      OffsetIs(num, c.size);
      if CountOnes(bitmap) != num then Err(Deserialization)
      else
        var sigs := DecodeChunks(c, b, num);
        if sigs.None? then Err(Deserialization) else Ok(MultiSig(sigs.value, bitmap))
  }

  lemma SigRoundTrip(c: Codec<Sig>, m: MultiSig)
    requires Inverts(c) && c.size == SIGNATURE_LENGTH && ValidSig(m)
    ensures SigFromBytes(c, SigToBytes(c, m)) == Ok(m)
  {
    DecodeEncoded(c, m.sigs, m.bitmap);
    OffsetIs(|m.sigs|, c.size);
    var b := SigToBytes(c, m);
    assert |b| == |m.sigs| * SIGNATURE_LENGTH + BITMAP_NUM_OF_BYTES;
    assert b[|b| - BITMAP_NUM_OF_BYTES..] == m.bitmap;
  }

  lemma SigBytesRoundTrip(c: Codec<Sig>, b: Bytes)
    requires Inverts(c) && c.size == SIGNATURE_LENGTH && SigFromBytes(c, b).Ok?
    ensures var m := SigFromBytes(c, b).value; ValidSig(m) && SigToBytes(c, m) == b
  {
    var n := |b| / c.size;
    OffsetIs(n, c.size);
    EncodeDecoded(c, b, n);
    assert |b| == n * c.size + BITMAP_NUM_OF_BYTES;
    assert b == b[..n * c.size] + b[n * c.size..];
  }

  // ---------------------------------------------------------------- making a signature

  datatype Indexed = Indexed(sig: Sig, idx: nat)

  predicate SortedByIndex(xs: seq<Indexed>) { forall i, j :: 0 <= i < j < |xs| ==> xs[i].idx <= xs[j].idx }

  /** How many elements stay before a new one with index `v`. */
  function Place(xs: seq<Indexed>, v: nat): (p: nat)
    ensures p <= |xs| && (p > 0 ==> xs[p - 1].idx <= v) && forall i :: p <= i < |xs| ==> xs[i].idx > v
  {
    if xs == [] || xs[|xs| - 1].idx <= v then |xs| else Place(xs[..|xs| - 1], v)
  }

  function Insert(xs: seq<Indexed>, x: Indexed): seq<Indexed> {
    var p := Place(xs, x.idx);
    xs[..p] + [x] + xs[p..]
  }

  lemma InsertKeepsOrder(xs: seq<Indexed>, x: Indexed)
    requires SortedByIndex(xs)
    ensures SortedByIndex(Insert(xs, x))
  {
    var p := Place(xs, x.idx);
    forall i | 0 <= i < p ensures xs[i].idx <= x.idx {
      if i < p - 1 { assert xs[i].idx <= xs[p - 1].idx; }
    }
  }

  lemma InsertAdds(xs: seq<Indexed>, x: Indexed)
    ensures multiset(Insert(xs, x)) == multiset(xs) + multiset{x} && |Insert(xs, x)| == |xs| + 1
  {
    var p := Place(xs, x.idx);
    assert xs == xs[..p] + xs[p..];
    assert multiset(xs) == multiset(xs[..p]) + multiset(xs[p..]);
  }

  /** sort_by on the index; equal indexes keep their order. */
  function SortByIndex(xs: seq<Indexed>): (r: seq<Indexed>)
    ensures SortedByIndex(r) && multiset(r) == multiset(xs) && |r| == |xs|
  {
    if xs == [] then []
    else
      var n := |xs| - 1;
      var rest := SortByIndex(xs[..n]);
      assert xs == xs[..n] + [xs[n]];
      InsertKeepsOrder(rest, xs[n]);
      InsertAdds(rest, xs[n]);
      Insert(rest, xs[n])
  }

  function Indices(xs: seq<Indexed>): (r: seq<nat>)
    ensures |r| == |xs| && forall i :: 0 <= i < |xs| ==> r[i] == xs[i].idx
  {
    seq(|xs|, i requires 0 <= i < |xs| => xs[i].idx)
  }

  /** Distinct indexes, all in range. */
  predicate Placeable(xs: seq<Indexed>) {
    && (forall i, j :: 0 <= i < j < |xs| ==> xs[i].idx != xs[j].idx)
    && forall i :: 0 <= i < |xs| ==> xs[i].idx < MAX_NUM_OF_KEYS
  }

  /** Each signature with the position of its bit. */
  function Paired(m: MultiSig): (r: seq<Indexed>)
    requires ValidSig(m)
  {
    CountIsLength(m.bitmap);
    var ones := IterOnes(m.bitmap);
    seq(|m.sigs|, j requires 0 <= j < |m.sigs| => Indexed(m.sigs[j], ones[j]))
  }

  /** MultiEd25519Signature::new: sorted by index, one bit for each signature. */
  method NewSig(pairs: seq<Indexed>) returns (r: Result<MultiSig>)
    ensures r.Ok? <==> 1 <= |pairs| <= MAX_NUM_OF_KEYS && Placeable(pairs)
    ensures r == Err(Validation) <==> !(1 <= |pairs| <= MAX_NUM_OF_KEYS)
    ensures r.Ok? ==> ValidSig(r.value) && multiset(Paired(r.value)) == multiset(pairs)
  {
    if |pairs| == 0 || |pairs| > MAX_NUM_OF_KEYS { return Err(Validation); }
    var sorted := SortByIndex(pairs);
    PlaceableIsOrderless(pairs);
    PlaceableIsOrderless(sorted);
    var bitmap := BuildBitmap(sorted);
    if bitmap.None? { return Err(BitVecError); }
    r := Ok(MultiSig(seq(|sorted|, i requires 0 <= i < |sorted| => sorted[i].sig), bitmap.value));
    PairedIsSorted(sorted, r.value);
  }

  /** Set the bit of every signature; none if an index is out of range or comes twice. */
  method BuildBitmap(xs: seq<Indexed>) returns (r: Option<Bytes>)
    ensures r.Some? <==> Placeable(xs)
    ensures r.Some? ==> |r.value| == BITMAP_NUM_OF_BYTES && Ones(r.value) == SetOf(Indices(xs))
  {
    var bitmap := Zeros(BITMAP_NUM_OF_BYTES);
    forall q: nat ensures !IsSet(bitmap, q) { NoneSet(bitmap, q); }
    ghost var ones: set<nat> := {};
    assert Ones(bitmap) == ones;
    var i := 0;
    while i < |xs|
      invariant 0 <= i <= |xs| && |bitmap| == BITMAP_NUM_OF_BYTES && Ones(bitmap) == ones
      invariant forall j :: 0 <= j < i ==> xs[j].idx in ones && xs[j].idx < MAX_NUM_OF_KEYS
      invariant forall q :: q in ones ==> exists j :: 0 <= j < i && xs[j].idx == q
      invariant forall j, l :: 0 <= j < l < i ==> xs[j].idx != xs[l].idx
    {
      var idx := xs[i].idx;
      if idx >= MAX_NUM_OF_KEYS { return None; }
      if IsSet(bitmap, idx) {
        assert idx in ones;
        return None;
      }
      assert idx !in ones;
      SetBitSets(bitmap, idx);
      bitmap, ones := SetBit(bitmap, idx), ones + {idx};
      i := i + 1;
    }
    assert forall j :: 0 <= j < |xs| ==> Indices(xs)[j] in ones;
    assert ones == SetOf(Indices(xs));
    return Some(bitmap);
  }

  /** The same, said of the signatures regardless of their order. */
  ghost predicate PlaceableAll(m: multiset<Indexed>) {
    && (forall e :: e in m ==> m[e] == 1 && e.idx < MAX_NUM_OF_KEYS)
    && forall e, f :: e in m && f in m && e != f ==> e.idx != f.idx
  }

  lemma {:induction false} Multiplicity(xs: seq<Indexed>, e: Indexed)
    requires Placeable(xs)
    ensures multiset(xs)[e] == if e in xs then 1 else 0
  {
    if xs != [] {
      var n := |xs| - 1;
      assert xs == xs[..n] + [xs[n]];
      Multiplicity(xs[..n], e);
    }
  }

  lemma Twice(xs: seq<Indexed>, i: nat, j: nat)
    requires i < j < |xs| && xs[i] == xs[j]
    ensures multiset(xs)[xs[i]] >= 2
  {
    assert xs == xs[..j] + xs[j..] && xs[..j][i] == xs[i] && xs[j..][0] == xs[i];
  }

  lemma PlaceableIsOrderless(xs: seq<Indexed>)
    ensures Placeable(xs) <==> PlaceableAll(multiset(xs))
  {
    var m := multiset(xs);
    if Placeable(xs) {
      forall e | e in m ensures m[e] == 1 && e.idx < MAX_NUM_OF_KEYS { Multiplicity(xs, e); }
    }
    if PlaceableAll(m) {
      forall i, j | 0 <= i < j < |xs| ensures xs[i].idx != xs[j].idx {
        assert xs[i] in m && xs[j] in m;
        if xs[i] == xs[j] { Twice(xs, i, j); }
      }
      forall i | 0 <= i < |xs| ensures xs[i].idx < MAX_NUM_OF_KEYS { assert xs[i] in m; }
    }
  }

  /** Listing the bits of sorted, distinct indexes pairs every signature with its own index. */
  lemma PairedIsSorted(sorted: seq<Indexed>, m: MultiSig)
    requires SortedByIndex(sorted) && Placeable(sorted) && 1 <= |sorted| <= MAX_NUM_OF_KEYS
    requires |m.bitmap| == BITMAP_NUM_OF_BYTES && Ones(m.bitmap) == SetOf(Indices(sorted))
    requires |m.sigs| == |sorted| && forall i :: 0 <= i < |sorted| ==> m.sigs[i] == sorted[i].sig
    ensures ValidSig(m) && Paired(m) == sorted
  {
    CountIsLength(m.bitmap);
    BelowOfIncreasing(Ones(m.bitmap), Indices(sorted), MAX_NUM_OF_KEYS);
    assert IterOnes(m.bitmap) == Indices(sorted);
  }

  // ---------------------------------------------------------------- verification

  /** The bitmap is an array of fixed size; nothing else is known of a multi-signature put together by hand. */
  predicate Sized(m: MultiSig) { |m.bitmap| == BITMAP_NUM_OF_BYTES }

  /** The set bits in order. */
  function Places(m: MultiSig): seq<nat> { Below(Ones(m.bitmap), MAX_NUM_OF_KEYS) }

  predicate VerifiesAt(verify: (Message, Sig, Key) -> bool, sig: Sig, msg: Message, k: MultiKey, p: nat) {
    p < |k.keys| && verify(msg, sig, k.keys[p])
  }

  /** The j-th signature verifies under the key at the j-th set bit, for the first `n`. */
  ghost predicate AllVerify(verify: (Message, Sig, Key) -> bool, m: MultiSig, msg: Message, k: MultiKey, n: nat)
    requires n <= |m.sigs| && n <= |Places(m)|
  {
    forall j :: 0 <= j < n ==> VerifiesAt(verify, m.sigs[j], msg, k, Places(m)[j])
  }

  /** Some bit is set, and only bits of keys are. */
  ghost predicate InRange(m: MultiSig, k: MultiKey) {
    Ones(m.bitmap) != {} && forall q :: q in Ones(m.bitmap) ==> q < |k.keys|
  }

  lemma LastBitInRange(m: MultiSig, k: MultiKey)
    ensures InRange(m, k) <==> LastSetBit(m.bitmap).Some? && LastSetBit(m.bitmap).value < |k.keys|
  {
    var last := LastSetBit(m.bitmap);
    if last.Some? { assert last.value in Ones(m.bitmap); }
  }

  /** The walk has passed the bits of the first `i` signatures. */
  predicate Passed(ones: set<nat>, at: nat, i: nat) {
    at <= MAX_NUM_OF_KEYS && |Below(ones, at)| == i && Below(ones, at) <= Below(ones, MAX_NUM_OF_KEYS)
  }

  /** Skip to the next set bit; if there is none, the walk leaves the bitmap. */
  method NextBit(bitmap: Bytes, from: nat, ghost ones: set<nat>, ghost n: nat) returns (at: Option<nat>)
    requires |bitmap| == BITMAP_NUM_OF_BYTES && ones == Ones(bitmap) && Passed(ones, from, n)
    ensures at.None? <==> n == |Below(ones, MAX_NUM_OF_KEYS)|
    ensures at.Some? ==>
              at.value in ones && Passed(ones, at.value + 1, n + 1) && Below(ones, MAX_NUM_OF_KEYS)[n] == at.value
  {
    var i := from;
    while i < MAX_NUM_OF_KEYS && !IsSet(bitmap, i)
      invariant i <= MAX_NUM_OF_KEYS && Below(ones, i) == Below(ones, from)
      invariant |Below(ones, i)| == n
    {
      assert i !in ones;
      i := i + 1;
    }
    if i == MAX_NUM_OF_KEYS { return None; }
    assert i in ones;
    BelowPrefix(ones, i + 1, MAX_NUM_OF_KEYS);
    return Some(i);
  }

  /** Accepted, turned down, or out of the bounds of the bitmap. */
  datatype Verdict = Accept | Reject | OutOfBounds

  ghost predicate Eligible(m: MultiSig, k: MultiKey) {
    InRange(m, k) && CountOnes(m.bitmap) >= k.threshold as nat
  }

  lemma PlacesCount(m: MultiSig)
    requires Sized(m)
    ensures |Places(m)| == CountOnes(m.bitmap)
  {
    CountIsLength(m.bitmap);
  }

  /** verify_arbitrary_msg: the walk leaves the bitmap exactly if there are more good signatures than bits. */
  method Verify(verify: (Message, Sig, Key) -> bool, m: MultiSig, msg: Message, k: MultiKey) returns (r: Verdict)
    requires Sized(m)
    ensures r.Accept? <==> Eligible(m, k) && |m.sigs| <= |Places(m)| && AllVerify(verify, m, msg, k, |m.sigs|)
    ensures r.OutOfBounds? <==> Eligible(m, k) && |m.sigs| > |Places(m)| && AllVerify(verify, m, msg, k, |Places(m)|)
  {
    LastBitInRange(m, k);
    var last := LastSetBit(m.bitmap);
    if last.None? || last.value >= |k.keys| { return Reject; }
    if CountOnes(m.bitmap) < k.threshold as nat { return Reject; }
    r := VerifyEach(verify, m.sigs, m.bitmap, msg, k.keys, Ones(m.bitmap));
  }

  /** The first `n` signatures verify under the keys at their places. */
  ghost predicate Good(verify: (Message, Sig, Key) -> bool, sigs: seq<Sig>, msg: Message, keys: seq<Key>,
                       places: seq<nat>, n: nat)
    requires n <= |sigs| && n <= |places|
  {
    forall j :: 0 <= j < n ==> places[j] < |keys| && verify(msg, sigs[j], keys[places[j]])
  }

  /** The loop over the signatures. */
  method VerifyEach(verify: (Message, Sig, Key) -> bool, sigs: seq<Sig>, bitmap: Bytes, msg: Message, keys: seq<Key>,
                    ghost ones: set<nat>)
    returns (r: Verdict)
    requires |bitmap| == BITMAP_NUM_OF_BYTES && ones == Ones(bitmap) && forall q :: q in ones ==> q < |keys|
    ensures var places := Below(ones, MAX_NUM_OF_KEYS);
            && (r.Accept? <==> |sigs| <= |places| && Good(verify, sigs, msg, keys, places, |sigs|))
            && (r.OutOfBounds? <==> |sigs| > |places| && Good(verify, sigs, msg, keys, places, |places|))
  {
    ghost var places := Below(ones, MAX_NUM_OF_KEYS);
    var at: nat, i: nat := 0, 0;
    while i < |sigs|
      invariant i <= |sigs| && i <= |places| && Passed(ones, at, i)
      invariant Good(verify, sigs, msg, keys, places, i)
    {
      var next := NextBit(bitmap, at, ones, i);
      if next.None? { return OutOfBounds; }
      if !verify(msg, sigs[i], keys[next.value]) { return Reject; }
      at, i := next.value + 1, i + 1;
    }
    r := Accept;
  }

  /** A multi-signature with a signature for each bit, as `new` and parsing give it, that is accepted. */
  ghost predicate Accepted(verify: (Message, Sig, Key) -> bool, m: MultiSig, msg: Message, k: MultiKey) {
    ValidSig(m) && Eligible(m, k) && |m.sigs| <= |Places(m)| && AllVerify(verify, m, msg, k, |m.sigs|)
  }

  /** A valid multi-signature that is accepted carries good signatures for at least threshold positions. */
  lemma MeetsThreshold(verify: (Message, Sig, Key) -> bool, m: MultiSig, msg: Message, k: MultiKey)
    requires Accepted(verify, m, msg, k)
    ensures |Ones(m.bitmap)| >= k.threshold as nat
    ensures forall p :: p in Ones(m.bitmap) ==>
              exists j :: 0 <= j < |m.sigs| && Places(m)[j] == p && VerifiesAt(verify, m.sigs[j], msg, k, p)
  {
    PlacesCount(m);
    BelowExact(Ones(m.bitmap), MAX_NUM_OF_KEYS);
    forall p | p in Ones(m.bitmap)
      ensures exists j :: 0 <= j < |m.sigs| && Places(m)[j] == p && VerifiesAt(verify, m.sigs[j], msg, k, p)
    {
      assert p in Places(m);
      var j :| 0 <= j < |Places(m)| && Places(m)[j] == p;
    }
    DistinctCount(Places(m), Ones(m.bitmap));
  }

  lemma {:induction false} DistinctCount(xs: seq<nat>, s: set<nat>)
    requires (forall i, j :: 0 <= i < j < |xs| ==> xs[i] < xs[j]) && forall x :: x in xs <==> x in s
    ensures |s| == |xs|
  {
    if xs != [] {
      var n := |xs| - 1;
      assert xs == xs[..n] + [xs[n]];
      DistinctCount(xs[..n], s - {xs[n]});
    }
  }

  // ---------------------------------------------------------------- who signed

  /** The keys at the given positions. */
  function KeysAt(keys: seq<Key>, ps: set<nat>): set<Key> { set p | p in ps && p < |keys| :: keys[p] }

  predicate DistinctAt(keys: seq<Key>, ps: set<nat>) {
    forall p, q :: p in ps && q in ps && p < q < |keys| ==> keys[p] != keys[q]
  }

  /** There are as many keys as positions exactly if no key is at two of them. */
  lemma {:induction false} CountKeys(keys: seq<Key>, ps: set<nat>)
    requires forall p :: p in ps ==> p < |keys|
    ensures |KeysAt(keys, ps)| <= |ps|
    ensures |KeysAt(keys, ps)| == |ps| <==> DistinctAt(keys, ps)
    decreases |ps|
  {
    if p :| p in ps {
      var rest := ps - {p};
      CountKeys(keys, rest);
      if keys[p] in KeysAt(keys, rest) {
        var q :| q in rest && keys[q] == keys[p];
        assert KeysAt(keys, ps) == KeysAt(keys, rest);
        assert !DistinctAt(keys, ps) by { assert p < q || q < p; }
      } else {
        assert KeysAt(keys, ps) == KeysAt(keys, rest) + {keys[p]};
        assert DistinctAt(keys, ps) <==> DistinctAt(keys, rest) by { NewKeyDistinct(keys, ps, p); }
      }
    } else {
      assert KeysAt(keys, ps) == {};
    }
  }

  lemma NewKeyDistinct(keys: seq<Key>, ps: set<nat>, p: nat)
    requires p in ps && p < |keys| && keys[p] !in KeysAt(keys, ps - {p})
    ensures DistinctAt(keys, ps) <==> DistinctAt(keys, ps - {p})
  {
    forall q | q in ps && q < |keys| && q != p ensures keys[q] != keys[p] {
      assert q in ps - {p} && keys[q] in KeysAt(keys, ps - {p});
    }
  }

  /**
   The keys that signed number as many as the positions, and so reach the threshold, if no key
   is at two of the positions; otherwise they are fewer than the positions.
   */
  lemma DistinctSigners(verify: (Message, Sig, Key) -> bool, m: MultiSig, msg: Message, k: MultiKey)
    requires Accepted(verify, m, msg, k)
    ensures var signers := KeysAt(k.keys, Ones(m.bitmap));
            && (forall key :: key in signers ==> exists j :: 0 <= j < |m.sigs| && verify(msg, m.sigs[j], key))
            && (if DistinctAt(k.keys, Ones(m.bitmap)) then |signers| == |m.sigs| >= k.threshold as nat
                else |signers| < |m.sigs|)
  {
    MeetsThreshold(verify, m, msg, k);
    PlacesCount(m);
    BelowExact(Ones(m.bitmap), MAX_NUM_OF_KEYS);
    forall q | q in Ones(m.bitmap) ensures q in Places(m) {}
    DistinctCount(Places(m), Ones(m.bitmap));
    CountKeys(k.keys, Ones(m.bitmap));
    forall key | key in KeysAt(k.keys, Ones(m.bitmap))
      ensures exists j :: 0 <= j < |m.sigs| && verify(msg, m.sigs[j], key)
    {
      var p :| p in Ones(m.bitmap) && p < |k.keys| && k.keys[p] == key;
      var j :| 0 <= j < |m.sigs| && Places(m)[j] == p && VerifiesAt(verify, m.sigs[j], msg, k, p);
    }
  }

  // ---------------------------------------------------------------- which keys reach the threshold

  /** A bitmap with exactly the members of `ps` below `k`. */
  function BitsOf(ps: set<nat>, k: nat): (r: Bytes)
    requires k <= MAX_NUM_OF_KEYS
    ensures |r| == BITMAP_NUM_OF_BYTES
  {
    if k == 0 then Zeros(BITMAP_NUM_OF_BYTES)
    else if k - 1 in ps then SetBit(BitsOf(ps, k - 1), k - 1) else BitsOf(ps, k - 1)
  }

  lemma {:induction false} BitsOfOnes(ps: set<nat>, k: nat)
    requires k <= MAX_NUM_OF_KEYS
    ensures Ones(BitsOf(ps, k)) == set q | q in ps && q < k
  {
    if k == 0 {
      forall q: nat ensures !IsSet(BitsOf(ps, 0), q) { NoneSet(BitsOf(ps, 0), q); }
    } else {
      BitsOfOnes(ps, k - 1);
      if k - 1 in ps { SetBitSets(BitsOf(ps, k - 1), k - 1); }
    }
  }

  function UpTo(n: nat): (r: set<nat>)
    ensures |r| == n && forall p :: p in r <==> 0 <= p < n
  {
    if n == 0 then {} else UpTo(n - 1) + {n - 1}
  }

  function Positions(k: MultiKey): set<nat> { UpTo(|k.keys|) }

  /** A set of the size asked for, between two given ones. */
  lemma {:induction false} Between(a: set<nat>, b: set<nat>, n: nat) returns (t: set<nat>)
    requires a <= b && |a| <= n <= |b|
    ensures a <= t <= b && |t| == n
    decreases n - |a|
  {
    if |a| == n { t := a; }
    else {
      assert b == a + (b - a);
      var x :| x in b - a;
      t := Between(a + {x}, b, n);
    }
  }

  /** The keys at the given positions all sign. */
  function SignedAt(sign: Key -> Sig, k: MultiKey, ps: set<nat>): MultiSig
    requires forall p :: p in ps ==> p < |k.keys|
  {
    var places := Below(ps, MAX_NUM_OF_KEYS);
    MultiSig(seq(|places|, j requires 0 <= j < |places| => sign(k.keys[places[j]])), BitsOf(ps, MAX_NUM_OF_KEYS))
  }

  /** Whatever positions sign, if there are enough of them, are accepted. */
  lemma SignedIsAccepted(verify: (Message, Sig, Key) -> bool, sign: Key -> Sig, msg: Message, k: MultiKey, ps: set<nat>)
    requires ValidKey(k) && ps <= Positions(k) && |ps| >= k.threshold as nat
    requires forall key :: verify(msg, sign(key), key)
    ensures Accepted(verify, SignedAt(sign, k, ps), msg, k) && Ones(SignedAt(sign, k, ps).bitmap) == ps
  {
    var m := SignedAt(sign, k, ps);
    BitsOfOnes(ps, MAX_NUM_OF_KEYS);
    assert Ones(m.bitmap) == ps;
    PlacesCount(m);
    BelowExact(ps, MAX_NUM_OF_KEYS);
    DistinctCount(Places(m), ps);
    CountAtMost(ps, Positions(k));
    assert |ps| != 0;
  }

  lemma {:induction false} CountAtMost(a: set<nat>, b: set<nat>)
    requires a <= b
    ensures |a| <= |b|
  {
    if x :| x in a { CountAtMost(a - {x}, b - {x}); }
  }

  /** Every multi-signature that is accepted for `k` carries signatures of threshold many keys. */
  ghost predicate NeedsKeys(verify: (Message, Sig, Key) -> bool, msg: Message, k: MultiKey) {
    forall m :: Accepted(verify, m, msg, k) ==> |KeysAt(k.keys, Ones(m.bitmap))| >= k.threshold as nat
  }

  lemma DistinctNeedsKeys(verify: (Message, Sig, Key) -> bool, msg: Message, k: MultiKey)
    requires ValidKey(k) && (k.threshold == 1 || DistinctAt(k.keys, Positions(k)))
    ensures NeedsKeys(verify, msg, k)
  {
    forall m | Accepted(verify, m, msg, k) ensures |KeysAt(k.keys, Ones(m.bitmap))| >= k.threshold as nat {
      if k.threshold == 1 {
        var p :| p in Ones(m.bitmap);
        assert k.keys[p] in KeysAt(k.keys, Ones(m.bitmap));
      } else {
        assert DistinctAt(k.keys, Ones(m.bitmap));
        DistinctSigners(verify, m, msg, k);
      }
    }
  }

  lemma RepeatedKeyFails(verify: (Message, Sig, Key) -> bool, sign: Key -> Sig, msg: Message, k: MultiKey)
    requires ValidKey(k) && k.threshold > 1 && !DistinctAt(k.keys, Positions(k))
    requires forall key :: verify(msg, sign(key), key)
    ensures !NeedsKeys(verify, msg, k)
  {
    var p, q :| p in Positions(k) && q in Positions(k) && p < q < |k.keys| && k.keys[p] == k.keys[q];
    var ps := Between({p, q}, Positions(k), k.threshold as nat);
    SignedIsAccepted(verify, sign, msg, k, ps);
    assert p in ps && q in ps;
    CountKeys(k.keys, ps);
  }

  /**
   When everybody can sign: what is accepted for a key always carries threshold many keys exactly
   if one is enough or no key is listed twice.
   */
  lemma ThresholdInKeysIff(verify: (Message, Sig, Key) -> bool, sign: Key -> Sig, msg: Message, k: MultiKey)
    requires ValidKey(k) && forall key :: verify(msg, sign(key), key)
    ensures NeedsKeys(verify, msg, k) <==> k.threshold == 1 || DistinctAt(k.keys, Positions(k))
  {
    if k.threshold == 1 || DistinctAt(k.keys, Positions(k)) { DistinctNeedsKeys(verify, msg, k); }
    else { RepeatedKeyFails(verify, sign, msg, k); }
  }

  function TwoBits(): Bytes { SetBit(SetBit(Zeros(BITMAP_NUM_OF_BYTES), 0), 1) }

  lemma TwoBitsOnes()
    ensures |TwoBits()| == BITMAP_NUM_OF_BYTES && Ones(TwoBits()) == {0, 1}
  {
    var zeros := Zeros(BITMAP_NUM_OF_BYTES);
    forall q: nat ensures !IsSet(zeros, q) { NoneSet(zeros, q); }
    SetBitSets(zeros, 0);
    SetBitSets(SetBit(zeros, 0), 1);
    assert Ones(zeros) == {};
  }

  lemma TwoPlaces(m: MultiSig)
    requires Sized(m) && Ones(m.bitmap) == {0, 1}
    ensures Places(m) == [0, 1] && CountOnes(m.bitmap) == 2
  {
    PlacesCount(m);
    BelowOfIncreasing({0, 1}, [0, 1], MAX_NUM_OF_KEYS);
  }

  /** A key listed twice counts twice: its signature, given at both positions, reaches the threshold 2. */
  lemma OneKeyTwice(verify: (Message, Sig, Key) -> bool, key: Key, sig: Sig, msg: Message)
    requires verify(msg, sig, key)
    ensures var k, m := NewKey([key, key], 2), MultiSig([sig, sig], TwoBits());
            && k.Ok? && ValidSig(m) && Eligible(m, k.value) && |m.sigs| <= |Places(m)|
            && AllVerify(verify, m, msg, k.value, 2) && KeysAt(k.value.keys, Ones(m.bitmap)) == {key}
  {
    TwoBitsOnes();
    var m := MultiSig([sig, sig], TwoBits());
    TwoPlaces(m);
    var keys := [key, key];
    assert keys[0] in KeysAt(keys, {0, 1});
    assert 0 in Ones(m.bitmap);
  }
}
