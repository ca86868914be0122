/**
 Squashing change sets.  A change set writes some keys, applies aggregator deltas to others
 and emits events.  Squashing two of them must give one change set with the effect of running
 the first and then the second.
 */
module ChangeSets {
  import opened Options
  import opened DeltaOps

  type Bytes(==, !new)

  datatype WriteOp = Creation(data: Bytes) | Modification(data: Bytes) | Deletion

  /** How aggregator values are stored. */
  datatype Codec = Codec(encode: nat -> Bytes, decode: Bytes -> Option<nat>)

  ghost predicate RoundTrips(cd: Codec) {
    forall v: nat :: cd.decode(cd.encode(v)) == Some(v)
  }

  // ---------------------------------------------------------------- one key

  /** What a change set does to one key. */
  datatype Change = Untouched | W(op: WriteOp) | D(delta: DeltaOp)

  /** The content of a key after the change, or that the change is not valid there. */
  datatype After = Holds(v: Option<Bytes>) | Invalid

  function RunWrite(op: WriteOp, v: Option<Bytes>): After {
    match op
    case Creation(d) => if v.None? then Holds(Some(d)) else Invalid
    case Modification(d) => if v.Some? then Holds(Some(d)) else Invalid
    case Deletion => if v.Some? then Holds(None) else Invalid
  }

  function RunDelta(cd: Codec, d: DeltaOp, v: Option<Bytes>): After {
    if v.None? || cd.decode(v.value).None? then Invalid
    else
      var x := ApplyTo(d, cd.decode(v.value).value);
      if x.None? then Invalid else Holds(Some(cd.encode(x.value)))
  }

  function Run(cd: Codec, ch: Change, v: Option<Bytes>): After {
    match ch
    case Untouched => Holds(v)
    case W(op) => RunWrite(op, v)
    case D(d) => RunDelta(cd, d, v)
  }

  function RunBoth(cd: Codec, a: Change, b: Change, v: Option<Bytes>): After {
    var x := Run(cd, a, v);
    if x.Invalid? then Invalid else Run(cd, b, x.v)
  }

  /** One write on top of another: rejected, cancelled out, or a single write. */
  datatype Squashed<T> = Rejected | Cancelled | Single(op: T)

  function SquashOps(r: WriteOp, op: WriteOp): Squashed<WriteOp> {
    match (r, op)
    case (Modification(_), Creation(_)) => Rejected
    case (Creation(_), Creation(_)) => Rejected
    case (Deletion, Deletion) => Rejected
    case (Deletion, Modification(_)) => Rejected
    case (Modification(_), Modification(d)) => Single(Modification(d))
    case (Creation(_), Modification(d)) => Single(Creation(d))
    case (Modification(_), Deletion) => Single(Deletion)
    case (Deletion, Creation(d)) => Single(Modification(d))
    case (Creation(_), Deletion) => Cancelled
  }

  /** A write on top of any change; it replaces a delta. */
  function SquashWrite(a: Change, op: WriteOp): Option<Change> {
    match a
    case W(r) =>
      (match SquashOps(r, op)
       case Rejected => None
       case Cancelled => Some(Untouched)
       case Single(x) => Some(W(x)))
    case _ => Some(W(op))
  }

  /** A delta on top of a written value. */
  function DeltaOnWrite(cd: Codec, r: WriteOp, d: DeltaOp): Option<WriteOp> {
    if r.Deletion? || cd.decode(r.data).None? then None
    else
      var x := ApplyTo(d, cd.decode(r.data).value);
      if x.None? then None else Some(r.(data := cd.encode(x.value)))
  }

  function SquashDelta(cd: Codec, a: Change, d: DeltaOp): Option<Change> {
    match a
    case Untouched => Some(D(d))
    case W(r) => var x := DeltaOnWrite(cd, r, d); if x.None? then None else Some(W(x.value))
    case D(prev) => var m := MergeOnto(d, prev); if m.None? then None else Some(D(m.value))
  }

  function SquashChange(cd: Codec, a: Change, b: Change): Option<Change> {
    match b
    case Untouched => Some(a)
    case W(op) => SquashWrite(a, op)
    case D(d) => SquashDelta(cd, a, d)
  }

  /** The limit kept by the merge lets through what the two deltas let through in order. */
  predicate Fits(cd: Codec, a: Change, b: Change, v: Option<Bytes>) {
    a.D? && b.D? && v.Some? && cd.decode(v.value).Some? ==>
      cd.decode(v.value).value + a.delta.maxPositive <= b.delta.limit
  }

  /** Where both changes are valid in order, squashing keeps the meaning exactly when the limits fit. */
  lemma SquashKeepsMeaning(cd: Codec, a: Change, b: Change, v: Option<Bytes>)
    requires RoundTrips(cd) && RunBoth(cd, a, b, v).Holds?
    ensures var c := SquashChange(cd, a, b);
            c.Some? && Run(cd, c.value, v) == RunBoth(cd, a, b, v) <==> Fits(cd, a, b, v)
  {
    if a.D? && b.D? {
      var x := cd.decode(v.value).value;
      MergeCompletes(b.delta, a.delta, x);
      var c := SquashChange(cd, a, b);
      if c.Some? && cd.decode(v.value).value + a.delta.maxPositive > b.delta.limit {
        assert Merged(b.delta, a.delta, x).None?;
      }
    }
  }

  /** On a write: squashing fails exactly if the two can never be valid in order. */
  lemma SquashOnWriteFails(cd: Codec, op: WriteOp, b: Change, any: Bytes)
    ensures SquashChange(cd, W(op), b).None? <==> forall v :: RunBoth(cd, W(op), b, v).Invalid?
  {
    var v := if op.Creation? then None else Some(any);
    if SquashChange(cd, W(op), b).Some? { assert RunBoth(cd, W(op), b, v).Holds?; }
  }

  /** Otherwise it fails exactly if two deltas cannot be merged. */
  lemma SquashElseFails(cd: Codec, a: Change, b: Change)
    requires !a.W?
    ensures SquashChange(cd, a, b).None? <==>
              && a.D? && b.D?
              && var u := a.delta.update; u.value + (if u.Plus? then Top(b.delta) else Bottom(b.delta)) > b.delta.limit
  {
    if a.D? && b.D? { MergeFailsIff(b.delta, a.delta); }
  }

  /** Deltas of one aggregator carry one limit, so the limits fit wherever the first is valid. */
  lemma SameLimitFits(cd: Codec, a: Change, b: Change, v: Option<Bytes>)
    requires Run(cd, a, v).Holds? && (a.D? && b.D? ==> a.delta.limit == b.delta.limit)
    ensures Fits(cd, a, b, v)
  {
    if a.D? { ApplyMeans(a.delta, cd.decode(v.value).value); }
  }

  // ---------------------------------------------------------------- write sets

  /** What the two write sets make of key `k`; cancelled also means that neither writes it. */
  function WriteAt<K>(a: map<K, WriteOp>, b: map<K, WriteOp>, k: K): Squashed<WriteOp> {
    if k !in b then if k in a then Single(a[k]) else Cancelled
    else if k in a then SquashOps(a[k], b[k]) else Single(b[k])
  }

  ghost predicate Compatible<K(!new)>(a: map<K, WriteOp>, b: map<K, WriteOp>) {
    forall k :: !WriteAt(a, b, k).Rejected?
  }

  function SquashedWrites<K>(a: map<K, WriteOp>, b: map<K, WriteOp>): map<K, WriteOp> {
    map k | k in a.Keys + b.Keys && WriteAt(a, b, k).Single? :: WriteAt(a, b, k).op
  }

  /** WriteSetMut::squash */
  method SquashWriteSets<K(==, !new)>(a: map<K, WriteOp>, b: map<K, WriteOp>) returns (r: Option<map<K, WriteOp>>)
    ensures r.Some? <==> Compatible(a, b)
    ensures r.Some? ==> r.value == SquashedWrites(a, b)
  {
    var out, todo := a, b.Keys;
    while todo != {}
      invariant todo <= b.Keys
      invariant forall k :: k in todo ==> (k in out <==> k in a) && (k in a ==> out[k] == a[k])
      invariant forall k :: k !in todo ==>
                  match WriteAt(a, b, k)
                  case Rejected => false
                  case Cancelled => k !in out
                  case Single(op) => k in out && out[k] == op
      decreases |todo|
    {
      var k :| k in todo;
      if k in out {
        match SquashOps(out[k], b[k]) {
          case Rejected =>
            assert WriteAt(a, b, k).Rejected?;
            return None;
          case Cancelled => out := out - {k};
          case Single(op) => out := out[k := op];
        }
      } else {
        out := out[k := b[k]];
      }
      todo := todo - {k};
    }
    return Some(out);
  }

  // ---------------------------------------------------------------- change sets with deltas

  datatype ChangeSet<K, E> = ChangeSet(writes: map<K, WriteOp>, deltas: map<K, DeltaOp>, events: seq<E>)

  predicate Disjoint<K, E>(cs: ChangeSet<K, E>) { cs.writes.Keys !! cs.deltas.Keys }

  function At<K, E>(cs: ChangeSet<K, E>, k: K): Change {
    if k in cs.writes then W(cs.writes[k]) else if k in cs.deltas then D(cs.deltas[k]) else Untouched
  }

  function AddWrites<K, E>(a: ChangeSet<K, E>, b: ChangeSet<K, E>): ChangeSet<K, E> {
    ChangeSet(SquashedWrites(a.writes, b.writes), a.deltas - (b.writes.Keys - a.writes.Keys), a.events + b.events)
  }

  /** squash_change_set: the writes and events of `b` on top of `a`, without the checker. */
  method SquashChangeSet<K(==, !new), E>(a: ChangeSet<K, E>, b: ChangeSet<K, E>) returns (r: Option<ChangeSet<K, E>>)
    ensures r.Some? <==> Compatible(a.writes, b.writes)
    ensures r.Some? ==> r.value == AddWrites(a, b)
  {
    var out := SquashWriteSets(a.writes, b.writes);
    if out.None? { return None; }
    return Some(ChangeSet(out.value, a.deltas - (b.writes.Keys - a.writes.Keys), a.events + b.events));
  }

  /** What a change set holds for one key.  Nothing keeps it from holding a write and a delta. */
  datatype Slot = Slot(write: Option<WriteOp>, delta: Option<DeltaOp>)

  function SlotAt<K, E>(cs: ChangeSet<K, E>, k: K): Slot {
    Slot(if k in cs.writes then Some(cs.writes[k]) else None, if k in cs.deltas then Some(cs.deltas[k]) else None)
  }

  /** A write on top: it meets the write there, or else replaces the delta. */
  function SlotWrite(a: Slot, op: WriteOp): Option<Slot> {
    if a.write.None? then Some(Slot(Some(op), None))
    else
      match SquashOps(a.write.value, op)
      case Rejected => None
      case Cancelled => Some(a.(write := None))
      case Single(x) => Some(a.(write := Some(x)))
  }

  /** A delta on top: it goes into the write, or onto the delta, or is new. */
  function SlotDelta(cd: Codec, a: Slot, d: DeltaOp): Option<Slot> {
    if a.write.Some? then
      var x := DeltaOnWrite(cd, a.write.value, d);
      if x.None? then None else Some(a.(write := x))
    else if a.delta.Some? then
      var m := MergeOnto(d, a.delta.value);
      if m.None? then None else Some(a.(delta := m))
    else Some(a.(delta := Some(d)))
  }

  function SquashSlot(cd: Codec, a: Slot, b: Slot): Option<Slot> {
    var m := if b.write.Some? then SlotWrite(a, b.write.value) else Some(a);
    if m.None? || b.delta.None? then m else SlotDelta(cd, m.value, b.delta.value)
  }

  ghost predicate DeltasFit<K(!new), E>(cd: Codec, a: ChangeSet<K, E>, ds: map<K, DeltaOp>) {
    forall k :: k in ds ==> SlotDelta(cd, SlotAt(a, k), ds[k]).Some?
  }

  /** One delta on top of a change set. */
  function AddDelta<K, E>(cd: Codec, a: ChangeSet<K, E>, k: K, d: DeltaOp): (c: Option<ChangeSet<K, E>>)
    ensures c.None? <==> SlotDelta(cd, SlotAt(a, k), d).None?
    ensures c.Some? ==> SlotDelta(cd, SlotAt(a, k), d) == Some(SlotAt(c.value, k)) && c.value.events == a.events
  {
    if k in a.writes then
      var x := DeltaOnWrite(cd, a.writes[k], d);
      if x.None? then None else Some(a.(writes := a.writes[k := x.value]))
    else if k in a.deltas then
      var m := MergeOnto(d, a.deltas[k]);
      if m.None? then None else Some(a.(deltas := a.deltas[k := m.value]))
    else Some(a.(deltas := a.deltas[k := d]))
  }

  /** `c` is `a` with the deltas of `ds` on top, except those still in `todo`. */
  ghost predicate HasDeltas<K(!new), E>(cd: Codec, a: ChangeSet<K, E>, ds: map<K, DeltaOp>, todo: set<K>,
                                        c: ChangeSet<K, E>)
  {
    && c.events == a.events
    && (forall k :: k in ds && k !in todo ==> SlotDelta(cd, SlotAt(a, k), ds[k]) == Some(SlotAt(c, k)))
    && (forall k :: k !in ds || k in todo ==> SlotAt(c, k) == SlotAt(a, k))
  }

  lemma HasDeltasNext<K(!new), E>(cd: Codec, a: ChangeSet<K, E>, ds: map<K, DeltaOp>, todo: set<K>,
                                  c: ChangeSet<K, E>, k: K)
    requires HasDeltas(cd, a, ds, todo, c) && k in todo && k in ds
    ensures SlotDelta(cd, SlotAt(a, k), ds[k]).None? <==> AddDelta(cd, c, k, ds[k]).None?
    ensures var next := AddDelta(cd, c, k, ds[k]); next.Some? ==> HasDeltas(cd, a, ds, todo - {k}, next.value)
  {
    var next := AddDelta(cd, c, k, ds[k]);
    if next.Some? {
      forall j | j != k ensures SlotAt(next.value, j) == SlotAt(c, j) {}
    }
  }

  /** squash_delta_change_set, without the checker. */
  method SquashDeltaChangeSet<K(==, !new), E>(cd: Codec, a: ChangeSet<K, E>, ds: map<K, DeltaOp>)
    returns (r: Option<ChangeSet<K, E>>)
    ensures r.Some? <==> DeltasFit(cd, a, ds)
    ensures r.Some? ==> HasDeltas(cd, a, ds, {}, r.value)
  {
    var out, todo := a, ds.Keys;
    while todo != {}
      invariant todo <= ds.Keys && HasDeltas(cd, a, ds, todo, out)
      decreases |todo|
    {
      var k :| k in todo;
      HasDeltasNext(cd, a, ds, todo, out, k);
      var next := AddDelta(cd, out, k, ds[k]);
      if next.None? { return None; }
      out, todo := next.value, todo - {k};
    }
    return Some(out);
  }

  // ---------------------------------------------------------------- the whole squash

  /** `c` is `b` squashed onto `a`, whatever they hold for each key. */
  ghost predicate IsSlotSquash<K(!new), E>(cd: Codec, a: ChangeSet<K, E>, b: ChangeSet<K, E>, c: ChangeSet<K, E>) {
    c.events == a.events + b.events && forall k :: SquashSlot(cd, SlotAt(a, k), SlotAt(b, k)) == Some(SlotAt(c, k))
  }

  /** Some key cannot be squashed. */
  ghost predicate SlotClash<K(!new), E>(cd: Codec, a: ChangeSet<K, E>, b: ChangeSet<K, E>) {
    exists k :: SquashSlot(cd, SlotAt(a, k), SlotAt(b, k)).None?
  }

  lemma AddWritesAt<K(!new), E>(a: ChangeSet<K, E>, b: ChangeSet<K, E>, k: K)
    requires Compatible(a.writes, b.writes)
    ensures Some(SlotAt(AddWrites(a, b), k)) ==
              if k in b.writes then SlotWrite(SlotAt(a, k), b.writes[k]) else Some(SlotAt(a, k))
  {
    assert !WriteAt(a.writes, b.writes, k).Rejected?;
  }

  lemma Incompatible<K(!new), E>(cd: Codec, a: ChangeSet<K, E>, b: ChangeSet<K, E>)
    requires !Compatible(a.writes, b.writes)
    ensures SlotClash(cd, a, b)
  {
    var k :| WriteAt(a.writes, b.writes, k).Rejected?;
    assert SquashSlot(cd, SlotAt(a, k), SlotAt(b, k)).None?;
  }

  /**
   ChangeSetExt::squash: first the writes and events of `b`, then its deltas.  The checker may
   reject the change set after either half.
   */
  method Squash<K(==, !new), E>(cd: Codec, check: (map<K, WriteOp>, seq<E>) -> bool,
                                a: ChangeSet<K, E>, b: ChangeSet<K, E>)
    returns (r: Option<ChangeSet<K, E>>)
    ensures r.Some? ==>
              && IsSlotSquash(cd, a, b, r.value) && check(r.value.writes, r.value.events)
              && check(AddWrites(a, b).writes, AddWrites(a, b).events)
    ensures r.None? ==>
              || SlotClash(cd, a, b) || !check(AddWrites(a, b).writes, AddWrites(a, b).events)
              || exists c :: IsSlotSquash(cd, a, b, c) && !check(c.writes, c.events)
  {
    var m := SquashChangeSet(a, b);
    if m.None? {
      Incompatible(cd, a, b);
      return None;
    }
    forall k
      ensures SquashSlot(cd, SlotAt(a, k), SlotAt(b, k)) ==
                if k in b.deltas then SlotDelta(cd, SlotAt(m.value, k), b.deltas[k]) else Some(SlotAt(m.value, k))
    {
      AddWritesAt(a, b, k);
    }
    if !check(m.value.writes, m.value.events) { return None; }
    r := SquashDeltaChangeSet(cd, m.value, b.deltas);
    if r.None? {
      var k :| k in b.deltas && SlotDelta(cd, SlotAt(m.value, k), b.deltas[k]).None?;
      assert SquashSlot(cd, SlotAt(a, k), SlotAt(b, k)).None?;
      return None;
    }
    assert IsSlotSquash(cd, a, b, r.value);
    if !check(r.value.writes, r.value.events) { return None; }
  }

  /** Slots determine the result, so the two contracts above leave no choice. */
  lemma OneSquash<K(!new), E>(cd: Codec, a: ChangeSet<K, E>, b: ChangeSet<K, E>, c: ChangeSet<K, E>, d: ChangeSet<K, E>)
    requires IsSlotSquash(cd, a, b, c)
    ensures !SlotClash(cd, a, b) && (IsSlotSquash(cd, a, b, d) ==> c == d)
  {
    if IsSlotSquash(cd, a, b, d) {
      forall k ensures SlotAt(c, k) == SlotAt(d, k) {
        assert SquashSlot(cd, SlotAt(a, k), SlotAt(b, k)) == Some(SlotAt(c, k));
        assert SquashSlot(cd, SlotAt(a, k), SlotAt(b, k)) == Some(SlotAt(d, k));
      }
      SameSlots(c, d);
    }
  }

  lemma SameSlots<K(!new), E>(c: ChangeSet<K, E>, d: ChangeSet<K, E>)
    requires c.events == d.events && forall k :: SlotAt(c, k) == SlotAt(d, k)
    ensures c == d
  {
    forall k ensures k in c.writes <==> k in d.writes { assert SlotAt(c, k) == SlotAt(d, k); }
    forall k ensures k in c.deltas <==> k in d.deltas { assert SlotAt(c, k) == SlotAt(d, k); }
    forall k | k in c.writes ensures c.writes[k] == d.writes[k] { assert SlotAt(c, k) == SlotAt(d, k); }
    forall k | k in c.deltas ensures c.deltas[k] == d.deltas[k] { assert SlotAt(c, k) == SlotAt(d, k); }
  }

  // ---------------------------------------------------------------- a write or a delta for each key

  /** `c` is `b` squashed onto `a`, key by key. */
  ghost predicate IsSquash<K(!new), E>(cd: Codec, a: ChangeSet<K, E>, b: ChangeSet<K, E>, c: ChangeSet<K, E>) {
    && c.events == a.events + b.events && Disjoint(c)
    && forall k :: SquashChange(cd, At(a, k), At(b, k)) == Some(At(c, k))
  }

  ghost predicate Clash<K(!new), E>(cd: Codec, a: ChangeSet<K, E>, b: ChangeSet<K, E>) {
    exists k :: SquashChange(cd, At(a, k), At(b, k)).None?
  }

  function SlotOf(ch: Change): Slot {
    match ch
    case Untouched => Slot(None, None)
    case W(op) => Slot(Some(op), None)
    case D(d) => Slot(None, Some(d))
  }

  function OptSlotOf(ch: Option<Change>): Option<Slot> { if ch.None? then None else Some(SlotOf(ch.value)) }

  lemma OneChangePerSlot(cd: Codec, a: Change, b: Change)
    ensures SquashSlot(cd, SlotOf(a), SlotOf(b)) == OptSlotOf(SquashChange(cd, a, b))
  {}

  /**
   Change sets that hold a write or a delta for each key, not both, squash to such a change set,
   and key by key a write or a delta meets a write or a delta.
   */
  lemma DisjointSquash<K(!new), E>(cd: Codec, a: ChangeSet<K, E>, b: ChangeSet<K, E>, c: ChangeSet<K, E>)
    requires Disjoint(a) && Disjoint(b)
    ensures IsSlotSquash(cd, a, b, c) <==> IsSquash(cd, a, b, c)
    ensures SlotClash(cd, a, b) <==> Clash(cd, a, b)
  {
    forall k
      ensures SquashSlot(cd, SlotAt(a, k), SlotAt(b, k)) == OptSlotOf(SquashChange(cd, At(a, k), At(b, k)))
      ensures Disjoint(c) ==> SlotAt(c, k) == SlotOf(At(c, k))
    {
      assert SlotAt(a, k) == SlotOf(At(a, k)) && SlotAt(b, k) == SlotOf(At(b, k));
      OneChangePerSlot(cd, At(a, k), At(b, k));
    }
    if IsSlotSquash(cd, a, b, c) {
      forall k ensures SquashChange(cd, At(a, k), At(b, k)) == Some(At(c, k)) && !(k in c.writes && k in c.deltas) {
        assert SquashSlot(cd, SlotAt(a, k), SlotAt(b, k)) == Some(SlotAt(c, k));
      }
    }
    if IsSquash(cd, a, b, c) {
      forall k ensures SquashSlot(cd, SlotAt(a, k), SlotAt(b, k)) == Some(SlotAt(c, k)) {
        assert SquashChange(cd, At(a, k), At(b, k)) == Some(At(c, k));
      }
    }
  }

  // ---------------------------------------------------------------- meaning

  function Get<K>(s: map<K, Bytes>, k: K): Option<Bytes> { if k in s then Some(s[k]) else None }

  /**
   What a slot does to a key.  With a write and a delta, the delta is made a modification of what
   is stored and then squashed onto the write (merge_delta_writes).
   */
  function RunSlot(cd: Codec, a: Slot, v: Option<Bytes>): After {
    if a.delta.None? then if a.write.None? then Holds(v) else RunWrite(a.write.value, v)
    else
      var x := RunDelta(cd, a.delta.value, v);
      if a.write.None? || x.Invalid? then x
      else
        match SquashOps(a.write.value, Modification(x.v.value))
        case Single(op) => RunWrite(op, v)
        case _ => Invalid
  }

  lemma RunOneChange(cd: Codec, ch: Change, v: Option<Bytes>)
    ensures RunSlot(cd, SlotOf(ch), v) == Run(cd, ch, v)
  {}

  /** Running `cs` is valid in `s` and leads to `s'`. */
  ghost predicate Runs<K(!new), E>(cd: Codec, cs: ChangeSet<K, E>, s: map<K, Bytes>, s': map<K, Bytes>) {
    forall k :: RunSlot(cd, SlotAt(cs, k), Get(s, k)) == Holds(Get(s', k))
  }

  ghost predicate SameLimits<K(!new), E>(a: ChangeSet<K, E>, b: ChangeSet<K, E>) {
    forall k :: k in a.deltas && k in b.deltas ==> a.deltas[k].limit == b.deltas[k].limit
  }

  predicate HasBoth(a: Slot) { a.write.Some? && a.delta.Some? }

  function ChangeOf(a: Slot): Change {
    if a.write.Some? then W(a.write.value) else if a.delta.Some? then D(a.delta.value) else Untouched
  }

  /**
   When squashing keeps the effect, if `a` leads from `v` to `v1`.  With one change in each: if
   the limits fit.  With a write and a delta in `a`: if `b` changes nothing.  With both in `b`: if
   it writes the value it finds.
   */
  predicate SlotFits(cd: Codec, a: Slot, b: Slot, v: Option<Bytes>, v1: Option<Bytes>) {
    if HasBoth(a) then RunSlot(cd, b, v1) == Holds(v1)
    else if HasBoth(b) then
      !b.write.value.Deletion? && v1.Some? && cd.decode(b.write.value.data) == cd.decode(v1.value)
    else Fits(cd, ChangeOf(a), ChangeOf(b), v)
  }

  lemma BothInFirst(cd: Codec, a: Slot, b: Slot, v: Option<Bytes>, v1: Option<Bytes>, v2: Option<Bytes>)
    requires RoundTrips(cd) && RunSlot(cd, a, v) == Holds(v1) && RunSlot(cd, b, v1) == Holds(v2)
    requires SquashSlot(cd, a, b).Some? && HasBoth(a)
    ensures RunSlot(cd, SquashSlot(cd, a, b).value, v) == Holds(v2) <==> v2 == v1
  {}

  lemma BothInSecond(cd: Codec, a: Slot, b: Slot, v: Option<Bytes>, v1: Option<Bytes>, v2: Option<Bytes>)
    requires RoundTrips(cd) && RunSlot(cd, a, v) == Holds(v1) && RunSlot(cd, b, v1) == Holds(v2)
    requires SquashSlot(cd, a, b).Some? && !HasBoth(a) && HasBoth(b)
    ensures b.write.value.Modification? && v1.Some? && cd.decode(v1.value).Some?
    ensures RunSlot(cd, SquashSlot(cd, a, b).value, v) == Holds(v2) <==>
              cd.decode(b.write.value.data) == cd.decode(v1.value)
  {
    var d, x := b.delta.value, cd.decode(v1.value).value;
    ApplyMeans(d, x);
    if cd.decode(b.write.value.data).Some? { ApplyMeans(d, cd.decode(b.write.value.data).value); }
  }

  lemma SquashSlotKeeps(cd: Codec, a: Slot, b: Slot, v: Option<Bytes>, v1: Option<Bytes>, v2: Option<Bytes>)
    requires RoundTrips(cd) && RunSlot(cd, a, v) == Holds(v1) && RunSlot(cd, b, v1) == Holds(v2)
    requires SquashSlot(cd, a, b).Some?
    ensures RunSlot(cd, SquashSlot(cd, a, b).value, v) == Holds(v2) <==> SlotFits(cd, a, b, v, v1)
  {
    if HasBoth(a) { BothInFirst(cd, a, b, v, v1, v2); }
    else if HasBoth(b) { BothInSecond(cd, a, b, v, v1, v2); }
    else {
      OneChangePerSlot(cd, ChangeOf(a), ChangeOf(b));
      assert SlotOf(ChangeOf(a)) == a && SlotOf(ChangeOf(b)) == b;
      RunOneChange(cd, ChangeOf(a), v);
      RunOneChange(cd, ChangeOf(b), v1);
      RunOneChange(cd, SquashChange(cd, ChangeOf(a), ChangeOf(b)).value, v);
      SquashKeepsMeaning(cd, ChangeOf(a), ChangeOf(b), v);
    }
  }

  /** Where both run in order, the squash runs to the same state exactly if it fits at every key. */
  lemma SquashRunsIff<K(!new), E>(cd: Codec, a: ChangeSet<K, E>, b: ChangeSet<K, E>, c: ChangeSet<K, E>,
                                  s: map<K, Bytes>, s1: map<K, Bytes>, s2: map<K, Bytes>)
    requires RoundTrips(cd) && IsSlotSquash(cd, a, b, c) && Runs(cd, a, s, s1) && Runs(cd, b, s1, s2)
    ensures Runs(cd, c, s, s2) <==> forall k :: SlotFits(cd, SlotAt(a, k), SlotAt(b, k), Get(s, k), Get(s1, k))
  {
    forall k
      ensures RunSlot(cd, SlotAt(c, k), Get(s, k)) == Holds(Get(s2, k)) <==>
                SlotFits(cd, SlotAt(a, k), SlotAt(b, k), Get(s, k), Get(s1, k))
    {
      assert RunSlot(cd, SlotAt(a, k), Get(s, k)) == Holds(Get(s1, k));
      assert RunSlot(cd, SlotAt(b, k), Get(s1, k)) == Holds(Get(s2, k));
      assert SquashSlot(cd, SlotAt(a, k), SlotAt(b, k)) == Some(SlotAt(c, k));
      SquashSlotKeeps(cd, SlotAt(a, k), SlotAt(b, k), Get(s, k), Get(s1, k), Get(s2, k));
    }
  }

  /** A modification with a delta, then another delta: the squash keeps the first delta only. */
  lemma OverlapLosesDelta(cd: Codec, x: Bytes)
    requires RoundTrips(cd) && cd.decode(x) == Some(0)
    ensures var a := Slot(Some(Modification(x)), Some(DeltaOp(5, 0, 100, Plus(5))));
            var b := Slot(None, Some(DeltaOp(1, 0, 100, Plus(1))));
            var c, v := SquashSlot(cd, a, b), Some(cd.encode(10));
            && c.Some? && RunSlot(cd, a, v) == Holds(Some(cd.encode(15)))
            && RunSlot(cd, b, Some(cd.encode(15))) == Holds(Some(cd.encode(16)))
            && RunSlot(cd, c.value, v) == Holds(Some(cd.encode(15))) && cd.encode(15) != cd.encode(16)
  {
    assert cd.decode(cd.encode(10)) == Some(10);
    assert cd.decode(cd.encode(15)) == Some(15) && cd.decode(cd.encode(16)) == Some(16);
  }

  /** The change set that holds the squashed slots. */
  function SquashedSet<K, E>(cd: Codec, a: ChangeSet<K, E>, b: ChangeSet<K, E>): ChangeSet<K, E> {
    var keys := a.writes.Keys + b.writes.Keys + a.deltas.Keys + b.deltas.Keys;
    ChangeSet(map k | k in keys && KeptWrite(SquashSlot(cd, SlotAt(a, k), SlotAt(b, k))).Some? ::
                KeptWrite(SquashSlot(cd, SlotAt(a, k), SlotAt(b, k))).value,
              map k | k in keys && KeptDelta(SquashSlot(cd, SlotAt(a, k), SlotAt(b, k))).Some? ::
                KeptDelta(SquashSlot(cd, SlotAt(a, k), SlotAt(b, k))).value,
              a.events + b.events)
  }

  function KeptWrite(s: Option<Slot>): Option<WriteOp> { if s.Some? then s.value.write else None }

  function KeptDelta(s: Option<Slot>): Option<DeltaOp> { if s.Some? then s.value.delta else None }

  /** There is a squash exactly if no key clashes. */
  lemma SquashExistsIff<K(!new), E>(cd: Codec, a: ChangeSet<K, E>, b: ChangeSet<K, E>)
    ensures !SlotClash(cd, a, b) <==> IsSlotSquash(cd, a, b, SquashedSet(cd, a, b))
  {
    var c := SquashedSet(cd, a, b);
    if !SlotClash(cd, a, b) {
      forall k ensures SquashSlot(cd, SlotAt(a, k), SlotAt(b, k)) == Some(SlotAt(c, k)) {
        assert SquashSlot(cd, SlotAt(a, k), SlotAt(b, k)).Some?;
      }
    }
  }

  /** With one limit per aggregator: running both means the squash exists and runs the same. */
  lemma SquashRuns<K(!new), E>(cd: Codec, a: ChangeSet<K, E>, b: ChangeSet<K, E>,
                               s: map<K, Bytes>, s1: map<K, Bytes>, s2: map<K, Bytes>)
    requires RoundTrips(cd) && Runs(cd, a, s, s1) && Runs(cd, b, s1, s2)
    requires Disjoint(a) && Disjoint(b) && SameLimits(a, b)
    ensures exists c :: IsSlotSquash(cd, a, b, c) && Runs(cd, c, s, s2)
  {
    forall k
      ensures SlotFits(cd, SlotAt(a, k), SlotAt(b, k), Get(s, k), Get(s1, k))
      ensures SquashSlot(cd, SlotAt(a, k), SlotAt(b, k)).Some?
    {
      assert RunSlot(cd, SlotAt(a, k), Get(s, k)) == Holds(Get(s1, k));
      assert RunSlot(cd, SlotAt(b, k), Get(s1, k)) == Holds(Get(s2, k));
      assert SlotAt(a, k) == SlotOf(At(a, k)) && SlotAt(b, k) == SlotOf(At(b, k));
      SameLimitKeeps(cd, At(a, k), At(b, k), Get(s, k), Get(s1, k), Get(s2, k));
    }
    var c := SquashedSet(cd, a, b);
    SquashExistsIff(cd, a, b);
    SquashRunsIff(cd, a, b, c, s, s1, s2);
  }

  lemma SameLimitKeeps(cd: Codec, a: Change, b: Change, v: Option<Bytes>, v1: Option<Bytes>, v2: Option<Bytes>)
    requires RoundTrips(cd) && (a.D? && b.D? ==> a.delta.limit == b.delta.limit)
    requires RunSlot(cd, SlotOf(a), v) == Holds(v1) && RunSlot(cd, SlotOf(b), v1) == Holds(v2)
    ensures SlotFits(cd, SlotOf(a), SlotOf(b), v, v1) && SquashSlot(cd, SlotOf(a), SlotOf(b)).Some?
  {
    RunOneChange(cd, a, v);
    RunOneChange(cd, b, v1);
    SameLimitFits(cd, a, b, v);
    SquashKeepsMeaning(cd, a, b, v);
    OneChangePerSlot(cd, a, b);
  }

  // ---------------------------------------------------------------- plain write sets

  ghost predicate RunsWrites<K(!new)>(w: map<K, WriteOp>, s: map<K, Bytes>, s': map<K, Bytes>) {
    forall k :: if k in w then RunWrite(w[k], Get(s, k)) == Holds(Get(s', k)) else Get(s', k) == Get(s, k)
  }

  /** A state on which `a` and then `b` are valid: whatever is not created first must be there. */
  function Witness<K>(a: map<K, WriteOp>, b: map<K, WriteOp>, any: Bytes): map<K, Bytes> {
    map k | k in a.Keys + b.Keys && !(if k in a then a[k].Creation? else b[k].Creation?) :: any
  }

  function Write<K>(w: map<K, WriteOp>, s: map<K, Bytes>): map<K, Bytes> {
    map k | k in s.Keys + w.Keys && !(k in w && w[k].Deletion?) :: if k in w then w[k].data else s[k]
  }

  /** Two write sets squash exactly when they can be valid one after the other. */
  lemma WriteSetsSquashIff<K(!new)>(a: map<K, WriteOp>, b: map<K, WriteOp>, any: Bytes)
    ensures Compatible(a, b) <==> exists s, s1, s2 :: RunsWrites(a, s, s1) && RunsWrites(b, s1, s2)
  {
    if Compatible(a, b) {
      var s := Witness(a, b, any);
      var s1 := Write(a, s);
      var s2 := Write(b, s1);
      assert RunsWrites(a, s, s1);
      forall k ensures if k in b then RunWrite(b[k], Get(s1, k)) == Holds(Get(s2, k)) else Get(s2, k) == Get(s1, k) {
        assert !WriteAt(a, b, k).Rejected?;
      }
      assert RunsWrites(b, s1, s2);
    }
    forall s, s1, s2 | RunsWrites(a, s, s1) && RunsWrites(b, s1, s2) ensures Compatible(a, b) {
      forall k ensures !WriteAt(a, b, k).Rejected? {}
    }
  }

  // ---------------------------------------------------------------- grouping

  function GroupLeft(cd: Codec, a: Slot, b: Slot, c: Slot): Option<Slot> {
    var x := SquashSlot(cd, a, b);
    if x.None? then None else SquashSlot(cd, x.value, c)
  }

  function GroupRight(cd: Codec, a: Slot, b: Slot, c: Slot): Option<Slot> {
    var x := SquashSlot(cd, b, c);
    if x.None? then None else SquashSlot(cd, a, x.value)
  }

  /** The delta, if there is one, merged onto `prev`, if there is one. */
  function OptMerge(d: Option<DeltaOp>, prev: Option<DeltaOp>): Option<DeltaOp> {
    if d.None? then prev else if prev.None? then d else MergeOnto(d.value, prev.value)
  }

  /** What is stored by a write with a delta on top. */
  function Stored(cd: Codec, op: WriteOp, d: Option<DeltaOp>): Option<WriteOp> {
    if d.None? then Some(op) else DeltaOnWrite(cd, op, d.value)
  }

  /** What `c` stores is changed by the delta. */
  predicate Changes(cd: Codec, d: DeltaOp, c: Slot)
    requires c.write.Some?
  {
    var op := Stored(cd, c.write.value, c.delta);
    op.Some? && DeltaOnWrite(cd, op.value, d) != op
  }

  /**
   One change in the second: a delta of the first is dropped by one grouping and kept by the
   other, because the key is created and then deleted, or what the first has created is deleted
   and created again.
   */
  predicate Strays(a: Slot, b: Slot, c: Slot) {
    && a.delta.Some? && b.write.Some? && c.write.Some?
    && ((a.write.None? && b.write.value.Creation? && c.write.value.Deletion? && OptMerge(c.delta, a.delta) != c.delta)
        || (a.write.Some? && a.write.value.Creation? && b.write.value.Deletion? && c.write.value.Creation?))
  }

  /**
   A write and a delta in the second: one grouping applies the delta before the third comes, the
   other to what the third stores, or to what is left when the writes cancel out.
   */
  predicate Slips(cd: Codec, a: Slot, b: Slot, c: Slot)
    requires b.write.Some? && b.delta.Some?
  {
    && c.write.Some?
    && match c.write.value
       case Modification(_) => Changes(cd, b.delta.value, c)
       case Creation(_) => a.delta.Some? || Changes(cd, b.delta.value, c)
       case Deletion =>
         if b.write.value.Creation? then OptMerge(OptMerge(c.delta, b.delta), a.delta) != c.delta
         else OptMerge(b.delta, a.delta) != a.delta
  }

  predicate Differ(cd: Codec, a: Slot, b: Slot, c: Slot) {
    if b.write.Some? && b.delta.Some? then Slips(cd, a, b, c) else Strays(a, b, c)
  }

  /** Two groupings that succeed differ exactly if a delta of the first strays or one of the second slips. */
  lemma GroupingAgrees(cd: Codec, a: Slot, b: Slot, c: Slot)
    requires RoundTrips(cd) && GroupLeft(cd, a, b, c).Some? && GroupRight(cd, a, b, c).Some?
    ensures GroupLeft(cd, a, b, c) == GroupRight(cd, a, b, c) <==> !Differ(cd, a, b, c)
  {
    if b.delta.Some? {
      if b.write.Some? { BothAgree(cd, a, b, c); }
      else if c.delta.Some? && c.write.None? {
        if a.write.Some? { MergeCompletes(c.delta.value, b.delta.value, cd.decode(a.write.value.data).value); }
        else if a.delta.Some? { MergeAssociates(a.delta.value, b.delta.value, c.delta.value); }
      }
    }
  }

  /** The order of two deltas on one write does not matter, if both orders succeed. */
  lemma DeltasCommute(cd: Codec, op: WriteOp, d: DeltaOp, e: DeltaOp)
    requires RoundTrips(cd) && DeltaOnWrite(cd, op, d).Some? && DeltaOnWrite(cd, op, e).Some?
    requires DeltaOnWrite(cd, DeltaOnWrite(cd, op, d).value, e).Some?
    requires DeltaOnWrite(cd, DeltaOnWrite(cd, op, e).value, d).Some?
    ensures DeltaOnWrite(cd, DeltaOnWrite(cd, op, d).value, e) == DeltaOnWrite(cd, DeltaOnWrite(cd, op, e).value, d)
  {
    var x := cd.decode(op.data).value;
    ApplyMeans(d, x);
    ApplyMeans(e, x);
    ApplyMeans(e, ApplyTo(d, x).value);
    ApplyMeans(d, ApplyTo(e, x).value);
  }

  lemma BothThenDelta(cd: Codec, a: Slot, b: Slot, c: Slot)
    requires RoundTrips(cd) && GroupLeft(cd, a, b, c).Some? && GroupRight(cd, a, b, c).Some?
    requires b.write.Some? && b.delta.Some? && c.write.None?
    ensures GroupLeft(cd, a, b, c) == GroupRight(cd, a, b, c)
  {
    if c.delta.Some? {
      var m := SlotWrite(a, b.write.value);
      assert m.Some?;
      if m.value.write.Some? { DeltasCommute(cd, m.value.write.value, b.delta.value, c.delta.value); }
    }
  }

  lemma BothThenWrite(cd: Codec, a: Slot, b: Slot, c: Slot)
    requires RoundTrips(cd) && GroupLeft(cd, a, b, c).Some? && GroupRight(cd, a, b, c).Some?
    requires b.write.Some? && b.delta.Some? && c.write.Some? && !c.write.value.Deletion?
    ensures GroupLeft(cd, a, b, c) == GroupRight(cd, a, b, c) <==> !Slips(cd, a, b, c)
  {}

  lemma BothThenDeletion(cd: Codec, a: Slot, b: Slot, c: Slot)
    requires RoundTrips(cd) && GroupLeft(cd, a, b, c).Some? && GroupRight(cd, a, b, c).Some?
    requires b.write.Some? && b.delta.Some? && c.write.Some? && c.write.value.Deletion?
    ensures GroupLeft(cd, a, b, c) == GroupRight(cd, a, b, c) <==> !Slips(cd, a, b, c)
  {}

  lemma BothAgree(cd: Codec, a: Slot, b: Slot, c: Slot)
    requires RoundTrips(cd) && GroupLeft(cd, a, b, c).Some? && GroupRight(cd, a, b, c).Some?
    requires b.write.Some? && b.delta.Some?
    ensures GroupLeft(cd, a, b, c) == GroupRight(cd, a, b, c) <==> !Slips(cd, a, b, c)
  {
    if c.write.None? { BothThenDelta(cd, a, b, c); }
    else if c.write.value.Deletion? { BothThenDeletion(cd, a, b, c); }
    else { BothThenWrite(cd, a, b, c); }
  }

  /** A delta, then a creation and a deletion: grouped one way the delta is gone, grouped the other way it stays. */
  lemma VanishingDelta(cd: Codec, data: Bytes)
    ensures var d := DeltaOp(5, 0, 100, Plus(5));
            var a, b, c := Slot(None, Some(d)), Slot(Some(Creation(data)), None), Slot(Some(Deletion), None);
            && GroupLeft(cd, a, b, c) == Some(Slot(None, None)) && GroupRight(cd, a, b, c) == Some(a)
            && forall v :: RunBoth(cd, D(d), W(Creation(data)), v).Invalid?
  {
    var a, b := D(DeltaOp(5, 0, 100, Plus(5))), W(Creation(data));
    forall v ensures RunBoth(cd, a, b, v).Invalid? {}
  }

  /** A creation and a delta for one key, then a deletion and a creation: again the delta is gone or stays. */
  lemma ReturningDelta(cd: Codec, x: Bytes, y: Bytes)
    ensures var d := DeltaOp(5, 0, 100, Plus(5));
            var a, b, c := Slot(Some(Creation(x)), Some(d)), Slot(Some(Deletion), None), Slot(Some(Creation(y)), None);
            && GroupLeft(cd, a, b, c) == Some(Slot(Some(Creation(y)), None))
            && GroupRight(cd, a, b, c) == Some(Slot(Some(Creation(y)), Some(d)))
  {}

  /** A creation and a delta for one key in the second: grouped one way the delta is applied to what comes later. */
  lemma DeltaInTheMiddle(cd: Codec, x: Bytes, y: Bytes)
    requires RoundTrips(cd) && cd.decode(x) == Some(0) && cd.decode(y) == Some(0)
    ensures var d := DeltaOp(5, 0, 100, Plus(5));
            var a, b, c := Slot(None, None), Slot(Some(Creation(x)), Some(d)), Slot(Some(Modification(y)), None);
            && GroupLeft(cd, a, b, c) == Some(Slot(Some(Creation(y)), None))
            && GroupRight(cd, a, b, c) == Some(Slot(Some(Creation(cd.encode(5))), None)) && y != cd.encode(5)
  {
    assert cd.decode(cd.encode(5)) == Some(5);
  }

  /** Two groupings of three change sets that both succeed are equal exactly if they differ at no key. */
  lemma GroupingsEqualIff<K(!new), E>(cd: Codec, a: ChangeSet<K, E>, b: ChangeSet<K, E>, c: ChangeSet<K, E>,
                                      ab: ChangeSet<K, E>, bc: ChangeSet<K, E>, l: ChangeSet<K, E>, r: ChangeSet<K, E>)
    requires RoundTrips(cd)
    requires IsSlotSquash(cd, a, b, ab) && IsSlotSquash(cd, ab, c, l)
    requires IsSlotSquash(cd, b, c, bc) && IsSlotSquash(cd, a, bc, r)
    ensures l == r <==> forall k :: !Differ(cd, SlotAt(a, k), SlotAt(b, k), SlotAt(c, k))
  {
    assert l.events == r.events;
    forall k ensures SlotAt(l, k) == SlotAt(r, k) <==> !Differ(cd, SlotAt(a, k), SlotAt(b, k), SlotAt(c, k)) {
      assert SquashSlot(cd, SlotAt(a, k), SlotAt(b, k)) == Some(SlotAt(ab, k));
      assert SquashSlot(cd, SlotAt(ab, k), SlotAt(c, k)) == Some(SlotAt(l, k));
      assert SquashSlot(cd, SlotAt(b, k), SlotAt(c, k)) == Some(SlotAt(bc, k));
      assert SquashSlot(cd, SlotAt(a, k), SlotAt(bc, k)) == Some(SlotAt(r, k));
      GroupingAgrees(cd, SlotAt(a, k), SlotAt(b, k), SlotAt(c, k));
    }
    if forall k :: SlotAt(l, k) == SlotAt(r, k) { SameSlots(l, r); }
  }

  /** Without deltas in the first, and with one change for each key in the second, grouping does not matter. */
  lemma PlainGroupingsEqual<K(!new), E>(cd: Codec, a: ChangeSet<K, E>, b: ChangeSet<K, E>, c: ChangeSet<K, E>,
                                        ab: ChangeSet<K, E>, bc: ChangeSet<K, E>,
                                        l: ChangeSet<K, E>, r: ChangeSet<K, E>)
    requires RoundTrips(cd) && Disjoint(b) && a.deltas == map[]
    requires IsSlotSquash(cd, a, b, ab) && IsSlotSquash(cd, ab, c, l)
    requires IsSlotSquash(cd, b, c, bc) && IsSlotSquash(cd, a, bc, r)
    ensures l == r
  {
    GroupingsEqualIff(cd, a, b, c, ab, bc, l, r);
  }
}
