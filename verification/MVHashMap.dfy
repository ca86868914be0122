/**
 The multi-version map with aggregator deltas.  A read walks the entries of a key from the
 top down and merges the deltas it meets; the output resolver replays the same entries from
 the bottom up.  Both give the same values.
 */
module MultiVersionMap {
  import opened Options
  import opened DeltaOps

  datatype Cell<V> = Write(inc: nat, data: V) | Delta(op: DeltaOp)

  datatype Entry<V> = Entry(estimate: bool, cell: Cell<V>)

  type Entries<V> = map<nat, Entry<V>>

  datatype Versioned<V> = Versioned(entries: Entries<V>, containsDelta: bool)

  datatype ReadResult<V> =
    | Version(idx: nat, inc: nat, data: V)
    | Resolved(value: nat)
    | NotFound
    | Unresolved(op: DeltaOp)
    | Dependency(dep: nat)
    | DeltaApplicationFailure

  /** Deltas merged so far on the way down. */
  datatype Acc = Nothing | Sum(op: DeltaOp) | Failed

  function MergeAcc(acc: Acc, d: DeltaOp): Acc {
    match acc
    case Nothing => Sum(d)
    case Sum(op) => var m := MergeOnto(op, d); if m.Some? then Sum(m.value) else Failed
    case Failed => Failed
  }

  /** What a read returns when it meets a write below the deltas in `acc`. */
  function AtWrite<V>(agg: V -> Option<nat>, acc: Acc, idx: nat, inc: nat, data: V): ReadResult<V> {
    if acc.Nothing? || agg(data).None? then Version(idx, inc, data)
    else if acc.Failed? then DeltaApplicationFailure
    else
      var result := ApplyTo(acc.op, agg(data).value);
      if result.None? then DeltaApplicationFailure else Resolved(result.value)
  }

  /** The read from index `i` down, with `acc` merged above. */
  function ReadBelow<V>(agg: V -> Option<nat>, es: Entries<V>, i: nat, acc: Acc): ReadResult<V> {
    if i == 0 then
      match acc
      case Nothing => NotFound
      case Sum(op) => Unresolved(op)
      case Failed => DeltaApplicationFailure
    else if i - 1 !in es then ReadBelow(agg, es, i - 1, acc)
    else if es[i - 1].estimate then Dependency(i - 1)
    else
      match es[i - 1].cell
      case Write(inc, data) => AtWrite(agg, acc, i - 1, inc, data)
      case Delta(d) => ReadBelow(agg, es, i - 1, MergeAcc(acc, d))
  }

  // ---------------------------------------------------------------- the bottom-up reference

  datatype Replayed = Value(v: Option<nat>) | Stuck

  function ApplyDelta(d: DeltaOp, x: Replayed): Replayed {
    if x.Value? && x.v.Some? && ApplyTo(d, x.v.value).Some? then Value(ApplyTo(d, x.v.value)) else Stuck
  }

  /** The value of the key after the entries below `i`, starting from storage. */
  function Replay<V>(agg: V -> Option<nat>, base: Option<nat>, es: Entries<V>, i: nat): Replayed {
    if i == 0 then Value(base)
    else if i - 1 !in es then Replay(agg, base, es, i - 1)
    else
      match es[i - 1].cell
      case Write(_, data) => Value(agg(data))
      case Delta(d) => ApplyDelta(d, Replay(agg, base, es, i - 1))
  }

  /** What the state view makes of a read. */
  function Denote<V>(agg: V -> Option<nat>, base: Option<nat>, r: ReadResult<V>): Replayed {
    match r
    case Version(_, _, data) => Value(agg(data))
    case Resolved(v) => Value(Some(v))
    case NotFound => Value(base)
    case Unresolved(op) => ApplyDelta(op, Value(base))
    case Dependency(_) => Stuck
    case DeltaApplicationFailure => Stuck
  }

  function Then(acc: Acc, x: Replayed): Replayed {
    match acc
    case Nothing => x
    case Sum(op) => ApplyDelta(op, x)
    case Failed => Stuck
  }

  /** No estimates below `i`, and all deltas of the aggregator carry its limit. */
  ghost predicate Settled<V>(es: Entries<V>, i: nat, limit: nat) {
    forall j :: 0 <= j < i && j in es ==>
      !es[j].estimate && (es[j].cell.Delta? ==> es[j].cell.op.limit == limit)
  }

  lemma MergeThen(acc: Acc, d: DeltaOp, x: Replayed)
    requires acc.Sum? ==> acc.op.limit == d.limit
    ensures Then(MergeAcc(acc, d), x) == Then(acc, ApplyDelta(d, x))
  {
    if acc.Sum? && x.Value? && x.v.Some? { MergeIsComposition(acc.op, d, x.v.value); }
  }

  /** Both directions, with the deltas in `acc` on top. */
  lemma {:induction false} ReadIsReplay<V>(agg: V -> Option<nat>, base: Option<nat>, es: Entries<V>, i: nat, acc: Acc,
                                           limit: nat)
    requires Settled(es, i, limit) && (acc.Sum? ==> acc.op.limit == limit)
    ensures var r, x := Denote(agg, base, ReadBelow(agg, es, i, acc)), Then(acc, Replay(agg, base, es, i));
            (x.Value? ==> r == x) && (r.Value? && r.v.Some? ==> x == r)
  {
    if i > 0 {
      if i - 1 !in es { ReadIsReplay(agg, base, es, i - 1, acc, limit); }
      else if es[i - 1].cell.Delta? {
        var d := es[i - 1].cell.op;
        MergeThen(acc, d, Replay(agg, base, es, i - 1));
        ReadIsReplay(agg, base, es, i - 1, MergeAcc(acc, d), limit);
      }
    }
  }

  /** The read by transaction `i` shows the replayed value; it never shows another value. */
  lemma ReadAgreesWithReplay<V>(agg: V -> Option<nat>, base: Option<nat>, es: Entries<V>, i: nat, limit: nat)
    requires Settled(es, i, limit)
    ensures var r, x := Denote(agg, base, ReadBelow(agg, es, i, Nothing)), Replay(agg, base, es, i);
            (x.Value? ==> r == x) && (r.Value? && r.v.Some? ==> x == r)
  {
    ReadIsReplay(agg, base, es, i, Nothing, limit);
  }

  // ---------------------------------------------------------------- deltas with different limits

  ghost predicate NoEstimates<V>(es: Entries<V>, i: nat) {
    forall j :: 0 <= j < i && j in es ==> !es[j].estimate
  }

  /** The aggregator value that is shown, if any. */
  function Shown(x: Replayed): Option<nat> { if x.Value? then x.v else None }

  /** Replay with one limit in place of those of the deltas. */
  function ReplayAt<V>(agg: V -> Option<nat>, base: Option<nat>, es: Entries<V>, i: nat, limit: nat): Replayed {
    if i == 0 then Value(base)
    else if i - 1 !in es then ReplayAt(agg, base, es, i - 1, limit)
    else
      match es[i - 1].cell
      case Write(_, data) => Value(agg(data))
      case Delta(d) => ApplyDelta(d.(limit := limit), ReplayAt(agg, base, es, i - 1, limit))
  }

  /** A merge looks at the limit of the upper delta only. */
  lemma MergeThenAt(op: DeltaOp, d: DeltaOp, x: Replayed)
    ensures Then(MergeAcc(Sum(op), d), x) == Then(Sum(op), ApplyDelta(d.(limit := op.limit), x))
    ensures MergeAcc(Sum(op), d).Sum? ==> MergeAcc(Sum(op), d).op.limit == op.limit
  {
    assert MergeOnto(op, d) == MergeOnto(op, d.(limit := op.limit));
    MergeThen(Sum(op), d.(limit := op.limit), x);
  }

  lemma {:induction false} ReadIsReplayAt<V>(agg: V -> Option<nat>, base: Option<nat>, es: Entries<V>, i: nat, acc: Acc,
                                             limit: nat)
    requires NoEstimates(es, i) && !acc.Nothing? && (acc.Sum? ==> acc.op.limit == limit)
    ensures Shown(Denote(agg, base, ReadBelow(agg, es, i, acc)))
         == Shown(Then(acc, ReplayAt(agg, base, es, i, limit)))
  {
    if i > 0 {
      if i - 1 !in es { ReadIsReplayAt(agg, base, es, i - 1, acc, limit); }
      else if es[i - 1].cell.Delta? {
        var d := es[i - 1].cell.op;
        if acc.Sum? { MergeThenAt(acc.op, d, ReplayAt(agg, base, es, i - 1, limit)); }
        ReadIsReplayAt(agg, base, es, i - 1, MergeAcc(acc, d), limit);
      }
    }
  }

  /** The limit of the highest delta above the last write. */
  function TopLimit<V>(es: Entries<V>, i: nat): Option<nat> {
    if i == 0 then None
    else if i - 1 !in es then TopLimit(es, i - 1)
    else if es[i - 1].cell.Delta? then Some(es[i - 1].cell.op.limit) else None
  }

  /** For any limits: a read shows the replay with the limit of the highest delta everywhere. */
  lemma {:induction false} ReadShows<V>(agg: V -> Option<nat>, base: Option<nat>, es: Entries<V>, i: nat)
    requires NoEstimates(es, i)
    ensures Shown(Denote(agg, base, ReadBelow(agg, es, i, Nothing)))
         == Shown(if TopLimit(es, i).Some? then ReplayAt(agg, base, es, i, TopLimit(es, i).value)
                  else Replay(agg, base, es, i))
  {
    if i > 0 {
      if i - 1 !in es { ReadShows(agg, base, es, i - 1); }
      else if es[i - 1].cell.Delta? {
        var d := es[i - 1].cell.op;
        ReadIsReplayAt(agg, base, es, i - 1, Sum(d), d.limit);
        assert d.(limit := d.limit) == d;
      }
    }
  }

  /** The value under the deltas above the last write. */
  function Start<V>(agg: V -> Option<nat>, base: Option<nat>, es: Entries<V>, i: nat): Option<nat> {
    if i == 0 then base
    else if i - 1 in es && es[i - 1].cell.Write? then agg(es[i - 1].cell.data)
    else Start(agg, base, es, i - 1)
  }

  /** What these deltas add up to. */
  function Total<V>(es: Entries<V>, i: nat): int {
    if i == 0 then 0
    else if i - 1 !in es then Total(es, i - 1)
    else if es[i - 1].cell.Write? then 0 else Total(es, i - 1) + Shift(es[i - 1].cell.op)
  }

  /** From `x` on, none of them falls below zero. */
  predicate Floors<V>(es: Entries<V>, i: nat, x: int) {
    if i == 0 then true
    else if i - 1 !in es then Floors(es, i - 1, x)
    else es[i - 1].cell.Write? || (Floors(es, i - 1, x) && Bottom(es[i - 1].cell.op) <= x + Total(es, i - 1))
  }

  /** From `x` on, none of them exceeds the given limit, or its own. */
  predicate Ceilings<V>(es: Entries<V>, i: nat, x: int, limit: Option<nat>) {
    if i == 0 then true
    else if i - 1 !in es then Ceilings(es, i - 1, x, limit)
    else
      match es[i - 1].cell
      case Write(_, _) => true
      case Delta(d) =>
        && Ceilings(es, i - 1, x, limit)
        && x + Total(es, i - 1) + Top(d) <= if limit.Some? then limit.value else d.limit
  }

  function Outcome<V>(agg: V -> Option<nat>, base: Option<nat>, es: Entries<V>, i: nat, limit: Option<nat>)
    : Option<int>
  {
    var x := Start(agg, base, es, i);
    if x.Some? && Floors(es, i, x.value) && Ceilings(es, i, x.value, limit) then Some(x.value + Total(es, i)) else None
  }

  function AsInt(x: Option<nat>): Option<int> { if x.Some? then Some(x.value) else None }

  lemma {:induction false} ReplayMeans<V>(agg: V -> Option<nat>, base: Option<nat>, es: Entries<V>, i: nat)
    ensures AsInt(Shown(Replay(agg, base, es, i))) == Outcome(agg, base, es, i, None)
  {
    if i > 0 {
      ReplayMeans(agg, base, es, i - 1);
      var x := Shown(Replay(agg, base, es, i - 1));
      if i - 1 in es && es[i - 1].cell.Delta? && x.Some? { ApplyMeans(es[i - 1].cell.op, x.value); }
    }
  }

  lemma {:induction false} ReplayAtMeans<V>(agg: V -> Option<nat>, base: Option<nat>, es: Entries<V>, i: nat,
                                            limit: nat)
    ensures AsInt(Shown(ReplayAt(agg, base, es, i, limit))) == Outcome(agg, base, es, i, Some(limit))
  {
    if i > 0 {
      ReplayAtMeans(agg, base, es, i - 1, limit);
      var x := Shown(ReplayAt(agg, base, es, i - 1, limit));
      if i - 1 in es && es[i - 1].cell.Delta? && x.Some? {
        ApplyMeans(es[i - 1].cell.op.(limit := limit), x.value);
      }
    }
  }

  /**
   For any limits: a read and the replay show the same exactly if, where no delta falls below
   zero, all of them stay below the limit of the highest one just when each stays below its own.
   */
  lemma ReadAgreesIff<V>(agg: V -> Option<nat>, base: Option<nat>, es: Entries<V>, i: nat)
    requires NoEstimates(es, i)
    ensures var x := Start(agg, base, es, i);
            Shown(Denote(agg, base, ReadBelow(agg, es, i, Nothing))) == Shown(Replay(agg, base, es, i)) <==>
              (x.Some? && Floors(es, i, x.value) ==>
                 (Ceilings(es, i, x.value, TopLimit(es, i)) <==> Ceilings(es, i, x.value, None)))
  {
    ReadShows(agg, base, es, i);
    ReplayMeans(agg, base, es, i);
    if TopLimit(es, i).Some? { ReplayAtMeans(agg, base, es, i, TopLimit(es, i).value); }
  }

  /** Two deltas of one key with different limits: once the read fails, once it shows too much. */
  lemma LimitsMatter<V>(agg: V -> Option<nat>)
    ensures var prev, d := DeltaOp(0, 50, 1000, Minus(50)), DeltaOp(0, 10, 55, Minus(10));
            var es: Entries<V> := map[0 := Entry(false, Delta(prev)), 1 := Entry(false, Delta(d))];
            && Shown(Denote(agg, Some(100), ReadBelow(agg, es, 2, Nothing))) == None
            && Shown(Replay(agg, Some(100), es, 2)) == Some(40)
    ensures var prev, d := DeltaOp(10, 0, 20, Plus(10)), DeltaOp(0, 0, 1000, Plus(0));
            var es: Entries<V> := map[0 := Entry(false, Delta(prev)), 1 := Entry(false, Delta(d))];
            && Shown(Denote(agg, Some(15), ReadBelow(agg, es, 2, Nothing))) == Some(25)
            && Shown(Replay(agg, Some(15), es, 2)) == None
  {
    LimitsMatterAt(agg, DeltaOp(0, 50, 1000, Minus(50)), DeltaOp(0, 10, 55, Minus(10)), 100);
    LimitsMatterAt(agg, DeltaOp(10, 0, 20, Plus(10)), DeltaOp(0, 0, 1000, Plus(0)), 15);
  }

  lemma LimitsMatterAt<V>(agg: V -> Option<nat>, prev: DeltaOp, d: DeltaOp, x: nat)
    ensures var es: Entries<V> := map[0 := Entry(false, Delta(prev)), 1 := Entry(false, Delta(d))];
            && Shown(Denote(agg, Some(x), ReadBelow(agg, es, 2, Nothing))) == Merged(d, prev, x)
            && Shown(Replay(agg, Some(x), es, 2)) == InOrder(d, prev, x)
  {
    var es: Entries<V> := map[0 := Entry(false, Delta(prev)), 1 := Entry(false, Delta(d))];
    assert ReadBelow(agg, es, 2, Nothing) == ReadBelow(agg, es, 1, Sum(d));
    assert ReadBelow(agg, es, 1, Sum(d)) == ReadBelow(agg, es, 0, MergeAcc(Sum(d), prev));
    assert Replay(agg, Some(x), es, 1) == ApplyDelta(prev, Replay(agg, Some(x), es, 0));
  }

  // ---------------------------------------------------------------- estimates

  /** A read stops at an estimate exactly when only finished deltas lie above it. */
  lemma {:induction false} DependencyExact<V>(agg: V -> Option<nat>, es: Entries<V>, i: nat, acc: Acc, j: nat)
    ensures ReadBelow(agg, es, i, acc) == Dependency(j) <==>
              && j < i && j in es && es[j].estimate
              && forall q :: j < q < i && q in es ==> !es[q].estimate && es[q].cell.Delta?
  {
    if i > 0 {
      if i - 1 !in es { DependencyExact(agg, es, i - 1, acc, j); }
      else if !es[i - 1].estimate && es[i - 1].cell.Delta? {
        DependencyExact(agg, es, i - 1, MergeAcc(acc, es[i - 1].cell.op), j);
      }
    }
  }

  // ---------------------------------------------------------------- what a read returns

  /** From `j` up to `i` there are only finished deltas. */
  ghost predicate OnlyDeltas<V>(es: Entries<V>, j: nat, i: nat) {
    forall q :: j <= q < i && q in es ==> !es[q].estimate && es[q].cell.Delta?
  }

  /** The deltas from `j` up to `i`, merged from the top down below `acc`. */
  function AccDown<V>(es: Entries<V>, j: nat, i: nat, acc: Acc): Acc
    requires j <= i
    decreases i
  {
    if i == j then acc
    else if i - 1 in es && es[i - 1].cell.Delta? then AccDown(es, j, i - 1, MergeAcc(acc, es[i - 1].cell.op))
    else AccDown(es, j, i - 1, acc)
  }

  /** Entry `j` is the write that a read from `i` gets to. */
  ghost predicate Lands<V>(es: Entries<V>, i: nat, j: nat, inc: nat, data: V) {
    j < i && j in es && es[j] == Entry(false, Write(inc, data)) && OnlyDeltas(es, j + 1, i)
  }

  lemma LandsBelow<V>(es: Entries<V>, i: nat, j: nat, inc: nat, data: V)
    requires i > 0 && (i - 1 in es ==> !es[i - 1].estimate && es[i - 1].cell.Delta?)
    ensures Lands(es, i, j, inc, data) <==> Lands(es, i - 1, j, inc, data)
  {
    if Lands(es, i - 1, j, inc, data) {
      forall q | j + 1 <= q < i && q in es ensures !es[q].estimate && es[q].cell.Delta? {}
    }
  }

  /** A version is returned exactly if it is that of the write, and no delta lies above or the write deletes. */
  lemma {:induction false} VersionExact<V>(agg: V -> Option<nat>, es: Entries<V>, i: nat, acc: Acc,
                                           j: nat, inc: nat, data: V)
    ensures ReadBelow(agg, es, i, acc) == Version(j, inc, data) <==>
              Lands(es, i, j, inc, data) && (agg(data).None? || AccDown(es, j + 1, i, acc).Nothing?)
  {
    if i > 0 && (i - 1 in es ==> !es[i - 1].estimate && es[i - 1].cell.Delta?) {
      LandsBelow(es, i, j, inc, data);
      VersionExact(agg, es, i - 1, if i - 1 in es then MergeAcc(acc, es[i - 1].cell.op) else acc, j, inc, data);
    }
  }

  /** There is a write below, and the deltas above it apply to its value. */
  ghost predicate Resolves<V>(agg: V -> Option<nat>, es: Entries<V>, i: nat, acc: Acc,
                              j: nat, inc: nat, data: V, v: nat)
  {
    && Lands(es, i, j, inc, data) && agg(data).Some?
    && var sum := AccDown(es, j + 1, i, acc); sum.Sum? && ApplyTo(sum.op, agg(data).value) == Some(v)
  }

  /** A resolved value is that of the merged deltas on the write they lie above. */
  lemma {:induction false} ResolvedExact<V(!new)>(agg: V -> Option<nat>, es: Entries<V>, i: nat, acc: Acc, v: nat)
    ensures ReadBelow(agg, es, i, acc) == Resolved(v) <==>
              exists j, inc, data :: Resolves(agg, es, i, acc, j, inc, data, v)
  {
    if i > 0 {
      if i - 1 in es && !es[i - 1].estimate && es[i - 1].cell.Write? {
        var w := es[i - 1].cell;
        if ReadBelow(agg, es, i, acc) == Resolved(v) { assert Resolves(agg, es, i, acc, i - 1, w.inc, w.data, v); }
      } else if i - 1 in es ==> !es[i - 1].estimate {
        var acc' := if i - 1 in es then MergeAcc(acc, es[i - 1].cell.op) else acc;
        ResolvedExact(agg, es, i - 1, acc', v);
        forall j, inc, data
          ensures Resolves(agg, es, i, acc, j, inc, data, v) <==> Resolves(agg, es, i - 1, acc', j, inc, data, v)
        {
          LandsBelow(es, i, j, inc, data);
        }
        if ReadBelow(agg, es, i, acc) == Resolved(v) {
          var j, inc, data :| Resolves(agg, es, i - 1, acc', j, inc, data, v);
          assert Resolves(agg, es, i, acc, j, inc, data, v);
        }
      }
    }
  }

  /** Nothing, or only a merged delta, exactly if no write and no estimate lies below. */
  lemma {:induction false} BottomExact<V>(agg: V -> Option<nat>, es: Entries<V>, i: nat, acc: Acc, op: DeltaOp)
    ensures ReadBelow(agg, es, i, acc).NotFound? <==> OnlyDeltas(es, 0, i) && AccDown(es, 0, i, acc).Nothing?
    ensures ReadBelow(agg, es, i, acc) == Unresolved(op) <==> OnlyDeltas(es, 0, i) && AccDown(es, 0, i, acc) == Sum(op)
  {
    if i > 0 && (i - 1 in es ==> !es[i - 1].estimate && es[i - 1].cell.Delta?) {
      BottomExact(agg, es, i - 1, if i - 1 in es then MergeAcc(acc, es[i - 1].cell.op) else acc, op);
    }
  }

  // ---------------------------------------------------------------- resolving the outputs

  /** Every delta below `n` can be applied to the value it finds. */
  ghost predicate Completes<V>(agg: V -> Option<nat>, base: Option<nat>, es: Entries<V>, n: nat) {
    forall i :: 0 < i <= n ==> Replay(agg, base, es, i).Value?
  }

  /** The materialized deltas of transaction `i`, in the order of `keys`. */
  function Materialized<K, V>(agg: V -> Option<nat>, base: K -> Option<nat>, data: map<K, Versioned<V>>, keys: seq<K>,
                              i: nat)
    : seq<(K, nat)>
  {
    if keys == [] then []
    else
      var k := keys[|keys| - 1];
      Materialized(agg, base, data, keys[..|keys| - 1], i) + DeltaAt(agg, base(k), data, k, i)
  }

  /** What transaction `i` contributes for key `k`. */
  function DeltaAt<K, V>(agg: V -> Option<nat>, base: Option<nat>, data: map<K, Versioned<V>>, k: K, i: nat)
    : seq<(K, nat)>
  {
    if k in data && i in data[k].entries && data[k].entries[i].cell.Delta? then
      var x := Replay(agg, base, data[k].entries, i + 1);
      if x.Value? && x.v.Some? then [(k, x.v.value)] else []
    else []
  }

  /** Transaction `i` has a delta for `k`, and `v` is the replayed value after it. */
  ghost predicate Delivered<K, V>(agg: V -> Option<nat>, base: K -> Option<nat>, data: map<K, Versioned<V>>, i: nat,
                                  k: K, v: nat)
  {
    && k in data && i in data[k].entries && data[k].entries[i].cell.Delta?
    && Replay(agg, base(k), data[k].entries, i + 1) == Value(Some(v))
  }

  /** `j` comes before `k` in `keys`. */
  ghost predicate Precedes<K>(keys: seq<K>, j: K, k: K) {
    exists p, q :: 0 <= p < q < |keys| && keys[p] == j && keys[q] == k
  }

  /** The listing holds exactly the replayed values of the keys, in their order. */
  ghost predicate Listed<K(!new), V>(agg: V -> Option<nat>, base: K -> Option<nat>, data: map<K, Versioned<V>>,
                                     keys: seq<K>, i: nat, list: seq<(K, nat)>)
  {
    && (forall k, v: nat :: (k, v) in list <==> k in keys && Delivered(agg, base, data, i, k, v))
    && (forall a, b :: 0 <= a < b < |list| ==> Precedes(keys, list[a].0, list[b].0))
  }

  lemma DeltaAtDelivers<K, V>(agg: V -> Option<nat>, base: K -> Option<nat>, data: map<K, Versioned<V>>, k: K, i: nat)
    ensures var list := DeltaAt(agg, base(k), data, k, i);
            |list| <= 1 && forall j, v: nat :: (j, v) in list <==> j == k && Delivered(agg, base, data, i, k, v)
  {}

  lemma {:induction false} MaterializedLists<K(!new), V>(agg: V -> Option<nat>, base: K -> Option<nat>,
                                                         data: map<K, Versioned<V>>, keys: seq<K>, i: nat)
    ensures Listed(agg, base, data, keys, i, Materialized(agg, base, data, keys, i))
  {
    if keys != [] {
      var n := |keys| - 1;
      var k := keys[n];
      var front, last := Materialized(agg, base, data, keys[..n], i), DeltaAt(agg, base(k), data, k, i);
      var list := front + last;
      MaterializedLists(agg, base, data, keys[..n], i);
      DeltaAtDelivers(agg, base, data, k, i);
      assert keys == keys[..n] + [k];
      forall a, b | 0 <= a < b < |list| ensures Precedes(keys, list[a].0, list[b].0) {
        if b < |front| {
          assert Precedes(keys[..n], front[a].0, front[b].0);
          var p, q :| 0 <= p < q < n && keys[..n][p] == front[a].0 && keys[..n][q] == front[b].0;
          assert keys[p] == list[a].0 && keys[q] == list[b].0;
        } else {
          assert (front[a].0, front[a].1) in front && (last[b - |front|].0, last[b - |front|].1) in last;
          var p :| 0 <= p < n && keys[..n][p] == front[a].0;
          assert keys[p] == list[a].0 && keys[n] == list[b].0;
        }
      }
    }
  }

  class MVHashMap<K(==, !new), V> {
    const agg: V -> Option<nat>          // aggregator value of a write, none for a deletion
    var data: map<K, Versioned<V>>
    var deltaKeys: seq<K>

    /** Exactly the keys that ever had a delta are listed, each once. */
    ghost predicate Valid()
      reads this
    {
      && (forall a, b :: 0 <= a < b < |deltaKeys| ==> deltaKeys[a] != deltaKeys[b])
      && (forall k :: k in deltaKeys <==> k in data && data[k].containsDelta)
      && (forall k, i :: k in data && i in data[k].entries && data[k].entries[i].cell.Delta? ==> data[k].containsDelta)
    }

    constructor (agg: V -> Option<nat>)
      ensures Valid() && data == map[] && deltaKeys == [] && this.agg == agg
    {
      this.agg := agg;
      data := map[];
      deltaKeys := [];
    }

    function EntriesOf(key: K): Entries<V>
      reads this
    {
      if key in data then data[key].entries else map[]
    }

    /** `fine` is the assertion that a replaced write is of a lower incarnation. */
    method AddWrite(key: K, idx: nat, inc: nat, value: V) returns (fine: bool)
      requires Valid()
      modifies this
      ensures Valid() && deltaKeys == old(deltaKeys)
      ensures forall k :: EntriesOf(k) ==
                if k == key then old(EntriesOf(k))[idx := Entry(false, Write(inc, value))] else old(EntriesOf(k))
      ensures fine <==> var es := old(EntriesOf(key)); !(idx in es && es[idx].cell.Write? && es[idx].cell.inc >= inc)
    {
      var v := if key in data then data[key] else Versioned(map[], false);
      fine := idx !in v.entries || v.entries[idx].cell.Delta? || v.entries[idx].cell.inc < inc;
      data := data[key := v.(entries := v.entries[idx := Entry(false, Write(inc, value))])];
    }

    method AddDelta(key: K, idx: nat, op: DeltaOp)
      requires Valid()
      modifies this
      ensures Valid()
      ensures forall k :: EntriesOf(k) ==
                if k == key then old(EntriesOf(k))[idx := Entry(false, Delta(op))] else old(EntriesOf(k))
      ensures deltaKeys == if key in old(deltaKeys) then old(deltaKeys) else old(deltaKeys) + [key]
    {
      var v := if key in data then data[key] else Versioned(map[], false);
      data := data[key := Versioned(v.entries[idx := Entry(false, Delta(op))], true)];
      if !v.containsDelta { deltaKeys := deltaKeys + [key]; }
    }

    /** `found` is false where the source panics: no such path or no such entry. */
    method MarkEstimate(key: K, idx: nat) returns (found: bool)
      requires Valid()
      modifies this
      ensures Valid() && deltaKeys == old(deltaKeys)
      ensures found <==> idx in old(EntriesOf(key))
      ensures forall k :: EntriesOf(k) ==
                if found && k == key then old(EntriesOf(k))[idx := old(EntriesOf(k))[idx].(estimate := true)]
                else old(EntriesOf(k))
    {
      found := key in data && idx in data[key].entries;
      if found {
        var v := data[key];
        data := data[key := v.(entries := v.entries[idx := v.entries[idx].(estimate := true)])];
      }
    }

    method Delete(key: K, idx: nat) returns (found: bool)
      requires Valid()
      modifies this
      ensures Valid() && deltaKeys == old(deltaKeys)
      ensures found <==> key in old(data)
      ensures forall k :: EntriesOf(k) == if k == key then old(EntriesOf(k)) - {idx} else old(EntriesOf(k))
    {
      found := key in data;
      if found {
        var v := data[key];
        data := data[key := v.(entries := v.entries - {idx})];
      }
    }

    /** Walk down from `txnIdx`, merging deltas, until a write, an estimate or the bottom. */
    method Read(key: K, txnIdx: nat) returns (r: ReadResult<V>)
      ensures r == ReadBelow(agg, EntriesOf(key), txnIdx, Nothing)
    {
      var es := EntriesOf(key);
      var acc := Nothing;
      var i := txnIdx;
      while i > 0
        invariant 0 <= i <= txnIdx
        invariant ReadBelow(agg, es, txnIdx, Nothing) == ReadBelow(agg, es, i, acc)
      {
        i := i - 1;
        if i in es {
          if es[i].estimate { return Dependency(i); }
          match es[i].cell {
            case Write(inc, data) => return AtWrite(agg, acc, i, inc, data);
            case Delta(d) => acc := MergeAcc(acc, d);
          }
        }
      }
      return match acc
             case Nothing => NotFound
             case Sum(op) => Unresolved(op)
             case Failed => DeltaApplicationFailure;
    }

    /**
     resolve: replay every aggregator key from storage upwards.  The result is none where the
     source panics because a delta cannot be applied.
     */
    method Resolve(base: K -> Option<nat>, blockSize: nat) returns (ret: Option<seq<seq<(K, nat)>>>)
      requires Valid()
      requires forall k, i :: k in data && i in data[k].entries ==> i < blockSize
      modifies this
      ensures ret.Some? <==> forall k :: k in old(deltaKeys) ==> Completes(agg, base(k), old(EntriesOf(k)), blockSize)
      ensures ret.Some? ==> |ret.value| == blockSize
      ensures ret.Some? ==> forall i :: 0 <= i < blockSize ==>
                ret.value[i] == Materialized(agg, base, old(data), old(deltaKeys), i)
      ensures ret.Some? ==> forall i :: 0 <= i < blockSize ==>
                Listed(agg, base, old(data), old(deltaKeys), i, ret.value[i])
    {
      var keys := deltaKeys;
      ghost var all := data;
      deltaKeys := [];
      var out: seq<seq<(K, nat)>> := seq(blockSize, _ => []);
      var a := 0;
      while a < |keys|
        invariant a <= |keys| && |out| == blockSize
        invariant forall b :: a <= b < |keys| ==> keys[b] in data && data[keys[b]] == all[keys[b]]
        invariant forall b :: 0 <= b < a ==> Completes(agg, base(keys[b]), all[keys[b]].entries, blockSize)
        invariant forall i :: 0 <= i < blockSize ==> out[i] == Materialized(agg, base, all, keys[..a], i)
      {
        var k := keys[a];
        var es := data[k].entries;
        data := data - {k};
        var ok;
        out, ok := ResolveKey(k, base(k), es, blockSize, out, all);
        if !ok {
          assert !Completes(agg, base(k), all[k].entries, blockSize);
          return None;
        }
        assert keys[..a + 1][..a] == keys[..a];
        a := a + 1;
      }
      assert keys[..|keys|] == keys;
      forall i | 0 <= i < blockSize ensures Listed(agg, base, all, keys, i, out[i]) {
        MaterializedLists(agg, base, all, keys, i);
      }
      return Some(out);
    }

    /** One key: `latest` is the value after the entries already replayed. */
    method ResolveKey(k: K, base: Option<nat>, es: Entries<V>, blockSize: nat, ret: seq<seq<(K, nat)>>,
                      ghost all: map<K, Versioned<V>>)
      returns (out: seq<seq<(K, nat)>>, ok: bool)
      requires |ret| == blockSize && k in all && all[k].entries == es
      ensures |out| == blockSize
      ensures ok <==> Completes(agg, base, es, blockSize)
      ensures ok ==> forall i :: 0 <= i < blockSize ==> out[i] == ret[i] + DeltaAt(agg, base, all, k, i)
    {
      var latest := base;
      out := ret;
      var i := 0;
      while i < blockSize
        invariant i <= blockSize && |out| == blockSize
        invariant Replay(agg, base, es, i) == Value(latest)
        invariant forall j :: 0 < j <= i ==> Replay(agg, base, es, j).Value?
        invariant forall j :: 0 <= j < i ==> out[j] == ret[j] + DeltaAt(agg, base, all, k, j)
        invariant forall j :: i <= j < blockSize ==> out[j] == ret[j]
      {
        if i in es {
          match es[i].cell {
            case Write(_, data) => latest := agg(data);
            case Delta(d) =>
              if latest.None? || ApplyTo(d, latest.value).None? {
                assert Replay(agg, base, es, i + 1).Stuck?;
                return out, false;
              }
              latest := ApplyTo(d, latest.value);
              out := out[i := out[i] + [(k, latest.value)]];
          }
        }
        i := i + 1;
      }
      ok := true;
    }
  }

  /** What resolve writes for transaction `i` is what any later reader sees right after `i`. */
  lemma MaterializedIsRead<K, V>(agg: V -> Option<nat>, base: K -> Option<nat>, data: map<K, Versioned<V>>, k: K,
                                 i: nat, limit: nat)
    requires k in data && i in data[k].entries && data[k].entries[i].cell.Delta?
    requires Settled(data[k].entries, i + 1, limit) && Completes(agg, base(k), data[k].entries, i + 1)
    ensures var r := Denote(agg, base(k), ReadBelow(agg, data[k].entries, i + 1, Nothing));
            r.Value? && r.v.Some? && DeltaAt(agg, base(k), data, k, i) == [(k, r.v.value)]
  {
    var es := data[k].entries;
    ReadAgreesWithReplay(agg, base(k), es, i + 1, limit);
    assert Replay(agg, base(k), es, i + 1).Value?;
  }
}
