/**
 Serializability.  Whatever the schedule, the committed prefix of the block has the results
 of executing its transactions one after the other, and the outputs collected at the end of
 a parallel run are those the sequential executor returns.
 */
module BlockStmSerial {
  import opened Options
  import opened BlockStm
  import opened BlockStmView
  import opened BlockStmSafety
  import M = BlockStmMemory
  import V = BlockStmValidity

  // ---------------------------------------------------------------- sequential semantics

  /** The value of `k` after the writes of `rs`, in order, on top of storage. */
  function SeqView(c: Config, rs: seq<Result>, k: Key): Reading {
    if rs == [] then c.base(k)
    else
      var last := Writes(rs[|rs| - 1]);
      if k in last then RawBytes(last[k]) else SeqView(c, rs[..|rs| - 1], k)
  }

  /** The write of `k` in the output of a result, if it has an output that writes it. */
  predicate WritesTo(r: Result, k: Key, w: WriteOp) {
    match r
    case Success(o) => k in o.writes && o.writes[k] == w
    case SkipRest(o) => k in o.writes && o.writes[k] == w
    case Abort(_) => false
  }

  /** What a view shows after the write `w`. */
  predicate Shows(w: WriteOp, v: Reading) {
    match w
    case Creation(d) => v == Some(d)
    case Modification(d) => v == Some(d)
    case Deletion => v == None
  }

  /** `w` is the last write of `k`, made by the i-th result. */
  ghost predicate LastWrite(rs: seq<Result>, k: Key, i: nat, w: WriteOp) {
    && i < |rs| && WritesTo(rs[i], k, w)
    && forall j, x :: i < j < |rs| ==> !WritesTo(rs[j], k, x)
  }

  /** The view shows the data of the last write of the key, nothing after a deletion, and storage below. */
  lemma {:induction false} SeqViewShows(c: Config, rs: seq<Result>, k: Key)
    ensures (forall i, w :: 0 <= i < |rs| ==> !WritesTo(rs[i], k, w)) ==> SeqView(c, rs, k) == c.base(k)
    ensures forall i, w :: LastWrite(rs, k, i, w) ==> Shows(w, SeqView(c, rs, k))
  {
    if rs != [] {
      var n := |rs| - 1;
      SeqViewShows(c, rs[..n], k);
      if k in Writes(rs[n]) { assert WritesTo(rs[n], k, Writes(rs[n])[k]); }
      else {
        forall i, w | LastWrite(rs, k, i, w) ensures Shows(w, SeqView(c, rs, k)) {
          assert LastWrite(rs[..n], k, i, w);
        }
      }
    }
  }

  /** The VM asks for keys, gets `vals` from the view after `rs`. */
  ghost predicate SeqTrace(c: Config, i: nat, rs: seq<Result>, vals: seq<Reading>) {
    forall p :: 0 <= p < |vals| ==>
      var st := c.vm(i, vals[..p]);
      st.ReadKey? && vals[p] == SeqView(c, rs, st.key)
  }

  /** Transaction `i`, run alone after `rs`, ends with `r`. */
  ghost predicate SeqRun(c: Config, i: nat, rs: seq<Result>, vals: seq<Reading>, r: Result) {
    SeqTrace(c, i, rs, vals) && c.vm(i, vals) == Finish(r)
  }

  ghost predicate SeqResult(c: Config, i: nat, rs: seq<Result>, r: Result) {
    exists vals :: SeqRun(c, i, rs, vals, r)
  }

  /** `rs` are the results of the first |rs| transactions, run one after the other. */
  ghost predicate IsSequential(c: Config, rs: seq<Result>) {
    forall i :: 0 <= i < |rs| ==> SeqResult(c, i, rs[..i], rs[i])
  }

  lemma {:induction false} TracesAgree(c: Config, i: nat, rs: seq<Result>, v: seq<Reading>, w: seq<Reading>, p: nat)
    requires SeqTrace(c, i, rs, v) && SeqTrace(c, i, rs, w) && p <= |v| && p <= |w|
    ensures v[..p] == w[..p]
  {
    if p > 0 {
      TracesAgree(c, i, rs, v, w, p - 1);
      assert v[..p] == v[..p - 1] + [v[p - 1]] && w[..p] == w[..p - 1] + [w[p - 1]];
    }
  }

  /** Alone, a transaction has one result. */
  lemma ResultUnique(c: Config, i: nat, rs: seq<Result>, r: Result, r': Result)
    requires SeqResult(c, i, rs, r) && SeqResult(c, i, rs, r')
    ensures r == r'
  {
    var v :| SeqRun(c, i, rs, v, r);
    var w :| SeqRun(c, i, rs, w, r');
    var p := if |v| < |w| then |v| else |w|;
    TracesAgree(c, i, rs, v, w, p);
    assert v[..|v|] == v && w[..|w|] == w;
  }

  /** The sequential results of a block are determined, as far as both go. */
  lemma {:induction false} SequentialUnique(c: Config, rs: seq<Result>, rs': seq<Result>, k: nat)
    requires IsSequential(c, rs) && IsSequential(c, rs') && k <= |rs| && k <= |rs'|
    ensures rs[..k] == rs'[..k]
  {
    if k > 0 {
      SequentialUnique(c, rs, rs', k - 1);
      assert SeqResult(c, k - 1, rs[..k - 1], rs[k - 1]);
      assert SeqResult(c, k - 1, rs'[..k - 1], rs'[k - 1]);
      ResultUnique(c, k - 1, rs[..k - 1], rs[k - 1], rs'[k - 1]);
      assert rs[..k] == rs[..k - 1] + [rs[k - 1]] && rs'[..k] == rs'[..k - 1] + [rs'[k - 1]];
    }
  }

  // ---------------------------------------------------------------- the committed prefix is sequential

  predicate Recorded(s: State, k: nat) {
    k <= |s.txns| && forall i :: 0 <= i < k ==> s.txns[i].output.Some?
  }

  /** The recorded results of the first `k` transactions. */
  function Results(s: State, k: nat): (rs: seq<Result>)
    requires Recorded(s, k)
    ensures |rs| == k && forall i :: 0 <= i < k ==> rs[i] == s.txns[i].output.value
  {
    seq(k, i requires 0 <= i < k => s.txns[i].output.value)
  }

  /** The map entries of the committed transactions are their recorded writes. */
  ghost predicate EntriesRecorded(s: State) {
    Recorded(s, s.commitIdx) && forall i :: 0 <= i < s.commitIdx ==>
      s.txns[i].mv == M.EntriesOf(s.txns[i].output.value, s.txns[i].status.inc)
  }

  lemma CommittedRecorded(c: Config, s: State)
    requires Inv(c, s)
    ensures EntriesRecorded(s)
    ensures forall i :: 0 <= i < s.commitIdx ==> M.Recorded(c, s.log, i, M.MemAt(s, i))
  {
    forall i | 0 <= i < s.commitIdx
      ensures M.Recorded(c, s.log, i, M.MemAt(s, i))
      ensures s.txns[i].mv == M.EntriesOf(s.txns[i].output.value, s.txns[i].status.inc)
    {
      assert M.TxnOk(c, s.log, i, M.MemAt(s, i));
    }
  }

  /** Below the commit index, the multi-version map shows the sequential view. */
  lemma {:induction false} CommittedView(c: Config, s: State, k: Key, i: nat)
    requires EntriesRecorded(s) && i <= s.commitIdx
    ensures var v := SeqView(c, Results(s, s.commitIdx)[..i], k);
            match MvGet(s.txns, k, i)
            case NotFound => v == c.base(k)
            case Found(_, _, w) => v == RawBytes(w)
            case Dependency(_) => false
  {
    if i > 0 {
      CommittedView(c, s, k, i - 1);
      var rs := Results(s, s.commitIdx);
      assert rs[..i][..i - 1] == rs[..i - 1];
      assert s.txns[i - 1].mv == M.EntriesOf(rs[i - 1], s.txns[i - 1].status.inc);
    }
  }

  /** A valid recorded read has the value of the sequential view. */
  lemma ValidRead(c: Config, s: State, i: nat, r: Read)
    requires M.InvMem(c, s) && EntriesRecorded(s) && i <= s.commitIdx
    requires Matches(s.txns, i, r) && M.ReadTrue(c, s.log, r)
    ensures r.val == SeqView(c, Results(s, s.commitIdx)[..i], r.key)
  {
    CommittedView(c, s, r.key, i);
    M.FoundIsLogged(c, s, r.key, i);
  }

  lemma CommittedResult(c: Config, s: State, i: nat)
    requires Inv(c, s) && i < s.commitIdx && Recorded(s, s.commitIdx)
    ensures SeqResult(c, i, Results(s, s.commitIdx)[..i], Results(s, s.commitIdx)[i])
  {
    CommittedRecorded(c, s);
    assert M.Recorded(c, s.log, i, M.MemAt(s, i));
    assert V.TVal(s, i);
    var hist, rs := s.txns[i].input.value, Results(s, s.commitIdx);
    var vals := Vals(hist);
    forall p | 0 <= p < |vals|
      ensures var st := c.vm(i, vals[..p]); st.ReadKey? && vals[p] == SeqView(c, rs[..i], st.key)
    {
      assert vals[..p] == Vals(hist[..p]);
      ValidRead(c, s, i, hist[p]);
    }
    assert SeqRun(c, i, rs[..i], vals, rs[i]);
  }

  /** Serializability: in every reachable state the committed prefix is a sequential execution. */
  lemma Serializable(c: Config, s: State)
    requires Inv(c, s)
    ensures Recorded(s, s.commitIdx) && IsSequential(c, Results(s, s.commitIdx))
  {
    CommittedRecorded(c, s);
    forall i | 0 <= i < s.commitIdx ensures SeqResult(c, i, Results(s, s.commitIdx)[..i], Results(s, s.commitIdx)[i]) {
      CommittedResult(c, s, i);
    }
  }

  /** The same over runs. */
  lemma RunSerializable(c: Config, tr: seq<State>, k: nat)
    requires IsRun(c, tr) && k < |tr|
    ensures var s := tr[k]; Recorded(s, s.commitIdx) && IsSequential(c, Results(s, s.commitIdx))
    ensures tr[k].done ==> tr[k].commitIdx == c.n
  {
    RunInv(c, tr, k);
    Serializable(c, tr[k]);
  }

  lemma CommitStepGrows(c: Config, s: State, s': State)
    requires Next(c, s, s')
    ensures s.commitIdx <= s'.commitIdx
  {
    if s' != TryCommit(c, s) {
      var u :| Step(c, s, u, s');
      ShapeStep(c, s, u, s');
    }
  }

  lemma CommitGrowsAt(c: Config, tr: seq<State>, k: nat)
    requires IsRun(c, tr) && k + 1 < |tr|
    ensures tr[k].commitIdx <= tr[k + 1].commitIdx
  {
    assert NextAt(c, tr, k);
    CommitStepGrows(c, tr[k], tr[k + 1]);
  }

  lemma {:induction false} CommitIdxGrows(c: Config, tr: seq<State>, j: nat, k: nat)
    requires IsRun(c, tr) && j <= k < |tr|
    ensures tr[j].commitIdx <= tr[k].commitIdx
    decreases k - j
  {
    if j < k {
      CommitGrowsAt(c, tr, j);
      CommitIdxGrows(c, tr, j + 1, k);
    }
  }

  /** What was committed earlier in a run is a prefix of what is committed later. */
  lemma CommitsOnlyGrow(c: Config, tr: seq<State>, j: nat, k: nat)
    requires IsRun(c, tr) && j <= k < |tr|
    ensures Recorded(tr[j], tr[j].commitIdx) && Recorded(tr[k], tr[k].commitIdx)
    ensures Results(tr[j], tr[j].commitIdx) <= Results(tr[k], tr[k].commitIdx)
  {
    RunSerializable(c, tr, j);
    RunSerializable(c, tr, k);
    CommitIdxGrows(c, tr, j, k);
    var early, late := Results(tr[j], tr[j].commitIdx), Results(tr[k], tr[k].commitIdx);
    SequentialUnique(c, early, late, |early|);
    assert early[..|early|] == early;
  }

  // ---------------------------------------------------------------- the outcome of a block

  datatype Outcome = Ok(outs: seq<Output>) | Err(err: UserError)

  /** Pad with the output of skipped transactions. */
  function Pad(c: Config, outs: seq<Output>): (r: seq<Output>)
    requires |outs| <= c.n
    ensures |r| == c.n
  {
    outs + seq(c.n - |outs|, _ => c.skip)
  }

  /** The outcome of a block from the results `rs` of its first transactions, given the outputs so far. */
  function Gather(c: Config, outs: seq<Output>, rs: seq<Result>): Outcome
    requires |outs| + |rs| <= c.n
    decreases |rs|
  {
    if rs == [] then Ok(Pad(c, outs))
    else
      match rs[0]
      case Success(o) => Gather(c, outs + [o], rs[1..])
      case SkipRest(o) => Ok(Pad(c, outs + [o]))
      case Abort(e) => Err(e)
  }

  /** Only the last of `rs` may end the block early; otherwise `rs` covers it. */
  predicate Complete(c: Config, rs: seq<Result>) {
    && |rs| <= c.n
    && (forall i :: 0 <= i < |rs| - 1 ==> rs[i].Success?)
    && (|rs| == c.n || (rs != [] && !rs[|rs| - 1].Success?))
  }

  /**
   `o` is what a block with the results `rs` returns: the error that ended it, or the output of
   every transaction that ran, followed by the output of skipped ones.
   */
  predicate Delivers(c: Config, rs: seq<Result>, o: Outcome) {
    if rs != [] && rs[|rs| - 1].Abort? then o == Err(rs[|rs| - 1].err)
    else
      && o.Ok? && |rs| <= |o.outs| == c.n
      && (forall i :: 0 <= i < |rs| ==> !rs[i].Abort? && o.outs[i] == rs[i].out)
      && (forall i :: |rs| <= i < c.n ==> o.outs[i] == c.skip)
  }

  /** `o` is what executing the block transaction by transaction gives. */
  ghost predicate SequentialOutcome(c: Config, o: Outcome) {
    exists rs :: IsSequential(c, rs) && Complete(c, rs) && Delivers(c, rs, o)
  }

  /** Gathering the results of a complete block delivers them. */
  lemma {:induction false} GatherDelivers(c: Config, outs: seq<Output>, rs: seq<Result>, k: nat)
    requires Complete(c, rs) && k <= |rs| && |outs| == k
    requires forall i :: 0 <= i < k ==> rs[i].Success? && outs[i] == rs[i].out
    ensures Delivers(c, rs, Gather(c, outs, rs[k..]))
    decreases |rs| - k
  {
    if k < |rs| {
      assert rs[k..][0] == rs[k] && rs[k..][1..] == rs[k + 1..];
      if rs[k].Success? { GatherDelivers(c, outs + [rs[k].out], rs, k + 1); }
    }
  }

  lemma Gathered(c: Config, rs: seq<Result>)
    requires Complete(c, rs)
    ensures Delivers(c, rs, Gather(c, [], rs))
  {
    assert rs[0..] == rs;
    GatherDelivers(c, [], rs, 0);
  }

  /** Results behind the one that ends the block do not matter. */
  lemma {:induction false} GatherCut(c: Config, outs: seq<Output>, rs: seq<Result>, k: nat)
    requires |outs| + |rs| <= c.n && k < |rs| && !rs[k].Success?
    requires forall i :: 0 <= i < k ==> rs[i].Success?
    ensures Gather(c, outs, rs) == Gather(c, outs, rs[..k + 1])
    decreases |rs|
  {
    if k > 0 {
      assert rs[1..][..k] == rs[..k + 1][1..];
      GatherCut(c, outs + [rs[0].out], rs[1..], k - 1);
    }
  }

  /** A block has at most one sequential outcome. */
  lemma OutcomeUnique(c: Config, o: Outcome, o': Outcome)
    requires SequentialOutcome(c, o) && SequentialOutcome(c, o')
    ensures o == o'
  {
    var rs :| IsSequential(c, rs) && Complete(c, rs) && Delivers(c, rs, o);
    var rs' :| IsSequential(c, rs') && Complete(c, rs') && Delivers(c, rs', o');
    var k := if |rs| < |rs'| then |rs| else |rs'|;
    SequentialUnique(c, rs, rs', k);
    assert rs[..|rs|] == rs && rs'[..|rs'|] == rs';
  }

  lemma {:induction false} FirstStop(rs: seq<Result>, from: nat) returns (k: nat)
    requires from <= |rs| && forall i :: 0 <= i < from ==> rs[i].Success?
    ensures k <= |rs| && (forall i :: 0 <= i < k ==> rs[i].Success?) && (k < |rs| ==> !rs[k].Success?)
    decreases |rs| - from
  {
    if from == |rs| || !rs[from].Success? { k := from; } else { k := FirstStop(rs, from + 1); }
  }

  /** The results of the whole block, all run sequentially, give the sequential outcome. */
  lemma GatherSequential(c: Config, rs: seq<Result>)
    requires IsSequential(c, rs) && |rs| == c.n
    ensures SequentialOutcome(c, Gather(c, [], rs))
  {
    var k := FirstStop(rs, 0);
    if k < |rs| {
      var cut := rs[..k + 1];
      GatherCut(c, [], rs, k);
      forall i | 0 <= i < |cut| ensures SeqResult(c, i, cut[..i], cut[i]) { assert cut[..i] == rs[..i]; }
      assert IsSequential(c, cut) && Complete(c, cut);
      Gathered(c, cut);
    } else {
      assert Complete(c, rs);
      Gathered(c, rs);
    }
  }

  /** A finished parallel run has recorded exactly the outcome of sequential execution. */
  lemma ParallelIsSequential(c: Config, tr: seq<State>, k: nat)
    requires IsRun(c, tr) && k < |tr| && tr[k].done
    ensures Recorded(tr[k], c.n) && SequentialOutcome(c, Gather(c, [], Results(tr[k], c.n)))
  {
    RunSerializable(c, tr, k);
    GatherSequential(c, Results(tr[k], c.n));
  }

  // ---------------------------------------------------------------- collecting the outputs

  lemma {:induction false} GatherSplit(c: Config, outs: seq<Output>, rs: seq<Result>, k: nat)
    requires k <= |rs| && |rs| <= c.n && |outs| == k
    requires forall i :: 0 <= i < k ==> rs[i].Success? && outs[i] == rs[i].out
    ensures Gather(c, [], rs) == Gather(c, outs, rs[k..])
  {
    if k == 0 {
      assert outs == [] && rs[0..] == rs;
    } else {
      GatherSplit(c, outs[..k - 1], rs, k - 1);
      assert rs[k - 1..][1..] == rs[k..] && outs[..k - 1] + [rs[k - 1].out] == outs;
    }
  }

  /** Up to the first result that ends the block, the results are delivered. */
  lemma GatherStops(c: Config, rs: seq<Result>)
    requires |rs| == c.n
    ensures exists k :: 0 <= k <= c.n && Complete(c, rs[..k]) && Delivers(c, rs[..k], Gather(c, [], rs))
  {
    var k := FirstStop(rs, 0);
    if k < |rs| {
      GatherCut(c, [], rs, k);
      Gathered(c, rs[..k + 1]);
    } else {
      assert rs[..k] == rs;
      Gathered(c, rs);
    }
  }

  /** The end of execute_transactions_parallel: take the outputs in block order. */
  method CollectOutputs(c: Config, s: State) returns (o: Outcome)
    requires Recorded(s, c.n)
    ensures o == Gather(c, [], Results(s, c.n))
    ensures var rs := Results(s, c.n); exists k :: 0 <= k <= c.n && Complete(c, rs[..k]) && Delivers(c, rs[..k], o)
  {
    GatherStops(c, Results(s, c.n));
    var outs: seq<Output> := [];
    ghost var rs := Results(s, c.n);
    var idx := 0;
    while idx < c.n
      invariant idx <= c.n && |outs| == idx
      invariant forall i :: 0 <= i < idx ==> rs[i].Success? && outs[i] == rs[i].out
    {
      GatherSplit(c, outs, rs, idx);
      match s.txns[idx].output.value {
        case Success(t) => outs := outs + [t];
        case SkipRest(t) => return Ok(Pad(c, outs + [t]));
        case Abort(e) => return Err(e);
      }
      idx := idx + 1;
    }
    GatherSplit(c, outs, rs, idx);
    return Ok(Pad(c, outs));
  }

  // ---------------------------------------------------------------- the sequential executor

  /** The VM is metered: after `gas` reads it finishes. */
  ghost predicate Metered(c: Config, gas: nat) {
    forall i: nat, vals: seq<Reading> :: |vals| >= gas ==> c.vm(i, vals).Finish?
  }

  /** `data` holds the latest write of every key written so far. */
  ghost predicate Holds(c: Config, data: map<Key, WriteOp>, rs: seq<Result>) {
    forall k :: SeqView(c, rs, k) == if k in data then RawBytes(data[k]) else c.base(k)
  }

  /** execute_transaction on a view of the data map over storage. */
  method ExecuteTransaction(c: Config, i: nat, data: map<Key, WriteOp>, ghost rs: seq<Result>, ghost gas: nat)
    returns (r: Result)
    requires Metered(c, gas) && Holds(c, data, rs)
    ensures SeqResult(c, i, rs, r)
  {
    var vals: seq<Reading> := [];
    while true
      invariant SeqTrace(c, i, rs, vals)
      invariant |vals| <= gas
      decreases gas - |vals|
    {
      match c.vm(i, vals)
      case Finish(res) =>
        assert SeqRun(c, i, rs, vals, res);
        return res;
      case ReadKey(k) =>
        var v := if k in data then RawBytes(data[k]) else c.base(k);
        ghost var next := vals + [v];
        forall p | 0 <= p < |next|
          ensures var st := c.vm(i, next[..p]); st.ReadKey? && next[p] == SeqView(c, rs, st.key)
        {
          assert next[..p] == if p < |vals| then vals[..p] else vals;
        }
        vals := vals + [v];
    }
  }

  lemma HoldsNext(c: Config, data: map<Key, WriteOp>, rs: seq<Result>, r: Result)
    requires Holds(c, data, rs)
    ensures Holds(c, data + Writes(r), rs + [r])
  {
    var data' := data + Writes(r);
    forall k ensures SeqView(c, rs + [r], k) == if k in data' then RawBytes(data'[k]) else c.base(k) {
      assert (rs + [r])[..|rs|] == rs;
    }
  }

  lemma SequentialNext(c: Config, rs: seq<Result>, r: Result)
    requires IsSequential(c, rs) && SeqResult(c, |rs|, rs, r)
    ensures IsSequential(c, rs + [r])
  {
    var rs' := rs + [r];
    forall i | 0 <= i < |rs'| ensures SeqResult(c, i, rs'[..i], rs'[i]) {
      assert rs'[..i] == if i < |rs| then rs[..i] else rs;
    }
  }

  /** execute_transactions_sequential */
  method ExecuteSequential(c: Config, ghost gas: nat) returns (o: Outcome)
    requires Metered(c, gas)
    ensures SequentialOutcome(c, o)
  {
    var data: map<Key, WriteOp> := map[];
    var outs: seq<Output> := [];
    ghost var rs: seq<Result> := [];
    var idx := 0;
    var skip := false;
    while idx < c.n && !skip
      invariant |rs| == |outs| == idx <= c.n
      invariant IsSequential(c, rs) && Holds(c, data, rs)
      invariant forall i :: 0 <= i < (if skip then idx - 1 else idx) ==> rs[i].Success?
      invariant skip ==> idx > 0 && rs[idx - 1].SkipRest?
      invariant forall i :: 0 <= i < idx ==> !rs[i].Abort? && outs[i] == rs[i].out
      decreases c.n - idx, !skip
    {
      var r := ExecuteTransaction(c, idx, data, rs, gas);
      SequentialNext(c, rs, r);
      HoldsNext(c, data, rs, r);
      if r.Abort? {
        ghost var all := rs + [r];
        GatherSplit(c, outs, all, idx);
        assert all[idx..] == [r];
        assert Complete(c, all);
        Gathered(c, all);
        return Err(r.err);
      }
      data := data + r.out.writes;
      outs := outs + [r.out];
      rs := rs + [r];
      skip := r.SkipRest?;
      idx := idx + 1;
    }
    assert Complete(c, rs);
    Gathered(c, rs);
    if skip {
      GatherSplit(c, outs[..idx - 1], rs, idx - 1);
      assert rs[idx - 1..] == [rs[idx - 1]] && outs[..idx - 1] + [rs[idx - 1].out] == outs;
    } else {
      GatherSplit(c, outs, rs, idx);
    }
    return Ok(Pad(c, outs));
  }

  /**
   execute_block: the parallel executor, if it is asked for and no module was both read and
   published; otherwise, and as the fallback, the sequential one.  `s` is the state in which
   the parallel run `tr` ended.
   */
  method ExecuteBlock(c: Config, parallel: bool, moduleRace: bool, s: State, ghost tr: seq<State>, ghost gas: nat)
    returns (o: Outcome)
    requires Metered(c, gas)
    requires parallel ==> IsRun(c, tr) && s == tr[|tr| - 1] && s.done
    ensures SequentialOutcome(c, o)
    ensures forall o' :: SequentialOutcome(c, o') ==> o' == o
  {
    if parallel && !moduleRace {
      ParallelIsSequential(c, tr, |tr| - 1);
      o := CollectOutputs(c, s);
    } else {
      o := ExecuteSequential(c, gas);
    }
    forall o' | SequentialOutcome(c, o') ensures o' == o { OutcomeUnique(c, o, o'); }
  }
}
