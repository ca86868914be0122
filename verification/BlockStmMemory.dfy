/**
 What the multi-version map holds: the entries of a transaction are exactly its recorded
 write set once it has executed, all estimates from the end of an abort to the next run, and
 every value a run has read is the value its version wrote.
 */
module BlockStmMemory {
  import opened Options
  import opened BlockStm
  import opened BlockStmView
  import O = BlockStmOwnership

  type Log = map<(Key, nat, nat), WriteOp>

  ghost function EntriesOf(r: Result, inc: nat): map<Key, Entry> {
    map k | k in Writes(r) :: Entry(false, inc, Writes(r)[k])
  }

  ghost predicate AllEstimates(m: map<Key, Entry>) {
    forall k :: k in m ==> m[k].estimate
  }

  /** A captured read carries the value that its version wrote, or the one in storage. */
  ghost predicate ReadTrue(c: Config, log: Log, r: Read) {
    match r.kind
    case Storage => r.val == c.base(r.key)
    case Version(j, inc) => (r.key, j, inc) in log && r.val == RawBytes(log[(r.key, j, inc)])
  }

  /** `hist` is what the VM asks for, step by step. */
  ghost predicate Trace(c: Config, log: Log, i: nat, hist: seq<Read>) {
    forall p :: 0 <= p < |hist| ==>
      c.vm(i, Vals(hist[..p])) == ReadKey(hist[p].key) && ReadTrue(c, log, hist[p])
  }

  ghost predicate Ran(c: Config, log: Log, i: nat, hist: seq<Read>, r: Result) {
    Trace(c, log, i, hist) && c.vm(i, Vals(hist)) == Finish(r)
  }

  /** How far the current incarnation of a transaction has got. */
  datatype Stage =
    | Waits(inc: nat)                       // not started
    | Reads(inc: nat, hist: seq<Read>)      // in the VM, or suspended in it
    | Applies(inc: nat, hist: seq<Read>, r: Result, todo: map<Key, WriteOp>, prev: set<Key>)
    | Records(inc: nat, hist: seq<Read>, r: Result)
    | Settles(inc: nat)                     // recorded; executed or about to be
    | Unmarked(inc: nat)                    // aborted
    | Marking(inc: nat, marks: set<Key>)
    | Marked(inc: nat)

  datatype MemTxn = MemTxn(stage: Stage, mv: map<Key, Entry>, input: Option<seq<Read>>, output: Option<Result>)

  /** Only estimates of the last recorded write set are in the map. */
  ghost predicate Stale(t: MemTxn) {
    t.mv.Keys == ModKeys(t.output) && AllEstimates(t.mv)
  }

  ghost predicate Recorded(c: Config, log: Log, i: nat, t: MemTxn) {
    t.input.Some? && t.output.Some? && Ran(c, log, i, t.input.value, t.output.value)
  }

  ghost predicate Applied(t: MemTxn, inc: nat, r: Result, todo: map<Key, WriteOp>, prev: set<Key>) {
    && (forall k :: k in todo ==> k in Writes(r) && todo[k] == Writes(r)[k])
    && t.mv.Keys == (Writes(r).Keys - todo.Keys) + prev
    && (forall k :: k in prev ==> k in t.mv && t.mv[k].estimate)
    && (forall k :: k in Writes(r) && k !in todo ==> k in t.mv && t.mv[k] == Entry(false, inc, Writes(r)[k]))
  }

  ghost predicate MemOk(c: Config, log: Log, i: nat, t: MemTxn) {
    match t.stage
    case Waits(_) => Stale(t)
    case Reads(_, hist) => Trace(c, log, i, hist) && Stale(t)
    case Applies(inc, hist, r, todo, prev) => Ran(c, log, i, hist, r) && Applied(t, inc, r, todo, prev)
    case Records(inc, hist, r) =>
      Ran(c, log, i, hist, r) && t.mv == EntriesOf(r, inc) && t.input == Some(hist)
    case Settles(inc) => Recorded(c, log, i, t) && t.mv == EntriesOf(t.output.value, inc)
    case Unmarked(inc) => Recorded(c, log, i, t) && t.mv == EntriesOf(t.output.value, inc)
    case Marking(_, marks) =>
      && Recorded(c, log, i, t) && t.mv.Keys == ModKeys(t.output) && marks <= t.mv.Keys
      && forall k :: k in t.mv && k !in marks ==> t.mv[k].estimate
    case Marked(_) => Recorded(c, log, i, t) && Stale(t)
  }

  /** Has the current incarnation written `k`? */
  predicate Wrote(stage: Stage, k: Key) {
    match stage
    case Waits(_) => false
    case Reads(_, _) => false
    case Applies(_, _, r, todo, _) => k in Writes(r) && k !in todo
    case _ => true
  }

  ghost predicate LogOk(log: Log, i: nat, t: MemTxn) {
    && (forall k, inc :: (k, i, inc) in log ==>
          inc <= t.stage.inc && (inc == t.stage.inc ==> Wrote(t.stage, k)))
    && (forall k :: k in t.mv ==>
          (k, i, t.mv[k].inc) in log && log[(k, i, t.mv[k].inc)] == t.mv[k].val)
  }

  ghost predicate TxnOk(c: Config, log: Log, i: nat, t: MemTxn) {
    MemOk(c, log, i, t) && LogOk(log, i, t)
  }

  // ---------------------------------------------------------------- one transaction at a time

  lemma TraceExtend(c: Config, log: Log, i: nat, hist: seq<Read>, r: Read)
    requires Trace(c, log, i, hist) && ReadTrue(c, log, r) && c.vm(i, Vals(hist)) == ReadKey(r.key)
    ensures Trace(c, log, i, hist + [r])
  {
    var h := hist + [r];
    forall p | 0 <= p < |h|
      ensures c.vm(i, Vals(h[..p])) == ReadKey(h[p].key) && ReadTrue(c, log, h[p])
    {
      assert h[..p] == hist[..p];
      assert hist[..|hist|] == hist;
    }
  }

  lemma StartRun(c: Config, log: Log, i: nat, t: MemTxn)
    requires TxnOk(c, log, i, t) && t.stage.Waits?
    ensures TxnOk(c, log, i, t.(stage := Reads(t.stage.inc, [])))
  {}

  lemma StartApply(c: Config, log: Log, i: nat, t: MemTxn, inc: nat, hist: seq<Read>, r: Result)
    requires TxnOk(c, log, i, t) && t.stage == Reads(inc, hist) && c.vm(i, Vals(hist)) == Finish(r)
    ensures TxnOk(c, log, i, t.(stage := Applies(inc, hist, r, Writes(r), ModKeys(t.output))))
  {}

  /** The entry that add_write replaces, if any, is of a lower incarnation and an estimate. */
  lemma Overwrites(c: Config, log: Log, i: nat, t: MemTxn, k: Key)
    requires TxnOk(c, log, i, t) && t.stage.Applies? && k in t.stage.todo
    ensures k in t.mv ==> t.mv[k].inc < t.stage.inc && t.mv[k].estimate && k in t.stage.prev
    ensures k !in t.mv ==> k !in t.stage.prev
    ensures (k, i, t.stage.inc) !in log
  {}

  lemma WriteOne(c: Config, log: Log, i: nat, t: MemTxn, k: Key)
    requires TxnOk(c, log, i, t) && t.stage.Applies? && k in t.stage.todo
    ensures var st := t.stage;
            TxnOk(c, log[(k, i, st.inc) := st.todo[k]], i,
                  t.(stage := st.(todo := st.todo - {k}, prev := st.prev - {k}),
                     mv := t.mv[k := Entry(false, st.inc, st.todo[k])]))
  {
    Overwrites(c, log, i, t, k);
  }

  /** A new log entry of another transaction, or of this one, does not hurt what was read. */
  lemma LogGrows(c: Config, log: Log, x: (Key, nat, nat), w: WriteOp, i: nat, t: MemTxn)
    requires TxnOk(c, log, i, t) && x !in log && x.1 != i
    ensures TxnOk(c, log[x := w], i, t)
  {}

  lemma DeleteOne(c: Config, log: Log, i: nat, t: MemTxn, k: Key)
    requires TxnOk(c, log, i, t) && t.stage.Applies? && t.stage.todo == map[] && k in t.stage.prev
    ensures k in t.mv
    ensures TxnOk(c, log, i, t.(stage := t.stage.(prev := t.stage.prev - {k}), mv := t.mv - {k}))
  {}

  lemma RecordInput(c: Config, log: Log, i: nat, t: MemTxn)
    requires TxnOk(c, log, i, t) && t.stage.Applies? && t.stage.todo == map[] && t.stage.prev == {}
    ensures TxnOk(c, log, i, t.(stage := Records(t.stage.inc, t.stage.hist, t.stage.r), input := Some(t.stage.hist)))
  {}

  lemma RecordOutput(c: Config, log: Log, i: nat, t: MemTxn)
    requires TxnOk(c, log, i, t) && t.stage.Records?
    ensures TxnOk(c, log, i, t.(stage := Settles(t.stage.inc), output := Some(t.stage.r)))
  {}

  lemma BeginMarks(c: Config, log: Log, i: nat, t: MemTxn)
    requires TxnOk(c, log, i, t) && t.stage.Unmarked?
    ensures TxnOk(c, log, i, t.(stage := Marking(t.stage.inc, ModKeys(t.output))))
  {}

  lemma MarkOne(c: Config, log: Log, i: nat, t: MemTxn, k: Key)
    requires TxnOk(c, log, i, t) && t.stage.Marking? && k in t.stage.marks
    ensures k in t.mv
    ensures TxnOk(c, log, i, t.(stage := Marking(t.stage.inc, t.stage.marks - {k}),
                                mv := t.mv[k := t.mv[k].(estimate := true)]))
  {}

  lemma EndMarks(c: Config, log: Log, i: nat, t: MemTxn)
    requires TxnOk(c, log, i, t) && t.stage.Marking? && t.stage.marks == {}
    ensures TxnOk(c, log, i, t.(stage := Marked(t.stage.inc)))
  {}

  lemma Restart(c: Config, log: Log, i: nat, t: MemTxn)
    requires TxnOk(c, log, i, t) && t.stage.Marked?
    ensures TxnOk(c, log, i, t.(stage := Waits(t.stage.inc + 1)))
  {}

  // ---------------------------------------------------------------- view

  function StageOf(st: Status, own: Pc): Stage {
    match st
    case Ready(inc, None) => Waits(inc)
    case Executed(inc) => Settles(inc)
    case Committed(inc) => Settles(inc)
    case _ =>
      match own
      case Exec(_, inc, hist, Apply(r, todo, prev, _)) => Applies(inc, hist, r, todo, prev)
      case Exec(_, inc, hist, RecordOut(r, _)) => Records(inc, hist, r)
      case Exec(_, inc, _, WantLock(_)) => Settles(inc)
      case Exec(_, inc, _, Locked(_)) => Settles(inc)
      case Exec(_, inc, hist, _) => Reads(inc, hist)
      case Aborter(_, inc, LoadKeys) => Unmarked(inc)
      case Aborter(_, inc, Mark(todo)) => Marking(inc, todo)
      case Aborter(_, inc, AbortLocked) => Marked(inc)
      case _ => Waits(st.inc)
  }

  function MemAt(s: State, x: nat): MemTxn
    requires x < |s.txns|
  {
    var t := s.txns[x];
    MemTxn(StageOf(t.status, PcOf(s, t.owner)), t.mv, t.input, t.output)
  }

  ghost predicate InvMem(c: Config, s: State) {
    |s.txns| == c.n && forall x :: 0 <= x < c.n ==> TxnOk(c, s.log, x, MemAt(s, x))
  }

  lemma InitMem(c: Config, s: State)
    requires Init(c, s)
    ensures InvMem(c, s)
  {
    forall x | 0 <= x < c.n ensures TxnOk(c, s.log, x, MemAt(s, x)) { assert s.txns[x] == InitTxn; }
  }

  /** Whatever a read finds was logged under the version it reports. */
  lemma FoundIsLogged(c: Config, s: State, k: Key, i: nat)
    requires InvMem(c, s) && i <= c.n
    ensures match MvGet(s.txns, k, i)
            case Found(j, inc, w) => (k, j, inc) in s.log && s.log[(k, j, inc)] == w
            case _ => true
  {
    if i > 0 {
      if k in s.txns[i - 1].mv { assert TxnOk(c, s.log, i - 1, MemAt(s, i - 1)); }
      else { FoundIsLogged(c, s, k, i - 1); }
    }
  }

  // ---------------------------------------------------------------- steps

  /** A step on the record of `i` by a worker whose own transaction is `j`. */
  lemma MemFrame(c: Config, s: State, u: nat, s': State, i: nat, j: nat)
    requires InvOwn(c, s) && InvMem(c, s) && Moved(c, s, u, s') && i < c.n && j < c.n
    requires Only(s, s', i) && s'.log == s.log
    requires RoleOf(s.pc[u]).Free? || TxnOf(s.pc[u]) == j
    requires TxnOk(c, s.log, i, MemAt(s', i)) && TxnOk(c, s.log, j, MemAt(s', j))
    ensures InvMem(c, s')
  {
    forall x | 0 <= x < c.n ensures TxnOk(c, s.log, x, MemAt(s', x)) {
      if x != i && x != j {
        Frame(c, s, u, s', x);
        assert TxnOk(c, s.log, x, MemAt(s, x));
      }
    }
  }

  /** The step changes neither the data of a transaction nor the stage it is in. */
  lemma MemQuiet(c: Config, s: State, u: nat, s': State, i: nat, j: nat)
    requires InvOwn(c, s) && InvMem(c, s) && Moved(c, s, u, s') && i < c.n && j < c.n
    requires Only(s, s', i) && s'.log == s.log
    requires RoleOf(s.pc[u]).Free? || TxnOf(s.pc[u]) == j
    requires MemAt(s', i) == MemAt(s, i) && MemAt(s', j) == MemAt(s, j)
    ensures InvMem(c, s')
  {
    assert TxnOk(c, s.log, i, MemAt(s, i)) && TxnOk(c, s.log, j, MemAt(s, j));
    MemFrame(c, s, u, s', i, j);
  }

  /** A worker that owns nothing does not disturb the data of any transaction. */
  lemma MemBystander(c: Config, s: State, u: nat, s': State, i: nat)
    requires InvOwn(c, s) && InvMem(c, s) && Moved(c, s, u, s') && i < c.n
    requires Only(s, s', i) && s'.log == s.log
    requires !s.pc[u].Exec? && !s.pc[u].Aborter? && (RoleOf(s.pc[u]).Free? || TxnOf(s.pc[u]) == i)
    requires var t, t' := s.txns[i], s'.txns[i];
             t'.status == t.status && t'.owner == t.owner && t'.mv == t.mv
             && t'.input == t.input && t'.output == t.output
    ensures InvMem(c, s')
  {
    KnowsTxn(c, s, i);
    MemQuiet(c, s, u, s', i, i);
  }

  lemma MemIdle(c: Config, s: State, u: nat)
    requires InvOwn(c, s) && InvMem(c, s) && u < c.workers && s.pc[u].Idle?
    ensures InvMem(c, IdleStep(c, s, u, s.pc[u].idle))
  {
    var s' := IdleStep(c, s, u, s.pc[u].idle);
    forall x | 0 <= x < c.n ensures TxnOk(c, s'.log, x, MemAt(s', x)) {
      Frame(c, s, u, s.(pc := s'.pc), x);
      assert TxnOk(c, s.log, x, MemAt(s, x));
    }
  }

  lemma MemTake(c: Config, s: State, u: nat, i: nat, inc: nat)
    requires InvOwn(c, s) && InvMem(c, s) && u < c.workers && i < c.n && RoleOf(s.pc[u]).Free?
    requires s.txns[i].status == Ready(inc, None)
    ensures InvMem(c, Put(s, u, i, s.txns[i].(status := Executing(inc), owner := Some(u)), Exec(i, inc, [], Running)))
  {
    var s' := Put(s, u, i, s.txns[i].(status := Executing(inc), owner := Some(u)), Exec(i, inc, [], Running));
    StartRun(c, s.log, i, MemAt(s, i));
    assert MemAt(s', i) == MemAt(s, i).(stage := Reads(inc, []));
    MemFrame(c, s, u, s', i, i);
  }

  lemma MemWake(c: Config, s: State, u: nat, i: nat, inc: nat, cv: nat)
    requires InvOwn(c, s) && InvMem(c, s) && u < c.workers && i < c.n && RoleOf(s.pc[u]).Free?
    requires s.txns[i].status == Ready(inc, Some(cv))
    ensures InvMem(c, Put(s, u, i, s.txns[i].(status := Executing(inc), sig := Some(u)), Signal(i, inc, cv)))
  {
    KnowsTxn(c, s, i);
    MemQuiet(c, s, u, Put(s, u, i, s.txns[i].(status := Executing(inc), sig := Some(u)), Signal(i, inc, cv)), i, i);
  }

  lemma MemIncarnate(c: Config, s: State, u: nat, i: nat)
    requires InvOwn(c, s) && InvMem(c, s) && u < c.workers && i < c.n && RoleOf(s.pc[u]).Free?
    ensures InvMem(c, TryIncarnate(c, s, u, i))
  {
    match s.txns[i].status
    case Ready(inc, None) => MemTake(c, s, u, i, inc);
    case Ready(inc, Some(cv)) => MemWake(c, s, u, i, inc, cv);
    case _ =>
      KnowsTxn(c, s, i);
      MemQuiet(c, s, u, Goto(s, u, Idle(Top)), i, i);
  }

  lemma MemReincarnate(c: Config, s: State, u: nat, p: Pc)
    requires InvOwn(c, s) && InvMem(c, s) && u < c.workers && p == s.pc[u] && PcShape(c, p)
    requires p.FinAbort? && p.fa.Reincarnate?
    ensures InvMem(c, ReincarnateStep(c, s, u, p))
  {
    // the lock is released first, then the transaction is taken like any other
    var s1 := Put(s, u, p.i, s.txns[p.i].(vlock := None), Idle(Top));
    MemBystander(c, s, u, s1, p.i);
    ViewPut(s, u, p.i, s.txns[p.i].(vlock := None), Idle(Top));
    O.ReleaseAbort(OwnView(s), u, p.i, p.inc);
    MemIncarnate(c, s1, u, p.i);
    assert TryIncarnate(c, s1, u, p.i).pc == ReincarnateStep(c, s, u, p).pc;
  }

  lemma MemRead(c: Config, s: State, u: nat, p: Pc, k: Key)
    requires InvOwn(c, s) && InvMem(c, s) && u < c.workers && p == s.pc[u] && PcShape(c, p)
    requires p.Exec? && p.ex.Running? && c.vm(p.i, Vals(p.hist)) == ReadKey(k)
    ensures InvMem(c, RunStep(c, s, u, p))
  {
    var s' := RunStep(c, s, u, p);
    Knows(c, s, u);
    assert TxnOk(c, s.log, p.i, MemAt(s, p.i));
    FoundIsLogged(c, s, k, p.i);
    var r := ViewRead(c, s, p.i, k);
    if r.Some? { TraceExtend(c, s.log, p.i, p.hist, r.value); }
    MemFrame(c, s, u, s', p.i, p.i);
  }

  lemma MemRun(c: Config, s: State, u: nat, p: Pc)
    requires InvOwn(c, s) && InvMem(c, s) && u < c.workers && p == s.pc[u] && PcShape(c, p)
    requires p.Exec? && p.ex.Running?
    ensures InvMem(c, RunStep(c, s, u, p))
  {
    match c.vm(p.i, Vals(p.hist))
    case ReadKey(k) => MemRead(c, s, u, p, k);
    case Finish(r) =>
      Knows(c, s, u);
      StartApply(c, s.log, p.i, MemAt(s, p.i), p.inc, p.hist, r);
      MemFrame(c, s, u, RunStep(c, s, u, p), p.i, p.i);
  }

  /** Waiting for a dependency moves the run between phases in which nothing is written. */
  lemma MemWantDep(c: Config, s: State, u: nat, p: Pc)
    requires InvOwn(c, s) && InvMem(c, s) && u < c.workers && p == s.pc[u] && PcShape(c, p)
    requires p.Exec? && p.ex.WantDep?
    ensures InvMem(c, WantDepStep(c, s, u, p))
  {
    var s' := WantDepStep(c, s, u, p);
    Knows(c, s, u);
    Frame(c, s, u, s.(pc := s'.pc), p.ex.d);
    MemQuiet(c, s, u, s', p.ex.d, p.i);
  }

  lemma MemPushDep(c: Config, s: State, u: nat, p: Pc)
    requires InvOwn(c, s) && InvMem(c, s) && u < c.workers && p == s.pc[u] && PcShape(c, p)
    requires p.Exec? && p.ex.PushDep?
    ensures InvMem(c, PushDepStep(c, s, u, p))
  {
    var s' := PushDepStep(c, s, u, p);
    Knows(c, s, u);
    Frame(c, s, u, s.(pc := s'.pc), p.ex.d);
    MemQuiet(c, s, u, s', p.ex.d, p.i);
  }

  lemma MemAwake(c: Config, s: State, u: nat, p: Pc)
    requires InvOwn(c, s) && InvMem(c, s) && u < c.workers && p == s.pc[u] && PcShape(c, p)
    requires p.Exec? && p.ex.Waiting?
    ensures InvMem(c, Goto(s, u, p.(ex := Running)))
  {
    var s' := Goto(s, u, p.(ex := Running));
    Knows(c, s, u);
    MemQuiet(c, s, u, s', p.i, p.i);
  }

  lemma MemSuspend(c: Config, s: State, u: nat, p: Pc)
    requires InvOwn(c, s) && InvMem(c, s) && u < c.workers && p == s.pc[u] && PcShape(c, p)
    requires p.Exec? && p.ex.HoldDep? && s.txns[p.i].status.Executing?
    ensures InvMem(c, SuspendStep(c, s, u, p))
  {
    Knows(c, s, u);
    MemQuiet(c, s, u, SuspendStep(c, s, u, p), p.i, p.i);
  }

  /** A new entry in the log says nothing about other transactions. */
  lemma MemOthers(c: Config, s: State, u: nat, p: Pc, k: Key, x: nat)
    requires InvOwn(c, s) && InvMem(c, s) && u < c.workers && p == s.pc[u] && PcShape(c, p)
    requires p.Exec? && p.ex.Apply? && k in p.ex.todo && x < c.n && x != p.i
    requires (k, p.i, p.inc) !in s.log
    ensures var s' := AddWriteStep(c, s, u, p, k); TxnOk(c, s'.log, x, MemAt(s', x))
  {
    Frame(c, s, u, AddWriteStep(c, s, u, p, k), x);
    assert TxnOk(c, s.log, x, MemAt(s, x));
    LogGrows(c, s.log, (k, p.i, p.inc), p.ex.todo[k], x, MemAt(s, x));
  }

  lemma MemAtWrite(c: Config, s: State, u: nat, p: Pc, k: Key)
    requires InvOwn(c, s) && u < c.workers && p == s.pc[u] && PcShape(c, p) && p.Exec? && p.ex.Apply? && k in p.ex.todo
    ensures MemAt(s, p.i).stage == Applies(p.inc, p.hist, p.ex.result, p.ex.todo, p.ex.prev)
    ensures MemAt(AddWriteStep(c, s, u, p, k), p.i) ==
              MemAt(s, p.i).(stage := Applies(p.inc, p.hist, p.ex.result, p.ex.todo - {k}, p.ex.prev - {k}),
                             mv := s.txns[p.i].mv[k := Entry(false, p.inc, p.ex.todo[k])])
  {
    Knows(c, s, u);
  }

  lemma MemOwnWrite(c: Config, s: State, u: nat, p: Pc, k: Key)
    requires InvOwn(c, s) && InvMem(c, s) && u < c.workers && p == s.pc[u] && PcShape(c, p)
    requires p.Exec? && p.ex.Apply? && k in p.ex.todo
    ensures (k, p.i, p.inc) !in s.log
    ensures var s' := AddWriteStep(c, s, u, p, k); TxnOk(c, s'.log, p.i, MemAt(s', p.i))
  {
    MemAtWrite(c, s, u, p, k);
    assert TxnOk(c, s.log, p.i, MemAt(s, p.i));
    Overwrites(c, s.log, p.i, MemAt(s, p.i), k);
    WriteOne(c, s.log, p.i, MemAt(s, p.i), k);
  }

  lemma MemAddWrite(c: Config, s: State, u: nat, p: Pc, k: Key)
    requires InvOwn(c, s) && InvMem(c, s) && u < c.workers && p == s.pc[u] && PcShape(c, p)
    requires p.Exec? && p.ex.Apply? && k in p.ex.todo
    ensures InvMem(c, AddWriteStep(c, s, u, p, k))
  {
    var s' := AddWriteStep(c, s, u, p, k);
    MemOwnWrite(c, s, u, p, k);
    forall x | 0 <= x < c.n && x != p.i ensures TxnOk(c, s'.log, x, MemAt(s', x)) { MemOthers(c, s, u, p, k, x); }
  }

  lemma MemDelete(c: Config, s: State, u: nat, p: Pc, k: Key)
    requires InvOwn(c, s) && InvMem(c, s) && u < c.workers && p == s.pc[u] && PcShape(c, p)
    requires p.Exec? && p.ex.Apply? && p.ex.todo == map[] && k in p.ex.prev
    ensures InvMem(c, DeleteStep(c, s, u, p, k))
  {
    Knows(c, s, u);
    DeleteOne(c, s.log, p.i, MemAt(s, p.i), k);
    MemFrame(c, s, u, DeleteStep(c, s, u, p, k), p.i, p.i);
  }

  lemma MemRecordIn(c: Config, s: State, u: nat, p: Pc)
    requires InvOwn(c, s) && InvMem(c, s) && u < c.workers && p == s.pc[u] && PcShape(c, p)
    requires p.Exec? && p.ex.Apply? && p.ex.todo == map[] && p.ex.prev == {}
    ensures InvMem(c, RecordInStep(c, s, u, p))
  {
    Knows(c, s, u);
    RecordInput(c, s.log, p.i, MemAt(s, p.i));
    MemFrame(c, s, u, RecordInStep(c, s, u, p), p.i, p.i);
  }

  lemma MemApply(c: Config, s: State, u: nat, p: Pc, s': State)
    requires InvOwn(c, s) && InvMem(c, s) && u < c.workers && p == s.pc[u] && PcShape(c, p)
    requires p.Exec? && p.ex.Apply? && ApplyStep(c, s, u, p, s')
    ensures InvMem(c, s')
  {
    if p.ex.todo != map[] {
      var k :| k in p.ex.todo && s' == AddWriteStep(c, s, u, p, k);
      MemAddWrite(c, s, u, p, k);
    } else if p.ex.prev != {} {
      var k :| k in p.ex.prev && s' == DeleteStep(c, s, u, p, k);
      MemDelete(c, s, u, p, k);
    } else {
      MemRecordIn(c, s, u, p);
    }
  }

  lemma MemRecordOut(c: Config, s: State, u: nat, p: Pc)
    requires InvOwn(c, s) && InvMem(c, s) && u < c.workers && p == s.pc[u] && PcShape(c, p)
    requires p.Exec? && p.ex.RecordOut?
    ensures InvMem(c, RecordOutStep(c, s, u, p))
  {
    Knows(c, s, u);
    RecordOutput(c, s.log, p.i, MemAt(s, p.i));
    MemFrame(c, s, u, RecordOutStep(c, s, u, p), p.i, p.i);
  }

  lemma MemLocked(c: Config, s: State, u: nat, p: Pc)
    requires InvOwn(c, s) && InvMem(c, s) && u < c.workers && p == s.pc[u] && PcShape(c, p) && p.Exec?
    ensures p.ex.WantLock? ==> InvMem(c, LockStep(c, s, u, p.(ex := Locked(p.ex.outside))))
    ensures p.ex.Locked? ==> InvMem(c, SetExecutedStep(c, s, u, p))
  {
    Knows(c, s, u);
    if p.ex.WantLock? { MemQuiet(c, s, u, LockStep(c, s, u, p.(ex := Locked(p.ex.outside))), p.i, p.i); }
    if p.ex.Locked? { MemQuiet(c, s, u, SetExecutedStep(c, s, u, p), p.i, p.i); }
  }

  lemma MemFin(c: Config, s: State, u: nat, p: Pc, s': State)
    requires InvOwn(c, s) && InvMem(c, s) && u < c.workers && p == s.pc[u] && PcShape(c, p) && !Panics(c, s, u)
    requires p.Fin? && FinStep(c, s, u, p, s')
    requires ResumesSleeper(c, s, p)
    ensures InvMem(c, s')
  {
    Knows(c, s, u);
    if p.fin.Resume? && p.fin.todo != [] {
      var x := p.fin.todo[0];
      KnowsTxn(c, s, x);
      KnowsTxn(c, s, p.i);
      MemQuiet(c, s, u, s', x, p.i);
    } else {
      MemBystander(c, s, u, s', p.i);
    }
  }

  lemma MemTryAbort(c: Config, s: State, u: nat, p: Pc)
    requires InvOwn(c, s) && InvMem(c, s) && u < c.workers && p == s.pc[u] && PcShape(c, p) && p.Val?
    ensures InvMem(c, TryAbortStep(c, s, u, p))
  {
    var s' := TryAbortStep(c, s, u, p);
    if s.txns[p.i].status == Executed(p.inc) {
      assert TxnOk(c, s.log, p.i, MemAt(s, p.i));
      assert TxnOk(c, s.log, p.i, MemAt(s', p.i));
      MemFrame(c, s, u, s', p.i, p.i);
    } else {
      MemBystander(c, s, u, s', p.i);
    }
  }

  lemma MemMark(c: Config, s: State, u: nat, p: Pc, k: Key)
    requires InvOwn(c, s) && InvMem(c, s) && u < c.workers && p == s.pc[u] && PcShape(c, p)
    requires p.Aborter? && p.ab.Mark? && k in p.ab.todo && k in s.txns[p.i].mv
    ensures InvMem(c, MarkStep(c, s, u, p, k))
  {
    Knows(c, s, u);
    MarkOne(c, s.log, p.i, MemAt(s, p.i), k);
    MemFrame(c, s, u, MarkStep(c, s, u, p, k), p.i, p.i);
  }

  lemma MemSetAborted(c: Config, s: State, u: nat, p: Pc)
    requires InvOwn(c, s) && InvMem(c, s) && u < c.workers && p == s.pc[u] && PcShape(c, p)
    requires p.Aborter? && p.ab.AbortLocked?
    ensures InvMem(c, SetAbortedStep(c, s, u, p))
  {
    Knows(c, s, u);
    Restart(c, s.log, p.i, MemAt(s, p.i));
    MemFrame(c, s, u, SetAbortedStep(c, s, u, p), p.i, p.i);
  }

  lemma MemLoadKeys(c: Config, s: State, u: nat, p: Pc)
    requires InvOwn(c, s) && InvMem(c, s) && u < c.workers && p == s.pc[u] && PcShape(c, p)
    requires p.Aborter? && p.ab.LoadKeys?
    ensures InvMem(c, Goto(s, u, p.(ab := Mark(ModKeys(s.txns[p.i].output)))))
  {
    Knows(c, s, u);
    BeginMarks(c, s.log, p.i, MemAt(s, p.i));
    MemFrame(c, s, u, Goto(s, u, p.(ab := Mark(ModKeys(s.txns[p.i].output)))), p.i, p.i);
  }

  lemma MemLockAbort(c: Config, s: State, u: nat, p: Pc)
    requires InvOwn(c, s) && InvMem(c, s) && u < c.workers && p == s.pc[u] && PcShape(c, p)
    requires p.Aborter? && p.ab == Mark({})
    ensures InvMem(c, LockStep(c, s, u, p.(ab := AbortLocked)))
  {
    Knows(c, s, u);
    EndMarks(c, s.log, p.i, MemAt(s, p.i));
    MemFrame(c, s, u, LockStep(c, s, u, p.(ab := AbortLocked)), p.i, p.i);
  }

  lemma MemAbort(c: Config, s: State, u: nat, p: Pc, s': State)
    requires InvOwn(c, s) && InvMem(c, s) && Step(c, s, u, s') && p == s.pc[u] && p.Aborter?
    ensures InvMem(c, s')
  {
    if p.ab.AbortLocked? { MemSetAborted(c, s, u, p); }
    else if p.ab.Mark? && p.ab.todo != {} {
      var k :| k in p.ab.todo && s' == MarkStep(c, s, u, p, k);
      MemMark(c, s, u, p, k);
    } else if p.ab.LoadKeys? { MemLoadKeys(c, s, u, p); }
    else { MemLockAbort(c, s, u, p); }
  }

  lemma MemCommit(c: Config, s: State)
    requires InvOwn(c, s) && InvMem(c, s)
    ensures InvMem(c, TryCommit(c, s))
  {
    var s' := TryCommit(c, s);
    forall x | 0 <= x < c.n ensures TxnOk(c, s'.log, x, MemAt(s', x)) {
      assert TxnOk(c, s.log, x, MemAt(s, x));
      assert MemAt(s', x) == MemAt(s, x);
    }
  }

  lemma MemExec(c: Config, s: State, u: nat, p: Pc, s': State)
    requires InvOwn(c, s) && InvMem(c, s) && u < c.workers && p == s.pc[u] && PcShape(c, p) && !Panics(c, s, u)
    requires p.Exec? && ExecStep(c, s, u, p, s')
    ensures InvMem(c, s')
  {
    match p.ex
    case Running => MemRun(c, s, u, p);
    case Apply(_, _, _, _) => MemApply(c, s, u, p, s');
    case RecordOut(_, _) => MemRecordOut(c, s, u, p);
    case WantLock(_) => MemLocked(c, s, u, p);
    case Locked(_) => MemLocked(c, s, u, p);
    case HoldDep(_) => MemSuspend(c, s, u, p);
    case WantDep(_) => MemWantDep(c, s, u, p);
    case PushDep(_, _) => MemPushDep(c, s, u, p);
    case Waiting(_, _) => MemAwake(c, s, u, p);
  }

  lemma MemFree(c: Config, s: State, u: nat, p: Pc, s': State)
    requires InvOwn(c, s) && InvMem(c, s) && Step(c, s, u, s') && p == s.pc[u]
    requires p.Idle? || p.GotVal? || p.GotEx? || p.Signal?
    ensures InvMem(c, s')
  {
    match p
    case Idle(_) => MemIdle(c, s, u);
    case GotVal(i, w) => MemBystander(c, s, u, s', i);
    case GotEx(i) => MemIncarnate(c, s, u, i);
    case Signal(i, _, _) => MemBystander(c, s, u, s', i);
  }

  lemma MemStep(c: Config, s: State, u: nat, s': State)
    requires InvOwn(c, s) && InvMem(c, s) && Step(c, s, u, s') && ResumesSleeper(c, s, s.pc[u])
    ensures InvMem(c, s')
  {
    var p := s.pc[u];
    match p
    case Exec(_, _, _, _) => MemExec(c, s, u, p, s');
    case Fin(_, _, _) => MemFin(c, s, u, p, s');
    case Val(i, _, _, v) => if v.Failed? { MemTryAbort(c, s, u, p); } else { MemBystander(c, s, u, s', i); }
    case Aborter(_, _, _) => MemAbort(c, s, u, p, s');
    case FinAbort(i, _, fa) =>
      if fa.Reincarnate? { MemReincarnate(c, s, u, p); } else { MemBystander(c, s, u, s', i); }
    case _ => MemFree(c, s, u, p, s');
  }
}
