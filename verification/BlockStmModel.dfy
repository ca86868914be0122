/**
 The parallel block executor as a transition system.

 Worker threads execute and validate the transactions of one block speculatively
 against a multi-version map; a scheduler hands out tasks and commits transactions in
 block order.  Every access to an atomic, every multi-version map operation and every
 status change made under a lock is one step of one worker.  Writes to data that a held
 lock protects, and the release of that lock, are folded into the access before them.
 */
module BlockStm {
  import opened Options

  // ---------------------------------------------------------------- transactions

  type Key(==, !new)
  type Bytes(==, !new)
  type Payload(==, !new)
  type UserError(==, !new)

  datatype WriteOp = Creation(data: Bytes) | Modification(data: Bytes) | Deletion

  /** What a state view shows for a key: nothing, or the raw bytes. */
  type Reading = Option<Bytes>

  function RawBytes(w: WriteOp): Reading {
    match w
    case Creation(d) => Some(d)
    case Modification(d) => Some(d)
    case Deletion => None
  }

  /** A transaction output; its write keys are distinct, hence a map. */
  datatype Output = Output(writes: map<Key, WriteOp>, rest: Payload)

  datatype Result = Success(out: Output) | SkipRest(out: Output) | Abort(err: UserError)

  function Writes(r: Result): map<Key, WriteOp> {
    match r
    case Success(o) => o.writes
    case SkipRest(o) => o.writes
    case Abort(_) => map[]
  }

  /** The virtual machine, given the values read so far, reads one more key or finishes. */
  datatype VmStep = ReadKey(key: Key) | Finish(result: Result)

  datatype Config = Config(
    n: nat,                               // transactions in the block
    workers: nat,                         // worker threads
    vm: (nat, seq<Reading>) -> VmStep,    // deterministic execution of transaction i
    base: Key -> Reading,                 // storage below the block
    skip: Output)                         // output of transactions after SkipRest

  // ---------------------------------------------------------------- shared data

  datatype ReadKind = Version(idx: nat, inc: nat) | Storage

  /** A captured read.  `val` is what the VM saw; validation never looks at it. */
  datatype Read = Read(key: Key, kind: ReadKind, val: Reading)

  function Vals(hist: seq<Read>): (vs: seq<Reading>)
    ensures |vs| == |hist|
    ensures forall p :: 0 <= p < |hist| ==> vs[p] == hist[p].val
  {
    seq(|hist|, p requires 0 <= p < |hist| => hist[p].val)
  }

  datatype Entry = Entry(estimate: bool, inc: nat, val: WriteOp)

  datatype MvRead = NotFound | Dependency(idx: nat) | Found(idx: nat, inc: nat, val: WriteOp)

  datatype Status =
    | Ready(inc: nat, cv: Option<nat>)
    | Executing(inc: nat)
    | Suspended(inc: nat, dcv: nat)
    | Executed(inc: nat)
    | Committed(inc: nat)
    | Aborting(inc: nat)

  datatype VStatus = VStatus(maxTriggered: nat, required: nat, maxValidated: Option<nat>)

  /** A dependency condition variable: its flag, and (for the proofs) the waiting transaction. */
  datatype Condvar = Condvar(txn: nat, resolved: bool)

  // ---------------------------------------------------------------- program counters

  datatype IdlePc = Top | LoadVal | LoadEx(v: nat) | FetchVal | FetchEx | Exit

  datatype ExecPc =
    | Running                                   // inside the VM
    | WantDep(d: nat)                           // wait_for_dependency: lock the list of d
    | HoldDep(d: nat)                           // list of d locked, d not executed: suspend
    | PushDep(d: nat, cv: nat)                  // suspended: push and unlock
    | Waiting(d: nat, cv: nat)                  // blocked on the condition variable
    | Apply(result: Result, todo: map<Key, WriteOp>, prev: set<Key>, outside: bool)
    | RecordOut(result: Result, outside: bool)  // reads recorded: store the output
    | WantLock(outside: bool)                   // finish_execution: validation lock
    | Locked(outside: bool)                     // set the status to Executed

  datatype FinPc =
    | Take(outside: bool)                       // take the dependency list
    | Resume(outside: bool, todo: seq<nat>, all: seq<nat>)
    | Load(outside: bool)                       // read validation_idx
    | Decrease                                  // decrease validation_idx

  datatype ValPc = Task | Check(hist: seq<Read>, p: nat) | Failed | Credit

  datatype AbortPc = LoadKeys | Mark(todo: set<Key>) | AbortLocked

  datatype FinAbortPc = AbortDecrease | AbortLoadEx | Reincarnate

  datatype Pc =
    | Idle(idle: IdlePc)                        // in next_task, or finished
    | GotVal(i: nat, w: nat)                    // fetched index i of wave w from validation_idx
    | GotEx(i: nat)                             // fetched index i from execution_idx
    | Signal(i: nat, inc: nat, cv: nat)         // execution task that wakes a suspended run
    | Exec(i: nat, inc: nat, hist: seq<Read>, ex: ExecPc)
    | Fin(i: nat, inc: nat, fin: FinPc)         // finish_execution, holding the validation lock
    | Val(i: nat, inc: nat, w: nat, val: ValPc)
    | Aborter(i: nat, inc: nat, ab: AbortPc)      // won try_abort
    | FinAbort(i: nat, inc: nat, fa: FinAbortPc) // finish_abort, holding the validation lock

  // ---------------------------------------------------------------- state

  /** Everything kept per transaction. */
  datatype Txn = Txn(
    status: Status,
    vstat: VStatus,
    vlock: Option<nat>,             // holder of the validation-status write lock
    deps: seq<nat>,                 // transactions suspended on this one
    dlock: Option<nat>,             // holder of the dependency-list lock
    mv: map<Key, Entry>,            // entries of this transaction in the multi-version map
    input: Option<seq<Read>>,       // last recorded reads
    output: Option<Result>,         // last recorded result
    // auxiliary variables: written by the steps, read only by the proofs
    owner: Option<nat>,             // worker that runs or aborts it
    sig: Option<nat>,               // worker about to signal its suspended run
    hand: nat,                      // last worker to become responsible for executing it
    vhand: nat,                     // last worker to become responsible for validating it
    dirty: bool,                    // wrote outside its previous write set, no new wave yet
    aborted: bool)                  // aborted, no new wave yet

  const InitTxn := Txn(Ready(0, None), VStatus(0, 0, None), None, [], None, map[], None, None,
                       None, None, 0, 0, false, false)

  datatype State = State(
    txns: seq<Txn>,
    cvs: seq<Condvar>,
    exIdx: nat,
    valIdx: nat,                    // low half of validation_idx
    wave: nat,                      // high half of validation_idx
    commitIdx: nat,
    commitWave: nat,
    done: bool,
    pc: seq<Pc>,
    // auxiliary
    need: seq<nat>,                 // highest wave triggered at an index <= i
    lastMod: nat,                   // last worker to change exIdx
    log: map<(Key, nat, nat), WriteOp>) // every value ever written, by key and version

  ghost predicate Init(c: Config, s: State) {
    && s.txns == seq(c.n, _ => InitTxn)
    && s.cvs == []
    && s.exIdx == 0 && s.valIdx == 0 && s.wave == 0
    && s.commitIdx == 0 && s.commitWave == 0 && !s.done
    && s.pc == seq(c.workers, _ => Idle(Top))
    && s.need == seq(c.n, _ => 0)
    && s.lastMod == 0
    && s.log == map[]
  }

  /** The tables have their size. */
  predicate Shape(c: Config, s: State) {
    |s.txns| == c.n && |s.pc| == c.workers && |s.need| == c.n && s.lastMod < c.workers
  }

  /** Read `key` on behalf of transaction `i`: the entry of the highest writer below `i`. */
  function MvGet(txns: seq<Txn>, key: Key, i: nat): (r: MvRead)
    requires i <= |txns|
    ensures r.Dependency? || r.Found? ==> r.idx < i
  {
    if i == 0 then NotFound
    else if key in txns[i - 1].mv then
      var e := txns[i - 1].mv[key];
      if e.estimate then Dependency(i - 1) else Found(i - 1, e.inc, e.val)
    else MvGet(txns, key, i - 1)
  }

  /** The transaction a program counter is about. */
  function TxnOf(p: Pc): nat {
    match p
    case Idle(_) => 0
    case GotVal(i, _) => i
    case GotEx(i) => i
    case Signal(i, _, _) => i
    case Exec(i, _, _, _) => i
    case Fin(i, _, _) => i
    case Val(i, _, _, _) => i
    case Aborter(i, _, _) => i
    case FinAbort(i, _, _) => i
  }

  /** Indices held in local variables are in range. */
  predicate PcShape(c: Config, p: Pc) {
    && (!p.Idle? ==> TxnOf(p) < c.n)
    && (p.Exec? && (p.ex.WantDep? || p.ex.HoldDep? || p.ex.PushDep? || p.ex.Waiting?) ==> p.ex.d < p.i)
    && (p.Val? && p.val.Check? ==> p.val.p <= |p.val.hist|)
  }

  // ---------------------------------------------------------------- steps

  /** Only worker `u` moved, its indices are in range, and nothing was committed. */
  predicate Moved(c: Config, s: State, u: nat, s': State) {
    && Shape(c, s') && |s.pc| == c.workers && u < c.workers && PcShape(c, s'.pc[u])
    && s'.commitIdx == s.commitIdx && s'.commitWave == s.commitWave && s'.done == s.done
    && forall v :: 0 <= v < c.workers && v != u ==> s'.pc[v] == s.pc[v]
  }

  /** Only the record of transaction `i` changed. */
  predicate Only(s: State, s': State, i: nat) {
    |s'.txns| == |s.txns| && forall x :: 0 <= x < |s.txns| && x != i ==> s'.txns[x] == s.txns[x]
  }

  /** Neither the data nor the status of transaction `i` changed. */
  predicate Keeps(s: State, s': State, i: nat) {
    && |s'.txns| == |s.txns| && i < |s.txns| && s'.log == s.log
    && var t, t' := s.txns[i], s'.txns[i];
       && t'.status == t.status && t'.owner == t.owner
       && t'.mv == t.mv && t'.input == t.input && t'.output == t.output
  }

  /** The validation index and every validation status are as before. */
  predicate SameWaves(s: State, s': State) {
    && s'.valIdx == s.valIdx && s'.wave == s.wave && s'.need == s.need && |s'.txns| == |s.txns|
    && forall x :: 0 <= x < |s.txns| ==> s'.txns[x].vstat == s.txns[x].vstat
  }

  /** The statuses in which a version has not finished executing are one class. */
  function Class(st: Status): Status {
    if st.Ready? || st.Executing? || st.Suspended? then Ready(0, None) else st
  }

  /** Nothing that validation depends on changed. */
  predicate SameVal(s: State, s': State) {
    && |s'.txns| == |s.txns|
    && forall x :: 0 <= x < |s.txns| ==>
         var t, t' := s.txns[x], s'.txns[x];
         && Class(t'.status) == Class(t.status) && t'.input == t.input && t'.mv == t.mv
         && t'.dirty == t.dirty && t'.aborted == t.aborted
  }

  /** No transaction became ready or executed, and nobody took responsibility for one. */
  predicate SameHands(s: State, s': State) {
    && |s'.txns| == |s.txns| && s'.exIdx == s.exIdx && s'.lastMod == s.lastMod
    && forall x :: 0 <= x < |s.txns| ==>
         var t, t' := s.txns[x], s'.txns[x];
         && t'.hand == t.hand && t'.vhand == t.vhand
         && (t'.status.Ready? ==> t.status.Ready?) && (t'.status.Executed? ==> t.status.Executed?)
  }

  function Goto(s: State, u: nat, p: Pc): State
    requires u < |s.pc|
  {
    s.(pc := s.pc[u := p])
  }

  /** Worker `u` replaces the record of transaction `i` and moves on to `p`. */
  function Put(s: State, u: nat, i: nat, t: Txn, p: Pc): State
    requires u < |s.pc| && i < |s.txns|
  {
    s.(txns := s.txns[i := t], pc := s.pc[u := p])
  }

  function ModKeys(o: Option<Result>): set<Key> {
    if o.Some? then Writes(o.value).Keys else {}
  }

  predicate IsExecuted(st: Status) { st.Executed? || st.Committed? }

  /** Only the auxiliary record of who is responsible changed, for one transaction. */
  predicate OnlyHands(s: State, s': State) {
    && s'.log == s.log && s'.cvs == s.cvs && |s'.txns| == |s.txns|
    && forall x :: 0 <= x < |s.txns| ==>
         s'.txns[x] == s.txns[x].(hand := s'.txns[x].hand, vhand := s'.txns[x].vhand)
  }

  /** fetch_add on validation_idx */
  function FetchValStep(c: Config, s: State, u: nat): (s': State)
    requires Shape(c, s) && u < c.workers
    ensures Moved(c, s, u, s') && SameVal(s, s') && OnlyHands(s, s')
  {
    var i := s.valIdx;
    if i < c.n then Put(s.(valIdx := i + 1), u, i, s.txns[i].(vhand := u), GotVal(i, s.wave))
    else Goto(s.(valIdx := i + 1), u, Idle(Top))
  }

  /** fetch_add on execution_idx */
  function FetchExStep(c: Config, s: State, u: nat): (s': State)
    requires Shape(c, s) && u < c.workers
    ensures Moved(c, s, u, s') && SameVal(s, s') && OnlyHands(s, s') && SameWaves(s, s')
  {
    var i := s.exIdx;
    if i < c.n then Put(s.(exIdx := i + 1, lastMod := u), u, i, s.txns[i].(hand := u), GotEx(i))
    else Goto(s.(exIdx := i + 1, lastMod := u), u, Idle(Top))
  }

  /** next_task: read both indices, then take a number from one of them. */
  function IdleStep(c: Config, s: State, u: nat, p: IdlePc): (s': State)
    requires Shape(c, s) && u < c.workers
    ensures Moved(c, s, u, s') && SameVal(s, s') && OnlyHands(s, s')
    ensures !p.FetchVal? ==> SameWaves(s, s')
    ensures !p.FetchVal? && !p.FetchEx? ==> SameHands(s, s')
  {
    match p
    case Top => Goto(s, u, Idle(if s.done then Exit else LoadVal))
    case LoadVal => Goto(s, u, Idle(LoadEx(s.valIdx)))
    case LoadEx(v) =>
      if s.exIdx >= c.n && v >= c.n then Goto(s, u, Idle(Top))
      else if v < s.exIdx then Goto(s, u, Idle(FetchVal))
      else Goto(s, u, Idle(FetchEx))
    case FetchVal => FetchValStep(c, s, u)
    case FetchEx => FetchExStep(c, s, u)
    case Exit => Goto(s, u, Idle(Exit))
  }

  /** try_validate_next_version, after the fetch. */
  function GotValStep(c: Config, s: State, u: nat, i: nat, w: nat): (s': State)
    requires Shape(c, s) && u < c.workers && i < c.n
    ensures Moved(c, s, u, s') && SameHands(s, s') && Only(s, s', i) && Keeps(s, s', i)
    ensures SameWaves(s, s') && SameVal(s, s')
  {
    var st := s.txns[i].status;
    Goto(s, u, if st.Executed? then Val(i, st.inc, w, Task) else Idle(Top))
  }

  /** try_incarnate: take a ready transaction, or learn that somebody else did. */
  function TryIncarnate(c: Config, s: State, u: nat, i: nat): (s': State)
    requires Shape(c, s) && u < c.workers && i < c.n
    ensures Moved(c, s, u, s') && SameHands(s, s') && Only(s, s', i)
    ensures SameWaves(s, s') && SameVal(s, s')
  {
    var t := s.txns[i];
    match t.status
    case Ready(inc, None) =>
      Put(s, u, i, t.(status := Executing(inc), owner := Some(u)), Exec(i, inc, [], Running))
    case Ready(inc, Some(cv)) =>
      Put(s, u, i, t.(status := Executing(inc), sig := Some(u)), Signal(i, inc, cv))
    case _ => Goto(s, u, Idle(Top))
  }

  function SignalStep(c: Config, s: State, u: nat, i: nat, cv: nat): (s': State)
    requires Shape(c, s) && u < c.workers && i < c.n && cv < |s.cvs|
    ensures Moved(c, s, u, s') && SameHands(s, s') && Only(s, s', i) && Keeps(s, s', i)
    ensures SameWaves(s, s') && SameVal(s, s')
  {
    Put(s.(cvs := s.cvs[cv := s.cvs[cv].(resolved := true)]), u, i,
        s.txns[i].(sig := None), Idle(Top))
  }

  /** What the VM sees when it reads `k`, or the transaction to wait for. */
  function ViewRead(c: Config, s: State, i: nat, k: Key): Option<Read>
    requires i <= |s.txns|
  {
    match MvGet(s.txns, k, i)
    case NotFound => Some(Read(k, Storage, c.base(k)))
    case Found(j, inc, w) => Some(Read(k, Version(j, inc), RawBytes(w)))
    case Dependency(_) => None
  }

  /** One read of the VM through the view, or the end of the execution. */
  function RunStep(c: Config, s: State, u: nat, p: Pc): (s': State)
    requires Shape(c, s) && u < c.workers && PcShape(c, p) && p.Exec?
    ensures Moved(c, s, u, s') && SameHands(s, s') && Only(s, s', p.i)
    ensures SameWaves(s, s') && SameVal(s, s')
  {
    match c.vm(p.i, Vals(p.hist))
    case ReadKey(k) =>
      var r := ViewRead(c, s, p.i, k);
      if r.Some? then Goto(s, u, p.(hist := p.hist + [r.value], ex := Running))
      else Goto(s, u, p.(ex := WantDep(MvGet(s.txns, k, p.i).idx)))
    case Finish(r) =>
      Goto(s, u, p.(ex := Apply(r, Writes(r), ModKeys(s.txns[p.i].output), false)))
  }

  /** wait_for_dependency: lock the list of d; if d is executed by now, read again. */
  function WantDepStep(c: Config, s: State, u: nat, p: Pc): (s': State)
    requires Shape(c, s) && u < c.workers && PcShape(c, p) && p.Exec? && p.ex.WantDep?
    ensures Moved(c, s, u, s') && SameHands(s, s') && Only(s, s', p.ex.d)
    ensures SameWaves(s, s') && SameVal(s, s')
  {
    var t := s.txns[p.ex.d];
    if IsExecuted(t.status) then Goto(s, u, p.(ex := Running))
    else Put(s, u, p.ex.d, t.(dlock := Some(u)), p.(ex := HoldDep(p.ex.d)))
  }

  function SuspendStep(c: Config, s: State, u: nat, p: Pc): (s': State)
    requires Shape(c, s) && u < c.workers && PcShape(c, p) && p.Exec? && p.ex.HoldDep?
    requires s.txns[p.i].status.Executing?
    ensures Moved(c, s, u, s') && SameHands(s, s') && Only(s, s', p.i)
    ensures SameWaves(s, s') && SameVal(s, s')
  {
    var t := s.txns[p.i];
    var cv := |s.cvs|;
    Put(s.(cvs := s.cvs + [Condvar(p.i, false)]), u, p.i,
        t.(status := Suspended(t.status.inc, cv)), p.(ex := PushDep(p.ex.d, cv)))
  }

  function PushDepStep(c: Config, s: State, u: nat, p: Pc): (s': State)
    requires Shape(c, s) && u < c.workers && PcShape(c, p) && p.Exec? && p.ex.PushDep?
    ensures Moved(c, s, u, s') && SameHands(s, s') && Only(s, s', p.ex.d)
    ensures SameWaves(s, s') && SameVal(s, s')
  {
    var t := s.txns[p.ex.d];
    Put(s, u, p.ex.d, t.(deps := t.deps + [p.i], dlock := None), p.(ex := Waiting(p.ex.d, p.ex.cv)))
  }

  /** apply_updates, one add_write. */
  function AddWriteStep(c: Config, s: State, u: nat, p: Pc, k: Key): (s': State)
    requires Shape(c, s) && u < c.workers && PcShape(c, p) && p.Exec? && p.ex.Apply? && k in p.ex.todo
    ensures Moved(c, s, u, s') && SameHands(s, s') && Only(s, s', p.i)
    ensures SameWaves(s, s')
  {
    var t := s.txns[p.i];
    var w := p.ex.todo[k];
    var outside := p.ex.outside || k !in p.ex.prev;
    Put(s.(log := s.log[(k, p.i, p.inc) := w]), u, p.i,
        t.(mv := t.mv[k := Entry(false, p.inc, w)], dirty := t.dirty || outside),
        p.(ex := Apply(p.ex.result, p.ex.todo - {k}, p.ex.prev - {k}, outside)))
  }

  /** Delete one entry of the previous incarnation that was not overwritten. */
  function DeleteStep(c: Config, s: State, u: nat, p: Pc, k: Key): (s': State)
    requires Shape(c, s) && u < c.workers && PcShape(c, p) && p.Exec? && p.ex.Apply?
    ensures Moved(c, s, u, s') && SameHands(s, s') && Only(s, s', p.i)
    ensures SameWaves(s, s')
  {
    var t := s.txns[p.i];
    Put(s, u, p.i, t.(mv := t.mv - {k}),
        p.(ex := Apply(p.ex.result, p.ex.todo, p.ex.prev - {k}, p.ex.outside)))
  }

  function RecordInStep(c: Config, s: State, u: nat, p: Pc): (s': State)
    requires Shape(c, s) && u < c.workers && PcShape(c, p) && p.Exec? && p.ex.Apply?
    ensures Moved(c, s, u, s') && SameHands(s, s') && Only(s, s', p.i)
    ensures SameWaves(s, s')
  {
    Put(s, u, p.i, s.txns[p.i].(input := Some(p.hist)),
        p.(ex := RecordOut(p.ex.result, p.ex.outside)))
  }

  function RecordOutStep(c: Config, s: State, u: nat, p: Pc): (s': State)
    requires Shape(c, s) && u < c.workers && PcShape(c, p) && p.Exec? && p.ex.RecordOut?
    ensures Moved(c, s, u, s') && SameHands(s, s') && Only(s, s', p.i)
    ensures SameWaves(s, s') && SameVal(s, s')
  {
    Put(s, u, p.i, s.txns[p.i].(output := Some(p.ex.result)), p.(ex := WantLock(p.ex.outside)))
  }

  function SetExecutedStep(c: Config, s: State, u: nat, p: Pc): (s': State)
    requires Shape(c, s) && u < c.workers && PcShape(c, p) && p.Exec? && p.ex.Locked?
    ensures Moved(c, s, u, s') && Only(s, s', p.i)
    ensures SameWaves(s, s')
  {
    Put(s, u, p.i, s.txns[p.i].(status := Executed(p.inc), owner := None),
        Fin(p.i, p.inc, Take(p.ex.outside)))
  }

  function TakeStep(c: Config, s: State, u: nat, p: Pc): (s': State)
    requires Shape(c, s) && u < c.workers && PcShape(c, p) && p.Fin? && p.fin.Take?
    ensures Moved(c, s, u, s') && SameHands(s, s') && Only(s, s', p.i) && Keeps(s, s', p.i)
    ensures SameWaves(s, s') && SameVal(s, s')
  {
    var t := s.txns[p.i];
    Put(s, u, p.i, t.(deps := []), p.(fin := Resume(p.fin.outside, t.deps, t.deps)))
  }

  /** fetch_min of an index with the smallest of `xs`, if there is one. */
  function LowerTo(idx: nat, xs: seq<nat>): (m: nat)
    ensures m <= idx && (m == idx || m in xs) && forall x :: x in xs ==> m <= x
  {
    if xs == [] then idx
    else
      var m := LowerTo(idx, xs[1..]);
      assert xs == [xs[0]] + xs[1..];
      if xs[0] < m then xs[0] else m
  }

  /** resume the next dependency */
  function ResumeStep(c: Config, s: State, u: nat, p: Pc): (s': State)
    requires Shape(c, s) && u < c.workers && PcShape(c, p) && p.Fin? && p.fin.Resume? && p.fin.todo != []
    requires p.fin.todo[0] < c.n && s.txns[p.fin.todo[0]].status.Suspended?
    ensures Moved(c, s, u, s') && Only(s, s', p.fin.todo[0])
    ensures SameWaves(s, s') && SameVal(s, s')
  {
    var i := p.fin.todo[0];
    var t := s.txns[i];
    Put(s, u, i, t.(status := Ready(t.status.inc, Some(t.status.dcv)), hand := u),
        p.(fin := Resume(p.fin.outside, p.fin.todo[1..], p.fin.all)))
  }

  /** execution_idx is at or below all of `all`; worker `u` is recorded if it moved it. */
  predicate Lowered(s: State, u: nat, s': State, all: seq<nat>) {
    && s'.txns == s.txns && s'.exIdx <= s.exIdx && (forall i :: i in all ==> s'.exIdx <= i)
    && s'.lastMod == if s'.exIdx < s.exIdx then u else s.lastMod
  }

  /** After the last dependency, lower execution_idx to the smallest of them. */
  function LowerStep(c: Config, s: State, u: nat, p: Pc): (s': State)
    requires Shape(c, s) && u < c.workers && PcShape(c, p) && p.Fin? && p.fin.Resume?
    ensures Moved(c, s, u, s') && Only(s, s', p.i) && Keeps(s, s', p.i)
    ensures SameWaves(s, s') && SameVal(s, s')
    ensures Lowered(s, u, s', p.fin.all)
  {
    var idx := LowerTo(s.exIdx, p.fin.all);
    Goto(s.(exIdx := idx, lastMod := if idx < s.exIdx then u else s.lastMod), u, p.(fin := Load(p.fin.outside)))
  }

  /** finish_execution, reading validation_idx: nothing to do, revalidate all, or only i. */
  function LoadStep(c: Config, s: State, u: nat, p: Pc): (s': State)
    requires Shape(c, s) && u < c.workers && PcShape(c, p) && p.Fin? && p.fin.Load?
    ensures Moved(c, s, u, s') && Only(s, s', p.i) && Keeps(s, s', p.i)
  {
    var t := s.txns[p.i];
    if s.valIdx <= p.i then Put(s, u, p.i, t.(vlock := None, dirty := false), Idle(Top))
    else if p.fin.outside then Goto(s, u, p.(fin := Decrease))
    else
      Put(s, u, p.i,
          t.(vstat := t.vstat.(required := s.wave), vlock := None, dirty := false, vhand := u),
          Val(p.i, p.inc, s.wave, Task))
  }

  /** decrease_validation_idx: start a new wave at i unless the index is already there. */
  function DecreaseValidationIdx(c: Config, s: State, i: nat): State
    requires Shape(c, s) && i < c.n
  {
    if s.valIdx > i then
      s.(valIdx := i, wave := s.wave + 1,
         txns := s.txns[i := s.txns[i].(vstat := s.txns[i].vstat.(maxTriggered := s.wave + 1))],
         need := seq(c.n, k requires 0 <= k < c.n => if k < i then s.need[k] else s.wave + 1))
    else s
  }

  function DecreaseStep(c: Config, s: State, u: nat, p: Pc): (s': State)
    requires Shape(c, s) && u < c.workers && PcShape(c, p) && p.Fin?
    ensures Moved(c, s, u, s') && SameHands(s, s') && Only(s, s', p.i) && Keeps(s, s', p.i)
  {
    var s1 := DecreaseValidationIdx(c, s, p.i);
    Put(s1, u, p.i, s1.txns[p.i].(vlock := None, dirty := false), Idle(Top))
  }

  /** Does the current map still answer a captured read the same way? */
  predicate Matches(txns: seq<Txn>, i: nat, r: Read)
    requires i <= |txns|
  {
    match MvGet(txns, r.key, i)
    case NotFound => r.kind == Storage
    case Dependency(_) => false
    case Found(j, inc, _) => r.kind == Version(j, inc)
  }

  function CheckStep(c: Config, s: State, u: nat, p: Pc): (s': State)
    requires Shape(c, s) && u < c.workers && PcShape(c, p) && p.Val? && p.val.Check?
    ensures Moved(c, s, u, s') && SameHands(s, s') && Only(s, s', p.i) && Keeps(s, s', p.i)
    ensures SameWaves(s, s') && SameVal(s, s')
  {
    if p.val.p == |p.val.hist| then Goto(s, u, p.(val := Credit))
    else if Matches(s.txns, p.i, p.val.hist[p.val.p]) then
      Goto(s, u, p.(val := Check(p.val.hist, p.val.p + 1)))
    else Goto(s, u, p.(val := Failed))
  }

  function TryAbortStep(c: Config, s: State, u: nat, p: Pc): (s': State)
    requires Shape(c, s) && u < c.workers && PcShape(c, p) && p.Val?
    ensures Moved(c, s, u, s') && SameHands(s, s') && Only(s, s', p.i)
    ensures SameWaves(s, s')
  {
    var t := s.txns[p.i];
    if t.status == Executed(p.inc) then
      Put(s, u, p.i, t.(status := Aborting(p.inc), owner := Some(u), aborted := true),
          Aborter(p.i, p.inc, LoadKeys))
    else Goto(s, u, p.(val := Credit))
  }

  /** finish_validation */
  function CreditStep(c: Config, s: State, u: nat, p: Pc): (s': State)
    requires Shape(c, s) && u < c.workers && PcShape(c, p) && p.Val?
    ensures Moved(c, s, u, s') && SameHands(s, s') && Only(s, s', p.i) && Keeps(s, s', p.i)
  {
    var t := s.txns[p.i];
    var best := t.vstat.maxValidated;
    var w := if best.Some? && best.value > p.w then best.value else p.w;
    Put(s, u, p.i, t.(vstat := t.vstat.(maxValidated := Some(w))), Idle(Top))
  }

  function MarkStep(c: Config, s: State, u: nat, p: Pc, k: Key): (s': State)
    requires Shape(c, s) && u < c.workers && PcShape(c, p) && p.Aborter? && p.ab.Mark?
    requires k in s.txns[p.i].mv
    ensures Moved(c, s, u, s') && SameHands(s, s') && Only(s, s', p.i)
    ensures SameWaves(s, s')
  {
    var t := s.txns[p.i];
    Put(s, u, p.i, t.(mv := t.mv[k := t.mv[k].(estimate := true)]),
        p.(ab := Mark(p.ab.todo - {k})))
  }

  function SetAbortedStep(c: Config, s: State, u: nat, p: Pc): (s': State)
    requires Shape(c, s) && u < c.workers && PcShape(c, p) && p.Aborter?
    ensures Moved(c, s, u, s') && Only(s, s', p.i)
    ensures SameWaves(s, s')
  {
    Put(s, u, p.i, s.txns[p.i].(status := Ready(p.inc + 1, None), owner := None, hand := u),
        FinAbort(p.i, p.inc, AbortDecrease))
  }

  function AbortDecreaseStep(c: Config, s: State, u: nat, p: Pc): (s': State)
    requires Shape(c, s) && u < c.workers && PcShape(c, p) && p.FinAbort?
    ensures Moved(c, s, u, s') && SameHands(s, s') && Only(s, s', p.i) && Keeps(s, s', p.i)
  {
    var s1 := DecreaseValidationIdx(c, s, p.i);
    Put(s1, u, p.i, s1.txns[p.i].(aborted := false), p.(fa := AbortLoadEx))
  }

  function AbortLoadExStep(c: Config, s: State, u: nat, p: Pc): (s': State)
    requires Shape(c, s) && u < c.workers && PcShape(c, p) && p.FinAbort?
    ensures Moved(c, s, u, s') && SameHands(s, s') && Only(s, s', p.i) && Keeps(s, s', p.i)
    ensures SameWaves(s, s') && SameVal(s, s')
  {
    if s.exIdx > p.i then Goto(s, u, p.(fa := Reincarnate))
    else Put(s, u, p.i, s.txns[p.i].(vlock := None), Idle(Top))
  }

  function ReincarnateStep(c: Config, s: State, u: nat, p: Pc): (s': State)
    requires Shape(c, s) && u < c.workers && PcShape(c, p) && p.FinAbort?
    ensures Moved(c, s, u, s') && SameHands(s, s') && Only(s, s', p.i)
    ensures SameWaves(s, s') && SameVal(s, s')
  {
    TryIncarnate(c, s.(txns := s.txns[p.i := s.txns[p.i].(vlock := None)]), u, p.i)
  }

  /** Take the validation-status write lock of the transaction; enabled when it is free. */
  function LockStep(c: Config, s: State, u: nat, p: Pc): (s': State)
    requires Shape(c, s) && u < c.workers && !p.Idle? && PcShape(c, p)
    ensures Moved(c, s, u, s') && SameHands(s, s') && Only(s, s', TxnOf(p)) && Keeps(s, s', TxnOf(p))
    ensures SameWaves(s, s') && SameVal(s, s')
  {
    Put(s, u, TxnOf(p), s.txns[TxnOf(p)].(vlock := Some(u)), p)
  }

  /** A step in which worker `u` would hit unreachable!, an expect or an assertion. */
  ghost predicate Panics(c: Config, s: State, u: nat)
    requires Shape(c, s) && u < c.workers && PcShape(c, s.pc[u])
  {
    var p := s.pc[u];
    match p
    case Exec(i, inc, _, HoldDep(_)) => !s.txns[i].status.Executing?
    case Exec(i, inc, _, Apply(_, todo, prev, _)) =>
      || (exists k :: k in todo && k in s.txns[i].mv && s.txns[i].mv[k].inc >= inc)
      || (todo == map[] && exists k :: k in prev && k !in s.txns[i].mv)
    case Exec(i, inc, _, Locked(_)) => s.txns[i].status != Executing(inc)
    case Fin(_, _, Resume(_, todo, _)) =>
      todo != [] && (todo[0] >= c.n || !s.txns[todo[0]].status.Suspended?)
    case Val(i, _, _, Task) => s.txns[i].input.None?
    case Aborter(i, _, Mark(todo)) => exists k :: k in todo && k !in s.txns[i].mv
    case Aborter(i, inc, AbortLocked) => s.txns[i].status != Aborting(inc)
    case _ => false
  }

  /** apply_updates: first all writes, then the deletions, then the reads are recorded. */
  ghost predicate ApplyStep(c: Config, s: State, u: nat, p: Pc, s': State)
    requires Shape(c, s) && u < c.workers && p.Exec? && p.ex.Apply? && PcShape(c, p)
  {
    if p.ex.todo != map[] then exists k :: k in p.ex.todo && s' == AddWriteStep(c, s, u, p, k)
    else if p.ex.prev != {} then exists k :: k in p.ex.prev && s' == DeleteStep(c, s, u, p, k)
    else s' == RecordInStep(c, s, u, p)
  }

  ghost predicate ExecStep(c: Config, s: State, u: nat, p: Pc, s': State)
    requires Shape(c, s) && u < c.workers && p == s.pc[u] && p.Exec?
    requires PcShape(c, p) && !Panics(c, s, u)
  {
    match p.ex
    case Running => s' == RunStep(c, s, u, p)
    case WantDep(d) => s.txns[d].dlock.None? && s' == WantDepStep(c, s, u, p)
    case HoldDep(d) => s' == SuspendStep(c, s, u, p)
    case PushDep(d, cv) => s' == PushDepStep(c, s, u, p)
    case Waiting(d, cv) => cv < |s.cvs| && s.cvs[cv].resolved && s' == Goto(s, u, p.(ex := Running))
    case Apply(_, _, _, _) => ApplyStep(c, s, u, p, s')
    case RecordOut(_, _) => s' == RecordOutStep(c, s, u, p)
    case WantLock(o) => s.txns[p.i].vlock.None? && s' == LockStep(c, s, u, p.(ex := Locked(o)))
    case Locked(_) => s' == SetExecutedStep(c, s, u, p)
  }

  ghost predicate FinStep(c: Config, s: State, u: nat, p: Pc, s': State)
    requires Shape(c, s) && u < c.workers && p == s.pc[u] && p.Fin?
    requires PcShape(c, p) && !Panics(c, s, u)
  {
    match p.fin
    case Take(_) => s.txns[p.i].dlock.None? && s' == TakeStep(c, s, u, p)
    case Resume(_, todo, _) =>
      s' == if todo != [] then ResumeStep(c, s, u, p) else LowerStep(c, s, u, p)
    case Load(_) => s' == LoadStep(c, s, u, p)
    case Decrease => s' == DecreaseStep(c, s, u, p)
  }

  ghost predicate ValStep(c: Config, s: State, u: nat, p: Pc, s': State)
    requires Shape(c, s) && u < c.workers && p == s.pc[u] && p.Val?
    requires PcShape(c, p) && !Panics(c, s, u)
  {
    match p.val
    case Task => s' == Goto(s, u, p.(val := Check(s.txns[p.i].input.value, 0)))
    case Check(_, _) => s' == CheckStep(c, s, u, p)
    case Failed => s' == TryAbortStep(c, s, u, p)
    case Credit => s.txns[p.i].vlock.None? && s' == CreditStep(c, s, u, p)
  }

  ghost predicate AbortStep(c: Config, s: State, u: nat, p: Pc, s': State)
    requires Shape(c, s) && u < c.workers && p == s.pc[u] && p.Aborter?
    requires PcShape(c, p) && !Panics(c, s, u)
  {
    match p.ab
    case LoadKeys => s' == Goto(s, u, p.(ab := Mark(ModKeys(s.txns[p.i].output))))
    case Mark(todo) =>
      if todo != {} then exists k :: k in todo && s' == MarkStep(c, s, u, p, k)
      else s.txns[p.i].vlock.None? && s' == LockStep(c, s, u, p.(ab := AbortLocked))
    case AbortLocked => s' == SetAbortedStep(c, s, u, p)
  }

  ghost predicate FinAbortStep(c: Config, s: State, u: nat, p: Pc, s': State)
    requires Shape(c, s) && u < c.workers && p == s.pc[u] && p.FinAbort? && PcShape(c, p)
  {
    match p.fa
    case AbortDecrease => s' == AbortDecreaseStep(c, s, u, p)
    case AbortLoadEx => s' == AbortLoadExStep(c, s, u, p)
    case Reincarnate => s' == ReincarnateStep(c, s, u, p)
  }

  /** Worker `u` takes a step. */
  ghost predicate Step(c: Config, s: State, u: nat, s': State) {
    && Shape(c, s) && u < c.workers && PcShape(c, s.pc[u]) && !Panics(c, s, u)
    && match s.pc[u]
       case Idle(p) => !p.Exit? && s' == IdleStep(c, s, u, p)
       case GotVal(i, w) => s' == GotValStep(c, s, u, i, w)
       case GotEx(i) => s' == TryIncarnate(c, s, u, i)
       case Signal(i, inc, cv) => cv < |s.cvs| && s' == SignalStep(c, s, u, i, cv)
       case Exec(_, _, _, _) => ExecStep(c, s, u, s.pc[u], s')
       case Fin(_, _, _) => FinStep(c, s, u, s.pc[u], s')
       case Val(_, _, _, _) => ValStep(c, s, u, s.pc[u], s')
       case Aborter(_, _, _) => AbortStep(c, s, u, s.pc[u], s')
       case FinAbort(_, _, _) => FinAbortStep(c, s, u, s.pc[u], s')
  }

  /** try_commit: commit the next transaction if its last validation is recent enough. */
  function TryCommit(c: Config, s: State): State
    requires Shape(c, s)
  {
    var i := s.commitIdx;
    if i >= c.n then s.(done := true)
    else
      var t := s.txns[i];
      if t.vlock.None? && t.status.Executed? then
        var v := t.vstat;
        var cw := if v.maxTriggered > s.commitWave then v.maxTriggered else s.commitWave;
        if v.maxValidated.Some? && v.maxValidated.value >= cw && v.maxValidated.value >= v.required then
          s.(commitWave := cw, commitIdx := i + 1,
             txns := s.txns[i := t.(status := Committed(t.status.inc))])
        else s.(commitWave := cw)
      else s
  }

  /** The committing thread may try to commit at any moment; every other step is a worker's. */
  ghost predicate Next(c: Config, s: State, s': State) {
    || (exists u :: Step(c, s, u, s'))
    || (Shape(c, s) && s' == TryCommit(c, s))
  }

  ghost predicate NextAt(c: Config, tr: seq<State>, k: nat)
    requires k + 1 < |tr|
  {
    Next(c, tr[k], tr[k + 1])
  }

  /** A run: an initial state followed by steps. */
  ghost predicate IsRun(c: Config, tr: seq<State>) {
    && c.workers > 0 && |tr| > 0
    && Init(c, tr[0])
    && forall k :: 0 <= k < |tr| - 1 ==> NextAt(c, tr, k)
  }
}
