/**
 No task is lost: a transaction that is ready to execute is above execution_idx or in the
 hands of a worker that will take care of it, and an executed transaction is above
 validation_idx, validated recently enough, or being validated in a recent enough wave.
 */
module BlockStmTasks {
  import opened Options
  import opened BlockStm
  import opened BlockStmView
  import W = BlockStmWaves
  import D = BlockStmDependencies

  // ---------------------------------------------------------------- execution

  /** A worker at `p` will execute `i`, or lower execution_idx to it. */
  predicate Executes(p: Pc, i: nat) {
    match p
    case GotEx(j) => j == i
    case FinAbort(j, _, _) => j == i
    case Fin(_, _, Resume(_, todo, all)) => i in all && i !in todo
    case _ => false
  }

  predicate TEx(s: State, i: nat)
    requires i < |s.txns|
  {
    var t := s.txns[i];
    t.hand < |s.pc| && (t.status.Ready? ==> s.exIdx <= i || Executes(s.pc[t.hand], i))
  }

  predicate WEx(p: Pc) {
    p.Fin? && p.fin.Resume? ==>
      |p.fin.todo| <= |p.fin.all| && p.fin.todo == p.fin.all[|p.fin.all| - |p.fin.todo|..]
  }

  /** The transaction that a worker at `p` runs and may come to wait in. */
  function Tied(p: Pc): Option<nat> {
    match p
    case GotEx(i) => Some(i)
    case Exec(i, _, _, ex) =>
      if ex.Running? || ex.WantDep? || ex.HoldDep? || ex.PushDep? || ex.Waiting? then Some(i) else None
    case FinAbort(i, _, Reincarnate) => Some(i)
    case _ => None
  }

  /** The last worker to move execution_idx is not tied to a transaction at or above it. */
  predicate LastOk(s: State) {
    s.lastMod < |s.pc| && var t := Tied(s.pc[s.lastMod]); t.Some? ==> t.value < s.exIdx
  }

  ghost predicate InvEx(c: Config, s: State) {
    && Shape(c, s) && LastOk(s)
    && (forall i :: 0 <= i < c.n ==> TEx(s, i))
    && (forall u :: 0 <= u < c.workers ==> WEx(s.pc[u]))
  }

  lemma InitEx(c: Config, s: State)
    requires Init(c, s) && c.workers > 0
    ensures InvEx(c, s)
  {}

  /** The step makes nothing ready, and the worker stays responsible where it was. */
  lemma ExQuiet(c: Config, s: State, u: nat, s': State)
    requires InvEx(c, s) && Moved(c, s, u, s') && SameHands(s, s')
    requires forall i :: 0 <= i < c.n && Executes(s.pc[u], i) && s'.txns[i].status.Ready? ==>
               Executes(s'.pc[u], i) || s'.exIdx <= i
    requires Tied(s'.pc[u]).Some? ==> Tied(s'.pc[u]) == Tied(s.pc[u]) || Tied(s'.pc[u]).value < s.exIdx
    requires WEx(s'.pc[u])
    ensures InvEx(c, s')
  {
    forall i | 0 <= i < c.n ensures TEx(s', i) { assert TEx(s, i); }
    forall v | 0 <= v < c.workers ensures WEx(s'.pc[v]) { assert WEx(s.pc[v]); }
  }

  /** The same for a worker inside a run, which is responsible for nothing else. */
  lemma ExStays(c: Config, s: State, u: nat, s': State)
    requires InvEx(c, s) && Moved(c, s, u, s') && SameHands(s, s') && s.pc[u].Exec? && s'.pc[u].Exec?
    requires Tied(s'.pc[u]).Some? ==> Tied(s'.pc[u]) == Tied(s.pc[u])
    ensures InvEx(c, s')
  {
    ExQuiet(c, s, u, s');
  }

  lemma ExFetch(c: Config, s: State, u: nat)
    requires InvEx(c, s) && u < c.workers && s.pc[u] == Idle(FetchEx)
    ensures InvEx(c, FetchExStep(c, s, u))
  {
    var s' := FetchExStep(c, s, u);
    forall i | 0 <= i < c.n ensures TEx(s', i) { assert TEx(s, i); }
    forall v | 0 <= v < c.workers ensures WEx(s'.pc[v]) { assert WEx(s.pc[v]); }
  }

  lemma ExFetchVal(c: Config, s: State, u: nat)
    requires InvEx(c, s) && u < c.workers && s.pc[u] == Idle(FetchVal)
    ensures InvEx(c, FetchValStep(c, s, u))
  {
    var s' := FetchValStep(c, s, u);
    forall i | 0 <= i < c.n ensures TEx(s', i) { assert TEx(s, i); }
    forall v | 0 <= v < c.workers ensures WEx(s'.pc[v]) { assert WEx(s.pc[v]); }
  }

  /** After the attempt the transaction is not ready any more. */
  lemma ExIncarnate(c: Config, s: State, u: nat, i: nat)
    requires InvEx(c, s) && u < c.workers && s.pc[u] == GotEx(i) && i < c.n
    ensures InvEx(c, TryIncarnate(c, s, u, i))
  {
    ExQuiet(c, s, u, TryIncarnate(c, s, u, i));
  }

  lemma ExReincarnate(c: Config, s: State, u: nat, p: Pc)
    requires InvEx(c, s) && u < c.workers && p == s.pc[u] && PcShape(c, p) && p.FinAbort? && p.fa.Reincarnate?
    ensures InvEx(c, ReincarnateStep(c, s, u, p))
  {
    ExQuiet(c, s, u, ReincarnateStep(c, s, u, p));
  }

  /** The next dependency to resume does not come again. */
  lemma FirstOnce(c: Config, s: State, u: nat, p: Pc)
    requires InvOwn(c, s) && D.InvDep(c, s) && InvEx(c, s) && u < c.workers && p == s.pc[u] && PcShape(c, p)
    requires p.Fin? && p.fin.Resume? && p.fin.todo != []
    ensures p.fin.todo[0] !in p.fin.todo[1..] && p.fin.todo[0] in p.fin.all
  {
    Knows(c, s, u);
    var ds, todo := D.DepView(s), p.fin.todo;
    assert D.DepOk(ds, p.i) && WEx(p);
    var all := ds[p.i].todo + ds[p.i].deps;
    forall q | 0 <= q < |todo[1..]| ensures todo[1..][q] != todo[0] {
      assert all[0] == todo[0] && all[q + 1] == todo[1..][q];
    }
    assert p.fin.all[|p.fin.all| - |todo|..][0] == todo[0];
  }

  lemma ExResume(c: Config, s: State, u: nat, p: Pc)
    requires InvOwn(c, s) && D.InvDep(c, s) && InvEx(c, s) && u < c.workers && p == s.pc[u] && PcShape(c, p)
    requires p.Fin? && p.fin.Resume? && p.fin.todo != []
    requires p.fin.todo[0] < c.n && s.txns[p.fin.todo[0]].status.Suspended?
    ensures InvEx(c, ResumeStep(c, s, u, p))
  {
    var s', x, todo := ResumeStep(c, s, u, p), p.fin.todo[0], p.fin.todo;
    FirstOnce(c, s, u, p);
    forall i | 0 <= i < c.n ensures TEx(s', i) { assert TEx(s, i); }
    forall v | 0 <= v < c.workers ensures WEx(s'.pc[v]) { assert WEx(s.pc[v]); }
  }

  lemma ExLower(c: Config, s: State, u: nat, p: Pc, s': State)
    requires InvEx(c, s) && u < c.workers && p == s.pc[u] && p.Fin? && p.fin.Resume? && p.fin.todo == []
    requires Moved(c, s, u, s') && Lowered(s, u, s', p.fin.all) && s'.pc[u].Fin? && s'.pc[u].fin.Load?
    ensures InvEx(c, s')
  {
    forall i | 0 <= i < c.n ensures TEx(s', i) { assert TEx(s, i); }
    forall v | 0 <= v < c.workers ensures WEx(s'.pc[v]) { assert WEx(s.pc[v]); }
  }

  lemma ExSetAborted(c: Config, s: State, u: nat, p: Pc)
    requires InvEx(c, s) && u < c.workers && p == s.pc[u] && PcShape(c, p) && p.Aborter?
    ensures InvEx(c, SetAbortedStep(c, s, u, p))
  {
    var s' := SetAbortedStep(c, s, u, p);
    forall i | 0 <= i < c.n ensures TEx(s', i) { assert TEx(s, i); }
    forall v | 0 <= v < c.workers ensures WEx(s'.pc[v]) { assert WEx(s.pc[v]); }
  }

  lemma ExSetExecuted(c: Config, s: State, u: nat, p: Pc)
    requires InvEx(c, s) && u < c.workers && p == s.pc[u] && PcShape(c, p) && p.Exec? && p.ex.Locked?
    ensures InvEx(c, SetExecutedStep(c, s, u, p))
  {
    var s' := SetExecutedStep(c, s, u, p);
    forall i | 0 <= i < c.n ensures TEx(s', i) { assert TEx(s, i); }
    forall v | 0 <= v < c.workers ensures WEx(s'.pc[v]) { assert WEx(s.pc[v]); }
  }

  lemma ExLoad(c: Config, s: State, u: nat, p: Pc)
    requires InvEx(c, s) && u < c.workers && p == s.pc[u] && PcShape(c, p) && p.Fin? && p.fin.Load?
    ensures InvEx(c, LoadStep(c, s, u, p))
  {
    var s' := LoadStep(c, s, u, p);
    forall i | 0 <= i < c.n ensures TEx(s', i) { assert TEx(s, i); }
    forall v | 0 <= v < c.workers ensures WEx(s'.pc[v]) { assert WEx(s.pc[v]); }
  }

  lemma ExExec(c: Config, s: State, u: nat, p: Pc, s': State)
    requires InvEx(c, s) && u < c.workers && p == s.pc[u] && PcShape(c, p) && !Panics(c, s, u)
    requires p.Exec? && ExecStep(c, s, u, p, s')
    ensures InvEx(c, s')
  {
    match p.ex
    case Locked(_) => ExSetExecuted(c, s, u, p);
    case Apply(_, _, _, _) => ExApply(c, s, u, p, s');
    case RecordOut(_, _) => ExStays(c, s, u, s');
    case WantLock(_) => ExStays(c, s, u, s');
    case _ => ExInVm(c, s, u, p, s');
  }

  lemma ExInVm(c: Config, s: State, u: nat, p: Pc, s': State)
    requires InvEx(c, s) && u < c.workers && p == s.pc[u] && PcShape(c, p) && !Panics(c, s, u)
    requires p.Exec? && Tied(p).Some? && ExecStep(c, s, u, p, s')
    ensures InvEx(c, s')
  {
    ExStays(c, s, u, s');
  }

  lemma ExAddWrite(c: Config, s: State, u: nat, p: Pc, k: Key)
    requires InvEx(c, s) && u < c.workers && p == s.pc[u] && PcShape(c, p) && p.Exec? && p.ex.Apply? && k in p.ex.todo
    ensures InvEx(c, AddWriteStep(c, s, u, p, k))
  {
    ExStays(c, s, u, AddWriteStep(c, s, u, p, k));
  }

  lemma ExDelete(c: Config, s: State, u: nat, p: Pc, k: Key)
    requires InvEx(c, s) && u < c.workers && p == s.pc[u] && PcShape(c, p) && p.Exec? && p.ex.Apply?
    ensures InvEx(c, DeleteStep(c, s, u, p, k))
  {
    ExStays(c, s, u, DeleteStep(c, s, u, p, k));
  }

  lemma ExApply(c: Config, s: State, u: nat, p: Pc, s': State)
    requires InvEx(c, s) && u < c.workers && p == s.pc[u] && PcShape(c, p)
    requires p.Exec? && p.ex.Apply? && ApplyStep(c, s, u, p, s')
    ensures InvEx(c, s')
  {
    if k: Key :| k in p.ex.todo && s' == AddWriteStep(c, s, u, p, k) { ExAddWrite(c, s, u, p, k); }
    else if k: Key :| k in p.ex.prev && s' == DeleteStep(c, s, u, p, k) { ExDelete(c, s, u, p, k); }
    else { ExStays(c, s, u, s'); }
  }

  lemma ExFin(c: Config, s: State, u: nat, p: Pc, s': State)
    requires InvOwn(c, s) && D.InvDep(c, s) && InvEx(c, s)
    requires u < c.workers && p == s.pc[u] && PcShape(c, p) && !Panics(c, s, u)
    requires p.Fin? && FinStep(c, s, u, p, s')
    ensures InvEx(c, s')
  {
    match p.fin
    case Take(_) => ExQuiet(c, s, u, s');
    case Resume(_, todo, _) =>
      if todo != [] { ExResume(c, s, u, p); } else { ExLower(c, s, u, p, LowerStep(c, s, u, p)); }
    case Load(_) => ExLoad(c, s, u, p);
    case Decrease => ExQuiet(c, s, u, s');
  }

  lemma ExAborter(c: Config, s: State, u: nat, p: Pc, s': State)
    requires InvEx(c, s) && u < c.workers && p == s.pc[u] && PcShape(c, p) && !Panics(c, s, u)
    requires p.Aborter? && AbortStep(c, s, u, p, s')
    ensures InvEx(c, s')
  {
    if p.ab.AbortLocked? { ExSetAborted(c, s, u, p); } else { ExQuiet(c, s, u, s'); }
  }

  lemma ExFinAbort(c: Config, s: State, u: nat, p: Pc, s': State)
    requires InvEx(c, s) && u < c.workers && p == s.pc[u] && PcShape(c, p)
    requires p.FinAbort? && FinAbortStep(c, s, u, p, s')
    ensures InvEx(c, s')
  {
    if p.fa.Reincarnate? { ExReincarnate(c, s, u, p); } else { ExQuiet(c, s, u, s'); }
  }

  lemma ExIdle(c: Config, s: State, u: nat, f: IdlePc)
    requires InvEx(c, s) && u < c.workers && s.pc[u] == Idle(f)
    ensures InvEx(c, IdleStep(c, s, u, f))
  {
    if f.FetchEx? { ExFetch(c, s, u); }
    else if f.FetchVal? { ExFetchVal(c, s, u); }
    else { ExQuiet(c, s, u, IdleStep(c, s, u, f)); }
  }

  lemma ExFree(c: Config, s: State, u: nat, p: Pc, s': State)
    requires InvEx(c, s) && Step(c, s, u, s') && p == s.pc[u]
    requires p.Idle? || p.GotVal? || p.GotEx? || p.Signal? || p.Val?
    ensures InvEx(c, s')
  {
    match p
    case Idle(f) => ExIdle(c, s, u, f);
    case GotEx(i) => ExIncarnate(c, s, u, i);
    case _ => ExQuiet(c, s, u, s');
  }

  lemma ExStep(c: Config, s: State, u: nat, s': State)
    requires InvOwn(c, s) && D.InvDep(c, s) && InvEx(c, s) && Step(c, s, u, s')
    ensures InvEx(c, s')
  {
    var p := s.pc[u];
    match p
    case Exec(_, _, _, _) => ExExec(c, s, u, p, s');
    case Fin(_, _, _) => ExFin(c, s, u, p, s');
    case Aborter(_, _, _) => ExAborter(c, s, u, p, s');
    case FinAbort(_, _, _) => ExFinAbort(c, s, u, p, s');
    case _ => ExFree(c, s, u, p, s');
  }

  lemma ExCommit(c: Config, s: State)
    requires InvEx(c, s)
    ensures InvEx(c, TryCommit(c, s))
  {
    var s' := TryCommit(c, s);
    forall i | 0 <= i < c.n ensures TEx(s', i) { assert TEx(s, i); }
  }

  // ---------------------------------------------------------------- validation

  /** A validation of `i` that will count is in progress at `p`. */
  predicate Validates(p: Pc, i: nat, v: VStatus, need: nat) {
    var iss := W.IssueOf(p);
    iss.Some? && iss.value.i == i && iss.value.w >= need && iss.value.w >= v.required
  }

  predicate Credited(v: VStatus, need: nat) {
    v.maxValidated.Some? && v.maxValidated.value >= need && v.maxValidated.value >= v.required
  }

  ghost predicate TVh(s: State, i: nat)
    requires i < |s.txns| == |s.need|
  {
    var t := s.txns[i];
    && t.vhand < |s.pc|
    && (t.status.Executed? && !PcOf(s, t.vlock).Fin? ==>
          s.valIdx <= i || Credited(t.vstat, s.need[i]) || Validates(s.pc[t.vhand], i, t.vstat, s.need[i]))
  }

  ghost predicate InvVh(c: Config, s: State) {
    Shape(c, s) && forall i :: 0 <= i < c.n ==> TVh(s, i)
  }

  lemma InitVh(c: Config, s: State)
    requires Init(c, s) && c.workers > 0
    ensures InvVh(c, s)
  {}

  /** The finishing worker of `i`, if any, is the same before and after. */
  predicate SameFin(s: State, s': State, i: nat)
    requires i < |s.txns| && i < |s'.txns|
  {
    PcOf(s, s.txns[i].vlock).Fin? ==> PcOf(s', s'.txns[i].vlock).Fin?
  }

  lemma VhQuiet(c: Config, s: State, u: nat, s': State)
    requires InvVh(c, s) && Moved(c, s, u, s') && SameHands(s, s') && PcShape(c, s.pc[u])
    requires forall i :: 0 <= i < c.n ==> SameFin(s, s', i)
    requires forall i :: 0 <= i < c.n && s'.txns[i].status.Executed? ==>
               || (s'.need[i] == s.need[i] && s'.txns[i].vstat == s.txns[i].vstat && s'.valIdx <= s.valIdx)
               || s'.valIdx <= i
               || Credited(s'.txns[i].vstat, s'.need[i])
    requires W.IssueOf(s.pc[u]).Some? ==>
               || W.IssueOf(s'.pc[u]) == W.IssueOf(s.pc[u])
               || var i := TxnOf(s.pc[u]);
                  !s'.txns[i].status.Executed? || s'.valIdx <= i || Credited(s'.txns[i].vstat, s'.need[i])
                  || !Validates(s.pc[u], i, s.txns[i].vstat, s.need[i])
    ensures InvVh(c, s')
  {
    forall i | 0 <= i < c.n ensures TVh(s', i) { assert TVh(s, i) && SameFin(s, s', i); }
  }

  /** A step on the record of `i` does not end the finishing of any other transaction. */
  lemma FinStays(c: Config, s: State, u: nat, s': State, i: nat)
    requires InvOwn(c, s) && Moved(c, s, u, s') && i < c.n && Only(s, s', i)
    requires s.pc[u].Fin? ==> s'.pc[u].Fin? || s.pc[u].i == i
    ensures forall x :: 0 <= x < c.n && x != i ==> SameFin(s, s', x)
  {
    forall x | 0 <= x < c.n && x != i ensures SameFin(s, s', x) { KnowsTxn(c, s, x); }
  }

  /** The step changes neither waves nor who holds the lock of `i`. */
  lemma VhOne(c: Config, s: State, u: nat, s': State, i: nat)
    requires InvOwn(c, s) && InvVh(c, s) && Moved(c, s, u, s') && SameHands(s, s') && SameWaves(s, s')
    requires i < c.n && Only(s, s', i) && PcShape(c, s.pc[u])
    requires s.pc[u].Fin? ==> s'.pc[u].Fin?
    requires s'.txns[i].vlock == s.txns[i].vlock || !PcOf(s, s.txns[i].vlock).Fin?
    requires W.IssueOf(s.pc[u]).Some? ==>
               W.IssueOf(s'.pc[u]) == W.IssueOf(s.pc[u]) || !s'.txns[TxnOf(s.pc[u])].status.Executed?
    ensures InvVh(c, s')
  {
    FinStays(c, s, u, s', i);
    VhQuiet(c, s, u, s');
  }

  lemma VhIdle(c: Config, s: State, u: nat, f: IdlePc)
    requires InvOwn(c, s) && W.InvWave(c, s) && InvVh(c, s) && u < c.workers && s.pc[u] == Idle(f)
    ensures InvVh(c, IdleStep(c, s, u, f))
  {
    var s' := IdleStep(c, s, u, f);
    forall i | 0 <= i < c.n ensures TVh(s', i) {
      assert TVh(s, i) && W.TOk(W.WaveView(s), i);
      KnowsTxn(c, s, i);
    }
  }

  lemma VhSetExecuted(c: Config, s: State, u: nat, p: Pc)
    requires InvOwn(c, s) && InvVh(c, s) && u < c.workers && p == s.pc[u] && PcShape(c, p) && p.Exec? && p.ex.Locked?
    ensures InvVh(c, SetExecutedStep(c, s, u, p))
  {
    var s' := SetExecutedStep(c, s, u, p);
    Knows(c, s, u);
    FinStays(c, s, u, s', p.i);
    forall i | 0 <= i < c.n ensures TVh(s', i) { assert TVh(s, i) && (i != p.i ==> SameFin(s, s', i)); }
  }

  lemma VhSetAborted(c: Config, s: State, u: nat, p: Pc)
    requires InvOwn(c, s) && InvVh(c, s) && u < c.workers && p == s.pc[u] && PcShape(c, p) && p.Aborter?
    ensures InvVh(c, SetAbortedStep(c, s, u, p))
  {
    var s' := SetAbortedStep(c, s, u, p);
    FinStays(c, s, u, s', p.i);
    forall i | 0 <= i < c.n ensures TVh(s', i) { assert TVh(s, i) && (i != p.i ==> SameFin(s, s', i)); }
  }

  lemma VhResume(c: Config, s: State, u: nat, p: Pc)
    requires InvOwn(c, s) && InvVh(c, s) && u < c.workers && p == s.pc[u] && PcShape(c, p)
    requires p.Fin? && p.fin.Resume? && p.fin.todo != []
    requires p.fin.todo[0] < c.n && s.txns[p.fin.todo[0]].status.Suspended?
    ensures InvVh(c, ResumeStep(c, s, u, p))
  {
    var s' := ResumeStep(c, s, u, p);
    FinStays(c, s, u, s', p.fin.todo[0]);
    forall i | 0 <= i < c.n ensures TVh(s', i) { assert TVh(s, i); }
  }

  lemma VhLower(c: Config, s: State, u: nat, p: Pc)
    requires InvOwn(c, s) && InvVh(c, s) && u < c.workers && p == s.pc[u] && PcShape(c, p) && p.Fin? && p.fin.Resume?
    ensures InvVh(c, LowerStep(c, s, u, p))
  {
    var s' := LowerStep(c, s, u, p);
    FinStays(c, s, u, s', p.i);
    forall i | 0 <= i < c.n ensures TVh(s', i) { assert TVh(s, i) && (i != p.i ==> SameFin(s, s', i)); }
  }

  lemma VhLoad(c: Config, s: State, u: nat, p: Pc)
    requires InvOwn(c, s) && W.InvWave(c, s) && InvVh(c, s)
    requires u < c.workers && p == s.pc[u] && PcShape(c, p) && p.Fin? && p.fin.Load?
    ensures InvVh(c, LoadStep(c, s, u, p))
  {
    var s' := LoadStep(c, s, u, p);
    FinStays(c, s, u, s', p.i);
    assert W.TOk(W.WaveView(s), p.i);
    forall i | 0 <= i < c.n ensures TVh(s', i) { assert TVh(s, i) && (i != p.i ==> SameFin(s, s', i)); }
  }

  /** After a new wave has begun at p.i, everything from there on is above the index. */
  lemma VhDecrease(c: Config, s: State, u: nat, p: Pc)
    requires InvOwn(c, s) && InvVh(c, s) && u < c.workers && p == s.pc[u] && PcShape(c, p)
    ensures p.Fin? ==> InvVh(c, DecreaseStep(c, s, u, p))
    ensures p.FinAbort? ==> InvVh(c, AbortDecreaseStep(c, s, u, p))
  {
    if p.Fin? {
      var s' := DecreaseStep(c, s, u, p);
      FinStays(c, s, u, s', p.i);
      forall i | 0 <= i < c.n ensures TVh(s', i) { assert TVh(s, i) && (i != p.i ==> SameFin(s, s', i)); }
    } else if p.FinAbort? {
      var s' := AbortDecreaseStep(c, s, u, p);
      FinStays(c, s, u, s', p.i);
      forall i | 0 <= i < c.n ensures TVh(s', i) { assert TVh(s, i) && (i != p.i ==> SameFin(s, s', i)); }
    }
  }

  lemma VhCredit(c: Config, s: State, u: nat, p: Pc)
    requires InvOwn(c, s) && InvVh(c, s) && u < c.workers && p == s.pc[u] && PcShape(c, p) && p.Val?
    ensures InvVh(c, CreditStep(c, s, u, p))
  {
    var s' := CreditStep(c, s, u, p);
    FinStays(c, s, u, s', p.i);
    forall i | 0 <= i < c.n ensures TVh(s', i) { assert TVh(s, i) && (i != p.i ==> SameFin(s, s', i)); }
  }

  lemma VhExec(c: Config, s: State, u: nat, p: Pc, s': State)
    requires InvOwn(c, s) && InvVh(c, s) && u < c.workers && p == s.pc[u] && PcShape(c, p) && !Panics(c, s, u)
    requires p.Exec? && ExecStep(c, s, u, p, s')
    ensures InvVh(c, s')
  {
    match p.ex
    case Locked(_) => VhSetExecuted(c, s, u, p);
    case Apply(_, _, _, _) => VhApply(c, s, u, p, s');
    case RecordOut(_, _) => VhOne(c, s, u, s', p.i);
    case WantLock(_) => VhOne(c, s, u, s', p.i);
    case _ => VhInVm(c, s, u, p, s');
  }

  lemma VhInVm(c: Config, s: State, u: nat, p: Pc, s': State)
    requires InvOwn(c, s) && InvVh(c, s) && u < c.workers && p == s.pc[u] && PcShape(c, p) && !Panics(c, s, u)
    requires p.Exec? && Tied(p).Some? && ExecStep(c, s, u, p, s')
    ensures InvVh(c, s')
  {
    if p.ex.WantDep? || p.ex.PushDep? { VhOne(c, s, u, s', p.ex.d); } else { VhOne(c, s, u, s', p.i); }
  }

  lemma VhApply(c: Config, s: State, u: nat, p: Pc, s': State)
    requires InvOwn(c, s) && InvVh(c, s) && u < c.workers && p == s.pc[u] && PcShape(c, p)
    requires p.Exec? && p.ex.Apply? && ApplyStep(c, s, u, p, s')
    ensures InvVh(c, s')
  {
    VhOne(c, s, u, s', p.i);
  }

  lemma VhFin(c: Config, s: State, u: nat, p: Pc, s': State)
    requires InvOwn(c, s) && W.InvWave(c, s) && InvVh(c, s)
    requires u < c.workers && p == s.pc[u] && PcShape(c, p) && !Panics(c, s, u)
    requires p.Fin? && FinStep(c, s, u, p, s')
    ensures InvVh(c, s')
  {
    match p.fin
    case Take(_) => VhOne(c, s, u, s', p.i);
    case Resume(_, todo, _) => if todo != [] { VhResume(c, s, u, p); } else { VhLower(c, s, u, p); }
    case Load(_) => VhLoad(c, s, u, p);
    case Decrease => VhDecrease(c, s, u, p);
  }

  lemma VhAbort(c: Config, s: State, u: nat, p: Pc, s': State)
    requires InvOwn(c, s) && InvVh(c, s) && u < c.workers && p == s.pc[u] && PcShape(c, p) && !Panics(c, s, u)
    requires (p.Aborter? && AbortStep(c, s, u, p, s')) || (p.FinAbort? && FinAbortStep(c, s, u, p, s'))
    ensures InvVh(c, s')
  {
    if p.Aborter? && p.ab.AbortLocked? { VhSetAborted(c, s, u, p); }
    else if p.FinAbort? && p.fa.AbortDecrease? { VhDecrease(c, s, u, p); }
    else {
      Knows(c, s, u);
      VhOne(c, s, u, s', p.i);
    }
  }

  lemma VhFree(c: Config, s: State, u: nat, p: Pc, s': State)
    requires InvOwn(c, s) && W.InvWave(c, s) && InvVh(c, s)
    requires Step(c, s, u, s') && p == s.pc[u] && (p.Idle? || p.GotVal? || p.GotEx? || p.Signal?)
    ensures InvVh(c, s')
  {
    match p
    case Idle(f) => VhIdle(c, s, u, f);
    case GotVal(i, _) => VhOne(c, s, u, s', i);
    case GotEx(i) => VhOne(c, s, u, s', i);
    case Signal(i, _, _) => VhOne(c, s, u, s', i);
  }

  lemma VhStep(c: Config, s: State, u: nat, s': State)
    requires InvOwn(c, s) && W.InvWave(c, s) && InvVh(c, s) && Step(c, s, u, s')
    ensures InvVh(c, s')
  {
    var p := s.pc[u];
    match p
    case Exec(_, _, _, _) => VhExec(c, s, u, p, s');
    case Fin(_, _, _) => VhFin(c, s, u, p, s');
    case Val(_, _, _, v) => if v.Credit? { VhCredit(c, s, u, p); } else { VhOne(c, s, u, s', p.i); }
    case Aborter(_, _, _) => VhAbort(c, s, u, p, s');
    case FinAbort(_, _, _) => VhAbort(c, s, u, p, s');
    case _ => VhFree(c, s, u, p, s');
  }

  lemma VhCommit(c: Config, s: State)
    requires InvVh(c, s)
    ensures InvVh(c, TryCommit(c, s))
  {
    var s' := TryCommit(c, s);
    forall i | 0 <= i < c.n ensures TVh(s', i) { assert TVh(s, i); }
  }
}
