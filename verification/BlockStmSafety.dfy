/**
 The invariant of the block executor, and what it gives for every run: no worker panics, the
 status of a transaction moves only forward through its diagram, and a version is executed
 and aborted at most once.
 */
module BlockStmSafety {
  import opened Options
  import opened BlockStm
  import opened BlockStmView
  import O = BlockStmOwnership
  import D = BlockStmDependencies
  import M = BlockStmMemory
  import W = BlockStmWaves
  import C = BlockStmCommit
  import V = BlockStmValidity
  import T = BlockStmTasks
  import X = BlockStmIndices

  ghost predicate Inv(c: Config, s: State) {
    && InvOwn(c, s) && D.InvDep(c, s) && M.InvMem(c, s) && W.InvWave(c, s)
    && C.InvCommit(c, s) && V.InvVal(c, s) && T.InvEx(c, s) && T.InvVh(c, s) && X.InvIdx(c, s)
  }

  lemma InitInv(c: Config, s: State)
    requires Init(c, s) && c.workers > 0
    ensures Inv(c, s)
  {
    InitOwn(c, s);
    D.InitDep(c, s);
    M.InitMem(c, s);
    W.InitWave(c, s);
    C.InitCommit(c, s);
    V.InitVal(c, s);
    T.InitEx(c, s);
    T.InitVh(c, s);
    X.InitIdx(c, s);
  }

  lemma Sleeper(c: Config, s: State, u: nat)
    requires InvOwn(c, s) && D.InvDep(c, s) && u < c.workers
    ensures ResumesSleeper(c, s, s.pc[u])
  {
    var p := s.pc[u];
    if p.Fin? && p.fin.Resume? && p.fin.todo != [] { D.FirstSleeps(c, s, u, p); }
  }

  lemma ShapesStay(c: Config, s: State, u: nat, s': State)
    requires InvOwn(c, s) && Step(c, s, u, s') && O.IOwn(OwnView(s'))
    ensures InvOwn(c, s')
  {
    ShapeStep(c, s, u, s');
  }

  lemma StepInv(c: Config, s: State, u: nat, s': State)
    requires Inv(c, s) && Step(c, s, u, s')
    ensures Inv(c, s')
  {
    Sleeper(c, s, u);
    OwnStep(c, s, u, s');
    ShapesStay(c, s, u, s');
    D.DepStep(c, s, u, s');
    M.MemStep(c, s, u, s');
    W.WaveStep(c, s, u, s');
    C.CommitStep(c, s, u, s');
    V.ValStepAll(c, s, u, s');
    T.ExStep(c, s, u, s');
    T.VhStep(c, s, u, s');
    X.IdxStep(c, s, u, s');
  }

  lemma CommitInv(c: Config, s: State)
    requires Inv(c, s)
    ensures Inv(c, TryCommit(c, s))
  {
    OwnCommit(c, s);
    D.DepCommit(c, s);
    M.MemCommit(c, s);
    W.WaveCommit(c, s);
    C.CommitCommit(c, s);
    V.ValCommit(c, s);
    T.ExCommit(c, s);
    T.VhCommit(c, s);
    X.IdxCommit(c, s);
  }

  lemma NextInv(c: Config, s: State, s': State)
    requires Inv(c, s) && Next(c, s, s')
    ensures Inv(c, s')
  {
    if u :| Step(c, s, u, s') { StepInv(c, s, u, s'); } else { CommitInv(c, s); }
  }

  /** Every state of every run satisfies the invariant. */
  lemma {:induction false} RunInv(c: Config, tr: seq<State>, k: nat)
    requires IsRun(c, tr) && k < |tr|
    ensures Inv(c, tr[k])
  {
    if k == 0 { InitInv(c, tr[0]); }
    else {
      RunInv(c, tr, k - 1);
      assert NextAt(c, tr, k - 1);
      NextInv(c, tr[k - 1], tr[k]);
    }
  }

  // ---------------------------------------------------------------- no panic

  lemma SafeApply(c: Config, s: State, u: nat, p: Pc)
    requires InvOwn(c, s) && M.InvMem(c, s) && u < c.workers && p == s.pc[u] && p.Exec? && p.ex.Apply?
    ensures !Panics(c, s, u)
  {
    Knows(c, s, u);
    var t := M.MemAt(s, p.i);
    assert M.TxnOk(c, s.log, p.i, t);
    forall k | k in p.ex.todo && k in t.mv ensures t.mv[k].inc < p.inc { M.Overwrites(c, s.log, p.i, t, k); }
  }

  lemma SafeMark(c: Config, s: State, u: nat, p: Pc)
    requires InvOwn(c, s) && M.InvMem(c, s) && u < c.workers && p == s.pc[u] && p.Aborter?
    ensures !Panics(c, s, u)
  {
    Knows(c, s, u);
    assert M.TxnOk(c, s.log, p.i, M.MemAt(s, p.i));
  }

  /** No worker reaches an unreachable!, a failing expect or assertion, whatever the schedule. */
  lemma Safe(c: Config, s: State, u: nat)
    requires Inv(c, s) && u < c.workers
    ensures PcShape(c, s.pc[u]) && !Panics(c, s, u)
  {
    Knows(c, s, u);
    var p := s.pc[u];
    match p
    case Exec(_, _, _, ex) => if ex.Apply? { SafeApply(c, s, u, p); }
    case Fin(_, _, f) => if f.Resume? && f.todo != [] { D.FirstSleeps(c, s, u, p); }
    case Val(_, _, _, _) => assert V.WVal(s, u);
    case Aborter(_, _, _) => SafeMark(c, s, u, p);
    case _ =>
  }

  lemma NoPanic(c: Config, tr: seq<State>, k: nat, u: nat)
    requires IsRun(c, tr) && k < |tr| && u < c.workers
    ensures Shape(c, tr[k]) && PcShape(c, tr[k].pc[u]) && !Panics(c, tr[k], u)
  {
    RunInv(c, tr, k);
    Safe(c, tr[k], u);
  }

  // ---------------------------------------------------------------- the status diagram

  /** Position of a status in the diagram; suspension and resumption stay at one position. */
  function Rank(st: Status): nat {
    match st
    case Ready(inc, cv) => if cv.None? then 4 * inc else 4 * inc + 1
    case Executing(inc) => 4 * inc + 1
    case Suspended(inc, _) => 4 * inc + 1
    case Executed(inc) => 4 * inc + 2
    case Committed(inc) => 4 * inc + 3
    case Aborting(inc) => 4 * inc + 3
  }

  /** An edge of the status diagram. */
  predicate Edge(st: Status, st': Status) {
    || st' == st
    || (st.Ready? && st' == Executing(st.inc))
    || (st.Executing? && st'.Suspended? && st'.inc == st.inc)
    || (st.Suspended? && st' == Ready(st.inc, Some(st.dcv)))
    || (st.Executing? && st' == Executed(st.inc))
    || (st.Executed? && st' == Aborting(st.inc))
    || (st.Executed? && st' == Committed(st.inc))
    || (st.Aborting? && st' == Ready(st.inc + 1, None))
  }

  /** What a step may do to a record: move its status along the diagram; freeze what is committed. */
  predicate Advance(t: Txn, t': Txn) {
    && Edge(t.status, t'.status)
    && (t.status.Committed? ==> t'.mv == t.mv && t'.input == t.input && t'.output == t.output)
  }

  ghost predicate Advances(s: State, s': State) {
    |s'.txns| == |s.txns| && forall x :: 0 <= x < |s.txns| ==> Advance(s.txns[x], s'.txns[x])
  }

  lemma CalmAdvances(c: Config, s: State, u: nat, s': State)
    requires InvOwn(c, s) && Calm(c, s, u, s') && !s.pc[u].Val?
    ensures Advances(s, s')
  {
    Knows(c, s, u);
    forall x | 0 <= x < |s.txns| ensures Advance(s.txns[x], s'.txns[x]) {}
  }

  lemma ExecAdvances(c: Config, s: State, u: nat, p: Pc, s': State)
    requires Shape(c, s) && u < c.workers && p == s.pc[u] && PcShape(c, p) && !Panics(c, s, u)
    requires p.Exec? && ExecStep(c, s, u, p, s') && !IsCalm(p)
    ensures Advances(s, s')
  {}

  lemma FinAdvances(c: Config, s: State, u: nat, p: Pc, s': State)
    requires Shape(c, s) && u < c.workers && p == s.pc[u] && PcShape(c, p) && !Panics(c, s, u)
    requires p.Fin? && FinStep(c, s, u, p, s')
    ensures Advances(s, s')
  {}

  lemma AbortAdvances(c: Config, s: State, u: nat, p: Pc, s': State)
    requires Shape(c, s) && u < c.workers && p == s.pc[u] && PcShape(c, p) && !Panics(c, s, u) && !IsCalm(p)
    requires (p.Aborter? && AbortStep(c, s, u, p, s')) || (p.FinAbort? && FinAbortStep(c, s, u, p, s'))
    ensures Advances(s, s')
  {}

  lemma FreeAdvances(c: Config, s: State, u: nat, p: Pc, s': State)
    requires Step(c, s, u, s') && p == s.pc[u] && (p.Idle? || p.GotVal? || p.GotEx? || p.Signal? || p.Val?)
    ensures Advances(s, s')
  {}

  lemma StepAdvances(c: Config, s: State, u: nat, s': State)
    requires InvOwn(c, s) && Step(c, s, u, s')
    ensures Advances(s, s')
  {
    var p := s.pc[u];
    if IsCalm(p) && !p.Val? {
      CalmStep(c, s, u, s');
      CalmAdvances(c, s, u, s');
    } else {
      match p
      case Exec(_, _, _, _) => ExecAdvances(c, s, u, p, s');
      case Fin(_, _, _) => FinAdvances(c, s, u, p, s');
      case Aborter(_, _, _) => AbortAdvances(c, s, u, p, s');
      case FinAbort(_, _, _) => AbortAdvances(c, s, u, p, s');
      case _ => FreeAdvances(c, s, u, p, s');
    }
  }

  lemma NextAdvances(c: Config, s: State, s': State)
    requires InvOwn(c, s) && Next(c, s, s')
    ensures Advances(s, s')
  {
    if s' != TryCommit(c, s) {
      var u :| Step(c, s, u, s');
      StepAdvances(c, s, u, s');
    }
  }

  /** The successive records of transaction `x` in a run. */
  ghost function History(tr: seq<State>, x: nat): seq<Txn> {
    seq(|tr|, k requires 0 <= k < |tr| => if x < |tr[k].txns| then tr[k].txns[x] else InitTxn)
  }

  ghost predicate IsPath(h: seq<Txn>) {
    forall k :: 0 <= k < |h| - 1 ==> Advance(h[k], h[k + 1])
  }

  /** Every step of every run moves every transaction along the diagram. */
  lemma RunFollowsDiagram(c: Config, tr: seq<State>, x: nat)
    requires IsRun(c, tr) && x < c.n
    ensures IsPath(History(tr, x))
    ensures forall k :: 0 <= k < |tr| ==> x < |tr[k].txns| && History(tr, x)[k] == tr[k].txns[x]
  {
    var h := History(tr, x);
    forall k | 0 <= k < |tr| ensures x < |tr[k].txns| && h[k] == tr[k].txns[x] { RunInv(c, tr, k); }
    forall k | 0 <= k < |h| - 1 ensures Advance(h[k], h[k + 1]) {
      RunInv(c, tr, k);
      assert NextAt(c, tr, k);
      NextAdvances(c, tr[k], tr[k + 1]);
    }
  }

  lemma {:induction false} RankGrows(h: seq<Txn>, k: nat, l: nat)
    requires IsPath(h) && k <= l < |h|
    ensures Rank(h[k].status) <= Rank(h[l].status)
    decreases l - k
  {
    if k < l {
      assert Advance(h[k], h[k + 1]);
      RankGrows(h, k + 1, l);
    }
  }

  predicate Begins(t: Txn, t': Txn, inc: nat) { t.status == Ready(inc, None) && t'.status == Executing(inc) }

  predicate Aborts(t: Txn, t': Txn, inc: nat) { t.status == Executed(inc) && t'.status == Aborting(inc) }

  /** One execution task and at most one successful abort per version. */
  lemma OncePerVersion(c: Config, tr: seq<State>, x: nat, inc: nat, k: nat, l: nat)
    requires IsRun(c, tr) && x < c.n && k < l && l + 1 < |tr|
    ensures var h := History(tr, x);
            && !(Begins(h[k], h[k + 1], inc) && Begins(h[l], h[l + 1], inc))
            && !(Aborts(h[k], h[k + 1], inc) && Aborts(h[l], h[l + 1], inc))
  {
    RunFollowsDiagram(c, tr, x);
    RankGrows(History(tr, x), k + 1, l);
  }

  lemma {:induction false} Frozen(h: seq<Txn>, k: nat, l: nat)
    requires IsPath(h) && k <= l < |h| && h[k].status.Committed?
    ensures h[l].status == h[k].status && h[l].mv == h[k].mv && h[l].input == h[k].input && h[l].output == h[k].output
    decreases l - k
  {
    if k < l {
      assert Advance(h[k], h[k + 1]);
      Frozen(h, k + 1, l);
    }
  }

  /** A committed transaction keeps its status, map entries, reads and output to the end of the run. */
  lemma CommittedForever(c: Config, tr: seq<State>, x: nat, k: nat, l: nat)
    requires IsRun(c, tr) && x < c.n && k <= l < |tr| && History(tr, x)[k].status.Committed?
    ensures var t, t' := History(tr, x)[k], History(tr, x)[l];
            t'.status == t.status && t'.mv == t.mv && t'.input == t.input && t'.output == t.output
  {
    RunFollowsDiagram(c, tr, x);
    Frozen(History(tr, x), k, l);
  }
}
