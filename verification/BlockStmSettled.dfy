/**
 Transactions that are settled: committed, or executed with reads that hold and validated
 recently enough to be committed.  If a transaction and all below it are settled, no step of any
 worker changes that.  The first one that is not settled only moves towards its last execution.
 */
module BlockStmSettled {
  import opened BlockStm
  import opened BlockStmView
  import opened BlockStmSafety
  import opened BlockStmAborts
  import opened BlockStmRest
  import C = BlockStmCommit
  import T = BlockStmTasks

  ghost predicate Settled(s: State, z: nat)
    requires z < |s.txns| && z < |s.need|
  {
    var t := s.txns[z];
    && t.vlock.None?
    && (t.status.Committed?
        || (t.status.Executed? && Fresh(s, z, t.status.inc) && T.Credited(t.vstat, s.need[z])))
  }

  ghost predicate AllSettled(s: State, x: nat) {
    x <= |s.txns| && x <= |s.need| && forall z :: 0 <= z < x ==> Settled(s, z)
  }

  // ---------------------------------------------------------------- nothing below changes

  lemma SettledUnowned(c: Config, s: State, z: nat)
    requires InvOwn(c, s) && z < c.n && Settled(s, z)
    ensures s.txns[z].owner.None?
  {
    KnowsTxn(c, s, z);
  }

  /** No entry of a settled transaction changes. */
  lemma SettledEntries(c: Config, s: State, u: nat, s': State, x: nat)
    requires InvOwn(c, s) && Step(c, s, u, s') && x <= c.n && AllSettled(s, x)
    ensures SameBelow(s, s', x)
  {
    var p := s.pc[u];
    MapStep(c, s, u, p, s');
    if (p.Exec? || p.Aborter?) && p.i < x {
      SettledUnowned(c, s, p.i);
      Knows(c, s, u);
    }
  }

  lemma SettledUnlocked(s: State, x: nat, z: nat)
    requires AllSettled(s, x) && z < x
    ensures s.txns[z].vlock.None?
  {
    assert Settled(s, z);
  }

  /** The worker takes validation_idx back, or asks for a validation. */
  predicate Lowers(p: Pc) { p.Fin? || p.FinAbort? }

  /** The worker holds the validation lock of a settled transaction or none of them. */
  lemma NobodyLowers(c: Config, s: State, u: nat, x: nat)
    requires InvOwn(c, s) && u < c.workers && x <= c.n && AllSettled(s, x)
    ensures Lowers(s.pc[u]) ==> TxnOf(s.pc[u]) >= x
  {
    Knows(c, s, u);
    if Lowers(s.pc[u]) && TxnOf(s.pc[u]) < x { SettledUnlocked(s, x, TxnOf(s.pc[u])); }
  }

  /** What is asked of `z` stays, and what it was credited does not shrink. */
  predicate KeepsCredit(s: State, s': State, z: nat)
    requires z < |s.txns| && z < |s.need| && z < |s'.txns| && z < |s'.need|
  {
    T.Credited(s.txns[z].vstat, s.need[z]) ==> T.Credited(s'.txns[z].vstat, s'.need[z])
  }

  lemma CreditFin(c: Config, s: State, u: nat, p: Pc, s': State, z: nat)
    requires Shape(c, s) && u < c.workers && p == s.pc[u] && PcShape(c, p) && !Panics(c, s, u)
    requires (p.Fin? && FinStep(c, s, u, p, s')) || (p.FinAbort? && FinAbortStep(c, s, u, p, s'))
    requires z < p.i && Shape(c, s')
    ensures KeepsCredit(s, s', z)
  {}

  lemma CreditVal(c: Config, s: State, u: nat, p: Pc, s': State, z: nat)
    requires Shape(c, s) && u < c.workers && p == s.pc[u] && PcShape(c, p) && !Panics(c, s, u)
    requires p.Val? && ValStep(c, s, u, p, s') && z < c.n && Shape(c, s')
    ensures KeepsCredit(s, s', z)
  {}

  lemma CreditExec(c: Config, s: State, u: nat, p: Pc, s': State, z: nat)
    requires Shape(c, s) && u < c.workers && p == s.pc[u] && PcShape(c, p) && !Panics(c, s, u)
    requires p.Exec? && ExecStep(c, s, u, p, s') && z < c.n && Shape(c, s')
    ensures KeepsCredit(s, s', z)
  {
    if p.ex.Apply? { CalmApply(c, s, u, p, s'); }
  }

  lemma CreditFree(c: Config, s: State, u: nat, p: Pc, s': State, z: nat)
    requires Step(c, s, u, s') && p == s.pc[u] && (p.Idle? || p.GotVal? || p.GotEx? || p.Signal?)
    requires z < c.n && Shape(c, s')
    ensures KeepsCredit(s, s', z)
  {}

  lemma CreditAborter(c: Config, s: State, u: nat, p: Pc, s': State, z: nat)
    requires Shape(c, s) && u < c.workers && p == s.pc[u] && PcShape(c, p) && !Panics(c, s, u)
    requires p.Aborter? && AbortStep(c, s, u, p, s') && z < c.n && Shape(c, s')
    ensures KeepsCredit(s, s', z)
  {}

  lemma CreditStays(c: Config, s: State, u: nat, s': State, z: nat)
    requires Step(c, s, u, s') && Shape(c, s') && z < c.n
    requires Lowers(s.pc[u]) ==> z < TxnOf(s.pc[u])
    ensures KeepsCredit(s, s', z)
  {
    var p := s.pc[u];
    match p
    case Exec(_, _, _, _) => CreditExec(c, s, u, p, s', z);
    case Fin(_, _, _) => CreditFin(c, s, u, p, s', z);
    case FinAbort(_, _, _) => CreditFin(c, s, u, p, s', z);
    case Val(_, _, _, _) => CreditVal(c, s, u, p, s', z);
    case Aborter(_, _, _) => CreditAborter(c, s, u, p, s', z);
    case _ => CreditFree(c, s, u, p, s', z);
  }

  /** Only its run and whoever aborts it take the validation lock of a transaction. */
  predicate KeepsFree(s: State, s': State, z: nat)
    requires z < |s.txns| && z < |s'.txns|
  {
    s.txns[z].vlock.None? ==> s'.txns[z].vlock.None?
  }

  lemma FreeExec(c: Config, s: State, u: nat, p: Pc, s': State, z: nat)
    requires Shape(c, s) && u < c.workers && p == s.pc[u] && PcShape(c, p) && !Panics(c, s, u)
    requires p.Exec? && ExecStep(c, s, u, p, s') && z < c.n && z != p.i && Shape(c, s')
    ensures KeepsFree(s, s', z)
  {
    if p.ex.Apply? { CalmApply(c, s, u, p, s'); }
  }

  lemma FreeFin(c: Config, s: State, u: nat, p: Pc, s': State, z: nat)
    requires Shape(c, s) && u < c.workers && p == s.pc[u] && PcShape(c, p) && !Panics(c, s, u)
    requires p.Fin? && FinStep(c, s, u, p, s') && z < c.n && Shape(c, s')
    ensures KeepsFree(s, s', z)
  {}

  lemma FreeAborter(c: Config, s: State, u: nat, p: Pc, s': State, z: nat)
    requires Shape(c, s) && u < c.workers && p == s.pc[u] && PcShape(c, p) && !Panics(c, s, u)
    requires p.Aborter? && AbortStep(c, s, u, p, s') && z < c.n && z != p.i && Shape(c, s')
    ensures KeepsFree(s, s', z)
  {}

  lemma FreeFinAbort(c: Config, s: State, u: nat, p: Pc, s': State, z: nat)
    requires Shape(c, s) && u < c.workers && p == s.pc[u] && PcShape(c, p)
    requires p.FinAbort? && FinAbortStep(c, s, u, p, s') && z < c.n && Shape(c, s')
    ensures KeepsFree(s, s', z)
  {}

  lemma FreeElse(c: Config, s: State, u: nat, p: Pc, s': State, z: nat)
    requires Step(c, s, u, s') && p == s.pc[u] && (p.Idle? || p.GotVal? || p.GotEx? || p.Signal? || p.Val?)
    requires z < c.n && Shape(c, s')
    ensures KeepsFree(s, s', z)
  {}

  lemma FreeStays(c: Config, s: State, u: nat, s': State, z: nat)
    requires Step(c, s, u, s') && Shape(c, s') && z < c.n
    requires s.pc[u].Exec? || s.pc[u].Aborter? ==> TxnOf(s.pc[u]) != z
    ensures KeepsFree(s, s', z)
  {
    var p := s.pc[u];
    match p
    case Exec(_, _, _, _) => FreeExec(c, s, u, p, s', z);
    case Fin(_, _, _) => FreeFin(c, s, u, p, s', z);
    case Aborter(_, _, _) => FreeAborter(c, s, u, p, s', z);
    case FinAbort(_, _, _) => FreeFinAbort(c, s, u, p, s', z);
    case _ => FreeElse(c, s, u, p, s', z);
  }

  /** Settled, with everything below: settled after any step. */
  lemma SettledStays(c: Config, s: State, u: nat, s': State, z: nat)
    requires InvOwn(c, s) && InvOwn(c, s') && C.InvCommit(c, s) && C.InvCommit(c, s')
    requires Step(c, s, u, s') && z < c.n && AllSettled(s, z + 1)
    ensures Settled(s', z)
  {
    assert Settled(s, z);
    ShapeStep(c, s, u, s');
    NobodyLowers(c, s, u, z + 1);
    SettledUnowned(c, s, z);
    Knows(c, s, u);
    CreditStays(c, s, u, s', z);
    FreeStays(c, s, u, s', z);
    StepAdvances(c, s, u, s');
    assert Advance(s.txns[z], s'.txns[z]);
    if s.txns[z].status.Executed? {
      assert AllSettled(s, z);
      SettledEntries(c, s, u, s', z);
      FreshStep(c, s, u, s', z, s.txns[z].status.inc);
    }
  }

  lemma AllStay(c: Config, s: State, u: nat, s': State, x: nat)
    requires InvOwn(c, s) && InvOwn(c, s') && C.InvCommit(c, s) && C.InvCommit(c, s')
    requires Step(c, s, u, s') && x <= c.n && AllSettled(s, x)
    ensures AllSettled(s', x)
  {
    forall z | 0 <= z < x ensures Settled(s', z) { SettledStays(c, s, u, s', z); }
  }

  // ---------------------------------------------------------------- the next transaction to settle

  /** How far transaction `x` is from having been executed for the last time. */
  ghost function Phase(s: State, x: nat): nat
    requires x < |s.txns|
  {
    var st := s.txns[x].status;
    if st.Committed? then 0
    else if Fresh(s, x, st.inc) then if st.Executed? then 1 else 2
    else if st.Executed? then 5
    else if st.Aborting? then 4
    else if st.Ready? && st.cv.None? then 3 else 6
  }

  /** A step that changes no entry below does not take it back. */
  lemma PhaseBelow(c: Config, s: State, u: nat, s': State, x: nat)
    requires InvOwn(c, s) && InvOwn(c, s') && Step(c, s, u, s') && x < c.n && SameBelow(s, s', x)
    ensures Phase(s', x) <= Phase(s, x)
  {
    ShapeStep(c, s, u, s');
    StepAdvances(c, s, u, s');
    C.CommittedStays(c, s, u, s');
    var t, t' := s.txns[x], s'.txns[x];
    assert Advance(t, t');
    if Fresh(s, x, t.status.inc) { FreshStep(c, s, u, s', x, t.status.inc); }
    else if Begins(t, t', t.status.inc) { FreshBegins(c, s, s', x, t.status.inc); }
  }

  /** With everything below settled, no step takes it back. */
  lemma PhaseStep(c: Config, s: State, u: nat, s': State, x: nat)
    requires InvOwn(c, s) && InvOwn(c, s') && Step(c, s, u, s') && x < c.n && AllSettled(s, x)
    ensures Phase(s', x) <= Phase(s, x)
  {
    SettledEntries(c, s, u, s', x);
    PhaseBelow(c, s, u, s', x);
  }

  // ---------------------------------------------------------------- the indices

  /** No index is taken back and nothing gets ready. */
  predicate Holding(s: State, s': State) {
    && |s.txns| == |s'.txns| && s'.valIdx >= s.valIdx && s'.exIdx >= s.exIdx
    && forall x :: 0 <= x < |s.txns| && s'.txns[x].status.Ready? ==> s.txns[x].status.Ready?
  }

  lemma HoldingExec(c: Config, s: State, u: nat, p: Pc, s': State)
    requires Shape(c, s) && u < c.workers && p == s.pc[u] && PcShape(c, p) && !Panics(c, s, u)
    requires p.Exec? && ExecStep(c, s, u, p, s')
    ensures Holding(s, s')
  {
    if p.ex.Apply? { CalmApply(c, s, u, p, s'); }
  }

  lemma LowersExec(c: Config, s: State, u: nat, p: Pc, s': State)
    requires Shape(c, s) && u < c.workers && p == s.pc[u] && PcShape(c, p) && !Panics(c, s, u)
    requires p.Exec? && ExecStep(c, s, u, p, s') && Lowers(s'.pc[u])
    ensures s'.txns[p.i].status.Executed?
  {
    if p.ex.Apply? { CalmApply(c, s, u, p, s'); }
  }

  lemma HoldingVal(c: Config, s: State, u: nat, p: Pc, s': State)
    requires Shape(c, s) && u < c.workers && p == s.pc[u] && PcShape(c, p) && !Panics(c, s, u)
    requires p.Val? && ValStep(c, s, u, p, s')
    ensures Holding(s, s') && !Lowers(s'.pc[u])
  {}

  lemma HoldingAborter(c: Config, s: State, u: nat, p: Pc, s': State)
    requires Shape(c, s) && u < c.workers && p == s.pc[u] && PcShape(c, p) && !Panics(c, s, u)
    requires p.Aborter? && !p.ab.AbortLocked? && AbortStep(c, s, u, p, s')
    ensures Holding(s, s') && !Lowers(s'.pc[u])
  {}

  lemma HoldingFree(c: Config, s: State, u: nat, p: Pc, s': State)
    requires Step(c, s, u, s') && Shape(c, s') && p == s.pc[u] && (p.Idle? || p.GotVal? || p.GotEx? || p.Signal?)
    ensures Holding(s, s') && !Lowers(s'.pc[u])
  {}

  /** Transaction `x` came forward, or everything is held. */
  ghost predicate Steady(s: State, s': State, x: nat)
    requires x < |s.txns| && x < |s'.txns|
  {
    Phase(s', x) < Phase(s, x) || Holding(s, s')
  }

  /** A worker takes an index back only after its transaction has come forward. */
  lemma SteadyStep(c: Config, s: State, u: nat, p: Pc, s': State)
    requires InvOwn(c, s) && C.InvCommit(c, s) && InvOwn(c, s') && C.InvCommit(c, s') && Step(c, s, u, s')
    requires p == s.pc[u] && !p.Idle? && AllSettled(s, TxnOf(p)) && !Lowers(p)
    ensures TxnOf(p) < c.n && Steady(s, s', TxnOf(p))
    ensures Lowers(s'.pc[u]) ==> Phase(s', TxnOf(p)) < Phase(s, TxnOf(p))
  {
    Knows(c, s, u);
    PhaseStep(c, s, u, s', TxnOf(p));
    if p.Exec? {
      HoldingExec(c, s, u, p, s');
      if Lowers(s'.pc[u]) { LowersExec(c, s, u, p, s'); }
    }
    else if p.Val? { HoldingVal(c, s, u, p, s'); }
    else if !p.Aborter? { HoldingFree(c, s, u, p, s'); }
    else if !p.ab.AbortLocked? { HoldingAborter(c, s, u, p, s'); }
  }
}
