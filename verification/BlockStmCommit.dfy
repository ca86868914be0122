/**
 The commit index: exactly the transactions below it are committed, and the commit wave lies
 between the waves the last committed and the next transaction need.
 */
module BlockStmCommit {
  import opened BlockStm
  import opened BlockStmView
  import W = BlockStmWaves

  ghost predicate InvCommit(c: Config, s: State) {
    && Shape(c, s) && s.commitIdx <= c.n
    && (forall i :: 0 <= i < c.n ==> (s.txns[i].status.Committed? <==> i < s.commitIdx))
    && (s.commitIdx > 0 ==> s.need[s.commitIdx - 1] <= s.commitWave)
    && (s.commitIdx < c.n ==> s.commitWave <= s.need[s.commitIdx])
    && (s.done ==> s.commitIdx == c.n)
  }

  lemma InitCommit(c: Config, s: State)
    requires Init(c, s) && c.workers > 0
    ensures InvCommit(c, s)
  {}

  predicate SameCommitted(s: State, s': State) {
    && |s'.txns| == |s.txns|
    && forall x :: 0 <= x < |s.txns| ==> (s'.txns[x].status.Committed? <==> s.txns[x].status.Committed?)
  }

  lemma SameClass(s: State, s': State)
    requires SameVal(s, s')
    ensures SameCommitted(s, s')
  {
    forall x | 0 <= x < |s.txns|
      ensures s'.txns[x].status.Committed? <==> s.txns[x].status.Committed?
    {
      assert Class(s'.txns[x].status) == Class(s.txns[x].status);
    }
  }

  lemma CommittedExec(c: Config, s: State, u: nat, p: Pc, s': State)
    requires Step(c, s, u, s') && p == s.pc[u] && p.Exec?
    ensures SameCommitted(s, s')
  {
    if IsCalm(p) { CalmStep(c, s, u, s'); }
    else if !p.ex.Locked? && !p.ex.Waiting? { SameClass(s, s'); }
  }

  lemma CommittedFin(c: Config, s: State, u: nat, p: Pc, s': State)
    requires Step(c, s, u, s') && p == s.pc[u] && (p.Fin? || p.FinAbort?)
    ensures SameCommitted(s, s')
  {
    if (p.Fin? && (p.fin.Take? || p.fin.Resume?)) || (p.FinAbort? && !p.fa.AbortDecrease?) { SameClass(s, s'); }
  }

  lemma CommittedVal(c: Config, s: State, u: nat, p: Pc, s': State)
    requires Step(c, s, u, s') && p == s.pc[u] && p.Val?
    ensures SameCommitted(s, s')
  {}

  lemma CommittedAbort(c: Config, s: State, u: nat, p: Pc, s': State)
    requires Step(c, s, u, s') && p == s.pc[u] && p.Aborter?
    ensures SameCommitted(s, s')
  {
    if IsCalm(p) { CalmStep(c, s, u, s'); } else if p.ab.Mark? { SameClass(s, s'); }
  }

  /** No step of a worker commits a transaction or takes a commitment back. */
  lemma CommittedStays(c: Config, s: State, u: nat, s': State)
    requires Step(c, s, u, s')
    ensures SameCommitted(s, s')
  {
    var p := s.pc[u];
    match p
    case Idle(_) => SameClass(s, s');
    case GotVal(_, _) => SameClass(s, s');
    case GotEx(_) => SameClass(s, s');
    case Signal(_, _, _) => SameClass(s, s');
    case Exec(_, _, _, _) => CommittedExec(c, s, u, p, s');
    case Fin(_, _, _) => CommittedFin(c, s, u, p, s');
    case Val(_, _, _, _) => CommittedVal(c, s, u, p, s');
    case Aborter(_, _, _) => CommittedAbort(c, s, u, p, s');
    case FinAbort(_, _, _) => CommittedFin(c, s, u, p, s');
  }

  /** The worker that begins a new wave at p.i holds its lock, so p.i is not committed. */
  lemma NeedStays(c: Config, s: State, u: nat, s': State)
    requires InvOwn(c, s) && W.InvWave(c, s) && InvCommit(c, s) && Step(c, s, u, s') && Shape(c, s')
    ensures forall i :: 0 <= i < s.commitIdx ==> s'.need[i] == s.need[i]
    ensures s.commitIdx < c.n ==> s'.need[s.commitIdx] >= s.need[s.commitIdx]
  {
    var p := s.pc[u];
    if (p.Fin? && p.fin.Decrease?) || (p.FinAbort? && p.fa.AbortDecrease?) {
      Knows(c, s, u);
      assert !s.txns[p.i].status.Committed?;
      if s.commitIdx < c.n { assert W.TOk(W.WaveView(s), s.commitIdx); }
    } else {
      assert s'.need == s.need by { SameNeed(c, s, u, s'); }
    }
  }

  lemma SameNeed(c: Config, s: State, u: nat, s': State)
    requires Step(c, s, u, s')
    requires !(s.pc[u].Fin? && s.pc[u].fin.Decrease?) && !(s.pc[u].FinAbort? && s.pc[u].fa.AbortDecrease?)
    ensures s'.need == s.need
  {}

  lemma CommitStep(c: Config, s: State, u: nat, s': State)
    requires InvOwn(c, s) && W.InvWave(c, s) && InvCommit(c, s) && Step(c, s, u, s')
    ensures InvCommit(c, s') && s'.commitIdx == s.commitIdx && SameCommitted(s, s')
    ensures forall i :: 0 <= i < s.commitIdx ==> s'.need[i] == s.need[i]
  {
    ShapeStep(c, s, u, s');
    CommittedStays(c, s, u, s');
    NeedStays(c, s, u, s');
  }

  lemma CommitCommit(c: Config, s: State)
    requires W.InvWave(c, s) && InvCommit(c, s)
    ensures InvCommit(c, TryCommit(c, s))
  {
    var i := s.commitIdx;
    if i < c.n {
      assert W.TOk(W.WaveView(s), i);
      if i + 1 < c.n { assert W.TOk(W.WaveView(s), i + 1); }
    }
  }
}
