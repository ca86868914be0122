/**
 How much is left to do for a transaction.  Its rank says how far it is from its last execution,
 whether its run has yet to be woken, and where the worker that runs or aborts it and the worker
 that finishes it are.  Every step of such a worker lowers the rank of its transaction and leaves
 those of lower transactions alone; steps that only look lower no rank.
 */
module BlockStmRanks {
  import opened Options
  import opened BlockStm
  import opened BlockStmView
  import opened BlockStmSafety
  import opened BlockStmProgress
  import opened BlockStmAborts
  import opened BlockStmRest
  import opened BlockStmSettled
  import D = BlockStmDependencies
  import M = BlockStmMemory
  import S = BlockStmSerial

  datatype Rank = Rank(phase: nat, sleep: nat, stage: nat, left: nat, turn: nat, lockStage: nat, lockLeft: nat)

  /** Ready to be woken, about to be woken, awake, about to wait, waiting. */
  function SleepRank(t: Txn, own: Pc): nat {
    match t.status
    case Ready(_, cv) => if cv.Some? then 5 else 0
    case Executing(_) => if t.sig.Some? then 4 else 3
    case Suspended(_, _) => if own.Exec? && own.ex.PushDep? then 2 else 1
    case _ => 0
  }

  function OwnerPc(s: State, y: nat): Pc
    requires y < |s.txns|
  {
    PcOf(s, s.txns[y].owner)
  }

  /** The worker in finish_execution or finish_abort of `y`, if there is one. */
  function FinisherPc(s: State, y: nat): Pc
    requires y < |s.txns|
  {
    var lock := PcOf(s, s.txns[y].vlock);
    if Lowers(lock) then lock else Idle(Top)
  }

  ghost function RankOf(s: State, y: nat, gas: nat): Rank
    requires y < |s.txns|
  {
    var own, lock := OwnerPc(s, y), FinisherPc(s, y);
    Rank(Phase(s, y), SleepRank(s.txns[y], own), Stage(own), Left(own, gas), Turn(s, own), Stage(lock), Left(lock, gas))
  }

  predicate Less(a: Rank, b: Rank) {
    || a.phase < b.phase
    || (a.phase == b.phase && a.sleep < b.sleep)
    || (a.phase == b.phase && a.sleep == b.sleep && a.stage < b.stage)
    || (a.phase == b.phase && a.sleep == b.sleep && a.stage == b.stage && a.left < b.left)
    || (a.phase == b.phase && a.sleep == b.sleep && a.stage == b.stage && a.left == b.left && a.turn < b.turn)
    || (a.phase == b.phase && a.sleep == b.sleep && a.stage == b.stage && a.left == b.left && a.turn == b.turn
        && (a.lockStage < b.lockStage || (a.lockStage == b.lockStage && a.lockLeft < b.lockLeft)))
  }

  // ---------------------------------------------------------------- what a rank depends on

  /** What the rank of `z` is about is the same. */
  predicate SameRecord(t: Txn, t': Txn) {
    t'.status == t.status && t'.input == t.input && t'.owner == t.owner && t'.vlock == t.vlock && t'.sig == t.sig
  }

  /** No validator of `z` moved. */
  predicate SameValidators(s: State, s': State, z: nat) {
    |s.pc| == |s'.pc| && forall v :: 0 <= v < |s.pc| ==>
      s'.pc[v] == s.pc[v] || (!(s.pc[v].Val? && s.pc[v].i == z) && !(s'.pc[v].Val? && s'.pc[v].i == z))
  }

  ghost predicate SameAround(s: State, s': State, z: nat) {
    && SameBelow(s, s', z) && z < |s.txns|
    && SameRecord(s.txns[z], s'.txns[z]) && OwnerPc(s', z) == OwnerPc(s, z) && FinisherPc(s', z) == FinisherPc(s, z)
    && (forall d :: 0 <= d < z ==> IsExecuted(s'.txns[d].status) == IsExecuted(s.txns[d].status))
    && SameValidators(s, s', z)
  }

  lemma FreshFrame(s: State, s': State, z: nat, inc: nat)
    requires SameAround(s, s', z) && Fresh(s, z, inc)
    ensures Fresh(s', z, inc)
  {
    var t := s.txns[z];
    if IsExecuted(t.status) { MatchStays(s, s', z, t.input.value); }
    else { MatchStays(s, s', z, OwnerPc(s, z).hist); }
    forall v | 0 <= v < |s'.pc| ensures ValFresh(s'.pc[v], z, inc, s'.txns[z].input) {
      assert ValFresh(s.pc[v], z, inc, t.input);
    }
  }

  lemma PhaseFrame(s: State, s': State, z: nat)
    requires SameAround(s, s', z)
    ensures Phase(s', z) == Phase(s, z)
  {
    var inc := s.txns[z].status.inc;
    if Fresh(s, z, inc) { FreshFrame(s, s', z, inc); }
    if Fresh(s', z, inc) {
      assert SameAround(s', s, z);
      FreshFrame(s', s, z, inc);
    }
  }

  /** The dependency that a run waits for is below it. */
  predicate WaitsBelow(p: Pc, z: nat) { p.Exec? && p.ex.WantDep? ==> p.ex.d < z }

  lemma RankFrame(s: State, s': State, z: nat, gas: nat)
    requires SameAround(s, s', z) && WaitsBelow(OwnerPc(s, z), z)
    ensures RankOf(s', z, gas) == RankOf(s, z, gas)
  {
    PhaseFrame(s, s', z);
  }

  lemma OwnerWaitsBelow(c: Config, s: State, z: nat)
    requires InvOwn(c, s) && z < c.n
    ensures WaitsBelow(OwnerPc(s, z), z)
  {
    KnowsTxn(c, s, z);
    if s.txns[z].owner.Some? { Knows(c, s, s.txns[z].owner.value); }
  }

  // ---------------------------------------------------------------- steps on a higher transaction

  ghost predicate SameRecordsBelow(s: State, s': State, y: nat) {
    |s.txns| == |s'.txns| && y <= |s.txns| && forall w :: 0 <= w < y ==> SameRecord(s.txns[w], s'.txns[w])
  }

  lemma BelowExec(c: Config, s: State, u: nat, p: Pc, s': State)
    requires Shape(c, s) && u < c.workers && p == s.pc[u] && PcShape(c, p) && !Panics(c, s, u)
    requires p.Exec? && ExecStep(c, s, u, p, s')
    ensures SameRecordsBelow(s, s', p.i)
  {
    if p.ex.Apply? { CalmApply(c, s, u, p, s'); }
  }

  lemma BelowFin(c: Config, s: State, u: nat, p: Pc, s': State)
    requires InvOwn(c, s) && D.InvDep(c, s) && u < c.workers && p == s.pc[u] && PcShape(c, p) && !Panics(c, s, u)
    requires p.Fin? && FinStep(c, s, u, p, s')
    ensures SameRecordsBelow(s, s', p.i)
  {
    if p.fin.Resume? && p.fin.todo != [] { ResumesAbove(c, s, u, p); }
  }

  /** Only higher transactions are resumed. */
  lemma ResumesAbove(c: Config, s: State, u: nat, p: Pc)
    requires InvOwn(c, s) && D.InvDep(c, s) && u < c.workers && p == s.pc[u]
    requires p.Fin? && p.fin.Resume? && p.fin.todo != []
    ensures p.fin.todo[0] > p.i
  {
    Knows(c, s, u);
    var ds := D.DepView(s);
    assert ds[p.i] == D.DepAt(s, p.i) && D.DepOk(ds, p.i);
    var all := ds[p.i].todo + ds[p.i].deps;
    assert all[0] == p.fin.todo[0] && D.Listed(ds, all[0], p.i);
  }

  lemma BelowVal(c: Config, s: State, u: nat, p: Pc, s': State)
    requires Shape(c, s) && u < c.workers && p == s.pc[u] && PcShape(c, p) && !Panics(c, s, u)
    requires p.Val? && ValStep(c, s, u, p, s')
    ensures SameRecordsBelow(s, s', p.i)
  {}

  lemma BelowAborter(c: Config, s: State, u: nat, p: Pc, s': State)
    requires Shape(c, s) && u < c.workers && p == s.pc[u] && PcShape(c, p) && !Panics(c, s, u)
    requires p.Aborter? && AbortStep(c, s, u, p, s')
    ensures SameRecordsBelow(s, s', p.i)
  {}

  lemma BelowFinAbort(c: Config, s: State, u: nat, p: Pc, s': State)
    requires Shape(c, s) && u < c.workers && p == s.pc[u] && PcShape(c, p)
    requires p.FinAbort? && FinAbortStep(c, s, u, p, s')
    ensures SameRecordsBelow(s, s', p.i)
  {}

  lemma BelowFree(c: Config, s: State, u: nat, p: Pc, s': State)
    requires Step(c, s, u, s') && p == s.pc[u] && (p.GotVal? || p.GotEx? || p.Signal?)
    ensures SameRecordsBelow(s, s', TxnOf(p))
  {}

  lemma RecordsBelow(c: Config, s: State, u: nat, p: Pc, s': State)
    requires InvOwn(c, s) && D.InvDep(c, s) && Step(c, s, u, s') && p == s.pc[u] && !p.Idle?
    ensures SameRecordsBelow(s, s', TxnOf(p))
  {
    match p
    case Exec(_, _, _, _) => BelowExec(c, s, u, p, s');
    case Fin(_, _, _) => BelowFin(c, s, u, p, s');
    case Val(_, _, _, _) => BelowVal(c, s, u, p, s');
    case Aborter(_, _, _) => BelowAborter(c, s, u, p, s');
    case FinAbort(_, _, _) => BelowFinAbort(c, s, u, p, s');
    case _ => BelowFree(c, s, u, p, s');
  }

  /** Its owner and its finisher are not a worker that is busy with another transaction. */
  lemma Elsewhere(c: Config, s: State, u: nat, z: nat)
    requires InvOwn(c, s) && u < c.workers && z < c.n && (s.pc[u].Idle? || TxnOf(s.pc[u]) != z)
    ensures s.txns[z].owner != Some(u) && s.txns[z].vlock != Some(u)
  {
    KnowsTxn(c, s, z);
    Knows(c, s, u);
  }

  /** A step on a higher transaction does not touch the rank of `z`. */
  lemma AboveSame(c: Config, s: State, u: nat, p: Pc, s': State, z: nat, gas: nat)
    requires InvOwn(c, s) && D.InvDep(c, s) && Step(c, s, u, s') && p == s.pc[u] && !p.Idle? && z < TxnOf(p)
    ensures z < c.n && RankOf(s', z, gas) == RankOf(s, z, gas)
  {
    ShapeStep(c, s, u, s');
    RecordsBelow(c, s, u, p, s');
    MapStep(c, s, u, p, s');
    SameTxn(c, s, u, p, s');
    Elsewhere(c, s, u, z);
    OwnerWaitsBelow(c, s, z);
    assert SameAround(s, s', z);
    RankFrame(s, s', z, gas);
  }

  // ---------------------------------------------------------------- steps that only look

  /** The step runs, wakes, aborts or finishes something. */
  predicate Effective(s: State, u: nat, s': State)
    requires u < |s.pc| && u < |s'.pc|
  {
    match s.pc[u]
    case Idle(_) => false
    case GotVal(_, _) => false
    case GotEx(i) => i < |s.txns| && s.txns[i].status.Ready?
    case Val(_, _, _, _) => s'.pc[u].Aborter?
    case _ => true
  }

  ghost predicate SameRecords(s: State, s': State) { SameRecordsBelow(s, s', |s.txns|) }

  lemma LooksVal(c: Config, s: State, u: nat, p: Pc, s': State)
    requires Shape(c, s) && u < c.workers && p == s.pc[u] && PcShape(c, p) && !Panics(c, s, u)
    requires p.Val? && ValStep(c, s, u, p, s') && !s'.pc[u].Aborter?
    ensures SameRecords(s, s')
  {}

  lemma LooksFree(c: Config, s: State, u: nat, p: Pc, s': State)
    requires Step(c, s, u, s') && Shape(c, s') && p == s.pc[u] && (p.Idle? || p.GotVal? || p.GotEx?)
    requires !Effective(s, u, s')
    ensures SameRecords(s, s')
  {}

  lemma LooksRecords(c: Config, s: State, u: nat, p: Pc, s': State)
    requires Step(c, s, u, s') && Shape(c, s') && p == s.pc[u] && !Effective(s, u, s')
    ensures SameRecords(s, s') && SameMap(s, s')
  {
    MapStep(c, s, u, p, s');
    if p.Val? { LooksVal(c, s, u, p, s'); } else { LooksFree(c, s, u, p, s'); }
  }

  /** A worker that is not idle afterwards either is or stays with its transaction. */
  lemma LooksElsewhere(c: Config, s: State, u: nat, p: Pc, s': State, z: nat)
    requires InvOwn(c, s) && Shape(c, s') && Step(c, s, u, s') && p == s.pc[u] && !Effective(s, u, s') && z < c.n
    ensures s.txns[z].owner != Some(u) && s.txns[z].vlock != Some(u)
    ensures p.Idle? ==> !s'.pc[u].Val?
  {
    KnowsTxn(c, s, z);
    Knows(c, s, u);
  }

  lemma LooksAt(c: Config, s: State, u: nat, p: Pc, s': State, gas: nat)
    requires InvOwn(c, s) && InvOwn(c, s') && Step(c, s, u, s') && p == s.pc[u] && !Effective(s, u, s') && !p.Idle?
    ensures var z := TxnOf(p);
            z < c.n && (RankOf(s', z, gas) == RankOf(s, z, gas) || Less(RankOf(s', z, gas), RankOf(s, z, gas)))
  {
    var z := TxnOf(p);
    ShapeStep(c, s, u, s');
    LooksRecords(c, s, u, p, s');
    LooksElsewhere(c, s, u, p, s', z);
    OwnerWaitsBelow(c, s, z);
    PhaseBelow(c, s, u, s', z);
  }

  lemma LooksPast(c: Config, s: State, u: nat, p: Pc, s': State, z: nat, gas: nat)
    requires InvOwn(c, s) && Shape(c, s') && Step(c, s, u, s') && p == s.pc[u] && !Effective(s, u, s') && z < c.n
    requires p.Idle? || TxnOf(p) != z
    ensures RankOf(s', z, gas) == RankOf(s, z, gas)
  {
    ShapeStep(c, s, u, s');
    LooksRecords(c, s, u, p, s');
    LooksElsewhere(c, s, u, p, s', z);
    OwnerWaitsBelow(c, s, z);
    if !p.Idle? { SameTxn(c, s, u, p, s'); }
    assert SameAround(s, s', z);
    RankFrame(s, s', z, gas);
  }

  /** A step that only looks lowers no rank but possibly that of the transaction it looks at. */
  lemma LooksSame(c: Config, s: State, u: nat, p: Pc, s': State, z: nat, gas: nat)
    requires InvOwn(c, s) && InvOwn(c, s') && Step(c, s, u, s') && p == s.pc[u] && !Effective(s, u, s') && z < c.n
    ensures RankOf(s', z, gas) == RankOf(s, z, gas) || Less(RankOf(s', z, gas), RankOf(s, z, gas))
    ensures p.Idle? || TxnOf(p) != z ==> RankOf(s', z, gas) == RankOf(s, z, gas)
  {
    if p.Idle? || TxnOf(p) != z { LooksPast(c, s, u, p, s', z, gas); } else { LooksAt(c, s, u, p, s', gas); }
  }

  // ---------------------------------------------------------------- steps that do something

  /** What a step on `y` does to its phase. */
  lemma PhaseOwn(c: Config, s: State, u: nat, p: Pc, s': State)
    requires InvOwn(c, s) && InvOwn(c, s') && Step(c, s, u, s') && p == s.pc[u] && !p.Idle?
    ensures TxnOf(p) < c.n && Phase(s', TxnOf(p)) <= Phase(s, TxnOf(p))
  {
    ShapeStep(c, s, u, s');
    MapStep(c, s, u, p, s');
    PhaseBelow(c, s, u, s', TxnOf(p));
  }

  lemma DropsGotEx(c: Config, s: State, u: nat, p: Pc, s': State, gas: nat)
    requires InvOwn(c, s) && InvOwn(c, s') && Step(c, s, u, s') && p == s.pc[u] && p.GotEx? && Effective(s, u, s')
    ensures Less(RankOf(s', p.i, gas), RankOf(s, p.i, gas))
  {
    PhaseOwn(c, s, u, p, s');
    KnowsTxn(c, s, p.i);
    if s.txns[p.i].status.cv.None? { FreshBegins(c, s, s', p.i, s.txns[p.i].status.inc); }
  }

  lemma DropsSignal(c: Config, s: State, u: nat, p: Pc, s': State, gas: nat)
    requires InvOwn(c, s) && InvOwn(c, s') && Step(c, s, u, s') && p == s.pc[u] && p.Signal?
    ensures Less(RankOf(s', p.i, gas), RankOf(s, p.i, gas))
  {
    PhaseOwn(c, s, u, p, s');
    Knows(c, s, u);
  }

  /** A run moves on: it ends, goes to sleep, or comes closer. */
  lemma RunMoves(c: Config, s: State, u: nat, p: Pc, s': State)
    requires InvOwn(c, s) && u < c.workers && p == s.pc[u] && PcShape(c, p) && !Panics(c, s, u)
    requires p.Exec? && ExecStep(c, s, u, p, s')
    ensures var t, t' := s.txns[p.i], s'.txns[p.i];
            if p.ex.Locked? then t'.status.Executed?
            else
              && t'.owner == t.owner && t'.sig == t.sig && s'.pc[u].Exec?
              && (if p.ex.HoldDep? then t'.status.Suspended? && s'.pc[u].ex.PushDep? else t'.status == t.status)
              && (if p.ex.PushDep? then s'.pc[u].ex.Waiting? else p.ex.HoldDep? || !s'.pc[u].ex.PushDep?)
  {
    if p.ex.Apply? { CalmApply(c, s, u, p, s'); }
  }

  /** The owner moves on, or the run goes towards sleep. */
  lemma OwnerDrops(s: State, u: nat, s': State, y: nat, gas: nat)
    requires y < |s.txns| && y < |s'.txns| && u < |s.pc| && u < |s'.pc|
    requires s.txns[y].owner == Some(u) && s'.txns[y].owner == Some(u) && Phase(s', y) <= Phase(s, y)
    requires var a, b := SleepRank(s'.txns[y], s'.pc[u]), SleepRank(s.txns[y], s.pc[u]);
             a < b || (a == b && Closer(s, s.pc[u], s', s'.pc[u], gas))
    ensures Less(RankOf(s', y, gas), RankOf(s, y, gas))
  {}

  lemma RunSleep(c: Config, gas: nat, s: State, u: nat, p: Pc, s': State)
    requires InvOwn(c, s) && M.InvMem(c, s) && S.Metered(c, gas) && u < c.workers && p == s.pc[u]
    requires PcShape(c, p) && !Panics(c, s, u) && p.Exec? && ExecStep(c, s, u, p, s') && !p.ex.Locked?
    ensures s.txns[p.i].owner == Some(u) && s'.txns[p.i].owner == Some(u)
    ensures var a, b := SleepRank(s'.txns[p.i], s'.pc[u]), SleepRank(s.txns[p.i], p);
            a < b || (a == b && Closer(s, p, s', s'.pc[u], gas))
  {
    Knows(c, s, u);
    KnowsTxn(c, s, p.i);
    RunMoves(c, s, u, p, s');
    CloserExec(c, gas, s, u, p, s');
    if Sleeps(s', s'.pc[u]) && !Sleeps(s, p) { SleepsExec(c, s, u, p, s'); }
  }

  lemma DropsExec(c: Config, s: State, u: nat, p: Pc, s': State, gas: nat)
    requires InvOwn(c, s) && M.InvMem(c, s) && S.Metered(c, gas) && InvOwn(c, s') && Step(c, s, u, s')
    requires p == s.pc[u] && p.Exec?
    ensures Less(RankOf(s', p.i, gas), RankOf(s, p.i, gas))
  {
    PhaseOwn(c, s, u, p, s');
    if p.ex.Locked? {
      Knows(c, s, u);
      RunMoves(c, s, u, p, s');
    } else {
      RunSleep(c, gas, s, u, p, s');
      OwnerDrops(s, u, s', p.i, gas);
    }
  }

  /** Whoever finishes a version holds its lock, moves on, and in the end lets it go. */
  lemma FinisherMoves(c: Config, s: State, u: nat, p: Pc, s': State)
    requires InvOwn(c, s) && D.InvDep(c, s) && u < c.workers && p == s.pc[u] && PcShape(c, p) && !Panics(c, s, u)
    requires p.Fin? && FinStep(c, s, u, p, s')
    ensures var t, t' := s.txns[p.i], s'.txns[p.i];
            && t.vlock == Some(u) && t'.status == t.status && t'.owner == t.owner && t'.sig == t.sig
            && (t'.vlock.None? || (t'.vlock == Some(u) && s'.pc[u].Fin?))
  {
    Knows(c, s, u);
    if p.fin.Resume? && p.fin.todo != [] { ResumesAbove(c, s, u, p); }
  }

  /** The owner is somebody else, who did not move, or there is none. */
  lemma OwnerStands(c: Config, s: State, u: nat, s': State, y: nat)
    requires InvOwn(c, s) && Moved(c, s, u, s') && y < c.n && s'.txns[y].owner == s.txns[y].owner
    requires Lowers(s.pc[u])
    ensures OwnerPc(s', y) == OwnerPc(s, y)
  {
    KnowsTxn(c, s, y);
  }

  /** The finisher moves on or lets the lock go. */
  lemma FinisherDrops(c: Config, s: State, u: nat, s': State, y: nat, gas: nat)
    requires y < |s.txns| && y < |s'.txns| && u < |s.pc| && u < |s'.pc| && Phase(s', y) <= Phase(s, y)
    requires s'.txns[y].status == s.txns[y].status && s'.txns[y].sig == s.txns[y].sig
    requires OwnerPc(s', y) == OwnerPc(s, y) && Turn(s', OwnerPc(s, y)) == Turn(s, OwnerPc(s, y))
    requires s.txns[y].vlock == Some(u) && Lowers(s.pc[u])
    requires s'.txns[y].vlock.None? || (s'.txns[y].vlock == Some(u) && Closer(s, s.pc[u], s', s'.pc[u], gas))
    ensures Less(RankOf(s', y, gas), RankOf(s, y, gas))
  {}

  /** Nobody below became executed or aborted. */
  lemma SameTurn(c: Config, s: State, u: nat, p: Pc, s': State)
    requires InvOwn(c, s) && D.InvDep(c, s) && Step(c, s, u, s') && p == s.pc[u] && !p.Idle?
    ensures TxnOf(p) < c.n && Turn(s', OwnerPc(s, TxnOf(p))) == Turn(s, OwnerPc(s, TxnOf(p)))
  {
    RecordsBelow(c, s, u, p, s');
    OwnerWaitsBelow(c, s, TxnOf(p));
  }

  lemma DropsFin(c: Config, s: State, u: nat, p: Pc, s': State, gas: nat)
    requires InvOwn(c, s) && D.InvDep(c, s) && InvOwn(c, s') && Step(c, s, u, s') && p == s.pc[u] && p.Fin?
    ensures Less(RankOf(s', p.i, gas), RankOf(s, p.i, gas))
  {
    ShapeStep(c, s, u, s');
    PhaseOwn(c, s, u, p, s');
    FinisherMoves(c, s, u, p, s');
    OwnerStands(c, s, u, s', p.i);
    SameTurn(c, s, u, p, s');
    CloserFin(c, gas, s, u, p, s');
    FinisherDrops(c, s, u, s', p.i, gas);
  }

  lemma AbortsVersion(c: Config, s: State, u: nat, p: Pc, s': State)
    requires Shape(c, s) && u < c.workers && p == s.pc[u] && PcShape(c, p) && !Panics(c, s, u)
    requires p.Val? && ValStep(c, s, u, p, s') && s'.pc[u].Aborter?
    ensures s.txns[p.i].status.Executed? && s'.txns[p.i].status.Aborting?
  {}

  lemma DropsVal(c: Config, s: State, u: nat, p: Pc, s': State, gas: nat)
    requires InvOwn(c, s) && InvOwn(c, s') && Step(c, s, u, s') && p == s.pc[u] && p.Val? && s'.pc[u].Aborter?
    ensures Less(RankOf(s', p.i, gas), RankOf(s, p.i, gas))
  {
    PhaseOwn(c, s, u, p, s');
    AbortsVersion(c, s, u, p, s');
  }

  lemma AborterMoves(c: Config, s: State, u: nat, p: Pc, s': State)
    requires InvOwn(c, s) && u < c.workers && p == s.pc[u] && PcShape(c, p) && !Panics(c, s, u)
    requires p.Aborter? && AbortStep(c, s, u, p, s')
    ensures var t, t' := s.txns[p.i], s'.txns[p.i];
            && t.status.Aborting? && t.owner == Some(u)
            && (if p.ab.AbortLocked? then t'.status.Ready? && t'.status.cv.None?
                else t'.status == t.status && t'.owner == Some(u))
  {
    Knows(c, s, u);
  }

  lemma DropsAborter(c: Config, s: State, u: nat, p: Pc, s': State, gas: nat)
    requires InvOwn(c, s) && InvOwn(c, s') && Step(c, s, u, s') && p == s.pc[u] && p.Aborter?
    ensures Less(RankOf(s', p.i, gas), RankOf(s, p.i, gas))
  {
    PhaseOwn(c, s, u, p, s');
    AborterMoves(c, s, u, p, s');
    if p.ab.AbortLocked? { KnowsTxn(c, s', p.i); }
    else {
      CloserAbort(c, gas, s, u, p, s');
      OwnerDrops(s, u, s', p.i, gas);
    }
  }

  lemma ReschedulerMoves(c: Config, s: State, u: nat, p: Pc, s': State)
    requires InvOwn(c, s) && u < c.workers && p == s.pc[u] && PcShape(c, p) && !Panics(c, s, u)
    requires p.FinAbort? && FinAbortStep(c, s, u, p, s')
    ensures var t, t' := s.txns[p.i], s'.txns[p.i];
            && t.vlock == Some(u)
            && (if p.fa.Reincarnate? && t.status.Ready? then t'.status.Executing?
                else
                  && t'.status == t.status && t'.owner == t.owner && t'.sig == t.sig
                  && (t'.vlock.None? || (t'.vlock == Some(u) && s'.pc[u].FinAbort?)))
  {
    Knows(c, s, u);
  }

  lemma DropsReincarnate(c: Config, s: State, u: nat, p: Pc, s': State, gas: nat)
    requires InvOwn(c, s) && InvOwn(c, s') && Step(c, s, u, s') && p == s.pc[u]
    requires p.FinAbort? && p.fa.Reincarnate? && s.txns[p.i].status.Ready?
    ensures Less(RankOf(s', p.i, gas), RankOf(s, p.i, gas))
  {
    PhaseOwn(c, s, u, p, s');
    KnowsTxn(c, s, p.i);
    if s.txns[p.i].status.cv.None? { FreshBegins(c, s, s', p.i, s.txns[p.i].status.inc); }
  }

  lemma DropsFinAbort(c: Config, s: State, u: nat, p: Pc, s': State, gas: nat)
    requires InvOwn(c, s) && D.InvDep(c, s) && InvOwn(c, s') && Step(c, s, u, s') && p == s.pc[u] && p.FinAbort?
    ensures Less(RankOf(s', p.i, gas), RankOf(s, p.i, gas))
  {
    ShapeStep(c, s, u, s');
    ReschedulerMoves(c, s, u, p, s');
    if p.fa.Reincarnate? && s.txns[p.i].status.Ready? { DropsReincarnate(c, s, u, p, s', gas); }
    else {
      PhaseOwn(c, s, u, p, s');
      OwnerStands(c, s, u, s', p.i);
      SameTurn(c, s, u, p, s');
      CloserFinAbort(c, s, u, p, s');
      FinisherDrops(c, s, u, s', p.i, gas);
    }
  }

  /** A step that runs, wakes, aborts or finishes something lowers the rank of its transaction. */
  lemma Drops(c: Config, s: State, u: nat, p: Pc, s': State, gas: nat)
    requires Inv(c, s) && Inv(c, s') && S.Metered(c, gas) && Step(c, s, u, s') && p == s.pc[u] && Effective(s, u, s')
    ensures TxnOf(p) < c.n && Less(RankOf(s', TxnOf(p), gas), RankOf(s, TxnOf(p), gas))
  {
    match p
    case GotEx(_) => DropsGotEx(c, s, u, p, s', gas);
    case Signal(_, _, _) => DropsSignal(c, s, u, p, s', gas);
    case Exec(_, _, _, _) => DropsExec(c, s, u, p, s', gas);
    case Fin(_, _, _) => DropsFin(c, s, u, p, s', gas);
    case Val(_, _, _, _) => DropsVal(c, s, u, p, s', gas);
    case Aborter(_, _, _) => DropsAborter(c, s, u, p, s', gas);
    case FinAbort(_, _, _) => DropsFinAbort(c, s, u, p, s', gas);
  }

  // ---------------------------------------------------------------- all steps

  lemma CommitAround(c: Config, s: State, y: nat)
    requires Shape(c, s) && y < c.n && !(y == s.commitIdx < TryCommit(c, s).commitIdx)
    ensures SameAround(s, TryCommit(c, s), y)
  {}

  lemma RankCommit(c: Config, s: State, y: nat, gas: nat)
    requires Inv(c, s) && y < c.n
    ensures var s' := TryCommit(c, s);
            if y == s.commitIdx < s'.commitIdx then Less(RankOf(s', y, gas), RankOf(s, y, gas))
            else RankOf(s', y, gas) == RankOf(s, y, gas)
  {
    var s' := TryCommit(c, s);
    if !(y == s.commitIdx < s'.commitIdx) {
      OwnerWaitsBelow(c, s, y);
      CommitAround(c, s, y);
      RankFrame(s, s', y, gas);
    }
  }

  /** As long as the ranks below it stay, the rank of a transaction does not grow. */
  lemma RankNext(c: Config, gas: nat, s: State, s': State, y: nat)
    requires Inv(c, s) && Inv(c, s') && S.Metered(c, gas) && Next(c, s, s') && y < c.n
    requires forall z :: 0 <= z < y ==> RankOf(s', z, gas) == RankOf(s, z, gas)
    ensures RankOf(s', y, gas) == RankOf(s, y, gas) || Less(RankOf(s', y, gas), RankOf(s, y, gas))
  {
    if s' == TryCommit(c, s) { RankCommit(c, s, y, gas); }
    else {
      var u :| Step(c, s, u, s');
      RankStep(c, gas, s, u, s', y);
    }
  }

  lemma RankStep(c: Config, gas: nat, s: State, u: nat, s': State, y: nat)
    requires Inv(c, s) && Inv(c, s') && S.Metered(c, gas) && Step(c, s, u, s') && y < c.n
    requires forall z :: 0 <= z < y ==> RankOf(s', z, gas) == RankOf(s, z, gas)
    ensures RankOf(s', y, gas) == RankOf(s, y, gas) || Less(RankOf(s', y, gas), RankOf(s, y, gas))
  {
    var p := s.pc[u];
    if !Effective(s, u, s') { LooksSame(c, s, u, p, s', y, gas); }
    else {
      Drops(c, s, u, p, s', gas);
      if y < TxnOf(p) { AboveSame(c, s, u, p, s', y, gas); }
    }
  }
}
