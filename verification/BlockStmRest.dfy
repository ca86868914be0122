/**
 Workers come to rest.  A worker that runs while the others stand still gets back to the top of
 its loop or falls asleep waiting for a dependency: every step brings it nearer, because a
 version begun while nobody else moves is not aborted.
 */
module BlockStmRest {
  import opened BlockStm
  import opened BlockStmView
  import opened BlockStmSafety
  import opened BlockStmProgress
  import opened BlockStmAborts
  import M = BlockStmMemory
  import S = BlockStmSerial

  // ---------------------------------------------------------------- resting workers

  /** At the top of the loop, or asleep. */
  predicate Rests(s: State, p: Pc) { p == Idle(Top) || Sleeps(s, p) }

  /** The worker holds the list of a lower transaction. */
  predicate HoldsList(p: Pc) { p.Exec? && (p.ex.HoldDep? || p.ex.PushDep?) }

  predicate HoldsLock(p: Pc) {
    match p
    case Exec(_, _, _, ex) => ex.HoldDep? || ex.PushDep? || ex.Locked?
    case Fin(_, _, _) => true
    case Aborter(_, _, ab) => ab.AbortLocked?
    case FinAbort(_, _, _) => true
    case _ => false
  }

  /** Nobody but `u` holds a lock. */
  predicate Alone(s: State, u: nat) {
    forall v :: 0 <= v < |s.pc| && v != u ==> !HoldsLock(s.pc[v])
  }

  lemma Unblocked(c: Config, s: State, u: nat)
    requires Inv(c, s) && u < c.workers && Alone(s, u) && !Sleeps(s, s.pc[u])
    ensures PcShape(c, s.pc[u]) && !Blocked(s, s.pc[u])
  {
    var p := s.pc[u];
    Knows(c, s, u);
    if !p.Idle? {
      KnowsTxn(c, s, TxnOf(p));
      if p.Exec? && p.ex.WantDep? { KnowsTxn(c, s, p.ex.d); }
    }
  }

  /** The worker holds a lock, and no list is in its way. */
  predicate MayRelease(s: State, u: nat)
    requires u < |s.pc|
  {
    HoldsLock(s.pc[u]) && (HoldsList(s.pc[u]) || forall v :: 0 <= v < |s.pc| ==> !HoldsList(s.pc[v]))
  }

  lemma HolderUnblocked(c: Config, s: State, u: nat)
    requires Inv(c, s) && u < c.workers && MayRelease(s, u)
    ensures PcShape(c, s.pc[u]) && !Blocked(s, s.pc[u])
  {
    Knows(c, s, u);
    KnowsTxn(c, s, TxnOf(s.pc[u]));
  }

  lemma AsleepIsStuck(c: Config, s: State, u: nat)
    requires u < |s.pc| && Sleeps(s, s.pc[u])
    ensures !CanStep(c, s, u)
  {}

  // ---------------------------------------------------------------- how far a worker is from resting

  /** The places a worker passes on its way, in order. */
  function Stage(p: Pc): nat {
    match p
    case Idle(f) => if f.LoadVal? then 30 else if f.LoadEx? then 29 else if f.FetchVal? || f.FetchEx? then 28 else 0
    case GotVal(_, _) => 27
    case GotEx(_) => 27
    case Exec(_, _, _, ex) => ExecStage(ex)
    case Fin(_, _, f) => if f.Take? then 18 else if f.Resume? then 17 else if f.Load? then 16 else 15
    case Val(_, _, _, v) => if v.Task? then 14 else if v.Check? then 13 else if v.Failed? then 12 else 11
    case Aborter(_, _, ab) => if ab.LoadKeys? then 10 else if ab.Mark? then 9 else 8
    case FinAbort(_, _, fa) => if fa.AbortDecrease? then 7 else if fa.AbortLoadEx? then 6 else 5
    case Signal(_, _, _) => 4
  }

  function ExecStage(ex: ExecPc): nat {
    match ex
    case Waiting(_, _) => 26
    case Running => 25
    case WantDep(_) => 25
    case HoldDep(_) => 24
    case PushDep(_, _) => 23
    case Apply(_, _, _, _) => 22
    case RecordOut(_, _) => 21
    case WantLock(_) => 20
    case Locked(_) => 19
  }

  /** What is left to do at one place. */
  ghost function Left(p: Pc, gas: nat): nat {
    match p
    case Exec(_, _, hist, ex) =>
      if ex.Apply? then Updates(ex.todo, ex.prev)
      else if (ex.Running? || ex.WantDep?) && |hist| < gas then gas - |hist| else 0
    case Fin(_, _, f) => if f.Resume? then |f.todo| else 0
    case Val(_, _, _, v) => if v.Check? && v.p <= |v.hist| then |v.hist| - v.p else 0
    case Aborter(_, _, ab) => if ab.Mark? then |ab.todo| else 0
    case _ => 0
  }

  /** A dependency that has been executed is read again; one that has not is waited for. */
  predicate Again(s: State, p: Pc) {
    p.Exec? && p.ex.WantDep? && p.ex.d < |s.txns| && IsExecuted(s.txns[p.ex.d].status)
  }

  function Turn(s: State, p: Pc): nat { if Again(s, p) then 2 else if p.Exec? && p.ex.Running? then 1 else 0 }

  /** At its own stage the worker has come closer. */
  ghost predicate Closer(s: State, p: Pc, s': State, p': Pc, gas: nat) {
    || Stage(p') < Stage(p)
    || (Stage(p') == Stage(p)
        && (Left(p', gas) < Left(p, gas) || (Left(p', gas) == Left(p, gas) && Turn(s', p') < Turn(s, p))))
  }

  lemma CloserFree(c: Config, s: State, u: nat, p: Pc, s': State)
    requires Step(c, s, u, s') && p == s.pc[u] && (p.Idle? || p.GotVal? || p.GotEx? || p.Signal?) && p != Idle(Top)
    ensures Rests(s', s'.pc[u]) || Stage(s'.pc[u]) < Stage(p)
  {}

  /** What is waited for has an estimate, so it is not executed. */
  lemma {:induction false} EstimateNotExecuted(c: Config, s: State, k: Key, i: nat)
    requires M.InvMem(c, s) && i <= c.n && MvGet(s.txns, k, i).Dependency?
    ensures MvGet(s.txns, k, i).idx < c.n && !IsExecuted(s.txns[MvGet(s.txns, k, i).idx].status)
  {
    if k in s.txns[i - 1].mv { assert M.TxnOk(c, s.log, i - 1, M.MemAt(s, i - 1)); }
    else { EstimateNotExecuted(c, s, k, i - 1); }
  }

  lemma CloserRun(c: Config, gas: nat, s: State, u: nat, p: Pc)
    requires M.InvMem(c, s) && Shape(c, s) && S.Metered(c, gas)
    requires u < c.workers && p == s.pc[u] && PcShape(c, p) && p.Exec? && p.ex.Running?
    ensures var s' := RunStep(c, s, u, p); Closer(s, p, s', s'.pc[u], gas)
  {
    var vm := c.vm(p.i, Vals(p.hist));
    if vm.ReadKey? && ViewRead(c, s, p.i, vm.key).None? { EstimateNotExecuted(c, s, vm.key, p.i); }
  }

  lemma {:induction false} Smaller<A>(a: set<A>, b: set<A>)
    requires a <= b
    ensures |a| <= |b|
  {
    if x :| x in a { Smaller(a - {x}, b - {x}); }
  }

  /** Updates left to apply. */
  function Updates(todo: map<Key, WriteOp>, prev: set<Key>): nat { |todo| + |prev| }

  lemma FewerWrites(todo: map<Key, WriteOp>, prev: set<Key>, k: Key)
    requires k in todo
    ensures Updates(todo - {k}, prev - {k}) < Updates(todo, prev)
  {
    assert (todo - {k}).Keys == todo.Keys - {k};
    assert |todo.Keys| == |todo| && |(todo - {k}).Keys| == |todo - {k}|;
    Smaller(prev - {k}, prev);
  }

  lemma FewerDeletes(todo: map<Key, WriteOp>, prev: set<Key>, k: Key)
    requires k in prev
    ensures Updates(todo, prev - {k}) < Updates(todo, prev)
  {
    assert |prev - {k}| == |prev| - 1;
  }

  lemma ApplyGoes(c: Config, s: State, u: nat, p: Pc, s': State)
    requires Shape(c, s) && u < c.workers && p == s.pc[u] && PcShape(c, p)
    requires p.Exec? && p.ex.Apply? && ApplyStep(c, s, u, p, s')
    ensures var p' := s'.pc[u];
            && p'.Exec?
            && (p'.ex.RecordOut?
                || (p'.ex.Apply? && Updates(p'.ex.todo, p'.ex.prev) < Updates(p.ex.todo, p.ex.prev)))
  {
    if p.ex.todo != map[] {
      var k :| k in p.ex.todo && s' == AddWriteStep(c, s, u, p, k);
      FewerWrites(p.ex.todo, p.ex.prev, k);
    } else if p.ex.prev != {} {
      var k :| k in p.ex.prev && s' == DeleteStep(c, s, u, p, k);
      FewerDeletes(p.ex.todo, p.ex.prev, k);
    }
  }

  lemma CloserOn(c: Config, gas: nat, s: State, u: nat, p: Pc, s': State)
    requires InvOwn(c, s) && u < c.workers && p == s.pc[u] && PcShape(c, p) && !Panics(c, s, u)
    requires p.Exec? && !p.ex.Running? && !p.ex.Apply? && ExecStep(c, s, u, p, s')
    ensures Rests(s', s'.pc[u]) || Closer(s, p, s', s'.pc[u], gas)
  {
    if p.ex.PushDep? { Knows(c, s, u); }
  }

  lemma CloserExec(c: Config, gas: nat, s: State, u: nat, p: Pc, s': State)
    requires InvOwn(c, s) && M.InvMem(c, s) && S.Metered(c, gas)
    requires u < c.workers && p == s.pc[u] && PcShape(c, p) && !Panics(c, s, u) && p.Exec? && ExecStep(c, s, u, p, s')
    ensures Rests(s', s'.pc[u]) || Closer(s, p, s', s'.pc[u], gas)
  {
    if p.ex.Running? { CloserRun(c, gas, s, u, p); }
    else if p.ex.Apply? {
      ApplyGoes(c, s, u, p, s');
    } else { CloserOn(c, gas, s, u, p, s'); }
  }

  lemma CloserFin(c: Config, gas: nat, s: State, u: nat, p: Pc, s': State)
    requires Shape(c, s) && u < c.workers && p == s.pc[u] && PcShape(c, p) && !Panics(c, s, u)
    requires p.Fin? && FinStep(c, s, u, p, s')
    ensures s'.pc[u] == Idle(Top) || Closer(s, p, s', s'.pc[u], gas)
  {}

  lemma CloserVal(c: Config, gas: nat, s: State, u: nat, p: Pc, s': State)
    requires Shape(c, s) && u < c.workers && p == s.pc[u] && PcShape(c, p) && !Panics(c, s, u)
    requires p.Val? && ValStep(c, s, u, p, s')
    ensures s'.pc[u] == Idle(Top) || Closer(s, p, s', s'.pc[u], gas)
  {}

  lemma CloserMark(c: Config, gas: nat, s: State, u: nat, p: Pc, k: Key)
    requires Shape(c, s) && u < c.workers && p == s.pc[u] && PcShape(c, p)
    requires p.Aborter? && p.ab.Mark? && k in p.ab.todo && k in s.txns[p.i].mv
    ensures var s' := MarkStep(c, s, u, p, k); Closer(s, p, s', s'.pc[u], gas)
  {
    assert |p.ab.todo - {k}| == |p.ab.todo| - 1;
  }

  lemma CloserAbort(c: Config, gas: nat, s: State, u: nat, p: Pc, s': State)
    requires Shape(c, s) && u < c.workers && p == s.pc[u] && PcShape(c, p) && !Panics(c, s, u)
    requires p.Aborter? && AbortStep(c, s, u, p, s')
    ensures Closer(s, p, s', s'.pc[u], gas)
  {
    if p.ab.Mark? && p.ab.todo != {} {
      var k :| k in p.ab.todo && s' == MarkStep(c, s, u, p, k);
      CloserMark(c, gas, s, u, p, k);
    }
  }

  lemma CloserFinAbort(c: Config, s: State, u: nat, p: Pc, s': State)
    requires Shape(c, s) && u < c.workers && p == s.pc[u] && PcShape(c, p)
    requires p.FinAbort? && FinAbortStep(c, s, u, p, s')
    ensures || s'.pc[u] == Idle(Top) || Stage(s'.pc[u]) < Stage(p)
            || (s'.pc[u].Exec? && s'.pc[u].i == p.i && Begins(s.txns[p.i], s'.txns[p.i], s'.pc[u].inc))
  {}

  // ---------------------------------------------------------------- versions that will not be aborted

  /** The map entries of all transactions but `i` are the same. */
  predicate OnlyMapOf(s: State, s': State, i: nat) {
    |s.txns| == |s'.txns| && forall w :: 0 <= w < |s.txns| && w != i ==> s'.txns[w].mv == s.txns[w].mv
  }

  predicate SameMap(s: State, s': State) {
    |s.txns| == |s'.txns| && forall w :: 0 <= w < |s.txns| ==> s'.txns[w].mv == s.txns[w].mv
  }

  lemma MapExec(c: Config, s: State, u: nat, p: Pc, s': State)
    requires Shape(c, s) && u < c.workers && p == s.pc[u] && PcShape(c, p) && !Panics(c, s, u)
    requires p.Exec? && ExecStep(c, s, u, p, s')
    ensures OnlyMapOf(s, s', p.i)
  {
    if p.ex.Apply? { CalmApply(c, s, u, p, s'); }
  }

  lemma MapFin(c: Config, s: State, u: nat, p: Pc, s': State)
    requires Shape(c, s) && u < c.workers && p == s.pc[u] && PcShape(c, p) && !Panics(c, s, u)
    requires p.Fin? && FinStep(c, s, u, p, s')
    ensures SameMap(s, s')
  {}

  lemma MapVal(c: Config, s: State, u: nat, p: Pc, s': State)
    requires Shape(c, s) && u < c.workers && p == s.pc[u] && PcShape(c, p) && !Panics(c, s, u)
    requires p.Val? && ValStep(c, s, u, p, s')
    ensures SameMap(s, s')
  {}

  lemma MapAborter(c: Config, s: State, u: nat, p: Pc, s': State)
    requires Shape(c, s) && u < c.workers && p == s.pc[u] && PcShape(c, p) && !Panics(c, s, u)
    requires p.Aborter? && AbortStep(c, s, u, p, s')
    ensures OnlyMapOf(s, s', p.i)
  {}

  lemma MapFinAbort(c: Config, s: State, u: nat, p: Pc, s': State)
    requires Shape(c, s) && u < c.workers && p == s.pc[u] && PcShape(c, p)
    requires p.FinAbort? && FinAbortStep(c, s, u, p, s')
    ensures SameMap(s, s')
  {}

  lemma MapFree(c: Config, s: State, u: nat, p: Pc, s': State)
    requires Step(c, s, u, s') && p == s.pc[u] && (p.Idle? || p.GotVal? || p.GotEx? || p.Signal?)
    ensures SameMap(s, s')
  {}

  /** Only the run of a transaction and whoever aborts it change its entries. */
  lemma MapStep(c: Config, s: State, u: nat, p: Pc, s': State)
    requires Step(c, s, u, s') && p == s.pc[u]
    ensures if p.Exec? || p.Aborter? then OnlyMapOf(s, s', p.i) else SameMap(s, s')
  {
    match p
    case Exec(_, _, _, _) => MapExec(c, s, u, p, s');
    case Fin(_, _, _) => MapFin(c, s, u, p, s');
    case Val(_, _, _, _) => MapVal(c, s, u, p, s');
    case Aborter(_, _, _) => MapAborter(c, s, u, p, s');
    case FinAbort(_, _, _) => MapFinAbort(c, s, u, p, s');
    case _ => MapFree(c, s, u, p, s');
  }

  /** The worker runs, finishes or validates a version in which nothing read has changed. */
  ghost predicate Young(s: State, p: Pc) {
    p == Idle(Top) || ((p.Exec? || p.Fin? || p.Val?) && p.i < |s.txns| && Fresh(s, p.i, p.inc))
  }

  /** It stays with its version, or aborts it, or is done with it. */
  predicate SameTask(p: Pc, p': Pc) {
    || p' == Idle(Top)
    || ((p'.Exec? || p'.Fin? || p'.Val? || p'.Aborter?) && TxnOf(p') == TxnOf(p) && IncOf(p') == IncOf(p))
  }

  function IncOf(p: Pc): nat {
    match p
    case Exec(_, inc, _, _) => inc
    case Fin(_, inc, _) => inc
    case Val(_, inc, _, _) => inc
    case Aborter(_, inc, _) => inc
    case _ => 0
  }

  lemma TaskExec(c: Config, s: State, u: nat, p: Pc, s': State)
    requires Shape(c, s) && u < c.workers && p == s.pc[u] && PcShape(c, p) && !Panics(c, s, u)
    requires p.Exec? && ExecStep(c, s, u, p, s')
    ensures SameTask(p, s'.pc[u])
  {
    if p.ex.Apply? { CalmApply(c, s, u, p, s'); }
  }

  lemma TaskFin(c: Config, s: State, u: nat, p: Pc, s': State)
    requires Shape(c, s) && u < c.workers && p == s.pc[u] && PcShape(c, p) && !Panics(c, s, u)
    requires p.Fin? && FinStep(c, s, u, p, s')
    ensures SameTask(p, s'.pc[u])
  {}

  lemma TaskVal(c: Config, s: State, u: nat, p: Pc, s': State)
    requires Shape(c, s) && u < c.workers && p == s.pc[u] && PcShape(c, p) && !Panics(c, s, u)
    requires p.Val? && ValStep(c, s, u, p, s')
    ensures SameTask(p, s'.pc[u])
  {}

  lemma TaskStep(c: Config, s: State, u: nat, p: Pc, s': State)
    requires Step(c, s, u, s') && p == s.pc[u] && (p.Exec? || p.Fin? || p.Val?)
    ensures SameBelow(s, s', p.i) && SameTask(p, s'.pc[u])
  {
    MapStep(c, s, u, p, s');
    if p.Exec? { TaskExec(c, s, u, p, s'); }
    else if p.Fin? { TaskFin(c, s, u, p, s'); }
    else { TaskVal(c, s, u, p, s'); }
  }

  lemma YoungStep(c: Config, s: State, u: nat, p: Pc, s': State)
    requires InvOwn(c, s) && InvOwn(c, s') && Step(c, s, u, s') && p == s.pc[u] && Young(s, p) && p != Idle(Top)
    ensures Young(s', s'.pc[u])
  {
    TaskStep(c, s, u, p, s');
    FreshStep(c, s, u, s', p.i, p.inc);
    if s'.pc[u].Aborter? { Knows(c, s', u); }
  }

  lemma YoungBegins(c: Config, s: State, u: nat, p: Pc, s': State)
    requires InvOwn(c, s) && InvOwn(c, s') && Step(c, s, u, s') && p == s.pc[u] && p.FinAbort? && s'.pc[u].Exec?
    requires s'.pc[u].i == p.i && Begins(s.txns[p.i], s'.txns[p.i], s'.pc[u].inc)
    ensures Young(s', s'.pc[u])
  {
    FreshBegins(c, s, s', p.i, s'.pc[u].inc);
  }

  function Age(young: bool): nat { if young then 0 else 1 }

  /** The worker has come closer to resting. */
  ghost predicate Nearer(s: State, p: Pc, s': State, p': Pc, gas: nat) {
    || Age(Young(s', p')) < Age(Young(s, p))
    || (Age(Young(s', p')) == Age(Young(s, p)) && Closer(s, p, s', p', gas))
  }

  lemma NearerStep(c: Config, gas: nat, s: State, u: nat, p: Pc, s': State)
    requires Inv(c, s) && InvOwn(c, s') && S.Metered(c, gas) && Step(c, s, u, s') && p == s.pc[u] && p != Idle(Top)
    ensures Rests(s', s'.pc[u]) || Nearer(s, p, s', s'.pc[u], gas)
  {
    if Young(s, p) { YoungStep(c, s, u, p, s'); }
    match p
    case Exec(_, _, _, _) => CloserExec(c, gas, s, u, p, s');
    case Fin(_, _, _) => CloserFin(c, gas, s, u, p, s');
    case Val(_, _, _, _) => CloserVal(c, gas, s, u, p, s');
    case Aborter(_, _, _) => CloserAbort(c, gas, s, u, p, s');
    case FinAbort(_, _, _) =>
      CloserFinAbort(c, s, u, p, s');
      if s'.pc[u].Exec? && s'.pc[u].i == p.i && Begins(s.txns[p.i], s'.txns[p.i], s'.pc[u].inc) {
        YoungBegins(c, s, u, p, s');
      }
    case _ => CloserFree(c, s, u, p, s');
  }

  // ---------------------------------------------------------------- sleeping and waking

  /** Every condition variable is as it was. */
  predicate SameSignals(s: State, s': State) {
    |s.cvs| <= |s'.cvs| && forall q :: 0 <= q < |s.cvs| ==> s'.cvs[q] == s.cvs[q]
  }

  lemma SignalsExec(c: Config, s: State, u: nat, p: Pc, s': State)
    requires Shape(c, s) && u < c.workers && p == s.pc[u] && PcShape(c, p) && !Panics(c, s, u)
    requires p.Exec? && ExecStep(c, s, u, p, s')
    ensures SameSignals(s, s')
  {
    if p.ex.Apply? { CalmApply(c, s, u, p, s'); }
  }

  lemma SignalsFin(c: Config, s: State, u: nat, p: Pc, s': State)
    requires Shape(c, s) && u < c.workers && p == s.pc[u] && PcShape(c, p) && !Panics(c, s, u)
    requires p.Fin? && FinStep(c, s, u, p, s')
    ensures SameSignals(s, s')
  {}

  /** Whoever signals is at the top right afterwards. */
  lemma SignalsStep(c: Config, s: State, u: nat, s': State)
    requires Step(c, s, u, s') && Shape(c, s')
    ensures s'.pc[u] == Idle(Top) || SameSignals(s, s')
  {
    var p := s.pc[u];
    if p.Exec? { SignalsExec(c, s, u, p, s'); }
    else if p.Fin? { SignalsFin(c, s, u, p, s'); }
  }

  predicate AtList(p: Pc) { p.Exec? && (p.ex.HoldDep? || p.ex.PushDep? || p.ex.Waiting?) }

  lemma AwakeFin(c: Config, s: State, u: nat, p: Pc, s': State)
    requires Shape(c, s) && u < c.workers && p == s.pc[u] && PcShape(c, p) && !Panics(c, s, u)
    requires p.Fin? && FinStep(c, s, u, p, s')
    ensures !AtList(s'.pc[u])
  {}

  lemma AwakeVal(c: Config, s: State, u: nat, p: Pc, s': State)
    requires Shape(c, s) && u < c.workers && p == s.pc[u] && PcShape(c, p) && !Panics(c, s, u)
    requires p.Val? && ValStep(c, s, u, p, s')
    ensures !AtList(s'.pc[u])
  {}

  lemma AwakeFree(c: Config, s: State, u: nat, p: Pc, s': State)
    requires Step(c, s, u, s') && Shape(c, s') && p == s.pc[u] && (p.Idle? || p.GotVal? || p.GotEx? || p.Signal?)
    ensures !AtList(s'.pc[u])
  {}

  lemma AwakeAbort(c: Config, s: State, u: nat, p: Pc, s': State)
    requires Shape(c, s) && u < c.workers && p == s.pc[u] && PcShape(c, p) && !Panics(c, s, u)
    requires (p.Aborter? && AbortStep(c, s, u, p, s')) || (p.FinAbort? && FinAbortStep(c, s, u, p, s'))
    ensures !AtList(s'.pc[u])
  {}

  /** Only runs get to the list of a lower transaction. */
  lemma AwakeStep(c: Config, s: State, u: nat, p: Pc, s': State)
    requires Step(c, s, u, s') && Shape(c, s') && p == s.pc[u] && !p.Exec?
    ensures !AtList(s'.pc[u])
  {
    match p
    case Fin(_, _, _) => AwakeFin(c, s, u, p, s');
    case Val(_, _, _, _) => AwakeVal(c, s, u, p, s');
    case Aborter(_, _, _) => AwakeAbort(c, s, u, p, s');
    case FinAbort(_, _, _) => AwakeAbort(c, s, u, p, s');
    case _ => AwakeFree(c, s, u, p, s');
  }

  /** A worker that falls asleep has just been suspended. */
  lemma FallsAsleep(c: Config, s: State, u: nat, s': State)
    requires InvOwn(c, s) && Shape(c, s') && Step(c, s, u, s') && !Sleeps(s, s.pc[u]) && Sleeps(s', s'.pc[u])
    ensures s'.pc[u].i < c.n && s'.txns[s'.pc[u].i].status.Suspended?
  {
    var p := s.pc[u];
    if p.Exec? {
      SleepsExec(c, s, u, p, s');
      Knows(c, s, u);
    } else { AwakeStep(c, s, u, p, s'); }
  }

  lemma SleepsExec(c: Config, s: State, u: nat, p: Pc, s': State)
    requires InvOwn(c, s) && u < c.workers && p == s.pc[u] && PcShape(c, p) && !Panics(c, s, u)
    requires p.Exec? && ExecStep(c, s, u, p, s') && !Sleeps(s, p) && Sleeps(s', s'.pc[u])
    ensures p.ex.PushDep? && s'.pc[u].i == p.i && s'.txns[p.i].status == s.txns[p.i].status
  {}

  lemma ListExec(c: Config, s: State, u: nat, p: Pc, s': State)
    requires Shape(c, s) && u < c.workers && p == s.pc[u] && PcShape(c, p) && !Panics(c, s, u)
    requires p.Exec? && ExecStep(c, s, u, p, s')
    ensures HoldsList(s'.pc[u]) ==> p.ex.WantDep? || p.ex.HoldDep?
    ensures HoldsList(p) ==> AtList(s'.pc[u])
  {}

  /** A list is locked only by a run that wants to wait for it, and until it does. */
  lemma ListStep(c: Config, s: State, u: nat, p: Pc, s': State)
    requires Step(c, s, u, s') && Shape(c, s') && p == s.pc[u]
    ensures HoldsList(s'.pc[u]) ==> p.Exec? && (p.ex.WantDep? || p.ex.HoldDep?)
    ensures HoldsList(p) ==> AtList(s'.pc[u])
  {
    if p.Exec? { ListExec(c, s, u, p, s'); } else { AwakeStep(c, s, u, p, s'); }
  }

  /** A worker stays with its transaction until it is at the top again. */
  lemma SameTxn(c: Config, s: State, u: nat, p: Pc, s': State)
    requires Step(c, s, u, s') && Shape(c, s') && p == s.pc[u] && !p.Idle?
    ensures s'.pc[u] == Idle(Top) || (!s'.pc[u].Idle? && TxnOf(s'.pc[u]) == TxnOf(p))
  {
    if p.Exec? || p.Fin? || p.Val? { TaskStep(c, s, u, p, s'); }
  }
}
