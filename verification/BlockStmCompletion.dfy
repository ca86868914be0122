/**
 The block can always be finished: from every state of every run there is a continuation that
 commits the whole block, in which the committing worker commits only between its tasks.

 Workers that hold locks run until they hold none.  Then single workers run until they rest, and
 one gets to the top of its loop, since not all can be asleep.  From there on transactions are
 settled in block order: whoever is busy with the next one runs until it rests; then a worker at
 the top fetches what is missing.  At the end the committing worker commits everything.
 */
module BlockStmCompletion {
  import opened BlockStm
  import opened BlockStmView
  import opened BlockStmSafety
  import opened BlockStmProgress
  import opened BlockStmAborts
  import opened BlockStmRest
  import opened BlockStmSettled
  import C = BlockStmCommit
  import D = BlockStmDependencies
  import V = BlockStmValidity
  import W = BlockStmWaves
  import T = BlockStmTasks
  import S = BlockStmSerial

  // ---------------------------------------------------------------- continuations by workers

  ghost predicate Works(c: Config, s: State, s': State) {
    exists u :: Step(c, s, u, s')
  }

  ghost predicate WorkAt(c: Config, tr: seq<State>, k: nat)
    requires k + 1 < |tr|
  {
    Works(c, tr[k], tr[k + 1])
  }

  ghost predicate Work(c: Config, tr: seq<State>) {
    |tr| > 0 && forall k :: 0 <= k < |tr| - 1 ==> WorkAt(c, tr, k)
  }

  /** Some steps of workers lead from `s` to `s'`. */
  ghost predicate Reach(c: Config, s: State, s': State) {
    exists tr :: Work(c, tr) && tr[0] == s && tr[|tr| - 1] == s'
  }

  lemma ReachSelf(c: Config, s: State)
    ensures Reach(c, s, s)
  {
    assert Work(c, [s]);
  }

  lemma ReachStep(c: Config, s: State, u: nat, s': State)
    requires Step(c, s, u, s')
    ensures Reach(c, s, s')
  {
    var tr := [s, s'];
    assert WorkAt(c, tr, 0);
    assert Work(c, tr);
  }

  lemma JoinWork(c: Config, tr: seq<State>, tr': seq<State>)
    requires Work(c, tr) && Work(c, tr') && tr[|tr| - 1] == tr'[0]
    ensures Work(c, tr + tr'[1..])
  {
    var all, n := tr + tr'[1..], |tr|;
    forall k | 0 <= k < |all| - 1 ensures WorkAt(c, all, k) {
      if k < n - 1 { assert WorkAt(c, tr, k); } else { assert WorkAt(c, tr', k - (n - 1)); }
    }
  }

  lemma ReachTrans(c: Config, s: State, s1: State, s2: State)
    requires Reach(c, s, s1) && Reach(c, s1, s2)
    ensures Reach(c, s, s2)
  {
    var tr :| Work(c, tr) && tr[0] == s && tr[|tr| - 1] == s1;
    var tr' :| Work(c, tr') && tr'[0] == s1 && tr'[|tr'| - 1] == s2;
    JoinWork(c, tr, tr');
    var all := tr + tr'[1..];
    assert all[0] == s && all[|all| - 1] == s2;
  }

  // ---------------------------------------------------------------- one worker moves

  /** Only worker `u` moved; what was settled stays settled, and the next transaction lost no ground. */
  ghost predicate Led(c: Config, s: State, u: nat, s': State) {
    && Reach(c, s, s') && Shape(c, s) && Shape(c, s')
    && s'.commitIdx == s.commitIdx && s'.done == s.done
    && (forall v :: 0 <= v < c.workers && v != u ==> s'.pc[v] == s.pc[v])
    && (forall y :: 0 <= y <= c.n && AllSettled(s, y) ==> AllSettled(s', y))
    && (forall y :: 0 <= y < c.n && AllSettled(s, y) ==> Phase(s', y) <= Phase(s, y))
  }

  lemma LedSelf(c: Config, s: State, u: nat)
    requires Shape(c, s)
    ensures Led(c, s, u, s)
  {
    ReachSelf(c, s);
  }

  lemma LedTrans(c: Config, s: State, u: nat, s1: State, s2: State)
    requires Led(c, s, u, s1) && Led(c, s1, u, s2)
    ensures Led(c, s, u, s2)
  {
    ReachTrans(c, s, s1, s2);
  }

  lemma LedStep(c: Config, s: State, u: nat, s': State)
    requires Inv(c, s) && Inv(c, s') && Step(c, s, u, s')
    ensures Led(c, s, u, s')
  {
    ReachStep(c, s, u, s');
    ShapeStep(c, s, u, s');
    forall y | 0 <= y <= c.n && AllSettled(s, y) ensures AllSettled(s', y) { AllStay(c, s, u, s', y); }
    forall y | 0 <= y < c.n && AllSettled(s, y) ensures Phase(s', y) <= Phase(s, y) { PhaseStep(c, s, u, s', y); }
  }

  /** The worker is busy with a transaction, everything below which is settled. */
  ghost predicate OnNext(s: State, p: Pc) { !p.Idle? && TxnOf(p) < |s.txns| && AllSettled(s, TxnOf(p)) }

  /** What one step of worker `u` does. */
  ghost predicate Moves(c: Config, gas: nat, s: State, u: nat, s': State)
    requires u < |s.pc|
  {
    && Led(c, s, u, s') && u < |s'.pc|
    && var p, p' := s.pc[u], s'.pc[u];
       && (Rests(s', p') || Nearer(s, p, s', p', gas))
       && (p' == Idle(Top) || SameSignals(s, s'))
       && (Sleeps(s', p') ==> p'.i < |s'.txns| && s'.txns[p'.i].status.Suspended?)
       && (HoldsList(p') ==> p.Exec? && (p.ex.WantDep? || p.ex.HoldDep?)) && (HoldsList(p) ==> AtList(p'))
       && (!p.Idle? ==> p' == Idle(Top) || (!p'.Idle? && TxnOf(p') == TxnOf(p)))
       && (OnNext(s, p) && !Lowers(p) ==>
             && TxnOf(p) < |s'.txns| && Steady(s, s', TxnOf(p))
             && (Lowers(p') ==> Phase(s', TxnOf(p)) < Phase(s, TxnOf(p))))
  }

  lemma MovesStep(c: Config, gas: nat, s: State, u: nat, s': State)
    requires Inv(c, s) && Inv(c, s') && S.Metered(c, gas) && Step(c, s, u, s') && !Rests(s, s.pc[u])
    ensures Moves(c, gas, s, u, s')
  {
    var p := s.pc[u];
    LedStep(c, s, u, s');
    NearerStep(c, gas, s, u, p, s');
    SignalsStep(c, s, u, s');
    if Sleeps(s', s'.pc[u]) { FallsAsleep(c, s, u, s'); }
    ListStep(c, s, u, p, s');
    if !p.Idle? { SameTxn(c, s, u, p, s'); }
    if OnNext(s, p) && !Lowers(p) { SteadyStep(c, s, u, p, s'); }
  }

  lemma Move(c: Config, gas: nat, s: State, u: nat) returns (s': State)
    requires Inv(c, s) && S.Metered(c, gas) && u < c.workers && !s.done && !Rests(s, s.pc[u])
    requires PcShape(c, s.pc[u]) && !Blocked(s, s.pc[u])
    ensures Inv(c, s') && Moves(c, gas, s, u, s')
  {
    Enabled(c, s, u);
    s' :| Step(c, s, u, s');
    StepInv(c, s, u, s');
    MovesStep(c, gas, s, u, s');
  }

  // ---------------------------------------------------------------- one worker runs until it rests

  /** What worker `u` running until it rests does. */
  ghost predicate Drives(c: Config, s: State, u: nat, s': State)
    requires u < |s.pc|
  {
    && Led(c, s, u, s') && u < |s'.pc|
    && var p, p' := s.pc[u], s'.pc[u];
       && Rests(s', p') && (p' == Idle(Top) || SameSignals(s, s'))
       && (Sleeps(s', p') && !Rests(s, p) ==> p'.i < |s'.txns| && s'.txns[p'.i].status.Suspended?)
       && (!p.Idle? ==> p' == Idle(Top) || (!p'.Idle? && TxnOf(p') == TxnOf(p)))
       && (OnNext(s, p) && !Lowers(p) ==> TxnOf(p) < |s'.txns| && Steady(s, s', TxnOf(p)))
  }

  lemma SteadyOn(c: Config, gas: nat, s: State, u: nat, s1: State, s2: State)
    requires u < |s.pc| && Moves(c, gas, s, u, s1) && Drives(c, s1, u, s2)
    requires !Rests(s1, s1.pc[u]) && OnNext(s, s.pc[u]) && !Lowers(s.pc[u])
    ensures TxnOf(s.pc[u]) < |s2.txns| && Steady(s, s2, TxnOf(s.pc[u]))
  {
    var x := TxnOf(s.pc[u]);
    assert AllSettled(s1, x) && Phase(s2, x) <= Phase(s1, x) <= Phase(s, x);
  }

  lemma DrivesOn(c: Config, gas: nat, s: State, u: nat, s1: State, s2: State)
    requires u < |s.pc| && Moves(c, gas, s, u, s1) && Drives(c, s1, u, s2) && !Rests(s1, s1.pc[u])
    ensures Drives(c, s, u, s2)
  {
    LedTrans(c, s, u, s1, s2);
    if OnNext(s, s.pc[u]) && !Lowers(s.pc[u]) { SteadyOn(c, gas, s, u, s1, s2); }
  }

  lemma {:induction false} Drive(c: Config, gas: nat, s: State, u: nat) returns (s': State)
    requires Inv(c, s) && S.Metered(c, gas) && u < c.workers && !s.done && Alone(s, u)
    ensures Inv(c, s') && Drives(c, s, u, s')
    decreases Age(Young(s, s.pc[u])), Stage(s.pc[u]), Left(s.pc[u], gas), Turn(s, s.pc[u])
  {
    if Rests(s, s.pc[u]) {
      LedSelf(c, s, u);
      s' := s;
    } else {
      Unblocked(c, s, u);
      var s1 := Move(c, gas, s, u);
      if Rests(s1, s1.pc[u]) { s' := s1; }
      else {
        s' := Drive(c, gas, s1, u);
        DrivesOn(c, gas, s, u, s1, s');
      }
    }
  }

  // ---------------------------------------------------------------- no locks

  function Holders(s: State): set<nat> { set v | 0 <= v < |s.pc| && HoldsLock(s.pc[v]) }

  lemma StillMayRelease(c: Config, gas: nat, s: State, u: nat, s': State)
    requires u < |s.pc| && MayRelease(s, u) && Moves(c, gas, s, u, s') && HoldsLock(s'.pc[u])
    ensures MayRelease(s', u) && Nearer(s, s.pc[u], s', s'.pc[u], gas)
  {}

  lemma {:induction false} Release(c: Config, gas: nat, s: State, u: nat) returns (s': State)
    requires Inv(c, s) && S.Metered(c, gas) && u < c.workers && !s.done && MayRelease(s, u)
    ensures Inv(c, s') && Led(c, s, u, s') && !HoldsLock(s'.pc[u])
    decreases Age(Young(s, s.pc[u])), Stage(s.pc[u]), Left(s.pc[u], gas), Turn(s, s.pc[u])
  {
    HolderUnblocked(c, s, u);
    var s1 := Move(c, gas, s, u);
    if HoldsLock(s1.pc[u]) {
      StillMayRelease(c, gas, s, u, s1);
      s' := Release(c, gas, s1, u);
      LedTrans(c, s, u, s1, s');
    } else { s' := s1; }
  }

  lemma PickHolder(s: State) returns (u: nat)
    requires Holders(s) != {}
    ensures u in Holders(s) && MayRelease(s, u)
  {
    if v :| 0 <= v < |s.pc| && HoldsList(s.pc[v]) { u := v; } else { u :| u in Holders(s); }
  }

  lemma FewerHolders(c: Config, s: State, u: nat, s': State)
    requires u in Holders(s) && Led(c, s, u, s') && u < |s'.pc| && !HoldsLock(s'.pc[u])
    ensures |Holders(s')| < |Holders(s)|
  {
    assert Holders(s') == Holders(s) - {u};
  }

  lemma {:induction false} FreeLocks(c: Config, gas: nat, s: State) returns (s': State)
    requires Inv(c, s) && S.Metered(c, gas) && !s.done
    ensures Inv(c, s') && Reach(c, s, s') && !s'.done && Holders(s') == {}
    decreases |Holders(s)|
  {
    if Holders(s) == {} {
      ReachSelf(c, s);
      s' := s;
    } else {
      var u := PickHolder(s);
      var s1 := Release(c, gas, s, u);
      FewerHolders(c, s, u, s1);
      s' := FreeLocks(c, gas, s1);
      ReachTrans(c, s, s1, s');
    }
  }

  lemma NotHolder(s: State, v: nat)
    requires Holders(s) == {} && v < |s.pc|
    ensures !HoldsLock(s.pc[v])
  {
    assert v !in Holders(s);
  }

  lemma NobodyElse(s: State, u: nat)
    requires Holders(s) == {}
    ensures Alone(s, u)
  {
    forall v | 0 <= v < |s.pc| ensures !HoldsLock(s.pc[v]) { NotHolder(s, v); }
  }

  lemma StillNone(c: Config, s: State, u: nat, s': State)
    requires Holders(s) == {} && Led(c, s, u, s') && u < |s'.pc| && !HoldsLock(s'.pc[u])
    ensures Holders(s') == {}
  {
    forall v | 0 <= v < |s'.pc| ensures !HoldsLock(s'.pc[v]) { if v != u { NotHolder(s, v); } }
  }

  // ---------------------------------------------------------------- a worker at the top

  function AwakeWorkers(s: State): set<nat> { set v | 0 <= v < |s.pc| && !Sleeps(s, s.pc[v]) }

  /** After a worker has fallen asleep, fewer are awake. */
  lemma FewerAwake(c: Config, s: State, u: nat, s': State)
    requires InvOwn(c, s) && u < c.workers && Led(c, s, u, s') && SameSignals(s, s')
    requires !Sleeps(s, s.pc[u]) && Sleeps(s', s'.pc[u])
    ensures |AwakeWorkers(s')| < |AwakeWorkers(s)|
  {
    forall v | v in AwakeWorkers(s') ensures v in AwakeWorkers(s) - {u} {
      if Sleeps(s, s.pc[v]) { Knows(c, s, v); }
    }
    Smaller(AwakeWorkers(s'), AwakeWorkers(s) - {u});
  }

  lemma FindAwake(c: Config, s: State) returns (u: nat)
    requires Inv(c, s) && !s.done && c.workers > 0
    ensures u < c.workers && !Sleeps(s, s.pc[u])
  {
    NoDeadlock(c, s, 0);
    u :| 0 <= u < c.workers && CanStep(c, s, u);
    if Sleeps(s, s.pc[u]) { AsleepIsStuck(c, s, u); }
  }

  lemma {:induction false} FreeWorker(c: Config, gas: nat, s: State) returns (s': State, m: nat)
    requires Inv(c, s) && S.Metered(c, gas) && !s.done && Holders(s) == {} && c.workers > 0
    ensures Inv(c, s') && Reach(c, s, s') && !s'.done && Holders(s') == {} && m < c.workers && s'.pc[m] == Idle(Top)
    decreases |AwakeWorkers(s)|
  {
    m := FindAwake(c, s);
    NobodyElse(s, m);
    var s1 := Drive(c, gas, s, m);
    StillNone(c, s, m, s1);
    if s1.pc[m] == Idle(Top) { s' := s1; }
    else {
      FewerAwake(c, s, m, s1);
      s', m := FreeWorker(c, gas, s1);
      ReachTrans(c, s, s1, s');
    }
  }

  // ---------------------------------------------------------------- taking a number

  lemma Taken(c: Config, s: State, m: nat, s': State)
    requires Inv(c, s) && Step(c, s, m, s')
    ensures Inv(c, s') && Led(c, s, m, s')
  {
    StepInv(c, s, m, s');
    LedStep(c, s, m, s');
  }

  lemma IdleGoes(c: Config, s: State, m: nat) returns (s': State)
    requires Inv(c, s) && m < c.workers && s.pc[m].Idle? && s.pc[m] != Idle(Exit)
    ensures s' == IdleStep(c, s, m, s.pc[m].idle) && Inv(c, s') && Led(c, s, m, s')
  {
    Safe(c, s, m);
    s' := IdleStep(c, s, m, s.pc[m].idle);
    Taken(c, s, m, s');
  }

  /** The lower of the two indices: next_task takes a number from it. */
  function FirstIndex(s: State): nat { if s.valIdx < s.exIdx then s.valIdx else s.exIdx }

  /** Nothing but the program counter changed. */
  predicate OnlyLooked(s: State, s': State) { s' == s.(pc := s'.pc) }

  /** The worker has decided which index to take a number from. */
  predicate Decided(s: State, p: Pc) { p == Idle(if s.valIdx < s.exIdx then FetchVal else FetchEx) }

  lemma Decides(c: Config, s: State, m: nat)
    requires Shape(c, s) && m < c.workers && FirstIndex(s) < c.n
    ensures var s' := IdleStep(c, s, m, LoadEx(s.valIdx)); OnlyLooked(s, s') && Decided(s', s'.pc[m])
  {}

  lemma LooksAtEx(c: Config, s: State, m: nat) returns (s': State)
    requires Inv(c, s) && m < c.workers && s.pc[m] == Idle(LoadEx(s.valIdx)) && FirstIndex(s) < c.n
    ensures Inv(c, s') && Led(c, s, m, s') && OnlyLooked(s, s') && Decided(s', s'.pc[m])
  {
    Decides(c, s, m);
    s' := IdleGoes(c, s, m);
  }

  lemma LooksAtVal(c: Config, s: State, m: nat) returns (s': State)
    requires Inv(c, s) && m < c.workers && s.pc[m] == Idle(LoadVal) && FirstIndex(s) < c.n
    ensures Inv(c, s') && Led(c, s, m, s') && OnlyLooked(s, s') && Decided(s', s'.pc[m])
  {
    var s1 := IdleGoes(c, s, m);
    s' := LooksAtEx(c, s1, m);
    LedTrans(c, s, m, s1, s');
  }

  /** Both indices are read. */
  lemma Looks(c: Config, s: State, m: nat) returns (s': State)
    requires Inv(c, s) && m < c.workers && s.pc[m] == Idle(Top) && !s.done && FirstIndex(s) < c.n
    ensures Inv(c, s') && Led(c, s, m, s') && OnlyLooked(s, s') && Decided(s', s'.pc[m])
  {
    var s1 := IdleGoes(c, s, m);
    s' := LooksAtVal(c, s1, m);
    LedTrans(c, s, m, s1, s');
  }

  /** The worker has taken the number FirstIndex. */
  predicate TookNumber(s: State, s': State, p': Pc) {
    && (p'.GotVal? || p'.GotEx?) && p'.i == FirstIndex(s) && Holding(s, s') && s'.valIdx + s'.exIdx > s.valIdx + s.exIdx
    && (p'.GotVal? ==> s'.valIdx == p'.i + 1) && (p'.GotEx? ==> s'.exIdx == p'.i + 1)
    && (forall x :: 0 <= x < |s.txns| ==> s'.txns[x].status == s.txns[x].status)
  }

  lemma NumberTaken(c: Config, s: State, m: nat, f: IdlePc)
    requires Shape(c, s) && m < c.workers && Decided(s, Idle(f)) && FirstIndex(s) < c.n
    ensures var s' := IdleStep(c, s, m, f); TookNumber(s, s', s'.pc[m])
  {}

  lemma TakesNumber(c: Config, s: State, m: nat) returns (s': State)
    requires Inv(c, s) && m < c.workers && Decided(s, s.pc[m]) && FirstIndex(s) < c.n
    ensures Inv(c, s') && Led(c, s, m, s') && TookNumber(s, s', s'.pc[m])
  {
    NumberTaken(c, s, m, s.pc[m].idle);
    s' := IdleGoes(c, s, m);
  }

  /** A worker at the top takes the next number. */
  lemma Fetches(c: Config, s: State, m: nat) returns (s': State)
    requires Inv(c, s) && m < c.workers && s.pc[m] == Idle(Top) && !s.done && FirstIndex(s) < c.n
    ensures Inv(c, s') && Led(c, s, m, s') && TookNumber(s, s', s'.pc[m])
  {
    var s1 := Looks(c, s, m);
    s' := TakesNumber(c, s1, m);
    LedTrans(c, s, m, s1, s');
  }

  // ---------------------------------------------------------------- when nobody is busy with the next transaction

  lemma NoVlock(c: Config, s: State, i: nat)
    requires Inv(c, s) && Holders(s) == {} && i < c.n
    ensures s.txns[i].vlock.None?
  {
    KnowsTxn(c, s, i);
    if s.txns[i].vlock.Some? {
      Knows(c, s, s.txns[i].vlock.value);
      NotHolder(s, s.txns[i].vlock.value);
    }
  }

  /** The transactions in the dependency list of `d`. */
  ghost function Dependents(c: Config, s: State, d: nat): seq<nat>
    requires Inv(c, s) && d < c.n
  {
    D.DepView(s)[d].todo + D.DepView(s)[d].deps
  }

  lemma SuspendedIsListed(c: Config, s: State, x: nat) returns (d: nat)
    requires Inv(c, s) && Holders(s) == {} && x < c.n && s.txns[x].status.Suspended?
    ensures d < x && x in Dependents(c, s, d)
  {
    KnowsTxn(c, s, x);
    var o := s.txns[x].owner.value;
    Knows(c, s, o);
    NotHolder(s, o);
    d := s.pc[o].ex.d;
    assert D.DepView(s)[x] == D.DepAt(s, x) && D.DepOk(D.DepView(s), x);
  }

  lemma ExecutedHasNone(c: Config, s: State, d: nat)
    requires Inv(c, s) && Holders(s) == {} && d < c.n && IsExecuted(s.txns[d].status)
    ensures Dependents(c, s, d) == []
  {
    NoVlock(c, s, d);
    assert D.DepView(s)[d] == D.DepAt(s, d) && D.DepOk(D.DepView(s), d);
  }

  /** Everything below is executed, so the next transaction is not suspended. */
  lemma NotSuspended(c: Config, s: State, x: nat)
    requires Inv(c, s) && Holders(s) == {} && x < c.n && AllSettled(s, x)
    ensures !s.txns[x].status.Suspended?
  {
    if s.txns[x].status.Suspended? {
      var d := SuspendedIsListed(c, s, x);
      assert Settled(s, d);
      ExecutedHasNone(c, s, d);
    }
  }

  /** Worker `u` is awake and busy with `x`. */
  predicate Busy(s: State, u: nat, x: nat) {
    u < |s.pc| && !s.pc[u].Idle? && TxnOf(s.pc[u]) == x && !Sleeps(s, s.pc[u])
  }

  lemma FindBusy(c: Config, s: State, x: nat) returns (u: nat)
    requires Inv(c, s) && x < c.n && (s.txns[x].status.Executing? || s.txns[x].status.Aborting?)
    ensures u < c.workers && Busy(s, u, x)
  {
    var t := s.txns[x];
    KnowsTxn(c, s, x);
    u := t.owner.value;
    Knows(c, s, u);
    if Sleeps(s, s.pc[u]) {
      u := t.sig.value;
      Knows(c, s, u);
    }
  }

  ghost predicate NobodyBusy(c: Config, s: State, x: nat) {
    forall u :: 0 <= u < c.workers ==> !Busy(s, u, x)
  }

  lemma ExecutedOrReady(c: Config, s: State, x: nat)
    requires Inv(c, s) && Holders(s) == {} && x < c.n && AllSettled(s, x) && NobodyBusy(c, s, x)
    ensures IsExecuted(s.txns[x].status) || s.txns[x].status.Ready?
  {
    NotSuspended(c, s, x);
    if s.txns[x].status.Executing? || s.txns[x].status.Aborting? { var u := FindBusy(c, s, x); }
  }

  /** The transaction waits for a worker to fetch it. */
  predicate Waits(s: State, x: nat)
    requires x < |s.txns|
  {
    (s.txns[x].status.Executed? && s.valIdx <= x) || (s.txns[x].status.Ready? && s.exIdx <= x)
  }

  /** It is committed, or executed and validated recently enough. */
  predicate Ripe(s: State, x: nat)
    requires x < |s.txns| && x < |s.need|
  {
    s.txns[x].status.Committed? || (s.txns[x].status.Executed? && T.Credited(s.txns[x].vstat, s.need[x]))
  }

  lemma WaitsOrRipe(c: Config, s: State, x: nat)
    requires Inv(c, s) && Holders(s) == {} && x < c.n && AllSettled(s, x) && NobodyBusy(c, s, x)
    ensures Waits(s, x) || Ripe(s, x)
  {
    var t := s.txns[x];
    ExecutedOrReady(c, s, x);
    NoVlock(c, s, x);
    assert T.TEx(s, x) && T.TVh(s, x);
    assert !Busy(s, t.hand, x) && !Busy(s, t.vhand, x);
    NotHolder(s, t.hand);
  }

  lemma NonePending(c: Config, s: State, x: nat)
    requires Inv(c, s) && x < c.n && AllSettled(s, x)
    ensures !V.PendBelow(s.txns, x)
  {
    forall z | 0 <= z < x ensures !V.Pending(s.txns[z]) {
      assert Settled(s, z);
      KnowsTxn(c, s, z);
    }
  }

  /** What was credited recently enough was credited rightly: the reads hold. */
  lemma RipeIsSettled(c: Config, s: State, x: nat)
    requires Inv(c, s) && Holders(s) == {} && x < c.n && AllSettled(s, x) && NobodyBusy(c, s, x) && Ripe(s, x)
    ensures AllSettled(s, x + 1)
  {
    var t := s.txns[x];
    NoVlock(c, s, x);
    NonePending(c, s, x);
    assert V.TVal(s, x);
    if t.status.Executed? {
      forall u | 0 <= u < |s.pc| ensures ValFresh(s.pc[u], x, t.status.inc, t.input) { assert !Busy(s, u, x); }
    }
    assert Settled(s, x);
  }

  // ---------------------------------------------------------------- settling the next transaction

  function Flag(b: bool): nat { if b then 1 else 0 }

  function BusyWith(s: State, x: nat): set<nat> { set v | 0 <= v < |s.pc| && !s.pc[v].Idle? && TxnOf(s.pc[v]) == x }

  function Gap(idx: nat, x: nat): nat { if idx <= x then x + 1 - idx else 0 }

  function Gaps(s: State, x: nat): nat { Gap(s.valIdx, x) + Gap(s.exIdx, x) }

  /** Transaction `x` came forward, or is not further from being fetched. */
  ghost predicate NotBack(s: State, s': State, x: nat)
    requires x < |s.txns| && x < |s'.txns|
  {
    || Phase(s', x) < Phase(s, x)
    || (Phase(s', x) == Phase(s, x) && Gaps(s', x) <= Gaps(s, x)
        && (s'.txns[x].status.Ready? ==> s.txns[x].status.Ready?))
  }

  /** A settled transaction has come forward as far as it can without a commit. */
  lemma SettledPhase(c: Config, s: State, s': State, z: nat)
    requires C.InvCommit(c, s) && C.InvCommit(c, s') && s'.commitIdx == s.commitIdx && z < c.n
    requires Settled(s, z) && Settled(s', z)
    ensures Phase(s', z) == Phase(s, z)
  {}

  lemma HoldingGaps(s: State, s': State, x: nat)
    requires Holding(s, s')
    ensures Gaps(s', x) <= Gaps(s, x)
  {}

  lemma NotBackAfter(c: Config, s: State, u: nat, s': State, x: nat)
    requires C.InvCommit(c, s) && C.InvCommit(c, s') && x < c.n && AllSettled(s, x)
    requires u < |s.pc| && !s.pc[u].Idle? && TxnOf(s.pc[u]) <= x && !Lowers(s.pc[u]) && Drives(c, s, u, s')
    ensures NotBack(s, s', x) && AllSettled(s', x)
  {
    var i := TxnOf(s.pc[u]);
    assert AllSettled(s, i) && AllSettled(s', x) && Steady(s, s', i) && Phase(s', x) <= Phase(s, x);
    if i < x {
      assert Settled(s, i) && Settled(s', i);
      SettledPhase(c, s, s', i);
    }
    if Holding(s, s') { HoldingGaps(s, s', x); }
  }

  lemma SettledNotSuspended(c: Config, s: State, i: nat, x: nat)
    requires Inv(c, s) && Holders(s) == {} && i <= x < c.n && AllSettled(s, x)
    ensures !s.txns[i].status.Suspended?
  {
    assert AllSettled(s, i);
    NotSuspended(c, s, i);
  }

  /** A worker at a transaction up to the next one gets to the top: it has nothing to sleep on. */
  lemma DriveNext(c: Config, gas: nat, s: State, u: nat, x: nat) returns (s': State)
    requires Inv(c, s) && S.Metered(c, gas) && !s.done && Holders(s) == {} && x < c.n && AllSettled(s, x)
    requires u < c.workers && !s.pc[u].Idle? && TxnOf(s.pc[u]) <= x && !Sleeps(s, s.pc[u])
    ensures Inv(c, s') && Led(c, s, u, s') && s'.pc[u] == Idle(Top) && Holders(s') == {} && AllSettled(s', x)
    ensures NotBack(s, s', x)
  {
    NobodyElse(s, u);
    NotHolder(s, u);
    s' := Drive(c, gas, s, u);
    NotBackAfter(c, s, u, s', x);
    StillNone(c, s, u, s');
    SettledNotSuspended(c, s', TxnOf(s.pc[u]), x);
  }

  lemma Incarnates(c: Config, s: State, m: nat, x: nat)
    requires Shape(c, s) && m < c.workers && x < c.n && s.txns[x].status.Ready?
    ensures var s' := TryIncarnate(c, s, m, x);
            s'.txns[x].status.Executing? && Busy(s', m, x) && !HoldsLock(s'.pc[m])
  {}

  /** The next transaction, once fetched, is executed or woken. */
  lemma StartsNext(c: Config, s: State, m: nat, x: nat) returns (s': State)
    requires Inv(c, s) && m < c.workers && x < c.n && s.pc[m] == GotEx(x) && s.txns[x].status.Ready?
    ensures Inv(c, s') && Led(c, s, m, s') && Busy(s', m, x) && !HoldsLock(s'.pc[m]) && !s'.txns[x].status.Ready?
  {
    Safe(c, s, m);
    Incarnates(c, s, m, x);
    s' := TryIncarnate(c, s, m, x);
    Taken(c, s, m, s');
  }

  lemma FewerBusy(c: Config, s: State, u: nat, s': State, x: nat)
    requires u in BusyWith(s, x) && Led(c, s, u, s') && u < |s'.pc| && s'.pc[u] == Idle(Top)
    ensures |BusyWith(s', x)| < |BusyWith(s, x)|
  {
    assert BusyWith(s', x) == BusyWith(s, x) - {u};
  }

  /** After a worker at the top has fetched something, the next transaction is nearer to being settled. */
  ghost predicate Came(s: State, s': State, x: nat)
    requires x < |s.txns| && x < |s'.txns|
  {
    || Phase(s', x) < Phase(s, x)
    || (Phase(s', x) == Phase(s, x)
        && (Flag(s'.txns[x].status.Ready?) < Flag(s.txns[x].status.Ready?)
            || (Flag(s'.txns[x].status.Ready?) == Flag(s.txns[x].status.Ready?) && Gaps(s', x) < Gaps(s, x))))
  }

  lemma NumberGaps(s: State, s1: State, p: Pc, x: nat)
    requires TookNumber(s, s1, p) && FirstIndex(s) <= x
    ensures Gaps(s1, x) < Gaps(s, x)
  {}

  lemma CameAfter(c: Config, s: State, m: nat, s1: State, s': State, x: nat)
    requires x < c.n && Led(c, s, m, s1) && Led(c, s1, m, s') && AllSettled(s, x) && m < |s1.pc|
    requires TookNumber(s, s1, s1.pc[m]) && FirstIndex(s) <= x
    requires NotBack(s1, s', x) || (s1.txns[x].status.Ready? && !s'.txns[x].status.Ready?)
    ensures Came(s, s', x) && AllSettled(s1, x) && AllSettled(s', x)
  {
    assert AllSettled(s1, x) && Phase(s1, x) <= Phase(s, x) && Phase(s', x) <= Phase(s1, x);
    NumberGaps(s, s1, s1.pc[m], x);
  }

  lemma FetchOne(c: Config, gas: nat, s: State, m: nat, x: nat) returns (s': State)
    requires Inv(c, s) && S.Metered(c, gas) && !s.done && Holders(s) == {} && x < c.n && AllSettled(s, x)
    requires m < c.workers && s.pc[m] == Idle(Top) && FirstIndex(s) <= x
    ensures Inv(c, s') && Led(c, s, m, s') && Holders(s') == {} && AllSettled(s', x)
    ensures s'.pc[m] == Idle(Top) || Busy(s', m, x)
    ensures Came(s, s', x)
  {
    var s1 := Fetches(c, s, m);
    StillNone(c, s, m, s1);
    assert AllSettled(s1, x);
    if s1.pc[m] == GotEx(x) && s1.txns[x].status.Ready? {
      s' := StartsNext(c, s1, m, x);
      StillNone(c, s1, m, s');
    } else {
      s' := DriveNext(c, gas, s1, m, x);
    }
    CameAfter(c, s, m, s1, s', x);
    LedTrans(c, s, m, s1, s');
  }

  lemma {:induction false} Settle(c: Config, gas: nat, s: State, m: nat, x: nat) returns (s': State, m': nat)
    requires Inv(c, s) && S.Metered(c, gas) && !s.done && Holders(s) == {} && x < c.n && AllSettled(s, x)
    requires m < c.workers && (s.pc[m] == Idle(Top) || Busy(s, m, x))
    ensures Inv(c, s') && Reach(c, s, s') && !s'.done && Holders(s') == {} && AllSettled(s', x + 1)
    ensures m' < c.workers && s'.pc[m'] == Idle(Top)
    decreases Phase(s, x), Flag(s.txns[x].status.Ready?), Gaps(s, x), |BusyWith(s, x)|
  {
    if u :| 0 <= u < c.workers && Busy(s, u, x) {
      var s1 := DriveNext(c, gas, s, u, x);
      FewerBusy(c, s, u, s1, x);
      s', m' := Settle(c, gas, s1, u, x);
      ReachTrans(c, s, s1, s');
    } else {
      WaitsOrRipe(c, s, x);
      if Ripe(s, x) {
        RipeIsSettled(c, s, x);
        ReachSelf(c, s);
        s', m' := s, m;
      } else {
        var s1 := FetchOne(c, gas, s, m, x);
        s', m' := Settle(c, gas, s1, m, x);
        ReachTrans(c, s, s1, s');
      }
    }
  }

  lemma {:induction false} SettleAll(c: Config, gas: nat, s: State, m: nat, x: nat) returns (s': State)
    requires Inv(c, s) && S.Metered(c, gas) && !s.done && Holders(s) == {} && x <= c.n && AllSettled(s, x)
    requires m < c.workers && s.pc[m] == Idle(Top)
    ensures Inv(c, s') && Reach(c, s, s') && !s'.done && Holders(s') == {} && AllSettled(s', c.n)
    decreases c.n - x
  {
    if x == c.n {
      ReachSelf(c, s);
      s' := s;
    } else {
      var s1, m1 := Settle(c, gas, s, m, x);
      s' := SettleAll(c, gas, s1, m1, x + 1);
      ReachTrans(c, s, s1, s');
    }
  }

  // ---------------------------------------------------------------- the committing worker

  lemma NobodySleeps(c: Config, s: State, u: nat)
    requires Inv(c, s) && u < c.workers && AllSettled(s, c.n)
    ensures !Sleeps(s, s.pc[u])
  {
    Knows(c, s, u);
    if Sleeps(s, s.pc[u]) { SettledUnowned(c, s, s.pc[u].i); }
  }

  /** The worker is at the top, and next_task has nothing for it. */
  predicate MayCommit(c: Config, s: State, b: nat) {
    b < |s.pc| && s.pc[b] == Idle(Top) && s.valIdx >= c.n && s.exIdx >= c.n
  }

  lemma GetsToTop(c: Config, gas: nat, s: State, b: nat) returns (s': State)
    requires Inv(c, s) && S.Metered(c, gas) && !s.done && Holders(s) == {} && AllSettled(s, c.n) && b < c.workers
    ensures Inv(c, s') && Led(c, s, b, s') && Holders(s') == {} && s'.pc[b] == Idle(Top)
  {
    NobodyElse(s, b);
    s' := Drive(c, gas, s, b);
    StillNone(c, s, b, s');
    assert AllSettled(s', c.n);
    NobodySleeps(c, s', b);
  }

  lemma TakesOne(c: Config, gas: nat, s: State, b: nat) returns (s': State)
    requires Inv(c, s) && S.Metered(c, gas) && !s.done && Holders(s) == {} && AllSettled(s, c.n)
    requires b < c.workers && s.pc[b] == Idle(Top) && FirstIndex(s) < c.n
    ensures Inv(c, s') && Led(c, s, b, s') && Holders(s') == {} && s'.pc[b] == Idle(Top)
    ensures Gaps(s', c.n - 1) < Gaps(s, c.n - 1)
  {
    var x := c.n - 1;
    assert AllSettled(s, x);
    s' := FetchOne(c, gas, s, b, x);
    assert AllSettled(s', c.n) && Settled(s, x) && Settled(s', x);
    SettledPhase(c, s, s', x);
    if s'.pc[b] != Idle(Top) {
      var s1 := s';
      s' := DriveNext(c, gas, s1, b, x);
      LedTrans(c, s, b, s1, s');
      assert AllSettled(s', c.n) && Settled(s1, x) && Settled(s', x);
      SettledPhase(c, s1, s', x);
    }
  }

  /** It takes what numbers are left, until both indices are past the block. */
  lemma {:induction false} RunsOut(c: Config, gas: nat, s: State, b: nat) returns (s': State)
    requires Inv(c, s) && S.Metered(c, gas) && !s.done && Holders(s) == {} && AllSettled(s, c.n)
    requires b < c.workers && s.pc[b] == Idle(Top)
    ensures Inv(c, s') && Reach(c, s, s') && !s'.done && AllSettled(s', c.n) && MayCommit(c, s', b)
    decreases if c.n == 0 then 0 else Gaps(s, c.n - 1)
  {
    if FirstIndex(s) >= c.n {
      ReachSelf(c, s);
      s' := s;
    } else {
      var s1 := TakesOne(c, gas, s, b);
      assert AllSettled(s1, c.n);
      s' := RunsOut(c, gas, s1, b);
      ReachTrans(c, s, s1, s');
    }
  }

  /** Everything that is left is settled, and the committing worker is ready to commit it. */
  lemma SettlesBlock(c: Config, gas: nat, s: State, b: nat) returns (s': State)
    requires Inv(c, s) && S.Metered(c, gas) && !s.done && b < c.workers
    ensures Inv(c, s') && Reach(c, s, s') && !s'.done && AllSettled(s', c.n) && MayCommit(c, s', b)
  {
    var s1 := FreeLocks(c, gas, s);
    var s2, m := FreeWorker(c, gas, s1);
    var s3 := SettleAll(c, gas, s2, m, 0);
    var s4 := GetsToTop(c, gas, s3, b);
    assert AllSettled(s4, c.n);
    s' := RunsOut(c, gas, s4, b);
    ReachTrans(c, s, s1, s2);
    ReachTrans(c, s, s2, s3);
    ReachTrans(c, s, s3, s4);
    ReachTrans(c, s, s4, s');
  }

  // ---------------------------------------------------------------- committing the block

  /** The step is a commit by worker `b`, between two of its tasks. */
  ghost predicate CommitAt(c: Config, b: nat, tr: seq<State>, k: nat)
    requires k + 1 < |tr|
  {
    Shape(c, tr[k]) && MayCommit(c, tr[k], b) && tr[k + 1] == TryCommit(c, tr[k])
  }

  lemma SettledCommit(c: Config, s: State, z: nat)
    requires Inv(c, s) && z < c.n && Settled(s, z)
    ensures Settled(TryCommit(c, s), z)
  {
    if s.txns[z].status.Executed? { FreshCommit(c, s, z, s.txns[z].status.inc); }
  }

  lemma Commits(c: Config, s: State)
    requires Inv(c, s) && s.commitIdx < c.n && AllSettled(s, c.n)
    ensures var s' := TryCommit(c, s);
            Inv(c, s') && s'.commitIdx == s.commitIdx + 1 && s'.done == s.done && AllSettled(s', c.n)
  {
    assert Settled(s, s.commitIdx);
    assert W.TOk(W.WaveView(s), s.commitIdx);
    CommitInv(c, s);
    forall z | 0 <= z < c.n ensures Settled(TryCommit(c, s), z) {
      assert Settled(s, z);
      SettledCommit(c, s, z);
    }
  }

  ghost predicate Committing(c: Config, b: nat, tr: seq<State>) {
    |tr| > 0 && forall k :: 0 <= k < |tr| - 1 ==> CommitAt(c, b, tr, k)
  }

  lemma CommitFirst(c: Config, b: nat, s: State, tr: seq<State>)
    requires Shape(c, s) && MayCommit(c, s, b) && Committing(c, b, tr) && tr[0] == TryCommit(c, s)
    ensures Committing(c, b, [s] + tr)
  {
    var all := [s] + tr;
    forall k | 0 <= k < |all| - 1 ensures CommitAt(c, b, all, k) {
      if k > 0 { assert CommitAt(c, b, tr, k - 1); }
    }
  }

  /** The committing worker commits the rest of the block and sets the done marker. */
  lemma {:induction false} CommitRest(c: Config, b: nat, s: State) returns (tr: seq<State>)
    requires Inv(c, s) && AllSettled(s, c.n) && MayCommit(c, s, b)
    ensures Committing(c, b, tr) && tr[0] == s && tr[|tr| - 1].done
    decreases c.n - s.commitIdx
  {
    var s1 := TryCommit(c, s);
    if s.commitIdx < c.n {
      Commits(c, s);
      var rest := CommitRest(c, b, s1);
      CommitFirst(c, b, s, rest);
      tr := [s] + rest;
    } else {
      tr := [s, s1];
      assert CommitAt(c, b, tr, 0);
    }
  }

  // ---------------------------------------------------------------- every run can be finished

  /** From `from` on, workers work, and `b` commits between its tasks. */
  ghost predicate Diligent(c: Config, b: nat, run: seq<State>, from: nat) {
    forall k :: from <= k < |run| - 1 ==> WorkAt(c, run, k) || CommitAt(c, b, run, k)
  }

  /** The run is over, and what it recorded is the outcome of sequential execution. */
  ghost predicate Finished(c: Config, run: seq<State>) {
    && IsRun(c, run)
    && var s := run[|run| - 1];
       s.done && S.Recorded(s, c.n) && S.SequentialOutcome(c, S.Gather(c, [], S.Results(s, c.n)))
  }

  lemma AppendWork(c: Config, b: nat, tr: seq<State>, work: seq<State>)
    requires IsRun(c, tr) && Work(c, work) && tr[|tr| - 1] == work[0]
    ensures var run := tr + work[1..];
            IsRun(c, run) && Diligent(c, b, run, |tr| - 1) && run[|run| - 1] == work[|work| - 1]
  {
    var run, n := tr + work[1..], |tr|;
    forall k | n - 1 <= k < |run| - 1 ensures WorkAt(c, run, k) { assert WorkAt(c, work, k - (n - 1)); }
    forall k | 0 <= k < |run| - 1 ensures NextAt(c, run, k) {
      if k < n - 1 { assert NextAt(c, tr, k); } else { assert WorkAt(c, run, k); }
    }
  }

  lemma AppendCommits(c: Config, b: nat, tr: seq<State>, from: nat, commits: seq<State>)
    requires IsRun(c, tr) && Committing(c, b, commits) && tr[|tr| - 1] == commits[0]
    requires from < |tr| && Diligent(c, b, tr, from)
    ensures var run := tr + commits[1..];
            IsRun(c, run) && Diligent(c, b, run, from) && run[|run| - 1] == commits[|commits| - 1]
  {
    var run, n := tr + commits[1..], |tr|;
    forall k | n - 1 <= k < |run| - 1 ensures CommitAt(c, b, run, k) { assert CommitAt(c, b, commits, k - (n - 1)); }
    forall k | from <= k < n - 1 ensures WorkAt(c, run, k) || CommitAt(c, b, run, k) {
      assert WorkAt(c, tr, k) || CommitAt(c, b, tr, k);
    }
    forall k | 0 <= k < |run| - 1 ensures NextAt(c, run, k) {
      if k < n - 1 { assert NextAt(c, tr, k); } else { assert CommitAt(c, b, run, k); }
    }
  }

  /** First everything is settled... */
  lemma WorksOn(c: Config, gas: nat, tr: seq<State>, b: nat) returns (run: seq<State>)
    requires IsRun(c, tr) && S.Metered(c, gas) && b < c.workers && !tr[|tr| - 1].done
    ensures IsRun(c, run) && tr <= run && Diligent(c, b, run, |tr| - 1)
    ensures AllSettled(run[|run| - 1], c.n) && MayCommit(c, run[|run| - 1], b)
  {
    var s := tr[|tr| - 1];
    RunInv(c, tr, |tr| - 1);
    var s' := SettlesBlock(c, gas, s, b);
    var work :| Work(c, work) && work[0] == s && work[|work| - 1] == s';
    AppendWork(c, b, tr, work);
    run := tr + work[1..];
  }

  /** ... then everything is committed. */
  lemma CommitsOn(c: Config, tr: seq<State>, b: nat, from: nat) returns (run: seq<State>)
    requires IsRun(c, tr) && from < |tr| && Diligent(c, b, tr, from)
    requires AllSettled(tr[|tr| - 1], c.n) && MayCommit(c, tr[|tr| - 1], b)
    ensures IsRun(c, run) && tr <= run && run[|run| - 1].done && Diligent(c, b, run, from)
  {
    RunInv(c, tr, |tr| - 1);
    var commits := CommitRest(c, b, tr[|tr| - 1]);
    AppendCommits(c, b, tr, from, commits);
    run := tr + commits[1..];
  }

  /** Every run can be continued, with any committing worker, until the whole block is committed. */
  lemma CanFinish(c: Config, gas: nat, tr: seq<State>, b: nat)
    requires IsRun(c, tr) && S.Metered(c, gas) && b < c.workers
    ensures exists run :: Finished(c, run) && tr <= run && Diligent(c, b, run, |tr| - 1)
  {
    var run := tr;
    if !tr[|tr| - 1].done {
      run := WorksOn(c, gas, tr, b);
      run := CommitsOn(c, run, b, |tr| - 1);
    }
    S.ParallelIsSequential(c, run, |run| - 1);
    assert Finished(c, run);
  }
}
