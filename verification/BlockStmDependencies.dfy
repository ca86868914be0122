/**
 Dependency lists: a suspended transaction sits exactly once in the list of one lower
 transaction (or in a list already taken by its finishing worker), and a list that holds
 anything belongs to a transaction whose next execution will still take it.
 */
module BlockStmDependencies {
  import opened Options
  import opened BlockStm
  import opened BlockStmView

  /** The part of a transaction that dependency tracking is about. */
  datatype DepTxn = DepTxn(
    executed: bool,
    taking: bool,          // its worker is about to take the list
    held: bool,            // the list is locked
    deps: seq<nat>,
    todo: seq<nat>,        // taken, not yet resumed
    on: Option<nat>)       // suspended in the list of this transaction

  ghost predicate Listed(ds: seq<DepTxn>, x: nat, d: nat) {
    d < x < |ds| && ds[x].on == Some(d)
  }

  predicate Distinct(xs: seq<nat>) {
    forall a, b :: 0 <= a < b < |xs| ==> xs[a] != xs[b]
  }

  ghost predicate DepOk(ds: seq<DepTxn>, d: nat)
    requires d < |ds|
  {
    var t := ds[d];
    var all := t.todo + t.deps;
    && (forall q :: 0 <= q < |all| ==> Listed(ds, all[q], d))
    && Distinct(all)
    && (t.deps != [] || t.held ==> !t.executed || t.taking)
    && (t.taking ==> t.todo == [])
    && (t.on.Some? ==> t.on.value < d && d in ds[t.on.value].todo + ds[t.on.value].deps)
  }

  ghost predicate IDep(ds: seq<DepTxn>) {
    forall d :: 0 <= d < |ds| ==> DepOk(ds, d)
  }

  lemma Hold(ds: seq<DepTxn>, d: nat)
    requires IDep(ds) && d < |ds| && !ds[d].executed
    ensures IDep(ds[d := ds[d].(held := true)])
  {
    var ds' := ds[d := ds[d].(held := true)];
    forall e | 0 <= e < |ds'| ensures DepOk(ds', e) { assert DepOk(ds, e); }
  }

  lemma PushOn(ds: seq<DepTxn>, d: nat, x: nat)
    requires IDep(ds) && d < x < |ds| && ds[d].held && ds[x].on.None?
    ensures IDep(ds[x := ds[x].(on := Some(d))][d := ds[d].(held := false, deps := ds[d].deps + [x])])
  {
    var ds' := ds[x := ds[x].(on := Some(d))][d := ds[d].(held := false, deps := ds[d].deps + [x])];
    assert DepOk(ds, d);
    var all, all' := ds[d].todo + ds[d].deps, ds'[d].todo + ds'[d].deps;
    assert all' == all + [x];
    forall e | 0 <= e < |ds'| ensures DepOk(ds', e) {
      assert DepOk(ds, e);
      if e != d {
        var es := ds[e].todo + ds[e].deps;
        forall q | 0 <= q < |es| ensures Listed(ds', es[q], e) { assert Listed(ds, es[q], e); }
      } else {
        forall q | 0 <= q < |all'| ensures Listed(ds', all'[q], d) {
          if q < |all| { assert Listed(ds, all[q], d); }
        }
        assert Distinct(all') by {
          forall a, b | 0 <= a < b < |all'| ensures all'[a] != all'[b] { assert Listed(ds, all[a], d); }
        }
      }
    }
  }

  lemma Finish(ds: seq<DepTxn>, d: nat)
    requires IDep(ds) && d < |ds| && ds[d].todo == []
    ensures IDep(ds[d := ds[d].(executed := true, taking := true)])
  {
    var ds' := ds[d := ds[d].(executed := true, taking := true)];
    forall e | 0 <= e < |ds'| ensures DepOk(ds', e) { assert DepOk(ds, e); }
  }

  lemma TakeAll(ds: seq<DepTxn>, d: nat)
    requires IDep(ds) && d < |ds| && ds[d].taking && !ds[d].held
    ensures IDep(ds[d := ds[d].(taking := false, todo := ds[d].deps, deps := [])])
  {
    var ds' := ds[d := ds[d].(taking := false, todo := ds[d].deps, deps := [])];
    assert DepOk(ds, d);
    assert ds'[d].todo + ds'[d].deps == ds[d].todo + ds[d].deps;
    forall e | 0 <= e < |ds'| ensures DepOk(ds', e) { assert DepOk(ds, e); }
  }

  lemma ResumeFirst(ds: seq<DepTxn>, d: nat)
    requires IDep(ds) && d < |ds| && ds[d].todo != []
    ensures d < ds[d].todo[0] < |ds| && ds[ds[d].todo[0]].on == Some(d)
    ensures var x := ds[d].todo[0];
            IDep(ds[x := ds[x].(on := None)][d := ds[d].(todo := ds[d].todo[1..])])
  {
    assert DepOk(ds, d);
    var all := ds[d].todo + ds[d].deps;
    var x := ds[d].todo[0];
    assert all[0] == x && Listed(ds, all[0], d);
    var ds' := ds[x := ds[x].(on := None)][d := ds[d].(todo := ds[d].todo[1..])];
    var all' := ds'[d].todo + ds'[d].deps;
    assert all' == all[1..];
    forall e | 0 <= e < |ds'| ensures DepOk(ds', e) {
      assert DepOk(ds, e);
      var es, es' := ds[e].todo + ds[e].deps, ds'[e].todo + ds'[e].deps;
      forall q | 0 <= q < |es'| ensures Listed(ds', es'[q], e) {
        assert Listed(ds, es[if e == d then q + 1 else q], e);
      }
      if e != x && ds[e].on == Some(d) {
        var q :| 0 <= q < |all| && all[q] == e;
        assert all'[q - 1] == e;
      }
    }
  }

  lemma Unexecute(ds: seq<DepTxn>, d: nat)
    requires IDep(ds) && d < |ds|
    ensures IDep(ds[d := ds[d].(executed := false)])
  {
    var ds' := ds[d := ds[d].(executed := false)];
    forall e | 0 <= e < |ds'| ensures DepOk(ds', e) { assert DepOk(ds, e); }
  }

  // ---------------------------------------------------------------- view

  function DepOf(t: Txn, own: Pc, lock: Pc): DepTxn {
    DepTxn(IsExecuted(t.status),
           lock.Fin? && lock.fin.Take?,
           t.dlock.Some?,
           t.deps,
           if lock.Fin? && lock.fin.Resume? then lock.fin.todo else [],
           if t.status.Suspended? && own.Exec? && own.ex.Waiting? then Some(own.ex.d) else None)
  }

  function DepAt(s: State, x: nat): DepTxn
    requires x < |s.txns|
  {
    DepOf(s.txns[x], PcOf(s, s.txns[x].owner), PcOf(s, s.txns[x].vlock))
  }

  function DepView(s: State): seq<DepTxn> {
    seq(|s.txns|, x requires 0 <= x < |s.txns| => DepAt(s, x))
  }

  ghost predicate InvDep(c: Config, s: State) {
    |s.txns| == c.n && IDep(DepView(s))
  }

  lemma InitDep(c: Config, s: State)
    requires Init(c, s)
    ensures InvDep(c, s)
  {
    forall x | 0 <= x < c.n ensures DepAt(s, x) == DepTxn(false, false, false, [], [], None) {
      assert s.txns[x] == InitTxn;
    }
    forall x | 0 <= x < c.n ensures DepOk(DepView(s), x) {}
  }

  // ---------------------------------------------------------------- steps

  /** A step on transaction `i` by a worker busy with `i` or with nothing. */
  lemma DepOne(c: Config, s: State, u: nat, s': State, i: nat)
    requires InvOwn(c, s) && Moved(c, s, u, s') && i < c.n
    requires Only(s, s', i)
    requires RoleOf(s.pc[u]).Free? || TxnOf(s.pc[u]) == i
    ensures DepView(s') == DepView(s)[i := DepAt(s', i)]
  {
    forall x | 0 <= x < c.n && x != i ensures DepAt(s', x) == DepAt(s, x) { Frame(c, s, u, s', x); }
  }

  lemma DepQuiet(c: Config, s: State, u: nat, s': State, i: nat)
    requires InvOwn(c, s) && Moved(c, s, u, s') && i < c.n
    requires Only(s, s', i)
    requires RoleOf(s.pc[u]).Free? || TxnOf(s.pc[u]) == i
    requires DepAt(s', i) == DepAt(s, i)
    ensures DepView(s') == DepView(s)
  {
    DepOne(c, s, u, s', i);
    assert DepView(s)[i := DepAt(s, i)] == DepView(s);
  }

  lemma DepIdle(c: Config, s: State, u: nat)
    requires InvOwn(c, s) && u < c.workers && RoleOf(s.pc[u]).Free? && s.pc[u].Idle?
    ensures DepView(IdleStep(c, s, u, s.pc[u].idle)) == DepView(s)
  {
    var s' := IdleStep(c, s, u, s.pc[u].idle);
    forall x | 0 <= x < c.n ensures DepAt(s', x) == DepAt(s, x) { Frame(c, s, u, s.(pc := s'.pc), x); }
  }

  lemma DepGotVal(c: Config, s: State, u: nat, i: nat, w: nat)
    requires InvOwn(c, s) && u < c.workers && s.pc[u] == GotVal(i, w) && i < c.n
    ensures DepView(GotValStep(c, s, u, i, w)) == DepView(s)
  {
    var s' := GotValStep(c, s, u, i, w);
    forall x | 0 <= x < c.n ensures DepAt(s', x) == DepAt(s, x) { Frame(c, s, u, s', x); }
  }

  lemma DepIncarnate(c: Config, s: State, u: nat, i: nat)
    requires InvOwn(c, s) && u < c.workers && i < c.n && RoleOf(s.pc[u]).Free?
    ensures DepView(TryIncarnate(c, s, u, i)) == DepView(s)
  {
    var s' := TryIncarnate(c, s, u, i);
    KnowsTxn(c, s, i);
    Frame(c, s, u, s.(pc := s'.pc), i);
    DepQuiet(c, s, u, s', i);
  }

  lemma DepSignal(c: Config, s: State, u: nat, p: Pc)
    requires InvOwn(c, s) && u < c.workers && p == s.pc[u] && p.Signal? && PcShape(c, p) && p.cv < |s.cvs|
    ensures DepView(SignalStep(c, s, u, p.i, p.cv)) == DepView(s)
  {
    var s' := SignalStep(c, s, u, p.i, p.cv);
    Knows(c, s, u);
    KnowsTxn(c, s, p.i);
    DepQuiet(c, s, u, s', p.i);
  }

  lemma DepCalm(c: Config, s: State, u: nat, s': State)
    requires InvOwn(c, s) && Calm(c, s, u, s')
    ensures DepView(s') == DepView(s)
  {
    Knows(c, s, u);
    KnowsTxn(c, s, TxnOf(s.pc[u]));
    DepQuiet(c, s, u, s', TxnOf(s.pc[u]));
  }

  /** A step of the run of p.i on the list of d. */
  lemma DepTwo(c: Config, s: State, u: nat, p: Pc, s': State, d: nat)
    requires InvOwn(c, s) && Moved(c, s, u, s') && p == s.pc[u] && !p.Idle? && TxnOf(p) < c.n && d < c.n
    requires Only(s, s', d)
    ensures DepView(s') == DepView(s)[TxnOf(p) := DepAt(s', TxnOf(p))][d := DepAt(s', d)]
  {
    forall x | 0 <= x < c.n && x != TxnOf(p) && x != d ensures DepAt(s', x) == DepAt(s, x) {
      Frame(c, s, u, s', x);
    }
  }

  lemma DepWantDep(c: Config, s: State, u: nat, p: Pc)
    requires InvOwn(c, s) && InvDep(c, s) && u < c.workers && p == s.pc[u] && PcShape(c, p)
    requires p.Exec? && p.ex.WantDep?
    ensures InvDep(c, WantDepStep(c, s, u, p))
  {
    var s', d := WantDepStep(c, s, u, p), p.ex.d;
    var ds := DepView(s);
    Knows(c, s, u);
    if IsExecuted(s.txns[d].status) {
      DepQuiet(c, s, u, s', p.i);
    } else {
      DepTwo(c, s, u, p, s', d);
      Frame(c, s, u, s.(pc := s'.pc), d);
      Hold(ds, d);
      assert ds[p.i := ds[p.i]] == ds;
    }
  }

  lemma DepSuspend(c: Config, s: State, u: nat, p: Pc)
    requires InvOwn(c, s) && u < c.workers && p == s.pc[u] && PcShape(c, p)
    requires p.Exec? && p.ex.HoldDep? && s.txns[p.i].status.Executing?
    ensures DepView(SuspendStep(c, s, u, p)) == DepView(s)
  {
    Knows(c, s, u);
    DepQuiet(c, s, u, SuspendStep(c, s, u, p), p.i);
  }

  lemma DepPush(c: Config, s: State, u: nat, p: Pc)
    requires InvOwn(c, s) && InvDep(c, s) && u < c.workers && p == s.pc[u] && PcShape(c, p)
    requires p.Exec? && p.ex.PushDep?
    ensures InvDep(c, PushDepStep(c, s, u, p))
  {
    var s', d := PushDepStep(c, s, u, p), p.ex.d;
    Knows(c, s, u);
    DepTwo(c, s, u, p, s', d);
    Frame(c, s, u, s.(pc := s'.pc), d);
    PushOn(DepView(s), d, p.i);
  }

  lemma DepAwake(c: Config, s: State, u: nat, p: Pc)
    requires InvOwn(c, s) && u < c.workers && p == s.pc[u] && PcShape(c, p)
    requires p.Exec? && p.ex.Waiting? && p.ex.cv < |s.cvs| && s.cvs[p.ex.cv].resolved
    ensures DepView(Goto(s, u, p.(ex := Running))) == DepView(s)
  {
    Knows(c, s, u);
    DepQuiet(c, s, u, Goto(s, u, p.(ex := Running)), p.i);
  }

  lemma DepLock(c: Config, s: State, u: nat, p: Pc)
    requires InvOwn(c, s) && u < c.workers && PcShape(c, p)
    requires (s.pc[u].Exec? && s.pc[u].ex.WantLock? && p.Exec? && p.ex.Locked?)
          || (s.pc[u].Aborter? && p.Aborter?)
    requires s.pc[u].i == p.i && s.txns[p.i].vlock.None?
    ensures DepView(LockStep(c, s, u, p)) == DepView(s)
  {
    Knows(c, s, u);
    KnowsTxn(c, s, p.i);
    DepQuiet(c, s, u, LockStep(c, s, u, p), p.i);
  }

  lemma DepSetExecuted(c: Config, s: State, u: nat, p: Pc)
    requires InvOwn(c, s) && InvDep(c, s) && u < c.workers && p == s.pc[u] && PcShape(c, p)
    requires p.Exec? && p.ex.Locked?
    ensures InvDep(c, SetExecutedStep(c, s, u, p))
  {
    Knows(c, s, u);
    DepOne(c, s, u, SetExecutedStep(c, s, u, p), p.i);
    Finish(DepView(s), p.i);
  }

  lemma DepTake(c: Config, s: State, u: nat, p: Pc)
    requires InvOwn(c, s) && InvDep(c, s) && u < c.workers && p == s.pc[u] && PcShape(c, p)
    requires p.Fin? && p.fin.Take? && s.txns[p.i].dlock.None?
    ensures InvDep(c, TakeStep(c, s, u, p))
  {
    Knows(c, s, u);
    KnowsTxn(c, s, p.i);
    DepOne(c, s, u, TakeStep(c, s, u, p), p.i);
    TakeAll(DepView(s), p.i);
  }

  /** What the finishing worker finds when it resumes the next dependency. */
  lemma FirstSleeps(c: Config, s: State, u: nat, p: Pc)
    requires InvOwn(c, s) && InvDep(c, s) && u < c.workers && p == s.pc[u] && PcShape(c, p)
    requires p.Fin? && p.fin.Resume? && p.fin.todo != []
    ensures ResumesSleeper(c, s, p) && s.txns[p.fin.todo[0]].status.Suspended? && p.i < p.fin.todo[0]
  {
    Knows(c, s, u);
    ResumeFirst(DepView(s), p.i);
  }

  lemma DepResume(c: Config, s: State, u: nat, p: Pc)
    requires InvOwn(c, s) && InvDep(c, s) && u < c.workers && p == s.pc[u] && PcShape(c, p)
    requires p.Fin? && p.fin.Resume? && p.fin.todo != []
    requires p.fin.todo[0] < c.n && s.txns[p.fin.todo[0]].status.Suspended?
    ensures InvDep(c, ResumeStep(c, s, u, p))
  {
    var s', x, ds := ResumeStep(c, s, u, p), p.fin.todo[0], DepView(s);
    FirstSleeps(c, s, u, p);
    Knows(c, s, u);
    KnowsTxn(c, s, x);
    DepTwo(c, s, u, p, s', x);
    Frame(c, s, u, s.(pc := s'.pc), x);
    ResumeFirst(ds, p.i);
    assert ds[x := ds[x].(on := None)][p.i := DepAt(s', p.i)] == ds[p.i := DepAt(s', p.i)][x := DepAt(s', x)];
  }

  lemma DepLower(c: Config, s: State, u: nat, p: Pc)
    requires InvOwn(c, s) && u < c.workers && p == s.pc[u] && PcShape(c, p)
    requires p.Fin? && p.fin.Resume? && p.fin.todo == []
    ensures DepView(LowerStep(c, s, u, p)) == DepView(s)
  {
    Knows(c, s, u);
    KnowsTxn(c, s, p.i);
    DepQuiet(c, s, u, LowerStep(c, s, u, p), p.i);
  }

  lemma DepLoad(c: Config, s: State, u: nat, p: Pc)
    requires InvOwn(c, s) && u < c.workers && p == s.pc[u] && PcShape(c, p) && p.Fin? && p.fin.Load?
    ensures DepView(LoadStep(c, s, u, p)) == DepView(s)
  {
    Knows(c, s, u);
    KnowsTxn(c, s, p.i);
    DepQuiet(c, s, u, LoadStep(c, s, u, p), p.i);
  }

  lemma DepDecrease(c: Config, s: State, u: nat, p: Pc)
    requires InvOwn(c, s) && u < c.workers && p == s.pc[u] && PcShape(c, p) && p.Fin? && p.fin.Decrease?
    ensures DepView(DecreaseStep(c, s, u, p)) == DepView(s)
  {
    Knows(c, s, u);
    KnowsTxn(c, s, p.i);
    DepQuiet(c, s, u, DecreaseStep(c, s, u, p), p.i);
  }

  lemma DepTryAbort(c: Config, s: State, u: nat, p: Pc)
    requires InvOwn(c, s) && InvDep(c, s) && u < c.workers && p == s.pc[u] && PcShape(c, p) && p.Val?
    ensures InvDep(c, TryAbortStep(c, s, u, p))
  {
    KnowsTxn(c, s, p.i);
    DepOne(c, s, u, TryAbortStep(c, s, u, p), p.i);
    Unexecute(DepView(s), p.i);
    assert DepView(s)[p.i := DepAt(s, p.i)] == DepView(s);
  }

  lemma DepCredit(c: Config, s: State, u: nat, p: Pc)
    requires InvOwn(c, s) && u < c.workers && p == s.pc[u] && PcShape(c, p) && p.Val?
    ensures DepView(CreditStep(c, s, u, p)) == DepView(s)
  {
    KnowsTxn(c, s, p.i);
    DepQuiet(c, s, u, CreditStep(c, s, u, p), p.i);
  }

  lemma DepSetAborted(c: Config, s: State, u: nat, p: Pc)
    requires InvOwn(c, s) && u < c.workers && p == s.pc[u] && PcShape(c, p) && p.Aborter? && p.ab.AbortLocked?
    ensures DepView(SetAbortedStep(c, s, u, p)) == DepView(s)
  {
    Knows(c, s, u);
    DepQuiet(c, s, u, SetAbortedStep(c, s, u, p), p.i);
  }

  lemma DepAtAbortDecrease(c: Config, s: State, u: nat, p: Pc)
    requires InvOwn(c, s) && u < c.workers && p == s.pc[u] && PcShape(c, p) && p.FinAbort?
    ensures DepAt(AbortDecreaseStep(c, s, u, p), p.i) == DepAt(s, p.i)
  {
    Knows(c, s, u);
    KnowsTxn(c, s, p.i);
  }

  lemma DepAbortDecrease(c: Config, s: State, u: nat, p: Pc)
    requires InvOwn(c, s) && u < c.workers && p == s.pc[u] && PcShape(c, p) && p.FinAbort?
    ensures DepView(AbortDecreaseStep(c, s, u, p)) == DepView(s)
  {
    DepAtAbortDecrease(c, s, u, p);
    DepQuiet(c, s, u, AbortDecreaseStep(c, s, u, p), p.i);
  }

  lemma DepAbortLoadEx(c: Config, s: State, u: nat, p: Pc)
    requires InvOwn(c, s) && u < c.workers && p == s.pc[u] && PcShape(c, p) && p.FinAbort?
    ensures DepView(AbortLoadExStep(c, s, u, p)) == DepView(s)
  {
    Knows(c, s, u);
    KnowsTxn(c, s, p.i);
    DepQuiet(c, s, u, AbortLoadExStep(c, s, u, p), p.i);
  }

  lemma DepReincarnate(c: Config, s: State, u: nat, p: Pc)
    requires InvOwn(c, s) && u < c.workers && p == s.pc[u] && PcShape(c, p) && p.FinAbort?
    ensures DepView(ReincarnateStep(c, s, u, p)) == DepView(s)
  {
    Knows(c, s, u);
    KnowsTxn(c, s, p.i);
    DepQuiet(c, s, u, ReincarnateStep(c, s, u, p), p.i);
  }

  lemma DepCommit(c: Config, s: State)
    requires InvOwn(c, s)
    ensures DepView(TryCommit(c, s)) == DepView(s)
  {
    var s' := TryCommit(c, s);
    forall x | 0 <= x < c.n ensures DepAt(s', x) == DepAt(s, x) {}
  }

  lemma DepExec(c: Config, s: State, u: nat, p: Pc, s': State)
    requires InvOwn(c, s) && InvDep(c, s) && Step(c, s, u, s') && p == s.pc[u] && p.Exec? && !IsCalm(p)
    ensures InvDep(c, s')
  {
    match p.ex
    case WantDep(_) => DepWantDep(c, s, u, p);
    case HoldDep(_) => DepSuspend(c, s, u, p);
    case PushDep(_, _) => DepPush(c, s, u, p);
    case Waiting(_, _) => DepAwake(c, s, u, p);
    case WantLock(w) => DepLock(c, s, u, p.(ex := Locked(w)));
    case Locked(_) => DepSetExecuted(c, s, u, p);
  }

  lemma DepStep(c: Config, s: State, u: nat, s': State)
    requires InvOwn(c, s) && InvDep(c, s) && Step(c, s, u, s')
    ensures InvDep(c, s')
  {
    var p := s.pc[u];
    if IsCalm(p) {
      CalmStep(c, s, u, s');
      DepCalm(c, s, u, s');
    } else {
      match p
      case Idle(_) => DepIdle(c, s, u);
      case GotVal(i, w) => DepGotVal(c, s, u, i, w);
      case GotEx(i) => DepIncarnate(c, s, u, i);
      case Signal(_, _, _) => DepSignal(c, s, u, p);
      case Exec(_, _, _, _) => DepExec(c, s, u, p, s');
      case Fin(_, _, f) =>
        if f.Take? { DepTake(c, s, u, p); }
        else if f.Resume? && f.todo != [] { DepResume(c, s, u, p); }
        else if f.Resume? { DepLower(c, s, u, p); }
        else if f.Load? { DepLoad(c, s, u, p); } else { DepDecrease(c, s, u, p); }
      case Val(_, _, _, v) => if v.Failed? { DepTryAbort(c, s, u, p); } else { DepCredit(c, s, u, p); }
      case Aborter(_, _, ab) =>
        if ab.AbortLocked? { DepSetAborted(c, s, u, p); } else { DepLock(c, s, u, p.(ab := AbortLocked)); }
      case FinAbort(_, _, fa) =>
        if fa.AbortDecrease? { DepAbortDecrease(c, s, u, p); }
        else if fa.AbortLoadEx? { DepAbortLoadEx(c, s, u, p); } else { DepReincarnate(c, s, u, p); }
    }
  }
}
