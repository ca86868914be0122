/**
 Nothing gets stuck.  Some worker can always move until all have left; and when every worker
 is idle or blocked and both indices have passed the block, then in fact none is blocked,
 nothing is left to execute or validate, and try_commit commits the rest of the block.
 */
module BlockStmProgress {
  import opened BlockStm
  import opened BlockStmView
  import opened BlockStmSafety
  import D = BlockStmDependencies
  import W = BlockStmWaves
  import T = BlockStmTasks

  ghost predicate CanStep(c: Config, s: State, u: nat) {
    exists s' :: Step(c, s, u, s')
  }

  /** Where a worker has to wait for another one. */
  predicate Blocked(s: State, p: Pc)
    requires !p.Idle? ==> TxnOf(p) < |s.txns|
    requires p.Exec? && p.ex.WantDep? ==> p.ex.d < |s.txns|
  {
    match p
    case Exec(_, _, _, WantDep(d)) => s.txns[d].dlock.Some?
    case Exec(_, _, _, Waiting(_, cv)) => !(cv < |s.cvs| && s.cvs[cv].resolved)
    case Exec(i, _, _, WantLock(_)) => s.txns[i].vlock.Some?
    case Fin(i, _, Take(_)) => s.txns[i].dlock.Some?
    case Val(i, _, _, Credit) => s.txns[i].vlock.Some?
    case Aborter(i, _, Mark(todo)) => todo == {} && s.txns[i].vlock.Some?
    case _ => false
  }

  lemma ExecEnabled(c: Config, s: State, u: nat, p: Pc) returns (s': State)
    requires Shape(c, s) && u < c.workers && p == s.pc[u] && PcShape(c, p) && !Panics(c, s, u)
    requires p.Exec? && !Blocked(s, p)
    ensures ExecStep(c, s, u, p, s')
  {
    match p.ex
    case Running => s' := RunStep(c, s, u, p);
    case WantDep(_) => s' := WantDepStep(c, s, u, p);
    case HoldDep(_) => s' := SuspendStep(c, s, u, p);
    case PushDep(_, _) => s' := PushDepStep(c, s, u, p);
    case Waiting(_, _) => s' := Goto(s, u, p.(ex := Running));
    case Apply(_, todo, prev, _) =>
      if todo != map[] {
        var k :| k in todo;
        s' := AddWriteStep(c, s, u, p, k);
      } else if prev != {} {
        var k :| k in prev;
        s' := DeleteStep(c, s, u, p, k);
      } else { s' := RecordInStep(c, s, u, p); }
    case RecordOut(_, _) => s' := RecordOutStep(c, s, u, p);
    case WantLock(o) => s' := LockStep(c, s, u, p.(ex := Locked(o)));
    case Locked(_) => s' := SetExecutedStep(c, s, u, p);
  }

  lemma RestEnabled(c: Config, s: State, u: nat, p: Pc) returns (s': State)
    requires Shape(c, s) && u < c.workers && p == s.pc[u] && PcShape(c, p) && !Panics(c, s, u)
    requires !p.Exec? && p != Idle(Exit) && !Blocked(s, p) && (p.Signal? ==> p.cv < |s.cvs|)
    ensures Step(c, s, u, s')
  {
    match p
    case Idle(f) => s' := IdleStep(c, s, u, f);
    case GotVal(i, w) => s' := GotValStep(c, s, u, i, w);
    case GotEx(i) => s' := TryIncarnate(c, s, u, i);
    case Signal(i, _, cv) => s' := SignalStep(c, s, u, i, cv);
    case Fin(_, _, f) =>
      match f {
        case Take(_) => s' := TakeStep(c, s, u, p);
        case Resume(_, todo, _) => s' := if todo != [] then ResumeStep(c, s, u, p) else LowerStep(c, s, u, p);
        case Load(_) => s' := LoadStep(c, s, u, p);
        case Decrease => s' := DecreaseStep(c, s, u, p);
      }
    case Val(_, _, _, v) =>
      match v {
        case Task => s' := Goto(s, u, p.(val := Check(s.txns[p.i].input.value, 0)));
        case Check(_, _) => s' := CheckStep(c, s, u, p);
        case Failed => s' := TryAbortStep(c, s, u, p);
        case Credit => s' := CreditStep(c, s, u, p);
      }
    case Aborter(_, _, ab) =>
      match ab {
        case LoadKeys => s' := Goto(s, u, p.(ab := Mark(ModKeys(s.txns[p.i].output))));
        case Mark(todo) =>
          if todo != {} {
            var k :| k in todo;
            s' := MarkStep(c, s, u, p, k);
          } else { s' := LockStep(c, s, u, p.(ab := AbortLocked)); }
        case AbortLocked => s' := SetAbortedStep(c, s, u, p);
      }
    case FinAbort(_, _, fa) =>
      s' := if fa.AbortDecrease? then AbortDecreaseStep(c, s, u, p)
            else if fa.AbortLoadEx? then AbortLoadExStep(c, s, u, p) else ReincarnateStep(c, s, u, p);
  }

  /** A worker that is not blocked and has not left can take a step. */
  lemma Enabled(c: Config, s: State, u: nat)
    requires Inv(c, s) && u < c.workers && s.pc[u] != Idle(Exit)
    ensures PcShape(c, s.pc[u]) && (Blocked(s, s.pc[u]) || CanStep(c, s, u))
  {
    Safe(c, s, u);
    var p := s.pc[u];
    if !Blocked(s, p) {
      if p.Exec? {
        var s' := ExecEnabled(c, s, u, p);
        assert Step(c, s, u, s');
      } else {
        Knows(c, s, u);
        var s' := RestEnabled(c, s, u, p);
      }
    }
  }

  // ---------------------------------------------------------------- who blocks whom

  /** Every worker is idle or cannot step. */
  ghost predicate Stalled(c: Config, s: State) {
    |s.pc| == c.workers && forall u :: 0 <= u < c.workers ==> s.pc[u].Idle? || !CanStep(c, s, u)
  }

  lemma NoDepLock(c: Config, s: State, i: nat)
    requires Inv(c, s) && Stalled(c, s) && i < c.n
    ensures s.txns[i].dlock.None?
  {
    KnowsTxn(c, s, i);
    if s.txns[i].dlock.Some? { Enabled(c, s, s.txns[i].dlock.value); }
  }

  lemma NoValLock(c: Config, s: State, i: nat)
    requires Inv(c, s) && Stalled(c, s) && i < c.n
    ensures s.txns[i].vlock.None?
  {
    KnowsTxn(c, s, i);
    if s.txns[i].vlock.Some? {
      NoDepLock(c, s, i);
      Enabled(c, s, s.txns[i].vlock.value);
    }
  }

  predicate Sleeps(s: State, p: Pc) {
    p.Exec? && p.ex.Waiting? && !(p.ex.cv < |s.cvs| && s.cvs[p.ex.cv].resolved)
  }

  /** Then every worker is idle or asleep waiting for a dependency. */
  lemma OnlySleepers(c: Config, s: State, u: nat)
    requires Inv(c, s) && Stalled(c, s) && u < c.workers
    ensures s.pc[u].Idle? || Sleeps(s, s.pc[u])
  {
    var p := s.pc[u];
    if !p.Idle? {
      Enabled(c, s, u);
      NoValLock(c, s, TxnOf(p));
      NoDepLock(c, s, if p.Exec? && p.ex.WantDep? then p.ex.d else TxnOf(p));
    }
  }

  /** A ready transaction is above execution_idx, since nobody else would execute it. */
  lemma ReadyAbove(c: Config, s: State, i: nat)
    requires Inv(c, s) && Stalled(c, s) && i < c.n && s.txns[i].status.Ready?
    ensures s.exIdx <= i
  {
    assert T.TEx(s, i);
    OnlySleepers(c, s, s.txns[i].hand);
  }

  /** What nobody runs is ready, executed or committed. */
  lemma Unowned(c: Config, s: State, i: nat)
    requires Inv(c, s) && Stalled(c, s) && i < c.n
    requires forall v :: 0 <= v < c.workers && Sleeps(s, s.pc[v]) ==> s.pc[v].i != i
    ensures var st := s.txns[i].status; (st.Ready? && st.cv.None?) || IsExecuted(st)
  {
    KnowsTxn(c, s, i);
    if s.txns[i].owner.Some? { OnlySleepers(c, s, s.txns[i].owner.value); }
  }

  /** The sleeper of the lowest transaction waits for something execution_idx has yet to reach. */
  lemma LowestSleeper(c: Config, s: State, u: nat)
    requires Inv(c, s) && Stalled(c, s) && u < c.workers && Sleeps(s, s.pc[u])
    requires forall v :: 0 <= v < c.workers && Sleeps(s, s.pc[v]) ==> s.pc[u].i <= s.pc[v].i
    ensures s.exIdx <= s.pc[u].i
  {
    var p := s.pc[u];
    var t := s.txns[p.i];
    Knows(c, s, u);
    KnowsTxn(c, s, p.i);
    if t.status.Ready? { ReadyAbove(c, s, p.i); }
    else if t.status.Executing? { OnlySleepers(c, s, t.sig.value); }
    else {
      var ds := D.DepView(s);
      assert ds[p.i] == D.DepAt(s, p.i) && D.DepOk(ds, p.i);
      var d := p.ex.d;
      NoValLock(c, s, d);
      assert ds[d] == D.DepAt(s, d) && D.DepOk(ds, d);
      assert p.i in ds[d].deps;
      Unowned(c, s, d);
      ReadyAbove(c, s, d);
    }
  }

  lemma {:induction false} FindLowest(s: State, us: seq<nat>) returns (u: nat)
    requires us != [] && forall k :: 0 <= k < |us| ==> us[k] < |s.pc| && Sleeps(s, s.pc[us[k]])
    ensures u in us && u < |s.pc| && Sleeps(s, s.pc[u])
    ensures forall k :: 0 <= k < |us| ==> TxnOf(s.pc[u]) <= TxnOf(s.pc[us[k]])
  {
    if |us| == 1 { u := us[0]; }
    else {
      u := FindLowest(s, us[1..]);
      assert forall k :: 1 <= k < |us| ==> us[k] == us[1..][k - 1];
      if s.pc[us[0]].i < s.pc[u].i { u := us[0]; }
    }
  }

  /** The workers in `s` that sleep, among the first `k`. */
  ghost function Sleepers(s: State, k: nat): (us: seq<nat>)
    requires k <= |s.pc|
    ensures forall x :: x in us <==> 0 <= x < k && Sleeps(s, s.pc[x])
  {
    if k == 0 then []
    else Sleepers(s, k - 1) + if Sleeps(s, s.pc[k - 1]) then [k - 1] else []
  }

  lemma Lowest(c: Config, s: State, v: nat) returns (u: nat)
    requires Inv(c, s) && Stalled(c, s) && v < c.workers && Sleeps(s, s.pc[v])
    ensures u < c.workers && Sleeps(s, s.pc[u]) && s.exIdx <= s.pc[u].i
    ensures forall w :: 0 <= w < c.workers && Sleeps(s, s.pc[w]) ==> s.pc[u].i <= s.pc[w].i
  {
    var us := Sleepers(s, c.workers);
    assert v in us && forall k :: 0 <= k < |us| ==> us[k] in us;
    u := FindLowest(s, us);
    forall w | 0 <= w < c.workers && Sleeps(s, s.pc[w]) ensures s.pc[u].i <= s.pc[w].i { assert w in us; }
    LowestSleeper(c, s, u);
  }

  // ---------------------------------------------------------------- no deadlock

  /** As long as some worker has not left, one of them can take a step. */
  lemma NoDeadlock(c: Config, s: State, v: nat)
    requires Inv(c, s) && v < c.workers && s.pc[v] != Idle(Exit)
    ensures exists u :: 0 <= u < c.workers && CanStep(c, s, u)
  {
    if forall u :: 0 <= u < c.workers ==> !CanStep(c, s, u) {
      Enabled(c, s, v);
      OnlySleepers(c, s, v);
      Knows(c, s, v);
      assert !s.txns[s.pc[v].i].status.Committed?;
      var u := Lowest(c, s, v);
      var m := s.lastMod;
      if s.pc[m] != Idle(Exit) {
        Enabled(c, s, m);
        OnlySleepers(c, s, m);
      }
    }
  }

  /** No run reaches a deadlock. */
  lemma DeadlockFree(c: Config, tr: seq<State>, k: nat, v: nat)
    requires IsRun(c, tr) && k < |tr| && v < |tr[k].pc| && tr[k].pc[v] != Idle(Exit)
    ensures exists u :: 0 <= u < c.workers && CanStep(c, tr[k], u)
  {
    RunInv(c, tr, k);
    NoDeadlock(c, tr[k], v);
  }

  // ---------------------------------------------------------------- quiescence

  /** Every worker is idle or blocked, and next_task has nothing to hand out. */
  ghost predicate Quiet(c: Config, s: State) {
    Stalled(c, s) && s.exIdx >= c.n && s.valIdx >= c.n
  }

  lemma QuietIdle(c: Config, s: State, u: nat)
    requires Inv(c, s) && Quiet(c, s) && u < c.workers
    ensures s.pc[u].Idle?
  {
    OnlySleepers(c, s, u);
    if !s.pc[u].Idle? {
      var v := Lowest(c, s, u);
      Knows(c, s, v);
    }
  }

  /** Every transaction is committed, or executed and validated recently enough to be. */
  lemma QuietSettled(c: Config, s: State, i: nat)
    requires Inv(c, s) && Quiet(c, s) && i < c.n
    ensures s.txns[i].vlock.None?
    ensures s.txns[i].status.Committed? || (s.txns[i].status.Executed? && T.Credited(s.txns[i].vstat, s.need[i]))
  {
    NoValLock(c, s, i);
    forall v | 0 <= v < c.workers ensures s.pc[v].Idle? { QuietIdle(c, s, v); }
    Unowned(c, s, i);
    if s.txns[i].status.Ready? { ReadyAbove(c, s, i); }
    assert T.TVh(s, i);
  }

  lemma QuietCommits(c: Config, s: State)
    requires Inv(c, s) && Quiet(c, s) && s.commitIdx < c.n
    ensures TryCommit(c, s).commitIdx == s.commitIdx + 1
  {
    QuietSettled(c, s, s.commitIdx);
    assert W.TOk(W.WaveView(s), s.commitIdx);
  }

  lemma CommitKeepsQuiet(c: Config, s: State)
    requires Inv(c, s) && Quiet(c, s)
    ensures Quiet(c, TryCommit(c, s))
  {
    var s' := TryCommit(c, s);
    forall u | 0 <= u < c.workers ensures s'.pc[u].Idle? { QuietIdle(c, s, u); }
  }

  function TryCommits(c: Config, s: State, k: nat): State
    requires Shape(c, s)
    decreases k
  {
    if k == 0 then s else TryCommits(c, TryCommit(c, s), k - 1)
  }

  /** From a quiet state, try_commit alone finishes the block. */
  lemma {:induction false} QuietFinishes(c: Config, s: State)
    requires Inv(c, s) && Quiet(c, s)
    ensures var s' := TryCommits(c, s, c.n - s.commitIdx + 1);
            Inv(c, s') && s'.done && s'.commitIdx == c.n
    decreases c.n - s.commitIdx
  {
    CommitInv(c, s);
    if s.commitIdx < c.n {
      QuietCommits(c, s);
      CommitKeepsQuiet(c, s);
      QuietFinishes(c, TryCommit(c, s));
    } else {
      assert TryCommits(c, s, 1) == TryCommits(c, TryCommit(c, s), 0);
    }
  }
}
