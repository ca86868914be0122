/**
 The executor performs the ownership protocol: every step of a worker is one of its
 operations, or does not touch the part of the state it speaks about.
 */
module BlockStmView {
  import opened Options
  import opened BlockStm
  import O = BlockStmOwnership

  function OwnTxnOf(t: Txn): O.OwnTxn {
    O.OwnTxn(t.status, t.vlock, t.dlock, t.owner, t.sig, t.dirty, t.aborted)
  }

  function RunRoleOf(ex: ExecPc): O.RunRole {
    match ex
    case HoldDep(d) => O.Hold(d)
    case PushDep(d, cv) => O.Push(d, cv)
    case Waiting(d, cv) => O.Sleep(d, cv)
    case Locked(_) => O.HasLock
    case _ => O.Active
  }

  function WroteOutside(ex: ExecPc): bool {
    match ex
    case Apply(_, _, _, o) => o
    case RecordOut(_, o) => o
    case WantLock(o) => o
    case Locked(o) => o
    case _ => false
  }

  function FinOutside(f: FinPc): bool {
    match f
    case Take(o) => o
    case Resume(o, _, _) => o
    case Load(o) => o
    case Decrease => true
  }

  function RoleOf(p: Pc): O.Role {
    match p
    case Idle(_) => O.Free
    case GotVal(_, _) => O.Free
    case GotEx(_) => O.Free
    case Signal(i, inc, cv) => O.Signaler(i, inc, cv)
    case Exec(i, inc, _, ex) => O.Runner(i, inc, WroteOutside(ex), RunRoleOf(ex))
    case Fin(i, inc, f) => O.Finisher(i, inc, FinOutside(f))
    case Val(i, inc, _, _) => O.Validator(i, inc)
    case Aborter(i, inc, ab) => O.Killer(i, inc, ab.AbortLocked?)
    case FinAbort(i, inc, fa) => O.Rescheduler(i, inc, fa.AbortDecrease?)
  }

  function OwnView(s: State): O.Own {
    O.Own(seq(|s.txns|, i requires 0 <= i < |s.txns| => OwnTxnOf(s.txns[i])),
          s.cvs,
          seq(|s.pc|, u requires 0 <= u < |s.pc| => RoleOf(s.pc[u])))
  }

  /** Program counter of the worker named by a lock, owner or hand field. */
  function PcOf(s: State, w: Option<nat>): Pc {
    if w.Some? && w.value < |s.pc| then s.pc[w.value] else Idle(Top)
  }

  ghost predicate InvOwn(c: Config, s: State) {
    && Shape(c, s)
    && (forall u :: 0 <= u < c.workers ==> PcShape(c, s.pc[u]))
    && O.IOwn(OwnView(s))
  }

  lemma InitOwn(c: Config, s: State)
    requires Init(c, s) && c.workers > 0
    ensures InvOwn(c, s)
  {
    var o := OwnView(s);
    forall u | 0 <= u < |o.role| ensures O.W(o, u) { assert s.pc[u] == Idle(Top); }
    forall i | 0 <= i < |o.txns| ensures O.T(o, i) { assert s.txns[i] == InitTxn; }
  }

  // ---------------------------------------------------------------- the two ways to change state

  lemma ViewPut(s: State, u: nat, i: nat, t: Txn, p: Pc)
    requires u < |s.pc| && i < |s.txns|
    ensures OwnView(Put(s, u, i, t, p)) == O.Set(OwnView(s), u, i, OwnTxnOf(t), RoleOf(p))
  {}

  lemma ViewGoto(s: State, u: nat, p: Pc)
    requires u < |s.pc|
    ensures OwnView(Goto(s, u, p)) == OwnView(s).(role := OwnView(s).role[u := RoleOf(p)])
  {}

  /** What the protocol knows about a worker, said about its program counter. */
  lemma Knows(c: Config, s: State, u: nat)
    requires InvOwn(c, s) && u < c.workers
    ensures PcShape(c, s.pc[u])
    ensures O.W(OwnView(s), u) && OwnView(s).role[u] == RoleOf(s.pc[u])
  {}

  lemma KnowsTxn(c: Config, s: State, i: nat)
    requires InvOwn(c, s) && i < c.n
    ensures O.T(OwnView(s), i) && OwnView(s).txns[i] == OwnTxnOf(s.txns[i])
  {}

  // ---------------------------------------------------------------- steps

  /** A step that changes neither the role of the worker nor the view of a transaction. */
  lemma QuietPut(c: Config, s: State, u: nat, i: nat, t: Txn, p: Pc)
    requires InvOwn(c, s) && u < c.workers && i < c.n
    requires OwnTxnOf(t) == OwnTxnOf(s.txns[i]) && RoleOf(p) == RoleOf(s.pc[u])
    ensures OwnView(Put(s, u, i, t, p)) == OwnView(s)
  {
    ViewPut(s, u, i, t, p);
    var o := OwnView(s);
    assert O.Set(o, u, i, o.txns[i], o.role[u]) == o;
  }

  lemma OwnIdle(c: Config, s: State, u: nat)
    requires InvOwn(c, s) && u < c.workers && s.pc[u].Idle?
    ensures O.IOwn(OwnView(IdleStep(c, s, u, s.pc[u].idle)))
  {
    var s' := IdleStep(c, s, u, s.pc[u].idle);
    assert OwnView(s').txns == OwnView(s).txns;
    assert OwnView(s').role == OwnView(s).role;
  }

  lemma OwnGotVal(c: Config, s: State, u: nat, i: nat, w: nat)
    requires InvOwn(c, s) && u < c.workers && s.pc[u] == GotVal(i, w) && i < c.n
    ensures O.IOwn(OwnView(GotValStep(c, s, u, i, w)))
  {
    var st := s.txns[i].status;
    ViewGoto(s, u, if st.Executed? then Val(i, st.inc, w, Task) else Idle(Top));
    if st.Executed? { O.BeginVal(OwnView(s), u, i); }
    else { assert OwnView(s).role[u := O.Free] == OwnView(s).role; }
  }

  lemma OwnIncarnate(c: Config, s: State, u: nat, i: nat)
    requires InvOwn(c, s) && u < c.workers && RoleOf(s.pc[u]).Free? && i < c.n
    ensures O.IOwn(OwnView(TryIncarnate(c, s, u, i)))
  {
    var o, t := OwnView(s), s.txns[i];
    match t.status
    case Ready(inc, None) =>
      ViewPut(s, u, i, t.(status := Executing(inc), owner := Some(u)), Exec(i, inc, [], Running));
      O.Incarnate(o, u, i, inc);
    case Ready(inc, Some(cv)) =>
      ViewPut(s, u, i, t.(status := Executing(inc), sig := Some(u)), Signal(i, inc, cv));
      O.IncarnateSleeping(o, u, i, inc, cv);
    case _ =>
      ViewGoto(s, u, Idle(Top));
      assert o.role[u := O.Free] == o.role;
  }

  lemma OwnSignal(c: Config, s: State, u: nat, i: nat, inc: nat, cv: nat)
    requires InvOwn(c, s) && u < c.workers && s.pc[u] == Signal(i, inc, cv) && i < c.n && cv < |s.cvs|
    ensures O.IOwn(OwnView(SignalStep(c, s, u, i, cv)))
  {
    O.Wakeup(OwnView(s), u, i, inc, cv);
    var s1 := s.(cvs := s.cvs[cv := Condvar(i, true)]);
    ViewPut(s1, u, i, s.txns[i].(sig := None), Idle(Top));
    assert s.cvs[cv].(resolved := true) == Condvar(i, true);
  }

  /** A step that only moves the worker on, within its role. */
  lemma QuietGoto(c: Config, s: State, u: nat, p: Pc)
    requires InvOwn(c, s) && u < c.workers && RoleOf(p) == RoleOf(s.pc[u])
    ensures OwnView(Goto(s, u, p)) == OwnView(s)
  {
    ViewGoto(s, u, p);
    assert OwnView(s).role[u := RoleOf(p)] == OwnView(s).role;
  }

  lemma OwnRun(c: Config, s: State, u: nat, p: Pc)
    requires InvOwn(c, s) && u < c.workers && p == s.pc[u] && p.Exec? && p.ex.Running? && PcShape(c, p)
    ensures OwnView(RunStep(c, s, u, p)) == OwnView(s)
  {
    var s' := RunStep(c, s, u, p);
    assert RoleOf(s'.pc[u]) == RoleOf(p);
    assert OwnView(s').role == OwnView(s).role;
  }

  lemma OwnWantDep(c: Config, s: State, u: nat, p: Pc)
    requires InvOwn(c, s) && u < c.workers && p == s.pc[u] && p.Exec? && p.ex.WantDep? && PcShape(c, p)
    requires s.txns[p.ex.d].dlock.None?
    ensures O.IOwn(OwnView(WantDepStep(c, s, u, p)))
  {
    var d := p.ex.d;
    if IsExecuted(s.txns[d].status) { QuietGoto(c, s, u, p.(ex := Running)); }
    else {
      ViewPut(s, u, d, s.txns[d].(dlock := Some(u)), p.(ex := HoldDep(d)));
      O.LockDep(OwnView(s), u, p.i, p.inc, false, d);
    }
  }

  lemma OwnSuspend(c: Config, s: State, u: nat, p: Pc)
    requires InvOwn(c, s) && u < c.workers && p == s.pc[u] && p.Exec? && p.ex.HoldDep? && PcShape(c, p)
    requires s.txns[p.i].status.Executing?
    ensures O.IOwn(OwnView(SuspendStep(c, s, u, p)))
  {
    Knows(c, s, u);
    var cv, d := |s.cvs|, p.ex.d;
    ViewPut(s.(cvs := s.cvs + [Condvar(p.i, false)]), u, p.i,
            s.txns[p.i].(status := Suspended(p.inc, cv)), p.(ex := PushDep(d, cv)));
    O.Suspend(OwnView(s), u, p.i, p.inc, false, d);
  }

  lemma OwnPush(c: Config, s: State, u: nat, p: Pc)
    requires InvOwn(c, s) && u < c.workers && p == s.pc[u] && p.Exec? && p.ex.PushDep? && PcShape(c, p)
    ensures O.IOwn(OwnView(PushDepStep(c, s, u, p)))
  {
    var d, cv := p.ex.d, p.ex.cv;
    ViewPut(s, u, d, s.txns[d].(deps := s.txns[d].deps + [p.i], dlock := None), p.(ex := Waiting(d, cv)));
    O.PushDep(OwnView(s), u, p.i, p.inc, false, d, cv);
  }

  lemma OwnAwake(c: Config, s: State, u: nat, p: Pc)
    requires InvOwn(c, s) && u < c.workers && p == s.pc[u] && p.Exec? && p.ex.Waiting?
    requires p.ex.cv < |s.cvs| && s.cvs[p.ex.cv].resolved
    ensures O.IOwn(OwnView(Goto(s, u, p.(ex := Running))))
  {
    ViewGoto(s, u, p.(ex := Running));
    O.Awake(OwnView(s), u, p.i, p.inc, false, p.ex.d, p.ex.cv);
  }

  lemma OwnAddWrite(c: Config, s: State, u: nat, p: Pc, k: Key)
    requires InvOwn(c, s) && u < c.workers && p == s.pc[u] && p.Exec? && p.ex.Apply? && PcShape(c, p)
    requires k in p.ex.todo
    ensures O.IOwn(OwnView(AddWriteStep(c, s, u, p, k)))
  {
    var s' := AddWriteStep(c, s, u, p, k);
    O.Write(OwnView(s), u, p.i, p.inc, p.ex.outside, p.ex.outside || k !in p.ex.prev);
    ViewPut(s.(log := s'.log), u, p.i, s'.txns[p.i], s'.pc[u]);
    assert OwnView(s.(log := s'.log)) == OwnView(s);
  }

  lemma OwnApply(c: Config, s: State, u: nat, p: Pc, s': State)
    requires InvOwn(c, s) && u < c.workers && p == s.pc[u] && PcShape(c, p)
    requires p.Exec? && p.ex.Apply? && ApplyStep(c, s, u, p, s')
    ensures O.IOwn(OwnView(s'))
  {
    if p.ex.todo != map[] {
      var k :| k in p.ex.todo && s' == AddWriteStep(c, s, u, p, k);
      OwnAddWrite(c, s, u, p, k);
    } else {
      QuietPut(c, s, u, p.i, s'.txns[p.i], s'.pc[u]);
    }
  }

  lemma OwnRecordOut(c: Config, s: State, u: nat, p: Pc)
    requires InvOwn(c, s) && u < c.workers && p == s.pc[u] && PcShape(c, p) && p.Exec? && p.ex.RecordOut?
    ensures O.IOwn(OwnView(RecordOutStep(c, s, u, p)))
  {
    var s' := RecordOutStep(c, s, u, p);
    QuietPut(c, s, u, p.i, s'.txns[p.i], s'.pc[u]);
  }

  lemma OwnLockRun(c: Config, s: State, u: nat, p: Pc)
    requires InvOwn(c, s) && u < c.workers && p == s.pc[u] && PcShape(c, p) && p.Exec? && p.ex.WantLock?
    requires s.txns[p.i].vlock.None?
    ensures O.IOwn(OwnView(LockStep(c, s, u, p.(ex := Locked(p.ex.outside)))))
  {
    var s' := LockStep(c, s, u, p.(ex := Locked(p.ex.outside)));
    ViewPut(s, u, p.i, s'.txns[p.i], s'.pc[u]);
    O.LockRun(OwnView(s), u, p.i, p.inc, p.ex.outside);
  }

  lemma OwnSetExecuted(c: Config, s: State, u: nat, p: Pc)
    requires InvOwn(c, s) && u < c.workers && p == s.pc[u] && PcShape(c, p) && p.Exec? && p.ex.Locked?
    ensures O.IOwn(OwnView(SetExecutedStep(c, s, u, p)))
  {
    var s' := SetExecutedStep(c, s, u, p);
    ViewPut(s, u, p.i, s'.txns[p.i], s'.pc[u]);
    O.SetExecuted(OwnView(s), u, p.i, p.inc, p.ex.outside);
  }

  /** The worker resumes only transactions whose run is asleep. */
  ghost predicate ResumesSleeper(c: Config, s: State, p: Pc) {
    p.Fin? && p.fin.Resume? && p.fin.todo != [] ==>
      && p.fin.todo[0] < |s.txns|
      && var own := PcOf(s, s.txns[p.fin.todo[0]].owner); own.Exec? && own.ex.Waiting?
  }

  lemma OwnFin(c: Config, s: State, u: nat, p: Pc, s': State)
    requires InvOwn(c, s) && u < c.workers && p == s.pc[u] && PcShape(c, p) && !Panics(c, s, u)
    requires p.Fin? && ResumesSleeper(c, s, p) && FinStep(c, s, u, p, s')
    ensures O.IOwn(OwnView(s'))
  {
    var o := OwnView(s);
    match p.fin
    case Take(_) => QuietPut(c, s, u, p.i, s'.txns[p.i], s'.pc[u]);
    case Resume(w, todo, all) =>
      if todo != [] {
        var t := s.txns[todo[0]];
        ViewPut(s, u, todo[0], s'.txns[todo[0]], s'.pc[u]);
        O.ResumeDep(o, u, todo[0], t.status.inc, t.status.dcv);
        assert OwnView(s') == o.(txns := OwnView(s').txns);
      } else {
        QuietGoto(c, s, u, s'.pc[u]);
        assert OwnView(s') == OwnView(Goto(s, u, s'.pc[u]));
      }
    case Load(_) => OwnLoad(c, s, u, p);
    case Decrease => OwnDecrease(c, s, u, p);
  }

  lemma OwnLoad(c: Config, s: State, u: nat, p: Pc)
    requires InvOwn(c, s) && u < c.workers && p == s.pc[u] && p.Fin? && p.fin.Load? && PcShape(c, p)
    ensures O.IOwn(OwnView(LoadStep(c, s, u, p)))
  {
    var s' := LoadStep(c, s, u, p);
    if s.valIdx > p.i && p.fin.outside { QuietGoto(c, s, u, s'.pc[u]); }
    else {
      ViewPut(s, u, p.i, s'.txns[p.i], s'.pc[u]);
      O.ReleaseFin(OwnView(s), u, p.i, p.inc, p.fin.outside, RoleOf(s'.pc[u]));
    }
  }

  lemma OwnDecrease(c: Config, s: State, u: nat, p: Pc)
    requires InvOwn(c, s) && u < c.workers && p == s.pc[u] && p.Fin? && p.fin.Decrease? && PcShape(c, p)
    ensures O.IOwn(OwnView(DecreaseStep(c, s, u, p)))
  {
    var s' := DecreaseStep(c, s, u, p);
    ViewPut(s, u, p.i, s'.txns[p.i], s'.pc[u]);
    O.ReleaseFin(OwnView(s), u, p.i, p.inc, true, O.Free);
    assert OwnView(s').txns == OwnView(Put(s, u, p.i, s'.txns[p.i], s'.pc[u])).txns;
  }

  lemma OwnCredit(c: Config, s: State, u: nat, p: Pc)
    requires InvOwn(c, s) && u < c.workers && p == s.pc[u] && PcShape(c, p) && p.Val?
    ensures O.IOwn(OwnView(CreditStep(c, s, u, p)))
  {
    var o, s' := OwnView(s), CreditStep(c, s, u, p);
    ViewPut(s, u, p.i, s'.txns[p.i], s'.pc[u]);
    O.EndVal(o, u);
    assert o.txns[p.i := o.txns[p.i]] == o.txns;
  }

  lemma OwnTryAbort(c: Config, s: State, u: nat, p: Pc)
    requires InvOwn(c, s) && u < c.workers && p == s.pc[u] && PcShape(c, p) && p.Val?
    ensures O.IOwn(OwnView(TryAbortStep(c, s, u, p)))
  {
    var s' := TryAbortStep(c, s, u, p);
    if s.txns[p.i].status == Executed(p.inc) {
      ViewPut(s, u, p.i, s'.txns[p.i], s'.pc[u]);
      O.TryAbort(OwnView(s), u, p.i, p.inc);
    } else {
      QuietGoto(c, s, u, s'.pc[u]);
    }
  }

  lemma OwnVal(c: Config, s: State, u: nat, p: Pc, s': State)
    requires InvOwn(c, s) && u < c.workers && p == s.pc[u] && PcShape(c, p) && !Panics(c, s, u)
    requires p.Val? && ValStep(c, s, u, p, s')
    ensures O.IOwn(OwnView(s'))
  {
    match p.val
    case Credit => OwnCredit(c, s, u, p);
    case Failed => OwnTryAbort(c, s, u, p);
    case _ => QuietGoto(c, s, u, s'.pc[u]);
  }

  lemma OwnMark(c: Config, s: State, u: nat, p: Pc, k: Key)
    requires InvOwn(c, s) && u < c.workers && p == s.pc[u] && PcShape(c, p) && p.Aborter? && p.ab.Mark?
    requires k in s.txns[p.i].mv
    ensures O.IOwn(OwnView(MarkStep(c, s, u, p, k)))
  {
    var s' := MarkStep(c, s, u, p, k);
    QuietPut(c, s, u, p.i, s'.txns[p.i], s'.pc[u]);
  }

  lemma OwnLockKill(c: Config, s: State, u: nat, p: Pc)
    requires InvOwn(c, s) && u < c.workers && p == s.pc[u] && PcShape(c, p) && p.Aborter? && p.ab.Mark?
    requires s.txns[p.i].vlock.None?
    ensures O.IOwn(OwnView(LockStep(c, s, u, p.(ab := AbortLocked))))
  {
    var s' := LockStep(c, s, u, p.(ab := AbortLocked));
    ViewPut(s, u, p.i, s'.txns[p.i], s'.pc[u]);
    O.LockKill(OwnView(s), u, p.i, p.inc);
  }

  lemma OwnSetAborted(c: Config, s: State, u: nat, p: Pc)
    requires InvOwn(c, s) && u < c.workers && p == s.pc[u] && PcShape(c, p) && p.Aborter? && p.ab.AbortLocked?
    ensures O.IOwn(OwnView(SetAbortedStep(c, s, u, p)))
  {
    var s' := SetAbortedStep(c, s, u, p);
    ViewPut(s, u, p.i, s'.txns[p.i], s'.pc[u]);
    O.SetAborted(OwnView(s), u, p.i, p.inc);
  }

  lemma OwnAbort(c: Config, s: State, u: nat, p: Pc, s': State)
    requires InvOwn(c, s) && u < c.workers && p == s.pc[u] && PcShape(c, p) && !Panics(c, s, u)
    requires p.Aborter? && AbortStep(c, s, u, p, s')
    ensures O.IOwn(OwnView(s'))
  {
    match p.ab
    case LoadKeys => QuietGoto(c, s, u, s'.pc[u]);
    case Mark(todo) =>
      if todo != {} {
        var k :| k in todo && s' == MarkStep(c, s, u, p, k);
        OwnMark(c, s, u, p, k);
      } else { OwnLockKill(c, s, u, p); }
    case AbortLocked => OwnSetAborted(c, s, u, p);
  }

  lemma OwnReincarnate(c: Config, s: State, u: nat, p: Pc)
    requires InvOwn(c, s) && u < c.workers && p == s.pc[u] && p.FinAbort? && p.fa.Reincarnate? && PcShape(c, p)
    ensures O.IOwn(OwnView(ReincarnateStep(c, s, u, p)))
  {
    // the lock is released first, then the transaction is taken like any other
    var s1 := Put(s, u, p.i, s.txns[p.i].(vlock := None), Idle(Top));
    ViewPut(s, u, p.i, s.txns[p.i].(vlock := None), Idle(Top));
    O.ReleaseAbort(OwnView(s), u, p.i, p.inc);
    assert PcShape(c, Idle(Top));
    OwnIncarnate(c, s1, u, p.i);
    assert TryIncarnate(c, s1, u, p.i).pc == ReincarnateStep(c, s, u, p).pc;
  }

  lemma OwnFinAbort(c: Config, s: State, u: nat, p: Pc, s': State)
    requires InvOwn(c, s) && u < c.workers && p == s.pc[u] && PcShape(c, p) && !Panics(c, s, u)
    requires p.FinAbort? && FinAbortStep(c, s, u, p, s')
    ensures O.IOwn(OwnView(s'))
  {
    var o := OwnView(s);
    match p.fa
    case AbortDecrease =>
      ViewPut(s, u, p.i, s'.txns[p.i], s'.pc[u]);
      O.AbortWave(o, u, p.i, p.inc);
      assert OwnView(s').txns == OwnView(Put(s, u, p.i, s'.txns[p.i], s'.pc[u])).txns;
    case AbortLoadEx =>
      if s.exIdx > p.i { QuietGoto(c, s, u, s'.pc[u]); }
      else {
        ViewPut(s, u, p.i, s'.txns[p.i], s'.pc[u]);
        O.ReleaseAbort(o, u, p.i, p.inc);
      }
    case Reincarnate => OwnReincarnate(c, s, u, p);
  }

  lemma OwnCommit(c: Config, s: State)
    requires InvOwn(c, s)
    ensures InvOwn(c, TryCommit(c, s))
  {
    var i := s.commitIdx;
    if i < c.n && s.txns[i].vlock.None? && s.txns[i].status.Executed? {
      O.Commit(OwnView(s), i);
      var t := s.txns[i].(status := Committed(s.txns[i].status.inc));
      assert OwnView(TryCommit(c, s)) == OwnView(s)
          || OwnView(TryCommit(c, s)) == OwnView(s).(txns := OwnView(s).txns[i := OwnTxnOf(t)]);
    } else {
      assert OwnView(TryCommit(c, s)) == OwnView(s);
    }
  }

  lemma OwnExec(c: Config, s: State, u: nat, p: Pc, s': State)
    requires InvOwn(c, s) && u < c.workers && p == s.pc[u] && PcShape(c, p) && !Panics(c, s, u)
    requires p.Exec? && ExecStep(c, s, u, p, s')
    ensures O.IOwn(OwnView(s'))
  {
    match p.ex
    case Running => OwnRun(c, s, u, p);
    case WantDep(_) => OwnWantDep(c, s, u, p);
    case HoldDep(_) => OwnSuspend(c, s, u, p);
    case PushDep(_, _) => OwnPush(c, s, u, p);
    case Waiting(_, _) => OwnAwake(c, s, u, p);
    case Apply(_, _, _, _) => OwnApply(c, s, u, p, s');
    case RecordOut(_, _) => OwnRecordOut(c, s, u, p);
    case WantLock(_) => OwnLockRun(c, s, u, p);
    case Locked(_) => OwnSetExecuted(c, s, u, p);
  }

  lemma OwnStep(c: Config, s: State, u: nat, s': State)
    requires InvOwn(c, s) && Step(c, s, u, s') && ResumesSleeper(c, s, s.pc[u])
    ensures O.IOwn(OwnView(s'))
  {
    var p := s.pc[u];
    match p
    case Idle(_) => OwnIdle(c, s, u);
    case GotVal(i, w) => OwnGotVal(c, s, u, i, w);
    case GotEx(i) => OwnIncarnate(c, s, u, i);
    case Signal(i, inc, cv) => OwnSignal(c, s, u, i, inc, cv);
    case Exec(_, _, _, _) => OwnExec(c, s, u, p, s');
    case Fin(_, _, _) => OwnFin(c, s, u, p, s');
    case Val(_, _, _, _) => OwnVal(c, s, u, p, s');
    case Aborter(_, _, _) => OwnAbort(c, s, u, p, s');
    case FinAbort(_, _, _) => OwnFinAbort(c, s, u, p, s');
  }

  /** The other workers do not move, and every worker keeps its indices in range. */
  lemma ShapeStep(c: Config, s: State, u: nat, s': State)
    requires Step(c, s, u, s')
    ensures Moved(c, s, u, s')
  {}

  /** A transaction the step does not touch keeps the workers its fields name. */
  lemma Frame(c: Config, s: State, u: nat, s': State, x: nat)
    requires InvOwn(c, s) && Moved(c, s, u, s') && x < c.n && s'.txns[x] == s.txns[x]
    requires RoleOf(s.pc[u]).Free? || TxnOf(s.pc[u]) != x
    ensures PcOf(s', s.txns[x].owner) == PcOf(s, s.txns[x].owner)
    ensures PcOf(s', s.txns[x].vlock) == PcOf(s, s.txns[x].vlock)
  {
    KnowsTxn(c, s, x);
    Knows(c, s, u);
  }

  // ---------------------------------------------------------------- calm steps

  /** Program counters at which a worker only reads, writes data or computes. */
  predicate IsCalm(p: Pc) {
    match p
    case Exec(_, _, _, ex) => ex.Running? || ex.Apply? || ex.RecordOut?
    case Val(_, _, _, v) => v.Task? || v.Check?
    case Aborter(_, _, ab) => ab.LoadKeys? || (ab.Mark? && ab.todo != {})
    case _ => false
  }

  /** The worker stays on its version in the same capacity. */
  predicate Stays(p: Pc, p': Pc) {
    match p
    case Exec(i, inc, _, ex) =>
      p'.Exec? && p'.i == i && p'.inc == inc && RunRoleOf(ex).Active? && RunRoleOf(p'.ex).Active?
    case Val(i, inc, w, _) => p'.Val? && p'.i == i && p'.inc == inc && p'.w == w
    case Aborter(i, inc, ab) =>
      p'.Aborter? && p'.i == i && p'.inc == inc && !ab.AbortLocked? && !p'.ab.AbortLocked?
    case _ => false
  }

  /** Only the data of one transaction, its write log and one program counter changed. */
  ghost predicate Calm(c: Config, s: State, u: nat, s': State) {
    && Moved(c, s, u, s') && Shape(c, s) && Only(s, s', TxnOf(s.pc[u]))
    && Stays(s.pc[u], s'.pc[u]) && TxnOf(s.pc[u]) < c.n
    && var i := TxnOf(s.pc[u]);
       var t, t' := s.txns[i], s'.txns[i];
       && t' == t.(mv := t'.mv, input := t'.input, output := t'.output, dirty := t'.dirty)
       && s' == s.(txns := s.txns[i := t'], pc := s'.pc, log := s'.log)
  }

  lemma CalmExec(c: Config, s: State, u: nat, p: Pc, s': State)
    requires Step(c, s, u, s') && p == s.pc[u] && p.Exec? && IsCalm(p) && !p.ex.Apply?
    ensures Calm(c, s, u, s')
  {
    var i := p.i;
    if p.ex.Running? { assert s.txns[i := s.txns[i]] == s.txns; }
  }

  lemma CalmAddWrite(c: Config, s: State, u: nat, p: Pc, k: Key)
    requires Shape(c, s) && u < c.workers && p == s.pc[u] && PcShape(c, p) && p.Exec? && p.ex.Apply? && k in p.ex.todo
    ensures Calm(c, s, u, AddWriteStep(c, s, u, p, k))
  {}

  lemma CalmApply(c: Config, s: State, u: nat, p: Pc, s': State)
    requires Shape(c, s) && u < c.workers && p == s.pc[u] && PcShape(c, p)
    requires p.Exec? && p.ex.Apply? && ApplyStep(c, s, u, p, s')
    ensures Calm(c, s, u, s')
  {
    if p.ex.todo != map[] {
      var k :| k in p.ex.todo && s' == AddWriteStep(c, s, u, p, k);
      CalmAddWrite(c, s, u, p, k);
    }
  }

  lemma CalmOther(c: Config, s: State, u: nat, p: Pc, s': State)
    requires Step(c, s, u, s') && p == s.pc[u] && IsCalm(p) && !p.Exec?
    ensures Calm(c, s, u, s')
  {
    assert s.txns[p.i := s.txns[p.i]] == s.txns;
  }

  lemma CalmStep(c: Config, s: State, u: nat, s': State)
    requires Step(c, s, u, s') && IsCalm(s.pc[u])
    ensures Calm(c, s, u, s')
  {
    var p := s.pc[u];
    if p.Exec? && p.ex.Apply? { CalmApply(c, s, u, p, s'); }
    else if p.Exec? { CalmExec(c, s, u, p, s'); }
    else { CalmOther(c, s, u, p, s'); }
  }
}
