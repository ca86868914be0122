/**
 Who may change what: a transaction that is executing, suspended or aborting belongs to one
 worker, every lock has one holder, and a sleeping run is woken exactly once.

 The argument needs only part of the state, `Own`: what each worker is doing (its role) and
 the status, locks and owner of each transaction.  Every step of the executor either leaves
 this part alone or performs one of the operations below on it.
 */
module BlockStmOwnership {
  import opened Options
  import opened BlockStm

  datatype OwnTxn = OwnTxn(status: Status, vlock: Option<nat>, dlock: Option<nat>,
                           owner: Option<nat>, sig: Option<nat>, dirty: bool, aborted: bool)

  datatype RunRole = Active | Hold(d: nat) | Push(d: nat, cv: nat) | Sleep(d: nat, cv: nat) | HasLock

  datatype Role =
    | Free
    | Signaler(i: nat, inc: nat, cv: nat)
    | Runner(i: nat, inc: nat, outside: bool, run: RunRole)
    | Finisher(i: nat, inc: nat, outside: bool)
    | Validator(i: nat, inc: nat)
    | Killer(i: nat, inc: nat, locked: bool)
    | Rescheduler(i: nat, inc: nat, first: bool)

  datatype Own = Own(txns: seq<OwnTxn>, cvs: seq<Condvar>, role: seq<Role>)

  /** The role of the worker named by a lock or owner field. */
  ghost function RoleOf(o: Own, w: Option<nat>): Role {
    if w.Some? && w.value < |o.role| then o.role[w.value] else Free
  }

  predicate HoldsV(r: Role, i: nat) {
    match r
    case Runner(j, _, _, run) => j == i && run.HasLock?
    case Finisher(j, _, _) => j == i
    case Killer(j, _, locked) => j == i && locked
    case Rescheduler(j, _, _) => j == i
    case _ => false
  }

  predicate HoldsD(r: Role, d: nat) {
    r.Runner? && (r.run.Hold? || r.run.Push?) && r.run.d == d
  }

  /** The version has been executed. */
  predicate Finished(st: Status) { IsExecuted(st) || st.Aborting? }

  /** Facts about the worker `u` and the transaction of its role. */
  ghost predicate W(o: Own, u: nat)
    requires u < |o.role|
  {
    var r := o.role[u];
    r.Free? ||
    (&& r.i < |o.txns|
     && var t := o.txns[r.i];
        match r
        case Signaler(i, inc, cv) =>
          cv < |o.cvs| && t.sig == Some(u) && t.status == Executing(inc) && o.cvs[cv] == Condvar(i, false)
        case Runner(i, inc, outside, run) =>
          t.owner == Some(u) && (outside ==> t.dirty) && WRun(o, u, i, inc, run)
        case Finisher(i, inc, outside) =>
          && t.vlock == Some(u) && (t.status == Executed(inc) || t.status == Aborting(inc))
          && (outside ==> t.dirty)
        case Validator(i, inc) => inc < t.status.inc || (inc == t.status.inc && Finished(t.status))
        case Killer(i, inc, locked) =>
          t.owner == Some(u) && t.status == Aborting(inc) && t.aborted && (locked ==> t.vlock == Some(u))
        case Rescheduler(i, inc, first) =>
          && t.vlock == Some(u) && t.status.inc == inc + 1 && (first ==> t.aborted)
          && (t.status.Ready? || t.status.Executing? || t.status.Suspended?))
  }

  ghost predicate WRun(o: Own, u: nat, i: nat, inc: nat, run: RunRole)
    requires i < |o.txns|
  {
    var t := o.txns[i];
    match run
    case Active => t.status == Executing(inc)
    case Hold(d) => d < i && t.status == Executing(inc) && o.txns[d].dlock == Some(u)
    case Push(d, cv) =>
      && d < i && cv < |o.cvs|
      && t.status == Suspended(inc, cv) && o.cvs[cv] == Condvar(i, false) && o.txns[d].dlock == Some(u)
    case Sleep(d, cv) =>
      && d < i && cv < |o.cvs| && o.cvs[cv].txn == i
      && (t.status == Suspended(inc, cv) || t.status == Ready(inc, Some(cv)) || t.status == Executing(inc))
      && (o.cvs[cv].resolved ==> t.status == Executing(inc) && t.sig.None?)
      && (t.status.Executing? && !o.cvs[cv].resolved ==> t.sig.Some?)
    case HasLock => t.status == Executing(inc) && t.vlock == Some(u)
  }

  /** Facts about transaction `i` and the workers its fields name. */
  ghost predicate T(o: Own, i: nat)
    requires i < |o.txns|
  {
    var t := o.txns[i];
    var own := RoleOf(o, t.owner);
    var lock := RoleOf(o, t.vlock);
    var sig := RoleOf(o, t.sig);
    && (t.owner.Some? ==> (own.Runner? || own.Killer?) && own.i == i)
    && (t.owner.None? <==> ((t.status.Ready? && t.status.cv.None?) || IsExecuted(t.status)))
    && (t.vlock.Some? ==> HoldsV(lock, i))
    && (t.dlock.Some? ==> HoldsD(RoleOf(o, t.dlock), i))
    && (t.sig.Some? ==>
          sig.Signaler? && sig.i == i && own.Runner? && own.run.Sleep? && own.run.cv == sig.cv)
    && (t.dirty ==> (own.Runner? && own.outside) || (lock.Finisher? && lock.outside))
    && (t.aborted ==> t.status.Aborting? || (lock.Rescheduler? && lock.first))
  }

  ghost predicate IOwn(o: Own) {
    && (forall u :: 0 <= u < |o.role| ==> W(o, u))
    && (forall i :: 0 <= i < |o.txns| ==> T(o, i))
  }

  // ---------------------------------------------------------------- operations

  ghost function Set(o: Own, u: nat, i: nat, t: OwnTxn, r: Role): Own
    requires u < |o.role| && i < |o.txns|
  {
    o.(txns := o.txns[i := t], role := o.role[u := r])
  }

  lemma Incarnate(o: Own, u: nat, i: nat, inc: nat)
    requires IOwn(o) && u < |o.role| && o.role[u].Free? && i < |o.txns|
    requires o.txns[i].status == Ready(inc, None)
    ensures W(o, u)
    ensures IOwn(Set(o, u, i, o.txns[i].(status := Executing(inc), owner := Some(u)),
                     Runner(i, inc, false, Active)))
  {
    assert W(o, u) && T(o, i);
    var o' := Set(o, u, i, o.txns[i].(status := Executing(inc), owner := Some(u)),
                     Runner(i, inc, false, Active));
    forall v | 0 <= v < |o'.role| ensures W(o', v) { assert W(o, v); }
    forall j | 0 <= j < |o'.txns| ensures T(o', j) { assert T(o, j); }
  }

  lemma IncarnateSleeping(o: Own, u: nat, i: nat, inc: nat, cv: nat)
    requires IOwn(o) && u < |o.role| && o.role[u].Free? && i < |o.txns|
    requires o.txns[i].status == Ready(inc, Some(cv))
    ensures W(o, u)
    ensures IOwn(Set(o, u, i, o.txns[i].(status := Executing(inc), sig := Some(u)), Signaler(i, inc, cv)))
  {
    assert T(o, i) && W(o, o.txns[i].owner.value);
    var o' := Set(o, u, i, o.txns[i].(status := Executing(inc), sig := Some(u)), Signaler(i, inc, cv));
    forall v | 0 <= v < |o'.role| ensures W(o', v) { assert W(o, v); }
    forall j | 0 <= j < |o'.txns| ensures T(o', j) { assert T(o, j); }
  }

  lemma Wakeup(o: Own, u: nat, i: nat, inc: nat, cv: nat)
    requires IOwn(o) && u < |o.role| && o.role[u] == Signaler(i, inc, cv)
    ensures W(o, u)
    ensures IOwn(Set(o.(cvs := o.cvs[cv := Condvar(i, true)]), u, i, o.txns[i].(sig := None), Free))
  {
    assert W(o, u) && T(o, i);
    var o' := Set(o.(cvs := o.cvs[cv := Condvar(i, true)]), u, i, o.txns[i].(sig := None), Free);
    forall v | 0 <= v < |o'.role| ensures W(o', v) { assert W(o, v); }
    forall j | 0 <= j < |o'.txns| ensures T(o', j) { assert T(o, j); }
  }

  lemma LockDep(o: Own, u: nat, i: nat, inc: nat, outside: bool, d: nat)
    requires IOwn(o) && u < |o.role| && o.role[u] == Runner(i, inc, outside, Active)
    requires d < i < |o.txns| && o.txns[d].dlock.None?
    ensures W(o, u)
    ensures IOwn(Set(o, u, d, o.txns[d].(dlock := Some(u)), Runner(i, inc, outside, Hold(d))))
  {
    assert W(o, u) && T(o, i);
    var o' := Set(o, u, d, o.txns[d].(dlock := Some(u)), Runner(i, inc, outside, Hold(d)));
    forall v | 0 <= v < |o'.role| ensures W(o', v) { assert W(o, v); }
    forall j | 0 <= j < |o'.txns| ensures T(o', j) { assert T(o, j); }
  }

  lemma SuspendWorkers(o: Own, u: nat, i: nat, inc: nat, outside: bool, d: nat, o': Own)
    requires IOwn(o) && u < |o.role| && o.role[u] == Runner(i, inc, outside, Hold(d)) && W(o, u)
    requires o' == Set(o.(cvs := o.cvs + [Condvar(i, false)]), u, i,
                       o.txns[i].(status := Suspended(inc, |o.cvs|)), Runner(i, inc, outside, Push(d, |o.cvs|)))
    ensures forall v :: 0 <= v < |o'.role| ==> W(o', v)
  {
    assert T(o, i);
    forall v | 0 <= v < |o'.role| ensures W(o', v) { assert W(o, v); }
  }

  lemma Suspend(o: Own, u: nat, i: nat, inc: nat, outside: bool, d: nat)
    requires IOwn(o) && u < |o.role| && o.role[u] == Runner(i, inc, outside, Hold(d))
    ensures W(o, u)
    ensures IOwn(Set(o.(cvs := o.cvs + [Condvar(i, false)]), u, i,
                     o.txns[i].(status := Suspended(inc, |o.cvs|)), Runner(i, inc, outside, Push(d, |o.cvs|))))
  {
    assert W(o, u) && T(o, i);
    var o' := Set(o.(cvs := o.cvs + [Condvar(i, false)]), u, i,
                     o.txns[i].(status := Suspended(inc, |o.cvs|)), Runner(i, inc, outside, Push(d, |o.cvs|)));
    SuspendWorkers(o, u, i, inc, outside, d, o');
    forall j | 0 <= j < |o'.txns| ensures T(o', j) { assert T(o, j); }
  }

  lemma PushDepWorkers(o: Own, u: nat, i: nat, inc: nat, outside: bool, d: nat, cv: nat, o': Own)
    requires IOwn(o) && u < |o.role| && o.role[u] == Runner(i, inc, outside, Push(d, cv)) && W(o, u)
    requires o' == Set(o, u, d, o.txns[d].(dlock := None), Runner(i, inc, outside, Sleep(d, cv)))
    ensures forall v :: 0 <= v < |o'.role| ==> W(o', v)
  {
    assert T(o, i) && T(o, d);
    forall v | 0 <= v < |o'.role| ensures W(o', v) { assert W(o, v); }
  }

  lemma PushDep(o: Own, u: nat, i: nat, inc: nat, outside: bool, d: nat, cv: nat)
    requires IOwn(o) && u < |o.role| && o.role[u] == Runner(i, inc, outside, Push(d, cv))
    ensures W(o, u)
    ensures IOwn(Set(o, u, d, o.txns[d].(dlock := None), Runner(i, inc, outside, Sleep(d, cv))))
  {
    assert W(o, u) && T(o, i) && T(o, d);
    var o' := Set(o, u, d, o.txns[d].(dlock := None), Runner(i, inc, outside, Sleep(d, cv)));
    PushDepWorkers(o, u, i, inc, outside, d, cv, o');
    forall j | 0 <= j < |o'.txns| ensures T(o', j) { assert T(o, j); }
  }

  lemma Awake(o: Own, u: nat, i: nat, inc: nat, outside: bool, d: nat, cv: nat)
    requires IOwn(o) && u < |o.role| && o.role[u] == Runner(i, inc, outside, Sleep(d, cv))
    requires cv < |o.cvs| && o.cvs[cv].resolved
    ensures W(o, u)
    ensures IOwn(o.(role := o.role[u := Runner(i, inc, outside, Active)]))
  {
    assert W(o, u) && T(o, i);
    var o' := o.(role := o.role[u := Runner(i, inc, outside, Active)]);
    forall v | 0 <= v < |o'.role| ensures W(o', v) { assert W(o, v); }
    forall j | 0 <= j < |o'.txns| ensures T(o', j) { assert T(o, j); }
  }

  lemma WriteWorkers(o: Own, u: nat, i: nat, inc: nat, outside: bool, outside': bool, o': Own)
    requires IOwn(o) && u < |o.role| && o.role[u] == Runner(i, inc, outside, Active)
    requires (outside ==> outside') && W(o, u)
    requires o' == Set(o, u, i, o.txns[i].(dirty := o.txns[i].dirty || outside'), Runner(i, inc, outside', Active))
    ensures forall v :: 0 <= v < |o'.role| ==> W(o', v)
  {
    assert T(o, i);
    forall v | 0 <= v < |o'.role| ensures W(o', v) { assert W(o, v); }
  }

  lemma Write(o: Own, u: nat, i: nat, inc: nat, outside: bool, outside': bool)
    requires IOwn(o) && u < |o.role| && o.role[u] == Runner(i, inc, outside, Active) && (outside ==> outside')
    ensures W(o, u)
    ensures IOwn(Set(o, u, i, o.txns[i].(dirty := o.txns[i].dirty || outside'), Runner(i, inc, outside', Active)))
  {
    assert W(o, u) && T(o, i);
    var o' := Set(o, u, i, o.txns[i].(dirty := o.txns[i].dirty || outside'), Runner(i, inc, outside', Active));
    WriteWorkers(o, u, i, inc, outside, outside', o');
    forall j | 0 <= j < |o'.txns| ensures T(o', j) { assert T(o, j); }
  }

  lemma LockRun(o: Own, u: nat, i: nat, inc: nat, outside: bool)
    requires IOwn(o) && u < |o.role| && o.role[u] == Runner(i, inc, outside, Active)
    requires i < |o.txns| && o.txns[i].vlock.None?
    ensures W(o, u)
    ensures IOwn(Set(o, u, i, o.txns[i].(vlock := Some(u)), Runner(i, inc, outside, HasLock)))
  {
    assert W(o, u) && T(o, i);
    var o' := Set(o, u, i, o.txns[i].(vlock := Some(u)), Runner(i, inc, outside, HasLock));
    forall v | 0 <= v < |o'.role| ensures W(o', v) { assert W(o, v); }
    forall j | 0 <= j < |o'.txns| ensures T(o', j) { assert T(o, j); }
  }

  lemma SetExecuted(o: Own, u: nat, i: nat, inc: nat, outside: bool)
    requires IOwn(o) && u < |o.role| && o.role[u] == Runner(i, inc, outside, HasLock)
    ensures W(o, u)
    ensures IOwn(Set(o, u, i, o.txns[i].(status := Executed(inc), owner := None), Finisher(i, inc, outside)))
  {
    assert W(o, u) && T(o, i);
    var o' := Set(o, u, i, o.txns[i].(status := Executed(inc), owner := None), Finisher(i, inc, outside));
    forall v | 0 <= v < |o'.role| ensures W(o', v) { assert W(o, v); }
    forall j | 0 <= j < |o'.txns| ensures T(o', j) { assert T(o, j); }
  }

  lemma ResumeDep(o: Own, u: nat, i: nat, inc: nat, cv: nat)
    requires IOwn(o) && u < |o.role| && o.role[u].Finisher? && i < |o.txns|
    requires o.txns[i].status == Suspended(inc, cv)
    requires RoleOf(o, o.txns[i].owner).Runner? && RoleOf(o, o.txns[i].owner).run.Sleep?
    ensures IOwn(o.(txns := o.txns[i := o.txns[i].(status := Ready(inc, Some(cv)))]))
  {
    assert W(o, u) && T(o, i) && W(o, o.txns[i].owner.value);
    var o' := o.(txns := o.txns[i := o.txns[i].(status := Ready(inc, Some(cv)))]);
    forall v | 0 <= v < |o'.role| ensures W(o', v) { assert W(o, v); }
    forall j | 0 <= j < |o'.txns| ensures T(o', j) { assert T(o, j); }
  }

  lemma ReleaseFin(o: Own, u: nat, i: nat, inc: nat, outside: bool, r: Role)
    requires IOwn(o) && u < |o.role| && o.role[u] == Finisher(i, inc, outside)
    requires r == Free || r == Validator(i, inc)
    ensures W(o, u)
    ensures IOwn(Set(o, u, i, o.txns[i].(vlock := None, dirty := false), r))
  {
    assert W(o, u) && T(o, i);
    var o' := Set(o, u, i, o.txns[i].(vlock := None, dirty := false), r);
    forall v | 0 <= v < |o'.role| ensures W(o', v) { assert W(o, v); }
    forall j | 0 <= j < |o'.txns| ensures T(o', j) { assert T(o, j); }
  }

  lemma BeginVal(o: Own, u: nat, i: nat)
    requires IOwn(o) && u < |o.role| && o.role[u].Free? && i < |o.txns| && o.txns[i].status.Executed?
    ensures IOwn(o.(role := o.role[u := Validator(i, o.txns[i].status.inc)]))
  {
    var o' := o.(role := o.role[u := Validator(i, o.txns[i].status.inc)]);
    forall v | 0 <= v < |o'.role| ensures W(o', v) { assert W(o, v); }
    forall j | 0 <= j < |o'.txns| ensures T(o', j) { assert T(o, j); }
  }

  lemma EndVal(o: Own, u: nat)
    requires IOwn(o) && u < |o.role| && o.role[u].Validator?
    ensures IOwn(o.(role := o.role[u := Free]))
  {
    var o' := o.(role := o.role[u := Free]);
    forall v | 0 <= v < |o'.role| ensures W(o', v) { assert W(o, v); }
    forall j | 0 <= j < |o'.txns| ensures T(o', j) { assert T(o, j); }
  }

  lemma TryAbort(o: Own, u: nat, i: nat, inc: nat)
    requires IOwn(o) && u < |o.role| && o.role[u] == Validator(i, inc)
    requires i < |o.txns| && o.txns[i].status == Executed(inc)
    ensures W(o, u)
    ensures IOwn(Set(o, u, i, o.txns[i].(status := Aborting(inc), owner := Some(u), aborted := true),
                     Killer(i, inc, false)))
  {
    assert W(o, u) && T(o, i);
    var o' := Set(o, u, i, o.txns[i].(status := Aborting(inc), owner := Some(u), aborted := true),
                     Killer(i, inc, false));
    forall v | 0 <= v < |o'.role| ensures W(o', v) { assert W(o, v); }
    forall j | 0 <= j < |o'.txns| ensures T(o', j) { assert T(o, j); }
  }

  lemma LockKill(o: Own, u: nat, i: nat, inc: nat)
    requires IOwn(o) && u < |o.role| && o.role[u] == Killer(i, inc, false)
    requires i < |o.txns| && o.txns[i].vlock.None?
    ensures W(o, u)
    ensures IOwn(Set(o, u, i, o.txns[i].(vlock := Some(u)), Killer(i, inc, true)))
  {
    assert W(o, u) && T(o, i);
    var o' := Set(o, u, i, o.txns[i].(vlock := Some(u)), Killer(i, inc, true));
    forall v | 0 <= v < |o'.role| ensures W(o', v) { assert W(o, v); }
    forall j | 0 <= j < |o'.txns| ensures T(o', j) { assert T(o, j); }
  }

  lemma SetAborted(o: Own, u: nat, i: nat, inc: nat)
    requires IOwn(o) && u < |o.role| && o.role[u] == Killer(i, inc, true)
    ensures W(o, u)
    ensures IOwn(Set(o, u, i, o.txns[i].(status := Ready(inc + 1, None), owner := None), Rescheduler(i, inc, true)))
  {
    assert W(o, u) && T(o, i);
    var o' := Set(o, u, i, o.txns[i].(status := Ready(inc + 1, None), owner := None), Rescheduler(i, inc, true));
    forall v | 0 <= v < |o'.role| ensures W(o', v) { assert W(o, v); }
    forall j | 0 <= j < |o'.txns| ensures T(o', j) { assert T(o, j); }
  }

  lemma AbortWave(o: Own, u: nat, i: nat, inc: nat)
    requires IOwn(o) && u < |o.role| && o.role[u] == Rescheduler(i, inc, true)
    ensures W(o, u)
    ensures IOwn(Set(o, u, i, o.txns[i].(aborted := false), Rescheduler(i, inc, false)))
  {
    assert W(o, u) && T(o, i);
    var o' := Set(o, u, i, o.txns[i].(aborted := false), Rescheduler(i, inc, false));
    forall v | 0 <= v < |o'.role| ensures W(o', v) { assert W(o, v); }
    forall j | 0 <= j < |o'.txns| ensures T(o', j) { assert T(o, j); }
  }

  lemma ReleaseAbort(o: Own, u: nat, i: nat, inc: nat)
    requires IOwn(o) && u < |o.role| && o.role[u] == Rescheduler(i, inc, false)
    ensures W(o, u)
    ensures IOwn(Set(o, u, i, o.txns[i].(vlock := None), Free))
  {
    assert W(o, u) && T(o, i);
    var o' := Set(o, u, i, o.txns[i].(vlock := None), Free);
    forall v | 0 <= v < |o'.role| ensures W(o', v) { assert W(o, v); }
    forall j | 0 <= j < |o'.txns| ensures T(o', j) { assert T(o, j); }
  }

  /** Commit needs no worker. */
  lemma Commit(o: Own, i: nat)
    requires IOwn(o) && i < |o.txns| && o.txns[i].status.Executed? && o.txns[i].vlock.None?
    ensures IOwn(o.(txns := o.txns[i := o.txns[i].(status := Committed(o.txns[i].status.inc))]))
    ensures !o.txns[i].dirty && !o.txns[i].aborted
  {
    var o' := o.(txns := o.txns[i := o.txns[i].(status := Committed(o.txns[i].status.inc))]);
    assert T(o, i);
    forall v | 0 <= v < |o'.role| ensures W(o', v) { assert W(o, v); }
    forall j | 0 <= j < |o'.txns| ensures T(o', j) { assert T(o, j); }
  }
}
