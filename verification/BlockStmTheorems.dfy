/** What the scheduler's comments promise, stated about every state of every run. */
module BlockStmTheorems {
  import opened BlockStm
  import opened BlockStmView
  import opened BlockStmSafety
  import D = BlockStmDependencies
  import M = BlockStmMemory
  import W = BlockStmWaves
  import V = BlockStmValidity
  import X = BlockStmIndices

  // ---------------------------------------------------------------- dependency lists

  /** The dependency list of `d`, with what its finishing worker has taken and not resumed yet. */
  function ListOf(s: State, d: nat): seq<nat>
    requires d < |s.txns|
  {
    var lock := PcOf(s, s.txns[d].vlock);
    (if lock.Fin? && lock.fin.Resume? then lock.fin.todo else []) + s.txns[d].deps
  }

  lemma {:induction false} OnceInDistinct(xs: seq<nat>, x: nat)
    requires D.Distinct(xs)
    ensures multiset(xs)[x] == if x in xs then 1 else 0
  {
    if xs != [] {
      var ys := xs[..|xs| - 1];
      OnceInDistinct(ys, x);
      assert xs == ys + [xs[|xs| - 1]];
      assert forall k :: 0 <= k < |ys| ==> ys[k] == xs[k];
    }
  }

  /** A sleeping transaction is in exactly one list, once, and that of a lower transaction. */
  lemma SuspendedListedOnce(c: Config, tr: seq<State>, k: nat, x: nat, d: nat)
    requires IsRun(c, tr) && k < |tr| && x < c.n && d < c.n
    requires |tr[k].txns| == c.n && tr[k].txns[x].status.Suspended?
    requires var own := PcOf(tr[k], tr[k].txns[x].owner); own.Exec? && own.ex.Waiting?
    ensures var own := PcOf(tr[k], tr[k].txns[x].owner);
            own.ex.d < x && multiset(ListOf(tr[k], d))[x] == if d == own.ex.d then 1 else 0
  {
    var s := tr[k];
    RunInv(c, tr, k);
    var ds := D.DepView(s);
    assert D.DepOk(ds, x) && D.DepOk(ds, d) && ds[d] == D.DepAt(s, d) && ds[x] == D.DepAt(s, x);
    var xs := ds[d].todo + ds[d].deps;
    assert xs == ListOf(s, d);
    OnceInDistinct(xs, x);
    if x in xs {
      var q :| 0 <= q < |xs| && xs[q] == x;
      assert D.Listed(ds, xs[q], d);
    }
  }

  /** Suspended means asleep in a list, or about to be pushed to the list it holds locked. */
  lemma SuspendedSleepsOrPushes(c: Config, tr: seq<State>, k: nat, x: nat)
    requires IsRun(c, tr) && k < |tr| && x < c.n
    requires |tr[k].txns| == c.n && tr[k].txns[x].status.Suspended?
    ensures var own := PcOf(tr[k], tr[k].txns[x].owner);
            own.Exec? && own.i == x && (own.ex.Waiting? || own.ex.PushDep?)
  {
    var s := tr[k];
    RunInv(c, tr, k);
    KnowsTxn(c, s, x);
    Knows(c, s, s.txns[x].owner.value);
  }

  lemma CommittedListEmpty(c: Config, tr: seq<State>, k: nat, d: nat)
    requires IsRun(c, tr) && k < |tr| && d < c.n && |tr[k].txns| == c.n && tr[k].txns[d].status.Committed?
    ensures ListOf(tr[k], d) == []
  {
    var s := tr[k];
    RunInv(c, tr, k);
    KnowsTxn(c, s, d);
    if s.txns[d].vlock.Some? { Knows(c, s, s.txns[d].vlock.value); }
    var ds := D.DepView(s);
    assert D.DepOk(ds, d) && ds[d] == D.DepAt(s, d);
  }

  // ---------------------------------------------------------------- entries of the map

  /** The run has not applied its updates yet. */
  predicate InVm(p: Pc) {
    p.Exec? && (p.ex.Running? || p.ex.WantDep? || p.ex.HoldDep? || p.ex.PushDep? || p.ex.Waiting?)
  }

  lemma WrittenOnceExecuted(c: Config, s: State, x: nat)
    requires Inv(c, s) && x < c.n
    ensures var t := s.txns[x];
            IsExecuted(t.status) ==>
              t.output.Some? && t.mv.Keys == ModKeys(t.output)
              && forall q :: q in t.mv ==> t.mv[q] == Entry(false, t.status.inc, Writes(t.output.value)[q])
  {
    assert M.TxnOk(c, s.log, x, M.MemAt(s, x));
    KnowsTxn(c, s, x);
    if s.txns[x].owner.Some? { Knows(c, s, s.txns[x].owner.value); }
  }

  lemma EstimatesUntilApplied(c: Config, s: State, x: nat)
    requires Inv(c, s) && x < c.n
    ensures var t := s.txns[x];
            t.status.Ready? || t.status.Suspended? || (t.status.Executing? && InVm(PcOf(s, t.owner))) ==>
              t.mv.Keys == ModKeys(t.output) && M.AllEstimates(t.mv)
  {
    assert M.TxnOk(c, s.log, x, M.MemAt(s, x));
    KnowsTxn(c, s, x);
    if s.txns[x].owner.Some? { Knows(c, s, s.txns[x].owner.value); }
  }

  /**
   Executed: exactly the recorded writes, no estimate.  From an abort until the next run applies
   its updates: only estimates.
   */
  lemma EntriesFollowStatus(c: Config, tr: seq<State>, k: nat, x: nat)
    requires IsRun(c, tr) && k < |tr| && x < c.n
    ensures x < |tr[k].txns|
    ensures var t := tr[k].txns[x];
            && (IsExecuted(t.status) ==>
                  t.output.Some? && t.mv.Keys == ModKeys(t.output)
                  && forall q :: q in t.mv ==> t.mv[q] == Entry(false, t.status.inc, Writes(t.output.value)[q]))
            && (t.status.Ready? || t.status.Suspended? || (t.status.Executing? && InVm(PcOf(tr[k], t.owner))) ==>
                  t.mv.Keys == ModKeys(t.output) && M.AllEstimates(t.mv))
  {
    RunInv(c, tr, k);
    WrittenOnceExecuted(c, tr[k], x);
    EstimatesUntilApplied(c, tr[k], x);
  }

  // ---------------------------------------------------------------- waves and commits

  /** The wave that try_commit demands of the next transaction. */
  function Demand(s: State): nat
    requires s.commitIdx < |s.txns|
  {
    var triggered := s.txns[s.commitIdx].vstat.maxTriggered;
    if triggered > s.commitWave then triggered else s.commitWave
  }

  /** It is the highest wave triggered at or below that transaction. */
  lemma DemandCoversNeed(c: Config, tr: seq<State>, k: nat)
    requires IsRun(c, tr) && k < |tr| && tr[k].commitIdx < c.n
    ensures |tr[k].txns| == |tr[k].need| == c.n && tr[k].need[tr[k].commitIdx] == Demand(tr[k])
  {
    RunInv(c, tr, k);
    assert W.TOk(W.WaveView(tr[k]), tr[k].commitIdx);
  }

  /** What try_commit does: it commits the next transaction, or ends the block, or changes no transaction. */
  lemma CommitExact(c: Config, tr: seq<State>, k: nat)
    requires IsRun(c, tr) && k < |tr|
    ensures Shape(c, tr[k])
    ensures var s, s' := tr[k], TryCommit(c, tr[k]);
            if s.commitIdx >= c.n then s'.done && s'.txns == s.txns && s'.commitIdx == s.commitIdx
            else
              var t := s.txns[s.commitIdx];
              var best := t.vstat.maxValidated;
              if t.vlock.None? && t.status.Executed?
                 && best.Some? && best.value >= Demand(s) && best.value >= t.vstat.required
              then s'.commitIdx == s.commitIdx + 1
                   && s'.txns == s.txns[s.commitIdx := t.(status := Committed(t.status.inc))] && s'.done == s.done
              else s'.commitIdx == s.commitIdx && s'.txns == s.txns && s'.done == s.done
  {
    RunInv(c, tr, k);
  }

  /** What the source asserts or expects at each place, in every state of every run. */
  lemma AssertionsHold(c: Config, tr: seq<State>, k: nat, u: nat)
    requires IsRun(c, tr) && k < |tr| && u < c.workers
    ensures Shape(c, tr[k]) && PcShape(c, tr[k].pc[u])
    ensures var s, p := tr[k], tr[k].pc[u];
            match p
            case Exec(i, inc, _, HoldDep(_)) => s.txns[i].status == Executing(inc)
            case Exec(i, inc, _, Locked(_)) => s.txns[i].status == Executing(inc)
            case Exec(i, inc, _, Apply(_, todo, prev, _)) =>
              && (forall q :: q in todo && q in s.txns[i].mv ==> s.txns[i].mv[q].inc < inc)
              && (forall q :: q in prev ==> q in s.txns[i].mv)
            case Fin(_, _, Resume(_, todo, _)) => todo != [] ==> todo[0] < c.n && s.txns[todo[0]].status.Suspended?
            case Val(i, _, _, Task) => s.txns[i].input.Some?
            case Aborter(i, inc, Mark(todo)) => forall q :: q in todo ==> q in s.txns[i].mv
            case Aborter(i, inc, AbortLocked) => s.txns[i].status == Aborting(inc)
            case _ => true
  {
    RunInv(c, tr, k);
    var s, p := tr[k], tr[k].pc[u];
    Knows(c, s, u);
    if p.Exec? || p.Aborter? { assert M.TxnOk(c, s.log, p.i, M.MemAt(s, p.i)); }
    if p.Exec? && p.ex.Apply? {
      forall q | q in p.ex.todo && q in s.txns[p.i].mv ensures s.txns[p.i].mv[q].inc < p.inc {
        M.Overwrites(c, s.log, p.i, M.MemAt(s, p.i), q);
      }
    }
    if p.Fin? && p.fin.Resume? && p.fin.todo != [] { D.FirstSleeps(c, s, u, p); }
    if p.Val? { assert V.WVal(s, u); }
  }

  /**
   A validation whose credit can be given and would be wrong is too old to matter: the
   transaction has moved on to another incarnation, or some recorded read does not hold and no lower transaction is
   about to begin a new wave.
   */
  lemma WrongCreditTooOld(c: Config, tr: seq<State>, k: nat, u: nat)
    requires IsRun(c, tr) && k < |tr| && u < |tr[k].pc| && |tr[k].txns| == c.n
    requires var p := tr[k].pc[u];
             && p.Val? && p.val.Credit? && p.i < c.n
             && (tr[k].txns[p.i].vlock.None? || tr[k].txns[p.i].status.Executed?)
             && (tr[k].txns[p.i].status.inc != p.inc
                 || (tr[k].txns[p.i].status.Executed?
                     && !V.PendBelow(tr[k].txns, p.i) && !V.AllValid(tr[k].txns, p.i)))
    ensures |tr[k].need| == c.n && tr[k].pc[u].w < tr[k].need[tr[k].pc[u].i]
  {
    RunInv(c, tr, k);
    assert V.WVal(tr[k], u);
    KnowsTxn(c, tr[k], tr[k].pc[u].i);
  }

  /**
   Whatever was credited, by whom and for which incarnation: as long as a recorded read of the
   next transaction does not hold, no credit meets the demand of try_commit.
   */
  lemma WrongCreditNeverCommits(c: Config, tr: seq<State>, k: nat)
    requires IsRun(c, tr) && k < |tr| && tr[k].commitIdx < c.n && |tr[k].txns| == c.n
    requires tr[k].txns[tr[k].commitIdx].status.Executed? && !V.AllValid(tr[k].txns, tr[k].commitIdx)
    ensures var best := tr[k].txns[tr[k].commitIdx].vstat.maxValidated; best.Some? ==> best.value < Demand(tr[k])
  {
    RunInv(c, tr, k);
    DemandCoversNeed(c, tr, k);
    assert V.TVal(tr[k], tr[k].commitIdx);
    V.NonePending(c, tr[k], tr[k].commitIdx);
  }

  /** The reads of a committed transaction still hold in the map. */
  lemma CommittedRevalidates(c: Config, tr: seq<State>, k: nat, x: nat)
    requires IsRun(c, tr) && k < |tr| && x < tr[k].commitIdx
    ensures x < |tr[k].txns| && V.AllValid(tr[k].txns, x)
  {
    RunInv(c, tr, k);
    assert V.TVal(tr[k], x);
  }

  // ---------------------------------------------------------------- the packed index

  lemma WaveStepGrows(c: Config, s: State, s': State)
    requires Next(c, s, s')
    ensures s.wave <= s'.wave
  {
    if s' != TryCommit(c, s) {
      var u :| Step(c, s, u, s');
      WaveGrows(c, s, u, s');
    }
  }

  lemma WaveGrows(c: Config, s: State, u: nat, s': State)
    requires Step(c, s, u, s')
    ensures s.wave <= s'.wave
  {}

  lemma WaveGrowsAt(c: Config, tr: seq<State>, k: nat)
    requires IsRun(c, tr) && k + 1 < |tr|
    ensures tr[k].wave <= tr[k + 1].wave
  {
    assert NextAt(c, tr, k);
    WaveStepGrows(c, tr[k], tr[k + 1]);
  }

  lemma {:induction false} WaveMonotone(c: Config, tr: seq<State>, k: nat, l: nat)
    requires IsRun(c, tr) && k <= l < |tr|
    ensures tr[k].wave <= tr[l].wave
    decreases l - k
  {
    if k < l {
      WaveGrowsAt(c, tr, k);
      WaveMonotone(c, tr, k + 1, l);
    }
  }

  /** The 64-bit word: never out of range, and a fetch_add never carries into the wave. */
  lemma PackedIndexInRange(c: Config, tr: seq<State>, k: nat)
    requires IsRun(c, tr) && k < |tr| && c.n + c.workers < X.HALF && tr[k].wave < X.HALF
    ensures tr[k].valIdx <= c.n + c.workers && tr[k].exIdx <= c.n + c.workers
    ensures var x := X.Pack(tr[k].valIdx, tr[k].wave);
            && x < X.HALF * X.HALF && X.UnpackIdx(x) == tr[k].valIdx && X.UnpackWave(x) == tr[k].wave
            && forall u :: 0 <= u < |tr[k].pc| && tr[k].pc[u] == Idle(FetchVal) ==>
                 && x + 1 < X.HALF * X.HALF
                 && X.UnpackIdx(x + 1) == tr[k].valIdx + 1 && X.UnpackWave(x + 1) == tr[k].wave
  {
    RunInv(c, tr, k);
    X.PackUnpack(tr[k].valIdx, tr[k].wave);
    forall u | 0 <= u < |tr[k].pc| && tr[k].pc[u] == Idle(FetchVal)
      ensures var x := X.Pack(tr[k].valIdx, tr[k].wave);
              && x + 1 < X.HALF * X.HALF
              && X.UnpackIdx(x + 1) == tr[k].valIdx + 1 && X.UnpackWave(x + 1) == tr[k].wave
    {
      X.PackedFetch(c, tr[k], u);
    }
  }
}
