/**
 Why aborts run out.  A version is aborted only if, since it began, a lower transaction has
 changed the multi-version map.  So the first transaction is never aborted, and once all lower
 transactions are committed, the next version of a transaction is its last.
 */
module BlockStmAborts {
  import opened Options
  import opened BlockStm
  import opened BlockStmView
  import opened BlockStmSafety
  import V = BlockStmValidity

  /** The entries of the transactions below `x` are the same. */
  ghost predicate SameBelow(s: State, s': State, x: nat) {
    |s.txns| == |s'.txns| && x <= |s.txns| && forall y :: 0 <= y < x ==> s'.txns[y].mv == s.txns[y].mv
  }

  /** The m-th step of the run changes no entry below `x`. */
  ghost predicate QuietAt(tr: seq<State>, x: nat, m: nat)
    requires m + 1 < |tr|
  {
    SameBelow(tr[m], tr[m + 1], x)
  }

  ghost predicate AllMatch(txns: seq<Txn>, x: nat, hist: seq<Read>)
    requires x <= |txns|
  {
    forall q :: 0 <= q < |hist| ==> Matches(txns, x, hist[q])
  }

  lemma MatchStays(s: State, s': State, x: nat, hist: seq<Read>)
    requires SameBelow(s, s', x) && AllMatch(s.txns, x, hist)
    ensures AllMatch(s'.txns, x, hist)
  {
    forall q | 0 <= q < |hist| ensures Matches(s'.txns, x, hist[q]) { V.SameGet(s.txns, s'.txns, hist[q].key, x); }
  }

  /** The reads are recorded. */
  predicate Stored(ex: ExecPc) { ex.RecordOut? || ex.WantLock? || ex.Locked? }

  /** The run at `own` has read nothing that does not hold any more. */
  ghost predicate RunFresh(txns: seq<Txn>, x: nat, input: Option<seq<Read>>, own: Pc)
    requires x <= |txns|
  {
    own.Exec? && own.i == x && AllMatch(txns, x, own.hist) && (Stored(own.ex) ==> input == Some(own.hist))
  }

  /** A validator of version (x, inc) has found nothing wrong, and looks at the recorded reads. */
  predicate ValFresh(p: Pc, x: nat, inc: nat, input: Option<seq<Read>>) {
    p.Val? && p.i == x && p.inc == inc ==> !p.val.Failed? && (p.val.Check? ==> input == Some(p.val.hist))
  }

  /** Version (x, inc) has begun, is not aborted, and everything it has read still holds. */
  ghost predicate Fresh(s: State, x: nat, inc: nat)
    requires x < |s.txns|
  {
    var t := s.txns[x];
    && t.status.inc == inc
    && (if IsExecuted(t.status) then t.input.Some? && AllMatch(s.txns, x, t.input.value)
        else V.Pre(t.status) && t.owner.Some? && RunFresh(s.txns, x, t.input, PcOf(s, t.owner)))
    && forall u :: 0 <= u < |s.pc| ==> ValFresh(s.pc[u], x, inc, t.input)
  }

  // ---------------------------------------------------------------- steps of other workers

  /** The record says the same about the version. */
  predicate SameVersion(t: Txn, t': Txn) {
    && t'.input == t.input && t'.owner == t.owner && t'.status.inc == t.status.inc
    && IsExecuted(t'.status) == IsExecuted(t.status) && V.Pre(t'.status) == V.Pre(t.status)
  }

  lemma FreshOther(c: Config, s: State, u: nat, s': State, x: nat, inc: nat)
    requires Shape(c, s) && x < c.n && Fresh(s, x, inc) && Moved(c, s, u, s') && SameBelow(s, s', x)
    requires SameVersion(s.txns[x], s'.txns[x]) && s.txns[x].owner != Some(u)
    requires ValFresh(s'.pc[u], x, inc, s'.txns[x].input)
    ensures Fresh(s', x, inc)
  {
    var t := s.txns[x];
    if IsExecuted(t.status) { MatchStays(s, s', x, t.input.value); }
    else { MatchStays(s, s', x, PcOf(s, t.owner).hist); }
    forall v | 0 <= v < |s'.pc| ensures ValFresh(s'.pc[v], x, inc, s'.txns[x].input) {
      assert ValFresh(s.pc[v], x, inc, t.input);
    }
  }

  /** The version has begun and is not aborted. */
  predicate Begun(t: Txn) { !(t.status.Ready? && t.status.cv.None?) && !t.status.Aborting? }

  lemma VersionFree(c: Config, s: State, u: nat, p: Pc, s': State, x: nat)
    requires Step(c, s, u, s') && p == s.pc[u] && (p.Idle? || p.GotVal? || p.GotEx? || p.Signal?)
    requires x < c.n && Begun(s.txns[x])
    ensures SameVersion(s.txns[x], s'.txns[x]) && (s'.pc[u].Val? ==> s'.pc[u].val.Task?)
  {}

  lemma VersionExec(c: Config, s: State, u: nat, p: Pc, s': State, x: nat)
    requires Shape(c, s) && u < c.workers && p == s.pc[u] && PcShape(c, p) && !Panics(c, s, u)
    requires p.Exec? && ExecStep(c, s, u, p, s') && p.i != x && x < c.n
    ensures SameVersion(s.txns[x], s'.txns[x]) && !s'.pc[u].Val?
  {}

  lemma VersionFin(c: Config, s: State, u: nat, p: Pc, s': State, x: nat)
    requires Shape(c, s) && u < c.workers && p == s.pc[u] && PcShape(c, p) && !Panics(c, s, u)
    requires p.Fin? && FinStep(c, s, u, p, s') && x < c.n
    ensures SameVersion(s.txns[x], s'.txns[x]) && (s'.pc[u].Val? ==> s'.pc[u].val.Task?)
  {}

  lemma VersionAborter(c: Config, s: State, u: nat, p: Pc, s': State, x: nat)
    requires InvOwn(c, s) && u < c.workers && p == s.pc[u] && PcShape(c, p) && !Panics(c, s, u)
    requires p.Aborter? && AbortStep(c, s, u, p, s') && x < c.n && Begun(s.txns[x])
    ensures SameVersion(s.txns[x], s'.txns[x]) && !s'.pc[u].Val?
  {
    Knows(c, s, u);
  }

  lemma VersionFinAbort(c: Config, s: State, u: nat, p: Pc, s': State, x: nat)
    requires Shape(c, s) && u < c.workers && p == s.pc[u] && PcShape(c, p)
    requires p.FinAbort? && FinAbortStep(c, s, u, p, s') && x < c.n && Begun(s.txns[x])
    ensures SameVersion(s.txns[x], s'.txns[x]) && !s'.pc[u].Val?
  {}

  /** A validator that has found nothing wrong with a fresh version finds nothing wrong. */
  lemma FreshValidator(c: Config, s: State, u: nat, p: Pc, s': State, x: nat, inc: nat)
    requires InvOwn(c, s) && u < c.workers && p == s.pc[u] && PcShape(c, p) && !Panics(c, s, u)
    requires p.Val? && ValStep(c, s, u, p, s') && x < c.n && Fresh(s, x, inc)
    ensures Moved(c, s, u, s') && SameVersion(s.txns[x], s'.txns[x]) && s.txns[x].owner != Some(u)
    ensures ValFresh(s'.pc[u], x, inc, s'.txns[x].input)
  {
    KnowsTxn(c, s, x);
    Knows(c, s, u);
    assert ValFresh(p, x, inc, s.txns[x].input);
  }

  lemma FreshVal(c: Config, s: State, u: nat, p: Pc, s': State, x: nat, inc: nat)
    requires InvOwn(c, s) && u < c.workers && p == s.pc[u] && PcShape(c, p) && !Panics(c, s, u)
    requires p.Val? && ValStep(c, s, u, p, s')
    requires x < c.n && Fresh(s, x, inc) && SameBelow(s, s', x)
    ensures Fresh(s', x, inc)
  {
    FreshValidator(c, s, u, p, s', x, inc);
    FreshOther(c, s, u, s', x, inc);
  }

  /** A step of a worker that does not run `x` and does not validate. */
  lemma FreshElse(c: Config, s: State, u: nat, p: Pc, s': State, x: nat, inc: nat)
    requires InvOwn(c, s) && x < c.n && Fresh(s, x, inc) && Step(c, s, u, s') && SameBelow(s, s', x)
    requires p == s.pc[u] && !p.Val? && (p.Exec? ==> p.i != x)
    ensures Fresh(s', x, inc)
  {
    KnowsTxn(c, s, x);
    Knows(c, s, u);
    match p {
      case Exec(_, _, _, _) => VersionExec(c, s, u, p, s', x);
      case Fin(_, _, _) => VersionFin(c, s, u, p, s', x);
      case Aborter(_, _, _) => VersionAborter(c, s, u, p, s', x);
      case FinAbort(_, _, _) => VersionFinAbort(c, s, u, p, s', x);
      case _ => VersionFree(c, s, u, p, s', x);
    }
    ShapeStep(c, s, u, s');
    FreshOther(c, s, u, s', x, inc);
  }

  // ---------------------------------------------------------------- steps of the run itself

  /** The run goes on; its reads are still those that hold. */
  lemma FreshGoes(c: Config, s: State, u: nat, s': State, x: nat, inc: nat)
    requires InvOwn(c, s) && x < c.n && Fresh(s, x, inc) && Moved(c, s, u, s') && SameBelow(s, s', x)
    requires s.txns[x].owner == Some(u) && s'.txns[x].owner == Some(u) && s'.txns[x].status.inc == inc
    requires !IsExecuted(s.txns[x].status) && V.Pre(s'.txns[x].status)
    requires RunFresh(s'.txns, x, s'.txns[x].input, s'.pc[u])
    ensures Fresh(s', x, inc)
  {
    forall v | 0 <= v < |s'.pc| ensures ValFresh(s'.pc[v], x, inc, s'.txns[x].input) { Knows(c, s, v); }
  }

  lemma FreshRun(c: Config, s: State, u: nat, p: Pc, x: nat, inc: nat)
    requires InvOwn(c, s) && u < c.workers && p == s.pc[u] && PcShape(c, p) && p.Exec? && p.ex.Running? && p.i == x
    requires x < c.n && Fresh(s, x, inc)
    ensures Fresh(RunStep(c, s, u, p), x, inc)
  {
    Knows(c, s, u);
    FreshGoes(c, s, u, RunStep(c, s, u, p), x, inc);
  }

  lemma ApplyGoesOn(c: Config, s: State, u: nat, p: Pc, s': State)
    requires Shape(c, s) && u < c.workers && p == s.pc[u] && PcShape(c, p)
    requires p.Exec? && p.ex.Apply? && ApplyStep(c, s, u, p, s')
    ensures Moved(c, s, u, s')
    ensures var t, t', p' := s.txns[p.i], s'.txns[p.i], s'.pc[u];
            && t'.owner == t.owner && t'.status == t.status
            && p'.Exec? && p'.i == p.i && p'.hist == p.hist && (Stored(p'.ex) ==> t'.input == Some(p.hist))
  {}

  lemma FreshApply(c: Config, s: State, u: nat, p: Pc, s': State, x: nat, inc: nat)
    requires InvOwn(c, s) && u < c.workers && p == s.pc[u] && PcShape(c, p)
    requires p.Exec? && p.i == x && p.ex.Apply? && ApplyStep(c, s, u, p, s')
    requires x < c.n && Fresh(s, x, inc) && SameBelow(s, s', x)
    ensures Fresh(s', x, inc)
  {
    Knows(c, s, u);
    ApplyGoesOn(c, s, u, p, s');
    MatchStays(s, s', x, p.hist);
    FreshGoes(c, s, u, s', x, inc);
  }

  lemma FreshSetExecuted(c: Config, s: State, u: nat, p: Pc, x: nat, inc: nat)
    requires InvOwn(c, s) && u < c.workers && p == s.pc[u] && PcShape(c, p) && p.Exec? && p.i == x && p.ex.Locked?
    requires x < c.n && Fresh(s, x, inc)
    ensures Fresh(SetExecutedStep(c, s, u, p), x, inc)
  {
    var s' := SetExecutedStep(c, s, u, p);
    Knows(c, s, u);
    MatchStays(s, s', x, p.hist);
    forall v | 0 <= v < |s'.pc| ensures ValFresh(s'.pc[v], x, inc, s'.txns[x].input) { Knows(c, s, v); }
  }

  lemma FreshExecOwn(c: Config, s: State, u: nat, p: Pc, s': State, x: nat, inc: nat)
    requires InvOwn(c, s) && u < c.workers && p == s.pc[u] && PcShape(c, p) && !Panics(c, s, u)
    requires p.Exec? && ExecStep(c, s, u, p, s') && p.i == x
    requires x < c.n && Fresh(s, x, inc) && SameBelow(s, s', x)
    ensures Fresh(s', x, inc)
  {
    if p.ex.Running? { FreshRun(c, s, u, p, x, inc); }
    else if p.ex.Apply? { FreshApply(c, s, u, p, s', x, inc); }
    else if p.ex.Locked? { FreshSetExecuted(c, s, u, p, x, inc); }
    else { FreshGoesOn(c, s, u, p, s', x, inc); }
  }

  lemma RunGoesOn(c: Config, s: State, u: nat, p: Pc, s': State)
    requires InvOwn(c, s) && u < c.workers && p == s.pc[u] && PcShape(c, p) && !Panics(c, s, u)
    requires p.Exec? && ExecStep(c, s, u, p, s') && !p.ex.Running? && !p.ex.Apply? && !p.ex.Locked?
    ensures var t, t', p' := s.txns[p.i], s'.txns[p.i], s'.pc[u];
            && t'.owner == t.owner && t'.input == t.input && t'.status.inc == t.status.inc && V.Pre(t'.status)
            && p'.Exec? && p'.i == p.i && p'.hist == p.hist && (Stored(p'.ex) ==> Stored(p.ex))
  {
    Knows(c, s, u);
  }

  lemma FreshGoesOn(c: Config, s: State, u: nat, p: Pc, s': State, x: nat, inc: nat)
    requires InvOwn(c, s) && u < c.workers && p == s.pc[u] && PcShape(c, p) && !Panics(c, s, u)
    requires p.Exec? && ExecStep(c, s, u, p, s') && p.i == x && !p.ex.Running? && !p.ex.Apply? && !p.ex.Locked?
    requires x < c.n && Fresh(s, x, inc) && SameBelow(s, s', x)
    ensures Fresh(s', x, inc)
  {
    Knows(c, s, u);
    RunGoesOn(c, s, u, p, s');
    MatchStays(s, s', x, p.hist);
    FreshGoes(c, s, u, s', x, inc);
  }

  // ---------------------------------------------------------------- runs

  lemma FreshStep(c: Config, s: State, u: nat, s': State, x: nat, inc: nat)
    requires InvOwn(c, s) && x < c.n && Fresh(s, x, inc) && Step(c, s, u, s') && SameBelow(s, s', x)
    ensures Fresh(s', x, inc)
  {
    var p := s.pc[u];
    if p.Exec? && p.i == x { FreshExecOwn(c, s, u, p, s', x, inc); }
    else if p.Val? { FreshVal(c, s, u, p, s', x, inc); }
    else { FreshElse(c, s, u, p, s', x, inc); }
  }

  lemma FreshNext(c: Config, s: State, s': State, x: nat, inc: nat)
    requires InvOwn(c, s) && x < c.n && Fresh(s, x, inc) && Next(c, s, s') && SameBelow(s, s', x)
    ensures Fresh(s', x, inc)
  {
    if s' == TryCommit(c, s) { FreshCommit(c, s, x, inc); }
    else {
      var u :| Step(c, s, u, s');
      FreshStep(c, s, u, s', x, inc);
    }
  }

  lemma FreshCommit(c: Config, s: State, x: nat, inc: nat)
    requires Shape(c, s) && x < c.n && Fresh(s, x, inc)
    ensures Fresh(TryCommit(c, s), x, inc)
  {
    var s', t := TryCommit(c, s), s.txns[x];
    assert SameBelow(s, s', x);
    if IsExecuted(t.status) { MatchStays(s, s', x, t.input.value); }
    else { MatchStays(s, s', x, PcOf(s, t.owner).hist); }
    forall v | 0 <= v < |s'.pc| ensures ValFresh(s'.pc[v], x, inc, s'.txns[x].input) {
      assert ValFresh(s.pc[v], x, inc, t.input);
    }
  }

  /** The worker whose step begins a version runs it from then on. */
  lemma BeginsBy(c: Config, s: State, u: nat, s': State, x: nat, inc: nat)
    requires Step(c, s, u, s') && Shape(c, s') && x < c.n && Begins(s.txns[x], s'.txns[x], inc)
    ensures s'.txns[x].owner == Some(u) && s'.pc[u] == Exec(x, inc, [], Running)
  {
    var p := s.pc[u];
    match p
    case Exec(_, _, _, _) => ReadyInExec(c, s, u, p, s', x);
    case Fin(_, _, _) => ReadyInFin(c, s, u, p, s', x);
    case Aborter(_, _, _) => ReadyInAbort(c, s, u, p, s', x);
    case _ =>
  }

  lemma ReadyInExec(c: Config, s: State, u: nat, p: Pc, s': State, x: nat)
    requires Shape(c, s) && u < c.workers && p == s.pc[u] && PcShape(c, p) && !Panics(c, s, u)
    requires p.Exec? && ExecStep(c, s, u, p, s') && Shape(c, s') && x < c.n && s.txns[x].status.Ready?
    ensures !s'.txns[x].status.Executing?
  {
    if p.ex.Apply? {
      ApplyGoesOn(c, s, u, p, s');
      CalmApply(c, s, u, p, s');
    }
  }

  lemma ReadyInFin(c: Config, s: State, u: nat, p: Pc, s': State, x: nat)
    requires Shape(c, s) && u < c.workers && p == s.pc[u] && PcShape(c, p) && !Panics(c, s, u)
    requires p.Fin? && FinStep(c, s, u, p, s') && Shape(c, s') && x < c.n && s.txns[x].status.Ready?
    ensures !s'.txns[x].status.Executing?
  {}

  lemma ReadyInAbort(c: Config, s: State, u: nat, p: Pc, s': State, x: nat)
    requires Shape(c, s) && u < c.workers && p == s.pc[u] && PcShape(c, p) && !Panics(c, s, u)
    requires p.Aborter? && AbortStep(c, s, u, p, s') && Shape(c, s') && x < c.n && s.txns[x].status.Ready?
    ensures !s'.txns[x].status.Executing?
  {}

  lemma FreshStart(c: Config, s: State, u: nat, x: nat, inc: nat)
    requires InvOwn(c, s) && x < c.n && u < c.workers
    requires s.txns[x].status == Executing(inc) && s.txns[x].owner == Some(u) && s.pc[u] == Exec(x, inc, [], Running)
    ensures Fresh(s, x, inc)
  {
    forall v | 0 <= v < |s.pc| ensures ValFresh(s.pc[v], x, inc, s.txns[x].input) { Knows(c, s, v); }
  }

  /** A version that has just begun has read nothing. */
  lemma FreshBegins(c: Config, s: State, s': State, x: nat, inc: nat)
    requires InvOwn(c, s') && Next(c, s, s') && x < c.n && |s.txns| == c.n && Begins(s.txns[x], s'.txns[x], inc)
    ensures Fresh(s', x, inc)
  {
    var u :| Step(c, s, u, s');
    BeginsBy(c, s, u, s', x, inc);
    FreshStart(c, s', u, x, inc);
  }

  lemma RunOwn(c: Config, tr: seq<State>, k: nat)
    requires IsRun(c, tr) && k < |tr|
    ensures InvOwn(c, tr[k])
  {
    RunInv(c, tr, k);
  }

  /** From its beginning on, a version stays fresh as long as nothing changes below. */
  lemma {:induction false} StaysFresh(c: Config, tr: seq<State>, x: nat, inc: nat, k: nat, l: nat)
    requires IsRun(c, tr) && x < c.n && k < l < |tr| && |tr[k].txns| == |tr[k + 1].txns| == c.n
    requires Begins(tr[k].txns[x], tr[k + 1].txns[x], inc)
    requires forall m :: k < m < l ==> QuietAt(tr, x, m)
    ensures x < |tr[l].txns| && Fresh(tr[l], x, inc)
    decreases l - k
  {
    RunOwn(c, tr, l);
    RunOwn(c, tr, l - 1);
    assert NextAt(c, tr, l - 1);
    if l == k + 1 { FreshBegins(c, tr[k], tr[k + 1], x, inc); }
    else {
      StaysFresh(c, tr, x, inc, k, l - 1);
      assert QuietAt(tr, x, l - 1);
      FreshNext(c, tr[l - 1], tr[l], x, inc);
    }
  }

  /** A version that is aborted saw the map below it change since it began. */
  lemma AbortNeedsChange(c: Config, tr: seq<State>, x: nat, inc: nat, k: nat, l: nat)
    requires IsRun(c, tr) && x < c.n && k < l && l + 1 < |tr|
    requires var h := History(tr, x); Begins(h[k], h[k + 1], inc) && Aborts(h[l], h[l + 1], inc)
    ensures exists m :: k < m <= l && !QuietAt(tr, x, m)
  {
    RunFollowsDiagram(c, tr, x);
    RunOwn(c, tr, k);
    RunOwn(c, tr, k + 1);
    if forall m :: k < m < l + 1 ==> QuietAt(tr, x, m) { StaysFresh(c, tr, x, inc, k, l + 1); }
  }

  // ---------------------------------------------------------------- consequences

  /** Before a version is executed it has begun. */
  lemma {:induction false} BeganBefore(h: seq<Txn>, inc: nat, l: nat) returns (k: nat)
    requires IsPath(h) && l < |h| && h[0] == InitTxn && Rank(h[l].status) > 4 * inc
    ensures k < l && Begins(h[k], h[k + 1], inc)
  {
    assert l > 0 && Advance(h[l - 1], h[l - 1 + 1]);
    if Rank(h[l - 1].status) > 4 * inc { k := BeganBefore(h, inc, l - 1); } else { k := l - 1; }
  }

  lemma InitHistory(c: Config, tr: seq<State>, x: nat)
    requires IsRun(c, tr) && x < c.n
    ensures History(tr, x)[0] == InitTxn
  {}

  /** When everything below is committed, nothing below changes any more. */
  lemma BelowIsFixed(c: Config, tr: seq<State>, x: nat, k: nat, m: nat)
    requires IsRun(c, tr) && x < c.n && k <= m && m + 1 < |tr| && tr[k].commitIdx >= x
    ensures QuietAt(tr, x, m)
  {
    RunInv(c, tr, k);
    RunOwn(c, tr, m);
    RunOwn(c, tr, m + 1);
    forall y | 0 <= y < x ensures tr[m + 1].txns[y].mv == tr[m].txns[y].mv {
      RunFollowsDiagram(c, tr, y);
      CommittedForever(c, tr, y, k, m);
      CommittedForever(c, tr, y, k, m + 1);
    }
  }

  /** A version that begins after everything below is committed is never aborted. */
  lemma LastVersion(c: Config, tr: seq<State>, x: nat, inc: nat, from: nat, k: nat, l: nat)
    requires IsRun(c, tr) && x < c.n && from <= k < l && l + 1 < |tr| && tr[from].commitIdx >= x
    requires Begins(History(tr, x)[k], History(tr, x)[k + 1], inc)
    ensures !Aborts(History(tr, x)[l], History(tr, x)[l + 1], inc)
  {
    forall m | k < m <= l ensures QuietAt(tr, x, m) { BelowIsFixed(c, tr, x, from, m); }
    if Aborts(History(tr, x)[l], History(tr, x)[l + 1], inc) { AbortNeedsChange(c, tr, x, inc, k, l); }
  }

  /** Two aborts are of different versions, and the second version began after the first abort. */
  lemma BeganAfter(h: seq<Txn>, l: nat, inc: nat, l': nat, inc': nat) returns (k: nat)
    requires l < l' && l' + 1 < |h| && IsPath(h) && h[0] == InitTxn
    requires Aborts(h[l], h[l + 1], inc) && Aborts(h[l'], h[l' + 1], inc')
    ensures l < k < l' && Begins(h[k], h[k + 1], inc')
  {
    RankGrows(h, l + 1, l');
    k := BeganBefore(h, inc', l');
    if k <= l { RankGrows(h, k, l); }
  }

  /** Once everything below a transaction is committed, it is aborted at most once more. */
  lemma AtMostOneMoreAbort(c: Config, tr: seq<State>, x: nat, from: nat, l: nat, inc: nat, l': nat, inc': nat)
    requires IsRun(c, tr) && x < c.n && from <= l < l' && l' + 1 < |tr| && tr[from].commitIdx >= x
    requires Aborts(History(tr, x)[l], History(tr, x)[l + 1], inc)
    ensures !Aborts(History(tr, x)[l'], History(tr, x)[l' + 1], inc')
  {
    var h := History(tr, x);
    if Aborts(h[l'], h[l' + 1], inc') {
      RunFollowsDiagram(c, tr, x);
      InitHistory(c, tr, x);
      var k := BeganAfter(h, l, inc, l', inc');
      LastVersion(c, tr, x, inc', from, k, l');
    }
  }

  /** The first transaction of the block is never aborted. */
  lemma FirstNeverAborts(c: Config, tr: seq<State>, l: nat, inc: nat)
    requires IsRun(c, tr) && c.n > 0 && l + 1 < |tr|
    ensures !Aborts(History(tr, 0)[l], History(tr, 0)[l + 1], inc)
  {
    var h := History(tr, 0);
    if Aborts(h[l], h[l + 1], inc) {
      RunFollowsDiagram(c, tr, 0);
      InitHistory(c, tr, 0);
      var k := BeganBefore(h, inc, l);
      LastVersion(c, tr, 0, inc, k, k, l);
    }
  }
}
