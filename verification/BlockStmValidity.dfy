/**
 Why a commit is safe.  A validation of wave w that is recent enough for transaction i
 (w >= need[i]) vouches for the reads it has checked, unless some lower transaction has
 changed the map and not yet begun a new wave.  When i commits, no lower transaction can be
 in that situation, so its recorded reads hold in the map.
 */
module BlockStmValidity {
  import opened Options
  import opened BlockStm
  import opened BlockStmView
  import W = BlockStmWaves
  import M = BlockStmMemory
  import C = BlockStmCommit

  predicate Pending(t: Txn) { t.dirty || t.aborted }

  /** Some transaction below `i` changed the map and has not begun a wave since. */
  ghost predicate PendBelow(txns: seq<Txn>, i: nat)
    requires i <= |txns|
  {
    exists j :: 0 <= j < i && Pending(txns[j])
  }

  ghost predicate Vouched(txns: seq<Txn>, i: nat, rs: seq<Read>, p: nat)
    requires i <= |txns| && p <= |rs|
  {
    PendBelow(txns, i) || forall q :: 0 <= q < p ==> Matches(txns, i, rs[q])
  }

  /** All recorded reads of `i` still get the same answer. */
  ghost predicate AllValid(txns: seq<Txn>, i: nat)
    requires i < |txns|
  {
    txns[i].input.Some? && forall q :: 0 <= q < |txns[i].input.value| ==> Matches(txns, i, txns[i].input.value[q])
  }

  predicate Pre(st: Status) { st.Ready? || st.Executing? || st.Suspended? }

  /** What a validation status that is recent enough says about transaction `i`. */
  ghost predicate TVal(s: State, i: nat)
    requires i < |s.txns| == |s.need|
  {
    var t := s.txns[i];
    && (t.status.Committed? ==> AllValid(s.txns, i))
    && (t.vstat.maxValidated.Some? && t.vstat.maxValidated.value >= s.need[i] ==>
          && (Pre(t.status) ==> t.aborted)
          && (t.status.Executed? ==>
                t.input.Some? && Vouched(s.txns, i, t.input.value, |t.input.value|)))
  }

  /** What a validator at work knows, if its wave is recent enough. */
  ghost predicate ValOk(s: State, p: Pc)
    requires |s.txns| == |s.need| && p.Val? && p.i < |s.txns|
  {
    var t := s.txns[p.i];
    && t.input.Some?
    && (p.w >= s.need[p.i] ==>
          && (t.status == Executed(p.inc) || t.status == Committed(p.inc) ||
              (t.aborted && (Pre(t.status) || t.status == Aborting(p.inc))))
          && (t.status == Executed(p.inc) ==>
                match p.val
                case Task => true
                case Check(rs, q) => t.input == Some(rs) && q <= |rs| && Vouched(s.txns, p.i, rs, q)
                case Failed => true
                case Credit => Vouched(s.txns, p.i, t.input.value, |t.input.value|)))
  }

  ghost predicate WVal(s: State, u: nat)
    requires |s.txns| == |s.need| && u < |s.pc|
  {
    s.pc[u].Val? ==> s.pc[u].i < |s.txns| && ValOk(s, s.pc[u])
  }

  ghost predicate InvVal(c: Config, s: State) {
    && Shape(c, s)
    && (forall i :: 0 <= i < c.n ==> TVal(s, i))
    && (forall u :: 0 <= u < c.workers ==> WVal(s, u))
  }

  lemma InitVal(c: Config, s: State)
    requires Init(c, s) && c.workers > 0
    ensures InvVal(c, s)
  {
    forall i | 0 <= i < c.n ensures TVal(s, i) { assert s.txns[i] == InitTxn; }
    forall u | 0 <= u < c.workers ensures WVal(s, u) { assert s.pc[u] == Idle(Top); }
  }

  // ---------------------------------------------------------------- what changes of the map do to reads

  /** From `txns` to `txns'` nothing is lost at `i`: what was vouched for stays vouched for. */
  ghost predicate Tame(txns: seq<Txn>, txns': seq<Txn>, i: nat)
    requires i <= |txns| && i <= |txns'|
  {
    && (PendBelow(txns, i) ==> PendBelow(txns', i))
    && forall r :: Matches(txns, i, r) ==> Matches(txns', i, r) || PendBelow(txns', i)
  }

  lemma SameGet(txns: seq<Txn>, txns': seq<Txn>, k: Key, i: nat)
    requires i <= |txns| && i <= |txns'|
    requires forall j :: 0 <= j < i ==> txns'[j].mv == txns[j].mv
    ensures MvGet(txns', k, i) == MvGet(txns, k, i)
  {}

  /** Only entries that were estimates disappear or change, and nothing new appears. */
  ghost predicate Harmless(m: map<Key, Entry>, m': map<Key, Entry>) {
    && (forall k :: k in m' ==> k in m)
    && (forall k :: k in m && !m[k].estimate ==> k in m' && m'[k] == m[k])
  }

  lemma HarmlessGet(txns: seq<Txn>, txns': seq<Txn>, j: nat, r: Read, i: nat)
    requires i <= |txns| == |txns'| && j < |txns| && Harmless(txns[j].mv, txns'[j].mv)
    requires forall x :: 0 <= x < |txns| && x != j ==> txns'[x].mv == txns[x].mv
    requires Matches(txns, i, r)
    ensures Matches(txns', i, r)
  {
    if i > 0 && r.key !in txns[i - 1].mv { HarmlessGet(txns, txns', j, r, i - 1); }
  }

  lemma SameReads(txns: seq<Txn>, txns': seq<Txn>, i: nat)
    requires i <= |txns| && i <= |txns'|
    requires forall j :: 0 <= j < i ==>
               txns'[j].mv == txns[j].mv && txns'[j].dirty == txns[j].dirty && txns'[j].aborted == txns[j].aborted
    ensures PendBelow(txns, i) <==> PendBelow(txns', i)
    ensures forall r :: Matches(txns, i, r) <==> Matches(txns', i, r)
    ensures Tame(txns, txns', i)
  {
    forall r ensures Matches(txns, i, r) <==> Matches(txns', i, r) { SameGet(txns, txns', r.key, i); }
    if PendBelow(txns, i) {
      var j :| 0 <= j < i && Pending(txns[j]);
      assert Pending(txns'[j]);
    }
    if PendBelow(txns', i) {
      var j :| 0 <= j < i && Pending(txns'[j]);
      assert Pending(txns[j]);
    }
  }

  // ---------------------------------------------------------------- steps that change nothing validation sees

  lemma TKeep(s: State, s': State, i: nat)
    requires i < |s.txns| == |s.need| && |s'.txns| == |s'.need| == |s.txns|
    requires TVal(s, i) && s'.need[i] >= s.need[i]
    requires var t, t' := s.txns[i], s'.txns[i];
             && Class(t'.status) == Class(t.status) && t'.input == t.input && t'.aborted == t.aborted
             && t'.vstat.maxValidated == t.vstat.maxValidated
    requires Tame(s.txns, s'.txns, i)
    requires s.txns[i].status.Committed? ==> forall r :: Matches(s.txns, i, r) ==> Matches(s'.txns, i, r)
    ensures TVal(s', i)
  {}

  lemma WKeep(s: State, s': State, p: Pc)
    requires |s'.txns| == |s'.need| == |s.txns| == |s.need| && p.Val? && p.i < |s.txns|
    requires ValOk(s, p) && s'.need[p.i] >= s.need[p.i]
    requires var t, t' := s.txns[p.i], s'.txns[p.i];
             Class(t'.status) == Class(t.status) && t'.input == t.input && t'.aborted == t.aborted
    requires Tame(s.txns, s'.txns, p.i)
    ensures ValOk(s', p)
  {}

  lemma ValQuiet(c: Config, s: State, u: nat, s': State)
    requires InvVal(c, s) && Moved(c, s, u, s') && SameVal(s, s') && s'.need == s.need
    requires forall x :: 0 <= x < c.n ==> s'.txns[x].vstat.maxValidated == s.txns[x].vstat.maxValidated
    requires WVal(s', u)
    ensures InvVal(c, s')
  {
    forall i | 0 <= i < c.n ensures TVal(s', i) {
      assert TVal(s, i);
      SameReads(s.txns, s'.txns, i);
      TKeep(s, s', i);
    }
    forall v | 0 <= v < c.workers ensures WVal(s', v) {
      if v != u && s.pc[v].Val? {
        assert WVal(s, v);
        SameReads(s.txns, s'.txns, s.pc[v].i);
        WKeep(s, s', s.pc[v]);
      }
    }
  }

  /** A worker that validates nothing afterwards. */
  lemma ValIdle(c: Config, s: State, u: nat, s': State)
    requires InvVal(c, s) && Moved(c, s, u, s') && SameVal(s, s') && SameWaves(s, s') && !s'.pc[u].Val?
    ensures InvVal(c, s')
  {
    ValQuiet(c, s, u, s');
  }

  // ---------------------------------------------------------------- steps on the record of one transaction

  /** Only the record of `j` changes; the reads of every other transaction stay vouched for. */
  lemma ValOne(c: Config, s: State, u: nat, s': State, j: nat)
    requires InvVal(c, s) && Moved(c, s, u, s') && j < c.n && Only(s, s', j) && s'.need == s.need
    requires forall i :: 0 <= i < c.n && i != j ==>
               && Tame(s.txns, s'.txns, i)
               && (s.txns[i].status.Committed? ==> forall r :: Matches(s.txns, i, r) ==> Matches(s'.txns, i, r))
    requires TVal(s', j) && WVal(s', u)
    requires forall v :: 0 <= v < c.workers && v != u && s.pc[v].Val? && s.pc[v].i == j ==> ValOk(s', s.pc[v])
    ensures InvVal(c, s')
  {
    forall i | 0 <= i < c.n ensures TVal(s', i) {
      if i != j {
        assert TVal(s, i);
        TKeep(s, s', i);
      }
    }
    forall v | 0 <= v < c.workers ensures WVal(s', v) {
      if v != u && s.pc[v].Val? && s.pc[v].i != j {
        assert WVal(s, v);
        WKeep(s, s', s.pc[v]);
      }
    }
  }

  /** The map and the pending flags are as before: reads of others are not affected at all. */
  lemma ValRecord(c: Config, s: State, u: nat, s': State, j: nat)
    requires InvVal(c, s) && Moved(c, s, u, s') && j < c.n && Only(s, s', j) && s'.need == s.need
    requires var t, t' := s.txns[j], s'.txns[j];
             t'.mv == t.mv && t'.dirty == t.dirty && (t'.aborted == t.aborted || t'.aborted)
    requires TVal(s', j) && WVal(s', u)
    requires forall v :: 0 <= v < c.workers && v != u && s.pc[v].Val? && s.pc[v].i == j ==> ValOk(s', s.pc[v])
    ensures InvVal(c, s')
  {
    forall i | 0 <= i < c.n && i != j
      ensures Tame(s.txns, s'.txns, i)
      ensures forall r :: Matches(s.txns, i, r) ==> Matches(s'.txns, i, r)
    {
      forall r | Matches(s.txns, i, r) ensures Matches(s'.txns, i, r) { SameGet(s.txns, s'.txns, r.key, i); }
      if PendBelow(s.txns, i) {
        var x :| 0 <= x < i && Pending(s.txns[x]);
        assert Pending(s'.txns[x]);
      }
    }
    ValOne(c, s, u, s', j);
  }

  /** Other validators of `j` whose view of it did not change. */
  lemma OthersKeep(c: Config, s: State, u: nat, s': State, j: nat)
    requires InvVal(c, s) && Moved(c, s, u, s') && j < c.n && Only(s, s', j) && s'.need == s.need
    requires var t, t' := s.txns[j], s'.txns[j];
             Class(t'.status) == Class(t.status) && t'.input == t.input && t'.aborted == t.aborted
    ensures Tame(s.txns, s'.txns, j)
    ensures forall v :: 0 <= v < c.workers && v != u && s.pc[v].Val? && s.pc[v].i == j ==> ValOk(s', s.pc[v])
  {
    SameReads(s.txns, s'.txns, j);
    forall v | 0 <= v < c.workers && v != u && s.pc[v].Val? && s.pc[v].i == j ensures ValOk(s', s.pc[v]) {
      assert WVal(s, v);
      WKeep(s, s', s.pc[v]);
    }
  }

  lemma ValTask(c: Config, s: State, u: nat, p: Pc)
    requires InvVal(c, s) && u < c.workers && p == s.pc[u] && PcShape(c, p) && p.Val? && p.val.Task?
    requires s.txns[p.i].input.Some?
    ensures InvVal(c, Goto(s, u, p.(val := Check(s.txns[p.i].input.value, 0))))
  {
    assert WVal(s, u);
    ValQuiet(c, s, u, Goto(s, u, p.(val := Check(s.txns[p.i].input.value, 0))));
  }

  lemma ValCheck(c: Config, s: State, u: nat, p: Pc)
    requires InvVal(c, s) && u < c.workers && p == s.pc[u] && PcShape(c, p) && p.Val? && p.val.Check?
    ensures InvVal(c, CheckStep(c, s, u, p))
  {
    assert WVal(s, u);
    ValQuiet(c, s, u, CheckStep(c, s, u, p));
  }

  /** A transaction that is executed, committed or aborting has recorded its reads. */
  lemma HasInput(c: Config, s: State, i: nat)
    requires InvOwn(c, s) && M.InvMem(c, s) && i < c.n
    requires var st := s.txns[i].status; st.Executed? || st.Committed? || st.Aborting?
    ensures s.txns[i].input.Some?
    ensures s.txns[i].status.Aborting? ==> s.txns[i].aborted
  {
    assert M.TxnOk(c, s.log, i, M.MemAt(s, i));
    KnowsTxn(c, s, i);
    var own := s.txns[i].owner;
    if own.Some? { Knows(c, s, own.value); }
  }

  lemma ValGotVal(c: Config, s: State, u: nat, i: nat, w: nat)
    requires InvOwn(c, s) && M.InvMem(c, s) && InvVal(c, s) && u < c.workers && i < c.n
    ensures InvVal(c, GotValStep(c, s, u, i, w))
  {
    if s.txns[i].status.Executed? { HasInput(c, s, i); }
    ValQuiet(c, s, u, GotValStep(c, s, u, i, w));
  }

  lemma ValCredit(c: Config, s: State, u: nat, p: Pc)
    requires InvOwn(c, s) && InvVal(c, s) && u < c.workers && p == s.pc[u] && PcShape(c, p)
    requires p.Val? && p.val.Credit? && s.txns[p.i].vlock.None?
    ensures InvVal(c, CreditStep(c, s, u, p))
  {
    var s' := CreditStep(c, s, u, p);
    assert WVal(s, u) && TVal(s, p.i);
    KnowsTxn(c, s, p.i);
    OthersKeep(c, s, u, s', p.i);
    SameReads(s.txns, s'.txns, p.i);
    ValRecord(c, s, u, s', p.i);
  }

  lemma ValTryAbort(c: Config, s: State, u: nat, p: Pc)
    requires InvVal(c, s) && u < c.workers && p == s.pc[u] && PcShape(c, p) && p.Val? && p.val.Failed?
    ensures InvVal(c, TryAbortStep(c, s, u, p))
  {
    var s' := TryAbortStep(c, s, u, p);
    assert WVal(s, u) && TVal(s, p.i);
    if s.txns[p.i].status == Executed(p.inc) {
      forall v | 0 <= v < c.workers && v != u && s.pc[v].Val? && s.pc[v].i == p.i ensures ValOk(s', s.pc[v]) {
        assert WVal(s, v);
      }
      ValRecord(c, s, u, s', p.i);
    } else {
      ValQuiet(c, s, u, s');
    }
  }

  lemma ValSetAborted(c: Config, s: State, u: nat, p: Pc)
    requires InvOwn(c, s) && InvVal(c, s) && u < c.workers && p == s.pc[u] && PcShape(c, p)
    requires p.Aborter? && p.ab.AbortLocked?
    ensures InvVal(c, SetAbortedStep(c, s, u, p))
  {
    var s' := SetAbortedStep(c, s, u, p);
    Knows(c, s, u);
    assert TVal(s, p.i);
    forall v | 0 <= v < c.workers && v != u && s.pc[v].Val? && s.pc[v].i == p.i ensures ValOk(s', s.pc[v]) {
      assert WVal(s, v);
    }
    ValRecord(c, s, u, s', p.i);
  }

  /** While a version runs, no validation that is recent enough speaks about its transaction. */
  lemma NoneRecent(c: Config, s: State, u: nat, i: nat)
    requires InvOwn(c, s) && InvVal(c, s) && u < c.workers && RoleOf(s.pc[u]).Runner? && s.pc[u].i == i
    requires s.txns[i].status.Executing? && s.txns[i].vlock == Some(u)
    ensures !s.txns[i].aborted
    ensures s.txns[i].vstat.maxValidated.Some? ==> s.txns[i].vstat.maxValidated.value < s.need[i]
    ensures forall v :: 0 <= v < c.workers && s.pc[v].Val? && s.pc[v].i == i ==>
              s.pc[v].w < s.need[i] && s.txns[i].input.Some?
  {
    Knows(c, s, u);
    KnowsTxn(c, s, i);
    assert TVal(s, i);
    forall v | 0 <= v < c.workers && s.pc[v].Val? && s.pc[v].i == i
      ensures s.pc[v].w < s.need[i] && s.txns[i].input.Some?
    {
      assert WVal(s, v);
    }
  }

  lemma ValSetExecuted(c: Config, s: State, u: nat, p: Pc)
    requires InvOwn(c, s) && InvVal(c, s) && u < c.workers && p == s.pc[u] && PcShape(c, p)
    requires p.Exec? && p.ex.Locked?
    ensures InvVal(c, SetExecutedStep(c, s, u, p))
  {
    Knows(c, s, u);
    NoneRecent(c, s, u, p.i);
    ValRecord(c, s, u, SetExecutedStep(c, s, u, p), p.i);
  }

  lemma ValRecordIn(c: Config, s: State, u: nat, p: Pc)
    requires InvOwn(c, s) && InvVal(c, s) && u < c.workers && p == s.pc[u] && PcShape(c, p)
    requires p.Exec? && p.ex.Apply?
    ensures InvVal(c, RecordInStep(c, s, u, p))
  {
    var s' := RecordInStep(c, s, u, p);
    Knows(c, s, u);
    assert TVal(s, p.i);
    forall v | 0 <= v < c.workers && v != u && s.pc[v].Val? && s.pc[v].i == p.i ensures ValOk(s', s.pc[v]) {
      assert WVal(s, v);
    }
    ValRecord(c, s, u, s', p.i);
  }

  // ---------------------------------------------------------------- steps that change the map

  /** A change of the entries of `j` that is harmless, or made while `j` is pending. */
  lemma ValMap(c: Config, s: State, u: nat, s': State, j: nat)
    requires InvVal(c, s) && C.InvCommit(c, s) && Moved(c, s, u, s') && j < c.n && Only(s, s', j) && s'.need == s.need
    requires var t, t' := s.txns[j], s'.txns[j];
             && t' == t.(mv := t'.mv, dirty := t'.dirty) && (t.dirty ==> t'.dirty)
             && !t.status.Committed?
             && (Pending(t') || Harmless(t.mv, t'.mv))
    requires !s'.pc[u].Val?
    ensures InvVal(c, s')
  {
    forall i | 0 <= i < c.n
      ensures Tame(s.txns, s'.txns, i)
      ensures s.txns[i].status.Committed? ==> forall r :: Matches(s.txns, i, r) ==> Matches(s'.txns, i, r)
    {
      if i <= j { SameReads(s.txns, s'.txns, i); }
      else {
        if PendBelow(s.txns, i) {
          var x :| 0 <= x < i && Pending(s.txns[x]);
          assert Pending(s'.txns[x]);
        }
        if Pending(s'.txns[j]) { assert PendBelow(s'.txns, i); }
        else { HarmlessAll(s.txns, s'.txns, j, i); }
      }
    }
    assert TVal(s, j);
    TKeep(s, s', j);
    OthersKeep(c, s, u, s', j);
    ValOne(c, s, u, s', j);
  }

  lemma HarmlessAll(txns: seq<Txn>, txns': seq<Txn>, j: nat, i: nat)
    requires i <= |txns| == |txns'| && j < |txns| && Harmless(txns[j].mv, txns'[j].mv)
    requires forall x :: 0 <= x < |txns| && x != j ==> txns'[x].mv == txns[x].mv
    ensures forall r :: Matches(txns, i, r) ==> Matches(txns', i, r)
  {
    forall r | Matches(txns, i, r) ensures Matches(txns', i, r) { HarmlessGet(txns, txns', j, r, i); }
  }

  lemma ValAddWrite(c: Config, s: State, u: nat, p: Pc, k: Key)
    requires InvOwn(c, s) && M.InvMem(c, s) && C.InvCommit(c, s) && InvVal(c, s)
    requires u < c.workers && p == s.pc[u] && PcShape(c, p) && p.Exec? && p.ex.Apply? && k in p.ex.todo
    ensures InvVal(c, AddWriteStep(c, s, u, p, k))
  {
    Knows(c, s, u);
    M.Overwrites(c, s.log, p.i, M.MemAt(s, p.i), k);
    ValMap(c, s, u, AddWriteStep(c, s, u, p, k), p.i);
  }

  lemma ValDelete(c: Config, s: State, u: nat, p: Pc, k: Key)
    requires InvOwn(c, s) && M.InvMem(c, s) && C.InvCommit(c, s) && InvVal(c, s)
    requires u < c.workers && p == s.pc[u] && PcShape(c, p) && p.Exec? && p.ex.Apply? && k in p.ex.prev
    ensures InvVal(c, DeleteStep(c, s, u, p, k))
  {
    Knows(c, s, u);
    assert M.TxnOk(c, s.log, p.i, M.MemAt(s, p.i));
    ValMap(c, s, u, DeleteStep(c, s, u, p, k), p.i);
  }

  lemma ValMark(c: Config, s: State, u: nat, p: Pc, k: Key)
    requires InvOwn(c, s) && C.InvCommit(c, s) && InvVal(c, s)
    requires u < c.workers && p == s.pc[u] && PcShape(c, p) && p.Aborter? && p.ab.Mark? && k in s.txns[p.i].mv
    ensures InvVal(c, MarkStep(c, s, u, p, k))
  {
    Knows(c, s, u);
    ValMap(c, s, u, MarkStep(c, s, u, p, k), p.i);
  }

  // ---------------------------------------------------------------- steps after which older waves do not count

  /** `j` is no longer pending, and every wave handed out for an index from `j` on is too old. */
  lemma ValOld(c: Config, s: State, u: nat, s': State, j: nat)
    requires InvVal(c, s) && W.InvWave(c, s') && Moved(c, s, u, s') && j < c.n && s'.valIdx <= j
    requires Only(s, s', j) && forall i :: 0 <= i < j ==> s'.need[i] == s.need[i]
    requires var t, t' := s.txns[j], s'.txns[j];
             && t'.status == t.status && t'.mv == t.mv && t'.input == t.input
             && t'.vstat.maxValidated == t.vstat.maxValidated
    requires !s'.pc[u].Val?
    ensures InvVal(c, s')
  {
    var ws := W.WaveView(s');
    forall i | 0 <= i < c.n ensures TVal(s', i) {
      assert TVal(s, i);
      if i < j {
        SameReads(s.txns, s'.txns, i);
        TKeep(s, s', i);
      } else {
        forall r ensures Matches(s.txns, i, r) ==> Matches(s'.txns, i, r) { SameGet(s.txns, s'.txns, r.key, i); }
        assert W.TOk(ws, i);
      }
    }
    forall v | 0 <= v < c.workers ensures WVal(s', v) {
      if v != u && s.pc[v].Val? {
        assert WVal(s, v);
        var i := s.pc[v].i;
        if i < j {
          SameReads(s.txns, s'.txns, i);
          WKeep(s, s', s.pc[v]);
        } else {
          assert W.WOk(ws, v);
          W.TooOld(ws, i, s.pc[v].w);
        }
      }
    }
  }

  lemma ValLoad(c: Config, s: State, u: nat, p: Pc)
    requires InvOwn(c, s) && M.InvMem(c, s) && InvVal(c, s) && u < c.workers && p == s.pc[u] && PcShape(c, p)
    requires p.Fin? && p.fin.Load? && W.InvWave(c, LoadStep(c, s, u, p))
    ensures InvVal(c, LoadStep(c, s, u, p))
  {
    var s' := LoadStep(c, s, u, p);
    Knows(c, s, u);
    KnowsTxn(c, s, p.i);
    if s.valIdx <= p.i { ValOld(c, s, u, s', p.i); }
    else if p.fin.outside { ValQuiet(c, s, u, s'); }
    else {
      HasInput(c, s, p.i);
      assert !s.txns[p.i].dirty by {
        var own := s.txns[p.i].owner;
        if own.Some? { Knows(c, s, own.value); }
      }
      ValQuiet(c, s, u, s');
    }
  }

  lemma ValDecrease(c: Config, s: State, u: nat, p: Pc)
    requires InvVal(c, s) && u < c.workers && p == s.pc[u] && PcShape(c, p)
    ensures p.Fin? && W.InvWave(c, DecreaseStep(c, s, u, p)) ==> InvVal(c, DecreaseStep(c, s, u, p))
    ensures p.FinAbort? && W.InvWave(c, AbortDecreaseStep(c, s, u, p)) ==> InvVal(c, AbortDecreaseStep(c, s, u, p))
  {
    if p.Fin? && W.InvWave(c, DecreaseStep(c, s, u, p)) { ValOld(c, s, u, DecreaseStep(c, s, u, p), p.i); }
    if p.FinAbort? && W.InvWave(c, AbortDecreaseStep(c, s, u, p)) {
      ValOld(c, s, u, AbortDecreaseStep(c, s, u, p), p.i);
    }
  }

  // ---------------------------------------------------------------- all steps

  lemma ValExec(c: Config, s: State, u: nat, p: Pc, s': State)
    requires InvOwn(c, s) && M.InvMem(c, s) && C.InvCommit(c, s) && InvVal(c, s)
    requires Step(c, s, u, s') && p == s.pc[u] && p.Exec?
    ensures InvVal(c, s')
  {
    match p.ex
    case Apply(_, _, _, _) => ValApply(c, s, u, p, s');
    case Locked(_) => ValSetExecuted(c, s, u, p);
    case _ => ValIdle(c, s, u, s');
  }

  lemma ValApply(c: Config, s: State, u: nat, p: Pc, s': State)
    requires InvOwn(c, s) && M.InvMem(c, s) && C.InvCommit(c, s) && InvVal(c, s)
    requires u < c.workers && p == s.pc[u] && p.Exec? && p.ex.Apply? && PcShape(c, p) && ApplyStep(c, s, u, p, s')
    ensures InvVal(c, s')
  {
    if p.ex.todo != map[] {
      var k :| k in p.ex.todo && s' == AddWriteStep(c, s, u, p, k);
      ValAddWrite(c, s, u, p, k);
    } else if p.ex.prev != {} {
      var k :| k in p.ex.prev && s' == DeleteStep(c, s, u, p, k);
      ValDelete(c, s, u, p, k);
    } else {
      ValRecordIn(c, s, u, p);
    }
  }

  lemma ValAbort(c: Config, s: State, u: nat, p: Pc, s': State)
    requires InvOwn(c, s) && C.InvCommit(c, s) && InvVal(c, s)
    requires Step(c, s, u, s') && p == s.pc[u] && p.Aborter?
    ensures InvVal(c, s')
  {
    match p.ab
    case LoadKeys => ValIdle(c, s, u, s');
    case Mark(todo) =>
      if todo != {} {
        var k :| k in todo && s' == MarkStep(c, s, u, p, k);
        ValMark(c, s, u, p, k);
      } else { ValIdle(c, s, u, s'); }
    case AbortLocked => ValSetAborted(c, s, u, p);
  }

  lemma ValFin(c: Config, s: State, u: nat, p: Pc, s': State)
    requires InvOwn(c, s) && M.InvMem(c, s) && InvVal(c, s) && W.InvWave(c, s')
    requires Step(c, s, u, s') && p == s.pc[u] && (p.Fin? || p.FinAbort?)
    ensures InvVal(c, s')
  {
    if p.Fin? && p.fin.Load? { ValLoad(c, s, u, p); }
    else if (p.Fin? && p.fin.Decrease?) || (p.FinAbort? && p.fa.AbortDecrease?) { ValDecrease(c, s, u, p); }
    else { ValIdle(c, s, u, s'); }
  }

  lemma ValFree(c: Config, s: State, u: nat, p: Pc, s': State)
    requires InvOwn(c, s) && M.InvMem(c, s) && InvVal(c, s)
    requires Step(c, s, u, s') && p == s.pc[u] && (p.Idle? || p.GotVal? || p.GotEx? || p.Signal?)
    ensures InvVal(c, s')
  {
    match p
    case Idle(_) => ValQuiet(c, s, u, s');
    case GotVal(i, w) => ValGotVal(c, s, u, i, w);
    case _ => ValIdle(c, s, u, s');
  }

  lemma ValVal(c: Config, s: State, u: nat, p: Pc, s': State)
    requires InvOwn(c, s) && InvVal(c, s) && Step(c, s, u, s') && p == s.pc[u] && p.Val?
    ensures InvVal(c, s')
  {
    match p.val
    case Task => ValTask(c, s, u, p);
    case Check(_, _) => ValCheck(c, s, u, p);
    case Failed => ValTryAbort(c, s, u, p);
    case Credit => ValCredit(c, s, u, p);
  }

  lemma ValStepAll(c: Config, s: State, u: nat, s': State)
    requires InvOwn(c, s) && M.InvMem(c, s) && C.InvCommit(c, s) && InvVal(c, s) && W.InvWave(c, s')
    requires Step(c, s, u, s')
    ensures InvVal(c, s')
  {
    var p := s.pc[u];
    match p
    case Exec(_, _, _, _) => ValExec(c, s, u, p, s');
    case Fin(_, _, _) => ValFin(c, s, u, p, s');
    case Val(_, _, _, _) => ValVal(c, s, u, p, s');
    case Aborter(_, _, _) => ValAbort(c, s, u, p, s');
    case FinAbort(_, _, _) => ValFin(c, s, u, p, s');
    case _ => ValFree(c, s, u, p, s');
  }

  // ---------------------------------------------------------------- commit

  /** No transaction below the commit index is pending. */
  lemma NonePending(c: Config, s: State, i: nat)
    requires InvOwn(c, s) && C.InvCommit(c, s) && i <= s.commitIdx
    ensures !PendBelow(s.txns, i)
  {
    forall j | 0 <= j < i ensures !Pending(s.txns[j]) {
      KnowsTxn(c, s, j);
      var own, lock := s.txns[j].owner, s.txns[j].vlock;
      if lock.Some? { Knows(c, s, lock.value); }
    }
  }

  /** What try_commit is about to commit has only valid reads. */
  lemma CommitsValid(c: Config, s: State, i: nat)
    requires InvOwn(c, s) && W.InvWave(c, s) && C.InvCommit(c, s) && InvVal(c, s) && i == s.commitIdx < c.n
    requires !s.txns[i].status.Committed? && TryCommit(c, s).txns[i].status.Committed?
    ensures AllValid(s.txns, i)
  {
    assert TVal(s, i);
    assert W.TOk(W.WaveView(s), i);
    NonePending(c, s, i);
  }

  /** A validator still at work on the transaction that commits. */
  lemma WCommit(s: State, s': State, p: Pc)
    requires |s'.txns| == |s'.need| == |s.txns| == |s.need| && p.Val? && p.i < |s.txns|
    requires ValOk(s, p) && s'.need == s.need && s.txns[p.i].status.Executed?
    requires s'.txns[p.i] == s.txns[p.i].(status := Committed(s.txns[p.i].status.inc))
    ensures ValOk(s', p)
  {}

  lemma TCommit(c: Config, s: State, x: nat)
    requires InvOwn(c, s) && W.InvWave(c, s) && C.InvCommit(c, s) && InvVal(c, s) && x < c.n
    ensures TVal(TryCommit(c, s), x)
  {
    var s' := TryCommit(c, s);
    assert TVal(s, x);
    SameReads(s.txns, s'.txns, x);
    if s'.txns[x] == s.txns[x] { TKeep(s, s', x); } else { CommitsValid(c, s, x); }
  }

  lemma ValCommit(c: Config, s: State)
    requires InvOwn(c, s) && W.InvWave(c, s) && C.InvCommit(c, s) && InvVal(c, s)
    ensures InvVal(c, TryCommit(c, s))
  {
    var s' := TryCommit(c, s);
    forall x | 0 <= x < c.n ensures TVal(s', x) { TCommit(c, s, x); }
    forall v | 0 <= v < c.workers ensures WVal(s', v) {
      if s.pc[v].Val? {
        assert WVal(s, v);
        var x := s.pc[v].i;
        SameReads(s.txns, s'.txns, x);
        if s'.txns[x] == s.txns[x] { WKeep(s, s', s.pc[v]); } else { WCommit(s, s', s.pc[v]); }
      }
    }
  }
}
