/**
 Every fair run ends.  Whatever the schedule, only finitely many steps of an endless run do
 anything: from some point on workers only poll.  In a fair run that means that nothing is left
 to do, and the committing worker has committed the block.
 */
module BlockStmTermination {
  import opened BlockStm
  import opened BlockStmView
  import opened BlockStmSafety
  import opened BlockStmProgress
  import opened BlockStmRest
  import opened BlockStmSettled
  import opened BlockStmRanks
  import S = BlockStmSerial
  import X = BlockStmIndices
  import F = BlockStmCompletion

  // ---------------------------------------------------------------- what never grows comes to rest

  predicate AtMost(a: Rank, b: Rank) { a == b || Less(a, b) }

  lemma AtMostTrans(a: Rank, b: Rank, c: Rank)
    requires AtMost(a, b) && AtMost(b, c)
    ensures AtMost(a, c) && (Less(a, b) || Less(b, c) ==> Less(a, c))
  {}

  predicate FallsAt(f: nat -> Rank, k: nat) { AtMost(f(k + 1), f(k)) }

  predicate StillAt(f: nat -> Rank, k: nat) { f(k + 1) == f(k) }

  ghost predicate FallsFrom(f: nat -> Rank, from: nat) { forall k :: from <= k ==> FallsAt(f, k) }

  ghost predicate StillFrom(f: nat -> Rank, from: nat) { forall k :: from <= k ==> StillAt(f, k) }

  lemma {:induction false} Descends(f: nat -> Rank, from: nat, k: nat)
    requires FallsFrom(f, from) && from <= k
    ensures AtMost(f(k), f(from))
    decreases k - from
  {
    if from < k {
      Descends(f, from, k - 1);
      assert FallsAt(f, k - 1);
      AtMostTrans(f(k), f(k - 1), f(from));
    }
  }

  lemma {:induction false} ComesToRest(f: nat -> Rank, from: nat) returns (k: nat)
    requires FallsFrom(f, from)
    ensures from <= k && StillFrom(f, k)
    decreases f(from).phase, f(from).sleep, f(from).stage, f(from).left, f(from).turn, f(from).lockStage,
              f(from).lockLeft
  {
    if StillFrom(f, from) { k := from; }
    else {
      var j :| from <= j && !StillAt(f, j);
      Descends(f, from, j);
      assert FallsAt(f, j);
      AtMostTrans(f(j + 1), f(j), f(from));
      k := ComesToRest(f, j + 1);
    }
  }

  // ---------------------------------------------------------------- endless runs

  ghost predicate NextFrom(c: Config, run: nat -> State, k: nat) { Next(c, run(k), run(k + 1)) }

  ghost predicate IsEndless(c: Config, run: nat -> State) {
    c.workers > 0 && Init(c, run(0)) && forall k: nat :: NextFrom(c, run, k)
  }

  lemma {:induction false} EndlessInv(c: Config, run: nat -> State, k: nat)
    requires IsEndless(c, run)
    ensures Inv(c, run(k))
  {
    if k == 0 { InitInv(c, run(0)); }
    else {
      EndlessInv(c, run, k - 1);
      assert NextFrom(c, run, k - 1);
      NextInv(c, run(k - 1), run(k));
    }
  }

  // ---------------------------------------------------------------- ranks

  ghost function RankHere(s: State, y: nat, gas: nat): Rank {
    if y < |s.txns| then RankOf(s, y, gas) else Rank(0, 0, 0, 0, 0, 0, 0)
  }

  ghost function Ranks(run: nat -> State, y: nat, gas: nat): nat -> Rank {
    (k: nat) => RankHere(run(k), y, gas)
  }

  ghost predicate BelowStill(run: nat -> State, y: nat, gas: nat, from: nat) {
    forall z :: 0 <= z < y ==> StillFrom(Ranks(run, z, gas), from)
  }

  lemma StillHere(run: nat -> State, y: nat, gas: nat, from: nat, k: nat)
    requires StillFrom(Ranks(run, y, gas), from) && from <= k
    ensures RankHere(run(k + 1), y, gas) == RankHere(run(k), y, gas)
  {
    assert StillAt(Ranks(run, y, gas), k);
  }

  lemma RankFalls(c: Config, gas: nat, run: nat -> State, y: nat, from: nat, k: nat)
    requires IsEndless(c, run) && S.Metered(c, gas) && y < c.n && BelowStill(run, y, gas, from) && from <= k
    ensures AtMost(RankHere(run(k + 1), y, gas), RankHere(run(k), y, gas))
  {
    EndlessInv(c, run, k);
    EndlessInv(c, run, k + 1);
    assert NextFrom(c, run, k);
    forall z | 0 <= z < y ensures RankOf(run(k + 1), z, gas) == RankOf(run(k), z, gas) {
      StillHere(run, z, gas, from, k);
    }
    RankNext(c, gas, run(k), run(k + 1), y);
  }

  /** From the lowest transaction up, all ranks come to rest. */
  lemma {:induction false} RanksComeToRest(c: Config, gas: nat, run: nat -> State, y: nat) returns (k: nat)
    requires IsEndless(c, run) && S.Metered(c, gas) && y <= c.n
    ensures BelowStill(run, y, gas, k)
  {
    if y == 0 { k := 0; }
    else {
      var j := RanksComeToRest(c, gas, run, y - 1);
      var f := Ranks(run, y - 1, gas);
      forall i | j <= i ensures FallsAt(f, i) { RankFalls(c, gas, run, y - 1, j, i); }
      k := ComesToRest(f, j);
      forall z | 0 <= z < y ensures StillFrom(Ranks(run, z, gas), k) {
        if z < y - 1 { assert StillFrom(Ranks(run, z, gas), j); }
      }
    }
  }

  // ---------------------------------------------------------------- then workers only look

  /** Nothing is run, woken, aborted, finished or committed. */
  ghost predicate OnlyLooks(c: Config, s: State, s': State) {
    && Shape(c, s) && Shape(c, s') && s'.commitIdx == s.commitIdx
    && forall u: nat :: Step(c, s, u, s') ==> !Effective(s, u, s')
  }

  ghost predicate RanksStay(c: Config, s: State, s': State, gas: nat) {
    forall y :: 0 <= y < c.n ==> RankHere(s', y, gas) == RankHere(s, y, gas)
  }

  lemma RankStays(c: Config, s: State, s': State, gas: nat, y: nat)
    requires RanksStay(c, s, s', gas) && y < c.n && y < |s.txns| && y < |s'.txns|
    ensures RankOf(s', y, gas) == RankOf(s, y, gas)
  {
    assert RankHere(s', y, gas) == RankHere(s, y, gas);
  }

  lemma NoEffect(c: Config, gas: nat, s: State, u: nat, s': State)
    requires Inv(c, s) && Inv(c, s') && S.Metered(c, gas) && Step(c, s, u, s') && RanksStay(c, s, s', gas)
    ensures !Effective(s, u, s')
  {
    if Effective(s, u, s') {
      RankStays(c, s, s', gas, TxnOf(s.pc[u]));
      Drops(c, s, u, s.pc[u], s', gas);
    }
  }

  lemma NoCommit(c: Config, gas: nat, s: State, s': State)
    requires Inv(c, s) && Next(c, s, s') && RanksStay(c, s, s', gas)
    ensures s'.commitIdx == s.commitIdx
  {
    if s' == TryCommit(c, s) {
      if s.commitIdx < c.n {
        RankCommit(c, s, s.commitIdx, gas);
        RankStays(c, s, s', gas, s.commitIdx);
      }
    } else {
      var u :| Step(c, s, u, s');
      ShapeStep(c, s, u, s');
    }
  }

  lemma LooksWhenStill(c: Config, gas: nat, s: State, s': State)
    requires Inv(c, s) && Inv(c, s') && S.Metered(c, gas) && Next(c, s, s') && RanksStay(c, s, s', gas)
    ensures OnlyLooks(c, s, s')
  {
    NoCommit(c, gas, s, s');
    forall u: nat | Step(c, s, u, s') ensures !Effective(s, u, s') { NoEffect(c, gas, s, u, s'); }
  }

  ghost predicate LooksFrom(c: Config, run: nat -> State, from: nat) {
    forall k :: from <= k ==> LooksAtStep(c, run, k)
  }

  ghost predicate LooksAtStep(c: Config, run: nat -> State, k: nat) { OnlyLooks(c, run(k), run(k + 1)) }

  lemma ComeToLook(c: Config, gas: nat, run: nat -> State) returns (from: nat)
    requires IsEndless(c, run) && S.Metered(c, gas)
    ensures LooksFrom(c, run, from)
  {
    from := RanksComeToRest(c, gas, run, c.n);
    forall k | from <= k ensures LooksAtStep(c, run, k) {
      EndlessInv(c, run, k);
      EndlessInv(c, run, k + 1);
      assert NextFrom(c, run, k);
      forall y | 0 <= y < c.n ensures RankHere(run(k + 1), y, gas) == RankHere(run(k), y, gas) {
        StillHere(run, y, gas, from, k);
      }
      LooksWhenStill(c, gas, run(k), run(k + 1));
    }
  }

  // ---------------------------------------------------------------- then the indices rest

  lemma LooksHold(c: Config, s: State, u: nat, s': State)
    requires Step(c, s, u, s') && Shape(c, s') && !Effective(s, u, s')
    ensures Holding(s, s')
  {
    var p := s.pc[u];
    if p.Val? { HoldingVal(c, s, u, p, s'); } else { HoldingFree(c, s, u, p, s'); }
  }

  /** How often a number can still be taken. */
  function Room(c: Config, s: State): nat {
    var bound := 2 * (c.n + c.workers);
    if s.valIdx + s.exIdx <= bound then bound - s.valIdx - s.exIdx else 0
  }

  lemma RoomFalls(c: Config, s: State, s': State)
    requires Inv(c, s) && Inv(c, s') && Next(c, s, s') && OnlyLooks(c, s, s')
    ensures Room(c, s') <= Room(c, s)
    ensures Room(c, s') == Room(c, s) ==> s'.valIdx == s.valIdx && s'.exIdx == s.exIdx
  {
    if s' != TryCommit(c, s) {
      var u :| Step(c, s, u, s');
      LooksHold(c, s, u, s');
    }
    assert X.InvIdx(c, s) && X.InvIdx(c, s');
  }

  ghost predicate IdxStay(s: State, s': State) { s'.valIdx == s.valIdx && s'.exIdx == s.exIdx }

  ghost predicate RestsAtStep(c: Config, run: nat -> State, k: nat) {
    OnlyLooks(c, run(k), run(k + 1)) && IdxStay(run(k), run(k + 1))
  }

  ghost predicate IdxRest(c: Config, run: nat -> State, from: nat) {
    forall k :: from <= k ==> RestsAtStep(c, run, k)
  }

  function Rooms(c: Config, run: nat -> State): nat -> Rank {
    (k: nat) => Rank(Room(c, run(k)), 0, 0, 0, 0, 0, 0)
  }

  lemma RoomAt(c: Config, run: nat -> State, from: nat, k: nat)
    requires IsEndless(c, run) && LooksFrom(c, run, from) && from <= k
    ensures FallsAt(Rooms(c, run), k) && (StillAt(Rooms(c, run), k) ==> RestsAtStep(c, run, k))
  {
    EndlessInv(c, run, k);
    EndlessInv(c, run, k + 1);
    assert NextFrom(c, run, k) && LooksAtStep(c, run, k);
    RoomFalls(c, run(k), run(k + 1));
  }

  lemma IdxComeToRest(c: Config, gas: nat, run: nat -> State) returns (from: nat)
    requires IsEndless(c, run) && S.Metered(c, gas)
    ensures IdxRest(c, run, from)
  {
    var j := ComeToLook(c, gas, run);
    forall k | j <= k ensures FallsAt(Rooms(c, run), k) { RoomAt(c, run, j, k); }
    from := ComesToRest(Rooms(c, run), j);
    forall k | from <= k ensures RestsAtStep(c, run, k) {
      assert StillAt(Rooms(c, run), k);
      RoomAt(c, run, j, k);
    }
  }

  // ---------------------------------------------------------------- then workers rest

  /** Reading the done marker or the indices. */
  predicate Polling(p: Pc) { p == Idle(Top) || p == Idle(LoadVal) || (p.Idle? && p.idle.LoadEx?) }

  /** What a worker that only looks has still to look at. */
  ghost function Looking(p: Pc, gas: nat): Rank {
    Rank(0, 0, if p.Idle? then 0 else Stage(p), if p.Idle? then 0 else Left(p, gas), 0, 0, 0)
  }

  lemma LookingVal(c: Config, gas: nat, s: State, u: nat, p: Pc, s': State)
    requires Shape(c, s) && u < c.workers && p == s.pc[u] && PcShape(c, p) && !Panics(c, s, u)
    requires p.Val? && ValStep(c, s, u, p, s')
    ensures Less(Looking(s'.pc[u], gas), Looking(p, gas))
  {
    CloserVal(c, gas, s, u, p, s');
  }

  lemma LookingFree(c: Config, gas: nat, s: State, u: nat, p: Pc, s': State)
    requires Step(c, s, u, s') && Shape(c, s') && p == s.pc[u] && (p.GotVal? || p.GotEx?)
    ensures Less(Looking(s'.pc[u], gas), Looking(p, gas))
  {
    CloserFree(c, s, u, p, s');
  }

  lemma LookingIdle(c: Config, gas: nat, s: State, u: nat, p: Pc, s': State)
    requires Step(c, s, u, s') && Shape(c, s') && p == s.pc[u] && p.Idle? && IdxStay(s, s')
    ensures Polling(p) && Looking(s'.pc[u], gas) == Looking(p, gas)
  {}

  /** A step of `u` that takes no number: it polls, or has less to look at. */
  lemma LookingStep(c: Config, gas: nat, s: State, u: nat, s': State)
    requires Step(c, s, u, s') && Shape(c, s') && IdxStay(s, s') && !Effective(s, u, s')
    ensures if Polling(s.pc[u]) then Looking(s'.pc[u], gas) == Looking(s.pc[u], gas)
            else Less(Looking(s'.pc[u], gas), Looking(s.pc[u], gas))
  {
    var p := s.pc[u];
    if p.Idle? { LookingIdle(c, gas, s, u, p, s'); }
    else if p.Val? { LookingVal(c, gas, s, u, p, s'); }
    else { LookingFree(c, gas, s, u, p, s'); }
  }

  lemma LookingNext(c: Config, gas: nat, s: State, s': State, u: nat)
    requires Next(c, s, s') && OnlyLooks(c, s, s') && IdxStay(s, s') && u < c.workers
    ensures AtMost(Looking(s'.pc[u], gas), Looking(s.pc[u], gas))
  {
    if s' != TryCommit(c, s) {
      var v :| Step(c, s, v, s');
      ShapeStep(c, s, v, s');
      if v == u { LookingStep(c, gas, s, u, s'); }
    }
  }

  ghost function LookingAt(run: nat -> State, u: nat, gas: nat): nat -> Rank {
    (k: nat) => if u < |run(k).pc| then Looking(run(k).pc[u], gas) else Rank(0, 0, 0, 0, 0, 0, 0)
  }

  lemma WorkerFalls(c: Config, gas: nat, run: nat -> State, from: nat, u: nat, k: nat)
    requires IsEndless(c, run) && IdxRest(c, run, from) && u < c.workers && from <= k
    ensures FallsAt(LookingAt(run, u, gas), k)
  {
    EndlessInv(c, run, k);
    assert NextFrom(c, run, k) && RestsAtStep(c, run, k);
    LookingNext(c, gas, run(k), run(k + 1), u);
  }

  ghost predicate WorkersStill(run: nat -> State, us: nat, gas: nat, from: nat) {
    forall u :: 0 <= u < us ==> StillFrom(LookingAt(run, u, gas), from)
  }

  lemma {:induction false} WorkersComeToRest(c: Config, gas: nat, run: nat -> State, from: nat, us: nat)
    returns (k: nat)
    requires IsEndless(c, run) && IdxRest(c, run, from) && us <= c.workers
    ensures from <= k && WorkersStill(run, us, gas, k)
  {
    if us == 0 { k := from; }
    else {
      var j := WorkersComeToRest(c, gas, run, from, us - 1);
      var f := LookingAt(run, us - 1, gas);
      forall i | j <= i ensures FallsAt(f, i) { WorkerFalls(c, gas, run, from, us - 1, i); }
      k := ComesToRest(f, j);
      forall u | 0 <= u < us ensures StillFrom(LookingAt(run, u, gas), k) {
        if u < us - 1 { assert StillFrom(LookingAt(run, u, gas), j); }
      }
    }
  }

  // ---------------------------------------------------------------- no livelock

  /** Whoever moves only polls, and nothing is committed. */
  ghost predicate OnlyPolls(c: Config, s: State, s': State) {
    s'.commitIdx == s.commitIdx && forall u: nat :: Step(c, s, u, s') ==> u < |s.pc| && Polling(s.pc[u])
  }

  ghost predicate PollsAt(c: Config, run: nat -> State, k: nat) { OnlyPolls(c, run(k), run(k + 1)) }

  lemma PollsWhenStill(c: Config, gas: nat, run: nat -> State, from: nat, k: nat)
    requires IdxRest(c, run, from) && WorkersStill(run, c.workers, gas, from) && from <= k
    ensures PollsAt(c, run, k)
  {
    var s, s' := run(k), run(k + 1);
    assert RestsAtStep(c, run, k);
    forall u: nat | Step(c, s, u, s') ensures u < |s.pc| && Polling(s.pc[u]) {
      LookingStep(c, gas, s, u, s');
      assert StillFrom(LookingAt(run, u, gas), from) && StillAt(LookingAt(run, u, gas), k);
    }
  }

  /** Whatever the schedule: in an endless run, from some point on workers only poll. */
  lemma NoLivelock(c: Config, gas: nat, run: nat -> State) returns (from: nat)
    requires IsEndless(c, run) && S.Metered(c, gas)
    ensures forall k :: from <= k ==> PollsAt(c, run, k)
  {
    var j := IdxComeToRest(c, gas, run);
    from := WorkersComeToRest(c, gas, run, j, c.workers);
    assert IdxRest(c, run, from) by {
      forall k | from <= k ensures RestsAtStep(c, run, k) { assert j <= k; }
    }
    forall k | from <= k ensures PollsAt(c, run, k) { PollsWhenStill(c, gas, run, from, k); }
  }

  // ---------------------------------------------------------------- fairness

  ghost predicate MovesAt(c: Config, run: nat -> State, u: nat, k: nat) { Step(c, run(k), u, run(k + 1)) }

  /** After step `k` worker `u` moves, or at some moment it cannot. */
  ghost predicate GetsTurn(c: Config, run: nat -> State, u: nat, k: nat) {
    exists m :: k <= m && (MovesAt(c, run, u, m) || !CanStep(c, run(m), u))
  }

  ghost predicate CommitsAt(c: Config, run: nat -> State, k: nat) {
    Shape(c, run(k)) && run(k + 1) == TryCommit(c, run(k))
  }

  /** After step `k` worker `b` tries to commit, if it has a moment for it. */
  ghost predicate TriesAgain(c: Config, run: nat -> State, b: nat, k: nat) {
    (exists m :: k <= m && CommitsAt(c, run, m)) || forall m :: k <= m ==> !F.MayCommit(c, run(m), b)
  }

  /** No worker that can always move is forgotten, and the committing worker commits between its tasks. */
  ghost predicate Fair(c: Config, run: nat -> State, b: nat) {
    && b < c.workers
    && (forall u, k: nat :: 0 <= u < c.workers ==> GetsTurn(c, run, u, k))
    && (forall k: nat :: TriesAgain(c, run, b, k))
  }

  // ---------------------------------------------------------------- while everybody polls

  ghost predicate PollsFrom(c: Config, run: nat -> State, from: nat) {
    IsEndless(c, run) && forall k :: from <= k ==> PollsAt(c, run, k)
  }

  /** Nothing changed but the place of workers that poll. */
  ghost predicate Frozen(s: State, s': State) {
    && s'.txns == s.txns && s'.cvs == s.cvs && s'.valIdx == s.valIdx && s'.exIdx == s.exIdx
    && s'.commitIdx == s.commitIdx && |s'.pc| == |s.pc|
    && forall u :: 0 <= u < |s.pc| && !Polling(s.pc[u]) ==> s'.pc[u] == s.pc[u]
  }

  lemma PollFreezes(c: Config, s: State, s': State)
    requires Next(c, s, s') && OnlyPolls(c, s, s')
    ensures Frozen(s, s')
  {
    if s' != TryCommit(c, s) {
      var u :| Step(c, s, u, s');
      IdlePoll(c, s, u, s');
    }
  }

  lemma IdlePoll(c: Config, s: State, u: nat, s': State)
    requires Step(c, s, u, s') && Polling(s.pc[u])
    ensures s' == IdleStep(c, s, u, s.pc[u].idle) && s' == s.(pc := s.pc[u := s'.pc[u]])
  {}

  lemma {:induction false} FrozenFrom(c: Config, run: nat -> State, from: nat, k: nat, m: nat)
    requires PollsFrom(c, run, from) && from <= k <= m
    ensures Frozen(run(k), run(m))
    decreases m - k
  {
    if k < m {
      FrozenFrom(c, run, from, k, m - 1);
      assert NextFrom(c, run, m - 1) && PollsAt(c, run, m - 1);
      PollFreezes(c, run(m - 1), run(m));
    }
  }

  lemma PollsThere(c: Config, run: nat -> State, from: nat, u: nat, k: nat)
    requires PollsFrom(c, run, from) && from <= k && MovesAt(c, run, u, k)
    ensures u < |run(k).pc| && Polling(run(k).pc[u])
  {
    assert PollsAt(c, run, k);
  }

  // ---------------------------------------------------------------- nobody else can move

  lemma BlockedExec(c: Config, s: State, u: nat, p: Pc, s': State)
    requires Shape(c, s) && u < c.workers && p == s.pc[u] && PcShape(c, p) && !Panics(c, s, u)
    requires p.Exec? && ExecStep(c, s, u, p, s')
    ensures !Blocked(s, p)
  {}

  lemma BlockedStuck(c: Config, s: State, u: nat)
    requires Shape(c, s) && u < c.workers && PcShape(c, s.pc[u]) && Blocked(s, s.pc[u])
    ensures !CanStep(c, s, u)
  {
    forall s' | Step(c, s, u, s') ensures false { if s.pc[u].Exec? { BlockedExec(c, s, u, s.pc[u], s'); } }
  }

  /** A worker that is neither polling nor gone is blocked at some later moment ... */
  lemma BlockedLater(c: Config, run: nat -> State, from: nat, u: nat, k: nat) returns (m: nat)
    requires PollsFrom(c, run, from) && from <= k && u < c.workers && GetsTurn(c, run, u, k)
    requires |run(k).pc| == c.workers && !Polling(run(k).pc[u]) && run(k).pc[u] != Idle(Exit)
    ensures Frozen(run(k), run(m)) && Shape(c, run(m)) && run(m).pc[u] == run(k).pc[u]
    ensures PcShape(c, run(m).pc[u]) && Blocked(run(m), run(m).pc[u])
  {
    m :| k <= m && (MovesAt(c, run, u, m) || !CanStep(c, run(m), u));
    FrozenFrom(c, run, from, k, m);
    if MovesAt(c, run, u, m) { PollsThere(c, run, from, u, m); }
    EndlessInv(c, run, m);
    Enabled(c, run(m), u);
  }

  /** ... and so all the time. */
  lemma Stuck(c: Config, run: nat -> State, from: nat, u: nat, k: nat)
    requires PollsFrom(c, run, from) && from <= k && u < c.workers && GetsTurn(c, run, u, k) && Shape(c, run(k))
    requires !Polling(run(k).pc[u]) && run(k).pc[u] != Idle(Exit)
    ensures PcShape(c, run(k).pc[u]) && Blocked(run(k), run(k).pc[u]) && !CanStep(c, run(k), u)
  {
    var m := BlockedLater(c, run, from, u, k);
    BlockedStuck(c, run(k), u);
  }

  /** Nobody waits to take a number. */
  lemma NoFetch(c: Config, run: nat -> State, from: nat, u: nat, k: nat)
    requires PollsFrom(c, run, from) && from <= k && u < c.workers && GetsTurn(c, run, u, k) && !run(k).done
    ensures |run(k).pc| == c.workers && (run(k).pc[u].Idle? ==> Polling(run(k).pc[u]))
  {
    EndlessInv(c, run, k);
    if !Polling(run(k).pc[u]) { Stuck(c, run, from, u, k); }
  }

  // ---------------------------------------------------------------- those that poll see nothing to do

  lemma StaysUnlessMoves(c: Config, run: nat -> State, u: nat, k: nat)
    requires IsEndless(c, run) && u < c.workers && !MovesAt(c, run, u, k)
    ensures |run(k).pc| == |run(k + 1).pc| == c.workers && run(k + 1).pc[u] == run(k).pc[u]
  {
    EndlessInv(c, run, k);
    assert NextFrom(c, run, k);
    var s, s' := run(k), run(k + 1);
    if s' != TryCommit(c, s) {
      var v :| Step(c, s, v, s');
      ShapeStep(c, s, v, s');
    }
  }

  lemma {:induction false} FirstMove(c: Config, run: nat -> State, u: nat, k: nat, last: nat) returns (m: nat)
    requires IsEndless(c, run) && u < c.workers && k <= last
    requires |run(k).pc| == c.workers && Polling(run(k).pc[u])
    requires MovesAt(c, run, u, last) || !CanStep(c, run(last), u)
    ensures k <= m && MovesAt(c, run, u, m) && |run(m).pc| == c.workers && run(m).pc[u] == run(k).pc[u]
    decreases last - k
  {
    if MovesAt(c, run, u, k) { m := k; }
    else {
      if k == last {
        EndlessInv(c, run, k);
        Enabled(c, run(k), u);
        assert false;
      }
      StaysUnlessMoves(c, run, u, k);
      m := FirstMove(c, run, u, k + 1, last);
    }
  }

  /** Where a worker that polls goes next. */
  function AfterPoll(c: Config, s: State, f: IdlePc): Pc {
    match f
    case Top => Idle(if s.done then Exit else LoadVal)
    case LoadVal => Idle(LoadEx(s.valIdx))
    case LoadEx(v) =>
      Idle(if s.exIdx >= c.n && v >= c.n then Top else if v < s.exIdx then FetchVal else FetchEx)
    case _ => Idle(f)
  }

  lemma PollGoes(c: Config, s: State, u: nat, s': State)
    requires Step(c, s, u, s') && Polling(s.pc[u])
    ensures |s'.pc| == c.workers && s'.pc[u] == AfterPoll(c, s, s.pc[u].idle)
  {}

  lemma NextMove(c: Config, run: nat -> State, u: nat, k: nat) returns (m: nat)
    requires IsEndless(c, run) && u < c.workers && GetsTurn(c, run, u, k)
    requires |run(k).pc| == c.workers && Polling(run(k).pc[u])
    ensures k <= m && MovesAt(c, run, u, m) && |run(m).pc| == c.workers && run(m).pc[u] == run(k).pc[u]
    ensures |run(m + 1).pc| == c.workers && run(m + 1).pc[u] == AfterPoll(c, run(m), run(k).pc[u].idle)
  {
    var last :| k <= last && (MovesAt(c, run, u, last) || !CanStep(c, run(last), u));
    m := FirstMove(c, run, u, k, last);
    PollGoes(c, run(m), u, run(m + 1));
  }

  /** The run is fair, from `from` on everybody polls, and it is never done. */
  ghost predicate Idles(c: Config, run: nat -> State, b: nat, from: nat) {
    Fair(c, run, b) && PollsFrom(c, run, from) && forall k: nat :: !run(k).done
  }

  lemma Polls(c: Config, run: nat -> State, b: nat, from: nat, u: nat, k: nat)
    requires Idles(c, run, b, from) && from <= k && u < c.workers
    ensures GetsTurn(c, run, u, k) && |run(k).pc| == c.workers
    ensures run(k).pc[u].Idle? ==> Polling(run(k).pc[u])
  {
    NoFetch(c, run, from, u, k);
  }

  lemma PollsNext(c: Config, run: nat -> State, b: nat, from: nat, u: nat, k: nat) returns (m: nat)
    requires Idles(c, run, b, from) && from <= k && u < c.workers && |run(k).pc| == c.workers && run(k).pc[u].Idle?
    ensures k <= m && |run(m + 1).pc| == c.workers && Polling(run(k).pc[u])
    ensures run(m + 1).pc[u] == AfterPoll(c, run(m), run(k).pc[u].idle)
  {
    Polls(c, run, b, from, u, k);
    m := NextMove(c, run, u, k);
  }

  lemma StillPolls(c: Config, run: nat -> State, b: nat, from: nat, u: nat, k: nat, m: nat)
    requires Idles(c, run, b, from) && from <= k <= m && u < c.workers
    ensures Frozen(run(k), run(m)) && !run(m).done
    ensures |run(m + 1).pc| == c.workers && (run(m + 1).pc[u].Idle? ==> Polling(run(m + 1).pc[u]))
  {
    FrozenFrom(c, run, from, k, m);
    Polls(c, run, b, from, u, m + 1);
  }

  lemma PollsOn(c: Config, run: nat -> State, b: nat, from: nat, u: nat, k: nat) returns (m: nat)
    requires Idles(c, run, b, from) && from <= k && u < c.workers && |run(k).pc| == c.workers && run(k).pc[u].Idle?
    ensures k <= m && |run(m + 1).pc| == c.workers && Polling(run(k).pc[u]) && Polling(run(m + 1).pc[u])
    ensures run(m + 1).pc[u] == AfterPoll(c, run(m), run(k).pc[u].idle) && Frozen(run(k), run(m)) && !run(m).done
  {
    m := PollsNext(c, run, b, from, u, k);
    StillPolls(c, run, b, from, u, k, m);
  }

  /** From where it reads execution_idx it goes back to the top. */
  lemma BackToTop(c: Config, run: nat -> State, b: nat, from: nat, u: nat, k: nat) returns (m: nat)
    requires Idles(c, run, b, from) && from <= k && u < c.workers && |run(k).pc| == c.workers
    requires run(k).pc[u].Idle? && run(k).pc[u].idle.LoadEx?
    ensures k < m && |run(m).pc| == c.workers && run(m).pc[u] == Idle(Top)
    ensures run(k).exIdx >= c.n && run(k).pc[u].idle.v >= c.n
  {
    var j := PollsOn(c, run, b, from, u, k);
    m := j + 1;
  }

  lemma ReadsVal(c: Config, run: nat -> State, b: nat, from: nat, u: nat, k: nat) returns (m: nat)
    requires Idles(c, run, b, from) && from <= k && u < c.workers && |run(k).pc| == c.workers
    requires run(k).pc[u] == Idle(LoadVal)
    ensures k < m && |run(m).pc| == c.workers && run(m).pc[u] == Idle(LoadEx(run(k).valIdx))
  {
    var j := PollsOn(c, run, b, from, u, k);
    m := j + 1;
  }

  lemma LeavesTop(c: Config, run: nat -> State, b: nat, from: nat, u: nat, k: nat) returns (m: nat)
    requires Idles(c, run, b, from) && from <= k && u < c.workers && |run(k).pc| == c.workers
    requires run(k).pc[u] == Idle(Top)
    ensures k < m && |run(m).pc| == c.workers && run(m).pc[u] == Idle(LoadVal)
  {
    var j := PollsOn(c, run, b, from, u, k);
    m := j + 1;
  }

  /** A worker that polls gets to the top again. */
  lemma GetsToTop(c: Config, run: nat -> State, b: nat, from: nat, u: nat, k: nat) returns (m: nat)
    requires Idles(c, run, b, from) && from <= k && u < c.workers && |run(k).pc| == c.workers && run(k).pc[u].Idle?
    ensures k <= m && |run(m).pc| == c.workers && run(m).pc[u] == Idle(Top)
  {
    Polls(c, run, b, from, u, k);
    if run(k).pc[u] == Idle(Top) { m := k; }
    else if run(k).pc[u] == Idle(LoadVal) {
      var j := ReadsVal(c, run, b, from, u, k);
      m := BackToTop(c, run, b, from, u, j);
    } else { m := BackToTop(c, run, b, from, u, k); }
  }

  /** So it has seen both indices past the block. */
  lemma IndicesPast(c: Config, run: nat -> State, b: nat, from: nat, u: nat)
    requires Idles(c, run, b, from) && u < c.workers && |run(from).pc| == c.workers && run(from).pc[u].Idle?
    ensures run(from).valIdx >= c.n && run(from).exIdx >= c.n
  {
    var j := GetsToTop(c, run, b, from, u, from);
    j := LeavesTop(c, run, b, from, u, j);
    FrozenFrom(c, run, from, from, j);
    j := ReadsVal(c, run, b, from, u, j);
    var m := BackToTop(c, run, b, from, u, j);
    FrozenFrom(c, run, from, from, j);
  }

  // ---------------------------------------------------------------- so everything is done

  lemma AllStalled(c: Config, run: nat -> State, b: nat, from: nat, k: nat)
    requires Idles(c, run, b, from) && from <= k
    ensures Stalled(c, run(k))
  {
    EndlessInv(c, run, k);
    forall u | 0 <= u < c.workers ensures run(k).pc[u].Idle? || !CanStep(c, run(k), u) {
      Polls(c, run, b, from, u, k);
      if !run(k).pc[u].Idle? { Stuck(c, run, from, u, k); }
    }
  }

  lemma SomebodyPolls(c: Config, run: nat -> State, b: nat, from: nat) returns (u: nat)
    requires Idles(c, run, b, from)
    ensures u < c.workers && |run(from).pc| == c.workers && run(from).pc[u].Idle?
  {
    EndlessInv(c, run, from);
    AllStalled(c, run, b, from, from);
    NoDeadlock(c, run(from), 0);
    u :| 0 <= u < c.workers && CanStep(c, run(from), u);
  }

  lemma AllQuiet(c: Config, run: nat -> State, b: nat, from: nat, k: nat)
    requires Idles(c, run, b, from) && from <= k
    ensures Quiet(c, run(k))
  {
    var u := SomebodyPolls(c, run, b, from);
    IndicesPast(c, run, b, from, u);
    FrozenFrom(c, run, from, from, k);
    AllStalled(c, run, b, from, k);
  }

  /** The committing worker has a moment to commit, and then it does. */
  lemma CommitComes(c: Config, run: nat -> State, b: nat, from: nat) returns (m: nat)
    requires Idles(c, run, b, from)
    ensures from <= m && CommitsAt(c, run, m)
  {
    EndlessInv(c, run, from);
    AllQuiet(c, run, b, from, from);
    QuietIdle(c, run(from), b);
    var k := GetsToTop(c, run, b, from, b, from);
    AllQuiet(c, run, b, from, k);
    assert F.MayCommit(c, run(k), b) && TriesAgain(c, run, b, k);
    m :| k <= m && CommitsAt(c, run, m);
  }

  /** When nothing is left to do, a commit that commits nothing sets the done marker. */
  lemma QuietDone(c: Config, s: State)
    requires Inv(c, s) && Quiet(c, s) && TryCommit(c, s).commitIdx == s.commitIdx
    ensures TryCommit(c, s).done
  {
    if s.commitIdx < c.n { QuietCommits(c, s); }
  }

  /** The block is committed, with the outcome of sequential execution. */
  ghost predicate Ended(c: Config, s: State) {
    s.done && S.Recorded(s, c.n) && S.SequentialOutcome(c, S.Gather(c, [], S.Results(s, c.n)))
  }

  lemma DoneIsEnded(c: Config, run: nat -> State, k: nat)
    requires IsEndless(c, run) && run(k).done
    ensures Ended(c, run(k))
  {
    EndlessInv(c, run, k);
    S.Serializable(c, run(k));
    S.GatherSequential(c, S.Results(run(k), c.n));
  }

  /** Every fair run ends, with the outcome of sequential execution. */
  lemma FairRunsEnd(c: Config, gas: nat, run: nat -> State, b: nat)
    requires IsEndless(c, run) && S.Metered(c, gas) && Fair(c, run, b)
    ensures exists k: nat :: Ended(c, run(k))
  {
    var from := NoLivelock(c, gas, run);
    if forall k: nat :: !run(k).done {
      var m := CommitComes(c, run, b, from);
      EndlessInv(c, run, m);
      AllQuiet(c, run, b, from, m);
      assert PollsAt(c, run, m);
      QuietDone(c, run(m));
    } else {
      var k: nat :| run(k).done;
      DoneIsEnded(c, run, k);
    }
  }
}
