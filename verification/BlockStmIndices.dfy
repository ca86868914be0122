/**
 How far the two scheduling indices can run ahead.  A worker reads an index before it
 increments it, so each worker can push it past the end of the block at most once.  The
 bound is what keeps the packed validation index (wave in the high half of a 64-bit word,
 index in the low half) from carrying into the wave.
 */
module BlockStmIndices {
  import opened BlockStm
  import opened BlockStmView

  /** The worker has decided, or may still decide, to increment the index it has read. */
  predicate Armed(n: nat, val: bool, p: Pc) {
    match p
    case Idle(FetchVal) => val
    case Idle(LoadEx(v)) => val && v < n
    case Idle(FetchEx) => !val
    case _ => false
  }

  function Count(n: nat, val: bool, pcs: seq<Pc>): (k: nat)
    ensures k <= |pcs|
  {
    if pcs == [] then 0
    else Count(n, val, pcs[1..]) + if Armed(n, val, pcs[0]) then 1 else 0
  }

  lemma {:induction false} CountUpdate(n: nat, val: bool, pcs: seq<Pc>, u: nat, p: Pc)
    requires u < |pcs|
    ensures Count(n, val, pcs[u := p]) + (if Armed(n, val, pcs[u]) then 1 else 0)
         == Count(n, val, pcs) + (if Armed(n, val, p) then 1 else 0)
  {
    if u == 0 {
      assert pcs[u := p][1..] == pcs[1..];
    } else {
      assert pcs[u := p][1..] == pcs[1..][u - 1 := p];
      CountUpdate(n, val, pcs[1..], u - 1, p);
    }
  }

  ghost predicate InvIdx(c: Config, s: State) {
    && |s.pc| == c.workers
    && s.valIdx + Count(c.n, true, s.pc) <= c.n + c.workers
    && s.exIdx + Count(c.n, false, s.pc) <= c.n + c.workers
    && (forall u :: 0 <= u < c.workers && s.pc[u] == Idle(Exit) ==> s.done)
  }

  lemma CountNone(n: nat, val: bool, pcs: seq<Pc>)
    requires forall u :: 0 <= u < |pcs| ==> pcs[u] == Idle(Top)
    ensures Count(n, val, pcs) == 0
  {}

  lemma InitIdx(c: Config, s: State)
    requires Init(c, s)
    ensures InvIdx(c, s)
  {
    CountNone(c.n, true, s.pc);
    CountNone(c.n, false, s.pc);
  }

  /** Exactly the two fetches raise an index, and only armed workers fetch. */
  ghost predicate Raises(s: State, u: nat, s': State)
    requires u < |s.pc|
  {
    && s'.valIdx <= s.valIdx + (if s.pc[u] == Idle(FetchVal) then 1 else 0)
    && s'.exIdx <= s.exIdx + (if s.pc[u] == Idle(FetchEx) then 1 else 0)
  }

  lemma RaisesExec(c: Config, s: State, u: nat, p: Pc, s': State)
    requires Shape(c, s) && u < c.workers && p == s.pc[u] && PcShape(c, p) && !Panics(c, s, u)
    requires p.Exec? && ExecStep(c, s, u, p, s')
    ensures Raises(s, u, s') && !s'.pc[u].Idle?
  {}

  lemma RaisesFin(c: Config, s: State, u: nat, p: Pc, s': State)
    requires Shape(c, s) && u < c.workers && p == s.pc[u] && PcShape(c, p) && !Panics(c, s, u)
    requires p.Fin? && FinStep(c, s, u, p, s')
    ensures Raises(s, u, s') && (s'.pc[u].Idle? ==> s'.pc[u] == Idle(Top))
  {}

  lemma RaisesAbort(c: Config, s: State, u: nat, p: Pc, s': State)
    requires Shape(c, s) && u < c.workers && p == s.pc[u] && PcShape(c, p) && !Panics(c, s, u)
    requires (p.Aborter? && AbortStep(c, s, u, p, s')) || (p.FinAbort? && FinAbortStep(c, s, u, p, s'))
    ensures Raises(s, u, s') && (s'.pc[u].Idle? ==> s'.pc[u] == Idle(Top))
  {}

  lemma RaisesHeld(c: Config, s: State, u: nat, s': State)
    requires Step(c, s, u, s') && !s.pc[u].Idle?
    ensures Raises(s, u, s') && (s'.pc[u].Idle? ==> s'.pc[u] == Idle(Top))
  {
    var p := s.pc[u];
    match p
    case Exec(_, _, _, _) => RaisesExec(c, s, u, p, s');
    case Fin(_, _, _) => RaisesFin(c, s, u, p, s');
    case Aborter(_, _, _) => RaisesAbort(c, s, u, p, s');
    case FinAbort(_, _, _) => RaisesAbort(c, s, u, p, s');
    case _ =>
  }

  lemma RaisesIdle(c: Config, s: State, u: nat, s': State)
    requires Step(c, s, u, s') && s.pc[u].Idle?
    ensures Raises(s, u, s')
    ensures s'.pc[u] == Idle(Exit) ==> s.done
    ensures Armed(c.n, true, s'.pc[u]) && !Armed(c.n, true, s.pc[u]) ==> s'.valIdx < c.n
    ensures Armed(c.n, false, s'.pc[u]) && !Armed(c.n, false, s.pc[u]) ==> s'.exIdx < c.n
  {}

  lemma IdxStep(c: Config, s: State, u: nat, s': State)
    requires InvIdx(c, s) && Step(c, s, u, s')
    ensures InvIdx(c, s')
  {
    ShapeStep(c, s, u, s');
    if s.pc[u].Idle? { RaisesIdle(c, s, u, s'); } else { RaisesHeld(c, s, u, s'); }
    assert s'.pc == s.pc[u := s'.pc[u]];
    CountUpdate(c.n, true, s.pc, u, s'.pc[u]);
    CountUpdate(c.n, false, s.pc, u, s'.pc[u]);
  }

  lemma IdxCommit(c: Config, s: State)
    requires InvIdx(c, s) && Shape(c, s)
    ensures InvIdx(c, TryCommit(c, s))
  {}

  // ---------------------------------------------------------------- the packed validation index

  const HALF := 0x1_0000_0000

  function Pack(idx: nat, wave: nat): nat { wave * HALF + idx }

  function UnpackIdx(x: nat): nat { x % HALF }

  function UnpackWave(x: nat): nat { x / HALF }

  lemma PackUnpack(idx: nat, wave: nat)
    requires idx < HALF
    ensures UnpackIdx(Pack(idx, wave)) == idx && UnpackWave(Pack(idx, wave)) == wave
  {}

  lemma {:induction false} CountArmed(n: nat, val: bool, pcs: seq<Pc>, u: nat)
    requires u < |pcs| && Armed(n, val, pcs[u])
    ensures Count(n, val, pcs) > 0
  {
    if u > 0 { CountArmed(n, val, pcs[1..], u - 1); }
  }

  /** A worker about to fetch has been counted, so fetch_add(1) on the word is the increment of the model. */
  lemma PackedFetch(c: Config, s: State, u: nat)
    requires InvIdx(c, s) && c.n + c.workers < HALF && u < c.workers && s.pc[u] == Idle(FetchVal)
    ensures s.valIdx + 1 < HALF
    ensures var x := Pack(s.valIdx, s.wave); UnpackIdx(x + 1) == s.valIdx + 1 && UnpackWave(x + 1) == s.wave
  {
    CountArmed(c.n, true, s.pc, u);
    PackUnpack(s.valIdx + 1, s.wave);
  }
}
