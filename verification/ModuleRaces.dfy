/**
 Detecting that a module was both read and published.  Concurrent `record` calls insert their
 read paths, then their written paths, into two shared sets, and after every insertion look
 into the other set.  Whatever the interleaving, once all calls have returned the race flag is
 set exactly if some path was both read and written.
 */
module ModuleRaces {
  type Path(==, !new)

  /** A record call: the module paths it has read and those it has written. */
  datatype Call = Call(rds: seq<Path>, wrs: seq<Path>)

  function List(c: Call, rd: bool): seq<Path> { if rd then c.rds else c.wrs }

  datatype Pc =
    | Begin                         // load the flag
    | Insert(rd: bool, k: nat)      // show: insert the k-th path of the list
    | Look(rd: bool, k: nat)        // then look: is it in the other set?
    | Raise                         // store true into the flag
    | Done(cut: bool)               // returned; `cut` if the lists were not gone through

  datatype State = State(mr: set<Path>, mw: set<Path>, flag: bool, pc: seq<Pc>)

  function SetOf(s: State, rd: bool): set<Path> { if rd then s.mr else s.mw }

  function WithPath(s: State, rd: bool, p: Path): State {
    if rd then s.(mr := s.mr + {p}) else s.(mw := s.mw + {p})
  }

  predicate Init(calls: seq<Call>, s: State) {
    s.mr == {} && s.mw == {} && !s.flag && |s.pc| == |calls| && forall i :: 0 <= i < |calls| ==> s.pc[i] == Begin
  }

  function Goto(s: State, i: nat, p: Pc): State
    requires i < |s.pc|
  {
    s.(pc := s.pc[i := p])
  }

  /** One step of the i-th call. */
  function Step(calls: seq<Call>, s: State, i: nat): State
    requires i < |calls| == |s.pc|
  {
    match s.pc[i]
    case Begin => Goto(s, i, if s.flag then Done(true) else Insert(true, 0))
    case Insert(rd, k) =>
      var list := List(calls[i], rd);
      if k < |list| then Goto(WithPath(s, rd, list[k]), i, Look(rd, k))
      else Goto(s, i, if rd then Insert(false, 0) else Done(false))
    case Look(rd, k) =>
      var list := List(calls[i], rd);
      Goto(s, i, if k < |list| && list[k] in SetOf(s, !rd) then Raise else Insert(rd, k + 1))
    case Raise => Goto(s.(flag := true), i, Done(true))
    case Done(_) => s
  }

  ghost predicate Next(calls: seq<Call>, s: State, s': State) {
    exists i :: 0 <= i < |calls| == |s.pc| && s' == Step(calls, s, i)
  }

  ghost predicate IsRun(calls: seq<Call>, tr: seq<State>) {
    && |tr| > 0 && Init(calls, tr[0])
    && forall k :: 0 <= k < |tr| - 1 ==> Next(calls, tr[k], tr[k + 1])
  }

  // ---------------------------------------------------------------- invariant

  /** The call has looked for its k-th path and not found it. */
  predicate Passed(p: Pc, rd: bool, k: nat) {
    match p
    case Begin => false
    case Insert(r, m) => if rd == r then k < m else rd
    case Look(r, m) => if rd == r then k < m else rd
    case Raise => false
    case Done(cut) => !cut
  }

  predicate Shown(p: Pc, rd: bool, k: nat) { Passed(p, rd, k) || p == Look(rd, k) }

  ghost predicate Own(calls: seq<Call>, s: State, i: nat)
    requires i < |calls| == |s.pc|
  {
    && (forall rd, k :: 0 <= k < |List(calls[i], rd)| && Shown(s.pc[i], rd, k) ==>
          List(calls[i], rd)[k] in SetOf(s, rd))
    && (s.pc[i].Look? ==> s.pc[i].k < |List(calls[i], s.pc[i].rd)|)
    && (s.pc[i] == Done(true) ==> s.flag)
    && (s.pc[i].Raise? ==> s.mr * s.mw != {})
  }

  /** No two calls have passed the same path on opposite sides. */
  ghost predicate Apart(calls: seq<Call>, s: State, i: nat, j: nat)
    requires i < |calls| == |s.pc| && j < |calls|
  {
    forall a, b :: 0 <= a < |calls[i].rds| && 0 <= b < |calls[j].wrs| && calls[i].rds[a] == calls[j].wrs[b] ==>
      !(Passed(s.pc[i], true, a) && Passed(s.pc[j], false, b))
  }

  /** Only paths of the calls are in the sets. */
  ghost predicate Sourced(calls: seq<Call>, s: State) {
    && (forall p :: p in s.mr ==> exists i :: 0 <= i < |calls| && p in calls[i].rds)
    && (forall p :: p in s.mw ==> exists i :: 0 <= i < |calls| && p in calls[i].wrs)
  }

  ghost predicate Inv(calls: seq<Call>, s: State) {
    && |s.pc| == |calls| && Sourced(calls, s) && (s.flag ==> s.mr * s.mw != {})
    && (forall i :: 0 <= i < |calls| ==> Own(calls, s, i))
    && (forall i, j :: 0 <= i < |calls| && 0 <= j < |calls| ==> Apart(calls, s, i, j))
  }

  lemma SetsGrow(calls: seq<Call>, s: State, i: nat)
    requires i < |calls| == |s.pc|
    ensures var s' := Step(calls, s, i);
            && s.mr <= s'.mr && s.mw <= s'.mw && (s.flag ==> s'.flag)
            && forall j :: 0 <= j < |s.pc| && j != i ==> s'.pc[j] == s.pc[j]
  {}

  lemma StepOwn(calls: seq<Call>, s: State, i: nat)
    requires Inv(calls, s) && i < |calls|
    ensures Own(calls, Step(calls, s, i), i)
  {
    assert Own(calls, s, i);
    var s' := Step(calls, s, i);
    if s'.pc[i].Raise? {
      var rd, k := s.pc[i].rd, s.pc[i].k;
      assert List(calls[i], rd)[k] in SetOf(s, rd) && List(calls[i], rd)[k] in SetOf(s, !rd);
      assert List(calls[i], rd)[k] in s'.mr * s'.mw;
    }
    forall rd, k | 0 <= k < |List(calls[i], rd)| && Shown(s'.pc[i], rd, k)
      ensures List(calls[i], rd)[k] in SetOf(s', rd)
    {
      if Shown(s.pc[i], rd, k) { assert List(calls[i], rd)[k] in SetOf(s, rd); }
    }
  }

  /** When a call passes a path, no call on the other side has shown it. */
  lemma StepApart(calls: seq<Call>, s: State, i: nat, j: nat, l: nat)
    requires Inv(calls, s) && i < |calls| && j < |calls| && l < |calls|
    ensures Apart(calls, Step(calls, s, i), j, l)
  {
    var s' := Step(calls, s, i);
    assert Apart(calls, s, j, l) && Own(calls, s, j) && Own(calls, s, l);
    forall a, b | 0 <= a < |calls[j].rds| && 0 <= b < |calls[l].wrs| && calls[j].rds[a] == calls[l].wrs[b]
      ensures !(Passed(s'.pc[j], true, a) && Passed(s'.pc[l], false, b))
    {
      if Passed(s.pc[j], true, a) { assert List(calls[j], true)[a] in SetOf(s, true); }
      if Passed(s.pc[l], false, b) { assert List(calls[l], false)[b] in SetOf(s, false); }
    }
  }

  lemma StepSourced(calls: seq<Call>, s: State, i: nat)
    requires Inv(calls, s) && i < |calls|
    ensures Sourced(calls, Step(calls, s, i))
  {}

  lemma StepInv(calls: seq<Call>, s: State, i: nat)
    requires Inv(calls, s) && i < |calls|
    ensures Inv(calls, Step(calls, s, i))
  {
    var s' := Step(calls, s, i);
    SetsGrow(calls, s, i);
    StepOwn(calls, s, i);
    StepSourced(calls, s, i);
    assert Own(calls, s, i);
    forall j | 0 <= j < |calls| ensures Own(calls, s', j) {
      if j != i { OthersOwn(calls, s, i, j); }
    }
    forall j, l | 0 <= j < |calls| && 0 <= l < |calls| ensures Apart(calls, s', j, l) { StepApart(calls, s, i, j, l); }
  }

  lemma OthersOwn(calls: seq<Call>, s: State, i: nat, j: nat)
    requires Inv(calls, s) && i < |calls| && j < |calls| && i != j
    ensures Own(calls, Step(calls, s, i), j)
  {
    assert Own(calls, s, j);
    SetsGrow(calls, s, i);
    var s' := Step(calls, s, i);
    assert s.mr * s.mw <= s'.mr * s'.mw;
  }

  lemma InitInv(calls: seq<Call>, s: State)
    requires Init(calls, s)
    ensures Inv(calls, s)
  {}

  lemma NextInv(calls: seq<Call>, s: State, s': State)
    requires Inv(calls, s) && Next(calls, s, s')
    ensures Inv(calls, s')
  {
    var i :| 0 <= i < |calls| == |s.pc| && s' == Step(calls, s, i);
    StepInv(calls, s, i);
  }

  lemma {:induction false} RunInv(calls: seq<Call>, tr: seq<State>, k: nat)
    requires IsRun(calls, tr) && k < |tr|
    ensures Inv(calls, tr[k])
  {
    if k == 0 { InitInv(calls, tr[0]); }
    else {
      RunInv(calls, tr, k - 1);
      assert Next(calls, tr[k - 1], tr[k - 1 + 1]);
      NextInv(calls, tr[k - 1], tr[k]);
    }
  }

  // ---------------------------------------------------------------- the result

  ghost predicate ReadAndWritten(calls: seq<Call>) {
    exists i, j, p :: 0 <= i < |calls| && 0 <= j < |calls| && p in calls[i].rds && p in calls[j].wrs
  }

  /** Of two calls that share a path, the one that looks second finds it. */
  lemma SharedPathRaises(calls: seq<Call>, s: State, i: nat, a: nat, j: nat, b: nat)
    requires Inv(calls, s) && i < |calls| && j < |calls| && a < |calls[i].rds| && b < |calls[j].wrs|
    requires calls[i].rds[a] == calls[j].wrs[b] && s.pc[i].Done? && s.pc[j].Done?
    ensures s.flag
  {
    assert Own(calls, s, i) && Own(calls, s, j) && Apart(calls, s, i, j);
  }

  lemma FlagExact(calls: seq<Call>, s: State)
    requires Inv(calls, s) && forall i :: 0 <= i < |s.pc| ==> s.pc[i].Done?
    ensures s.flag <==> ReadAndWritten(calls)
  {
    if s.flag {
      var p :| p in s.mr * s.mw;
      assert p in s.mr && p in s.mw;
    }
    if ReadAndWritten(calls) {
      var i, j, p :| 0 <= i < |calls| && 0 <= j < |calls| && p in calls[i].rds && p in calls[j].wrs;
      var a :| 0 <= a < |calls[i].rds| && calls[i].rds[a] == p;
      var b :| 0 <= b < |calls[j].wrs| && calls[j].wrs[b] == p;
      SharedPathRaises(calls, s, i, a, j, b);
    }
  }

  /** Once all calls have returned, the flag says exactly whether some path was read and written. */
  lemma RaceFlagExact(calls: seq<Call>, tr: seq<State>, k: nat)
    requires IsRun(calls, tr) && k < |tr| && forall i :: 0 <= i < |tr[k].pc| ==> tr[k].pc[i].Done?
    ensures tr[k].flag <==> ReadAndWritten(calls)
  {
    RunInv(calls, tr, k);
    FlagExact(calls, tr[k]);
  }
}
