/**
 Waves: the wave number tells how recent a validation is.  Every wave handed out for
 transaction i is below what `need` demands for i as long as validation_idx has not moved
 past i in the current wave.
 */
module BlockStmWaves {
  import opened Options
  import opened BlockStm

  datatype Issue = Issue(i: nat, w: nat)

  datatype Waves = Waves(valIdx: nat, wave: nat, need: seq<nat>, v: seq<VStatus>, issue: seq<Option<Issue>>)

  /** A wave that may have been handed out to validate transaction `i`. */
  predicate Issued(ws: Waves, i: nat, w: nat) {
    w <= ws.wave && (w == ws.wave ==> ws.valIdx > i)
  }

  predicate WOk(ws: Waves, u: nat)
    requires u < |ws.issue|
  {
    ws.issue[u].Some? ==> ws.issue[u].value.i < |ws.v| && Issued(ws, ws.issue[u].value.i, ws.issue[u].value.w)
  }

  function Max(a: nat, b: nat): nat { if a < b then b else a }

  predicate TOk(ws: Waves, i: nat)
    requires i < |ws.v| == |ws.need|
  {
    && ws.need[i] <= ws.wave && ws.v[i].required <= ws.wave
    && (ws.valIdx <= i ==> ws.need[i] == ws.wave)
    && ws.need[i] == Max(if i == 0 then 0 else ws.need[i - 1], ws.v[i].maxTriggered)
    && (ws.v[i].maxValidated.Some? ==> Issued(ws, i, ws.v[i].maxValidated.value))
  }

  ghost predicate IWave(ws: Waves) {
    && |ws.v| == |ws.need|
    && (forall u :: 0 <= u < |ws.issue| ==> WOk(ws, u))
    && (forall i :: 0 <= i < |ws.v| ==> TOk(ws, i))
  }

  /** When the index is at or below i, no wave handed out for i is recent enough. */
  lemma TooOld(ws: Waves, i: nat, w: nat)
    requires IWave(ws) && i < |ws.v| && Issued(ws, i, w) && ws.valIdx <= i
    ensures w < ws.need[i]
  {
    assert TOk(ws, i);
  }

  lemma Drop(ws: Waves, u: nat)
    requires IWave(ws) && u < |ws.issue|
    ensures IWave(ws.(issue := ws.issue[u := None]))
  {
    var ws' := ws.(issue := ws.issue[u := None]);
    forall v | 0 <= v < |ws'.issue| ensures WOk(ws', v) { assert WOk(ws, v); }
    forall i | 0 <= i < |ws'.v| ensures TOk(ws', i) { assert TOk(ws, i); }
  }

  /** fetch_add on validation_idx */
  lemma Fetch(ws: Waves, u: nat)
    requires IWave(ws) && u < |ws.issue|
    ensures IWave(ws.(valIdx := ws.valIdx + 1,
                      issue := ws.issue[u := if ws.valIdx < |ws.v| then Some(Issue(ws.valIdx, ws.wave)) else None]))
  {
    var ws' := ws.(valIdx := ws.valIdx + 1,
                   issue := ws.issue[u := if ws.valIdx < |ws.v| then Some(Issue(ws.valIdx, ws.wave)) else None]);
    forall v | 0 <= v < |ws'.issue| ensures WOk(ws', v) { assert WOk(ws, v); }
    forall i | 0 <= i < |ws'.v| ensures TOk(ws', i) { assert TOk(ws, i); }
  }

  /** A new wave starts at i: every wave handed out so far is too old for i and above. */
  lemma Bump(ws: Waves, i: nat)
    requires IWave(ws) && i < |ws.v| && i < ws.valIdx
    ensures IWave(ws.(valIdx := i, wave := ws.wave + 1,
                      v := ws.v[i := ws.v[i].(maxTriggered := ws.wave + 1)],
                      need := seq(|ws.v|, k requires 0 <= k < |ws.v| => if k < i then ws.need[k] else ws.wave + 1)))
  {
    var ws' := ws.(valIdx := i, wave := ws.wave + 1,
                   v := ws.v[i := ws.v[i].(maxTriggered := ws.wave + 1)],
                   need := seq(|ws.v|, k requires 0 <= k < |ws.v| => if k < i then ws.need[k] else ws.wave + 1));
    forall v | 0 <= v < |ws'.issue| ensures WOk(ws', v) { assert WOk(ws, v); }
    forall k | 0 <= k < |ws'.v| ensures TOk(ws', k) { assert TOk(ws, k); }
  }

  /** finish_validation */
  lemma CreditWave(ws: Waves, u: nat, i: nat, w: nat)
    requires IWave(ws) && u < |ws.issue| && ws.issue[u] == Some(Issue(i, w))
    ensures i < |ws.v|
    ensures forall b :: b == w || ws.v[i].maxValidated == Some(b) ==>
              IWave(ws.(v := ws.v[i := ws.v[i].(maxValidated := Some(b))], issue := ws.issue[u := None]))
  {
    assert WOk(ws, u);
    forall b | b == w || ws.v[i].maxValidated == Some(b)
      ensures IWave(ws.(v := ws.v[i := ws.v[i].(maxValidated := Some(b))], issue := ws.issue[u := None]))
    {
      var ws' := ws.(v := ws.v[i := ws.v[i].(maxValidated := Some(b))], issue := ws.issue[u := None]);
      forall v | 0 <= v < |ws'.issue| ensures WOk(ws', v) { assert WOk(ws, v); }
      forall k | 0 <= k < |ws'.v| ensures TOk(ws', k) { assert TOk(ws, k); }
    }
  }

  /** finish_execution asks its own worker to validate i in the current wave. */
  lemma Require(ws: Waves, u: nat, i: nat)
    requires IWave(ws) && u < |ws.issue| && i < |ws.v| && i < ws.valIdx
    ensures IWave(ws.(v := ws.v[i := ws.v[i].(required := ws.wave)], issue := ws.issue[u := Some(Issue(i, ws.wave))]))
  {
    var ws' := ws.(v := ws.v[i := ws.v[i].(required := ws.wave)], issue := ws.issue[u := Some(Issue(i, ws.wave))]);
    forall v | 0 <= v < |ws'.issue| ensures WOk(ws', v) { assert WOk(ws, v); }
    forall k | 0 <= k < |ws'.v| ensures TOk(ws', k) { assert TOk(ws, k); }
  }

  // ---------------------------------------------------------------- view

  function IssueOf(p: Pc): Option<Issue> {
    match p
    case GotVal(i, w) => Some(Issue(i, w))
    case Val(i, _, w, _) => Some(Issue(i, w))
    case _ => None
  }

  function WaveView(s: State): Waves {
    Waves(s.valIdx, s.wave, s.need,
          seq(|s.txns|, i requires 0 <= i < |s.txns| => s.txns[i].vstat),
          seq(|s.pc|, u requires 0 <= u < |s.pc| => IssueOf(s.pc[u])))
  }

  ghost predicate InvWave(c: Config, s: State) {
    Shape(c, s) && IWave(WaveView(s))
  }

  lemma InitWave(c: Config, s: State)
    requires Init(c, s) && c.workers > 0
    ensures InvWave(c, s)
  {
    var ws := WaveView(s);
    forall u | 0 <= u < |ws.issue| ensures WOk(ws, u) { assert s.pc[u] == Idle(Top); }
    forall i | 0 <= i < |ws.v| ensures TOk(ws, i) { assert s.txns[i] == InitTxn; }
  }

  /** The step leaves the validation index, all validation statuses and all issues alone. */
  lemma WaveQuiet(c: Config, s: State, u: nat, s': State)
    requires InvWave(c, s) && Moved(c, s, u, s')
    requires SameWaves(s, s')
    requires IssueOf(s'.pc[u]) == IssueOf(s.pc[u])
    ensures InvWave(c, s')
  {
    assert WaveView(s').v == WaveView(s).v;
    assert WaveView(s').issue == WaveView(s).issue;
  }

  /** The same, except that the worker gives up the wave it holds. */
  lemma WaveDrop(c: Config, s: State, u: nat, s': State)
    requires InvWave(c, s) && Moved(c, s, u, s')
    requires SameWaves(s, s')
    requires IssueOf(s'.pc[u]).None?
    ensures InvWave(c, s')
  {
    Drop(WaveView(s), u);
    assert WaveView(s').v == WaveView(s).v;
    assert WaveView(s').issue == WaveView(s).issue[u := None];
  }

  lemma WaveFetch(c: Config, s: State, u: nat)
    requires InvWave(c, s) && u < c.workers && s.pc[u] == Idle(FetchVal)
    ensures InvWave(c, IdleStep(c, s, u, FetchVal))
  {
    var s', ws := IdleStep(c, s, u, FetchVal), WaveView(s);
    Fetch(ws, u);
    assert WaveView(s').v == ws.v;
    assert WaveView(s').issue == ws.issue[u := IssueOf(s'.pc[u])];
  }

  lemma WaveDecrease(c: Config, s: State, i: nat)
    requires InvWave(c, s) && i < c.n
    ensures InvWave(c, DecreaseValidationIdx(c, s, i))
  {
    if s.valIdx > i {
      var s', ws := DecreaseValidationIdx(c, s, i), WaveView(s);
      Bump(ws, i);
      assert WaveView(s').v == ws.v[i := ws.v[i].(maxTriggered := s.wave + 1)];
      assert WaveView(s').issue == ws.issue;
    }
  }

  lemma WaveLoad(c: Config, s: State, u: nat, p: Pc)
    requires InvWave(c, s) && u < c.workers && p == s.pc[u] && PcShape(c, p) && p.Fin? && p.fin.Load?
    ensures InvWave(c, LoadStep(c, s, u, p))
  {
    var s', ws := LoadStep(c, s, u, p), WaveView(s);
    if s.valIdx > p.i && !p.fin.outside {
      Require(ws, u, p.i);
      assert WaveView(s').v == ws.v[p.i := ws.v[p.i].(required := s.wave)];
      assert WaveView(s').issue == ws.issue[u := Some(Issue(p.i, s.wave))];
    } else {
      WaveQuiet(c, s, u, s');
    }
  }

  lemma WaveDecreaseStep(c: Config, s: State, u: nat, p: Pc)
    requires InvWave(c, s) && u < c.workers && p == s.pc[u] && PcShape(c, p)
    ensures p.Fin? ==> InvWave(c, DecreaseStep(c, s, u, p))
    ensures p.FinAbort? ==> InvWave(c, AbortDecreaseStep(c, s, u, p))
  {
    if p.Fin? || p.FinAbort? {
      WaveDecrease(c, s, p.i);
      var s1 := DecreaseValidationIdx(c, s, p.i);
      if p.Fin? { WaveQuiet(c, s1, u, DecreaseStep(c, s, u, p)); }
      else { WaveQuiet(c, s1, u, AbortDecreaseStep(c, s, u, p)); }
    }
  }

  lemma WaveCredit(c: Config, s: State, u: nat, p: Pc)
    requires InvWave(c, s) && u < c.workers && p == s.pc[u] && PcShape(c, p) && p.Val?
    ensures InvWave(c, CreditStep(c, s, u, p))
  {
    var s', ws := CreditStep(c, s, u, p), WaveView(s);
    CreditWave(ws, u, p.i, p.w);
    var b := s'.txns[p.i].vstat.maxValidated.value;
    assert IWave(ws.(v := ws.v[p.i := ws.v[p.i].(maxValidated := Some(b))], issue := ws.issue[u := None]));
    assert WaveView(s').v == ws.v[p.i := ws.v[p.i].(maxValidated := Some(b))];
    assert WaveView(s').issue == ws.issue[u := None];
  }

  lemma WaveCommit(c: Config, s: State)
    requires InvWave(c, s)
    ensures InvWave(c, TryCommit(c, s))
  {
    assert WaveView(TryCommit(c, s)).v == WaveView(s).v;
  }

  lemma WaveExec(c: Config, s: State, u: nat, s': State)
    requires InvWave(c, s) && u < c.workers && PcShape(c, s.pc[u]) && !Panics(c, s, u)
    requires s.pc[u].Exec? && ExecStep(c, s, u, s.pc[u], s')
    ensures InvWave(c, s')
  {
    WaveQuiet(c, s, u, s');
  }

  lemma WaveVal(c: Config, s: State, u: nat, s': State)
    requires InvWave(c, s) && Step(c, s, u, s') && s.pc[u].Val?
    ensures InvWave(c, s')
  {
    var p := s.pc[u];
    if p.val.Credit? { WaveCredit(c, s, u, p); }
    else if s'.pc[u].Val? { WaveQuiet(c, s, u, s'); }
    else { WaveDrop(c, s, u, s'); }
  }

  lemma WaveFin(c: Config, s: State, u: nat, s': State)
    requires InvWave(c, s) && Step(c, s, u, s') && (s.pc[u].Fin? || s.pc[u].FinAbort?)
    ensures InvWave(c, s')
  {
    var p := s.pc[u];
    if p.Fin? && p.fin.Load? { WaveLoad(c, s, u, p); }
    else if (p.Fin? && p.fin.Decrease?) || (p.FinAbort? && p.fa.AbortDecrease?) { WaveDecreaseStep(c, s, u, p); }
    else { WaveQuiet(c, s, u, s'); }
  }

  lemma WaveFree(c: Config, s: State, u: nat, p: Pc, s': State)
    requires InvWave(c, s) && Step(c, s, u, s') && p == s.pc[u]
    requires p.Idle? || p.GotVal? || p.GotEx? || p.Signal? || p.Aborter?
    ensures InvWave(c, s')
  {
    match p
    case Idle(f) => if f.FetchVal? { WaveFetch(c, s, u); } else { WaveQuiet(c, s, u, s'); }
    case GotVal(_, _) => if s'.pc[u].Val? { WaveQuiet(c, s, u, s'); } else { WaveDrop(c, s, u, s'); }
    case _ => WaveQuiet(c, s, u, s');
  }

  lemma WaveStep(c: Config, s: State, u: nat, s': State)
    requires InvWave(c, s) && Step(c, s, u, s')
    ensures InvWave(c, s')
  {
    var p := s.pc[u];
    match p
    case Exec(_, _, _, _) => WaveExec(c, s, u, s');
    case Fin(_, _, _) => WaveFin(c, s, u, s');
    case Val(_, _, _, _) => WaveVal(c, s, u, s');
    case FinAbort(_, _, _) => WaveFin(c, s, u, s');
    case _ => WaveFree(c, s, u, p, s');
  }
}
