/**
 Light-client ratcheting.  A client trusts a waypoint or an epoch state and moves forward by
 verifying chains of epoch-ending ledger infos.  Responses to concurrent requests may arrive
 in any order: the client ends in the same state, with one exception that is stated exactly.
 */
module TrustedStates {
  import opened Options

  type Hash(==, !new)
  type Validators(==, !new)
  type Signatures(==, !new)
  type Consensus(==, !new)

  datatype EpochState = EpochState(epoch: nat, verifier: Validators)

  datatype LedgerInfo = LedgerInfo(
    epoch: nat, version: nat, rootHash: Hash, timestamp: nat, next: Option<EpochState>, consensus: Consensus)

  datatype SignedInfo = SignedInfo(info: LedgerInfo, sigs: Signatures)

  /** The fields of a ledger info that a waypoint commits to. */
  datatype WaypointData = WaypointData(
    epoch: nat, rootHash: Hash, version: nat, timestamp: nat, next: Option<EpochState>)

  /** Hashing and signature checking are left uninterpreted. */
  datatype Crypto = Crypto(hash: WaypointData -> Hash, valid: (LedgerInfo, Signatures, Validators) -> bool)

  datatype Waypoint = Waypoint(version: nat, value: Hash)

  datatype TrustedState = EpochWaypoint(waypoint: Waypoint) | InEpoch(waypoint: Waypoint, state: EpochState)

  datatype Proof = Proof(infos: seq<SignedInfo>, more: bool)

  datatype Change = Version(result: TrustedState) | Epoch(result: TrustedState, li: SignedInfo) | NoChange

  function DataOf(li: LedgerInfo): WaypointData {
    WaypointData(li.epoch, li.rootHash, li.version, li.timestamp, li.next)
  }

  function NewWaypoint(c: Crypto, li: LedgerInfo): Waypoint { Waypoint(li.version, c.hash(DataOf(li))) }

  function NextBlockEpoch(li: LedgerInfo): nat { if li.next.Some? then li.next.value.epoch else li.epoch }

  // ---------------------------------------------------------------- verifiers

  datatype Verifier = ByWaypoint(w: Waypoint) | ByEpoch(es: EpochState)

  function VerifierOf(t: TrustedState): Verifier {
    match t
    case EpochWaypoint(w) => ByWaypoint(w)
    case InEpoch(_, es) => ByEpoch(es)
  }

  predicate Verifies(c: Crypto, v: Verifier, li: SignedInfo) {
    match v
    case ByWaypoint(w) => NewWaypoint(c, li.info) == w
    case ByEpoch(es) => es.epoch == li.info.epoch && c.valid(li.info, li.sigs, es.verifier)
  }

  predicate ChangeRequired(v: Verifier, epoch: nat) {
    match v
    case ByWaypoint(_) => true
    case ByEpoch(es) => es.epoch < epoch
  }

  predicate Stale(v: Verifier, li: LedgerInfo) {
    match v
    case ByWaypoint(w) => li.version < w.version
    case ByEpoch(es) => li.epoch < es.epoch
  }

  // ---------------------------------------------------------------- epoch change proofs

  /** The first index from `i` on that is not stale. */
  function SkipStale(v: Verifier, infos: seq<SignedInfo>, i: nat): (k: nat)
    requires i <= |infos|
    ensures i <= k <= |infos| && (k < |infos| ==> !Stale(v, infos[k].info))
    ensures forall j :: i <= j < k ==> Stale(v, infos[j].info)
    decreases |infos| - i
  {
    if i < |infos| && Stale(v, infos[i].info) then SkipStale(v, infos, i + 1) else i
  }

  /** From `i` on, each ledger info is verified by the epoch state that the one before it carries. */
  predicate Chain(c: Crypto, v: Verifier, infos: seq<SignedInfo>, i: nat)
    requires i <= |infos|
    decreases |infos| - i
  {
    i == |infos| ||
    (Verifies(c, v, infos[i]) && infos[i].info.next.Some? && Chain(c, ByEpoch(infos[i].info.next.value), infos, i + 1))
  }

  function Last(p: Proof): SignedInfo
    requires p.infos != []
  {
    p.infos[|p.infos| - 1]
  }

  /** What a proof shows to a verifier: the ledger info that starts the target epoch, or nothing. */
  function Target(c: Crypto, v: Verifier, p: Proof): (r: Option<SignedInfo>)
    ensures r.Some? ==> p.infos != [] && r.value == Last(p)
  {
    if p.infos == [] || Stale(v, Last(p).info) || !Chain(c, v, p.infos, SkipStale(v, p.infos, 0)) then None
    else Some(Last(p))
  }

  // ---------------------------------------------------------------- what is checked of a ledger info

  /** It is of the epoch, and the validators of the epoch have signed it. */
  predicate SignedBy(c: Crypto, es: EpochState, li: SignedInfo) {
    li.info.epoch == es.epoch && c.valid(li.info, li.sigs, es.verifier)
  }

  /** It has the version of the waypoint, and the fields that a waypoint commits to have its hash. */
  predicate HasWaypoint(c: Crypto, w: Waypoint, li: SignedInfo) {
    && li.info.version == w.version
    && var i := li.info; c.hash(WaypointData(i.epoch, i.rootHash, i.version, i.timestamp, i.next)) == w.value
  }

  /** It is older than what is trusted. */
  predicate Behind(v: Verifier, li: SignedInfo) {
    match v
    case ByWaypoint(w) => li.info.version < w.version
    case ByEpoch(es) => li.info.epoch < es.epoch
  }

  predicate Trusts(c: Crypto, v: Verifier, li: SignedInfo) {
    match v
    case ByWaypoint(w) => HasWaypoint(c, w, li)
    case ByEpoch(es) => SignedBy(c, es, li)
  }

  /** From `k` on: the first is trusted, and each is signed by the validators that the one before names. */
  ghost predicate Linked(c: Crypto, v: Verifier, infos: seq<SignedInfo>, k: nat) {
    && k <= |infos|
    && (forall i :: k <= i < |infos| ==> infos[i].info.next.Some?)
    && (k < |infos| ==> Trusts(c, v, infos[k]))
    && (forall i :: k < i < |infos| ==> SignedBy(c, infos[i - 1].info.next.value, infos[i]))
  }

  lemma {:induction false} ChainIsLinked(c: Crypto, v: Verifier, infos: seq<SignedInfo>, k: nat)
    requires k <= |infos|
    ensures Chain(c, v, infos, k) <==> Linked(c, v, infos, k)
    decreases |infos| - k
  {
    if k < |infos| && infos[k].info.next.Some? {
      ChainIsLinked(c, ByEpoch(infos[k].info.next.value), infos, k + 1);
      assert k + 1 < |infos| ==> infos[k + 1 - 1] == infos[k];
    }
  }

  /** From the first one that is not behind, all are linked; the last is not behind. */
  ghost predicate Proves(c: Crypto, v: Verifier, infos: seq<SignedInfo>, k: nat) {
    && k < |infos| && (forall j :: 0 <= j < k ==> Behind(v, infos[j])) && !Behind(v, infos[k])
    && !Behind(v, infos[|infos| - 1]) && Linked(c, v, infos, k)
  }

  lemma TargetMeans(c: Crypto, v: Verifier, p: Proof)
    ensures Target(c, v, p).Some? <==> exists k :: Proves(c, v, p.infos, k)
    ensures Target(c, v, p).Some? ==> Target(c, v, p).value == p.infos[|p.infos| - 1]
  {
    var k := SkipStale(v, p.infos, 0);
    ChainIsLinked(c, v, p.infos, k);
    if Target(c, v, p).Some? { assert Proves(c, v, p.infos, k); }
    forall j | Proves(c, v, p.infos, j) ensures j == k {}
  }

  /** EpochChangeProof::verify */
  method VerifyProof(c: Crypto, v: Verifier, p: Proof) returns (r: Option<SignedInfo>)
    ensures r == Target(c, v, p)
    ensures r.Some? <==> exists k :: Proves(c, v, p.infos, k)
    ensures r.Some? ==> r.value == p.infos[|p.infos| - 1]
  {
    TargetMeans(c, v, p);
    if p.infos == [] || Stale(v, Last(p).info) { return None; }
    var i := 0;
    while i < |p.infos| && Stale(v, p.infos[i].info)
      invariant i <= |p.infos| && SkipStale(v, p.infos, i) == SkipStale(v, p.infos, 0)
    {
      i := i + 1;
    }
    var ref := v;
    while i < |p.infos|
      invariant i <= |p.infos| && Chain(c, ref, p.infos, i) == Chain(c, v, p.infos, SkipStale(v, p.infos, 0))
    {
      var li := p.infos[i];
      if !Verifies(c, ref, li) || li.info.next.None? { return None; }
      ref, i := ByEpoch(li.info.next.value), i + 1;
    }
    return Some(Last(p));
  }

  // ---------------------------------------------------------------- ratcheting

  /** The ledger info that the new state commits to, after the proof has led to `changeLi`. */
  function Verified(c: Crypto, latest: SignedInfo, p: Proof, changeLi: SignedInfo, es: EpochState): Option<SignedInfo> {
    if changeLi == latest then Some(latest)
    else if latest.info.epoch == es.epoch then
      if Verifies(c, ByEpoch(es), latest) then Some(latest) else None
    else if latest.info.epoch > es.epoch && p.more then Some(changeLi)
    else None
  }

  /** The change to the epoch that `changeLi` starts. */
  function ByProof(c: Crypto, latest: SignedInfo, p: Proof, changeLi: Option<SignedInfo>): Option<Change> {
    if changeLi.None? || changeLi.value.info.next.None? then None
    else
      var es := changeLi.value.info.next.value;
      var li := Verified(c, latest, p, changeLi.value, es);
      if li.None? then None
      else Some(Epoch(InEpoch(NewWaypoint(c, li.value.info), es), changeLi.value))
  }

  /** verify_and_ratchet_inner; none is an error. */
  function Ratchet(c: Crypto, t: TrustedState, latest: SignedInfo, p: Proof): Option<Change> {
    if latest.info.version < t.waypoint.version then None
    else if ChangeRequired(VerifierOf(t), NextBlockEpoch(latest.info)) then
      ByProof(c, latest, p, Target(c, VerifierOf(t), p))
    else if t.EpochWaypoint? then None
    else
      var w := NewWaypoint(c, latest.info);
      if w.version == t.waypoint.version then
        if w == t.waypoint then Some(NoChange) else None
      else if Verifies(c, ByEpoch(t.state), latest) then Some(Version(InEpoch(w, t.state)))
      else None
  }

  /** The ledger info belongs to a later epoch, or starts one. */
  predicate Later(latest: SignedInfo, es: EpochState) {
    (if latest.info.next.Some? then latest.info.next.value.epoch else latest.info.epoch) > es.epoch
  }

  /** The proof leads from what `t` trusts to the epoch that its last ledger info names. */
  ghost predicate Leads(c: Crypto, t: TrustedState, p: Proof) {
    match t
    case EpochWaypoint(w) => exists k :: Proves(c, ByWaypoint(w), p.infos, k)
    case InEpoch(_, es) => exists k :: Proves(c, ByEpoch(es), p.infos, k)
  }

  /** The ledger info that the waypoint of the new state is of: the latest one, or the end of the proof. */
  predicate Settles(c: Crypto, latest: SignedInfo, p: Proof, end: SignedInfo, es: EpochState, li: SignedInfo) {
    if latest == end then li == latest
    else if latest.info.epoch == es.epoch then li == latest && c.valid(latest.info, latest.sigs, es.verifier)
    else latest.info.epoch > es.epoch && p.more && li == end
  }

  /** The epoch change from `t` to `t'` that the response proves. */
  ghost predicate ToEpoch(c: Crypto, t: TrustedState, latest: SignedInfo, p: Proof, t': TrustedState, end: SignedInfo) {
    && latest.info.version >= t.waypoint.version && (t.EpochWaypoint? || Later(latest, t.state)) && Leads(c, t, p)
    && p.infos != [] && end == p.infos[|p.infos| - 1] && t'.InEpoch? && end.info.next == Some(t'.state)
    && ((Settles(c, latest, p, end, t'.state, latest) && HasWaypoint(c, t'.waypoint, latest))
        || (Settles(c, latest, p, end, t'.state, end) && HasWaypoint(c, t'.waypoint, end)))
  }

  lemma LeadsIff(c: Crypto, t: TrustedState, p: Proof)
    ensures Leads(c, t, p) <==> Target(c, VerifierOf(t), p).Some?
    ensures Leads(c, t, p) ==> p.infos != [] && Last(p).info.next.Some?
  {
    TargetMeans(c, VerifierOf(t), p);
    if k :| Proves(c, VerifierOf(t), p.infos, k) { assert p.infos[|p.infos| - 1].info.next.Some?; }
  }

  /** A response moves the version exactly if it is newer, of the epoch, and signed by its validators. */
  lemma VersionIff(c: Crypto, t: TrustedState, latest: SignedInfo, p: Proof, t': TrustedState)
    ensures Ratchet(c, t, latest, p) == Some(Version(t')) <==>
              && t.InEpoch? && !Later(latest, t.state) && latest.info.version > t.waypoint.version
              && SignedBy(c, t.state, latest)
              && t'.InEpoch? && t'.state == t.state && HasWaypoint(c, t'.waypoint, latest)
  {}

  /** Nothing changes exactly if the response is of the version that is trusted, with its hash. */
  lemma NoChangeIff(c: Crypto, t: TrustedState, latest: SignedInfo, p: Proof)
    ensures Ratchet(c, t, latest, p) == Some(NoChange) <==>
              t.InEpoch? && !Later(latest, t.state) && HasWaypoint(c, t.waypoint, latest)
  {}

  /** The epoch changes exactly as the response proves. */
  lemma EpochIff(c: Crypto, t: TrustedState, latest: SignedInfo, p: Proof, t': TrustedState, end: SignedInfo)
    ensures Ratchet(c, t, latest, p) == Some(Epoch(t', end)) <==> ToEpoch(c, t, latest, p, t', end)
  {
    LeadsIff(c, t, p);
  }

  function After(t: TrustedState, ch: Change): TrustedState { if ch.NoChange? then t else ch.result }

  /** Epoch-ending ledger infos name the following epoch; the code does not check this. */
  predicate NamesNextEpoch(li: LedgerInfo) { li.next.Some? ==> li.next.value.epoch == li.epoch + 1 }

  predicate WellFormed(latest: SignedInfo, p: Proof) {
    NamesNextEpoch(latest.info) && AllNameNext(p)
  }

  // ---------------------------------------------------------------- chains

  predicate AllNameNext(p: Proof) { forall k :: 0 <= k < |p.infos| ==> NamesNextEpoch(p.infos[k].info) }

  /** In a chain from an epoch state the epochs are consecutive. */
  lemma {:induction false} ChainEpochs(c: Crypto, es: EpochState, p: Proof, k: nat, i: nat)
    requires AllNameNext(p) && k <= i < |p.infos| && Chain(c, ByEpoch(es), p.infos, k)
    ensures p.infos[i].info.epoch == es.epoch + (i - k) && p.infos[i].info.next.Some?
    decreases i - k
  {
    if k < i { ChainEpochs(c, p.infos[k].info.next.value, p, k + 1, i); }
  }

  /** A chain can be entered at any epoch state it carries. */
  lemma {:induction false} EnterChain(c: Crypto, es: EpochState, p: Proof, k: nat, i: nat)
    requires k <= i < |p.infos| && Chain(c, ByEpoch(es), p.infos, k)
    ensures p.infos[i].info.next.Some? && Chain(c, ByEpoch(p.infos[i].info.next.value), p.infos, i + 1)
    decreases i - k
  {
    if k < i { EnterChain(c, p.infos[k].info.next.value, p, k + 1, i); }
  }

  lemma {:induction false} SkipTo(v: Verifier, infos: seq<SignedInfo>, i: nat, k: nat)
    requires i <= k <= |infos| && (forall j :: i <= j < k ==> Stale(v, infos[j].info))
    requires k < |infos| ==> !Stale(v, infos[k].info)
    ensures SkipStale(v, infos, i) == k
    decreases k - i
  {
    if i < k { SkipTo(v, infos, i + 1, k); }
  }

  /** The proof leads a verifier that is some epochs ahead to the same target. */
  lemma SkipsStalePrefix(c: Crypto, es: EpochState, es': EpochState, p: Proof, j: nat)
    requires AllNameNext(p) && Target(c, ByEpoch(es), p).Some?
    requires j < |p.infos| - 1 && p.infos[j].info.next == Some(es') && es'.epoch > es.epoch
    ensures Target(c, ByEpoch(es'), p) == Target(c, ByEpoch(es), p)
  {
    var infos := p.infos;
    var k := SkipStale(ByEpoch(es), infos, 0);
    assert NamesNextEpoch(infos[j].info);
    assert j >= k;
    EnterChain(c, es, p, k, j);
    forall i | k <= i < |infos| ensures infos[i].info.epoch == es.epoch + (i - k) { ChainEpochs(c, es, p, k, i); }
    SkipTo(ByEpoch(es'), infos, 0, j + 1);
  }

  // ---------------------------------------------------------------- order does not matter

  /** An epoch change moves the client past its epoch, by as many epochs as there are fresh ledger infos. */
  lemma EpochGrows(c: Crypto, es: EpochState, p: Proof)
    requires AllNameNext(p) && Target(c, ByEpoch(es), p).Some?
    ensures var k := SkipStale(ByEpoch(es), p.infos, 0);
            k < |p.infos| && Last(p).info.next.Some? && Last(p).info.next.value.epoch == es.epoch + (|p.infos| - k)
  {
    var k := SkipStale(ByEpoch(es), p.infos, 0);
    assert NamesNextEpoch(Last(p).info);
    ChainEpochs(c, es, p, k, |p.infos| - 1);
  }

  /** What the client trusts is carried by an unbroken chain of verified ledger infos. */
  lemma RatchetIsChained(c: Crypto, t: TrustedState, latest: SignedInfo, p: Proof)
    requires var r := Ratchet(c, t, latest, p); r.Some? && r.value.Epoch?
    ensures var r := Ratchet(c, t, latest, p).value;
            && p.infos != [] && r.li == Last(p) && r.li.info.next == Some(r.result.state)
            && Chain(c, VerifierOf(t), p.infos, SkipStale(VerifierOf(t), p.infos, 0))
            && (r.result.waypoint == NewWaypoint(c, r.li.info)
                || (r.result.waypoint == NewWaypoint(c, latest.info) && Verifies(c, ByEpoch(r.result.state), latest)))
  {}

  // ---------------------------------------------------------------- many responses

  /** The state after a response; one that is rejected leaves it as it was. */
  function Received(c: Crypto, t: TrustedState, latest: SignedInfo, p: Proof): TrustedState {
    var r := Ratchet(c, t, latest, p);
    if r.Some? then After(t, r.value) else t
  }

  /** The state after all responses, in the order they arrive. */
  function Session(c: Crypto, t: TrustedState, rs: seq<(SignedInfo, Proof)>): TrustedState {
    if rs == [] then t
    else
      var n := |rs| - 1;
      Received(c, Session(c, t, rs[..n]), rs[n].0, rs[n].1)
  }

  /** The waypoint is the one of `t`, or of a ledger info in the chain or verified at its end. */
  ghost predicate Anchored(c: Crypto, t: TrustedState, t': TrustedState, links: seq<SignedInfo>) {
    || (t'.waypoint == t.waypoint && links == [])
    || (t'.InEpoch? && exists li :: HasWaypoint(c, t'.waypoint, li) && (li in links || SignedBy(c, t'.state, li)))
  }

  /** `links` is an unbroken chain from what `t` trusts to what `t'` trusts. */
  ghost predicate Backed(c: Crypto, t: TrustedState, t': TrustedState, links: seq<SignedInfo>) {
    && Linked(c, VerifierOf(t), links, 0)
    && (links != [] ==> if t.InEpoch? then SignedBy(c, t.state, links[0]) else HasWaypoint(c, t.waypoint, links[0]))
    && (if links == [] then VerifierOf(t') == VerifierOf(t)
        else t'.InEpoch? && links[|links| - 1].info.next == Some(t'.state))
    && Anchored(c, t, t', links)
  }

  lemma {:induction false} ChainSuffix(c: Crypto, v: Verifier, infos: seq<SignedInfo>, k: nat, i: nat)
    requires k <= i <= |infos| && Chain(c, v, infos, i)
    ensures Chain(c, v, infos[k..], i - k)
    decreases |infos| - i
  {
    if i < |infos| { ChainSuffix(c, ByEpoch(infos[i].info.next.value), infos, k, i + 1); }
  }

  lemma {:induction false} ChainJoin(c: Crypto, v: Verifier, a: seq<SignedInfo>, b: seq<SignedInfo>, i: nat)
    requires i <= |a| && Chain(c, v, a, i)
    requires if i == |a| then Chain(c, v, b, 0)
             else a[|a| - 1].info.next.Some? && Chain(c, ByEpoch(a[|a| - 1].info.next.value), b, 0)
    ensures Chain(c, v, a + b, i)
    decreases |a| - i
  {
    if i < |a| { ChainJoin(c, ByEpoch(a[i].info.next.value), a, b, i + 1); }
    else {
      assert (a + b)[|a|..] == b;
      ChainPrefixed(c, v, a, b, 0);
    }
  }

  lemma {:induction false} ChainPrefixed(c: Crypto, v: Verifier, a: seq<SignedInfo>, b: seq<SignedInfo>, i: nat)
    requires i <= |b| && Chain(c, v, b, i)
    ensures Chain(c, v, a + b, |a| + i)
    decreases |b| - i
  {
    if i < |b| { ChainPrefixed(c, ByEpoch(b[i].info.next.value), a, b, i + 1); }
  }

  /** The fresh part of the proof goes on where the chain ends. */
  lemma BackedNext(c: Crypto, t: TrustedState, t1: TrustedState, links: seq<SignedInfo>, latest: SignedInfo, p: Proof)
    returns (links': seq<SignedInfo>)
    requires Backed(c, t, t1, links)
    ensures Backed(c, t, Received(c, t1, latest, p), links')
  {
    ChainIsLinked(c, VerifierOf(t), links, 0);
    var r := Ratchet(c, t1, latest, p);
    var t2 := Received(c, t1, latest, p);
    links' := links;
    if r.Some? && r.value.Epoch? {
      RatchetIsChained(c, t1, latest, p);
      var k := SkipStale(VerifierOf(t1), p.infos, 0);
      var news := p.infos[k..];
      ChainSuffix(c, VerifierOf(t1), p.infos, k, k);
      ChainJoin(c, VerifierOf(t), links, news, 0);
      links' := links + news;
      ChainIsLinked(c, VerifierOf(t), links', 0);
      assert k < |p.infos| && links'[|links'| - 1] == Last(p) && Last(p) in links';
      assert Anchored(c, t, t2, links') by {
        assert HasWaypoint(c, t2.waypoint, Last(p))
            || (HasWaypoint(c, t2.waypoint, latest) && SignedBy(c, t2.state, latest));
      }
    } else if r.Some? && r.value.Version? {
      assert SignedBy(c, t2.state, latest) && HasWaypoint(c, t2.waypoint, latest);
    }
  }

  /**
   Whatever responses arrive, in whatever order: what the client trusts in the end is carried by
   an unbroken chain of verified ledger infos from what it trusted at first.
   */
  lemma {:induction false} SessionIsChained(c: Crypto, t: TrustedState, rs: seq<(SignedInfo, Proof)>)
    returns (links: seq<SignedInfo>)
    ensures Backed(c, t, Session(c, t, rs), links)
  {
    if rs == [] { links := []; }
    else {
      var n := |rs| - 1;
      links := SessionIsChained(c, t, rs[..n]);
      links := BackedNext(c, t, Session(c, t, rs[..n]), links, rs[n].0, rs[n].1);
    }
  }

  // ---------------------------------------------------------------- two responses

  /** The latest ledger info is not before the epoch that the proof leads to. */
  lemma NotBefore(c: Crypto, latest: SignedInfo, p: Proof, changeLi: Option<SignedInfo>)
    requires NamesNextEpoch(latest.info) && ByProof(c, latest, p, changeLi).Some?
    ensures NextBlockEpoch(latest.info) >= ByProof(c, latest, p, changeLi).value.result.state.epoch
  {}

  predicate Carries(p: Proof, es: EpochState) {
    exists j :: 0 <= j < |p.infos| - 1 && p.infos[j].info.next == Some(es)
  }

  /**
   Responses A and B both succeed from `t`, B reaches a later epoch, is not older than A, and
   its chain carries the epoch state A leads to.
   */
  predicate Outruns(c: Crypto, t: TrustedState, la: SignedInfo, pa: Proof, lb: SignedInfo, pb: Proof) {
    && t.InEpoch? && WellFormed(la, pa) && WellFormed(lb, pb)
    && var ra, rb := Ratchet(c, t, la, pa), Ratchet(c, t, lb, pb);
       && ra.Some? && rb.Some?
       && var a, b := After(t, ra.value), After(t, rb.value);
          && b.state.epoch > a.state.epoch && lb.info.version >= a.waypoint.version
          && (a.state == t.state || Carries(pb, a.state))
  }

  /** B after A succeeds and gives exactly what B alone gives. */
  lemma RatchetAfter(c: Crypto, t: TrustedState, la: SignedInfo, pa: Proof, lb: SignedInfo, pb: Proof)
    requires Outruns(c, t, la, pa, lb, pb)
    ensures Ratchet(c, After(t, Ratchet(c, t, la, pa).value), lb, pb) == Ratchet(c, t, lb, pb)
  {
    var ra, rb := Ratchet(c, t, la, pa).value, Ratchet(c, t, lb, pb).value;
    var a := After(t, ra);
    if ra.Epoch? { EpochGrows(c, t.state, pa); }
    EpochGrows(c, t.state, pb);
    NotBefore(c, lb, pb, Target(c, VerifierOf(t), pb));
    if a.state != t.state {
      var j :| 0 <= j < |pb.infos| - 1 && pb.infos[j].info.next == Some(a.state);
      SkipsStalePrefix(c, t.state, a.state, pb, j);
    }
  }

  /** The epoch change ledger info stands in for a latest one beyond the proof. */
  predicate FallsBack(latest: SignedInfo, p: Proof) {
    && p.infos != [] && p.more
    && Last(p) != latest && Last(p).info.next.Some? && latest.info.epoch > Last(p).info.next.value.epoch
  }

  /**
   The response A, arriving in state `b`, has stopped short of its own latest ledger info, which
   lies in the epoch of `b`, ends no epoch, is newer than what `b` trusts and is verified by it.
   */
  predicate Straggles(c: Crypto, b: TrustedState, la: SignedInfo, pa: Proof)
    requires b.InEpoch?
  {
    && FallsBack(la, pa) && la.info.next.None?
    && Verifies(c, ByEpoch(b.state), la) && la.info.version > b.waypoint.version
  }

  /** A after B is rejected or changes nothing, unless A straggles. */
  lemma LateResponse(c: Crypto, t: TrustedState, la: SignedInfo, pa: Proof, lb: SignedInfo, pb: Proof)
    requires Outruns(c, t, la, pa, lb, pb)
    ensures var b := Received(c, t, lb, pb);
            var r := Ratchet(c, b, la, pa);
            if Straggles(c, b, la, pa)
            then r == Some(Version(InEpoch(NewWaypoint(c, la.info), b.state)))
            else r.None? || r.value.NoChange?
  {
    EpochGrows(c, t.state, pb);
    if Ratchet(c, t, la, pa).value.Epoch? {
      EpochGrows(c, t.state, pa);
      assert NamesNextEpoch(Last(pa).info);
    }
  }

  /** Both arrival orders end in the same state exactly if A does not straggle. */
  lemma OrderDoesNotMatterIff(c: Crypto, t: TrustedState, la: SignedInfo, pa: Proof, lb: SignedInfo, pb: Proof)
    requires Outruns(c, t, la, pa, lb, pb)
    ensures var a, b := Received(c, t, la, pa), Received(c, t, lb, pb);
            && Received(c, a, lb, pb) == b
            && (Received(c, b, la, pa) == Received(c, a, lb, pb) <==> !Straggles(c, b, la, pa))
  {
    RatchetAfter(c, t, la, pa, lb, pb);
    LateResponse(c, t, la, pa, lb, pb);
  }

  // ---------------------------------------------------------------- versions

  /** The trusted version drops exactly when the client falls back to an older epoch change. */
  lemma VersionDropsIff(c: Crypto, t: TrustedState, latest: SignedInfo, p: Proof)
    requires Ratchet(c, t, latest, p).Some?
    ensures After(t, Ratchet(c, t, latest, p).value).waypoint.version < t.waypoint.version <==>
              && ChangeRequired(VerifierOf(t), NextBlockEpoch(latest.info)) && FallsBack(latest, p)
              && Last(p).info.version < t.waypoint.version
  {}

  // ---------------------------------------------------------------- the exceptions happen

  /** Some values for everything that the examples do not depend on. */
  datatype Filler = Filler(hash: Hash, vals: Validators, sigs: Signatures, cons: Consensus)

  /** A ledger info of epoch `e` and version `v`, which ends the epoch if `ends`. */
  function Info(f: Filler, e: nat, v: nat, ends: bool): SignedInfo {
    SignedInfo(LedgerInfo(e, v, f.hash, 0, if ends then Some(EpochState(e + 1, f.vals)) else None, f.cons), f.sigs)
  }

  /** All ledger infos are signed. */
  function AllSigned(f: Filler): Crypto { Crypto(_ => f.hash, (_, _, _) => true) }

  function Client(f: Filler, e: nat, v: nat): TrustedState { InEpoch(Waypoint(v, f.hash), EpochState(e, f.vals)) }

  /** A client in epoch 1 at version 100 falls back to the end of that epoch, at version 50. */
  lemma VersionDrops(f: Filler)
    ensures var c, t := AllSigned(f), Client(f, 1, 100);
            var latest, p := Info(f, 3, 200, false), Proof([Info(f, 1, 50, true)], true);
            Ratchet(c, t, latest, p).Some? && After(t, Ratchet(c, t, latest, p).value) == Client(f, 2, 50)
  {
    var c, v, p := AllSigned(f), ByEpoch(EpochState(1, f.vals)), Proof([Info(f, 1, 50, true)], true);
    assert Chain(c, ByEpoch(EpochState(2, f.vals)), p.infos, 1);
    assert SkipStale(v, p.infos, 0) == 0;
  }

  /**
   A stops at the end of epoch 1 although its latest ledger info is of epoch 3; B leads to epoch
   3.  A before B leaves the client at version 50, A after B at version 100.
   */
  lemma OrderMatters(f: Filler)
    ensures var c, t := AllSigned(f), Client(f, 1, 10);
            var la, pa := Info(f, 3, 100, false), Proof([Info(f, 1, 20, true)], true);
            var lb, pb := Info(f, 2, 50, true), Proof([Info(f, 1, 20, true), Info(f, 2, 50, true)], false);
            && Outruns(c, t, la, pa, lb, pb)
            && Received(c, Received(c, t, la, pa), lb, pb) == Client(f, 3, 50)
            && Received(c, Received(c, t, lb, pb), la, pa) == Client(f, 3, 100)
  {
    var c, t := AllSigned(f), Client(f, 1, 10);
    var la, pa := Info(f, 3, 100, false), Proof([Info(f, 1, 20, true)], true);
    var lb, pb := Info(f, 2, 50, true), Proof([Info(f, 1, 20, true), Info(f, 2, 50, true)], false);
    var v := ByEpoch(EpochState(1, f.vals));
    assert SkipStale(v, pa.infos, 0) == 0 && SkipStale(v, pb.infos, 0) == 0;
    assert Chain(c, ByEpoch(EpochState(2, f.vals)), pa.infos, 1);
    assert Chain(c, ByEpoch(EpochState(3, f.vals)), pb.infos, 2);
    assert Chain(c, ByEpoch(EpochState(2, f.vals)), pb.infos, 1);
    assert Received(c, t, la, pa) == Client(f, 2, 20) && Received(c, t, lb, pb) == Client(f, 3, 50);
    assert pb.infos[0].info.next == Some(EpochState(2, f.vals));
    RatchetAfter(c, t, la, pa, lb, pb);
  }
}
