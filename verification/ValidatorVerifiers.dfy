/**
 Quorum checking.  A multi-signature carries a bit mask of its signers; it is accepted when
 the signers hold more than two thirds of the voting power.  Any two accepted masks share more
 than a third of it.
 */
module ValidatorVerifiers {
  import opened Options
  import opened BitVectors

  type Address(==, !new)
  type PublicKey(==, !new)
  type Signature(==, !new)
  type Message(==, !new)

  datatype Info = Info(address: Address, key: PublicKey, power: nat)

  datatype ValidatorVerifier = ValidatorVerifier(infos: seq<Info>, quorum: nat, total: nat, index: map<Address, nat>)

  datatype VerifyError =
    | UnknownAuthor
    | TooLittleVotingPower(power: nat, expected: nat)
    | InvalidBitVec
    | EmptySignature
    | FailedToAggregateSignature
    | FailedToAggregatePubKey
    | InvalidMultiSignature

  datatype Result<T> = Ok(value: T) | Err(error: VerifyError)

  /** BLS operations stay uninterpreted. */
  datatype Crypto = Crypto(
    aggregateKeys: seq<PublicKey> -> Option<PublicKey>,
    aggregateSigs: seq<Signature> -> Option<Signature>,
    verify: (Message, Signature, PublicKey) -> bool)

  // ---------------------------------------------------------------- building a verifier

  function SumPower(infos: seq<Info>, k: nat): nat
    requires k <= |infos|
  {
    if k == 0 then 0 else SumPower(infos, k - 1) + infos[k - 1].power
  }

  /** Address to position; a later validator with the same address wins. */
  function BuildIndex(infos: seq<Info>, k: nat): (m: map<Address, nat>)
    requires k <= |infos|
    ensures forall a :: a in m ==> m[a] < k && infos[m[a]].address == a
    ensures forall i :: 0 <= i < k ==> infos[i].address in m && i <= m[infos[i].address]
  {
    if k == 0 then map[] else BuildIndex(infos, k - 1)[infos[k - 1].address := k - 1]
  }

  function New(infos: seq<Info>): ValidatorVerifier {
    var total := SumPower(infos, |infos|);
    ValidatorVerifier(infos, if infos == [] then 0 else total * 2 / 3 + 1, total, BuildIndex(infos, |infos|))
  }

  /** Distinct addresses, and few enough for 16-bit positions. */
  predicate Proper(infos: seq<Info>) {
    && |infos| <= 0xFFFF
    && forall i, j :: 0 <= i < j < |infos| ==> infos[i].address != infos[j].address
  }

  lemma IndexIsPosition(infos: seq<Info>, i: nat)
    requires Proper(infos) && i < |infos|
    ensures infos[i].address in New(infos).index && New(infos).index[infos[i].address] == i
  {}

  // ---------------------------------------------------------------- the voter mask

  function CheckNumOfVoters(n: nat, mask: seq<bv8>): Option<VerifyError> {
    var num := n % 0x1_0000;
    if |mask| != RequiredBuckets(num) then Some(InvalidBitVec)
    else
      var last := LastSetBit(mask);
      if last.Some? && last.value >= num then Some(InvalidBitVec) else None
  }

  /** The mask has the right size and names only validators. */
  ghost predicate WellSized(n: nat, mask: seq<bv8>) {
    |mask| == RequiredBuckets(n) && forall q: nat :: n <= q ==> !IsSet(mask, q)
  }

  /** What the check decides: it looks at the number of validators as a 16-bit value. */
  lemma CheckMeans(n: nat, mask: seq<bv8>)
    ensures CheckNumOfVoters(n, mask).None? <==> WellSized(n % 0x1_0000, mask)
  {}

  lemma CheckIsExact(n: nat, mask: seq<bv8>)
    requires n <= 0xFFFF
    ensures CheckNumOfVoters(n, mask).None? <==> WellSized(n, mask)
  {}

  /** So it is right for all masks exactly if the number of validators fits in 16 bits. */
  lemma CheckExactIff(n: nat)
    ensures (forall mask :: CheckNumOfVoters(n, mask).None? <==> WellSized(n, mask)) <==> n <= 0xFFFF
  {
    if n <= 0xFFFF {
      forall mask ensures CheckNumOfVoters(n, mask).None? <==> WellSized(n, mask) { CheckIsExact(n, mask); }
    } else {
      var mask := Zeros(RequiredBuckets(n % 0x1_0000));
      forall q: nat ensures !IsSet(mask, q) { NoneSet(mask, q); }
      CheckMeans(n, mask);
      assert CheckNumOfVoters(n, mask).None? && !WellSized(n, mask);
    }
  }

  /** With 65536 validators the empty mask passes, and every mask of the right size is turned down. */
  lemma CheckTruncates(mask: seq<bv8>)
    ensures CheckNumOfVoters(0x1_0000, []).None? && !WellSized(0x1_0000, [])
    ensures WellSized(0x1_0000, mask) ==> CheckNumOfVoters(0x1_0000, mask).Some?
  {}

  /** Voting power of the voters among the first `k` validators. */
  function VotersPower(infos: seq<Info>, voters: set<nat>, k: nat): nat
    requires k <= |infos|
  {
    if k == 0 then 0 else VotersPower(infos, voters, k - 1) + if k - 1 in voters then infos[k - 1].power else 0
  }

  function MaskPower(infos: seq<Info>, mask: seq<bv8>): nat { VotersPower(infos, Ones(mask), |infos|) }

  ghost predicate Accepted(v: ValidatorVerifier, mask: seq<bv8>) {
    WellSized(|v.infos|, mask) && MaskPower(v.infos, mask) >= v.quorum
  }

  function Everybody(k: nat): (r: set<nat>)
    ensures forall i :: i in r <==> 0 <= i < k
  {
    if k == 0 then {} else Everybody(k - 1) + {k - 1}
  }

  /** The total is what all validators hold together. */
  lemma {:induction false} TotalIsAll(infos: seq<Info>, k: nat)
    requires k <= |infos|
    ensures SumPower(infos, k) == VotersPower(infos, Everybody(k), k)
  {
    if k > 0 {
      TotalIsAll(infos, k - 1);
      SameVoters(infos, Everybody(k - 1), Everybody(k), k - 1);
    }
  }

  lemma {:induction false} SameVoters(infos: seq<Info>, a: set<nat>, b: set<nat>, k: nat)
    requires k <= |infos| && forall i :: 0 <= i < k ==> (i in a <==> i in b)
    ensures VotersPower(infos, a, k) == VotersPower(infos, b, k)
  {
    if k > 0 { SameVoters(infos, a, b, k - 1); }
  }

  /** A mask is accepted exactly if its voters hold more than two thirds of all power. */
  lemma AcceptedIff(infos: seq<Info>, mask: seq<bv8>)
    ensures New(infos).infos == infos && New(infos).total == SumPower(infos, |infos|)
    ensures Accepted(New(infos), mask) <==>
              WellSized(|infos|, mask) && (infos == [] || 3 * MaskPower(infos, mask) > 2 * SumPower(infos, |infos|))
  {}

  /** What two groups of voters hold together is at most everything plus what they share. */
  lemma {:induction false} InclusionExclusion(infos: seq<Info>, a: set<nat>, b: set<nat>, k: nat)
    requires k <= |infos|
    ensures VotersPower(infos, a, k) + VotersPower(infos, b, k) <= SumPower(infos, k) + VotersPower(infos, a * b, k)
  {
    if k > 0 { InclusionExclusion(infos, a, b, k - 1); }
  }

  lemma {:induction false} SomePowerSomeVoter(infos: seq<Info>, voters: set<nat>, k: nat)
    requires k <= |infos| && VotersPower(infos, voters, k) > 0
    ensures exists i: nat :: i < k && i in voters
  {
    if k - 1 !in voters { SomePowerSomeVoter(infos, voters, k - 1); }
  }

  /**
   Any two accepted masks have more than a third of the voting power in common, hence a voter,
   unless there are no validators at all; then the quorum is 0 and the empty mask is accepted.
   */
  lemma QuorumsIntersect(infos: seq<Info>, a: seq<bv8>, b: seq<bv8>)
    requires Accepted(New(infos), a) && Accepted(New(infos), b)
    ensures 3 * VotersPower(infos, Ones(a) * Ones(b), |infos|) > New(infos).total <==> infos != []
    ensures (exists i: nat :: i < |infos| && IsSet(a, i) && IsSet(b, i)) <==> infos != []
  {
    if infos != [] {
      InclusionExclusion(infos, Ones(a), Ones(b), |infos|);
      SomePowerSomeVoter(infos, Ones(a) * Ones(b), |infos|);
      var i: nat :| i < |infos| && i in Ones(a) * Ones(b);
      assert IsSet(a, i) && IsSet(b, i);
    }
  }

  /** The common voters are those of the bitwise and of the masks. */
  method CommonVoters(infos: seq<Info>, a: seq<bv8>, b: seq<bv8>) returns (common: seq<bv8>)
    requires Accepted(New(infos), a) && Accepted(New(infos), b)
    ensures Ones(common) == Ones(a) * Ones(b) && (3 * MaskPower(infos, common) > New(infos).total <==> infos != [])
  {
    common := BitAnd(a, b);
    assert Ones(common) == Ones(a) * Ones(b);
    QuorumsIntersect(infos, a, b);
  }

  // ---------------------------------------------------------------- checking the voting power

  /** Summed power of the first `k` authors, or none if one of them is unknown. */
  function AuthorsPower(v: ValidatorVerifier, authors: seq<Address>, k: nat): Option<nat>
    requires k <= |authors| && forall a :: a in v.index ==> v.index[a] < |v.infos|
  {
    if k == 0 then Some(0)
    else
      var p := AuthorsPower(v, authors, k - 1);
      if p.None? || authors[k - 1] !in v.index then None
      else Some(p.value + v.infos[v.index[authors[k - 1]]].power)
  }

  lemma {:induction false} OneUnknown(v: ValidatorVerifier, authors: seq<Address>, i: nat, k: nat)
    requires i < k <= |authors| && forall a :: a in v.index ==> v.index[a] < |v.infos|
    requires AuthorsPower(v, authors, i + 1).None?
    ensures AuthorsPower(v, authors, k).None?
  {
    if i + 1 < k { OneUnknown(v, authors, i, k - 1); }
  }

  method CheckVotingPower(v: ValidatorVerifier, authors: seq<Address>) returns (r: Option<VerifyError>)
    requires forall a :: a in v.index ==> v.index[a] < |v.infos|
    ensures var p := AuthorsPower(v, authors, |authors|);
            r == if p.None? then Some(UnknownAuthor)
                 else if p.value < v.quorum then Some(TooLittleVotingPower(p.value, v.quorum)) else None
  {
    var sum := 0;
    for i := 0 to |authors|
      invariant AuthorsPower(v, authors, i) == Some(sum)
    {
      if authors[i] !in v.index {
        OneUnknown(v, authors, i, |authors|);
        return Some(UnknownAuthor);
      }
      sum := sum + v.infos[v.index[authors[i]]].power;
    }
    return if sum < v.quorum then Some(TooLittleVotingPower(sum, v.quorum)) else None;
  }

  /** The addresses of the validators at the given positions. */
  predicate AddressesAt(infos: seq<Info>, ones: seq<nat>, authors: seq<Address>) {
    |authors| == |ones| && forall i :: 0 <= i < |ones| ==> ones[i] < |infos| && authors[i] == infos[ones[i]].address
  }

  function PowerAt(infos: seq<Info>, i: nat): nat { if i < |infos| then infos[i].power else 0 }

  function PositionsPower(infos: seq<Info>, ones: seq<nat>, k: nat): nat
    requires k <= |ones|
  {
    if k == 0 then 0 else PositionsPower(infos, ones, k - 1) + PowerAt(infos, ones[k - 1])
  }

  lemma {:induction false} PrefixPower(infos: seq<Info>, ones: seq<nat>, more: seq<nat>, k: nat)
    requires k <= |ones|
    ensures PositionsPower(infos, ones + more, k) == PositionsPower(infos, ones, k)
  {
    if k > 0 { PrefixPower(infos, ones, more, k - 1); }
  }

  /** Summing over the listed positions is summing over the voters. */
  lemma {:induction false} OnesPower(infos: seq<Info>, voters: set<nat>, k: nat)
    requires k <= |infos|
    ensures PositionsPower(infos, Below(voters, k), |Below(voters, k)|) == VotersPower(infos, voters, k)
  {
    if k > 0 {
      OnesPower(infos, voters, k - 1);
      var ones := Below(voters, k - 1);
      if k - 1 in voters {
        assert Below(voters, k) == ones + [k - 1];
        PrefixPower(infos, ones, [k - 1], |ones|);
      } else {
        assert Below(voters, k) == ones;
      }
    }
  }

  lemma {:induction false} AuthorsArePositions(infos: seq<Info>, ones: seq<nat>, authors: seq<Address>, k: nat)
    requires Proper(infos) && AddressesAt(infos, ones, authors) && k <= |ones|
    ensures AuthorsPower(New(infos), authors, k) == Some(PositionsPower(infos, ones, k))
  {
    if k > 0 {
      AuthorsArePositions(infos, ones, authors, k - 1);
      IndexIsPosition(infos, ones[k - 1]);
    }
  }

  /** Nobody votes beyond the validators, so listing all positions lists only them. */
  lemma {:induction false} VotersStop(voters: set<nat>, n: nat, k: nat)
    requires n <= k && forall q: nat :: q in voters ==> q < n
    ensures Below(voters, k) == Below(voters, n)
  {
    if n < k { VotersStop(voters, n, k - 1); }
  }

  predicate KeysAt(infos: seq<Info>, ones: seq<nat>, keys: seq<PublicKey>) {
    |keys| == |ones| && forall i :: 0 <= i < |ones| ==> ones[i] < |infos| && keys[i] == infos[ones[i]].key
  }

  /** The loop over iter_ones; the lookups cannot fail once the mask has been checked. */
  method CollectVoters(infos: seq<Info>, mask: seq<bv8>) returns (authors: seq<Address>, keys: seq<PublicKey>)
    requires WellSized(|infos|, mask)
    ensures AddressesAt(infos, Below(Ones(mask), |infos|), authors) && KeysAt(infos, Below(Ones(mask), |infos|), keys)
  {
    VotersStop(Ones(mask), |infos|, |mask| * BUCKET_SIZE);
    var ones := IterOnes(mask);
    authors, keys := [], [];
    for i := 0 to |ones|
      invariant |authors| == |keys| == i
      invariant forall j :: 0 <= j < i ==> authors[j] == infos[ones[j]].address && keys[j] == infos[ones[j]].key
    {
      authors := authors + [infos[ones[i]].address];
      keys := keys + [infos[ones[i]].key];
    }
  }

  /** The voters hold more than two thirds of all power, or there are no validators. */
  predicate TwoThirds(infos: seq<Info>, mask: seq<bv8>) {
    infos == [] || 3 * MaskPower(infos, mask) > 2 * SumPower(infos, |infos|)
  }

  /** The signature verifies under the aggregate of the keys of the validators that the mask names. */
  ghost predicate Signs(c: Crypto, infos: seq<Info>, msg: Message, mask: seq<bv8>, sig: Signature) {
    exists keys ::
      && KeysAt(infos, Below(Ones(mask), |infos|), keys) && c.aggregateKeys(keys).Some?
      && c.verify(msg, sig, c.aggregateKeys(keys).value)
  }

  lemma SignsIff(c: Crypto, infos: seq<Info>, msg: Message, mask: seq<bv8>, sig: Signature, keys: seq<PublicKey>)
    requires KeysAt(infos, Below(Ones(mask), |infos|), keys)
    ensures Signs(c, infos, msg, mask, sig) <==>
              c.aggregateKeys(keys).Some? && c.verify(msg, sig, c.aggregateKeys(keys).value)
  {
    forall other | KeysAt(infos, Below(Ones(mask), |infos|), other) ensures other == keys {}
  }

  /** The mask has been checked: what the summed power of its voters means. */
  lemma PowerMeans(infos: seq<Info>, mask: seq<bv8>, authors: seq<Address>)
    requires Proper(infos) && AddressesAt(infos, Below(Ones(mask), |infos|), authors)
    ensures AuthorsPower(New(infos), authors, |authors|) == Some(MaskPower(infos, mask))
    ensures MaskPower(infos, mask) >= New(infos).quorum <==> TwoThirds(infos, mask)
    ensures infos != [] ==> New(infos).quorum == SumPower(infos, |infos|) * 2 / 3 + 1
  {
    OnesPower(infos, Ones(mask), |infos|);
    AuthorsArePositions(infos, Below(Ones(mask), |infos|), authors, |authors|);
  }

  /** verify_multi_signatures; none means that the signature is accepted. */
  method VerifyMultiSignatures(c: Crypto, infos: seq<Info>, msg: Message, mask: seq<bv8>, sig: Option<Signature>)
    returns (r: Option<VerifyError>)
    requires Proper(infos)
    ensures r.None? <==>
              WellSized(|infos|, mask) && TwoThirds(infos, mask) && sig.Some? && Signs(c, infos, msg, mask, sig.value)
    ensures r == Some(InvalidBitVec) <==> !WellSized(|infos|, mask)
    ensures WellSized(|infos|, mask) && !TwoThirds(infos, mask) ==>
              r == Some(TooLittleVotingPower(MaskPower(infos, mask), SumPower(infos, |infos|) * 2 / 3 + 1))
    ensures r == Some(EmptySignature) <==> WellSized(|infos|, mask) && TwoThirds(infos, mask) && sig.None?
  {
    CheckIsExact(|infos|, mask);
    var bad := CheckNumOfVoters(|infos|, mask);
    if bad.Some? { return bad; }
    var authors, keys := CollectVoters(infos, mask);
    PowerMeans(infos, mask, authors);
    var weak := CheckVotingPower(New(infos), authors);
    if weak.Some? { return weak; }
    if sig.None? { return Some(EmptySignature); }
    SignsIff(c, infos, msg, mask, sig.value, keys);
    var key := c.aggregateKeys(keys);
    if key.None? { return Some(FailedToAggregatePubKey); }
    return if c.verify(msg, sig.value, key.value) then None else Some(InvalidMultiSignature);
  }

  // ---------------------------------------------------------------- aggregating signatures

  datatype Partial = Partial(author: Address, sig: Signature)

  /** A partial signature per author: the entries of a map. */
  predicate OnePerAuthor(ps: seq<Partial>) {
    forall i, j :: 0 <= i < j < |ps| ==> ps[i].author != ps[j].author
  }

  predicate AllKnown(v: ValidatorVerifier, ps: seq<Partial>) {
    forall i :: 0 <= i < |ps| ==> ps[i].author in v.index
  }

  /** Summed power of the first `k` signers. */
  function SignersPower(infos: seq<Info>, ps: seq<Partial>, k: nat): nat
    requires k <= |ps| && AllKnown(New(infos), ps)
  {
    if k == 0 then 0 else SignersPower(infos, ps, k - 1) + infos[New(infos).index[ps[k - 1].author]].power
  }

  /** The positions of the first `k` signers. */
  function SignersAt(infos: seq<Info>, ps: seq<Partial>, k: nat): set<nat>
    requires k <= |ps| && AllKnown(New(infos), ps)
  {
    set i | 0 <= i < k :: New(infos).index[ps[i].author]
  }

  lemma {:induction false} OneMoreVoter(infos: seq<Info>, voters: set<nat>, pos: nat, k: nat)
    requires pos < |infos| && k <= |infos| && pos !in voters
    ensures VotersPower(infos, voters + {pos}, k)
         == VotersPower(infos, voters, k) + if pos < k then infos[pos].power else 0
  {
    if k > 0 { OneMoreVoter(infos, voters, pos, k - 1); }
  }

  lemma {:induction false} NoVoters(infos: seq<Info>, k: nat)
    requires k <= |infos|
    ensures VotersPower(infos, {}, k) == 0
  {
    if k > 0 { NoVoters(infos, k - 1); }
  }

  lemma SignerIsNew(infos: seq<Info>, ps: seq<Partial>, i: nat)
    requires OnePerAuthor(ps) && i < |ps| && AllKnown(New(infos), ps)
    ensures var pos := New(infos).index[ps[i].author];
            && pos < |infos| && pos !in SignersAt(infos, ps, i)
            && SignersAt(infos, ps, i + 1) == SignersAt(infos, ps, i) + {pos}
  {}

  /** The signers hold the summed power of the positions they sit at. */
  lemma {:induction false} SignersHold(infos: seq<Info>, ps: seq<Partial>, k: nat)
    requires OnePerAuthor(ps) && AllKnown(New(infos), ps) && k <= |ps|
    ensures VotersPower(infos, SignersAt(infos, ps, k), |infos|) == SignersPower(infos, ps, k)
  {
    if k == 0 {
      assert SignersAt(infos, ps, 0) == {};
      NoVoters(infos, |infos|);
    }
    else {
      SignersHold(infos, ps, k - 1);
      SignerIsNew(infos, ps, k - 1);
      OneMoreVoter(infos, SignersAt(infos, ps, k - 1), New(infos).index[ps[k - 1].author], |infos|);
    }
  }

  /** Setting the bits of the signers, one after the other. */
  method SignersMask(infos: seq<Info>, ps: seq<Partial>) returns (r: Option<seq<bv8>>)
    requires Proper(infos)
    ensures r.Some? <==> AllKnown(New(infos), ps)
    ensures r.Some? ==> |r.value| == RequiredBuckets(|infos|) && Ones(r.value) == SignersAt(infos, ps, |ps|)
  {
    var v := New(infos);
    var masks := new BitVec.WithNumBits(|infos|);
    var i := 0;
    while i < |ps|
      invariant i <= |ps| && forall j :: 0 <= j < i ==> ps[j].author in v.index
      invariant |masks.inner| == RequiredBuckets(|infos|)
      invariant Ones(masks.inner) == set j | 0 <= j < i :: v.index[ps[j].author]
    {
      if ps[i].author !in v.index { return None; }
      masks.Set(v.index[ps[i].author]);
      i := i + 1;
    }
    return Some(masks.inner);
  }

  predicate SignaturesOf(ps: seq<Partial>, sigs: seq<Signature>) {
    |sigs| == |ps| && forall i :: 0 <= i < |ps| ==> sigs[i] == ps[i].sig
  }

  /** aggregate_signatures: the mask passes the voter check, names the signers and holds their power. */
  method AggregateSignatures(c: Crypto, infos: seq<Info>, ps: seq<Partial>) returns (r: Result<(seq<bv8>, Signature)>)
    requires Proper(infos) && OnePerAuthor(ps)
    ensures r == Err(UnknownAuthor) <==> !AllKnown(New(infos), ps)
    ensures r.Ok? ==> AllKnown(New(infos), ps) && Ones(r.value.0) == SignersAt(infos, ps, |ps|)
    ensures r.Ok? ==> CheckNumOfVoters(|infos|, r.value.0).None?
    ensures r.Ok? ==> MaskPower(infos, r.value.0) == SignersPower(infos, ps, |ps|)
    ensures AllKnown(New(infos), ps) ==>
              exists sigs :: SignaturesOf(ps, sigs) && match c.aggregateSigs(sigs)
                                                       case None => r == Err(FailedToAggregateSignature)
                                                       case Some(sig) => r.Ok? && r.value.1 == sig
  {
    var mask := SignersMask(infos, ps);
    if mask.None? { return Err(UnknownAuthor); }
    SignersHold(infos, ps, |ps|);
    CheckIsExact(|infos|, mask.value);
    forall q: nat | |infos| <= q ensures !IsSet(mask.value, q) {}
    var sigs := seq(|ps|, i requires 0 <= i < |ps| => ps[i].sig);
    assert SignaturesOf(ps, sigs);
    var sig := c.aggregateSigs(sigs);
    return if sig.None? then Err(FailedToAggregateSignature) else Ok((mask.value, sig.value));
  }

  /** get_voter_addresses on the aggregated mask lists exactly the signers. */
  function VoterAddresses(mask: seq<bv8>, infos: seq<Info>, k: nat): seq<Address>
    requires k <= |infos|
  {
    if k == 0 then []
    else VoterAddresses(mask, infos, k - 1) + if IsSet(mask, k - 1) then [infos[k - 1].address] else []
  }

  lemma OneMoreAddress(infos: seq<Info>, ones: seq<nat>, authors: seq<Address>, i: nat)
    requires AddressesAt(infos, ones, authors) && i < |infos|
    ensures AddressesAt(infos, ones + [i], authors + [infos[i].address])
  {}

  /** The addresses at the set positions, in order, each position once. */
  lemma {:induction false} VotersInOrder(mask: seq<bv8>, infos: seq<Info>, k: nat)
    requires k <= |infos|
    ensures AddressesAt(infos, Below(Ones(mask), k), VoterAddresses(mask, infos, k))
  {
    if k > 0 {
      VotersInOrder(mask, infos, k - 1);
      if k - 1 in Ones(mask) {
        OneMoreAddress(infos, Below(Ones(mask), k - 1), VoterAddresses(mask, infos, k - 1), k - 1);
      }
    }
  }

  lemma {:induction false} VotersAreListed(mask: seq<bv8>, infos: seq<Info>, k: nat, a: Address)
    requires k <= |infos|
    ensures a in VoterAddresses(mask, infos, k) <==> exists i: nat :: i < k && i in Ones(mask) && infos[i].address == a
  {
    if k > 0 { VotersAreListed(mask, infos, k - 1, a); }
  }

  lemma VotersAreSigners(infos: seq<Info>, ps: seq<Partial>, mask: seq<bv8>, a: Address)
    requires Proper(infos) && AllKnown(New(infos), ps) && Ones(mask) == SignersAt(infos, ps, |ps|)
    ensures a in VoterAddresses(mask, infos, |infos|) <==> exists i :: 0 <= i < |ps| && ps[i].author == a
  {
    VotersAreListed(mask, infos, |infos|, a);
    if i :| 0 <= i < |ps| && ps[i].author == a {
      var pos := New(infos).index[a];
      assert pos < |infos| && pos in Ones(mask) && infos[pos].address == a;
    }
  }
}
