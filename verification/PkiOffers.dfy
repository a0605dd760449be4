/** What the offer index points at, and when an open offer is missing from it. */
module PkiOffers {
  import opened Wrappers
  import opened Balances
  import opened MintFees
  import opened PkiTypes
  import opened PkiSteps
  import opened PkiRuns
  import opened PkiSchedule
  import opened PkiTrust

  function PairOf(offer: CertOffer): (Account, Account) {
    (offer.issuer, offer.user)
  }

  /** The index points at open offers only, each of the pair it is filed under. */
  ghost predicate Pointed(r: Registry) {
    forall k :: k in r.offerIndex ==> r.offerIndex[k] in r.offers && PairOf(r.offers[r.offerIndex[k]]) == k
  }

  /** Every open offer can be found by its pair. */
  ghost predicate Complete(r: Registry) {
    forall n :: n in r.offers ==> PairOf(r.offers[n]) in r.offerIndex && r.offerIndex[PairOf(r.offers[n])] == n
  }

  /** What a mint does to the offers. */
  lemma MintSpends(s: State, user: Account, nonce: nat, createdAt: nat, a: MintArgs)
    requires MintCert(s, user, nonce, createdAt, a).Ok?
    ensures nonce in s.registry.offers && s.registry.offers[nonce].user == user
    ensures var r' := MintCert(s, user, nonce, createdAt, a).value.registry;
      r'.offers == s.registry.offers - {nonce}
      && r'.offerIndex == s.registry.offerIndex - {PairOf(s.registry.offers[nonce])}
  {
    hide PayMint, Insert;
  }

  lemma OthersKeepOffers(s: State, op: Op)
    requires !op.OpMintCert? && !op.OpOfferContract?
    ensures Next(s, op).registry.offers == s.registry.offers
    ensures Next(s, op).registry.offerIndex == s.registry.offerIndex
  {
    hide Insert, Drop, OnInitialize, Deactivate;
    if op.OpNextBlock? {
      HookKeepsRegistry(Tick(s));
    } else if op.OpSelfDiscard? || op.OpCleanup? || op.OpSuspendCert? || op.OpReissue? {
      LifeKeepsRegistry(s, op);
    }
  }

  lemma StepPoints(s: State, op: Op)
    requires Pointed(s.registry)
    ensures Pointed(Next(s, op).registry)
  {
    hide MintCert, Reissue, OnInitialize, Drop;
    if op.OpMintCert? {
      if Apply(s, op).Ok? {
        MintSpends(s, op.caller, op.nonce, op.createdAt, op.a);
      }
    } else if !op.OpOfferContract? {
      OthersKeepOffers(s, op);
    }
  }

  lemma {:induction false} RunPoints(s: State, ops: seq<Op>)
    requires Pointed(s.registry)
    ensures Pointed(Run(s, ops).registry)
    decreases |ops|
  {
    hide Pointed, Next;
    if ops != [] {
      StepPoints(s, ops[0]);
      RunPoints(Next(s, ops[0]), ops[1..]);
    }
  }

  /** What the index gives for an issuer and a user is always an open offer from the one to the other. */
  lemma IndexedOffersAreOpen(s: State, issuer: Account, user: Account)
    requires Reachable(s) && (issuer, user) in s.registry.offerIndex
    ensures var n := s.registry.offerIndex[(issuer, user)];
      n in s.registry.offers && s.registry.offers[n].issuer == issuer && s.registry.offers[n].user == user
  {
    var free: map<Account, nat>, ops: seq<Op> :| s == Run(Genesis(free), ops);
    RunPoints(Genesis(free), ops);
  }

  /** The call makes an offer to a user who has an indexed one of the same issuer. */
  ghost predicate Repeats(s: State, op: Op) {
    op.OpOfferContract? && Apply(s, op).Ok? && (op.caller, op.user) in s.registry.offerIndex
  }

  /** Every open offer stays in the index exactly if no pair is given a second one. */
  lemma StepCompletes(s: State, op: Op)
    requires Pointed(s.registry) && Complete(s.registry)
    ensures Complete(Next(s, op).registry) <==> !Repeats(s, op)
  {
    var r, r' := s.registry, Next(s, op).registry;
    hide MintCert, Reissue, OnInitialize, Drop;
    if op.OpMintCert? {
      if Apply(s, op).Ok? {
        MintSpends(s, op.caller, op.nonce, op.createdAt, op.a);
      }
    } else if op.OpOfferContract? {
      if Repeats(s, op) {
        var n := r.offerIndex[(op.caller, op.user)];
        assert n in r'.offers && n != op.nonce && r'.offerIndex[PairOf(r'.offers[n])] != n;
      }
    } else {
      OthersKeepOffers(s, op);
    }
  }

  ghost predicate AlwaysComplete(s: State, ops: seq<Op>)
    decreases |ops|
  {
    Complete(s.registry) && (ops != [] ==> AlwaysComplete(Next(s, ops[0]), ops[1..]))
  }

  ghost predicate NeverRepeats(s: State, ops: seq<Op>)
    decreases |ops|
  {
    ops != [] ==> !Repeats(s, ops[0]) && NeverRepeats(Next(s, ops[0]), ops[1..])
  }

  /** All along a run every open offer can be found by its pair exactly if no pair is given a second one. */
  lemma {:induction false} OffersAreFoundWhileSingle(s: State, ops: seq<Op>)
    requires Pointed(s.registry) && Complete(s.registry)
    ensures AlwaysComplete(s, ops) <==> NeverRepeats(s, ops)
    decreases |ops|
  {
    hide Pointed, Complete, Repeats, Next;
    if ops != [] {
      StepCompletes(s, ops[0]);
      StepPoints(s, ops[0]);
      if !Repeats(s, ops[0]) {
        OffersAreFoundWhileSingle(Next(s, ops[0]), ops[1..]);
      }
    }
  }

  /** Minting an older offer of a pair hides the newer one, which stays open. */
  lemma OlderMintHidesNewer(s: State, user: Account, nonce: nat, createdAt: nat, a: MintArgs)
    requires Pointed(s.registry) && MintCert(s, user, nonce, createdAt, a).Ok?
    requires nonce in s.registry.offers
    requires var k := PairOf(s.registry.offers[nonce]);
      k in s.registry.offerIndex && s.registry.offerIndex[k] != nonce
    ensures var (k, r') := (PairOf(s.registry.offers[nonce]), MintCert(s, user, nonce, createdAt, a).value.registry);
      && k !in r'.offerIndex
      && s.registry.offerIndex[k] in r'.offers && PairOf(r'.offers[s.registry.offerIndex[k]]) == k
  {
    MintSpends(s, user, nonce, createdAt, a);
    hide MintCert;
  }

  // ---------- A run that hides an open offer ----------

  /** Root 1 and its issuer 3 with a template, as the tests set them up. */
  function FoundingRun(): seq<Op> {
    [OpAddProxy(1, 2), OpRegisterRoot(1, 2), OpAddProxy(3, 4), OpIssueIssuer(1, 3, 4), OpCreateTemplate(3, "t", false)]
  }

  /** Two offers of issuer 3 to user 5, who takes up the older one. */
  function OfferingRun(): seq<Op> {
    [OpOfferContract(3, 5, 1, "t", 0), OpOfferContract(3, 5, 1, "t", 1), OpMintCert(5, 0, 1, PackedMint())]
  }

  function PackedMint(): MintArgs {
    MintArgs(Packed, true, 0, 0, None, 0)
  }

  /** Issuer 3 has a template and nothing else has happened. */
  ghost predicate Founded(s: State) {
    && 3 in s.registry.issuers && s.registry.issuers[3].root == 1
    && s.registry.templates == map[(3, "t") := Template(true, false)]
    && s.registry.offers == map[] && s.certs.userIssuer == map[] && s.now == 1
    && s.bank.Free(5) == MINT_FEE_PACKED
  }

  lemma Founding(free: map<Account, nat>)
    requires 5 in free && free[5] == MINT_FEE_PACKED
    ensures Founded(Run(Genesis(free), FoundingRun()))
    ensures Run(Genesis(free), FoundingRun()).bank == Bank(free, map[])
  {
    hide OnInitialize, MintCert, Reissue, Drop;
    var g, ops := Genesis(free), FoundingRun();
    var s1 := Next(g, ops[0]);
    assert [] + [2] == [2] && s1.registry.proxies == map[1 := [2]];
    var s2 := Next(s1, ops[1]);
    var s3 := Next(s2, ops[2]);
    assert [] + [4] == [4] && s3.registry.proxies == map[1 := [2], 3 := [4]];
    var s4 := Next(s3, ops[3]);
    var s5 := Next(s4, ops[4]);
    assert Founded(s5) && s5.bank == g.bank;
    hide Next, Genesis, Founded;
    assert ops[1..][1..] == ops[2..] && ops[2..][1..] == ops[3..] && ops[3..][1..] == ops[4..] && ops[4..][1..] == [];
    assert Run(g, ops) == Run(s2, ops[2..]);
    assert Run(s2, ops[2..]) == Run(s4, ops[4..]);
    assert Run(s4, ops[4..]) == Run(s5, []);
  }

  lemma PackedMintSucceeds(s: State, user: Account, nonce: nat)
    requires nonce in s.registry.offers
    requires var offer := s.registry.offers[nonce];
      && offer.user == user && offer.issuer in s.registry.issuers && (user, offer.issuer) !in s.certs.userIssuer
      && (offer.issuer, offer.template) in s.registry.templates
      && !s.registry.templates[(offer.issuer, offer.template)].popRequired
    requires s.bank.Free(user) >= MINT_FEE_PACKED
    ensures MintCert(s, user, nonce, s.registry.offers[nonce].createdAt, PackedMint()).Ok?
  {
    SplitIsExact(MINT_FEE_PACKED, 0);
    hide ProtocolShare, Deposit, Fits, Insert;
    assert PayMint(s.bank, user, 0, None, 0, MINT_FEE_PACKED).Ok?;
    hide PayMint;
  }

  lemma OfferingHides(s: State)
    requires Founded(s)
    ensures var r := Run(s, OfferingRun()).registry;
      1 in r.offers && PairOf(r.offers[1]) == (3, 5) && (3, 5) !in r.offerIndex
  {
    hide OnInitialize, MintCert, Reissue, Drop;
    var ops := OfferingRun();
    var s1 := Next(s, ops[0]);
    var s2 := Next(s1, ops[1]);
    assert s1.registry.offers == map[0 := CertOffer(3, 5, "t", 1, 1)];
    assert s2.registry.offers == s1.registry.offers[1 := CertOffer(3, 5, "t", 1, 1)];
    PackedMintSucceeds(s2, 5, 0);
    var s3 := Next(s2, ops[2]);
    MintSpends(s2, 5, 0, 1, PackedMint());
    assert ops[1..][1..] == ops[2..] && ops[2..][1..] == [];
    hide Next;
    assert Run(s, ops) == Run(s2, ops[2..]);
    assert Run(s2, ops[2..]) == Run(s3, []);
  }

  lemma {:induction false} RunInTwo(s: State, ops: seq<Op>, more: seq<Op>)
    ensures Run(s, ops + more) == Run(Run(s, ops), more)
    decreases |ops|
  {
    hide Next;
    if ops == [] {
      assert ops + more == more;
    } else {
      assert (ops + more)[1..] == ops[1..] + more;
      RunInTwo(Next(s, ops[0]), ops[1..], more);
    }
  }

  /** After it the newer offer is open, and its pair is not in the index. */
  lemma OpenOfferGoesUnfound()
    ensures var r := Run(Genesis(map[5 := MINT_FEE_PACKED]), FoundingRun() + OfferingRun()).registry;
      1 in r.offers && PairOf(r.offers[1]) == (3, 5) && (3, 5) !in r.offerIndex
  {
    hide Founded, Run;
    Founding(map[5 := MINT_FEE_PACKED]);
    RunInTwo(Genesis(map[5 := MINT_FEE_PACKED]), FoundingRun(), OfferingRun());
    OfferingHides(Run(Genesis(map[5 := MINT_FEE_PACKED]), FoundingRun()));
  }
}
