/** The chain of trust: what stands behind every certificate, and what a retired template still yields. */
module PkiTrust {
  import opened Balances
  import opened PkiTypes
  import opened PkiSteps
  import opened PkiInvariants
  import opened PkiRuns
  import opened PkiSchedule

  // ---------- From certificate to root ----------

  /** Issuers answer to registered roots, and templates belong to issuers. */
  ghost predicate Hierarchy(r: Registry) {
    && (forall i :: i in r.issuers ==> r.issuers[i].root in r.roots)
    && (forall k :: k in r.templates ==> k.0 in r.issuers)
  }

  /** The issuer of every live certificate is known, and answers to the root the certificate names. */
  ghost predicate Anchored(s: State) {
    forall t :: t in s.certs.hot ==> t.issuer in s.registry.issuers && s.registry.issuers[t.issuer].root == t.root
  }

  /** Issuers never disappear and never change roots; roots never disappear. */
  ghost predicate Firm(r: Registry, r': Registry) {
    && r.roots <= r'.roots
    && forall i :: i in r.issuers ==> i in r'.issuers && r'.issuers[i].root == r.issuers[i].root
  }

  lemma RegistryIsFirm(s: State, op: Op)
    requires !op.OpMintCert? && !op.OpReissue? && !op.OpNextBlock? && Hierarchy(s.registry)
    ensures Firm(s.registry, Next(s, op).registry) && Hierarchy(Next(s, op).registry)
  {
    hide Remove;
  }

  lemma {:induction false} WalksKeepRegistry(s: State, due: seq<Thumbprint>)
    ensures ExpireEach(s, due).registry == s.registry && ReapEach(s, due).registry == s.registry
    ensures ExpireEach(s, due).certs.hot.Keys == s.certs.hot.Keys
    ensures ReapEach(s, due).certs.hot.Keys <= s.certs.hot.Keys
    decreases |due|
  {
    if due != [] {
      var t := due[0];
      if Live(s, t) {
        RemoveRows(s.certs, t);
      }
      hide Remove;
      assert Expire(s, t).certs.hot.Keys == s.certs.hot.Keys;
      WalksKeepRegistry(Expire(s, t), due[1..]);
      WalksKeepRegistry(Reap(s, t), due[1..]);
    }
  }

  lemma HookKeepsRegistry(s: State)
    ensures OnInitialize(s).registry == s.registry && OnInitialize(s).certs.hot.Keys <= s.certs.hot.Keys
  {
    var s0 := s.(schedule := s.schedule.(expiry := s.schedule.expiry - {s.now}));
    var s1 := TakeExpiry(s);
    WalksKeepRegistry(s0, Bucket(s.schedule.expiry, s.now));
    HookIsTwoTakes(s);
    WalksKeepRegistry(s1.(schedule := s1.schedule.(purge := s1.schedule.purge - {s.now})),
                      Bucket(s1.schedule.purge, s.now));
    hide ExpireEach, ReapEach, OnInitialize;
  }

  lemma MintIsAnchored(s: State, user: Account, nonce: nat, createdAt: nat, a: MintArgs)
    requires Hierarchy(s.registry) && Anchored(s) && MintCert(s, user, nonce, createdAt, a).Ok?
    ensures var s' := MintCert(s, user, nonce, createdAt, a).value;
      Anchored(s') && Hierarchy(s'.registry)
  {
    hide PayMint;
  }

  lemma ReissueIsAnchored(s: State, caller: Account, t: Thumbprint, v: Verdict, ttl: nat, body: nat)
    requires Agreed(s.certs) && Anchored(s) && Reissue(s, caller, t, v, ttl, body).Ok?
    ensures var s' := Reissue(s, caller, t, v, ttl, body).value;
      Anchored(s') && s'.registry == s.registry
  {
    hide Agreed, Remove, Insert, Anchored, Hierarchy;
    HotRowIs(s.certs, t);
    RemoveRows(s.certs, t);
    var u := Thumbprint(t.root, t.issuer, t.user, s.now + ttl, body);
    InsertedHot(Remove(s.certs, t), u, ColdRow(CERT_DEPOSIT, caller, s.certs.cold[t].template, v));
    MoreAreAnchored(s, Reissue(s, caller, t, v, ttl, body).value, t, u);
  }

  lemma InsertedHot(c: Certs, u: Thumbprint, row: ColdRow)
    ensures Insert(c, u, row).hot.Keys == c.hot.Keys + {u}
  {
  }

  lemma MoreAreAnchored(s: State, s': State, t: Thumbprint, u: Thumbprint)
    requires Anchored(s) && s'.registry == s.registry
    requires t in s.certs.hot && u.issuer == t.issuer && u.root == t.root
    requires s'.certs.hot.Keys <= s.certs.hot.Keys + {u}
    ensures Anchored(s')
  {
    forall w | w in s'.certs.hot
      ensures w.issuer in s.registry.issuers && s.registry.issuers[w.issuer].root == w.root
    {
      assert w in s.certs.hot.Keys + {u};
    }
  }

  lemma StepIsAnchored(s: State, op: Op)
    requires Inv(s) && Hierarchy(s.registry) && Anchored(s)
    ensures Hierarchy(Next(s, op).registry) && Anchored(Next(s, op))
  {
    hide Inv, Agreed, Hierarchy, Anchored, MintCert, Reissue, OnInitialize, Apply, Firm;
    assert Agreed(s.certs) by { AgreedPart(s); }
    if op.OpMintCert? {
      if Apply(s, op).Ok? {
        MintApplies(s, op);
        MintIsAnchored(s, op.caller, op.nonce, op.createdAt, op.a);
      }
    } else if op.OpReissue? {
      if Apply(s, op).Ok? {
        ReissueApplies(s, op);
        ReissueIsAnchored(s, op.caller, op.t, op.v, op.ttl, op.body);
      }
    } else if op.OpNextBlock? {
      HookApplies(s);
      HookKeepsRegistry(Tick(s));
      FewerAreAnchored(s, Next(s, op));
    } else {
      RegistryIsFirm(s, op);
      if !op.OpSkipTo? {
        StepShrinks(s, op);
      } else {
        SkipKeepsCerts(s, op);
      }
      FewerAreAnchored(s, Next(s, op));
    }
  }

  lemma AgreedPart(s: State)
    requires Inv(s)
    ensures Agreed(s.certs)
  {
  }

  lemma MintApplies(s: State, op: Op)
    requires op.OpMintCert?
    ensures Apply(s, op) == MintCert(s, op.caller, op.nonce, op.createdAt, op.a)
  {
  }

  lemma ReissueApplies(s: State, op: Op)
    requires op.OpReissue?
    ensures Apply(s, op) == Reissue(s, op.caller, op.t, op.v, op.ttl, op.body)
  {
  }

  lemma HookApplies(s: State)
    ensures Next(s, OpNextBlock) == OnInitialize(Tick(s)) && Tick(s).registry == s.registry && Tick(s).certs == s.certs
  {
  }

  lemma SkipKeepsCerts(s: State, op: Op)
    requires op.OpSkipTo?
    ensures Next(s, op).certs == s.certs
  {
  }

  lemma FirmSame(r: Registry)
    ensures Firm(r, r)
  {
  }

  lemma FewerAreAnchored(s: State, s': State)
    requires Anchored(s) && (s'.registry == s.registry || Firm(s.registry, s'.registry))
    requires forall t :: t in s'.certs.hot ==> t in s.certs.hot
    ensures Anchored(s')
  {
    FirmSame(s.registry);
  }

  lemma {:induction false} RunIsAnchored(s: State, ops: seq<Op>)
    requires Inv(s) && Hierarchy(s.registry) && Anchored(s)
    ensures Hierarchy(Run(s, ops).registry) && Anchored(Run(s, ops))
    decreases |ops|
  {
    hide Inv, Hierarchy, Anchored, Next;
    if ops != [] {
      StepIsAnchored(s, ops[0]);
      StepKeeps(s, ops[0]);
      RunIsAnchored(Next(s, ops[0]), ops[1..]);
    }
  }

  /** From any live certificate the chain of trust leads to a registered root: the one its rows and thumbprint name. */
  lemma ChainOfTrust(s: State, t: Thumbprint)
    requires Reachable(s) && t in s.certs.hot
    ensures s.certs.hot[t].issuer in s.registry.issuers
    ensures s.registry.issuers[s.certs.hot[t].issuer].root == s.certs.hot[t].root == t.root
    ensures s.certs.hot[t].root in s.registry.roots
    ensures t in s.certs.cold && s.certs.cold[t].template in s.registry.templates
    ensures s.certs.cold[t].template.0 == s.certs.hot[t].issuer
  {
    ReachableIsSound(s);
    ReachableIsAnchored(s);
    assert Agreed(s.certs) by { AgreedPart(s); }
    HotRowIs(s.certs, t);
    CertHasTemplate(s, t);
    hide Inv, Agreed, Reachable;
  }

  lemma ReachableIsAnchored(s: State)
    requires Reachable(s)
    ensures Hierarchy(s.registry) && Anchored(s)
  {
    hide Inv, Run;
    var free: map<Account, nat>, ops: seq<Op> :| s == Run(Genesis(free), ops);
    GenesisIsSound(free);
    RunIsAnchored(Genesis(free), ops);
  }

  lemma CertHasTemplate(s: State, t: Thumbprint)
    requires Inv(s) && t in s.certs.hot
    ensures t in s.certs.cold && s.certs.cold[t].template in s.registry.templates
    ensures s.certs.cold[t].template.0 == t.issuer
  {
    hide Projected, Resolved, Devices, Solvent;
    assert t in s.certs.cold.Keys;
    assert s.certs.cold[t].template in s.certs.live.Keys;
  }

  // ---------- Retired templates ----------

  /** The template exists throughout the run. */
  ghost predicate Remains(s: State, ops: seq<Op>, k: TemplateKey)
    decreases |ops|
  {
    k in s.registry.templates && (ops != [] ==> Remains(Next(s, ops[0]), ops[1..], k))
  }

  /** Every offer under `k` in `s'` is one that was there in `s`. */
  ghost predicate NoNewOffers(s: State, s': State, k: TemplateKey) {
    forall n :: n in s'.registry.offers && (s'.registry.offers[n].issuer, s'.registry.offers[n].template) == k ==>
      n in s.registry.offers && s.registry.offers[n] == s'.registry.offers[n]
  }

  lemma RetiredStep(s: State, op: Op, k: TemplateKey)
    requires k in s.registry.templates && !s.registry.templates[k].active && k in Next(s, op).registry.templates
    ensures !Next(s, op).registry.templates[k].active && NoNewOffers(s, Next(s, op), k)
  {
    hide PayMint, Insert, Drop, Deactivate, OnInitialize;
    if op.OpNextBlock? {
      HookKeepsRegistry(Tick(s));
    } else if op.OpSelfDiscard? || op.OpCleanup? || op.OpSuspendCert? || op.OpReissue? {
      LifeKeepsRegistry(s, op);
    }
  }

  lemma LifeKeepsRegistry(s: State, op: Op)
    requires op.OpSelfDiscard? || op.OpCleanup? || op.OpSuspendCert? || op.OpReissue?
    ensures Next(s, op).registry == s.registry
  {
    hide Remove, Insert;
  }

  /** Once deactivated, a template is never offered again, and does not become active while it exists. */
  lemma {:induction false} RetiredStaysRetired(s: State, ops: seq<Op>, k: TemplateKey)
    requires Remains(s, ops, k) && !s.registry.templates[k].active
    ensures k in Run(s, ops).registry.templates && !Run(s, ops).registry.templates[k].active
    ensures NoNewOffers(s, Run(s, ops), k)
    decreases |ops|
  {
    hide Next;
    if ops != [] {
      RetiredStep(s, ops[0], k);
      RetiredStaysRetired(Next(s, ops[0]), ops[1..], k);
    }
  }

  /**
   Exactly the root an issuer answers to can invalidate it, and that is the root of all its certificates. The
   record outlives it, marked; certificates, balances and the schedule are what they were.
   */
  lemma InvalidationSparesCerts(s: State, caller: Account, issuer: Account)
    requires Reachable(s)
    ensures InvalidateIssuer(s, caller, issuer).Ok?
       <==> issuer in s.registry.issuers && s.registry.issuers[issuer].root == caller
    ensures InvalidateIssuer(s, caller, issuer).Ok? ==>
      var s' := InvalidateIssuer(s, caller, issuer).value;
      && caller in s.registry.roots
      && (forall t :: t in s.certs.hot && t.issuer == issuer ==> s.certs.hot[t].root == caller)
      && s'.registry.issuers.Keys == s.registry.issuers.Keys && s'.registry.issuers[issuer].compromised
      && s'.certs == s.certs && s'.bank == s.bank && s'.schedule == s.schedule
  {
    ReachableIsAnchored(s);
    forall t | t in s.certs.hot && t.issuer == issuer && issuer in s.registry.issuers
      ensures s.certs.hot[t].root == s.registry.issuers[issuer].root
    {
      ChainOfTrust(s, t);
      ReachableIsSound(s);
      HotRowIs(s.certs, t);
    }
    hide Reachable;
  }
}
