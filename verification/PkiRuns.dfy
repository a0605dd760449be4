/** Every extrinsic and every block keeps the invariant and creates or destroys no money. */
module PkiRuns {
  import opened Wrappers
  import opened Balances
  import opened MintFees
  import opened PkiTypes
  import opened PkiSteps
  import opened PkiInvariants

  /** What is asked of a step: the invariant, and the amount of money, survive it. */
  ghost predicate Keeps(s: State, r: Outcome) {
    r.Ok? ==> Inv(r.value) && Total(r.value.bank) == Total(s.bank)
  }

  // ---------- Hierarchy, templates and offers ----------

  lemma TemplateKeeps(s: State, issuer: Account, name: string, popRequired: bool)
    requires Inv(s)
    ensures Keeps(s, CreateTemplate(s, issuer, name, popRequired))
  {
    var r := CreateTemplate(s, issuer, name, popRequired);
    var k := (issuer, name);
    if r.Ok? {
      assert k !in s.certs.live.Keys;
      hide Agreed, Counted, Solvent;
      assert Counted(s.certs) by { CountedPart(s.certs); }
      NewTemplateCounts(s.certs, k);
      LiveFrame(s.certs, s.certs.live[k := 0]);
      assert r.value.certs.live.Keys == r.value.registry.templates.Keys;
    }
  }

  lemma CountedPart(c: Certs)
    requires Agreed(c)
    ensures Counted(c)
  {
  }

  lemma DiscardKeeps(s: State, issuer: Account, name: string)
    requires Inv(s)
    ensures Keeps(s, DiscardTemplate(s, issuer, name))
  {
    var r := DiscardTemplate(s, issuer, name);
    var k := (issuer, name);
    if r.Ok? {
      assert k in s.certs.live.Keys;
      hide Agreed, Counted, Solvent;
      assert Counted(s.certs) by { CountedPart(s.certs); }
      OldTemplateCounts(s.certs, k);
      LiveFrame(s.certs, s.certs.live - {k});
      assert r.value.certs.live.Keys == r.value.registry.templates.Keys;
    }
  }

  lemma RegistryKeeps(s: State, op: Op)
    requires Inv(s)
    requires op.OpAddProxy? || op.OpRemoveProxy? || op.OpRemoveProxies? || op.OpRegisterRoot? || op.OpIssueIssuer?
             || op.OpInvalidateIssuer? || op.OpDeactivateTemplate? || op.OpOfferContract?
    ensures Keeps(s, Apply(s, op))
    ensures Apply(s, op).Ok? ==> Apply(s, op).value.certs == s.certs && Apply(s, op).value.schedule == s.schedule
    ensures Apply(s, op).Ok? ==> Apply(s, op).value.now == s.now && Apply(s, op).value.bank == s.bank
  {
    hide Agreed, Solvent;
    var r := Apply(s, op);
    if op.OpDeactivateTemplate? && r.Ok? {
      assert r.value.registry.templates.Keys == s.registry.templates.Keys;
    }
  }

  // ---------- Mint and reissue ----------

  lemma PayMintPays(b: Bank, user: Account, protocol: Account, author: Option<Account>, tip: nat, fee: nat,
                    c: Certs, t: Thumbprint, row: ColdRow)
    requires Solvent(b, CertDeposit, Deposits(c.cold)) && t !in c.cold
    requires row.funder == user && row.deposit == Deposit(fee)
    requires PayMint(b, user, protocol, author, tip, fee).Ok?
    ensures Solvent(PayMint(b, user, protocol, author, tip, fee).value, CertDeposit, Deposits(Insert(c, t, row).cold))
    ensures Total(PayMint(b, user, protocol, author, tip, fee).value) == Total(b)
  {
    hide Owed, Insert, Deposits, Total;
    var b1 := b.Transfer(user, protocol, ProtocolShare(fee, tip)).value;
    TransferConserves(b, user, protocol, ProtocolShare(fee, tip));
    var b2 := if author.Some? then b1.Transfer(user, author.value, tip).value else b1;
    if author.Some? {
      TransferConserves(b1, user, author.value, tip);
    }
    SolventFrame(b, b2, CertDeposit, Deposits(c.cold));
    InsertPays(b2, c, t, row);
  }

  lemma InsertKeepsKeys(c: Certs, t: Thumbprint, row: ColdRow)
    requires row.template in c.live
    ensures Insert(c, t, row).live.Keys == c.live.Keys
  {
  }

  lemma MintKeeps(s: State, user: Account, nonce: nat, createdAt: nat, a: MintArgs)
    requires Inv(s)
    ensures Keeps(s, MintCert(s, user, nonce, createdAt, a))
  {
    hide Agreed, Insert, PayMint, Deposits, Solvent, Total;
    var r := MintCert(s, user, nonce, createdAt, a);
    if r.Ok? {
      var offer := s.registry.offers[nonce];
      var k := (offer.issuer, offer.template);
      var root := s.registry.issuers[offer.issuer].root;
      var fee := MintFee(s.registry.templates[k].popRequired, a.verdict);
      var t := Thumbprint(root, offer.issuer, user, s.now + offer.ttl, a.body);
      var row := ColdRow(Deposit(fee), user, k, a.verdict);
      assert k in s.certs.live.Keys;
      assert Vacant(s.certs, t, row);
      InsertAgrees(s.certs, t, row);
      InsertKeepsKeys(s.certs, t, row);
      PayMintPays(s.bank, user, a.protocol, a.author, a.tip, fee, s.certs, t, row);
      MintOffers(s, r.value, nonce);
    }
  }

  lemma MintOffers(s: State, s': State, nonce: nat)
    requires Offered(s) && s'.registry.offers == s.registry.offers - {nonce}
    requires s'.certs.live.Keys == s.certs.live.Keys && s'.registry.templates == s.registry.templates
    ensures Offered(s')
  {
  }

  /** What a reissue leaves room for. */
  lemma ReissueVacates(s: State, caller: Account, t: Thumbprint, u: Thumbprint, v: Verdict)
    requires Agreed(s.certs) && Live(s, t) && caller == t.issuer
    requires u.root == t.root && u.issuer == t.issuer && u.user == t.user
    requires !EkTaken(Remove(s.certs, t), t.root, v)
    ensures Vacant(Remove(s.certs, t), u, ColdRow(CERT_DEPOSIT, caller, s.certs.cold[t].template, v))
  {
    RemoveVacates(s.certs, t);
    assert s.certs.cold[t].template.0 == t.issuer;
    hide Agreed, Remove;
    assert s.certs.cold[t].template in Remove(s.certs, t).live.Keys;
  }

  lemma HotRowIs(c: Certs, t: Thumbprint)
    requires Agreed(c) && t in c.hot
    ensures c.hot[t] == HotRow(c.hot[t].active, t.expiry, t.root, t.issuer, t.user)
  {
  }

  lemma ReissueKeeps(s: State, caller: Account, t: Thumbprint, v: Verdict, ttl: nat, body: nat)
    requires Inv(s)
    ensures Keeps(s, Reissue(s, caller, t, v, ttl, body))
  {
    hide Agreed, Insert, Remove, Deposits, Solvent, Total;
    var r := Reissue(s, caller, t, v, ttl, body);
    if r.Ok? {
      var row := s.certs.cold[t];
      HotRowIs(s.certs, t);
      var s1 := Drop(s, t, row.funder);
      var u := Thumbprint(t.root, t.issuer, t.user, s.now + ttl, body);
      var next := ColdRow(CERT_DEPOSIT, caller, row.template, v);
      ReissueVacates(s, caller, t, u, v);
      DropKeeps(s, t, row.funder);
      InsertAgrees(s1.certs, u, next);
      InsertKeepsKeys(s1.certs, u, next);
      InsertPays(s1.bank, s1.certs, u, next);
    }
  }

  // ---------- The hook ----------

  lemma ExpireKeeps(s: State, t: Thumbprint)
    requires Inv(s)
    ensures Inv(Expire(s, t)) && Expire(s, t).bank == s.bank
  {
    if Live(s, t) {
      DeactivateKeeps(s, t);
      hide Agreed, Solvent;
    }
  }

  lemma {:induction false} ExpireEachKeeps(s: State, due: seq<Thumbprint>)
    requires Inv(s)
    ensures Inv(ExpireEach(s, due)) && ExpireEach(s, due).bank == s.bank
    decreases |due|
  {
    hide Inv, Expire;
    if due != [] {
      ExpireKeeps(s, due[0]);
      ExpireEachKeeps(Expire(s, due[0]), due[1..]);
    }
  }

  lemma {:induction false} ReapEachKeeps(s: State, due: seq<Thumbprint>)
    requires Inv(s)
    ensures Inv(ReapEach(s, due)) && Total(ReapEach(s, due).bank) == Total(s.bank)
    decreases |due|
  {
    hide Inv, Drop, Total;
    if due != [] {
      if Live(s, due[0]) {
        DropKeeps(s, due[0], s.certs.cold[due[0]].funder);
      }
      ReapEachKeeps(Reap(s, due[0]), due[1..]);
    }
  }

  /** The clock and the schedule play no part in the invariant. */
  lemma ScheduleIsFree(s: State, now: nat, schedule: Schedule)
    requires Inv(s)
    ensures Inv(s.(now := now)) && Inv(s.(schedule := schedule))
  {
    hide Agreed, Solvent;
  }

  lemma HookKeeps(s: State)
    requires Inv(s)
    ensures Inv(OnInitialize(s)) && Total(OnInitialize(s).bank) == Total(s.bank)
  {
    hide Inv, ExpireEach, ReapEach, Total, Bucket;
    var expiring := Bucket(s.schedule.expiry, s.now);
    var s0 := s.(schedule := s.schedule.(expiry := s.schedule.expiry - {s.now}));
    ScheduleIsFree(s, s.now, s.schedule.(expiry := s.schedule.expiry - {s.now}));
    ExpireEachKeeps(s0, expiring);
    var s1 := ExpireEach(s0, expiring);
    var leaving := Bucket(s1.schedule.purge, s.now);
    ScheduleIsFree(s1, s1.now, s1.schedule.(purge := s1.schedule.purge - {s.now}));
    NowStands(s0, expiring);
    ReapEachKeeps(s1.(schedule := s1.schedule.(purge := s1.schedule.purge - {s.now})), leaving);
  }

  lemma {:induction false} NowStands(s: State, due: seq<Thumbprint>)
    ensures ExpireEach(s, due).now == s.now
    decreases |due|
  {
    if due != [] {
      NowStands(Expire(s, due[0]), due[1..]);
    }
  }

  // ---------- Steps and runs ----------

  lemma LifeKeeps(s: State, op: Op)
    requires Inv(s)
    requires op.OpSuspendCert? || op.OpSelfDiscard? || op.OpCleanup?
    ensures Keeps(s, Apply(s, op))
  {
    hide Inv, Deactivate, Drop, Total;
    var t := op.t;
    if Live(s, t) {
      DeactivateKeeps(s, t);
      DropKeeps(s, t, s.certs.cold[t].funder);
      if op.OpCleanup? && op.recipient.Some? {
        DropKeeps(s, t, op.recipient.value);
      }
      assert Deactivate(s, t).bank == s.bank by { DeactivateFree(s, t); }
    }
  }

  lemma DeactivateFree(s: State, t: Thumbprint)
    requires t in s.certs.hot
    ensures Deactivate(s, t).bank == s.bank
  {
  }

  lemma StepKeeps(s: State, op: Op)
    requires Inv(s)
    ensures Inv(Next(s, op)) && Total(Next(s, op).bank) == Total(s.bank)
  {
    hide Inv, Total, OnInitialize, MintCert, Reissue, CreateTemplate, DiscardTemplate;
    match op
    case OpCreateTemplate(caller, name, pop) => TemplateKeeps(s, caller, name, pop);
    case OpDiscardTemplate(caller, name) => DiscardKeeps(s, caller, name);
    case OpMintCert(caller, nonce, createdAt, a) => MintKeeps(s, caller, nonce, createdAt, a);
    case OpReissue(caller, t, v, ttl, body) => ReissueKeeps(s, caller, t, v, ttl, body);
    case OpSuspendCert(_, _) => LifeKeeps(s, op);
    case OpSelfDiscard(_, _, _) => LifeKeeps(s, op);
    case OpCleanup(_, _) => LifeKeeps(s, op);
    case OpNextBlock =>
      ScheduleIsFree(s, s.now + 1, s.schedule);
      HookKeeps(s.(now := s.now + 1));
    case OpSkipTo(block) =>
      ScheduleIsFree(s, if s.now <= block then block else s.now, s.schedule);
    case _ => RegistryKeeps(s, op);
  }

  lemma {:induction false} RunKeeps(s: State, ops: seq<Op>)
    requires Inv(s)
    ensures Inv(Run(s, ops)) && Total(Run(s, ops).bank) == Total(s.bank)
    decreases |ops|
  {
    hide Inv, Next, Total;
    if ops != [] {
      StepKeeps(s, ops[0]);
      RunKeeps(Next(s, ops[0]), ops[1..]);
    }
  }

  lemma GenesisIsSound(free: map<Account, nat>)
    ensures Inv(Genesis(free))
  {
    var s := Genesis(free);
    forall who ensures s.bank.Held(CertDeposit, who) == Owed(Deposits(s.certs.cold), who) {
      assert Shares(Deposits(s.certs.cold), who) == map[];
    }
    assert s.certs.byIssuer == (set t | t in s.certs.hot :: (t.issuer, t));
    assert s.certs.byUser == (set t | t in s.certs.hot :: (t.user, t));
    assert s.certs.byRoot == (set t | t in s.certs.hot :: (t.root, t));
  }

  // ---------- Reachable states ----------

  /** What some run leads to, from a chain that holds no certificate. */
  ghost predicate Reachable(s: State) {
    exists free: map<Account, nat>, ops: seq<Op> :: s == Run(Genesis(free), ops)
  }

  lemma ReachableIsSound(s: State)
    requires Reachable(s)
    ensures Inv(s)
  {
    var free: map<Account, nat>, ops: seq<Op> :| s == Run(Genesis(free), ops);
    GenesisIsSound(free);
    RunKeeps(Genesis(free), ops);
  }
}
