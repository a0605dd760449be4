/** What holds of every certificate, device, template and deposit, whatever run led to the state. */
module PkiHistory {
  import opened Wrappers
  import opened Balances
  import opened MintFees
  import opened PkiTypes
  import opened PkiSteps
  import opened PkiInvariants
  import opened PkiRuns
  import opened PkiSchedule

  // ---------- Indexes ----------

  /** Looking a certificate up by issuer, by user, by root or by pair finds the live ones, and only those. */
  lemma IndexesAreProjections(s: State, t: Thumbprint)
    requires Reachable(s)
    ensures t in s.certs.hot <==> t in s.certs.cold
    ensures forall a :: (a, t) in s.certs.byIssuer <==> t in s.certs.hot && a == s.certs.hot[t].issuer
    ensures forall a :: (a, t) in s.certs.byUser <==> t in s.certs.hot && a == s.certs.hot[t].user
    ensures forall a :: (a, t) in s.certs.byRoot <==> t in s.certs.hot && a == s.certs.hot[t].root
    ensures forall k :: k in s.certs.userIssuer && s.certs.userIssuer[k] == t
               <==> t in s.certs.hot && k == (s.certs.hot[t].user, s.certs.hot[t].issuer)
  {
    ReachableIsSound(s);
    hide Devices, Counted, Sponsored, Solvent;
    assert t in s.certs.hot.Keys <==> t in s.certs.cold.Keys;
  }

  lemma OneCertPerPair(s: State, t: Thumbprint, u: Thumbprint)
    requires Reachable(s) && t in s.certs.hot && u in s.certs.hot
    requires s.certs.hot[t].user == s.certs.hot[u].user && s.certs.hot[t].issuer == s.certs.hot[u].issuer
    ensures t == u
  {
    ReachableIsSound(s);
    hide Projected, Devices, Counted, Sponsored, Solvent;
  }

  // ---------- Devices ----------

  /** No run certifies one device twice under one root. */
  lemma OneCertPerDevice(s: State, t: Thumbprint, u: Thumbprint)
    requires Reachable(s) && t in s.certs.cold && u in s.certs.cold
    requires s.certs.cold[t].verdict.Tpm? && s.certs.cold[u].verdict == s.certs.cold[t].verdict
    requires t.root == u.root
    ensures t == u
  {
    ReachableIsSound(s);
    hide Paired, Projected, Resolved, Counted, Sponsored, Solvent;
  }

  /** The gate is shut exactly while a live certificate under that root names the device. */
  lemma DeviceGate(s: State, root: Account, v: Verdict)
    requires Reachable(s)
    ensures EkTaken(s.certs, root, v)
       <==> v.Tpm? && exists t :: t in s.certs.cold && t.root == root && s.certs.cold[t].verdict == v
  {
    ReachableIsSound(s);
    hide Paired, Projected, Resolved, Counted, Sponsored, Solvent;
    if EkTaken(s.certs, root, v) {
      var t := s.certs.eks[(root, v.ek)];
      assert t in s.certs.cold && t.root == root && s.certs.cold[t].verdict == v;
    }
  }

  /** The root in whose name a step is taken, if it is taken in the name of one. */
  function RootOf(s: State, op: Op): Option<Account> {
    match op
    case OpMintCert(_, nonce, _, _) =>
      if nonce in s.registry.offers && s.registry.offers[nonce].issuer in s.registry.issuers
      then Some(s.registry.issuers[s.registry.offers[nonce].issuer].root) else None
    case OpSelfDiscard(_, t, _) => Some(t.root)
    case OpReissue(_, t, _, _, _) => Some(t.root)
    case OpCleanup(t, _) => Some(t.root)
    case _ => None
  }

  ghost predicate SameGate(c: Certs, d: Certs, root: Account) {
    forall v :: EkTaken(c, root, v) <==> EkTaken(d, root, v)
  }

  lemma InsertGate(c: Certs, t: Thumbprint, row: ColdRow, root: Account)
    requires t.root != root
    ensures SameGate(c, Insert(c, t, row), root)
  {
  }

  lemma RemoveGate(c: Certs, t: Thumbprint, root: Account)
    requires Paired(c) && t in c.hot && t.root != root
    ensures SameGate(c, Remove(c, t), root)
  {
  }

  lemma MintGate(s: State, user: Account, nonce: nat, createdAt: nat, a: MintArgs, root: Account)
    requires MintCert(s, user, nonce, createdAt, a).Ok?
    requires s.registry.issuers[s.registry.offers[nonce].issuer].root != root
    ensures SameGate(s.certs, MintCert(s, user, nonce, createdAt, a).value.certs, root)
  {
    hide Insert, PayMint, SameGate;
    var offer := s.registry.offers[nonce];
    var k := (offer.issuer, offer.template);
    var t := Thumbprint(s.registry.issuers[offer.issuer].root, offer.issuer, user, s.now + offer.ttl, a.body);
    var fee := MintFee(s.registry.templates[k].popRequired, a.verdict);
    InsertGate(s.certs, t, ColdRow(Deposit(fee), user, k, a.verdict), root);
  }

  lemma ReissueGate(s: State, caller: Account, t: Thumbprint, v: Verdict, ttl: nat, body: nat, root: Account)
    requires Paired(s.certs) && Reissue(s, caller, t, v, ttl, body).Ok? && t.root != root
    ensures SameGate(s.certs, Reissue(s, caller, t, v, ttl, body).value.certs, root)
  {
    var h := s.certs.hot[t];
    assert h.root == t.root;
    RemoveGate(s.certs, t, root);
    hide Insert, Remove, Paired;
    var u := Thumbprint(h.root, h.issuer, h.user, s.now + ttl, body);
    InsertGate(Remove(s.certs, t), u, ColdRow(CERT_DEPOSIT, caller, s.certs.cold[t].template, v), root);
  }

  /** What one root does never changes which devices another will take. */
  lemma RootsAreIndependent(s: State, op: Op, root: Account)
    requires Inv(s) && !op.OpNextBlock? && RootOf(s, op) != Some(root)
    ensures SameGate(s.certs, Next(s, op).certs, root)
  {
    assert Paired(s.certs);
    hide Inv, Paired, Insert, Remove, MintCert, Reissue, SameGate;
    GateIsEks(s.certs, s.certs, root);
    if op.OpMintCert? {
      if Apply(s, op).Ok? {
        MintHasRoot(s, op.caller, op.nonce, op.createdAt, op.a);
        MintGate(s, op.caller, op.nonce, op.createdAt, op.a, root);
      }
    } else if op.OpReissue? {
      if Apply(s, op).Ok? {
        ReissueGate(s, op.caller, op.t, op.v, op.ttl, op.body, root);
      }
    } else if op.OpSelfDiscard? || op.OpCleanup? {
      DropGate(s, op, root);
    } else {
      RegistryGate(s, op);
      assert SameGate(s.certs, Next(s, op).certs, root) by { GateIsEks(s.certs, Next(s, op).certs, root); }
    }
  }

  lemma GateIsEks(c: Certs, d: Certs, root: Account)
    requires c.eks == d.eks
    ensures SameGate(c, d, root)
  {
  }

  lemma DropGate(s: State, op: Op, root: Account)
    requires Paired(s.certs) && (op.OpSelfDiscard? || op.OpCleanup?) && op.t.root != root
    ensures SameGate(s.certs, Next(s, op).certs, root)
  {
    GateIsEks(s.certs, s.certs, root);
    if Live(s, op.t) {
      RemoveGate(s.certs, op.t, root);
    }
    hide Paired, Remove, SameGate;
  }

  lemma RegistryGate(s: State, op: Op)
    requires !op.OpMintCert? && !op.OpReissue? && !op.OpSelfDiscard? && !op.OpCleanup? && !op.OpNextBlock?
    ensures Next(s, op).certs.eks == s.certs.eks
  {
  }

  lemma MintHasRoot(s: State, user: Account, nonce: nat, createdAt: nat, a: MintArgs)
    requires MintCert(s, user, nonce, createdAt, a).Ok?
    ensures nonce in s.registry.offers && s.registry.offers[nonce].issuer in s.registry.issuers
  {
  }

  /** A certificate that names no device leaves the registry of devices alone. */
  lemma SoftMintSkipsTheGate(s: State, user: Account, nonce: nat, createdAt: nat, a: MintArgs)
    requires !a.verdict.Tpm?
    ensures MintCert(s, user, nonce, createdAt, a) != Err(EkAlreadyRegistered)
    ensures MintCert(s, user, nonce, createdAt, a).Ok? ==>
      MintCert(s, user, nonce, createdAt, a).value.certs.eks == s.certs.eks
  {
    hide PayMint;
    if nonce in s.registry.offers {
      assert !EkTaken(s.certs, s.registry.offers[nonce].issuer, a.verdict);
      PayMintErrors(s.bank, user, a.protocol, a.author, a.tip, MINT_FEE_POP);
      PayMintErrors(s.bank, user, a.protocol, a.author, a.tip, MINT_FEE_PACKED);
      PayMintErrors(s.bank, user, a.protocol, a.author, a.tip, MINT_FEE_NONE);
    }
  }

  lemma PayMintErrors(b: Bank, user: Account, protocol: Account, author: Option<Account>, tip: nat, fee: nat)
    ensures PayMint(b, user, protocol, author, tip, fee).Ok?
         || PayMint(b, user, protocol, author, tip, fee).error in {FundsUnavailable, TipAboveCap}
  {
  }

  // ---------- Templates ----------

  /** A template can be discarded exactly when no certificate under it is left. */
  lemma DiscardNeedsNoCert(s: State, issuer: Account, name: string)
    requires Reachable(s)
    ensures DiscardTemplate(s, issuer, name).Ok?
       <==> (issuer, name) in s.registry.templates
            && forall t :: t in s.certs.cold ==> s.certs.cold[t].template != (issuer, name)
  {
    ReachableIsSound(s);
    hide Paired, Projected, Resolved, Devices, Sponsored, Solvent;
    if (issuer, name) in s.registry.templates {
      assert (issuer, name) in s.certs.live.Keys;
      NoneUnder(s.certs, (issuer, name));
    }
  }

  /** The template of every live certificate exists, is its issuer's, and counts it among those under it. */
  lemma TemplateCountsItsCerts(s: State, k: TemplateKey)
    requires Reachable(s)
    ensures k in s.registry.templates ==> k in s.certs.live && s.certs.live[k] == |Under(s.certs.cold, k)|
    ensures k !in s.registry.templates ==> Under(s.certs.cold, k) == {}
    ensures forall t :: t in Under(s.certs.cold, k) ==> t.issuer == k.0
  {
    ReachableIsSound(s);
    hide Paired, Projected, Resolved, Devices, Solvent;
    assert k in s.registry.templates.Keys <==> k in s.certs.live.Keys;
  }

  // ---------- Deposits ----------

  /** Each account has on hold exactly the deposits of the live certificates it funds. */
  lemma DepositsAreHeld(s: State, who: Account)
    requires Reachable(s)
    ensures s.bank.Held(CertDeposit, who) == Owed(Deposits(s.certs.cold), who)
    ensures forall t :: t in s.certs.cold ==> s.certs.cold[t].funder in {t.user, t.issuer}
  {
    ReachableIsSound(s);
    hide Paired, Projected, Resolved, Devices, Counted, Owed;
  }

  // ---------- Who can end a certificate ----------

  /** The steps that may change the rows of a certificate, and when. */
  ghost predicate MayTouch(s: State, op: Op, t: Thumbprint) {
    match op
    case OpSuspendCert(caller, u) => u == t && caller == t.issuer
    case OpReissue(caller, u, _, _, _) => u == t && caller == t.issuer
    case OpSelfDiscard(caller, u, _) => u == t && caller == t.user
    case OpCleanup(u, _) => u == t && Reapable(s, t)
    case OpNextBlock =>
      t.expiry == s.now + 1
      || (t in s.certs.hot && !s.certs.hot[t].active && t.expiry + INACTIVE_PURGE_PERIOD == s.now + 1)
    case _ => false
  }

  /** The rows of `t` are what they were. */
  ghost predicate Stands(s: State, s': State, t: Thumbprint) {
    Live(s, t) && Live(s', t) && s'.certs.hot[t] == s.certs.hot[t] && s'.certs.cold[t] == s.certs.cold[t]
  }

  lemma InsertSpares(c: Certs, u: Thumbprint, row: ColdRow, t: Thumbprint)
    requires t in c.hot && t in c.cold && t != u
    ensures t in Insert(c, u, row).hot && t in Insert(c, u, row).cold
    ensures Insert(c, u, row).hot[t] == c.hot[t] && Insert(c, u, row).cold[t] == c.cold[t]
  {
  }

  lemma MintSpares(s: State, user: Account, nonce: nat, createdAt: nat, a: MintArgs, t: Thumbprint)
    requires Resolved(s.certs) && Live(s, t) && MintCert(s, user, nonce, createdAt, a).Ok?
    ensures Stands(s, MintCert(s, user, nonce, createdAt, a).value, t)
  {
    assert (t.user, t.issuer) in s.certs.userIssuer;
    hide Insert, PayMint, Resolved;
    var offer := s.registry.offers[nonce];
    var k := (offer.issuer, offer.template);
    var u := Thumbprint(s.registry.issuers[offer.issuer].root, offer.issuer, user, s.now + offer.ttl, a.body);
    var row := ColdRow(Deposit(MintFee(s.registry.templates[k].popRequired, a.verdict)), user, k, a.verdict);
    InsertSpares(s.certs, u, row, t);
  }

  lemma ReissueSpares(s: State, caller: Account, u: Thumbprint, v: Verdict, ttl: nat, body: nat, t: Thumbprint)
    requires Paired(s.certs) && Resolved(s.certs) && Live(s, t) && t != u
    requires Reissue(s, caller, u, v, ttl, body).Ok?
    ensures Stands(s, Reissue(s, caller, u, v, ttl, body).value, t)
  {
    assert (t.user, t.issuer) != (u.user, u.issuer);
    assert s.certs.hot[u] == HotRow(s.certs.hot[u].active, u.expiry, u.root, u.issuer, u.user);
    RemoveRows(s.certs, u);
    hide Insert, Remove, Resolved, Paired;
    var w := Thumbprint(u.root, u.issuer, u.user, s.now + ttl, body);
    InsertSpares(Remove(s.certs, u), w, ColdRow(CERT_DEPOSIT, caller, s.certs.cold[u].template, v), t);
  }

  lemma HookSpares(s: State, t: Thumbprint)
    requires Paired(s.certs) && Filed(s.schedule) && Live(s, t) && t.expiry != s.now + 1
    requires s.certs.hot[t].active || t.expiry + INACTIVE_PURGE_PERIOD != s.now + 1
    ensures Stands(s, OnInitialize(Tick(s)), t)
  {
    var p := Tick(s);
    var s0 := p.(schedule := p.schedule.(expiry := p.schedule.expiry - {p.now}));
    var due := Bucket(p.schedule.expiry, p.now);
    var s1 := TakeExpiry(p);
    assert t !in due && t !in Due(s.certs.hot, due);
    assert s0.certs.hot.Keys == s0.certs.cold.Keys;
    assert t in Bucket(p.schedule.purge, p.now) ==> t.expiry + INACTIVE_PURGE_PERIOD == p.now;
    HookIsTwoTakes(p);
    ExpireEachFlips(s0, due);
    ExpireEachFiles(s0, due, p.now, t);
    hide Paired, Filed, ExpireEach, ReapEach, Due, OnInitialize, Bucket;
    assert s1.certs.hot[t] == s.certs.hot[t] && s1.certs.hot.Keys == s1.certs.cold.Keys;
    ReapEachDrops(s1.(schedule := s1.schedule.(purge := s1.schedule.purge - {p.now})),
                  Bucket(s1.schedule.purge, p.now));
  }

  lemma LifeSpares(s: State, op: Op, t: Thumbprint)
    requires op.OpSuspendCert? || op.OpSelfDiscard? || op.OpCleanup?
    requires Paired(s.certs) && Live(s, t) && !MayTouch(s, op, t)
    ensures Stands(s, Next(s, op), t)
  {
    assert s.certs.hot[t] == HotRow(s.certs.hot[t].active, t.expiry, t.root, t.issuer, t.user);
    if !op.OpSuspendCert? && Live(s, op.t) {
      RemoveRows(s.certs, op.t);
    }
    hide Remove, Paired;
  }

  lemma RegistrySpares(s: State, op: Op, t: Thumbprint)
    requires !op.OpSuspendCert? && !op.OpSelfDiscard? && !op.OpCleanup? && !op.OpMintCert? && !op.OpReissue?
    requires Live(s, t) && !op.OpNextBlock?
    ensures Stands(s, Next(s, op), t)
  {
  }

  /** Nobody but its issuer and its user can touch a certificate before its time; not even the root of its issuer. */
  lemma TouchedOnlyBy(s: State, op: Op, t: Thumbprint)
    requires Inv(s) && Filed(s.schedule) && Live(s, t) && !MayTouch(s, op, t)
    ensures Stands(s, Next(s, op), t)
  {
    assert Paired(s.certs) && Resolved(s.certs);
    assert s.certs.hot[t] == HotRow(s.certs.hot[t].active, t.expiry, t.root, t.issuer, t.user);
    hide Inv, Filed, MintCert, Reissue, OnInitialize, Resolved, Paired, Remove, Insert;
    if op.OpMintCert? {
      if Apply(s, op).Ok? {
        MintSpares(s, op.caller, op.nonce, op.createdAt, op.a, t);
      }
    } else if op.OpReissue? {
      if Apply(s, op).Ok? {
        ReissueIsByIssuer(s, op.caller, op.t, op.v, op.ttl, op.body);
        ReissueSpares(s, op.caller, op.t, op.v, op.ttl, op.body, t);
      }
    } else if op.OpNextBlock? {
      HookSpares(s, t);
    } else if op.OpSuspendCert? || op.OpSelfDiscard? || op.OpCleanup? {
      LifeSpares(s, op, t);
    } else {
      RegistrySpares(s, op, t);
    }
  }

  lemma ReissueIsByIssuer(s: State, caller: Account, t: Thumbprint, v: Verdict, ttl: nat, body: nat)
    requires Reissue(s, caller, t, v, ttl, body).Ok?
    ensures Live(s, t) && s.certs.hot[t].issuer == caller
  {
  }

  // ---------- The life of a certificate ----------

  /** The schedule files every entry under its own block, whether or not hooks are skipped. */
  lemma StepFiles(s: State, op: Op)
    requires Paired(s.certs) && Filed(s.schedule)
    ensures Filed(Next(s, op).schedule)
  {
    if op.OpNextBlock? {
      hide Paired, OnInitialize, Bucket;
      var s' := OnInitialize(Tick(s));
      forall b, t ensures t in Bucket(s'.schedule.expiry, b) ==> t.expiry == b {
        HookFilesOwn(s, b, t);
      }
      forall b, t ensures t in Bucket(s'.schedule.purge, b) ==> t.expiry + INACTIVE_PURGE_PERIOD == b {
        HookFilesOwn(s, b, t);
      }
    } else if (op.OpMintCert? || op.OpReissue?) && Apply(s, op).Ok? {
      FiledMore(s, op);
    } else {
      hide MintCert, Reissue, Paired, Filed, Remove;
    }
  }

  lemma HookFilesOwn(s: State, b: nat, t: Thumbprint)
    requires Paired(s.certs) && Filed(s.schedule)
    ensures t in Bucket(OnInitialize(Tick(s)).schedule.expiry, b) ==> t.expiry == b
    ensures t in Bucket(OnInitialize(Tick(s)).schedule.purge, b) ==> t.expiry + INACTIVE_PURGE_PERIOD == b
  {
    var p := Tick(s);
    var s0 := p.(schedule := p.schedule.(expiry := p.schedule.expiry - {p.now}));
    var due := Bucket(p.schedule.expiry, p.now);
    var s1 := TakeExpiry(p);
    assert s0.certs.hot.Keys == s0.certs.cold.Keys;
    assert t in Bucket(p.schedule.expiry, b) ==> t.expiry == b;
    assert t in Bucket(p.schedule.purge, b) ==> t.expiry + INACTIVE_PURGE_PERIOD == b;
    assert t in due ==> t.expiry == p.now;
    hide Paired, Filed, ExpireEach, ReapEach, Due, OnInitialize;
    HookIsTwoTakes(p);
    ExpireEachFlips(s0, due);
    ExpireEachFiles(s0, due, b, t);
    assert s1.certs.hot.Keys == s1.certs.cold.Keys;
    ReapEachDrops(s1.(schedule := s1.schedule.(purge := s1.schedule.purge - {p.now})),
                  Bucket(s1.schedule.purge, p.now));
  }

  lemma FiledMore(s: State, op: Op)
    requires Filed(s.schedule) && (op.OpMintCert? || op.OpReissue?) && Apply(s, op).Ok?
    ensures Filed(Apply(s, op).value.schedule)
  {
    hide PayMint, Insert, Remove, Bucket, File;
    var s' := Apply(s, op).value;
    forall b, u ensures u in Bucket(s'.schedule.expiry, b) ==> u.expiry == b {
      if op.OpMintCert? {
        var offer := s.registry.offers[op.nonce];
        var root := s.registry.issuers[offer.issuer].root;
        var t := Thumbprint(root, offer.issuer, op.caller, s.now + offer.ttl, op.a.body);
        FileFiles(s.schedule.expiry, t.expiry, t, b, u);
      } else {
        var h := s.certs.hot[op.t];
        var t := Thumbprint(h.root, h.issuer, h.user, s.now + op.ttl, op.body);
        FileFiles(s.schedule.expiry, t.expiry, t, b, u);
      }
    }
  }

  /** The call succeeds in suspending, replacing or discarding `t`, as only its issuer or its user can. */
  predicate ActsOn(s: State, op: Op, t: Thumbprint) {
    (op.OpSuspendCert? || op.OpReissue? || op.OpSelfDiscard?) && op.t == t && Apply(s, op).Ok?
  }

  /** No call of the run succeeds in acting on `t`. */
  ghost predicate LeftAlone(s: State, ops: seq<Op>, t: Thumbprint)
    decreases |ops|
  {
    ops != [] ==> !ActsOn(s, ops[0], t) && LeftAlone(Next(s, ops[0]), ops[1..], t)
  }

  lemma OnlyTheirsAct(s: State, op: Op, t: Thumbprint)
    requires Paired(s.certs) && ActsOn(s, op, t)
    ensures Live(s, t) && op.caller == (if op.OpSelfDiscard? then t.user else t.issuer)
  {
  }

  /** A certificate nobody acts on is active up to its expiry, and present up to the end of its grace. */
  ghost predicate InTime(s: State, t: Thumbprint) {
    if s.now < t.expiry + INACTIVE_PURGE_PERIOD
    then Live(s, t) && (s.certs.hot[t].active <==> s.now < t.expiry)
    else !Live(s, t)
  }

  /** A new certificate is one that has still to expire. */
  lemma NewcomersExpireLater(s: State, op: Op, t: Thumbprint)
    requires Offered(s) && !op.OpNextBlock? && t !in s.certs.hot && t in Next(s, op).certs.hot
    ensures s.now < t.expiry
  {
    hide PayMint, Offered;
    if op.OpMintCert? {
      hide Remove;
      OffersLast(s, op.nonce);
    }
  }

  lemma OffersLast(s: State, nonce: nat)
    requires Offered(s)
    ensures nonce in s.registry.offers ==> s.registry.offers[nonce].ttl > 0
  {
  }

  lemma ClockMovesOn(s: State, op: Op)
    ensures Next(s, op).now >= s.now
    ensures !op.OpNextBlock? && !op.OpSkipTo? ==> Next(s, op).now == s.now
    ensures op.OpNextBlock? ==> Next(s, op).now == s.now + 1
    ensures op.OpSkipTo? ==>
      Next(s, op) == s.(now := Next(s, op).now) && Next(s, op).now == if op.block < s.now then s.now else op.block
  {
    if op.OpNextBlock? {
      var s1 := TakeExpiry(Tick(s));
      HookIsTwoTakes(Tick(s));
      hide TakeExpiry, OnInitialize;
      ReapNowStands(s1.(schedule := s1.schedule.(purge := s1.schedule.purge - {s.now + 1})),
                    Bucket(s1.schedule.purge, s.now + 1));
    } else {
      hide PayMint, Insert, Remove;
    }
  }

  lemma {:induction false} ReapNowStands(s: State, due: seq<Thumbprint>)
    ensures ReapEach(s, due).now == s.now
    decreases |due|
  {
    hide Remove;
    if due != [] {
      ReapNowStands(Reap(s, due[0]), due[1..]);
    }
  }

  lemma TurnsInTime(s: State, s': State, t: Thumbprint)
    requires Turns(Tick(s), s') && (t in s.certs.hot <==> t in s.certs.cold)
    requires t in s.certs.hot && s.now >= t.expiry ==> s.now < t.expiry + INACTIVE_PURGE_PERIOD
    requires InTime(s, t)
    ensures InTime(s', t)
  {
    ExpiringIsNow(s.certs.hot, t, s.now + 1);
    hide Expiring, Leaving, Wealth;
    assert t in s'.certs.hot <==> t in s.certs.hot && t.expiry + INACTIVE_PURGE_PERIOD != s.now + 1;
    assert t in s'.certs.cold <==> t in s.certs.cold && t.expiry + INACTIVE_PURGE_PERIOD != s.now + 1 by { hide Flip; }
  }

  lemma BlockInTime(s: State, t: Thumbprint)
    requires Paired(s.certs) && Filed(s.schedule) && OnTime(s) && InTime(s, t)
    ensures InTime(Next(s, OpNextBlock), t)
  {
    SameKeys(s.certs, t);
    assert t in s.certs.hot && s.now >= t.expiry ==> s.now < t.expiry + INACTIVE_PURGE_PERIOD;
    hide Paired, Filed, OnTime, OnInitialize, TakeExpiry, Turns, InTime;
    HookTurns(s);
    TurnsInTime(s, OnInitialize(Tick(s)), t);
  }

  /** Whatever else happens, a certificate nobody succeeds in acting on stands until one of its own blocks. */
  lemma SparedUnlessActedOn(s: State, op: Op, t: Thumbprint)
    requires Inv(s) && Filed(s.schedule) && Live(s, t) && !ActsOn(s, op, t)
    requires op.OpNextBlock? ==> !MayTouch(s, op, t)
    requires op.OpCleanup? ==> !Reapable(s, t)
    ensures Stands(s, Next(s, op), t)
  {
    assert Paired(s.certs);
    hide Inv, Filed, Paired, Reapable;
    if Apply(s, op).Ok? {
      TouchedOnlyBy(s, op, t);
    }
  }

  lemma StepInTime(s: State, op: Op, t: Thumbprint)
    requires Inv(s) && Filed(s.schedule) && OnTime(s) && InTime(s, t)
    requires !op.OpSkipTo? && !ActsOn(s, op, t)
    ensures InTime(Next(s, op), t)
  {
    assert Paired(s.certs) && Offered(s);
    hide Inv, Paired, Filed, OnTime, Apply, Offered;
    if op.OpNextBlock? {
      BlockInTime(s, t);
    } else {
      ClockMovesOn(s, op);
      if s.now < t.expiry + INACTIVE_PURGE_PERIOD {
        SparedUnlessActedOn(s, op, t);
      } else if Live(Next(s, op), t) {
        assert t in s.certs.hot <==> t in s.certs.cold by { SameKeys(s.certs, t); }
        NewcomersExpireLater(s, op, t);
      }
    }
  }

  lemma SameKeys(c: Certs, t: Thumbprint)
    requires Paired(c)
    ensures t in c.hot <==> t in c.cold
  {
    assert t in c.hot.Keys <==> t in c.cold.Keys;
  }

  /**
   Whatever everyone else does, a certificate nobody acts on is active exactly until the block it
   expires in, and stays exactly until its grace is over.
   */
  lemma {:induction false} LifeIsAnInterval(s: State, ops: seq<Op>, t: Thumbprint)
    requires Inv(s) && Filed(s.schedule) && OnTime(s) && InTime(s, t)
    requires LeftAlone(s, ops, t) && forall op :: op in ops ==> !op.OpSkipTo?
    ensures InTime(Run(s, ops), t)
    decreases |ops|
  {
    hide Inv, Filed, OnTime, InTime, Next, ActsOn;
    if ops != [] {
      StepInTime(s, ops[0], t);
      StepOnTime(s, ops[0]);
      StepKeeps(s, ops[0]);
      LifeIsAnInterval(Next(s, ops[0]), ops[1..], t);
    }
  }

  /** While every block has its hook, nothing is left for anyone to clean up. */
  lemma CleanupNeedsASkippedHook(s: State, t: Thumbprint, recipient: Option<Account>)
    requires Inv(s) && OnTime(s)
    ensures Cleanup(s, t, recipient).Err?
  {
    if Live(s, t) {
      HotRowIs(s.certs, t);
    }
    hide Inv;
  }

  /**
   The premise of the schedule is needed: once the clock has passed the expiry of an active
   certificate without its hook, no later hook ends it, and cleaning up does not either.
   */
  lemma {:induction false} OverdueIsForgotten(s: State, ops: seq<Op>, t: Thumbprint)
    requires Inv(s) && Filed(s.schedule) && LeftAlone(s, ops, t)
    requires Live(s, t) && s.certs.hot[t].active && t.expiry <= s.now
    ensures Stands(s, Run(s, ops), t)
    decreases |ops|
  {
    if ops != [] {
      var s1, op := Next(s, ops[0]), ops[0];
      assert Paired(s.certs);
      SparedUnlessActedOn(s, op, t);
      hide Inv, Filed, Paired, Next, ActsOn;
      ClockMovesOn(s, op);
      StepKeeps(s, op);
      StepFiles(s, op);
      OverdueIsForgotten(s1, ops[1..], t);
    }
  }
}
