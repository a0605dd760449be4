/** What an issuer lays down stays: an offer until it is minted, the demands of a template while it exists. */
module PkiPromises {
  import opened Wrappers
  import opened Balances
  import opened PkiTypes
  import opened PkiSteps
  import opened PkiInvariants
  import opened PkiRuns
  import opened PkiSchedule
  import opened PkiTrust
  import opened PkiEffects
  import opened PkiGuards
  import opened PkiOffers

  // ---------- Offers ----------

  /** The call succeeds in minting the offer. */
  predicate Mints(s: State, op: Op, nonce: nat) {
    op.OpMintCert? && op.nonce == nonce && Apply(s, op).Ok?
  }

  /** An offer stays on file as it was made exactly if the step does not mint it. */
  lemma StepOnFile(s: State, op: Op, nonce: nat, issuer: Account, user: Account, template: string, ttl: nat,
                   createdAt: nat)
    requires OnFile(s, nonce, issuer, user, template, ttl, createdAt)
    ensures OnFile(Next(s, op), nonce, issuer, user, template, ttl, createdAt) <==> !Mints(s, op, nonce)
  {
    hide MintCert, Reissue, OnInitialize, Drop;
    if op.OpMintCert? {
      if Apply(s, op).Ok? {
        MintSpends(s, op.caller, op.nonce, op.createdAt, op.a);
      }
    } else if op.OpOfferContract? {
      OfferSucceeds(s, op.caller, op.user, op.ttl, op.name, op.nonce);
    } else {
      OthersKeepOffers(s, op);
    }
  }

  ghost predicate NeverMinted(s: State, ops: seq<Op>, nonce: nat)
    decreases |ops|
  {
    ops != [] ==> !Mints(s, ops[0], nonce) && NeverMinted(Next(s, ops[0]), ops[1..], nonce)
  }

  ghost predicate AlwaysOnFile(s: State, ops: seq<Op>, nonce: nat, issuer: Account, user: Account, template: string,
                               ttl: nat, createdAt: nat)
    decreases |ops|
  {
    && OnFile(s, nonce, issuer, user, template, ttl, createdAt)
    && (ops != [] ==> AlwaysOnFile(Next(s, ops[0]), ops[1..], nonce, issuer, user, template, ttl, createdAt))
  }

  /** So it does all along a run. */
  lemma {:induction false} OfferWaits(s: State, ops: seq<Op>, nonce: nat, issuer: Account, user: Account,
                                      template: string, ttl: nat, createdAt: nat)
    requires OnFile(s, nonce, issuer, user, template, ttl, createdAt)
    ensures AlwaysOnFile(s, ops, nonce, issuer, user, template, ttl, createdAt) <==> NeverMinted(s, ops, nonce)
    ensures NeverMinted(s, ops, nonce) ==> OnFile(Run(s, ops), nonce, issuer, user, template, ttl, createdAt)
    decreases |ops|
  {
    hide OnFile, Mints, Next;
    if ops != [] {
      StepOnFile(s, ops[0], nonce, issuer, user, template, ttl, createdAt);
      if !Mints(s, ops[0], nonce) {
        OfferWaits(Next(s, ops[0]), ops[1..], nonce, issuer, user, template, ttl, createdAt);
      }
    }
  }

  /** `t` is a live and active certificate up to `expiry`, under this template. */
  predicate Issued(c: Certs, t: Thumbprint, expiry: nat, template: TemplateKey) {
    && t in c.hot && t in c.cold && c.hot[t].active && c.hot[t].expiry == expiry && t.expiry == expiry
    && c.cold[t].template == template
  }

  /** The certificate that a mint under the nonce yields is for the time the issuer offered, counted from the mint. */
  lemma MintIsAsOffered(s: State, caller: Account, nonce: nat, quoted: nat, a: MintArgs, issuer: Account, user: Account,
                        template: string, ttl: nat, createdAt: nat, s': State)
    requires Inv(s) && OnFile(s, nonce, issuer, user, template, ttl, createdAt)
    requires MintCert(s, caller, nonce, quoted, a) == Ok(s')
    ensures caller == user && quoted == createdAt && issuer in s.registry.issuers
    ensures var t := Thumbprint(s.registry.issuers[issuer].root, issuer, user, s.now + ttl, a.body);
      && Issued(s'.certs, t, s.now + ttl, (issuer, template))
      && s'.certs.cold[t].funder == user && s'.certs.cold[t].verdict == a.verdict
  {
    MintHonoursOffer(s, caller, nonce, quoted, a, 0, a);
    MintRefusals(s, caller, nonce, quoted, a);
    MintWrites(s, caller, nonce, quoted, a);
    hide Inv, MintCert;
  }

  lemma MintWrites(s: State, user: Account, nonce: nat, createdAt: nat, a: MintArgs)
    requires MintCert(s, user, nonce, createdAt, a).Ok?
    ensures nonce in s.registry.offers && s.registry.offers[nonce].issuer in s.registry.issuers
    ensures var (c, t) := (MintCert(s, user, nonce, createdAt, a).value.certs, Minted(s, user, nonce, a));
      t in c.cold && c.cold[t].funder == user && c.cold[t].verdict == a.verdict
  {
    MintOk(s, user, nonce, createdAt, a);
    hide MintCert, PayMint, MintFee;
  }

  /** From the offer to the mint, whatever else happens: the user gets what the issuer offered, and for as long. */
  lemma OfferIsHonoured(s: State, issuer: Account, user: Account, ttl: nat, name: string, nonce: nat, s1: State,
                        ops: seq<Op>, caller: Account, quoted: nat, a: MintArgs, s': State)
    requires Inv(s) && OfferContract(s, issuer, user, ttl, name, nonce) == Ok(s1)
    requires NeverMinted(s1, ops, nonce) && MintCert(Run(s1, ops), caller, nonce, quoted, a) == Ok(s')
    ensures caller == user && quoted == s.now && issuer in Run(s1, ops).registry.issuers
    ensures var (root, expiry) := (Run(s1, ops).registry.issuers[issuer].root, Run(s1, ops).now + ttl);
      Issued(s'.certs, Thumbprint(root, issuer, user, expiry, a.body), expiry, (issuer, name))
  {
    hide Inv, OfferContract, MintCert, Run, OnFile, Issued;
    OfferSucceeds(s, issuer, user, ttl, name, nonce);
    OfferKeeps(s, issuer, user, ttl, name, nonce);
    OfferWaits(s1, ops, nonce, issuer, user, name, ttl, s.now);
    RunKeeps(s1, ops);
    MintIsAsOffered(Run(s1, ops), caller, nonce, quoted, a, issuer, user, name, ttl, s.now, s');
  }

  lemma OfferKeeps(s: State, issuer: Account, user: Account, ttl: nat, name: string, nonce: nat)
    requires Inv(s) && OfferContract(s, issuer, user, ttl, name, nonce).Ok?
    ensures Inv(OfferContract(s, issuer, user, ttl, name, nonce).value)
  {
    hide Inv, OfferContract;
    StepKeeps(s, OpOfferContract(issuer, user, ttl, name, nonce));
  }

  // ---------- Templates ----------

  predicate Discards(s: State, op: Op, k: TemplateKey) {
    op.OpDiscardTemplate? && (op.caller, op.name) == k && Apply(s, op).Ok?
  }

  predicate SwitchesOff(s: State, op: Op, k: TemplateKey) {
    op.OpDeactivateTemplate? && (op.caller, op.name) == k
  }

  /** A template goes only by being discarded; until then its demand stays, and only its issuer switches it off. */
  lemma StepTemplate(s: State, op: Op, k: TemplateKey)
    requires k in s.registry.templates
    ensures k in Next(s, op).registry.templates <==> !Discards(s, op, k)
    ensures k in Next(s, op).registry.templates ==>
      var (row, row') := (s.registry.templates[k], Next(s, op).registry.templates[k]);
      row'.popRequired == row.popRequired && (row'.active <==> row.active && !SwitchesOff(s, op, k))
  {
    hide PayMint, Insert, Drop, Deactivate, OnInitialize;
    if op.OpNextBlock? {
      HookKeepsRegistry(Tick(s));
    } else if op.OpSelfDiscard? || op.OpCleanup? || op.OpSuspendCert? || op.OpReissue? {
      LifeKeepsRegistry(s, op);
    }
  }

  ghost predicate NeverDiscarded(s: State, ops: seq<Op>, k: TemplateKey)
    decreases |ops|
  {
    ops != [] ==> !Discards(s, ops[0], k) && NeverDiscarded(Next(s, ops[0]), ops[1..], k)
  }

  /** A template demands what it was made to demand for as long as it is not discarded. */
  lemma {:induction false} DemandStays(s: State, ops: seq<Op>, k: TemplateKey)
    requires k in s.registry.templates
    ensures Remains(s, ops, k) <==> NeverDiscarded(s, ops, k)
    ensures NeverDiscarded(s, ops, k) ==>
      && k in Run(s, ops).registry.templates
      && Run(s, ops).registry.templates[k].popRequired == s.registry.templates[k].popRequired
    decreases |ops|
  {
    hide Next, Discards;
    if ops != [] {
      StepTemplate(s, ops[0], k);
      if !Discards(s, ops[0], k) {
        DemandStays(Next(s, ops[0]), ops[1..], k);
      }
    }
  }

  /**
   Under a template made to require proof of personhood, until it is discarded, no offer is ever minted but
   for a device that is named and whose proof holds.
   */
  lemma PersonhoodIsEnforced(s: State, issuer: Account, name: string, ops: seq<Op>, caller: Account, nonce: nat,
                             quoted: nat, a: MintArgs)
    requires Inv(s) && CreateTemplate(s, issuer, name, true).Ok?
    requires NeverDiscarded(CreateTemplate(s, issuer, name, true).value, ops, (issuer, name))
    ensures var s2 := Run(CreateTemplate(s, issuer, name, true).value, ops);
      && (issuer, name) in s2.registry.templates && s2.registry.templates[(issuer, name)].popRequired
      && (nonce in s2.registry.offers && s2.registry.offers[nonce].issuer == issuer
          && s2.registry.offers[nonce].template == name && !(a.verdict.Tpm? && a.hipValid) ==>
            MintCert(s2, caller, nonce, quoted, a).Err?)
  {
    hide Inv, CreateTemplate, MintCert, Run;
    CreateTemplateSucceeds(s, issuer, name, true);
    var s1 := CreateTemplate(s, issuer, name, true).value;
    DemandStays(s1, ops, (issuer, name));
    MintInOne(Run(s1, ops), caller, nonce, quoted, a);
  }
}
