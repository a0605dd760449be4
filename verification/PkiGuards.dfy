/** Exactly when each extrinsic of the certificate system succeeds, what it costs, and what it then has written. */
module PkiGuards {
  import opened Wrappers
  import opened Balances
  import opened MintFees
  import opened PkiTypes
  import opened PkiSteps
  import opened PkiInvariants
  import opened PkiEffects

  // ---------- Proxies, roots and issuers ----------

  /** The definitions of an account, however they are ordered. */
  function Definitions(r: Registry, a: Account): multiset<Account> {
    if a in r.proxies then multiset(r.proxies[a]) else multiset{}
  }

  lemma {:induction false} TakesOneOut(proxies: seq<Account>, proxy: Account)
    requires proxy in proxies
    ensures multiset(Undelegated(proxies, proxy)) == multiset(proxies) - multiset{proxy}
  {
    assert proxies == [proxies[0]] + proxies[1..];
    if proxies[0] != proxy {
      TakesOneOut(proxies[1..], proxy);
    }
  }

  /** Adding a proxy adds one definition of the caller, and concerns nobody else's. */
  lemma AddProxyAdds(s: State, caller: Account, proxy: Account, a: Account)
    ensures var r := AddProxy(s, caller, proxy);
      && r.Ok? && r.value == s.(registry := s.registry.(proxies := r.value.registry.proxies))
      && Definitions(r.value.registry, a)
         == Definitions(s.registry, a) + if a == caller then multiset{proxy} else multiset{}
  {
  }

  lemma RemovalLeaves(proxies: map<Account, seq<Account>>, caller: Account, rest: seq<Account>, r: Registry, a: Account)
    requires r.proxies == if rest == [] then proxies - {caller} else proxies[caller := rest]
    ensures Definitions(r, caller) == multiset(rest)
    ensures a != caller ==> Definitions(r, a) == Definitions(r.(proxies := proxies), a)
  {
  }

  /** Removing one takes one definition away, if there is one; removing all leaves the caller none. */
  lemma RemoveProxyTakes(s: State, caller: Account, proxy: Account, a: Account)
    ensures var r := RemoveProxy(s, caller, proxy);
      && (r.Ok? <==> proxy in Definitions(s.registry, caller))
      && (r.Err? ==> r.error == DelegateNotFound)
      && (r.Ok? ==>
            && r.value == s.(registry := s.registry.(proxies := r.value.registry.proxies))
            && Definitions(r.value.registry, a)
               == Definitions(s.registry, a) - if a == caller then multiset{proxy} else multiset{})
    ensures var r := RemoveProxies(s, caller);
      && r.Ok? && r.value == s.(registry := s.registry.(proxies := r.value.registry.proxies))
      && Definitions(r.value.registry, a) == if a == caller then multiset{} else Definitions(s.registry, a)
  {
    if HasProxy(s.registry.proxies, caller, proxy) {
      TakesOneOut(s.registry.proxies[caller], proxy);
      var rest := Undelegated(s.registry.proxies[caller], proxy);
      hide Undelegated;
      RemovalLeaves(s.registry.proxies, caller, rest, RemoveProxy(s, caller, proxy).value.registry, a);
    }
  }

  /** A root is whoever asks to be one and has the delegate it names; that is all that changes. */
  lemma RegisterRootSucceeds(s: State, caller: Account, proxy: Account)
    ensures var r := RegisterRoot(s, caller, proxy);
      && (r.Ok? <==> proxy in Definitions(s.registry, caller))
      && (r.Err? ==> r.error == ProxyNotFound)
      && (r.Ok? ==> r.value == s.(registry := s.registry.(roots := r.value.registry.roots))
                    && forall a :: a in r.value.registry.roots <==> a in s.registry.roots || a == caller)
  {
  }

  /** An issuer is entered once, by a root, with a delegate, and answers to that root. */
  lemma IssueIssuerSucceeds(s: State, caller: Account, issuer: Account, proxy: Account)
    ensures var r := IssueIssuer(s, caller, issuer, proxy);
      && (r.Ok? <==> caller in s.registry.roots && proxy in Definitions(s.registry, issuer)
                     && issuer !in s.registry.issuers)
      && (caller !in s.registry.roots ==> r == Err(RootNotFound))
      && (caller in s.registry.roots && proxy !in Definitions(s.registry, issuer) ==> r == Err(ProxyNotFound))
      && (r.Ok? ==>
            && r.value == s.(registry := s.registry.(issuers := r.value.registry.issuers))
            && issuer in r.value.registry.issuers && r.value.registry.issuers - {issuer} == s.registry.issuers
            && r.value.registry.issuers[issuer].root == caller && !r.value.registry.issuers[issuer].compromised)
  {
    if IssueIssuer(s, caller, issuer, proxy).Ok? {
      assert IssueIssuer(s, caller, issuer, proxy).value.registry.issuers - {issuer} == s.registry.issuers;
    }
  }

  // ---------- Templates and offers ----------

  /** An issuer makes each of its templates once; it starts active, with the requirement it was given. */
  lemma CreateTemplateSucceeds(s: State, issuer: Account, name: string, popRequired: bool)
    requires Inv(s)
    ensures var (k, r) := ((issuer, name), CreateTemplate(s, issuer, name, popRequired));
      && (r.Ok? <==> issuer in s.registry.issuers && k !in s.registry.templates)
      && (issuer !in s.registry.issuers ==> r == Err(IssuerNotFound))
      && (r.Ok? ==>
            && k in r.value.registry.templates && r.value.registry.templates - {k} == s.registry.templates
            && r.value.registry.templates[k].active && r.value.registry.templates[k].popRequired == popRequired
            && k in r.value.certs.live && r.value.certs.live[k] == 0)
  {
    var r := CreateTemplate(s, issuer, name, popRequired);
    if r.Ok? {
      assert r.value.registry.templates - {(issuer, name)} == s.registry.templates;
    }
    hide Inv;
  }

  /** Whoever made a template can switch it off, and nothing else of it changes. */
  lemma DeactivateTemplateSucceeds(s: State, issuer: Account, name: string)
    ensures var (k, r) := ((issuer, name), DeactivateTemplate(s, issuer, name));
      && (r.Ok? <==> k in s.registry.templates)
      && (r.Ok? ==>
            && r.value == s.(registry := s.registry.(templates := r.value.registry.templates))
            && k in r.value.registry.templates && r.value.registry.templates - {k} == s.registry.templates - {k}
            && !r.value.registry.templates[k].active
            && r.value.registry.templates[k].popRequired == s.registry.templates[k].popRequired)
  {
    var r := DeactivateTemplate(s, issuer, name);
    if r.Ok? {
      assert r.value.registry.templates - {(issuer, name)} == s.registry.templates - {(issuer, name)};
    }
  }

  /** The offer on file under a nonce. */
  predicate OnFile(s: State, nonce: nat, issuer: Account, user: Account, template: string, ttl: nat, createdAt: nat) {
    && nonce in s.registry.offers
    && s.registry.offers[nonce].issuer == issuer && s.registry.offers[nonce].user == user
    && s.registry.offers[nonce].template == template && s.registry.offers[nonce].ttl == ttl
    && s.registry.offers[nonce].createdAt == createdAt
  }

  /** An issuer can offer under a template of its own that is active; the offer is filed as it was made, and found. */
  lemma OfferSucceeds(s: State, issuer: Account, user: Account, ttl: nat, name: string, nonce: nat)
    ensures var (k, r) := ((issuer, name), OfferContract(s, issuer, user, ttl, name, nonce));
      && (r.Ok? <==> issuer in s.registry.issuers && k in s.registry.templates && s.registry.templates[k].active
                     && ttl > 0 && nonce !in s.registry.offers)
      && (issuer in s.registry.issuers && k in s.registry.templates && !s.registry.templates[k].active ==>
            r == Err(TemplateInactive))
      && (r.Ok? ==>
            && OnFile(r.value, nonce, issuer, user, name, ttl, s.now)
            && r.value.registry.offers - {nonce} == s.registry.offers
            && (issuer, user) in r.value.registry.offerIndex && r.value.registry.offerIndex[(issuer, user)] == nonce)
  {
    var r := OfferContract(s, issuer, user, ttl, name, nonce);
    if r.Ok? {
      assert r.value.registry.offers - {nonce} == s.registry.offers;
    }
  }

  // ---------- Mint ----------

  /** What a mint costs: one unit with proof of personhood, and else one and a half for Packed, or two. */
  predicate Costs(popRequired: bool, v: Verdict, cost: int) {
    && (popRequired ==> cost == UNIT)
    && (!popRequired && v.Packed? ==> cost == UNIT + UNIT / 2)
    && (!popRequired && !v.Packed? ==> cost == 2 * UNIT)
  }

  lemma CostIsFee(popRequired: bool, v: Verdict, cost: nat)
    requires Costs(popRequired, v, cost)
    ensures cost == MintFee(popRequired, v)
  {
  }

  /** The user pays the cost for the tier, however user, protocol and author coincide; a tenth of a unit is held. */
  lemma MintCosts(s: State, user: Account, nonce: nat, createdAt: nat, args: MintArgs, cost: nat, a: Account)
    requires MintCert(s, user, nonce, createdAt, args).Ok?
    requires nonce in s.registry.offers ==>
      var k := (s.registry.offers[nonce].issuer, s.registry.offers[nonce].template);
      k in s.registry.templates ==> Costs(s.registry.templates[k].popRequired, args.verdict, cost)
    ensures UNIT / 10 + args.tip <= cost
    ensures var (b, b') := (s.bank, MintCert(s, user, nonce, createdAt, args).value.bank);
      && b'.Free(a) + If(a == user, cost)
         == b.Free(a) + If(a == args.protocol, cost - UNIT / 10 - args.tip) + If(args.author == Some(a), args.tip)
      && b'.Held(CertDeposit, a) == b.Held(CertDeposit, a) + If(a == user, UNIT / 10)
  {
    MintOk(s, user, nonce, createdAt, args);
    var k := (s.registry.offers[nonce].issuer, s.registry.offers[nonce].template);
    hide MintCert, PayMint, Costs, MintFee, Insert;
    CostIsFee(s.registry.templates[k].popRequired, args.verdict, cost);
    TiersSplit(s.registry.templates[k].popRequired, args.verdict);
    PayMintSplits(s.bank, user, args.protocol, args.author, args.tip, cost, a);
  }

  /** For a user who is neither protocol nor author, that is what a mint takes out of its free balance. */
  lemma MintTakesCost(s: State, user: Account, nonce: nat, createdAt: nat, args: MintArgs)
    requires MintCert(s, user, nonce, createdAt, args).Ok? && args.protocol != user && args.author != Some(user)
    ensures nonce in s.registry.offers
    ensures var k := (s.registry.offers[nonce].issuer, s.registry.offers[nonce].template);
      && k in s.registry.templates
      && Costs(s.registry.templates[k].popRequired, args.verdict,
               s.bank.Free(user) - MintCert(s, user, nonce, createdAt, args).value.bank.Free(user))
  {
    MintOk(s, user, nonce, createdAt, args);
    var k := (s.registry.offers[nonce].issuer, s.registry.offers[nonce].template);
    var pop := s.registry.templates[k].popRequired;
    hide MintCert, PayMint, Insert;
    MintCosts(s, user, nonce, createdAt, args,
              if pop then UNIT else if args.verdict.Packed? then UNIT + UNIT / 2 else 2 * UNIT, user);
  }

  /** The tip is at most forty percent, and nothing without an author; the user pays share, tip and deposit in turn. */
  predicate CanPayMint(free: nat, user: Account, a: MintArgs, cost: nat)
    requires UNIT <= cost
  {
    && (a.author.None? ==> a.tip == 0) && 5 * a.tip <= 2 * cost
    && var (share, paid) := (cost - UNIT / 10 - a.tip, if a.protocol == user then 0 else cost - UNIT / 10 - a.tip);
    && share <= free
    && paid + a.tip <= free
    && paid + (if a.author == Some(user) then 0 else a.tip) + UNIT / 10 <= free
  }

  lemma TipCapIsFortyPercent(cost: nat)
    requires cost in {UNIT, UNIT + UNIT / 2, 2 * UNIT}
    ensures 5 * TipCap(cost) == 2 * cost
  {
  }

  /** Two payments and a hold, one after the other. */
  function InTurn(b: Bank, user: Account, protocol: Account, share: nat, author: Option<Account>, tip: nat,
                  deposit: nat): Option<Bank>
  {
    match b.Transfer(user, protocol, share)
    case None => None
    case Some(b1) =>
      match (if author.Some? then b1.Transfer(user, author.value, tip) else Some(b1))
      case None => None
      case Some(b2) => b2.Hold(CertDeposit, user, deposit)
  }

  lemma InTurnSucceeds(b: Bank, user: Account, protocol: Account, share: nat, author: Option<Account>, tip: nat,
                       deposit: nat)
    requires author.None? ==> tip == 0
    ensures var paid := if protocol == user then 0 else share;
      InTurn(b, user, protocol, share, author, tip, deposit).Some? <==>
        && share <= b.Free(user) && paid + tip <= b.Free(user)
        && paid + (if author == Some(user) then 0 else tip) + deposit <= b.Free(user)
  {
    if share <= b.Free(user) {
      var b1 := b.Transfer(user, protocol, share).value;
      TransferMoves(b, user, protocol, share, user);
      if author.Some? && tip <= b1.Free(user) {
        TransferMoves(b1, user, author.value, tip, user);
      }
    }
  }

  lemma PayMintInTurn(b: Bank, user: Account, a: MintArgs, cost: nat)
    requires Fits(cost)
    ensures var r := PayMint(b, user, a.protocol, a.author, a.tip, cost);
      if a.tip > TipCap(cost) || (a.author.None? && a.tip > 0) then r == Err(TipAboveCap)
      else
        && (r.Ok? <==> InTurn(b, user, a.protocol, ProtocolShare(cost, a.tip), a.author, a.tip, Deposit(cost)).Some?)
        && (r.Err? ==> r.error == FundsUnavailable)
  {
    hide Deposit, TipCap, ProtocolShare, Fits;
  }

  lemma PayMintSucceeds(b: Bank, user: Account, a: MintArgs, cost: nat)
    requires cost in {UNIT, UNIT + UNIT / 2, 2 * UNIT}
    ensures var r := PayMint(b, user, a.protocol, a.author, a.tip, cost);
      && (r.Ok? <==> CanPayMint(b.Free(user), user, a, cost))
      && (r == Err(TipAboveCap) <==> 5 * a.tip > 2 * cost || (a.author.None? && a.tip > 0))
  {
    hide Deposit, TipCap, ProtocolShare, ProtocolSlice, Fits, PayMint, InTurn;
    ConfiguredTiers(cost);
    SplitIsExact(cost, 0);
    TipCapIsFortyPercent(cost);
    PayMintInTurn(b, user, a, cost);
    if a.tip <= TipCap(cost) && (a.author.None? ==> a.tip == 0) {
      SplitIsExact(cost, a.tip);
      InTurnSucceeds(b, user, a.protocol, ProtocolShare(cost, a.tip), a.author, a.tip, UNIT / 10);
    }
  }

  /** The offer is the user's, its issuer and template exist, and where personhood must be proved it is. */
  predicate OfferStands(s: State, user: Account, nonce: nat, createdAt: nat, a: MintArgs) {
    nonce in s.registry.offers &&
    var offer := s.registry.offers[nonce];
    && offer.user == user && offer.createdAt == createdAt && offer.issuer in s.registry.issuers
    && (offer.issuer, offer.template) in s.registry.templates
    && (s.registry.templates[(offer.issuer, offer.template)].popRequired ==> a.verdict.Tpm? && a.hipValid)
  }

  /** No live certificate is of this user and issuer. */
  ghost predicate PairIsFree(c: Certs, user: Account, issuer: Account) {
    forall t :: t in c.hot ==> t.user != user || t.issuer != issuer
  }

  /** No live certificate under the root, save perhaps one, is for the device that the verdict names. */
  ghost predicate DeviceIsFree(c: Certs, root: Account, v: Verdict, save: set<Thumbprint>) {
    v.Tpm? ==> forall t :: t in c.cold && t !in save && t.root == root ==> c.cold[t].verdict != v
  }

  lemma PairMeansIndex(c: Certs, user: Account, issuer: Account)
    requires Resolved(c)
    ensures (user, issuer) !in c.userIssuer <==> PairIsFree(c, user, issuer)
  {
    if (user, issuer) in c.userIssuer {
      assert c.userIssuer[(user, issuer)] in c.hot;
    }
  }

  lemma DeviceMeansIndex(c: Certs, root: Account, v: Verdict)
    requires Devices(c)
    ensures !EkTaken(c, root, v) <==> DeviceIsFree(c, root, v, {})
  {
    if EkTaken(c, root, v) {
      assert c.eks[(root, v.ek)] in c.cold;
    }
  }

  lemma MintInOne(s: State, user: Account, nonce: nat, createdAt: nat, a: MintArgs)
    ensures var r := MintCert(s, user, nonce, createdAt, a);
      && (r.Ok? ==> OfferStands(s, user, nonce, createdAt, a))
      && (OfferStands(s, user, nonce, createdAt, a) ==>
            var offer := s.registry.offers[nonce];
            var root := s.registry.issuers[offer.issuer].root;
            var pop := s.registry.templates[(offer.issuer, offer.template)].popRequired;
            && ((user, offer.issuer) in s.certs.userIssuer ==> r == Err(AlreadyCertified))
            && ((user, offer.issuer) !in s.certs.userIssuer && EkTaken(s.certs, root, a.verdict) ==>
                  r == Err(EkAlreadyRegistered))
            && ((user, offer.issuer) !in s.certs.userIssuer && !EkTaken(s.certs, root, a.verdict) ==>
                  var paid := PayMint(s.bank, user, a.protocol, a.author, a.tip, MintFee(pop, a.verdict));
                  (r.Ok? <==> paid.Ok?) && (paid.Err? ==> r == Err(paid.error))))
  {
    hide PayMint, Insert, MintFee, EkTaken;
  }

  lemma IndexParts(s: State)
    requires Inv(s)
    ensures Resolved(s.certs) && Devices(s.certs) && Paired(s.certs)
  {
  }

  /**
   A mint goes through exactly if the offer stands, the user has no live certificate of the issuer, no live
   certificate under the root is for the device, and the user can pay what the tier costs.
   */
  lemma MintSucceeds(s: State, user: Account, nonce: nat, createdAt: nat, a: MintArgs, cost: nat)
    requires Inv(s) && UNIT <= cost
    requires OfferStands(s, user, nonce, createdAt, a) ==>
      Costs(s.registry.templates[(s.registry.offers[nonce].issuer, s.registry.offers[nonce].template)].popRequired,
            a.verdict, cost)
    ensures MintCert(s, user, nonce, createdAt, a).Ok? <==>
      && OfferStands(s, user, nonce, createdAt, a)
      && PairIsFree(s.certs, user, s.registry.offers[nonce].issuer)
      && DeviceIsFree(s.certs, s.registry.issuers[s.registry.offers[nonce].issuer].root, a.verdict, {})
      && CanPayMint(s.bank.Free(user), user, a, cost)
  {
    hide Inv, MintCert, PayMint, MintFee, Resolved, Devices, Paired, PairIsFree, DeviceIsFree, EkTaken, CanPayMint;
    MintInOne(s, user, nonce, createdAt, a);
    if OfferStands(s, user, nonce, createdAt, a) {
      IndexParts(s);
      var offer := s.registry.offers[nonce];
      CostIsFee(s.registry.templates[(offer.issuer, offer.template)].popRequired, a.verdict, cost);
      PairMeansIndex(s.certs, user, offer.issuer);
      DeviceMeansIndex(s.certs, s.registry.issuers[offer.issuer].root, a.verdict);
      PayMintSucceeds(s.bank, user, a, cost);
    }
  }

  /** How the refusals of a mint read. */
  lemma MintRefusals(s: State, user: Account, nonce: nat, createdAt: nat, a: MintArgs)
    requires Inv(s)
    ensures var r := MintCert(s, user, nonce, createdAt, a);
      && (r == Err(OfferNotFound) <==> nonce !in s.registry.offers)
      && (r == Err(OfferMismatch) <==>
            && nonce in s.registry.offers
            && (s.registry.offers[nonce].user != user || s.registry.offers[nonce].createdAt != createdAt))
      && (r == Err(AlreadyCertified) <==>
            && OfferStands(s, user, nonce, createdAt, a)
            && !PairIsFree(s.certs, user, s.registry.offers[nonce].issuer))
      && (r == Err(EkAlreadyRegistered) <==>
            && OfferStands(s, user, nonce, createdAt, a)
            && PairIsFree(s.certs, user, s.registry.offers[nonce].issuer)
            && !DeviceIsFree(s.certs, s.registry.issuers[s.registry.offers[nonce].issuer].root, a.verdict, {}))
  {
    hide Inv, PayMint, MintFee, Resolved, Devices, Paired, PairIsFree, DeviceIsFree, EkTaken, Insert;
    IndexParts(s);
    if nonce in s.registry.offers && s.registry.offers[nonce].issuer in s.registry.issuers {
      var offer := s.registry.offers[nonce];
      PairMeansIndex(s.certs, user, offer.issuer);
      DeviceMeansIndex(s.certs, s.registry.issuers[offer.issuer].root, a.verdict);
    }
    MintErrors(s, user, nonce, a);
  }

  lemma MintErrors(s: State, user: Account, nonce: nat, a: MintArgs)
    ensures forall pop: bool ::
      var r := PayMint(s.bank, user, a.protocol, a.author, a.tip, MintFee(pop, a.verdict));
      r.Err? ==> r.error in {FundsUnavailable, TipAboveCap}
  {
    hide MintFee;
  }

  // ---------- The life of a certificate ----------

  /** Only the holder discards, and not with an assertion that fails; the certificate is then gone. */
  lemma SelfDiscardSucceeds(s: State, caller: Account, t: Thumbprint, assertion: Option<bool>)
    requires Inv(s)
    ensures var r := SelfDiscard(s, caller, t, assertion);
      && (r.Ok? <==> t in s.certs.hot && caller == t.user && assertion != Some(false))
      && (t !in s.certs.hot ==> r == Err(CertNotFound))
      && (t in s.certs.hot && caller != t.user ==> r == Err(NotCertHolder))
      && (r.Ok? ==> r.value.certs.hot == s.certs.hot - {t} && r.value.certs.cold == s.certs.cold - {t}
                    && r.value.registry == s.registry && r.value.schedule == s.schedule)
  {
    KeysAgree(s, t);
    hide Inv;
  }

  lemma KeysAgree(s: State, t: Thumbprint)
    requires Inv(s)
    ensures t in s.certs.hot <==> t in s.certs.cold
    ensures t in s.certs.hot ==> s.certs.hot[t] == HotRow(s.certs.hot[t].active, t.expiry, t.root, t.issuer, t.user)
  {
    assert t in s.certs.hot.Keys <==> t in s.certs.cold.Keys;
  }

  /** The deposit of a discarded certificate goes back to whoever funded it, be it user or issuer. */
  lemma SelfDiscardRefunds(s: State, caller: Account, t: Thumbprint, assertion: Option<bool>, s': State, a: Account)
    requires Inv(s) && SelfDiscard(s, caller, t, assertion) == Ok(s')
    ensures t in s.certs.cold
    ensures var row := s.certs.cold[t];
      && s'.bank.Free(a) == s.bank.Free(a) + If(a == row.funder, row.deposit)
      && s'.bank.Held(CertDeposit, a) + If(a == row.funder, row.deposit) == s.bank.Held(CertDeposit, a)
  {
    hide Inv, Drop;
    DropMoves(s, t, s.certs.cold[t].funder, a);
  }

  /** Anyone cleans up, exactly a certificate that is inactive and whose grace is over. */
  lemma CleanupSucceeds(s: State, t: Thumbprint, recipient: Option<Account>)
    requires Inv(s)
    ensures var r := Cleanup(s, t, recipient);
      && (r.Ok? <==> t in s.certs.hot && !s.certs.hot[t].active && t.expiry + INACTIVE_PURGE_PERIOD <= s.now)
      && (t !in s.certs.hot ==> r == Err(CertNotFound))
      && (t in s.certs.hot && r.Err? ==> r.error == NotReapable)
      && (r.Ok? ==> r.value.certs.hot == s.certs.hot - {t} && r.value.certs.cold == s.certs.cold - {t}
                    && r.value.registry == s.registry && r.value.schedule == s.schedule)
  {
    KeysAgree(s, t);
    hide Inv;
  }

  /**
   A reissue goes through exactly for the issuer of a live certificate, for some time, if no other live
   certificate is for the device and the issuer, with the old deposit back if it was its own, has one unit.
   */
  lemma ReissueSucceeds(s: State, caller: Account, t: Thumbprint, v: Verdict, ttl: nat, body: nat)
    requires Inv(s)
    ensures t in s.certs.hot ==> t in s.certs.cold
    ensures Reissue(s, caller, t, v, ttl, body).Ok? <==>
      && t in s.certs.hot && caller == t.issuer && ttl > 0
      && DeviceIsFree(s.certs, t.root, v, {t})
      && UNIT <= s.bank.Free(caller) + If(s.certs.cold[t].funder == caller, s.certs.cold[t].deposit)
  {
    hide Inv, Remove, Resolved, Devices, Paired, EkTaken, Reissue, Drop, DeviceIsFree;
    KeysAgree(s, t);
    ReissueInOne(s, caller, t, v, ttl, body);
    if Live(s, t) {
      var s1 := Drop(s, t, s.certs.cold[t].funder);
      DropKeeps(s, t, s.certs.cold[t].funder);
      DropMoves(s, t, s.certs.cold[t].funder, caller);
      IndexParts(s1);
      DeviceMeansIndex(s1.certs, t.root, v);
      DeviceAfterDrop(s, t, v);
    }
  }

  lemma DeviceAfterDrop(s: State, t: Thumbprint, v: Verdict)
    requires Live(s, t)
    ensures DeviceIsFree(Drop(s, t, s.certs.cold[t].funder).certs, t.root, v, {})
       <==> DeviceIsFree(s.certs, t.root, v, {t})
  {
    var cold := Drop(s, t, s.certs.cold[t].funder).certs.cold;
    assert cold == s.certs.cold - {t};
    hide Drop;
    assert forall u :: u in cold <==> u in s.certs.cold && u !in {t};
  }

  lemma ReissueInOne(s: State, caller: Account, t: Thumbprint, v: Verdict, ttl: nat, body: nat)
    ensures Reissue(s, caller, t, v, ttl, body).Ok? <==>
      && Live(s, t) && s.certs.hot[t].issuer == caller && ttl > 0
      && !EkTaken(Drop(s, t, s.certs.cold[t].funder).certs, s.certs.hot[t].root, v)
      && CERT_DEPOSIT <= Drop(s, t, s.certs.cold[t].funder).bank.Free(caller)
  {
    hide Drop, Insert, EkTaken;
  }
}
