/** What each extrinsic of the certificate system, and the hook that opens a block, does to its storage. */
module PkiSteps {
  import opened Wrappers
  import opened Sums
  import opened Balances
  import opened MintFees
  import opened PkiTypes

  type Outcome = Result<State, Error>

  function Funded(b: Option<Bank>): Result<Bank, Error> {
    if b.None? then Err(FundsUnavailable) else Ok(b.value)
  }

  // ---------- Rows and indexes ----------

  function Insert(c: Certs, t: Thumbprint, row: ColdRow): Certs {
    Certs(
      c.hot[t := HotRow(true, t.expiry, t.root, t.issuer, t.user)],
      c.cold[t := row],
      c.byIssuer + {(t.issuer, t)},
      c.byUser + {(t.user, t)},
      c.byRoot + {(t.root, t)},
      c.userIssuer[(t.user, t.issuer) := t],
      if row.verdict.Tpm? then c.eks[(t.root, row.verdict.ek) := t] else c.eks,
      Plus(c.live, row.template, 1))
  }

  function Remove(c: Certs, t: Thumbprint): Certs
    requires t in c.hot && t in c.cold
  {
    var h, row := c.hot[t], c.cold[t];
    Certs(
      c.hot - {t},
      c.cold - {t},
      c.byIssuer - {(h.issuer, t)},
      c.byUser - {(h.user, t)},
      c.byRoot - {(h.root, t)},
      c.userIssuer - {(h.user, h.issuer)},
      if row.verdict.Tpm? then c.eks - {(h.root, row.verdict.ek)} else c.eks,
      if At(c.live, row.template) > 0 then Minus(c.live, row.template, 1) else c.live)
  }

  predicate Live(s: State, t: Thumbprint) {
    t in s.certs.hot && t in s.certs.cold
  }

  /** Removes a certificate; its deposit leaves the hold of whoever funded it for `to`. */
  function Drop(s: State, t: Thumbprint, to: Account): State
    requires Live(s, t)
  {
    s.(bank := s.bank.Unhold(CertDeposit, s.certs.cold[t].funder, to, s.certs.cold[t].deposit),
       certs := Remove(s.certs, t))
  }

  /** A verdict that names a device under a root that has already certified it. */
  predicate EkTaken(c: Certs, root: Account, v: Verdict) {
    v.Tpm? && (root, v.ek) in c.eks
  }

  // ---------- Hierarchy ----------

  predicate HasProxy(proxies: map<Account, seq<Account>>, delegator: Account, delegatee: Account) {
    delegator in proxies && delegatee in proxies[delegator]
  }

  function AddProxy(s: State, caller: Account, proxy: Account): Outcome {
    var known := if caller in s.registry.proxies then s.registry.proxies[caller] else [];
    Ok(s.(registry := s.registry.(proxies := s.registry.proxies[caller := known + [proxy]])))
  }

  /** Removes the first definition that names the delegate; an account left without any is forgotten. */
  function Undelegated(proxies: seq<Account>, proxy: Account): seq<Account> {
    if proxies == [] then []
    else if proxies[0] == proxy then proxies[1..]
    else [proxies[0]] + Undelegated(proxies[1..], proxy)
  }

  function RemoveProxy(s: State, caller: Account, proxy: Account): Outcome {
    if !HasProxy(s.registry.proxies, caller, proxy) then Err(DelegateNotFound) else
    var rest := Undelegated(s.registry.proxies[caller], proxy);
    Ok(s.(registry := s.registry.(
            proxies := if rest == [] then s.registry.proxies - {caller} else s.registry.proxies[caller := rest])))
  }

  function RemoveProxies(s: State, caller: Account): Outcome {
    Ok(s.(registry := s.registry.(proxies := s.registry.proxies - {caller})))
  }

  function RegisterRoot(s: State, caller: Account, proxy: Account): Outcome {
    if !HasProxy(s.registry.proxies, caller, proxy) then Err(ProxyNotFound) else
    Ok(s.(registry := s.registry.(roots := s.registry.roots + {caller})))
  }

  function IssueIssuer(s: State, caller: Account, issuer: Account, proxy: Account): Outcome {
    if caller !in s.registry.roots then Err(RootNotFound) else
    :- Need(HasProxy(s.registry.proxies, issuer, proxy), ProxyNotFound);
    :- Need(issuer !in s.registry.issuers, IssuerExists);
    Ok(s.(registry := s.registry.(issuers := s.registry.issuers[issuer := Issuer(caller, false)])))
  }

  /** The record stays, marked as compromised; certificates under the issuer are left alone. */
  function InvalidateIssuer(s: State, caller: Account, issuer: Account): Outcome {
    if issuer !in s.registry.issuers then Err(IssuerNotFound) else
    :- Need(s.registry.issuers[issuer].root == caller, NotIssuersRoot);
    Ok(s.(registry := s.registry.(
            issuers := s.registry.issuers[issuer := s.registry.issuers[issuer].(compromised := true)])))
  }

  // ---------- Templates ----------

  function CreateTemplate(s: State, issuer: Account, name: string, popRequired: bool): Outcome {
    if issuer !in s.registry.issuers then Err(IssuerNotFound) else
    :- Need((issuer, name) !in s.registry.templates, TemplateExists);
    Ok(s.(registry := s.registry.(templates := s.registry.templates[(issuer, name) := Template(true, popRequired)]),
          certs := s.certs.(live := s.certs.live[(issuer, name) := 0])))
  }

  function DeactivateTemplate(s: State, issuer: Account, name: string): Outcome {
    if (issuer, name) !in s.registry.templates then Err(TemplateNotFound) else
    var k := (issuer, name);
    Ok(s.(registry := s.registry.(templates := s.registry.templates[k := s.registry.templates[k].(active := false)])))
  }

  function DiscardTemplate(s: State, issuer: Account, name: string): Outcome {
    if (issuer, name) !in s.registry.templates then Err(TemplateNotFound) else
    var k := (issuer, name);
    :- Need(At(s.certs.live, k) == 0, TemplateHasActiveCerts);
    Ok(s.(registry := s.registry.(templates := s.registry.templates - {k}),
          certs := s.certs.(live := s.certs.live - {k})))
  }

  // ---------- Offer and mint ----------

  function OfferContract(s: State, issuer: Account, user: Account, ttl: nat, name: string, nonce: nat): Outcome {
    if issuer !in s.registry.issuers then Err(IssuerNotFound) else
    :- Need((issuer, name) in s.registry.templates, TemplateNotFound);
    :- Need(s.registry.templates[(issuer, name)].active, TemplateInactive);
    :- Need(ttl > 0, InvalidTtl);
    :- Need(nonce !in s.registry.offers, NonceTaken);
    Ok(s.(registry := s.registry.(
            offers := s.registry.offers[nonce := CertOffer(issuer, user, name, ttl, s.now)],
            offerIndex := s.registry.offerIndex[(issuer, user) := nonce])))
  }

  function MintFee(popRequired: bool, v: Verdict): nat {
    if popRequired then MINT_FEE_POP else if v.Packed? then MINT_FEE_PACKED else MINT_FEE_NONE
  }

  /** The user pays the fee: protocol share and tip at once, the deposit as a hold. */
  function PayMint(b: Bank, user: Account, protocol: Account, author: Option<Account>, tip: nat, fee: nat)
    : Result<Bank, Error>
  {
    if !Fits(fee) || tip > (if author.Some? then TipCap(fee) else 0) then Err(TipAboveCap) else
    var b1 :- Funded(b.Transfer(user, protocol, ProtocolShare(fee, tip)));
    var b2 :- Funded(if author.Some? then b1.Transfer(user, author.value, tip) else Some(b1));
    Funded(b2.Hold(CertDeposit, user, Deposit(fee)))
  }

  /**
   What a mint is given: the attestation verdict, whether the proof of the device holds, what else
   goes into the certificate, the protocol's account, the block author and the tip paid to it.
   */
  datatype MintArgs = MintArgs(
    verdict: Verdict, hipValid: bool, body: nat, protocol: Account, author: Option<Account>, tip: nat)

  function MintCert(s: State, user: Account, nonce: nat, createdAt: nat, a: MintArgs): Outcome {
    if nonce !in s.registry.offers then Err(OfferNotFound) else
    var offer := s.registry.offers[nonce];
    var k := (offer.issuer, offer.template);
    :- Need(offer.user == user && offer.createdAt == createdAt, OfferMismatch);
    :- Need(offer.issuer in s.registry.issuers, IssuerNotFound);
    :- Need(k in s.registry.templates, TemplateNotFound);
    var pop := s.registry.templates[k].popRequired;
    :- Need(pop ==> a.verdict.Tpm?, PopRequired);
    :- Need(pop ==> a.hipValid, HipProofInvalid);
    :- Need((user, offer.issuer) !in s.certs.userIssuer, AlreadyCertified);
    var root := s.registry.issuers[offer.issuer].root;
    :- Need(!EkTaken(s.certs, root, a.verdict), EkAlreadyRegistered);
    var fee := MintFee(pop, a.verdict);
    var bank :- PayMint(s.bank, user, a.protocol, a.author, a.tip, fee);
    var t := Thumbprint(root, offer.issuer, user, s.now + offer.ttl, a.body);
    Ok(s.(bank := bank,
          registry := s.registry.(offers := s.registry.offers - {nonce},
                                  offerIndex := s.registry.offerIndex - {(offer.issuer, user)}),
          certs := Insert(s.certs, t, ColdRow(Deposit(fee), user, k, a.verdict)),
          schedule := s.schedule.(expiry := File(s.schedule.expiry, t.expiry, t))))
  }

  // ---------- A certificate's life ----------

  function Deactivate(s: State, t: Thumbprint): State
    requires t in s.certs.hot
  {
    s.(certs := s.certs.(hot := s.certs.hot[t := s.certs.hot[t].(active := false)]))
  }

  function SuspendCert(s: State, caller: Account, t: Thumbprint): Outcome {
    if !Live(s, t) then Err(CertNotFound) else
    :- Need(s.certs.hot[t].issuer == caller, NotCertIssuer);
    Ok(Deactivate(s, t))
  }

  /** With an assertion, its proof must hold; without one this is the recovery path. */
  function SelfDiscard(s: State, caller: Account, t: Thumbprint, assertion: Option<bool>): Outcome {
    if !Live(s, t) then Err(CertNotFound) else
    :- Need(s.certs.hot[t].user == caller, NotCertHolder);
    :- Need(assertion != Some(false), HipProofInvalid);
    Ok(Drop(s, t, s.certs.cold[t].funder))
  }

  /** The issuer replaces a certificate by a new one and funds the new deposit itself. */
  function Reissue(s: State, caller: Account, t: Thumbprint, v: Verdict, ttl: nat, body: nat): Outcome {
    if !Live(s, t) then Err(CertNotFound) else
    var h, row := s.certs.hot[t], s.certs.cold[t];
    :- Need(h.issuer == caller, NotCertIssuer);
    :- Need(ttl > 0, InvalidTtl);
    var s1 := Drop(s, t, row.funder);
    :- Need(!EkTaken(s1.certs, h.root, v), EkAlreadyRegistered);
    var bank :- Funded(s1.bank.Hold(CertDeposit, caller, CERT_DEPOSIT));
    var u := Thumbprint(h.root, h.issuer, h.user, s.now + ttl, body);
    Ok(s.(bank := bank,
          certs := Insert(s1.certs, u, ColdRow(CERT_DEPOSIT, caller, row.template, v)),
          schedule := s.schedule.(expiry := File(s.schedule.expiry, u.expiry, u))))
  }

  predicate Reapable(s: State, t: Thumbprint) {
    Live(s, t) && !s.certs.hot[t].active && s.certs.hot[t].expiry + INACTIVE_PURGE_PERIOD <= s.now
  }

  /** Anyone may reap; the deposit goes to whoever funded it, or where the caller directs it. */
  function Cleanup(s: State, t: Thumbprint, recipient: Option<Account>): Outcome {
    if !Live(s, t) then Err(CertNotFound) else
    :- Need(Reapable(s, t), NotReapable);
    Ok(Drop(s, t, if recipient.Some? then recipient.value else s.certs.cold[t].funder))
  }

  // ---------- The hook at the start of a block ----------

  /** An expiring certificate is suspended and filed for removal; an entry gone stale is skipped. */
  function Expire(s: State, t: Thumbprint): State {
    if Live(s, t) then
      Deactivate(s, t).(schedule := s.schedule.(purge := File(s.schedule.purge, s.now + INACTIVE_PURGE_PERIOD, t)))
    else s
  }

  function ExpireEach(s: State, due: seq<Thumbprint>): State
    decreases |due|
  {
    if due == [] then s else ExpireEach(Expire(s, due[0]), due[1..])
  }

  function Reap(s: State, t: Thumbprint): State {
    if Live(s, t) && !s.certs.hot[t].active then Drop(s, t, s.certs.cold[t].funder) else s
  }

  function ReapEach(s: State, due: seq<Thumbprint>): State
    decreases |due|
  {
    if due == [] then s else ReapEach(Reap(s, due[0]), due[1..])
  }

  /** Takes the two buckets of the block, and looks at nothing else. */
  function OnInitialize(s: State): State {
    var expiring := Bucket(s.schedule.expiry, s.now);
    var s1 := ExpireEach(s.(schedule := s.schedule.(expiry := s.schedule.expiry - {s.now})), expiring);
    var leaving := Bucket(s1.schedule.purge, s.now);
    ReapEach(s1.(schedule := s1.schedule.(purge := s1.schedule.purge - {s.now})), leaving)
  }

  // ---------- Runs ----------

  datatype Op =
    | OpAddProxy(caller: Account, proxy: Account)
    | OpRemoveProxy(caller: Account, proxy: Account)
    | OpRemoveProxies(caller: Account)
    | OpRegisterRoot(caller: Account, proxy: Account)
    | OpIssueIssuer(caller: Account, issuer: Account, proxy: Account)
    | OpInvalidateIssuer(caller: Account, issuer: Account)
    | OpCreateTemplate(caller: Account, name: string, popRequired: bool)
    | OpDeactivateTemplate(caller: Account, name: string)
    | OpDiscardTemplate(caller: Account, name: string)
    | OpOfferContract(caller: Account, user: Account, ttl: nat, name: string, nonce: nat)
    | OpMintCert(caller: Account, nonce: nat, createdAt: nat, a: MintArgs)
    | OpSuspendCert(caller: Account, t: Thumbprint)
    | OpSelfDiscard(caller: Account, t: Thumbprint, assertion: Option<bool>)
    | OpReissue(caller: Account, t: Thumbprint, v: Verdict, ttl: nat, body: nat)
    | OpCleanup(t: Thumbprint, recipient: Option<Account>)
    | OpNextBlock
    | OpSkipTo(block: nat)

  /** `OpSkipTo` moves the clock without running the hook. */
  function Apply(s: State, op: Op): Outcome {
    match op
    case OpAddProxy(caller, proxy) => AddProxy(s, caller, proxy)
    case OpRemoveProxy(caller, proxy) => RemoveProxy(s, caller, proxy)
    case OpRemoveProxies(caller) => RemoveProxies(s, caller)
    case OpRegisterRoot(caller, proxy) => RegisterRoot(s, caller, proxy)
    case OpIssueIssuer(caller, issuer, proxy) => IssueIssuer(s, caller, issuer, proxy)
    case OpInvalidateIssuer(caller, issuer) => InvalidateIssuer(s, caller, issuer)
    case OpCreateTemplate(caller, name, pop) => CreateTemplate(s, caller, name, pop)
    case OpDeactivateTemplate(caller, name) => DeactivateTemplate(s, caller, name)
    case OpDiscardTemplate(caller, name) => DiscardTemplate(s, caller, name)
    case OpOfferContract(caller, user, ttl, name, nonce) => OfferContract(s, caller, user, ttl, name, nonce)
    case OpMintCert(caller, nonce, createdAt, a) => MintCert(s, caller, nonce, createdAt, a)
    case OpSuspendCert(caller, t) => SuspendCert(s, caller, t)
    case OpSelfDiscard(caller, t, assertion) => SelfDiscard(s, caller, t, assertion)
    case OpReissue(caller, t, v, ttl, body) => Reissue(s, caller, t, v, ttl, body)
    case OpCleanup(t, recipient) => Cleanup(s, t, recipient)
    case OpNextBlock => Ok(OnInitialize(s.(now := s.now + 1)))
    case OpSkipTo(block) => Ok(s.(now := if s.now <= block then block else s.now))
  }

  function Next(s: State, op: Op): State {
    var r := Apply(s, op);
    if r.Ok? then r.value else s
  }

  function Run(s: State, ops: seq<Op>): State
    decreases |ops|
  {
    if ops == [] then s else Run(Next(s, ops[0]), ops[1..])
  }

  function Genesis(free: map<Account, nat>): State {
    State(1, Bank(free, map[]), Registry(map[], {}, map[], map[], map[], map[]),
          Certs(map[], map[], {}, {}, {}, map[], map[], map[]), Schedule(map[], map[]))
  }
}
