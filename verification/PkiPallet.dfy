/**
 The certificate system as storage that its extrinsics, and the hook of each block, update in
 place. `Dispatch` puts the storage back when an extrinsic fails after it has written.
 */
module PkiPallet {
  import opened Wrappers
  import opened Sums
  import opened Balances
  import opened MintFees
  import opened PkiTypes
  import opened PkiSteps
  import opened PkiInvariants
  import opened PkiRuns

  type Status = Result<(), Error>

  /** The outcome is the one specified; what a failure leaves behind is not. */
  ghost predicate Agrees(spec: Outcome, r: Status, after: State) {
    match spec
    case Ok(s) => r == Ok(()) && after == s
    case Err(e) => r == Err(e)
  }

  /** Whether one of the proxies of an account is the one asked about. */
  method AnyDelegate(proxies: seq<Account>, delegatee: Account) returns (found: bool)
    ensures found <==> exists i :: 0 <= i < |proxies| && proxies[i] == delegatee
  {
    found := false;
    for i := 0 to |proxies|
      invariant !found && forall j :: 0 <= j < i ==> proxies[j] != delegatee
    {
      if proxies[i] == delegatee {
        return true;
      }
    }
  }

  /** What a mint that passed every check comes to: the payment, and then the writes. */
  ghost function Settle(s: State, nonce: nat, fee: nat, t: Thumbprint, row: ColdRow, a: MintArgs): Outcome {
    var paid := PayMint(s.bank, t.user, a.protocol, a.author, a.tip, fee);
    if paid.Err? then Err(paid.error) else
    Ok(State(s.now, paid.value,
             s.registry.(offers := s.registry.offers - {nonce},
                         offerIndex := s.registry.offerIndex - {(t.issuer, t.user)}),
             Insert(s.certs, t, row),
             s.schedule.(expiry := File(s.schedule.expiry, t.expiry, t))))
  }

  /** What a reissue that passed its first checks comes to, once the old certificate is gone. */
  ghost function Substitute(s1: State, caller: Account, u: Thumbprint, row: ColdRow): Outcome {
    if EkTaken(s1.certs, u.root, row.verdict) then Err(EkAlreadyRegistered) else
    var held := s1.bank.Hold(CertDeposit, caller, CERT_DEPOSIT);
    if held.None? then Err(FundsUnavailable) else
    Ok(s1.(bank := held.value,
           certs := Insert(s1.certs, u, row),
           schedule := s1.schedule.(expiry := File(s1.schedule.expiry, u.expiry, u))))
  }

  lemma ReissueIsSubstitute(s: State, caller: Account, t: Thumbprint, v: Verdict, ttl: nat, body: nat)
    requires Live(s, t) && s.certs.hot[t].issuer == caller && ttl > 0
    ensures var (h, row) := (s.certs.hot[t], s.certs.cold[t]);
      PkiSteps.Reissue(s, caller, t, v, ttl, body)
      == Substitute(Drop(s, t, row.funder), caller, Thumbprint(h.root, h.issuer, h.user, s.now + ttl, body),
                    ColdRow(CERT_DEPOSIT, caller, row.template, v))
  {
    hide Insert, Remove, EkTaken, File;
  }

  lemma {:induction false} FirstUndelegated(proxies: seq<Account>, proxy: Account, i: nat)
    requires i < |proxies| && proxies[i] == proxy && forall j :: 0 <= j < i ==> proxies[j] != proxy
    ensures Undelegated(proxies, proxy) == proxies[..i] + proxies[i + 1..]
  {
    if i > 0 {
      FirstUndelegated(proxies[1..], proxy, i - 1);
    }
  }

  class Pallet {
    var now: nat
    var bank: Bank
    var proxies: map<Account, seq<Account>>
    var roots: set<Account>
    var issuers: map<Account, Issuer>
    var templates: map<TemplateKey, Template>
    var offers: map<nat, CertOffer>
    var offerIndex: map<(Account, Account), nat>
    var hot: map<Thumbprint, HotRow>
    var cold: map<Thumbprint, ColdRow>
    var byIssuer: set<(Account, Thumbprint)>
    var byUser: set<(Account, Thumbprint)>
    var byRoot: set<(Account, Thumbprint)>
    var userIssuer: map<(Account, Account), Thumbprint>
    var eks: map<(Account, nat), Thumbprint>
    var live: map<TemplateKey, nat>
    var expiryIndex: map<nat, seq<Thumbprint>>
    var purgeIndex: map<nat, seq<Thumbprint>>

    function RegistryView(): Registry
      reads `proxies, `roots, `issuers, `templates, `offers, `offerIndex
    {
      Registry(proxies, roots, issuers, templates, offers, offerIndex)
    }

    function CertsView(): Certs
      reads `hot, `cold, `byIssuer, `byUser, `byRoot, `userIssuer, `eks, `live
    {
      Certs(hot, cold, byIssuer, byUser, byRoot, userIssuer, eks, live)
    }

    function View(): State
      reads this
    {
      State(now, bank, RegistryView(), CertsView(), Schedule(expiryIndex, purgeIndex))
    }

    constructor (free: map<Account, nat>)
      ensures View() == Genesis(free) && Inv(View())
    {
      now, bank := 1, Bank(free, map[]);
      proxies, roots, issuers, templates, offers, offerIndex := map[], {}, map[], map[], map[], map[];
      hot, cold, byIssuer, byUser, byRoot := map[], map[], {}, {}, {};
      userIssuer, eks, live := map[], map[], map[];
      expiryIndex, purgeIndex := map[], map[];
      new;
      GenesisIsSound(free);
    }

    method RestoreRegistry(r: Registry)
      modifies `proxies, `roots, `issuers, `templates, `offers, `offerIndex
      ensures RegistryView() == r
    {
      proxies, roots, issuers, templates, offers, offerIndex :=
        r.proxies, r.roots, r.issuers, r.templates, r.offers, r.offerIndex;
    }

    method RestoreCerts(c: Certs)
      modifies `hot, `cold, `byIssuer, `byUser, `byRoot, `userIssuer, `eks, `live
      ensures CertsView() == c
    {
      hot, cold, byIssuer, byUser := c.hot, c.cold, c.byIssuer, c.byUser;
      byRoot, userIssuer, eks, live := c.byRoot, c.userIssuer, c.eks, c.live;
    }

    method RestoreRest(s: State)
      modifies `now, `bank, `expiryIndex, `purgeIndex
      ensures now == s.now && bank == s.bank && Schedule(expiryIndex, purgeIndex) == s.schedule
    {
      now, bank, expiryIndex, purgeIndex := s.now, s.bank, s.schedule.expiry, s.schedule.purge;
    }

    method Restore(s: State)
      modifies this
      ensures View() == s
    {
      RestoreRest(s);
      RestoreRegistry(s.registry);
      RestoreCerts(s.certs);
    }

    // ---------- Parts ----------

    method DoInsert(t: Thumbprint, row: ColdRow)
      modifies `hot, `cold, `byIssuer, `byUser, `byRoot, `userIssuer, `eks, `live
      ensures CertsView() == Insert(old(CertsView()), t, row)
    {
      hot := hot[t := HotRow(true, t.expiry, t.root, t.issuer, t.user)];
      cold := cold[t := row];
      byIssuer := byIssuer + {(t.issuer, t)};
      byUser := byUser + {(t.user, t)};
      byRoot := byRoot + {(t.root, t)};
      userIssuer := userIssuer[(t.user, t.issuer) := t];
      if row.verdict.Tpm? {
        eks := eks[(t.root, row.verdict.ek) := t];
      }
      live := Plus(live, row.template, 1);
    }

    /** Takes a certificate out of both primary maps and every index. */
    method RemoveCertEntry(t: Thumbprint)
      requires t in hot && t in cold
      modifies `hot, `cold, `byIssuer, `byUser, `byRoot, `userIssuer, `eks, `live
      ensures CertsView() == Remove(old(CertsView()), t)
    {
      var h, row := hot[t], cold[t];
      hot, cold := hot - {t}, cold - {t};
      byIssuer := byIssuer - {(h.issuer, t)};
      byUser := byUser - {(h.user, t)};
      byRoot := byRoot - {(h.root, t)};
      userIssuer := userIssuer - {(h.user, h.issuer)};
      if row.verdict.Tpm? {
        eks := eks - {(h.root, row.verdict.ek)};
      }
      if At(live, row.template) > 0 {
        live := Minus(live, row.template, 1);
      }
    }

    method DoDrop(t: Thumbprint, to: Account)
      requires Live(View(), t)
      modifies `bank, `hot, `cold, `byIssuer, `byUser, `byRoot, `userIssuer, `eks, `live
      ensures View() == Drop(old(View()), t, to)
    {
      hide Remove;
      var row := cold[t];
      RemoveCertEntry(t);
      bank := bank.Unhold(CertDeposit, row.funder, to, row.deposit);
    }

    method HasProxy(delegator: Account, delegatee: Account) returns (r: bool)
      ensures r == PkiSteps.HasProxy(proxies, delegator, delegatee)
    {
      if delegator !in proxies {
        return false;
      }
      r := AnyDelegate(proxies[delegator], delegatee);
    }

    // ---------- Hierarchy ----------

    method AddProxy(caller: Account, proxy: Account) returns (r: Status)
      modifies `proxies
      ensures Agrees(PkiSteps.AddProxy(old(View()), caller, proxy), r, View())
    {
      var known := if caller in proxies then proxies[caller] else [];
      proxies := proxies[caller := known + [proxy]];
      return Ok(());
    }

    method RemoveProxy(caller: Account, proxy: Account) returns (r: Status)
      modifies `proxies
      ensures Agrees(PkiSteps.RemoveProxy(old(View()), caller, proxy), r, View())
    {
      if caller !in proxies {
        return Err(DelegateNotFound);
      }
      var known := proxies[caller];
      for i := 0 to |known|
        invariant proxies == old(proxies) && forall j :: 0 <= j < i ==> known[j] != proxy
      {
        if known[i] == proxy {
          FirstUndelegated(known, proxy, i);
          var rest := known[..i] + known[i + 1..];
          proxies := if rest == [] then proxies - {caller} else proxies[caller := rest];
          return Ok(());
        }
      }
      return Err(DelegateNotFound);
    }

    method RemoveProxies(caller: Account) returns (r: Status)
      modifies `proxies
      ensures Agrees(PkiSteps.RemoveProxies(old(View()), caller), r, View())
    {
      proxies := proxies - {caller};
      return Ok(());
    }

    method RegisterRoot(caller: Account, proxy: Account) returns (r: Status)
      modifies `roots
      ensures Agrees(PkiSteps.RegisterRoot(old(View()), caller, proxy), r, View())
    {
      var known := HasProxy(caller, proxy);
      if !known {
        return Err(ProxyNotFound);
      }
      roots := roots + {caller};
      return Ok(());
    }

    method IssueIssuer(caller: Account, issuer: Account, proxy: Account) returns (r: Status)
      modifies `issuers
      ensures Agrees(PkiSteps.IssueIssuer(old(View()), caller, issuer, proxy), r, View())
    {
      if caller !in roots {
        return Err(RootNotFound);
      }
      var known := HasProxy(issuer, proxy);
      if !known {
        return Err(ProxyNotFound);
      }
      if issuer in issuers {
        return Err(IssuerExists);
      }
      issuers := issuers[issuer := Issuer(caller, false)];
      return Ok(());
    }

    method InvalidateIssuer(caller: Account, issuer: Account) returns (r: Status)
      modifies `issuers
      ensures Agrees(PkiSteps.InvalidateIssuer(old(View()), caller, issuer), r, View())
    {
      if issuer !in issuers {
        return Err(IssuerNotFound);
      }
      if issuers[issuer].root != caller {
        return Err(NotIssuersRoot);
      }
      issuers := issuers[issuer := issuers[issuer].(compromised := true)];
      return Ok(());
    }

    // ---------- Templates ----------

    method CreateTemplate(issuer: Account, name: string, popRequired: bool) returns (r: Status)
      modifies `templates, `live
      ensures Agrees(PkiSteps.CreateTemplate(old(View()), issuer, name, popRequired), r, View())
    {
      if issuer !in issuers {
        return Err(IssuerNotFound);
      }
      if (issuer, name) in templates {
        return Err(TemplateExists);
      }
      templates := templates[(issuer, name) := Template(true, popRequired)];
      live := live[(issuer, name) := 0];
      return Ok(());
    }

    method DeactivateTemplate(issuer: Account, name: string) returns (r: Status)
      modifies `templates
      ensures Agrees(PkiSteps.DeactivateTemplate(old(View()), issuer, name), r, View())
    {
      var k := (issuer, name);
      if k !in templates {
        return Err(TemplateNotFound);
      }
      templates := templates[k := templates[k].(active := false)];
      return Ok(());
    }

    method DiscardTemplate(issuer: Account, name: string) returns (r: Status)
      modifies `templates, `live
      ensures Agrees(PkiSteps.DiscardTemplate(old(View()), issuer, name), r, View())
    {
      var k := (issuer, name);
      if k !in templates {
        return Err(TemplateNotFound);
      }
      if At(live, k) != 0 {
        return Err(TemplateHasActiveCerts);
      }
      templates := templates - {k};
      live := live - {k};
      return Ok(());
    }

    // ---------- Offer and mint ----------

    method OfferContract(issuer: Account, user: Account, ttl: nat, name: string, nonce: nat) returns (r: Status)
      modifies `offers, `offerIndex
      ensures Agrees(PkiSteps.OfferContract(old(View()), issuer, user, ttl, name, nonce), r, View())
    {
      if issuer !in issuers {
        return Err(IssuerNotFound);
      }
      if (issuer, name) !in templates {
        return Err(TemplateNotFound);
      }
      if !templates[(issuer, name)].active {
        return Err(TemplateInactive);
      }
      if ttl == 0 {
        return Err(InvalidTtl);
      }
      if nonce in offers {
        return Err(NonceTaken);
      }
      offers := offers[nonce := CertOffer(issuer, user, name, ttl, now)];
      offerIndex := offerIndex[(issuer, user) := nonce];
      return Ok(());
    }

    /** Protocol share, then tip, then deposit: the first that the user cannot afford fails the mint. */
    method DistributeFee(user: Account, protocol: Account, author: Option<Account>, tip: nat, fee: nat)
      returns (r: Status)
      modifies `bank
      ensures var paid := PayMint(old(View()).bank, user, protocol, author, tip, fee);
        if paid.Err? then r == Err(paid.error) else r == Ok(()) && View() == old(View()).(bank := paid.value)
    {
      if !Fits(fee) || tip > (if author.Some? then TipCap(fee) else 0) {
        return Err(TipAboveCap);
      }
      var paid := bank.Transfer(user, protocol, ProtocolShare(fee, tip));
      if paid.None? {
        return Err(FundsUnavailable);
      }
      bank := paid.value;
      if author.Some? {
        var tipped := bank.Transfer(user, author.value, tip);
        if tipped.None? {
          return Err(FundsUnavailable);
        }
        bank := tipped.value;
      }
      var held := bank.Hold(CertDeposit, user, Deposit(fee));
      if held.None? {
        return Err(FundsUnavailable);
      }
      bank := held.value;
      return Ok(());
    }

    /** Everything a mint checks before it moves money or writes a row, and what it will then write. */
    method CheckMint(user: Account, nonce: nat, createdAt: nat, a: MintArgs)
      returns (r: Result<(nat, Thumbprint, ColdRow), Error>)
      ensures r.Err? ==> PkiSteps.MintCert(View(), user, nonce, createdAt, a) == Err(r.error)
      ensures r.Ok? ==>
        PkiSteps.MintCert(View(), user, nonce, createdAt, a)
        == Settle(View(), nonce, r.value.0, r.value.1, r.value.2, a)
      ensures r.Ok? ==> r.value.2.deposit == Deposit(r.value.0)
    {
      hide PayMint, Insert, File;
      if nonce !in offers {
        return Err(OfferNotFound);
      }
      var offer := offers[nonce];
      if offer.user != user || offer.createdAt != createdAt {
        return Err(OfferMismatch);
      }
      if offer.issuer !in issuers {
        return Err(IssuerNotFound);
      }
      var k := (offer.issuer, offer.template);
      if k !in templates {
        return Err(TemplateNotFound);
      }
      var pop := templates[k].popRequired;
      if pop && !a.verdict.Tpm? {
        return Err(PopRequired);
      }
      if pop && !a.hipValid {
        return Err(HipProofInvalid);
      }
      if (user, offer.issuer) in userIssuer {
        return Err(AlreadyCertified);
      }
      var root := issuers[offer.issuer].root;
      if a.verdict.Tpm? && (root, a.verdict.ek) in eks {
        return Err(EkAlreadyRegistered);
      }
      var fee := MintFee(pop, a.verdict);
      return Ok((fee, Thumbprint(root, offer.issuer, user, now + offer.ttl, a.body),
                 ColdRow(Deposit(fee), user, k, a.verdict)));
    }

    method WriteRows(t: Thumbprint, row: ColdRow)
      modifies `hot, `cold, `byIssuer, `byUser, `byRoot, `userIssuer, `eks, `live
      ensures View() == old(View()).(certs := Insert(old(View()).certs, t, row))
    {
      hide Insert;
      DoInsert(t, row);
    }

    method FileExpiry(t: Thumbprint)
      modifies `expiryIndex
      ensures View() == old(View()).(
                schedule := old(View()).schedule.(expiry := File(old(View()).schedule.expiry, t.expiry, t)))
    {
      hide File;
      expiryIndex := File(expiryIndex, t.expiry, t);
    }

    /** Writes the rows of a certificate and files it under the block it expires in. */
    method FileCert(t: Thumbprint, row: ColdRow)
      modifies `hot, `cold, `byIssuer, `byUser, `byRoot, `userIssuer, `eks, `live, `expiryIndex
      ensures View() == old(View()).(
                certs := Insert(old(View()).certs, t, row),
                schedule := old(View()).schedule.(expiry := File(old(View()).schedule.expiry, t.expiry, t)))
    {
      hide View, CertsView, RegistryView, Insert, File;
      WriteRows(t, row);
      FileExpiry(t);
    }

    method UseOffer(nonce: nat, pair: (Account, Account))
      modifies `offers, `offerIndex
      ensures View() == old(View()).(
                registry := old(View()).registry.(offers := old(View()).registry.offers - {nonce},
                                                  offerIndex := old(View()).registry.offerIndex - {pair}))
    {
      offers := offers - {nonce};
      offerIndex := offerIndex - {pair};
    }

    method MintCert(user: Account, nonce: nat, createdAt: nat, a: MintArgs) returns (r: Status)
      modifies this
      ensures Agrees(PkiSteps.MintCert(old(View()), user, nonce, createdAt, a), r, View())
    {
      hide View, CertsView, RegistryView, PayMint, Insert, File, PkiSteps.MintCert;
      var checked := CheckMint(user, nonce, createdAt, a);
      if checked.Err? {
        return Err(checked.error);
      }
      var (fee, t, row) := checked.value;
      r := DistributeFee(t.user, a.protocol, a.author, a.tip, fee);
      if r.Ok? {
        UseOffer(nonce, (t.issuer, t.user));
        FileCert(t, row);
      }
    }

    // ---------- A certificate's life ----------

    method DoDeactivate(t: Thumbprint)
      requires t in hot
      modifies `hot
      ensures View() == Deactivate(old(View()), t)
    {
      hot := hot[t := hot[t].(active := false)];
    }

    method SuspendCert(caller: Account, t: Thumbprint) returns (r: Status)
      modifies `hot
      ensures Agrees(PkiSteps.SuspendCert(old(View()), caller, t), r, View())
    {
      if t !in hot || t !in cold {
        return Err(CertNotFound);
      }
      if hot[t].issuer != caller {
        return Err(NotCertIssuer);
      }
      DoDeactivate(t);
      return Ok(());
    }

    method SelfDiscard(caller: Account, t: Thumbprint, assertion: Option<bool>) returns (r: Status)
      modifies this
      ensures Agrees(PkiSteps.SelfDiscard(old(View()), caller, t, assertion), r, View())
    {
      hide Drop;
      if t !in hot || t !in cold {
        return Err(CertNotFound);
      }
      if hot[t].user != caller {
        return Err(NotCertHolder);
      }
      if assertion == Some(false) {
        return Err(HipProofInvalid);
      }
      DoDrop(t, cold[t].funder);
      return Ok(());
    }

    /** The second half of a reissue, once the old certificate is gone. */
    method Replace(caller: Account, u: Thumbprint, row: ColdRow) returns (r: Status)
      modifies this
      ensures Agrees(Substitute(old(View()), caller, u, row), r, View())
    {
      hide Insert, File, EkTaken;
      var taken := DeviceTaken(u.root, row.verdict);
      if taken {
        return Err(EkAlreadyRegistered);
      }
      r := HoldDeposit(caller);
      if r.Ok? {
        hide View, CertsView, RegistryView;
        FileCert(u, row);
      }
    }

    method DeviceTaken(root: Account, v: Verdict) returns (taken: bool)
      ensures taken == EkTaken(View().certs, root, v)
    {
      return v.Tpm? && (root, v.ek) in eks;
    }

    method HoldDeposit(who: Account) returns (r: Status)
      modifies `bank
      ensures var held := old(View()).bank.Hold(CertDeposit, who, CERT_DEPOSIT);
        if held.None? then r == Err(FundsUnavailable) else r == Ok(()) && View() == old(View()).(bank := held.value)
    {
      var held := bank.Hold(CertDeposit, who, CERT_DEPOSIT);
      if held.None? {
        return Err(FundsUnavailable);
      }
      bank := held.value;
      return Ok(());
    }

    /** Everything a reissue checks before it writes: whom the old deposit goes to, and what is to be written. */
    method CheckReissue(caller: Account, t: Thumbprint, v: Verdict, ttl: nat, body: nat)
      returns (r: Result<(Account, Thumbprint, ColdRow), Error>)
      ensures r.Err? ==> PkiSteps.Reissue(View(), caller, t, v, ttl, body) == Err(r.error)
      ensures r.Ok? ==> Live(View(), t)
      ensures r.Ok? ==>
        PkiSteps.Reissue(View(), caller, t, v, ttl, body)
        == Substitute(Drop(View(), t, r.value.0), caller, r.value.1, r.value.2)
    {
      hide Drop, Substitute;
      if t !in hot || t !in cold {
        return Err(CertNotFound);
      }
      var h, row := hot[t], cold[t];
      if h.issuer != caller {
        return Err(NotCertIssuer);
      }
      if ttl == 0 {
        return Err(InvalidTtl);
      }
      ReissueIsSubstitute(View(), caller, t, v, ttl, body);
      return Ok((row.funder, Thumbprint(h.root, h.issuer, h.user, now + ttl, body),
                 ColdRow(CERT_DEPOSIT, caller, row.template, v)));
    }

    method Reissue(caller: Account, t: Thumbprint, v: Verdict, ttl: nat, body: nat) returns (r: Status)
      modifies this
      ensures Agrees(PkiSteps.Reissue(old(View()), caller, t, v, ttl, body), r, View())
    {
      hide View, CertsView, RegistryView, PkiSteps.Reissue, Drop, Substitute;
      var checked := CheckReissue(caller, t, v, ttl, body);
      if checked.Err? {
        return Err(checked.error);
      }
      var (funder, u, row) := checked.value;
      DoDrop(t, funder);
      r := Replace(caller, u, row);
    }

    method Cleanup(t: Thumbprint, recipient: Option<Account>) returns (r: Status)
      modifies this
      ensures Agrees(PkiSteps.Cleanup(old(View()), t, recipient), r, View())
    {
      hide Drop;
      if t !in hot || t !in cold {
        return Err(CertNotFound);
      }
      if hot[t].active || hot[t].expiry + INACTIVE_PURGE_PERIOD > now {
        return Err(NotReapable);
      }
      DoDrop(t, if recipient.Some? then recipient.value else cold[t].funder);
      return Ok(());
    }

    // ---------- The hook ----------

    method DoExpire(t: Thumbprint)
      modifies `hot, `purgeIndex
      ensures View() == Expire(old(View()), t)
    {
      if t in hot && t in cold {
        DoDeactivate(t);
        purgeIndex := File(purgeIndex, now + INACTIVE_PURGE_PERIOD, t);
      }
    }

    method DoReap(t: Thumbprint)
      modifies `bank, `hot, `cold, `byIssuer, `byUser, `byRoot, `userIssuer, `eks, `live
      ensures View() == Reap(old(View()), t)
    {
      hide Drop;
      if t in hot && t in cold && !hot[t].active {
        DoDrop(t, cold[t].funder);
      }
    }

    /** Walks the expiry bucket of the block, which is taken out of the schedule. */
    method ExpireBucket()
      modifies `hot, `purgeIndex, `expiryIndex
      ensures View() == ExpireEach(
                old(View()).(schedule := old(View()).schedule.(expiry := old(expiryIndex) - {now})),
                Bucket(old(expiryIndex), now))
    {
      hide Expire;
      var due := Bucket(expiryIndex, now);
      expiryIndex := expiryIndex - {now};
      ghost var target := ExpireEach(View(), due);
      for i := 0 to |due|
        invariant now == old(now)
        invariant ExpireEach(View(), due[i..]) == target
      {
        assert due[i..][0] == due[i] && due[i..][1..] == due[i + 1..];
        DoExpire(due[i]);
      }
    }

    /** Walks the purge bucket of the block, which is taken out of the schedule. */
    method ReapBucket()
      modifies `bank, `hot, `cold, `byIssuer, `byUser, `byRoot, `userIssuer, `eks, `live, `purgeIndex
      ensures View() == ReapEach(
                old(View()).(schedule := old(View()).schedule.(purge := old(purgeIndex) - {now})),
                Bucket(old(purgeIndex), now))
    {
      hide Reap;
      var due := Bucket(purgeIndex, now);
      purgeIndex := purgeIndex - {now};
      ghost var target := ReapEach(View(), due);
      for i := 0 to |due|
        invariant ReapEach(View(), due[i..]) == target
      {
        assert due[i..][0] == due[i] && due[i..][1..] == due[i + 1..];
        DoReap(due[i]);
      }
    }

    /** The work that opens a block: two buckets are taken, and nothing else is looked at. */
    method OnInitialize()
      modifies this
      ensures View() == PkiSteps.OnInitialize(old(View()))
    {
      hide ExpireEach, ReapEach, Bucket;
      NowStands(View().(schedule := View().schedule.(expiry := expiryIndex - {now})), Bucket(expiryIndex, now));
      ExpireBucket();
      ReapBucket();
    }

    // ---------- Dispatch ----------

    method CallRegistry(op: Op) returns (r: Status)
      requires op.OpAddProxy? || op.OpRemoveProxy? || op.OpRemoveProxies? || op.OpRegisterRoot? || op.OpIssueIssuer?
               || op.OpInvalidateIssuer? || op.OpCreateTemplate? || op.OpDeactivateTemplate? || op.OpDiscardTemplate?
               || op.OpOfferContract?
      modifies this
      ensures Agrees(Apply(old(View()), op), r, View())
    {
      hide Agrees;
      match op
      case OpAddProxy(caller, proxy) => r := AddProxy(caller, proxy);
      case OpRemoveProxy(caller, proxy) => r := RemoveProxy(caller, proxy);
      case OpRemoveProxies(caller) => r := RemoveProxies(caller);
      case OpRegisterRoot(caller, proxy) => r := RegisterRoot(caller, proxy);
      case OpIssueIssuer(caller, issuer, proxy) => r := IssueIssuer(caller, issuer, proxy);
      case OpInvalidateIssuer(caller, issuer) => r := InvalidateIssuer(caller, issuer);
      case OpCreateTemplate(caller, name, pop) => r := CreateTemplate(caller, name, pop);
      case OpDeactivateTemplate(caller, name) => r := DeactivateTemplate(caller, name);
      case OpDiscardTemplate(caller, name) => r := DiscardTemplate(caller, name);
      case OpOfferContract(caller, user, ttl, name, nonce) => r := OfferContract(caller, user, ttl, name, nonce);
    }

    method CallCerts(op: Op) returns (r: Status)
      requires op.OpMintCert? || op.OpSuspendCert? || op.OpSelfDiscard? || op.OpReissue? || op.OpCleanup?
      modifies this
      ensures Agrees(Apply(old(View()), op), r, View())
    {
      hide Agrees;
      match op
      case OpMintCert(caller, nonce, createdAt, a) => r := MintCert(caller, nonce, createdAt, a);
      case OpSuspendCert(caller, t) => r := SuspendCert(caller, t);
      case OpSelfDiscard(caller, t, assertion) => r := SelfDiscard(caller, t, assertion);
      case OpReissue(caller, t, v, ttl, body) => r := Reissue(caller, t, v, ttl, body);
      case OpCleanup(t, recipient) => r := Cleanup(t, recipient);
    }

    method CallClock(op: Op) returns (r: Status)
      requires op.OpNextBlock? || op.OpSkipTo?
      modifies this
      ensures Agrees(Apply(old(View()), op), r, View())
    {
      hide PkiSteps.OnInitialize;
      if op.OpNextBlock? {
        now := now + 1;
        OnInitialize();
      } else if now <= op.block {
        now := op.block;
      }
      return Ok(());
    }

    method Call(op: Op) returns (r: Status)
      modifies this
      ensures Agrees(Apply(old(View()), op), r, View())
    {
      hide Agrees, Apply;
      if op.OpNextBlock? || op.OpSkipTo? {
        r := CallClock(op);
      } else if op.OpMintCert? || op.OpSuspendCert? || op.OpSelfDiscard? || op.OpReissue? || op.OpCleanup? {
        r := CallCerts(op);
      } else {
        r := CallRegistry(op);
      }
    }

    /** A call either does what is specified or changes nothing; either way the invariant stays. */
    method Dispatch(op: Op) returns (r: Status)
      requires Inv(View())
      modifies this
      ensures View() == Next(old(View()), op)
      ensures r.Ok? <==> Apply(old(View()), op).Ok?
      ensures r.Err? ==> r.error == Apply(old(View()), op).error && View() == old(View())
      ensures Inv(View()) && Total(bank) == Total(old(bank))
    {
      hide Inv, Total, Apply;
      var before := View();
      StepKeeps(before, op);
      r := Call(op);
      if r.Err? {
        Restore(before);
      }
    }
  }
}
