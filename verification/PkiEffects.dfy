/** Where the money of the certificate system goes, account by account, and what undoes a mint. */
module PkiEffects {
  import opened Wrappers
  import opened Balances
  import opened MintFees
  import opened PkiTypes
  import opened PkiSteps
  import opened PkiInvariants
  import opened PkiRuns
  import opened PkiSchedule

  /** Every account's balances after the fee is paid, whichever of payer, protocol and author coincide. */
  lemma PayMintSplits(b: Bank, user: Account, protocol: Account, author: Option<Account>, tip: nat, fee: nat,
                      a: Account)
    requires PayMint(b, user, protocol, author, tip, fee).Ok? && fee >= 2 * MIN_DEPOSIT
    ensures var b' := PayMint(b, user, protocol, author, tip, fee).value;
      && b'.Free(a) + If(a == user, fee)
         == b.Free(a) + If(a == protocol, fee - Deposit(fee) - tip) + If(author == Some(a), tip)
      && b'.Held(CertDeposit, a) == b.Held(CertDeposit, a) + If(a == user, Deposit(fee))
    ensures Deposit(fee) + ProtocolSlice(fee) + tip <= fee && tip <= TipCap(fee)
    ensures author.None? ==> tip == 0
  {
    SplitIsExact(fee, tip);
    var share := ProtocolShare(fee, tip);
    var b1 := b.Transfer(user, protocol, share).value;
    var b2 := if author.Some? then b1.Transfer(user, author.value, tip).value else b1;
    hide Deposit, TipCap, ProtocolSlice, ProtocolShare, Fits;
    TransferMoves(b, user, protocol, share, a);
    if author.Some? {
      TransferMoves(b1, user, author.value, tip, a);
    }
    HoldMoves(b2, user, Deposit(fee), a);
  }

  lemma TransferMoves(b: Bank, from: Account, to: Account, amount: nat, a: Account)
    requires b.Transfer(from, to, amount).Some?
    ensures var b' := b.Transfer(from, to, amount).value;
      b'.Free(a) + If(a == from, amount) == b.Free(a) + If(a == to, amount) && b'.held == b.held
  {
  }

  lemma HoldMoves(b: Bank, who: Account, amount: nat, a: Account)
    requires b.Hold(CertDeposit, who, amount).Some?
    ensures var b' := b.Hold(CertDeposit, who, amount).value;
      && b'.Free(a) + If(a == who, amount) == b.Free(a)
      && b'.Held(CertDeposit, a) == b.Held(CertDeposit, a) + If(a == who, amount)
  {
  }

  lemma UnholdMoves(b: Bank, from: Account, to: Account, amount: nat, a: Account)
    requires amount <= b.Held(CertDeposit, from)
    ensures var b' := b.Unhold(CertDeposit, from, to, amount);
      && b'.Free(a) == b.Free(a) + If(a == to, amount)
      && b'.Held(CertDeposit, a) + If(a == from, amount) == b.Held(CertDeposit, a)
  {
  }

  /** The tier a mint is charged. */
  function FeeOf(s: State, nonce: nat, v: Verdict): nat
    requires nonce in s.registry.offers
    requires (s.registry.offers[nonce].issuer, s.registry.offers[nonce].template) in s.registry.templates
  {
    MintFee(s.registry.templates[(s.registry.offers[nonce].issuer, s.registry.offers[nonce].template)].popRequired, v)
  }

  ghost function Minted(s: State, user: Account, nonce: nat, a: MintArgs): Thumbprint
    requires nonce in s.registry.offers && s.registry.offers[nonce].issuer in s.registry.issuers
  {
    var offer := s.registry.offers[nonce];
    Thumbprint(s.registry.issuers[offer.issuer].root, offer.issuer, user, s.now + offer.ttl, a.body)
  }

  lemma MintOk(s: State, user: Account, nonce: nat, createdAt: nat, a: MintArgs)
    requires MintCert(s, user, nonce, createdAt, a).Ok?
    ensures nonce in s.registry.offers && s.registry.offers[nonce].issuer in s.registry.issuers
    ensures s.registry.offers[nonce].user == user
    ensures (s.registry.offers[nonce].issuer, s.registry.offers[nonce].template) in s.registry.templates
    ensures var fee := FeeOf(s, nonce, a.verdict);
      && PayMint(s.bank, user, a.protocol, a.author, a.tip, fee).Ok?
      && MintCert(s, user, nonce, createdAt, a).value.bank
         == PayMint(s.bank, user, a.protocol, a.author, a.tip, fee).value
      && MintCert(s, user, nonce, createdAt, a).value.certs
         == Insert(s.certs, Minted(s, user, nonce, a),
                   ColdRow(Deposit(fee), user, (s.registry.offers[nonce].issuer, s.registry.offers[nonce].template),
                           a.verdict))
  {
    hide PayMint, Insert;
  }

  lemma TiersSplit(pop: bool, v: Verdict)
    ensures MintFee(pop, v) >= 2 * MIN_DEPOSIT && Deposit(MintFee(pop, v)) == UNIT / 10
    ensures MintFee(pop, v) in {MINT_FEE_POP, MINT_FEE_PACKED, MINT_FEE_NONE}
  {
    ConfiguredTiers(MINT_FEE_POP);
    ConfiguredTiers(MINT_FEE_PACKED);
    ConfiguredTiers(MINT_FEE_NONE);
  }

  /**
   A mint costs its user exactly the fee. A tenth of a unit of it is held on the user, the author
   gets the tip, and the protocol gets all the rest; nobody else's balance moves.
   */
  lemma MintSplitsFee(s: State, user: Account, nonce: nat, createdAt: nat, args: MintArgs, a: Account)
    requires MintCert(s, user, nonce, createdAt, args).Ok?
    ensures nonce in s.registry.offers
    ensures (s.registry.offers[nonce].issuer, s.registry.offers[nonce].template) in s.registry.templates
    ensures var (b, b') := (s.bank, MintCert(s, user, nonce, createdAt, args).value.bank);
      var fee := FeeOf(s, nonce, args.verdict);
      && b'.Free(a) + If(a == user, fee)
         == b.Free(a) + If(a == args.protocol, fee - UNIT / 10 - args.tip) + If(args.author == Some(a), args.tip)
      && b'.Held(CertDeposit, a) == b.Held(CertDeposit, a) + If(a == user, UNIT / 10)
  {
    MintOk(s, user, nonce, createdAt, args);
    var fee := FeeOf(s, nonce, args.verdict);
    TiersSplit(s.registry.templates[(s.registry.offers[nonce].issuer, s.registry.offers[nonce].template)].popRequired,
               args.verdict);
    hide MintCert, PayMint, MintFee;
    PayMintSplits(s.bank, user, args.protocol, args.author, args.tip, fee, a);
  }

  /**
   An offer yields one certificate: the one it describes, for the user it names, for the time it grants
   counted from the mint, and never another. Under a template that requires proof of personhood the
   certificate names a device whose proof held, and from then on the device is spoken for.
   */
  lemma MintHonoursOffer(s: State, user: Account, nonce: nat, createdAt: nat, a: MintArgs,
                         who: Account, again: MintArgs)
    requires Inv(s) && MintCert(s, user, nonce, createdAt, a).Ok?
    ensures nonce in s.registry.offers && s.registry.offers[nonce].issuer in s.registry.issuers
    ensures (s.registry.offers[nonce].issuer, s.registry.offers[nonce].template) in s.registry.templates
    ensures var (s', t, offer) := (MintCert(s, user, nonce, createdAt, a).value, Minted(s, user, nonce, a),
                                   s.registry.offers[nonce]);
      && !Live(s, t) && Live(s', t) && t.user == user == offer.user && t.issuer == offer.issuer
      && s'.certs.hot[t] == HotRow(true, s.now + offer.ttl, t.root, t.issuer, user)
      && s'.certs.cold[t].template == (offer.issuer, offer.template)
      && MintCert(s', who, nonce, createdAt, again) == Err(OfferNotFound)
      && (s.registry.templates[(offer.issuer, offer.template)].popRequired ==>
            a.verdict.Tpm? && a.hipValid && EkTaken(s'.certs, t.root, a.verdict))
  {
    MintOk(s, user, nonce, createdAt, a);
    MintUsesOffer(s, user, nonce, createdAt, a);
    var t, offer := Minted(s, user, nonce, a), s.registry.offers[nonce];
    var k := (offer.issuer, offer.template);
    var row := ColdRow(Deposit(FeeOf(s, nonce, a.verdict)), user, k, a.verdict);
    InsertedRows(s.certs, t, row);
    MintIsVacant(s, user, nonce, createdAt, a, row);
    InvAgreed(s);
    hide Inv, Agreed, Insert, PayMint, MintFee, Deposit;
    InsertAgrees(s.certs, t, row);
    InsertTakesDevice(s.certs, t, row);
  }

  lemma MintUsesOffer(s: State, user: Account, nonce: nat, createdAt: nat, a: MintArgs)
    requires MintCert(s, user, nonce, createdAt, a).Ok?
    ensures nonce !in MintCert(s, user, nonce, createdAt, a).value.registry.offers
    ensures nonce in s.registry.offers
    ensures var k := (s.registry.offers[nonce].issuer, s.registry.offers[nonce].template);
      k in s.registry.templates && (s.registry.templates[k].popRequired ==> a.verdict.Tpm? && a.hipValid)
  {
    hide PayMint, Insert;
  }

  lemma InsertTakesDevice(c: Certs, t: Thumbprint, row: ColdRow)
    ensures row.verdict.Tpm? ==> EkTaken(Insert(c, t, row), t.root, row.verdict)
  {
  }

  /** Dropping a certificate moves its deposit, all of it, from the hold of its funder to `to`. */
  lemma DropMoves(s: State, t: Thumbprint, to: Account, a: Account)
    requires Inv(s) && Live(s, t)
    ensures var (b, b', row) := (s.bank, Drop(s, t, to).bank, s.certs.cold[t]);
      && b'.Free(a) == b.Free(a) + If(a == to, row.deposit)
      && b'.Held(CertDeposit, a) + If(a == row.funder, row.deposit) == b.Held(CertDeposit, a)
  {
    DropPays(s, t, to);
    hide Inv, Remove;
    UnholdMoves(s.bank, s.certs.cold[t].funder, to, s.certs.cold[t].deposit, a);
  }

  /** Whoever cleans up, the deposit goes to the funder, or to the recipient that was named. */
  lemma CleanupRoutesDeposit(s: State, t: Thumbprint, recipient: Option<Account>, a: Account)
    requires Inv(s) && Cleanup(s, t, recipient).Ok?
    ensures Live(s, t) && !s.certs.hot[t].active && t.expiry + INACTIVE_PURGE_PERIOD <= s.now
    ensures var (b, b', row) := (s.bank, Cleanup(s, t, recipient).value.bank, s.certs.cold[t]);
      && b'.Free(a) == b.Free(a) + If(a == (if recipient.Some? then recipient.value else row.funder), row.deposit)
      && b'.Held(CertDeposit, a) + If(a == row.funder, row.deposit) == b.Held(CertDeposit, a)
    ensures !Live(Cleanup(s, t, recipient).value, t)
  {
    HotRowIs(s.certs, t);
    RemoveRows(s.certs, t);
    DropMoves(s, t, if recipient.Some? then recipient.value else s.certs.cold[t].funder, a);
    hide Inv, Remove;
  }

  /** A removal takes an insertion back, index by index. */
  lemma RemoveUndoesInsert(c: Certs, t: Thumbprint, row: ColdRow)
    requires Agreed(c) && Vacant(c, t, row)
    ensures t in Insert(c, t, row).hot && t in Insert(c, t, row).cold
    ensures Remove(Insert(c, t, row), t) == c
  {
    hide Agreed, Vacant, Insert, Remove;
    var d := Insert(c, t, row);
    InsertAgrees(c, t, row);
    InsertedRows(c, t, row);
    RemoveAgrees(d, t);
    RemoveRows(d, t);
    assert d.hot - {t} == c.hot && d.cold - {t} == c.cold by { InsertedElse(c, t, row); }
    assert Remove(d, t).live.Keys == c.live.Keys by { LiveKeysStand(c, t, row); }
    RowsDetermine(Remove(d, t), c);
  }

  lemma InsertedElse(c: Certs, t: Thumbprint, row: ColdRow)
    requires t !in c.hot && t !in c.cold
    ensures Insert(c, t, row).hot - {t} == c.hot && Insert(c, t, row).cold - {t} == c.cold
  {
  }

  lemma LiveKeysStand(c: Certs, t: Thumbprint, row: ColdRow)
    requires Vacant(c, t, row)
    requires t in Insert(c, t, row).hot && t in Insert(c, t, row).cold
    ensures Remove(Insert(c, t, row), t).live.Keys == c.live.Keys
  {
  }

  lemma MintIsVacant(s: State, user: Account, nonce: nat, createdAt: nat, a: MintArgs, row: ColdRow)
    requires Inv(s) && MintCert(s, user, nonce, createdAt, a).Ok?
    requires row.template == (s.registry.offers[nonce].issuer, s.registry.offers[nonce].template)
    requires row.verdict == a.verdict && row.funder == user
    ensures Vacant(s.certs, Minted(s, user, nonce, a), row)
  {
    hide PayMint, Insert, Agreed, Solvent;
    assert row.template in s.certs.live.Keys;
  }

  /** Discarding a certificate as soon as it is minted leaves no trace but the fee. */
  lemma DiscardUndoesMint(s: State, user: Account, nonce: nat, createdAt: nat, args: MintArgs, a: Account)
    requires Inv(s) && MintCert(s, user, nonce, createdAt, args).Ok?
    ensures nonce in s.registry.offers && s.registry.offers[nonce].issuer in s.registry.issuers
    ensures (s.registry.offers[nonce].issuer, s.registry.offers[nonce].template) in s.registry.templates
    ensures var s1 := MintCert(s, user, nonce, createdAt, args).value;
      var r := SelfDiscard(s1, user, Minted(s, user, nonce, args), None);
      var fee := FeeOf(s, nonce, args.verdict);
      && r.Ok? && r.value.certs == s.certs
      && r.value.bank.Held(CertDeposit, a) == s.bank.Held(CertDeposit, a)
      && r.value.bank.Free(a) + If(a == user, fee - UNIT / 10)
         == s.bank.Free(a) + If(a == args.protocol, fee - UNIT / 10 - args.tip) + If(args.author == Some(a), args.tip)
  {
    hide Inv, Insert, Remove, MintCert, PayMint, Vacant, MintFee, Deposit, Agreed;
    MintOk(s, user, nonce, createdAt, args);
    var t := Minted(s, user, nonce, args);
    var k := (s.registry.offers[nonce].issuer, s.registry.offers[nonce].template);
    var row := ColdRow(Deposit(FeeOf(s, nonce, args.verdict)), user, k, args.verdict);
    TiersSplit(s.registry.templates[k].popRequired, args.verdict);
    var s1 := MintCert(s, user, nonce, createdAt, args).value;
    MintIsVacant(s, user, nonce, createdAt, args, row);
    MintKeeps(s, user, nonce, createdAt, args);
    MintSplitsFee(s, user, nonce, createdAt, args, a);
    InsertedRows(s.certs, t, row);
    assert Agreed(s.certs) by { InvAgreed(s); }
    RemoveUndoesInsert(s.certs, t, row);
    DropMoves(s1, t, user, a);
  }

  lemma InvAgreed(s: State)
    requires Inv(s)
    ensures Agreed(s.certs)
  {
  }

  lemma InsertedRows(c: Certs, t: Thumbprint, row: ColdRow)
    ensures t in Insert(c, t, row).hot && t in Insert(c, t, row).cold
    ensures Insert(c, t, row).hot[t] == HotRow(true, t.expiry, t.root, t.issuer, t.user)
    ensures Insert(c, t, row).cold[t] == row
  {
  }

  /** A reissue gives the old deposit back to whoever funded it, and puts the issuer's own on hold. */
  lemma ReissueMovesDeposit(s: State, caller: Account, t: Thumbprint, v: Verdict, ttl: nat, body: nat, a: Account)
    requires Inv(s) && Reissue(s, caller, t, v, ttl, body).Ok?
    ensures Live(s, t) && caller == t.issuer
    ensures var (b, b', row) := (s.bank, Reissue(s, caller, t, v, ttl, body).value.bank, s.certs.cold[t]);
      && b'.Free(a) + If(a == caller, CERT_DEPOSIT) == b.Free(a) + If(a == row.funder, row.deposit)
      && b'.Held(CertDeposit, a) + If(a == row.funder, row.deposit)
         == b.Held(CertDeposit, a) + If(a == caller, CERT_DEPOSIT)
  {
    hide Inv, Insert, Remove, Agreed;
    assert Agreed(s.certs) by { InvAgreed(s); }
    HotRowIs(s.certs, t);
    DropMoves(s, t, s.certs.cold[t].funder, a);
    HoldMoves(Drop(s, t, s.certs.cold[t].funder).bank, caller, CERT_DEPOSIT, a);
  }

  /** It leaves the user with one certificate of the same kind from the same issuer: the new one. */
  lemma ReissueReplaces(s: State, caller: Account, t: Thumbprint, v: Verdict, ttl: nat, body: nat)
    requires Inv(s) && Reissue(s, caller, t, v, ttl, body).Ok?
    ensures Live(s, t)
    ensures var (s', u) := (Reissue(s, caller, t, v, ttl, body).value,
                            Thumbprint(t.root, t.issuer, t.user, s.now + ttl, body));
      && Live(s', u) && s'.certs.hot[u] == HotRow(true, s.now + ttl, t.root, t.issuer, t.user)
      && s'.certs.cold[u].template == s.certs.cold[t].template && s'.certs.cold[u].verdict == v
      && s'.certs.cold[u].funder == caller && s'.certs.cold[u].deposit == UNIT
      && (t.user, t.issuer) in s'.certs.userIssuer && s'.certs.userIssuer[(t.user, t.issuer)] == u
      && forall w :: Live(s', w) && w.user == t.user && w.issuer == t.issuer ==> w == u
  {
    hide Inv, Insert, Remove, Agreed;
    assert Agreed(s.certs) by { InvAgreed(s); }
    HotRowIs(s.certs, t);
    var s' := Reissue(s, caller, t, v, ttl, body).value;
    var u := Thumbprint(t.root, t.issuer, t.user, s.now + ttl, body);
    InsertedRows(Remove(s.certs, t), u, ColdRow(CERT_DEPOSIT, caller, s.certs.cold[t].template, v));
    ReissueKeeps(s, caller, t, v, ttl, body);
    assert Agreed(s'.certs) by { InvAgreed(s'); }
    PairIsUnique(s'.certs, u);
  }

  lemma PairIsUnique(c: Certs, u: Thumbprint)
    requires Agreed(c) && u in c.hot
    ensures (u.user, u.issuer) in c.userIssuer && c.userIssuer[(u.user, u.issuer)] == u
    ensures forall w :: w in c.hot && w.user == u.user && w.issuer == u.issuer ==> w == u
  {
    hide Projected, Devices, Counted, Sponsored;
  }
}
