/**
 Both ledgers on the one set of balances they share. Calls of either, in any order, and plain transfers
 between accounts, keep both solvent and make or destroy no money.
 */
module Chain {
  import opened Wrappers
  import opened Balances
  import Names = PnsTypes
  import NameSteps = PnsSteps
  import NameInvariants = PnsInvariants
  import NameRuns = PnsRuns
  import Certs = PkiTypes
  import CertSteps = PkiSteps
  import CertInvariants = PkiInvariants
  import CertRuns = PkiRuns

  /** Two accounts of the same balances differ at most in holds for other reasons. */
  ghost predicate Spares(b: Bank, b': Bank, reason: HoldReason) {
    forall a :: b'.Held(reason, a) == b.Held(reason, a)
  }

  lemma SparesThrough(b: Bank, c: Bank, d: Bank, reason: HoldReason)
    requires Spares(b, c, reason) && Spares(c, d, reason)
    ensures Spares(b, d, reason)
  {
    forall a ensures d.Held(reason, a) == b.Held(reason, a) {
      assert c.Held(reason, a) == b.Held(reason, a);
    }
  }

  lemma BankSpares(b: Bank, from: Account, to: Account, amount: nat, used: HoldReason, reason: HoldReason)
    requires used != reason
    ensures Spares(b, b.Unhold(used, from, to, amount), reason)
    ensures b.Hold(used, from, amount).Some? ==> Spares(b, b.Hold(used, from, amount).value, reason)
    ensures b.Transfer(from, to, amount).Some? ==> Spares(b, b.Transfer(from, to, amount).value, reason)
  {
  }

  lemma ChargeSpares(b: Bank, from: Account, fees: seq<(Account, nat)>, reason: HoldReason)
    ensures b.Charge(from, fees).Some? ==> Spares(b, b.Charge(from, fees).value, reason)
  {
    if b.Charge(from, fees).Some? {
      ChargeConserves(b, from, fees);
    }
  }

  lemma PayOutSpares(b: Bank, used: HoldReason, row: (Account, nat), finder: Account, bounty: nat, reason: HoldReason)
    requires used != reason && bounty <= row.1
    ensures Spares(b, PayOut(b, used, row, finder, bounty), reason)
  {
    hide Spares;
    var b1 := b.Unhold(used, row.0, finder, bounty);
    BankSpares(b, row.0, finder, bounty, used, reason);
    BankSpares(b1, row.0, row.0, row.1 - bounty, used, reason);
    SparesThrough(b, b1, PayOut(b, used, row, finder, bounty), reason);
  }

  // ---------- The name system spares the deposits of certificates ----------

  /** The call, if it succeeds, moves no certificate deposit. */
  ghost predicate SparesCerts(s: Names.State, r: NameSteps.Outcome) {
    r.Ok? ==> Spares(s.bank, r.value.bank, CertDeposit)
  }

  lemma RotateSpares(s: Names.State, n: Names.Node, who: Account, amount: nat)
    requires n in s.deposits
    ensures SparesCerts(s, NameSteps.Rotate(s, n, who, amount))
  {
    hide Spares;
    var row := s.deposits[n];
    var b1 := s.bank.Unhold(CleanupDeposit, row.0, row.0, row.1);
    BankSpares(s.bank, row.0, row.0, row.1, CleanupDeposit, CertDeposit);
    BankSpares(b1, who, who, amount, CleanupDeposit, CertDeposit);
    if b1.Hold(CleanupDeposit, who, amount).Some? {
      SparesThrough(s.bank, b1, b1.Hold(CleanupDeposit, who, amount).value, CertDeposit);
    }
  }

  lemma UnlistSpares(s: Names.State, n: Names.Node, keep: bool)
    ensures Spares(s.bank, NameSteps.UnlistUnless(s, n, keep).bank, CertDeposit)
    ensures Spares(s.bank, NameSteps.Unlist(s, n).bank, CertDeposit)
  {
    if n in s.listings {
      var seller := s.listings[n].seller;
      BankSpares(s.bank, seller, seller, Names.LISTING_DEPOSIT, ListingDeposit, CertDeposit);
    }
  }

  lemma RefundSpares(s: Names.State, n: Names.Node, finder: Account, bounty: nat)
    ensures Spares(s.bank, NameSteps.Refund(s, n, finder, bounty).bank, CertDeposit)
  {
    if n in s.deposits && bounty <= s.deposits[n].1 {
      PayOutSpares(s.bank, CleanupDeposit, s.deposits[n], finder, bounty, CertDeposit);
    }
    hide PayOut;
  }

  lemma TeardownSpares(s: Names.State, n: Names.Node, finder: Account, bounty: nat, o: Names.Open)
    ensures SparesCerts(s, NameSteps.Teardown(s, n, finder, bounty, o))
  {
    hide Spares, NameSteps.Refund, NameSteps.UnlistUnless;
    var s1 := NameSteps.Refund(s, n, finder, bounty);
    RefundSpares(s, n, finder, bounty);
    UnlistSpares(s1, n, o.keepListing);
    SparesThrough(s.bank, s1.bank, NameSteps.UnlistUnless(s1, n, o.keepListing).bank, CertDeposit);
  }

  lemma GrantSpares(s: Names.State, caller: Account, name: Names.Label, o: Names.Open)
    ensures SparesCerts(s, NameSteps.Grant(s, caller, name, o))
  {
    hide Spares;
    if NameSteps.Grant(s, caller, name, o).Ok? {
      var charged := s.bank.Charge(caller, o.fees).value;
      var share := Names.CleanupShare(Names.Price(s.prices, name));
      ChargeSpares(s.bank, caller, o.fees, CertDeposit);
      BankSpares(charged, caller, caller, share, CleanupDeposit, CertDeposit);
      SparesThrough(s.bank, charged, charged.Hold(CleanupDeposit, caller, share).value, CertDeposit);
    }
  }

  lemma RegisterSpares(s: Names.State, caller: Account, name: Names.Label, reject: Option<Names.Label>, o: Names.Open)
    ensures SparesCerts(s, NameSteps.Register(s, caller, name, reject, o))
  {
    hide Spares, NameSteps.Teardown, NameSteps.Grant, NameSteps.RejectOffer, NameSteps.Register;
    if NameSteps.Register(s, caller, name, reject, o).Ok? {
      var n := Names.NameHash(name);
      var s1, s2 := NameRuns.RegisterParts(s, caller, name, reject, o);
      SparesSame(s.bank);
      if reject.Some? {
        RejectSpares(s, caller, Names.NameHash(reject.value), o);
      }
      SparesSame(s1.bank);
      if n in s1.tokens {
        TeardownSpares(s1, n, caller, 0, o);
      }
      GrantSpares(s2, caller, name, o);
      SparesThrough(s.bank, s1.bank, s2.bank, CertDeposit);
      SparesThrough(s.bank, s2.bank, NameSteps.Register(s, caller, name, reject, o).value.bank, CertDeposit);
    }
  }

  lemma SparesSame(b: Bank)
    ensures Spares(b, b, CertDeposit)
  {
  }

  lemma RejectSpares(s: Names.State, caller: Account, gift: Names.Node, o: Names.Open)
    ensures SparesCerts(s, NameSteps.RejectOffer(s, caller, gift, o))
  {
    hide Spares, NameSteps.Teardown;
    TeardownSpares(s, gift, caller, 0, o);
  }

  lemma RenewSpares(s: Names.State, caller: Account, o: Names.Open)
    ensures SparesCerts(s, NameSteps.Renew(s, caller, o))
  {
    hide Spares, NameSteps.Rotate;
    var r := NameSteps.Renew(s, caller, o);
    if r.Ok? {
      var n := s.primary[caller];
      var s1 := s.(bank := s.bank.Charge(caller, o.fees).value,
                   infos := s.infos[n := s.infos[n].(expire := o.expire, lastBlock := o.block)]);
      ChargeSpares(s.bank, caller, o.fees, CertDeposit);
      RotateSpares(s1, n, caller, Names.CleanupShare(Names.Price(s.prices, n.name)));
      SparesThrough(s.bank, s1.bank, r.value.bank, CertDeposit);
    }
  }

  lemma TransferSpares(s: Names.State, caller: Account, to: Account, o: Names.Open)
    ensures SparesCerts(s, NameSteps.Transfer(s, caller, to, o))
  {
    hide Spares, NameSteps.Rotate, NameSteps.UnlistUnless;
    var r := NameSteps.Transfer(s, caller, to, o);
    if r.Ok? {
      var n := s.primary[caller];
      RotateSpares(s, n, to, s.deposits[n].1);
      var s1 := NameSteps.Rotate(s, n, to, s.deposits[n].1).value;
      UnlistSpares(s1, n, o.keepListing);
      SparesThrough(s.bank, s1.bank, r.value.bank, CertDeposit);
    }
  }

  lemma {:induction false} CleanupSpares(s: Names.State, caller: Account, deadline: nat, due: seq<Names.Node>,
                                         o: Names.Open)
    ensures Spares(s.bank, NameSteps.CleanupEach(s, caller, deadline, due, o).bank, CertDeposit)
    decreases |due|
  {
    hide Spares, NameSteps.Teardown;
    SparesSame(s.bank);
    if due != [] {
      var n, s1 := due[0], NameSteps.CleanupOne(s, caller, deadline, due[0], o);
      if n in s.deposits {
        TeardownSpares(s, n, caller, Names.BountyFrom(s.deposits[n].1, o.bounty), o);
      }
      CleanupSpares(s1, caller, deadline, due[1..], o);
      SparesThrough(s.bank, s1.bank, NameSteps.CleanupEach(s, caller, deadline, due, o).bank, CertDeposit);
    }
  }

  lemma AcceptSpares(s: Names.State, caller: Account, name: Names.Label, o: Names.Open)
    ensures SparesCerts(s, NameSteps.AcceptOffer(s, caller, name, o))
  {
    hide Spares, NameSteps.Rotate;
    var n := Names.NameHash(name);
    if n in s.deposits {
      RotateSpares(s, n, o.carrier, o.amount);
    }
  }

  lemma CreateListingSpares(s: Names.State, caller: Account, price: nat, expiresAt: nat, o: Names.Open)
    ensures SparesCerts(s, NameSteps.CreateListing(s, caller, price, expiresAt, o))
  {
    hide Spares, NameSteps.Unlist;
    var r := NameSteps.CreateListing(s, caller, price, expiresAt, o);
    if r.Ok? {
      var s1 := NameSteps.Unlist(s, s.primary[caller]);
      UnlistSpares(s, s.primary[caller], false);
      BankSpares(s1.bank, caller, caller, Names.LISTING_DEPOSIT, ListingDeposit, CertDeposit);
      SparesThrough(s.bank, s1.bank, r.value.bank, CertDeposit);
    }
  }

  lemma SettleSpares(b: Bank, buyer: Account, l: Names.Listing, fees: seq<(Account, nat)>)
    ensures NameSteps.Settle(b, buyer, l, fees).Ok? ==>
              Spares(b, NameSteps.Settle(b, buyer, l, fees).value, CertDeposit)
  {
    hide Spares;
    if NameSteps.Settle(b, buyer, l, fees).Ok? {
      var paid := b.Transfer(buyer, l.seller, l.price - SumOf(fees)).value;
      BankSpares(b, buyer, l.seller, l.price - SumOf(fees), ListingDeposit, CertDeposit);
      ChargeSpares(paid, buyer, fees, CertDeposit);
      SparesThrough(b, paid, NameSteps.Settle(b, buyer, l, fees).value, CertDeposit);
    }
  }

  lemma SellSpares(s: Names.State, n: Names.Node, buyer: Account, recipient: Option<Account>, o: Names.Open)
    requires n in s.listings && n in s.tokens && n in s.deposits
    ensures SparesCerts(s, NameSteps.Sell(s, n, buyer, recipient, o))
  {
    hide Spares, NameSteps.Settle, NameSteps.Unlist, NameSteps.Rotate;
    var r := NameSteps.Sell(s, n, buyer, recipient, o);
    if r.Ok? {
      SettleSpares(s.bank, buyer, s.listings[n], o.fees);
      var s1 := s.(bank := NameSteps.Settle(s.bank, buyer, s.listings[n], o.fees).value);
      UnlistSpares(s1, n, false);
      var s2 := NameSteps.Unlist(s1, n);
      var carrier := if recipient.None? then buyer else o.carrier;
      RotateSpares(s2, n, carrier, o.amount);
      SparesThrough(s.bank, s1.bank, s2.bank, CertDeposit);
      SparesThrough(s.bank, s2.bank, r.value.bank, CertDeposit);
    }
  }

  lemma BuySpares(s: Names.State, buyer: Account, name: Names.Label, recipient: Option<Account>, o: Names.Open)
    ensures SparesCerts(s, NameSteps.Buy(s, buyer, name, recipient, o))
  {
    hide NameSteps.Sell, NameSteps.Buy;
    NameRuns.BuyNeedsSale(s, buyer, name, recipient, o);
    var n := Names.NameHash(name);
    if n in s.listings && n in s.tokens && n in s.deposits {
      SellSpares(s, n, buyer, recipient, o);
    }
    hide Spares;
  }

  lemma CleanupListingSpares(s: Names.State, caller: Account, name: Names.Label, o: Names.Open)
    ensures SparesCerts(s, NameSteps.CleanupListing(s, caller, name, o))
  {
    hide Spares, PayOut;
    var n := Names.NameHash(name);
    if n in s.listings {
      PayOutSpares(s.bank, ListingDeposit, (s.listings[n].seller, Names.LISTING_DEPOSIT), caller,
                   Names.BountyFrom(Names.LISTING_DEPOSIT, o.bounty), CertDeposit);
    }
  }

  predicate Moneyless(op: NameSteps.Op) {
    op.OpOfferSubname? || op.OpAcceptSubname? || op.OpRejectSubname? || op.OpReleaseSubname? || op.OpRevokeSubname?
    || op.OpSetRecord? || op.OpSetText? || op.OpSetBasePrice? || op.OpSetReserved? || op.OpSetOfficial? || op.OpWait?
  }

  lemma MoneylessSpares(s: Names.State, op: NameSteps.Op)
    requires Moneyless(op)
    ensures NameSteps.Next(s, op).bank == s.bank
  {
  }

  /** No call of the name system moves a certificate deposit. */
  lemma NameCallsSpareCerts(s: Names.State, op: NameSteps.Op)
    ensures Spares(s.bank, NameSteps.Next(s, op).bank, CertDeposit)
  {
    hide Spares, NameSteps.Register, NameSteps.Renew, NameSteps.Transfer, NameSteps.Teardown, NameSteps.CleanupEach,
         NameSteps.AcceptOffer, NameSteps.CreateListing, NameSteps.Unlist, NameSteps.Buy, NameSteps.CleanupListing;
    SparesSame(s.bank);
    if Moneyless(op) {
      MoneylessSpares(s, op);
    } else {
      match op
      case OpRegister(caller, name, reject, o) => RegisterSpares(s, caller, name, reject, o);
      case OpRenew(caller, o) => RenewSpares(s, caller, o);
      case OpTransfer(caller, to, o) => TransferSpares(s, caller, to, o);
      case OpReleaseName(caller, o) =>
        if caller in s.primary {
          TeardownSpares(s, s.primary[caller], caller, 0, o);
        }
      case OpCleanup(caller, deadline, due, o) => CleanupSpares(s, caller, deadline, due, o);
      case OpAcceptOffer(caller, name, o) => AcceptSpares(s, caller, name, o);
      case OpCreateListing(caller, price, expiresAt, o) => CreateListingSpares(s, caller, price, expiresAt, o);
      case OpCancelListing(caller) =>
        if caller in s.primary {
          UnlistSpares(s, s.primary[caller], false);
        }
      case OpBuy(caller, name, recipient, o) => BuySpares(s, caller, name, recipient, o);
      case OpCleanupListing(caller, name, o) => CleanupListingSpares(s, caller, name, o);
    }
  }

  // ---------- The certificate system spares the deposits of names ----------

  lemma DropSpares(s: Certs.State, t: Certs.Thumbprint, to: Account, reason: HoldReason)
    requires CertSteps.Live(s, t) && reason != CertDeposit
    ensures Spares(s.bank, CertSteps.Drop(s, t, to).bank, reason)
  {
    BankSpares(s.bank, s.certs.cold[t].funder, to, s.certs.cold[t].deposit, CertDeposit, reason);
    hide CertSteps.Remove;
  }

  lemma PayMintSpares(b: Bank, user: Account, protocol: Account, author: Option<Account>, tip: nat, fee: nat,
                      reason: HoldReason)
    requires reason != CertDeposit && CertSteps.PayMint(b, user, protocol, author, tip, fee).Ok?
    ensures Spares(b, CertSteps.PayMint(b, user, protocol, author, tip, fee).value, reason)
  {
  }

  lemma MintSpares(s: Certs.State, user: Account, nonce: nat, createdAt: nat, a: CertSteps.MintArgs, reason: HoldReason)
    requires reason != CertDeposit && CertSteps.MintCert(s, user, nonce, createdAt, a).Ok?
    ensures Spares(s.bank, CertSteps.MintCert(s, user, nonce, createdAt, a).value.bank, reason)
  {
    hide Spares, CertSteps.PayMint, CertSteps.Insert;
    var k := (s.registry.offers[nonce].issuer, s.registry.offers[nonce].template);
    PayMintSpares(s.bank, user, a.protocol, a.author, a.tip,
                  CertSteps.MintFee(s.registry.templates[k].popRequired, a.verdict), reason);
  }

  lemma ReissueSpares(s: Certs.State, caller: Account, t: Certs.Thumbprint, v: Certs.Verdict, ttl: nat, body: nat,
                      reason: HoldReason)
    requires reason != CertDeposit && CertSteps.Reissue(s, caller, t, v, ttl, body).Ok?
    ensures Spares(s.bank, CertSteps.Reissue(s, caller, t, v, ttl, body).value.bank, reason)
  {
    hide Spares, CertSteps.Insert, CertSteps.Remove;
    var s1 := CertSteps.Drop(s, t, s.certs.cold[t].funder);
    DropSpares(s, t, s.certs.cold[t].funder, reason);
    BankSpares(s1.bank, caller, caller, Certs.CERT_DEPOSIT, CertDeposit, reason);
    SparesThrough(s.bank, s1.bank, CertSteps.Reissue(s, caller, t, v, ttl, body).value.bank, reason);
  }

  lemma {:induction false} ReapSpares(s: Certs.State, due: seq<Certs.Thumbprint>, reason: HoldReason)
    requires reason != CertDeposit
    ensures Spares(s.bank, CertSteps.ReapEach(s, due).bank, reason)
    decreases |due|
  {
    hide CertSteps.Drop;
    if due != [] {
      var t, s1 := due[0], CertSteps.Reap(s, due[0]);
      if CertSteps.Live(s, t) {
        DropSpares(s, t, s.certs.cold[t].funder, reason);
      }
      ReapSpares(s1, due[1..], reason);
      SparesThrough(s.bank, s1.bank, CertSteps.ReapEach(s, due).bank, reason);
    }
  }

  lemma {:induction false} ExpireSpares(s: Certs.State, due: seq<Certs.Thumbprint>)
    ensures CertSteps.ExpireEach(s, due).bank == s.bank
    decreases |due|
  {
    if due != [] {
      ExpireSpares(CertSteps.Expire(s, due[0]), due[1..]);
    }
  }

  lemma HookSpares(s: Certs.State, reason: HoldReason)
    requires reason != CertDeposit
    ensures Spares(s.bank, CertSteps.OnInitialize(s).bank, reason)
  {
    hide Spares, CertSteps.ExpireEach, CertSteps.ReapEach, Certs.Bucket;
    var s0 := s.(schedule := s.schedule.(expiry := s.schedule.expiry - {s.now}));
    var s1 := CertSteps.ExpireEach(s0, Certs.Bucket(s.schedule.expiry, s.now));
    ExpireSpares(s0, Certs.Bucket(s.schedule.expiry, s.now));
    CertRuns.NowStands(s0, Certs.Bucket(s.schedule.expiry, s.now));
    ReapSpares(s1.(schedule := s1.schedule.(purge := s1.schedule.purge - {s.now})),
               Certs.Bucket(s1.schedule.purge, s.now), reason);
  }

  /** No extrinsic and no block of the certificate system moves a hold of the name system. */
  lemma CertCallsSpareNames(s: Certs.State, op: CertSteps.Op, reason: HoldReason)
    requires reason != CertDeposit
    ensures Spares(s.bank, CertSteps.Next(s, op).bank, reason)
  {
    assert Spares(s.bank, s.bank, reason);
    hide Spares, CertSteps.MintCert, CertSteps.Reissue, CertSteps.Drop, CertSteps.OnInitialize;
    if op.OpMintCert? {
      if CertSteps.Apply(s, op).Ok? {
        MintSpares(s, op.caller, op.nonce, op.createdAt, op.a, reason);
      }
    } else if op.OpReissue? {
      if CertSteps.Apply(s, op).Ok? {
        ReissueSpares(s, op.caller, op.t, op.v, op.ttl, op.body, reason);
      }
    } else if op.OpSelfDiscard? || op.OpCleanup? {
      if CertSteps.Live(s, op.t) {
        DropSpares(s, op.t, s.certs.cold[op.t].funder, reason);
        if op.OpCleanup? && op.recipient.Some? {
          DropSpares(s, op.t, op.recipient.value, reason);
        }
      }
    } else if op.OpNextBlock? {
      HookSpares(s.(now := s.now + 1), reason);
    }
  }

  // ---------- One chain ----------

  /** The balances, and the storage of the two systems; their own copies of the balances play no part. */
  datatype State = State(bank: Bank, names: Names.State, certs: Certs.State)

  function NamesOf(s: State): Names.State {
    s.names.(bank := s.bank)
  }

  function CertsOf(s: State): Certs.State {
    s.certs.(bank := s.bank)
  }

  datatype Op =
    | NameCall(name: NameSteps.Op)
    | CertCall(cert: CertSteps.Op)
    | Pay(from: Account, to: Account, amount: nat)

  function Next(s: State, op: Op): State {
    match op
    case NameCall(call) =>
      var names := NameSteps.Next(NamesOf(s), call);
      State(names.bank, names, s.certs)
    case CertCall(call) =>
      var certs := CertSteps.Next(CertsOf(s), call);
      State(certs.bank, s.names, certs)
    case Pay(from, to, amount) =>
      var paid := s.bank.Transfer(from, to, amount);
      if paid.Some? then s.(bank := paid.value) else s
  }

  function Run(s: State, ops: seq<Op>): State
    decreases |ops|
  {
    if ops == [] then s else Run(Next(s, ops[0]), ops[1..])
  }

  ghost predicate Sound(s: State) {
    NameInvariants.Inv(NamesOf(s)) && CertInvariants.Inv(CertsOf(s))
  }

  /** The name system is as sound on other balances that hold the same for its two reasons. */
  lemma NamesOnOtherBank(s: Names.State, b: Bank)
    requires NameInvariants.Inv(s) && Spares(s.bank, b, CleanupDeposit) && Spares(s.bank, b, ListingDeposit)
    ensures NameInvariants.Inv(s.(bank := b))
  {
    var s' := s.(bank := b);
    assert NameInvariants.Money(s') by {
      hide NameInvariants.Shape, Owed;
      assert NameInvariants.ListingRows(s') == NameInvariants.ListingRows(s);
      SolventFrame(s.bank, b, CleanupDeposit, s.deposits);
      SolventFrame(s.bank, b, ListingDeposit, NameInvariants.ListingRows(s));
    }
    hide NameInvariants.Money, NameInvariants.Shape;
    NameInvariants.ShapeFrame(s, s');
  }

  lemma CertsOnOtherBank(s: Certs.State, b: Bank)
    requires CertInvariants.Inv(s) && Spares(s.bank, b, CertDeposit)
    ensures CertInvariants.Inv(s.(bank := b))
  {
    hide CertInvariants.Agreed, Owed;
    SolventFrame(s.bank, b, CertDeposit, CertInvariants.Deposits(s.certs.cold));
  }

  lemma PayKeeps(s: State, from: Account, to: Account, amount: nat)
    requires Sound(s) && s.bank.Transfer(from, to, amount).Some?
    ensures Sound(s.(bank := s.bank.Transfer(from, to, amount).value))
    ensures Total(s.bank.Transfer(from, to, amount).value) == Total(s.bank)
  {
    hide NameInvariants.Inv, CertInvariants.Inv, Spares, Total;
    var b := s.bank.Transfer(from, to, amount).value;
    BankSpares(s.bank, from, to, amount, ListingDeposit, CleanupDeposit);
    BankSpares(s.bank, from, to, amount, CleanupDeposit, ListingDeposit);
    BankSpares(s.bank, from, to, amount, CleanupDeposit, CertDeposit);
    NamesOnOtherBank(NamesOf(s), b);
    CertsOnOtherBank(CertsOf(s), b);
    TransferConserves(s.bank, from, to, amount);
  }

  /** Any call of either system, and any transfer, keeps both invariants and the amount of money. */
  lemma StepKeeps(s: State, op: Op)
    requires Sound(s)
    ensures Sound(Next(s, op)) && Total(Next(s, op).bank) == Total(s.bank)
  {
    hide NameInvariants.Inv, CertInvariants.Inv, Spares, Total, NameSteps.Next, CertSteps.Next;
    match op
    case NameCall(call) =>
      NameStepKeeps(NamesOf(s), call);
      NameCallsSpareCerts(NamesOf(s), call);
      CertsOnOtherBank(CertsOf(s), Next(s, op).bank);
    case CertCall(call) =>
      CertRuns.StepKeeps(CertsOf(s), call);
      CertCallsSpareNames(CertsOf(s), call, CleanupDeposit);
      CertCallsSpareNames(CertsOf(s), call, ListingDeposit);
      NamesOnOtherBank(NamesOf(s), Next(s, op).bank);
    case Pay(from, to, amount) =>
      if s.bank.Transfer(from, to, amount).Some? {
        PayKeeps(s, from, to, amount);
      }
  }

  lemma NameStepKeeps(s: Names.State, op: NameSteps.Op)
    requires NameInvariants.Inv(s)
    ensures NameInvariants.Inv(NameSteps.Next(s, op)) && Total(NameSteps.Next(s, op).bank) == Total(s.bank)
  {
    hide NameInvariants.Inv, Total, NameSteps.Apply;
    NameRuns.StepKeeps(s, op);
  }

  lemma {:induction false} RunKeeps(s: State, ops: seq<Op>)
    requires Sound(s)
    ensures Sound(Run(s, ops)) && Total(Run(s, ops).bank) == Total(s.bank)
    decreases |ops|
  {
    hide Sound, Next, Total;
    if ops != [] {
      StepKeeps(s, ops[0]);
      RunKeeps(Next(s, ops[0]), ops[1..]);
    }
  }

  /** The chain at its start. */
  function Genesis(time: nat, free: map<Account, nat>, prices: Names.PriceTable, reserved: set<Names.Node>,
                   official: Account): State {
    State(Bank(free, map[]), NameSteps.Genesis(time, free, prices, reserved, official), CertSteps.Genesis(free))
  }

  /**
   Over any interleaving of calls of both systems and transfers, each account's holds are what the rows of
   either system say, reason by reason, and there is as much money as at the start.
   */
  lemma HoldsAreOwed(time: nat, free: map<Account, nat>, prices: Names.PriceTable, reserved: set<Names.Node>,
                     official: Account, ops: seq<Op>, who: Account)
    ensures var s := Run(Genesis(time, free, prices, reserved, official), ops);
      && s.bank.Held(CleanupDeposit, who) == Owed(s.names.deposits, who)
      && s.bank.Held(ListingDeposit, who) == Owed(NameInvariants.ListingRows(s.names), who)
      && s.bank.Held(CertDeposit, who) == Owed(CertInvariants.Deposits(s.certs.certs.cold), who)
      && Total(s.bank) == Total(Bank(free, map[]))
  {
    var g := Genesis(time, free, prices, reserved, official);
    NameRuns.GenesisIsSound(time, free, prices, reserved, official);
    CertRuns.GenesisIsSound(free);
    var s := Run(g, ops);
    assert Sound(g) && Total(g.bank) == Total(Bank(free, map[]));
    assert Sound(s) && Total(s.bank) == Total(g.bank) by {
      hide Sound, Run, Total;
      RunKeeps(g, ops);
    }
    hide Run, Total;
    SoundHolds(s, who);
  }

  lemma SoundHolds(s: State, who: Account)
    requires Sound(s)
    ensures s.bank.Held(CleanupDeposit, who) == Owed(s.names.deposits, who)
    ensures s.bank.Held(ListingDeposit, who) == Owed(NameInvariants.ListingRows(s.names), who)
    ensures s.bank.Held(CertDeposit, who) == Owed(CertInvariants.Deposits(s.certs.certs.cold), who)
  {
    hide NameInvariants.Shape, CertInvariants.Agreed, Owed;
    assert NameInvariants.ListingRows(NamesOf(s)) == NameInvariants.ListingRows(s.names);
  }
}
