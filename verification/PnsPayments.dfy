/** Account by account, what registering, renewing, transferring and listing a name cost, and whom. */
module PnsPayments {
  import opened Wrappers
  import opened Balances
  import opened PnsTypes
  import opened PnsSteps
  import opened PnsInvariants
  import opened PnsRuns
  import opened PnsTree
  import opened PnsEffects
  import opened PnsGuards

  // ---------- Registration ----------

  /** The fees go from the caller to those they name, and the deposit goes on hold. */
  lemma GrantCosts(s: State, caller: Account, name: Label, o: Open, s': State, deposit: nat, a: Account)
    requires FivePercent(Price(s.prices, name), deposit) && Grant(s, caller, name, o) == Ok(s')
    ensures s'.bank.Free(a) + If(a == caller, SumOf(o.fees) + deposit) == s.bank.Free(a) + Received(o.fees, a)
  {
    DepositIsFivePercent(s.prices, name);
    FivePercentIsUnique(Price(s.prices, name), deposit, CleanupShare(Price(s.prices, name)));
    hide FivePercent, CleanupShare, Price, Affords;
    ChargeMoves(s.bank, caller, o.fees, a);
  }

  lemma TearSendsBack(s: State, n: Node, caller: Account, o: Open, s': State, m: Node, a: Account)
    requires Inv(s) && n in Names(s) && Teardown(s, n, caller, 0, o) == Ok(s')
    ensures s'.bank.Free(a) == s.bank.Free(a) + Worth(s, n, o, a)
    ensures m != n ==> Worth(s', m, o, a) == Worth(s, m, o, a)
  {
    hide Inv, Teardown, Money;
    MoneyPart(s);
    NameFacts(s, n);
    TearName(s, n, caller, 0, o, s');
    TeardownListings(s, n, caller, 0, o, s');
    TeardownPays(s, n, caller, 0, o, s', a);
  }

  /** Where the money of a registration goes. */
  lemma RegisterCosts(s: State, caller: Account, name: Label, reject: Option<Label>, o: Open, s': State,
                      price: nat, deposit: nat, a: Account)
    requires Inv(s) && Costs(s.prices, name, price) && FivePercent(price, deposit)
    requires Register(s, caller, name, reject, o) == Ok(s')
    ensures s'.bank.Free(a) + If(a == caller, SumOf(o.fees) + deposit)
         == s.bank.Free(a) + Received(o.fees, a) + SentBack(s, name, reject, o, a)
  {
    hide Inv, Register, RejectOffer, Teardown, Grant, FivePercent, Price, Worth, Received, SumOf;
    var n := NameHash(name);
    PriceIsCost(s.prices, name, price);
    var s1, s2 := RegisterParts(s, caller, name, reject, o);
    RejectGoes(s, caller, reject, o);
    if reject.Some? {
      TearFrees(s, NameHash(reject.value), caller, o, s1, n);
      TearSendsBack(s, NameHash(reject.value), caller, o, s1, n, a);
    }
    if n in s1.tokens {
      NameFacts(s1, n);
      TearFrees(s1, n, caller, o, s2, n);
      TearSendsBack(s1, n, caller, o, s2, n, a);
    }
    GrantCosts(s2, caller, name, o, s', deposit, a);
  }

  lemma PriceIsCost(prices: PriceTable, name: Label, price: nat)
    requires Costs(prices, name, price)
    ensures price == Price(prices, name)
  {
  }

  // ---------- Renewal ----------

  /** Where the money of a renewal goes. */
  lemma RenewCosts(s: State, caller: Account, o: Open, s': State, price: nat, deposit: nat, a: Account)
    requires Inv(s) && Renew(s, caller, o) == Ok(s')
    requires caller in s.primary && s.primary[caller].Child? ==>
      Costs(s.prices, s.primary[caller].name, price) && FivePercent(price, deposit)
    ensures caller in s.primary && s.primary[caller] in s.deposits
    ensures s'.bank.Free(a) + If(a == caller, SumOf(o.fees) + deposit)
         == s.bank.Free(a) + Received(o.fees, a) + Share(s.deposits[s.primary[caller]], a)
  {
    hide Inv, Money, FivePercent, CleanupShare, Price, Costs, Received, SumOf, Renew;
    RenewIsRotation(s, caller, o, s');
    var n := s.primary[caller];
    MoneyPart(s);
    HoldCoversRow(s, n);
    PriceIsCost(s.prices, n.name, price);
    DepositIsFivePercent(s.prices, n.name);
    FivePercentIsUnique(price, deposit, CleanupShare(Price(s.prices, n.name)));
    ChargeMoves(s.bank, caller, o.fees, a);
    ChargeConserves(s.bank, caller, o.fees);
    var s1 := s.(bank := s.bank.Charge(caller, o.fees).value);
    var b := s1.bank.Unhold(CleanupDeposit, s.deposits[n].0, s.deposits[n].0, s.deposits[n].1);
    UnholdPays(s1.bank, CleanupDeposit, s.deposits[n].0, s.deposits[n].1, a);
    HoldTakes(b, caller, CleanupShare(Price(s.prices, n.name)), a);
  }

  lemma RenewIsRotation(s: State, caller: Account, o: Open, s': State)
    requires Renew(s, caller, o) == Ok(s')
    ensures caller in s.primary && s.primary[caller].Child? && s.primary[caller] in s.deposits
    ensures s.bank.Charge(caller, o.fees).Some?
    ensures var (row, b) := (s.deposits[s.primary[caller]], s.bank.Charge(caller, o.fees).value);
      b.Unhold(CleanupDeposit, row.0, row.0, row.1)
       .Hold(CleanupDeposit, caller, CleanupShare(Price(s.prices, s.primary[caller].name))) == Some(s'.bank)
  {
    hide CleanupShare, Price;
  }

  lemma HoldTakes(b: Bank, who: Account, amount: nat, a: Account)
    requires b.Hold(CleanupDeposit, who, amount).Some?
    ensures b.Hold(CleanupDeposit, who, amount).value.Free(a) + If(a == who, amount) == b.Free(a)
  {
  }

  // ---------- Transfer and listing ----------

  /** A transfer costs the recipient the deposit and frees its old depositor; a listing that ends pays its seller. */
  lemma TransferCosts(s: State, caller: Account, to: Account, o: Open, s': State, a: Account)
    requires Inv(s) && Transfer(s, caller, to, o) == Ok(s')
    ensures caller in s.primary && s.primary[caller] in s.deposits
    ensures var n := s.primary[caller];
      s'.bank.Free(a) + If(a == to, s.deposits[n].1)
      == s.bank.Free(a) + Share(s.deposits[n], a) + Relisted(s, n, o, a)
  {
    hide Inv, Money, Transfer, Rotate;
    TransferIsRotation(s, caller, to, o, s');
    var n := s.primary[caller];
    MoneyPart(s);
    HoldCoversRow(s, n);
    var s1 := Rotate(s, n, to, s.deposits[n].1).value;
    RotateMoves(s, n, to, s.deposits[n].1, s1, a);
    RotateKeepsListings(s, n, to, s.deposits[n].1, s1);
    if n in s.listings {
      UnlistMoves(s1, n, a);
    }
  }

  lemma TransferIsRotation(s: State, caller: Account, to: Account, o: Open, s': State)
    requires Transfer(s, caller, to, o) == Ok(s')
    ensures caller in s.primary && s.primary[caller] in s.deposits
    ensures var (n, r) := (s.primary[caller], Rotate(s, s.primary[caller], to, s.deposits[s.primary[caller]].1));
      r.Ok? && s'.bank == UnlistUnless(r.value, n, o.keepListing).bank
  {
    hide Rotate, Unlist;
  }

  lemma RotateKeepsListings(s: State, n: Node, who: Account, amount: nat, s': State)
    requires n in s.deposits && Rotate(s, n, who, amount) == Ok(s')
    ensures s'.listings == s.listings
    ensures forall a :: s'.bank.Held(ListingDeposit, a) == s.bank.Held(ListingDeposit, a)
  {
  }

  /** A listing costs its maker the deposit, and pays back that of the listing it replaces. */
  lemma ListCosts(s: State, caller: Account, price: nat, expiresAt: nat, o: Open, s': State, a: Account)
    requires Inv(s) && CreateListing(s, caller, price, expiresAt, o) == Ok(s')
    ensures caller in s.primary
    ensures var n := s.primary[caller];
      s'.bank.Free(a) + If(a == caller, LISTING_DEPOSIT)
      == s.bank.Free(a) + If(n in s.listings && s.listings[n].seller == a, LISTING_DEPOSIT)
  {
    hide Inv, Money, CreateListing, Unlist;
    ListIsHold(s, caller, price, expiresAt, o, s');
    var n := s.primary[caller];
    UnlistNothing(s, n);
    if n in s.listings {
      MoneyPart(s);
      HoldCoversRow(s, n);
      UnlistMoves(s, n, a);
    }
  }

  lemma ListIsHold(s: State, caller: Account, price: nat, expiresAt: nat, o: Open, s': State)
    requires CreateListing(s, caller, price, expiresAt, o) == Ok(s')
    ensures caller in s.primary
    ensures Unlist(s, s.primary[caller]).bank.Hold(ListingDeposit, caller, LISTING_DEPOSIT) == Some(s'.bank)
  {
    hide Unlist;
  }

  /** A cancelled listing pays its deposit to whoever made it. */
  lemma CancelPays(s: State, caller: Account, s': State, a: Account)
    requires Inv(s) && CancelListing(s, caller) == Ok(s')
    ensures caller in s.primary && s.primary[caller] in s.listings
    ensures s'.bank.Free(a) == s.bank.Free(a) + If(a == s.listings[s.primary[caller]].seller, LISTING_DEPOSIT)
  {
    hide Inv, Money, Unlist;
    MoneyPart(s);
    HoldCoversRow(s, s.primary[caller]);
    UnlistMoves(s, s.primary[caller], a);
  }

  // ---------- Everything else ----------

  /** The calls that have to do with money. */
  predicate Pays(op: Op) {
    || op.OpRegister? || op.OpRenew? || op.OpTransfer? || op.OpReleaseName? || op.OpCleanup? || op.OpAcceptOffer?
    || op.OpCreateListing? || op.OpCancelListing? || op.OpBuy? || op.OpCleanupListing?
  }

  /** No other call moves any. */
  lemma OthersCostNothing(s: State, op: Op)
    requires !Pays(op)
    ensures Next(s, op).bank == s.bank
  {
  }
}
