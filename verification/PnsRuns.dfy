/** Every call keeps the invariant and the total balance, and so does every run. */
module PnsRuns {
  import opened Wrappers
  import opened Balances
  import opened PnsTypes
  import opened PnsSteps
  import opened PnsInvariants

  ghost predicate Kept(s: State, r: Outcome) {
    r.Ok? ==> Inv(r.value) && Total(r.value.bank) == Total(s.bank)
  }

  // ---------- What the invariant says about one name ----------

  lemma NameFacts(s: State, n: Node)
    requires Inv(s)
    ensures n in s.tokens && IsName(n) <==> n in Names(s)
    ensures n in Names(s) <==> n in s.infos
    ensures n in Names(s) <==> n in s.deposits
    ensures n in s.offers ==> n in Names(s) && s.primary == PrimaryWithout(s, n)
  {
    if n in s.offers {
      OwnerIsOnlyHolder(s, n);
    }
  }

  lemma PrimaryFacts(s: State, a: Account)
    requires Inv(s) && a in s.primary
    ensures var n := s.primary[a];
            n in Names(s) && n in s.tokens && n in s.deposits && n in s.infos && n !in s.offers && IsName(n)
            && s.tokens[n].owner == a && s.primary - {a} == PrimaryWithout(s, n)
  {
    OwnerIsOnlyHolder(s, s.primary[a]);
  }

  lemma SettledFacts(s: State, n: Node)
    requires Inv(s) && n in Names(s) && n !in s.offers
    ensures s.primary - {s.tokens[n].owner} == PrimaryWithout(s, n)
    ensures s.tokens[n].owner in s.primary && s.primary[s.tokens[n].owner] == n
  {
    OwnerIsOnlyHolder(s, n);
  }

  // ---------- Owners and records ----------

  lemma ClearKeepsRecords(s: State, n: Node, who: Account, o: Open)
    requires n in s.tokens
    ensures KeepsRecords(s, n, ClearUserRecords(s, n, o))
    ensures KeepsRecords(s, n, SetOwner(ClearUserRecords(s, n, o), n, who))
  {
  }

  // ---------- Registrar ----------

  lemma RejectKeeps(s: State, caller: Account, gift: Node, o: Open)
    requires Inv(s) && caller !in s.primary
    ensures Kept(s, RejectOffer(s, caller, gift, o))
    ensures var r := RejectOffer(s, caller, gift, o); r.Ok? ==> caller !in r.value.primary
  {
    hide Inv;
    if RejectOffer(s, caller, gift, o).Ok? {
      NameFacts(s, gift);
      TeardownKeeps(s, gift, caller, 0, o);
    }
  }

  lemma GrantIsGrant(s: State, caller: Account, name: Label, o: Open, s': State)
    requires caller !in s.primary && NameHash(name) !in s.tokens && Grant(s, caller, name, o) == Ok(s')
    ensures Grants(s, NameHash(name), caller, s')
  {
  }

  lemma GrantKeepsMoney(s: State, caller: Account, name: Label, o: Open, s': State)
    requires Money(s) && NameHash(name) !in s.deposits && Grant(s, caller, name, o) == Ok(s')
    ensures Money(s') && Total(s'.bank) == Total(s.bank)
  {
    var charged := s.(bank := s.bank.Charge(caller, o.fees).value);
    MoneyCharge(s, caller, o.fees, charged);
    MoneyDeposit(charged, NameHash(name), caller, CleanupShare(Price(s.prices, name)), s');
  }

  lemma GrantKeeps(s: State, caller: Account, name: Label, o: Open)
    requires Inv(s) && caller !in s.primary && NameHash(name) !in s.tokens
    ensures Kept(s, Grant(s, caller, name, o))
  {
    hide Shape, Money, Grant, Grants;
    var r := Grant(s, caller, name, o);
    if r.Ok? {
      NameFacts(s, NameHash(name));
      GrantIsGrant(s, caller, name, o, r.value);
      GrantKeepsShape(s, NameHash(name), caller, r.value);
      GrantKeepsMoney(s, caller, name, o, r.value);
    }
  }

  lemma ReplaceKeeps(s: State, caller: Account, n: Node, o: Open)
    requires Inv(s) && caller !in s.primary && IsName(n) && n in s.tokens
    ensures Kept(s, Teardown(s, n, caller, 0, o))
    ensures var r := Teardown(s, n, caller, 0, o); r.Ok? ==> n !in r.value.tokens && caller !in r.value.primary
  {
    hide Inv;
    if Teardown(s, n, caller, 0, o).Ok? {
      NameFacts(s, n);
      TeardownKeeps(s, n, caller, 0, o);
    }
  }

  lemma RegisterKeeps(s: State, caller: Account, name: Label, reject: Option<Label>, o: Open)
    requires Inv(s)
    ensures Kept(s, Register(s, caller, name, reject, o))
  {
    hide Inv, Total, Grant, Teardown, RejectOffer;
    var r := Register(s, caller, name, reject, o);
    if r.Ok? {
      var n := NameHash(name);
      var s1 := s;
      if reject.Some? {
        RejectKeeps(s, caller, NameHash(reject.value), o);
        s1 := RejectOffer(s, caller, NameHash(reject.value), o).value;
      }
      var s2 := s1;
      if n in s1.tokens {
        ReplaceKeeps(s1, caller, n, o);
        s2 := Teardown(s1, n, caller, 0, o).value;
      }
      GrantKeeps(s2, caller, name, o);
    }
  }

  /** The states a registration passes through: after the gift is declined, and before the name is granted. */
  lemma RegisterParts(s: State, caller: Account, name: Label, reject: Option<Label>, o: Open)
    returns (s1: State, s2: State)
    requires Register(s, caller, name, reject, o).Ok?
    ensures caller !in s.primary
    ensures if reject.Some? then RejectOffer(s, caller, NameHash(reject.value), o) == Ok(s1) else s1 == s
    ensures Registrable(s1, NameHash(name))
    ensures if NameHash(name) in s1.tokens then Teardown(s1, NameHash(name), caller, 0, o) == Ok(s2) else s2 == s1
    ensures Grant(s2, caller, name, o) == Register(s, caller, name, reject, o)
  {
    hide Teardown, RejectOffer, Grant;
    s1 := if reject.Some? then RejectOffer(s, caller, NameHash(reject.value), o).value else s;
    s2 := if NameHash(name) in s1.tokens then Teardown(s1, NameHash(name), caller, 0, o).value else s1;
  }

  lemma RenewKeeps(s: State, caller: Account, o: Open)
    requires Inv(s)
    ensures Kept(s, Renew(s, caller, o))
  {
    hide Shape, Money, Total;
    var r := Renew(s, caller, o);
    if r.Ok? {
      var n := s.primary[caller];
      var s1 := s.(bank := s.bank.Charge(caller, o.fees).value,
                   infos := s.infos[n := s.infos[n].(expire := o.expire, lastBlock := o.block)]);
      MoneyCharge(s, caller, o.fees, s1);
      MoneyRotate(s1, n, caller, CleanupShare(Price(s.prices, n.name)));
      RenewIsQuiet(s, caller, o);
      ShapeFrame(s, r.value);
    }
  }

  lemma RenewIsQuiet(s: State, caller: Account, o: Open)
    requires Renew(s, caller, o).Ok?
    ensures SameShape(s, Renew(s, caller, o).value)
  {
  }

  lemma TransferIsConveyance(s: State, caller: Account, to: Account, o: Open, s': State)
    requires caller in s.primary && s.primary[caller] in Names(s) && s.primary[caller] !in s.offers
    requires s.primary - {caller} == PrimaryWithout(s, s.primary[caller])
    requires Transfer(s, caller, to, o) == Ok(s')
    ensures var n := s.primary[caller]; Conveys(s, n, to, s') && KeepsRecords(s, n, s') && Settles(s, n, to, s')
  {
    hide Rotate, Unlist, ClearUserRecords, SetOwner;
    var n := s.primary[caller];
    var s1 := Rotate(s, n, to, s.deposits[n].1).value;
    RotateIsMoney(s, n, to, s.deposits[n].1, s1);
    UnlistIsMoney(s1, n);
    var s2 := UnlistUnless(s1, n, o.keepListing);
    SettleIsConveyance(s, s2.(primary := s2.primary - {caller}), n, to, o);
  }

  /** Making `who` the owner of a name whose money has been dealt with. */
  lemma SettleIsConveyance(s: State, s1: State, n: Node, who: Account, o: Open)
    requires n in Names(s) && n !in s.offers && who !in s.primary
    requires s1.primary == PrimaryWithout(s, n)
    requires s1 == s.(bank := s1.bank, deposits := s1.deposits, listings := s1.listings, primary := s1.primary)
    requires s1.deposits.Keys == s.deposits.Keys
    ensures var s' := SetOwner(ClearUserRecords(s1, n, o), n, who);
            Conveys(s, n, who, s') && KeepsRecords(s, n, s') && Settles(s, n, who, s')
  {
    ClearKeepsRecords(s1, n, who, o);
  }

  lemma TransferKeepsMoney(s: State, caller: Account, to: Account, o: Open, s': State)
    requires Money(s) && Transfer(s, caller, to, o) == Ok(s')
    ensures Money(s') && Total(s'.bank) == Total(s.bank)
  {
    var n := s.primary[caller];
    MoneyRotate(s, n, to, s.deposits[n].1);
    var s1 := Rotate(s, n, to, s.deposits[n].1).value;
    MoneyUnlist(s1, n);
    MoneyFrame(UnlistUnless(s1, n, o.keepListing), s');
  }

  lemma TransferKeeps(s: State, caller: Account, to: Account, o: Open)
    requires Inv(s)
    ensures Kept(s, Transfer(s, caller, to, o))
  {
    hide Shape, Money, Total, Conveys, KeepsRecords, Settles, Transfer;
    var r := Transfer(s, caller, to, o);
    if r.Ok? {
      TransferNeedsPrimary(s, caller, to, o);
      PrimaryFacts(s, caller);
      TransferIsConveyance(s, caller, to, o, r.value);
      ConveyKeepsShape(s, s.primary[caller], to, r.value);
      TransferKeepsMoney(s, caller, to, o, r.value);
    }
  }

  lemma TransferNeedsPrimary(s: State, caller: Account, to: Account, o: Open)
    ensures Transfer(s, caller, to, o).Ok? ==> caller in s.primary && to !in s.primary
  {
  }

  lemma ReleaseNameKeeps(s: State, caller: Account, o: Open)
    requires Inv(s)
    ensures Kept(s, ReleaseName(s, caller, o))
  {
    hide Inv, Total;
    if ReleaseName(s, caller, o).Ok? {
      PrimaryFacts(s, caller);
      TeardownKeeps(s, s.primary[caller], caller, 0, o);
    }
  }

  lemma {:induction false} CleanupEachKeeps(s: State, caller: Account, deadline: nat, due: seq<Node>, o: Open)
    requires Inv(s)
    ensures var s' := CleanupEach(s, caller, deadline, due, o); Inv(s') && Total(s'.bank) == Total(s.bank)
    decreases |due|
  {
    hide Inv, Total, CleanupOne;
    if due != [] {
      CleanupOneKeeps(s, caller, deadline, due[0], o);
      CleanupEachKeeps(CleanupOne(s, caller, deadline, due[0], o), caller, deadline, due[1..], o);
    }
  }

  lemma CleanupOneKeeps(s: State, caller: Account, deadline: nat, n: Node, o: Open)
    requires Inv(s)
    ensures var s' := CleanupOne(s, caller, deadline, n, o); Inv(s') && Total(s'.bank) == Total(s.bank)
  {
    hide Inv, Total, Teardown;
    NameFacts(s, n);
    if n in s.deposits && Teardown(s, n, caller, BountyFrom(s.deposits[n].1, o.bounty), o).Ok? {
      TeardownKeeps(s, n, caller, BountyFrom(s.deposits[n].1, o.bounty), o);
    }
  }

  lemma CleanupKeeps(s: State, caller: Account, deadline: nat, due: seq<Node>, o: Open)
    requires Inv(s)
    ensures Kept(s, Cleanup(s, caller, deadline, due, o))
  {
    hide Inv, Total;
    CleanupEachKeeps(s, caller, deadline, due, o);
  }

  lemma AcceptIsConveyance(s: State, caller: Account, name: Label, o: Open, s': State)
    requires NameHash(name) in Names(s) && s.primary == PrimaryWithout(s, NameHash(name))
    requires AcceptOffer(s, caller, name, o) == Ok(s')
    ensures var n := NameHash(name); Conveys(s, n, caller, s') && KeepsRecords(s, n, s') && Settles(s, n, caller, s')
  {
  }

  lemma AcceptOfferKeeps(s: State, caller: Account, name: Label, o: Open)
    requires Inv(s)
    ensures Kept(s, AcceptOffer(s, caller, name, o))
  {
    hide Shape, Money, Total, Conveys, KeepsRecords, Settles;
    var r := AcceptOffer(s, caller, name, o);
    if r.Ok? {
      var n := NameHash(name);
      NameFacts(s, n);
      AcceptIsConveyance(s, caller, name, o, r.value);
      ConveyKeepsShape(s, n, caller, r.value);
      MoneyRotate(s, n, o.carrier, o.amount);
      MoneyFrame(Rotate(s, n, o.carrier, o.amount).value, r.value);
    }
  }

  // ---------- Marketplace ----------

  lemma ListIsQuiet(s: State, caller: Account, price: nat, expiresAt: nat, o: Open)
    requires CreateListing(s, caller, price, expiresAt, o).Ok?
    ensures SameShape(s, CreateListing(s, caller, price, expiresAt, o).value)
  {
  }

  lemma CreateListingKeeps(s: State, caller: Account, price: nat, expiresAt: nat, o: Open)
    requires Inv(s)
    ensures Kept(s, CreateListing(s, caller, price, expiresAt, o))
  {
    hide Shape, Money, Total, Unlist, SameShape;
    var r := CreateListing(s, caller, price, expiresAt, o);
    if r.Ok? {
      var n := s.primary[caller];
      UnlistIsMoney(s, n);
      MoneyUnlist(s, n);
      ListIsQuiet(s, caller, price, expiresAt, o);
      MoneyList(Unlist(s, n), n, Listing(caller, price, expiresAt), r.value);
      ShapeFrame(s, r.value);
    }
  }

  lemma CancelListingKeeps(s: State, caller: Account)
    requires Inv(s)
    ensures Kept(s, CancelListing(s, caller))
  {
    hide Shape, Money, Total;
    var r := CancelListing(s, caller);
    if r.Ok? {
      MoneyUnlist(s, s.primary[caller]);
      ShapeFrame(s, r.value);
    }
  }

  lemma SettleKeepsMoney(s: State, buyer: Account, l: Listing, fees: seq<(Account, nat)>)
    requires Money(s) && Settle(s.bank, buyer, l, fees).Ok?
    ensures var s' := s.(bank := Settle(s.bank, buyer, l, fees).value); Money(s') && Total(s'.bank) == Total(s.bank)
  {
    hide Money;
    var paid := s.(bank := s.bank.Transfer(buyer, l.seller, l.price - SumOf(fees)).value);
    TransferConserves(s.bank, buyer, l.seller, l.price - SumOf(fees));
    MoneyFrame(s, paid);
    MoneyCharge(paid, buyer, fees, s.(bank := Settle(s.bank, buyer, l, fees).value));
  }

  lemma SellKeepsMoney(s: State, n: Node, buyer: Account, recipient: Option<Account>, o: Open, s': State)
    requires Money(s) && n in s.listings && n in s.tokens && n in s.deposits
    requires Sell(s, n, buyer, recipient, o) == Ok(s')
    ensures Money(s') && Total(s'.bank) == Total(s.bank)
  {
    hide Money, Total;
    SettleKeepsMoney(s, buyer, s.listings[n], o.fees);
    var s1 := s.(bank := Settle(s.bank, buyer, s.listings[n], o.fees).value);
    MoneyUnlist(s1, n);
    var carrier := if recipient.None? then buyer else o.carrier;
    MoneyRotate(Unlist(s1, n), n, carrier, o.amount);
    MoneyFrame(Rotate(Unlist(s1, n), n, carrier, o.amount).value, s');
  }

  lemma SellIsConveyance(s: State, n: Node, buyer: Account, recipient: Option<Account>, o: Open, s': State)
    requires n in s.listings && n in Names(s) && n in s.deposits && n !in s.offers
    requires s.primary - {s.tokens[n].owner} == PrimaryWithout(s, n)
    requires recipient.None? ==> buyer !in s.primary
    requires Sell(s, n, buyer, recipient, o) == Ok(s')
    ensures var who := if recipient.None? then buyer else o.custodian;
            Conveys(s, n, who, s') && KeepsRecords(s, n, s')
            && (if recipient.None? then Settles(s, n, who, s') else Offers(s, n, s'))
  {
    hide Settle, Rotate, Unlist, ClearUserRecords, SetOwner;
    var paid := s.(bank := Settle(s.bank, buyer, s.listings[n], o.fees).value);
    var carrier := if recipient.None? then buyer else o.carrier;
    UnlistIsMoney(paid, n);
    var s1 := Rotate(Unlist(paid, n), n, carrier, o.amount).value;
    RotateIsMoney(Unlist(paid, n), n, carrier, o.amount, s1);
    var s2 := s1.(primary := s1.primary - {s1.tokens[n].owner});
    if recipient.None? {
      SettleIsConveyance(s, s2, n, buyer, o);
    } else {
      OfferIsConveyance(s, s2, n, buyer, recipient, o);
    }
  }

  lemma OfferIsConveyance(s: State, s1: State, n: Node, buyer: Account, recipient: Option<Account>, o: Open)
    requires n in Names(s) && n !in s.offers && recipient.Some?
    requires s1.primary == PrimaryWithout(s, n)
    requires s1 == s.(bank := s1.bank, deposits := s1.deposits, listings := s1.listings, primary := s1.primary)
    requires s1.deposits.Keys == s.deposits.Keys
    ensures var s' := HandOver(ClearUserRecords(s1, n, o), n, buyer, recipient, o);
            Conveys(s, n, o.custodian, s') && KeepsRecords(s, n, s') && Offers(s, n, s')
  {
    ClearKeepsRecords(s1, n, buyer, o);
  }

  lemma BuyNeedsSale(s: State, buyer: Account, name: Label, recipient: Option<Account>, o: Open)
    ensures var n := NameHash(name);
            Buy(s, buyer, name, recipient, o).Ok? ==>
              n in s.listings && n in s.tokens && n in s.deposits && n !in s.offers
              && (recipient.None? ==> buyer !in s.primary)
              && Buy(s, buyer, name, recipient, o) == Sell(s, n, buyer, recipient, o)
  {
    hide Sell;
  }

  lemma BuyKeeps(s: State, buyer: Account, name: Label, recipient: Option<Account>, o: Open)
    requires Inv(s)
    ensures Kept(s, Buy(s, buyer, name, recipient, o))
  {
    hide Shape, Money, Total, Conveys, KeepsRecords, Settles, Offers, Sell, Buy;
    var r := Buy(s, buyer, name, recipient, o);
    if r.Ok? {
      var n := NameHash(name);
      BuyNeedsSale(s, buyer, name, recipient, o);
      NameFacts(s, n);
      SettledFacts(s, n);
      SellIsConveyance(s, n, buyer, recipient, o, r.value);
      ConveyKeepsShape(s, n, if recipient.None? then buyer else o.custodian, r.value);
      SellKeepsMoney(s, n, buyer, recipient, o, r.value);
    }
  }

  lemma CleanupListingKeeps(s: State, caller: Account, name: Label, o: Open)
    requires Inv(s)
    ensures Kept(s, CleanupListing(s, caller, name, o))
  {
    hide Shape;
    var r := CleanupListing(s, caller, name, o);
    if r.Ok? {
      var n := NameHash(name);
      SolventPayOut(s.bank, ListingDeposit, ListingRows(s), n, caller, BountyFrom(LISTING_DEPOSIT, o.bounty));
      assert ListingRows(r.value) == ListingRows(s) - {n};
      SolventFrame(s.bank, r.value.bank, CleanupDeposit, s.deposits);
      ShapeFrame(s, r.value);
    }
  }

  // ---------- Subnames ----------

  lemma OfferSubnameKeeps(s: State, caller: Account, name: Label, target: Account)
    requires Inv(s)
    ensures Kept(s, OfferSubname(s, caller, name, target))
  {
    hide Shape, Money, Total;
    var r := OfferSubname(s, caller, name, target);
    if r.Ok? {
      PrimaryFacts(s, caller);
      RowChangeKeepsShape(s, Child(s.primary[caller], name), Subname(target, Offered), r.value);
      MoneyFrame(s, r.value);
    }
  }

  lemma AcceptSubnameKeeps(s: State, caller: Account, parent: Label, name: Label)
    requires Inv(s)
    ensures Kept(s, AcceptSubname(s, caller, parent, name))
  {
    hide Shape, Money, Total;
    var r := AcceptSubname(s, caller, parent, name);
    if r.Ok? {
      TakeUpKeepsShape(s, NameHash(parent), SubnameHash(parent, name), caller, r.value);
      MoneyFrame(s, r.value);
    }
  }

  lemma RejectSubnameKeeps(s: State, caller: Account, parent: Label, name: Label)
    requires Inv(s)
    ensures Kept(s, RejectSubname(s, caller, parent, name))
  {
    hide Shape, Money, Total;
    var r := RejectSubname(s, caller, parent, name);
    if r.Ok? {
      RowChangeKeepsShape(s, SubnameHash(parent, name), Subname(caller, Rejected), r.value);
      MoneyFrame(s, r.value);
    }
  }

  lemma ReleaseSubnameKeeps(s: State, caller: Account, parent: Label, name: Label)
    requires Inv(s)
    ensures Kept(s, ReleaseSubname(s, caller, parent, name))
  {
    hide Inv, Total;
    DropKeeps(s, NameHash(parent), SubnameHash(parent, name));
  }

  lemma RevokeSubnameKeeps(s: State, caller: Account, name: Label)
    requires Inv(s)
    ensures Kept(s, RevokeSubname(s, caller, name))
  {
    hide Inv, Total;
    if RevokeSubname(s, caller, name).Ok? {
      PrimaryFacts(s, caller);
      DropKeeps(s, s.primary[caller], Child(s.primary[caller], name));
    }
  }

  // ---------- Resolver and governance ----------

  /** A write to the resolver: to live nodes only, and never to the chain's own records. */
  ghost predicate Writes(s: State, s': State) {
    && s' == s.(records := s'.records, texts := s'.texts)
    && (forall k :: k in s'.records ==> k in s.records || k.0 in s.tokens)
    && (forall k :: k in s'.texts ==> k in s.texts || k.0 in s.tokens)
    && (forall k :: k in s.records && !UserSettable(k.1) ==> k in s'.records && s'.records[k] == s.records[k])
  }

  lemma WriteKeepsRecords(s: State, s': State)
    requires Recorded(s) && Writes(s, s')
    ensures Recorded(s')
  {
    assert Names(s') == Names(s);
  }

  lemma WriteKeepsShape(s: State, s': State)
    requires Shape(s) && Writes(s, s')
    ensures Shape(s')
  {
    hide Registered, Owned, Nested, Inboxed, Linked, Recorded;
    WriteKeepsRecords(s, s');
    RowsFrame(s, s');
  }

  lemma WriteKeeps(s: State, s': State)
    requires Inv(s) && Writes(s, s')
    ensures Inv(s') && Total(s'.bank) == Total(s.bank)
  {
    hide Shape, Money, Total;
    WriteKeepsShape(s, s');
    MoneyFrame(s, s');
  }

  lemma SetRecordKeeps(s: State, caller: Account, n: Node, t: RecordType, content: seq<nat>)
    requires Inv(s)
    ensures Kept(s, SetRecord(s, caller, n, t, content))
  {
    hide Inv, Total;
    var r := SetRecord(s, caller, n, t, content);
    if r.Ok? {
      WriteKeeps(s, r.value);
    }
  }

  lemma SetTextKeeps(s: State, caller: Account, n: Node, kind: nat, content: seq<nat>)
    requires Inv(s)
    ensures Kept(s, SetText(s, caller, n, kind, content))
  {
    hide Inv, Total;
    var r := SetText(s, caller, n, kind, content);
    if r.Ok? {
      WriteKeeps(s, r.value);
    }
  }

  lemma QuietKeeps(s: State, s': State)
    requires Inv(s) && SameShape(s, s') && s'.bank == s.bank && s'.deposits == s.deposits && s'.listings == s.listings
    ensures Inv(s') && Total(s'.bank) == Total(s.bank)
  {
    hide Shape, Money, Total;
    MoneyFrame(s, s');
    ShapeFrame(s, s');
  }

  lemma SetBasePriceKeeps(s: State, origin: Origin, prices: PriceTable)
    requires Inv(s)
    ensures Kept(s, SetBasePrice(s, origin, prices))
  {
    hide Inv, Total;
    QuietKeeps(s, s.(prices := prices));
  }

  lemma WaitKeeps(s: State, time: nat)
    requires Inv(s)
    ensures Kept(s, Ok(s.(now := s.now + time)))
  {
    hide Inv, Total;
    QuietKeeps(s, s.(now := s.now + time));
  }

  lemma SetReservedKeeps(s: State, origin: Origin, name: Label, reserve: bool)
    requires Inv(s)
    ensures Kept(s, SetReserved(s, origin, name, reserve))
  {
    hide Inv, Total;
    if origin.Root? {
      QuietKeeps(s, SetReserved(s, origin, name, reserve).value);
    }
  }

  ghost predicate HandsOver(s: State, who: Account, s': State) {
    && Base in s.tokens
    && s' == s.(official := who, tokens := s.tokens[Base := s.tokens[Base].(owner := who)])
  }

  lemma HandoverKeepsNames(s: State, who: Account, s': State)
    requires Registered(s) && Owned(s) && HandsOver(s, who, s')
    ensures Registered(s') && Owned(s')
  {
    assert Names(s') == Names(s);
  }

  lemma HandoverKeepsRecords(s: State, who: Account, s': State)
    requires Recorded(s) && HandsOver(s, who, s')
    ensures Recorded(s')
  {
    assert Names(s') == Names(s);
  }

  lemma HandoverKeepsRows(s: State, who: Account, s': State)
    requires Nested(s) && Inboxed(s) && Linked(s) && HandsOver(s, who, s')
    ensures Nested(s') && Inboxed(s') && Linked(s')
  {
    assert SubnameTokens(s') == SubnameTokens(s) && ActiveSubnames(s') == ActiveSubnames(s);
  }

  lemma SetOfficialKeeps(s: State, origin: Origin, who: Account)
    requires Inv(s)
    ensures Kept(s, SetOfficial(s, origin, who))
  {
    hide Money, Total, Registered, Owned, Nested, Inboxed, Linked, Recorded;
    var r := SetOfficial(s, origin, who);
    if r.Ok? {
      MoneyFrame(s, r.value);
      HandoverKeepsNames(s, who, r.value);
      HandoverKeepsRecords(s, who, r.value);
      HandoverKeepsRows(s, who, r.value);
    }
  }

  // ---------- Runs ----------

  lemma StepKeeps(s: State, op: Op)
    requires Inv(s)
    ensures Kept(s, Apply(s, op))
  {
    hide Inv, Kept, Register, Renew, Transfer, ReleaseName, Cleanup, AcceptOffer, CreateListing, CancelListing, Buy,
         CleanupListing, OfferSubname, AcceptSubname, RejectSubname, ReleaseSubname, RevokeSubname, SetRecord, SetText,
         SetBasePrice, SetReserved, SetOfficial;
    match op
    case OpRegister(caller, name, reject, o) => RegisterKeeps(s, caller, name, reject, o);
    case OpRenew(caller, o) => RenewKeeps(s, caller, o);
    case OpTransfer(caller, to, o) => TransferKeeps(s, caller, to, o);
    case OpReleaseName(caller, o) => ReleaseNameKeeps(s, caller, o);
    case OpCleanup(caller, deadline, due, o) => CleanupKeeps(s, caller, deadline, due, o);
    case OpAcceptOffer(caller, name, o) => AcceptOfferKeeps(s, caller, name, o);
    case OpCreateListing(caller, price, expiresAt, o) => CreateListingKeeps(s, caller, price, expiresAt, o);
    case OpCancelListing(caller) => CancelListingKeeps(s, caller);
    case OpBuy(caller, name, recipient, o) => BuyKeeps(s, caller, name, recipient, o);
    case OpCleanupListing(caller, name, o) => CleanupListingKeeps(s, caller, name, o);
    case OpOfferSubname(caller, name, target) => OfferSubnameKeeps(s, caller, name, target);
    case OpAcceptSubname(caller, parent, name) => AcceptSubnameKeeps(s, caller, parent, name);
    case OpRejectSubname(caller, parent, name) => RejectSubnameKeeps(s, caller, parent, name);
    case OpReleaseSubname(caller, parent, name) => ReleaseSubnameKeeps(s, caller, parent, name);
    case OpRevokeSubname(caller, name) => RevokeSubnameKeeps(s, caller, name);
    case OpSetRecord(caller, node, t, content) => SetRecordKeeps(s, caller, node, t, content);
    case OpSetText(caller, node, kind, content) => SetTextKeeps(s, caller, node, kind, content);
    case OpSetBasePrice(origin, prices) => SetBasePriceKeeps(s, origin, prices);
    case OpSetReserved(origin, name, reserve) => SetReservedKeeps(s, origin, name, reserve);
    case OpSetOfficial(origin, who) => SetOfficialKeeps(s, origin, who);
    case OpWait(time) => WaitKeeps(s, time);
  }

  lemma {:induction false} RunKeeps(s: State, ops: seq<Op>)
    requires Inv(s)
    ensures Inv(Run(s, ops)) && Total(Run(s, ops).bank) == Total(s.bank)
    decreases |ops|
  {
    if ops != [] {
      StepKeeps(s, ops[0]);
      RunKeeps(Next(s, ops[0]), ops[1..]);
    }
  }

  lemma GenesisIsSound(now: nat, free: map<Account, nat>, prices: PriceTable, reserved: set<Node>, official: Account)
    ensures Inv(Genesis(now, free, prices, reserved, official))
  {
  }
}
