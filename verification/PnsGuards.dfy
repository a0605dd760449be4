/** Exactly when each remaining call of the name system succeeds, and what it then has written. */
module PnsGuards {
  import opened Wrappers
  import opened Balances
  import opened PnsTypes
  import opened PnsSteps
  import opened PnsInvariants
  import opened PnsRuns
  import opened PnsTree
  import opened PnsEffects
  import opened PnsTitle
  import opened PnsSales

  /** What an account has free after it has paid the fees. */
  function AfterFees(free: nat, who: Account, fees: seq<(Account, nat)>): int {
    free + Received(fees, who) - SumOf(fees)
  }

  /** It can pay the fees, and then still put `amount` on hold. */
  ghost predicate CanHold(free: nat, who: Account, fees: seq<(Account, nat)>, amount: nat) {
    Affords(free, who, fees) && amount <= AfterFees(free, who, fees)
  }

  // ---------- Prices ----------

  /** The price of a label: by its length, and one for all lengths from eleven on. */
  predicate Costs(prices: PriceTable, name: Label, price: nat) {
    && (|name| <= 10 ==> price == prices[|name| - 1])
    && (|name| > 10 ==> price == prices[10])
  }

  /** Five percent of the price, rounded down. */
  predicate FivePercent(price: nat, deposit: nat) {
    20 * deposit <= price < 20 * (deposit + 1)
  }

  lemma DepositIsFivePercent(prices: PriceTable, name: Label)
    ensures Costs(prices, name, Price(prices, name))
    ensures FivePercent(Price(prices, name), CleanupShare(Price(prices, name)))
  {
  }

  lemma FivePercentIsUnique(price: nat, d: nat, e: nat)
    requires FivePercent(price, d) && FivePercent(price, e)
    ensures d == e
  {
  }

  // ---------- Registration ----------

  /** What tearing `n` down sends back to `a`. */
  function Worth(s: State, n: Node, o: Open, a: Account): nat {
    RowShare(s, n, a) + Relisted(s, n, o, a)
  }

  /** What a registration sends back to `a` on the way: for the gift declined, and for the old registration. */
  function SentBack(s: State, name: Label, reject: Option<Label>, o: Open, a: Account): nat {
    (if reject.Some? then Worth(s, NameHash(reject.value), o, a) else 0)
    + (if NameHash(name) in s.tokens && !Declines(reject, NameHash(name)) then Worth(s, NameHash(name), o, a) else 0)
  }

  /** What the caller of a registration has free once the gift and the old registration are torn down. */
  function Freed(s: State, caller: Account, name: Label, reject: Option<Label>, o: Open): nat {
    s.bank.Free(caller) + SentBack(s, name, reject, o, caller)
  }

  /** No live subnames stand in the way of a teardown, where they can. */
  predicate Unhindered(s: State, n: Node, o: Open) {
    n in s.tokens ==> (o.fate.Refuse? ==> s.tokens[n].children == 0)
  }

  /** The caller has no name; the name is not reserved, and new, past its grace, or the gift that is declined. */
  predicate MayRegister(s: State, caller: Account, name: Label, reject: Option<Label>, o: Open) {
    var n := NameHash(name);
    && caller !in s.primary && n !in s.reserved
    && (reject.Some? ==>
          var gift := NameHash(reject.value);
          gift in s.offers && s.offers[gift].recipient == caller && Unhindered(s, gift, o))
    && (n in s.infos && !Declines(reject, n) ==> s.infos[n].expire + GRACE_PERIOD < s.now && Unhindered(s, n, o))
  }

  lemma TearFrees(s: State, n: Node, caller: Account, o: Open, s': State, m: Node)
    requires Inv(s) && n in Names(s) && Teardown(s, n, caller, 0, o) == Ok(s')
    ensures Inv(s') && n !in s'.tokens && s'.bank.Free(caller) == s.bank.Free(caller) + Worth(s, n, o, caller)
    ensures s'.now == s.now && s'.prices == s.prices && s'.infos == s.infos - {n}
    ensures m != n ==> Worth(s', m, o, caller) == Worth(s, m, o, caller)
    ensures m != n && IsName(m) ==>
      (m in s'.tokens <==> m in s.tokens) && (Unhindered(s', m, o) <==> Unhindered(s, m, o))
  {
    hide Inv, Teardown, Money;
    MoneyPart(s);
    NameFacts(s, n);
    TearName(s, n, caller, 0, o, s');
    TearRows(s, n, caller, 0, o, s');
    TeardownKeepsClock(s, n, caller, 0, o, s');
    TeardownPays(s, n, caller, 0, o, s', caller);
  }

  lemma GrantSucceeds(s: State, caller: Account, name: Label, o: Open, deposit: nat)
    requires FivePercent(Price(s.prices, name), deposit)
    ensures Grant(s, caller, name, o).Ok? <==> CanHold(s.bank.Free(caller), caller, o.fees, deposit)
  {
    ChargeSucceeds(s.bank, caller, o.fees);
    DepositIsFivePercent(s.prices, name);
    FivePercentIsUnique(Price(s.prices, name), deposit, CleanupShare(Price(s.prices, name)));
    hide FivePercent, CleanupShare, Price, Affords;
    if s.bank.Charge(caller, o.fees).Some? {
      ChargeMoves(s.bank, caller, o.fees, caller);
    }
  }

  lemma RejectGoes(s: State, caller: Account, reject: Option<Label>, o: Open)
    requires Inv(s)
    ensures reject.Some? ==>
      var (gift, r) := (NameHash(reject.value), RejectOffer(s, caller, NameHash(reject.value), o));
      && (r.Ok? <==> gift in s.offers && s.offers[gift].recipient == caller && Unhindered(s, gift, o))
      && (r.Ok? ==> gift in Names(s) && Teardown(s, gift, caller, 0, o) == r)
      && (r.Err? ==> r.error == NotOffered || r.error == HasSubnames)
  {
    hide Inv, Purge, Refund, UnlistUnless;
    if reject.Some? {
      NameFacts(s, NameHash(reject.value));
    }
  }

  /** Registration, step by step: the gift goes, the old registration goes, and the name is granted. */
  lemma RegisterInSteps(s: State, caller: Account, name: Label, reject: Option<Label>, o: Open, s1: State)
    requires caller !in s.primary && NameHash(name) !in s.reserved
    requires if reject.Some? then RejectOffer(s, caller, NameHash(reject.value), o) == Ok(s1) else s1 == s
    ensures var (n, r) := (NameHash(name), Register(s, caller, name, reject, o));
      && (!Registrable(s1, n) ==> r == Err(Occupied))
      && (Registrable(s1, n) && n !in s1.tokens ==> r == Grant(s1, caller, name, o))
      && (Registrable(s1, n) && n in s1.tokens ==>
            var torn := Teardown(s1, n, caller, 0, o);
            if torn.Ok? then r == Grant(torn.value, caller, name, o) else r == torn)
  {
    hide Teardown, RejectOffer, Grant;
  }

  lemma RegisterNeeds(s: State, caller: Account, name: Label, reject: Option<Label>, o: Open)
    ensures Register(s, caller, name, reject, o).Ok? ==>
      && caller !in s.primary && NameHash(name) !in s.reserved
      && (reject.Some? ==> RejectOffer(s, caller, NameHash(reject.value), o).Ok?)
  {
    hide Teardown, RejectOffer, Grant;
  }

  /** The second half, from the state in which a gift has been declined if there was one to decline. */
  lemma RestSucceeds(s: State, caller: Account, name: Label, reject: Option<Label>, o: Open, s1: State, deposit: nat)
    requires Inv(s1) && caller !in s.primary && NameHash(name) !in s.reserved
    requires if reject.Some? then RejectOffer(s, caller, NameHash(reject.value), o) == Ok(s1) else s1 == s
    requires FivePercent(Price(s1.prices, name), deposit)
    ensures var n := NameHash(name);
      Register(s, caller, name, reject, o).Ok? <==>
        && (n in s1.infos ==> s1.infos[n].expire + GRACE_PERIOD < s1.now && Unhindered(s1, n, o))
        && CanHold(s1.bank.Free(caller) + (if n in s1.tokens then Worth(s1, n, o, caller) else 0), caller, o.fees,
                   deposit)
  {
    hide Inv, Register, RejectOffer, Teardown, Grant, FivePercent, Price, CanHold, Worth;
    var n := NameHash(name);
    NameFacts(s1, n);
    RegisterInSteps(s, caller, name, reject, o, s1);
    if n in s1.tokens && Registrable(s1, n) {
      TeardownGoes(s1, n, caller, 0, o);
      if Teardown(s1, n, caller, 0, o).Ok? {
        var s2 := Teardown(s1, n, caller, 0, o).value;
        TearFrees(s1, n, caller, o, s2, n);
        GrantSucceeds(s2, caller, name, o, deposit);
      }
    } else {
      GrantSucceeds(s1, caller, name, o, deposit);
    }
  }

  /**
   A registration goes through exactly if the caller may register the name and, with what is torn down
   on the way paid back, can pay the fees and hold five percent of the price for the length of the label.
   */
  lemma RegisterSucceeds(s: State, caller: Account, name: Label, reject: Option<Label>, o: Open, price: nat,
                         deposit: nat)
    requires Inv(s) && Costs(s.prices, name, price) && FivePercent(price, deposit)
    ensures Register(s, caller, name, reject, o).Ok? <==>
      MayRegister(s, caller, name, reject, o) && CanHold(Freed(s, caller, name, reject, o), caller, o.fees, deposit)
  {
    hide Inv, Register, RejectOffer, Teardown, FivePercent, CanHold, Worth, CleanupShare;
    var n := NameHash(name);
    DepositIsFivePercent(s.prices, name);
    RegisterNeeds(s, caller, name, reject, o);
    RejectGoes(s, caller, reject, o);
    NameFacts(s, n);
    if caller !in s.primary && n !in s.reserved {
      if reject.None? {
        RestSucceeds(s, caller, name, reject, o, s, deposit);
      } else if RejectOffer(s, caller, NameHash(reject.value), o).Ok? {
        var s1 := RejectOffer(s, caller, NameHash(reject.value), o).value;
        TearFrees(s, NameHash(reject.value), caller, o, s1, n);
        RestSucceeds(s, caller, name, reject, o, s1, deposit);
      }
    }
  }

  /** Five percent of the price is what a registration has put on hold, besides giving back what it tears down. */
  lemma RegisterHolds(s: State, caller: Account, name: Label, reject: Option<Label>, o: Open, s': State,
                      price: nat, deposit: nat, who: Account)
    requires Inv(s) && Costs(s.prices, name, price) && FivePercent(price, deposit)
    requires Register(s, caller, name, reject, o) == Ok(s')
    ensures s'.bank.Held(CleanupDeposit, who) + RowShare(s, NameHash(name), who) + DeclinedShare(s, name, reject, who)
         == s.bank.Held(CleanupDeposit, who) + If(who == caller, deposit)
  {
    hide Inv, Register, RowShare, DeclinedShare;
    ReRegistrationReleasesRecord(s, caller, name, reject, o, s', who);
    DepositIsFivePercent(s.prices, name);
    FivePercentIsUnique(price, deposit, CleanupShare(Price(s.prices, name)));
  }

  // ---------- Renewal, transfer, release, acceptance ----------

  /**
   A renewal goes through exactly if the caller has a name and can pay the fees and, with the old deposit
   back if it was the caller's, hold five percent of the price. It sets the expiry and keeps everything else.
   */
  lemma RenewSucceeds(s: State, caller: Account, o: Open, price: nat, deposit: nat)
    requires Inv(s)
    requires caller in s.primary ==>
      s.primary[caller].Child? && Costs(s.prices, s.primary[caller].name, price) && FivePercent(price, deposit)
    ensures caller in s.primary ==> s.primary[caller] in s.deposits
    ensures Renew(s, caller, o).Ok? <==>
      && caller in s.primary
      && Affords(s.bank.Free(caller), caller, o.fees)
      && deposit <= AfterFees(s.bank.Free(caller), caller, o.fees) + Share(s.deposits[s.primary[caller]], caller)
    ensures caller !in s.primary ==> Renew(s, caller, o) == Err(NoCanonicalName)
  {
    if caller in s.primary {
      PrimaryFacts(s, caller);
      MoneyPart(s);
      HoldCoversRow(s, s.primary[caller]);
      hide Inv, Money;
      DepositIsFivePercent(s.prices, s.primary[caller].name);
      FivePercentIsUnique(price, deposit, CleanupShare(Price(s.prices, s.primary[caller].name)));
      hide FivePercent, CleanupShare, Price, Costs;
      ChargeSucceeds(s.bank, caller, o.fees);
      RenewInTwo(s, caller, o);
    }
  }

  lemma RenewInTwo(s: State, caller: Account, o: Open)
    requires caller in s.primary && s.primary[caller].Child? && s.primary[caller] in s.infos
    requires s.primary[caller] in s.deposits
    requires s.deposits[s.primary[caller]].1 <= s.bank.Held(CleanupDeposit, s.deposits[s.primary[caller]].0)
    ensures var n := s.primary[caller];
      Renew(s, caller, o).Ok? <==>
        && s.bank.Charge(caller, o.fees).Some?
        && CleanupShare(Price(s.prices, n.name))
           <= AfterFees(s.bank.Free(caller), caller, o.fees) + Share(s.deposits[n], caller)
  {
    var n := s.primary[caller];
    hide CleanupShare, Price;
    if s.bank.Charge(caller, o.fees).Some? {
      ChargeMoves(s.bank, caller, o.fees, caller);
      ChargeConserves(s.bank, caller, o.fees);
      var s1 := s.(bank := s.bank.Charge(caller, o.fees).value,
                   infos := s.infos[n := s.infos[n].(expire := o.expire, lastBlock := o.block)]);
      RotateSucceeds(s1, n, caller, CleanupShare(Price(s.prices, n.name)));
      hide Rotate;
    }
  }

  /** What a renewal writes: the expiry and the block it is in. */
  lemma RenewExtends(s: State, caller: Account, o: Open, s': State)
    requires Renew(s, caller, o) == Ok(s')
    ensures caller in s.primary && s.primary[caller] in s.infos
    ensures var n := s.primary[caller];
      s'.infos == s.infos[n := s.infos[n].(expire := o.expire, lastBlock := o.block)]
    ensures s'.tokens == s.tokens && s'.primary == s.primary && s'.records == s.records && s'.offers == s.offers
  {
    hide CleanupShare, Price;
  }

  /** A transfer goes through exactly between an account with a name and one without that can hold the deposit. */
  lemma TransferSucceeds(s: State, caller: Account, to: Account, o: Open)
    requires Inv(s)
    ensures caller in s.primary ==> s.primary[caller] in s.deposits
    ensures Transfer(s, caller, to, o).Ok? <==>
      && caller in s.primary && to !in s.primary
      && var row := s.deposits[s.primary[caller]];
         row.1 <= s.bank.Free(to) + Share(row, to)
    ensures caller !in s.primary ==> Transfer(s, caller, to, o) == Err(NoCanonicalName)
    ensures caller in s.primary && to in s.primary ==> Transfer(s, caller, to, o) == Err(AlreadyHasCanonicalName)
  {
    hide Inv, Money, Transfer, Rotate, Names, PrimaryWithout;
    TransferInOne(s, caller, to, o);
    if caller in s.primary {
      PrimaryFacts(s, caller);
      MoneyPart(s);
      HoldCoversRow(s, s.primary[caller]);
      RotateSucceeds(s, s.primary[caller], to, s.deposits[s.primary[caller]].1);
    }
  }

  lemma TransferInOne(s: State, caller: Account, to: Account, o: Open)
    ensures caller !in s.primary ==> Transfer(s, caller, to, o) == Err(NoCanonicalName)
    ensures caller in s.primary && to in s.primary ==> Transfer(s, caller, to, o) == Err(AlreadyHasCanonicalName)
    ensures
      caller in s.primary && to !in s.primary && s.primary[caller] in s.tokens && s.primary[caller] in s.deposits ==>
      (Transfer(s, caller, to, o).Ok? <==> Rotate(s, s.primary[caller], to, s.deposits[s.primary[caller]].1).Ok?)
  {
    hide Rotate, Unlist, ClearUserRecords, SetOwner;
  }

  /** A name can be given up exactly by whoever has one whose subnames do not stand in the way. */
  lemma ReleaseSucceeds(s: State, caller: Account, o: Open)
    requires Inv(s)
    ensures ReleaseName(s, caller, o).Ok? <==> caller in s.primary && Unhindered(s, s.primary[caller], o)
    ensures caller !in s.primary ==> ReleaseName(s, caller, o) == Err(NoCanonicalName)
  {
    hide Inv, Teardown;
    if caller in s.primary {
      PrimaryFacts(s, caller);
      TeardownGoes(s, s.primary[caller], caller, 0, o);
    }
  }

  /** A gift can be accepted exactly by its recipient, who has no name yet, if its carrier can hold the deposit. */
  lemma AcceptSucceeds(s: State, caller: Account, name: Label, o: Open)
    requires Inv(s)
    ensures NameHash(name) in s.offers ==> NameHash(name) in s.deposits
    ensures var n := NameHash(name);
      AcceptOffer(s, caller, name, o).Ok? <==>
        && n in s.offers && s.offers[n].recipient == caller && caller !in s.primary
        && o.amount <= s.bank.Free(o.carrier) + Share(s.deposits[n], o.carrier)
  {
    hide Inv, Money, Rotate, SetOwner;
    var n := NameHash(name);
    NameFacts(s, n);
    MoneyPart(s);
    if n in s.deposits {
      HoldCoversRow(s, n);
      RotateSucceeds(s, n, o.carrier, o.amount);
    }
  }

  /** An acceptance frees the recorded deposit and holds the new one on its carrier. */
  lemma AcceptMovesDeposit(s: State, caller: Account, name: Label, o: Open, s': State, who: Account)
    requires Inv(s) && AcceptOffer(s, caller, name, o) == Ok(s')
    ensures NameHash(name) in s.deposits
    ensures var (n, row) := (NameHash(name), s.deposits[NameHash(name)]);
      && s'.deposits == s.deposits[n := (o.carrier, o.amount)]
      && s'.bank.Free(who) + If(who == o.carrier, o.amount) == s.bank.Free(who) + Share(row, who)
      && s'.bank.Held(CleanupDeposit, who) + Share(row, who)
         == s.bank.Held(CleanupDeposit, who) + If(who == o.carrier, o.amount)
  {
    hide Inv, Money, AcceptOffer, Rotate;
    var n := NameHash(name);
    AcceptIsRotation(s, caller, name, o, s');
    AcceptOfferKeeps(s, caller, name, o);
    MoneyPart(s);
    MoneyPart(s');
    HoldCoversRow(s, n);
    RotateMoves(s, n, o.carrier, o.amount, Rotate(s, n, o.carrier, o.amount).value, who);
    HoldsFollowRow(s, s', n, (o.carrier, o.amount), who);
  }

  lemma AcceptIsRotation(s: State, caller: Account, name: Label, o: Open, s': State)
    requires AcceptOffer(s, caller, name, o) == Ok(s')
    ensures NameHash(name) in s.deposits
    ensures var (n, r) := (NameHash(name), Rotate(s, NameHash(name), o.carrier, o.amount));
      r.Ok? && s'.bank == r.value.bank && s'.deposits == s.deposits[n := (o.carrier, o.amount)]
  {
    var n := NameHash(name);
    RotateIsMoney(s, n, o.carrier, o.amount, Rotate(s, n, o.carrier, o.amount).value);
    hide Rotate;
  }

  // ---------- Listings ----------

  /**
   A name can be listed exactly by its owner, for a time still to come, with the deposit at hand, be it by the
   end of the listing it replaces; and not over a listing where listings outlive owners.
   */
  lemma ListSucceeds(s: State, caller: Account, price: nat, expiresAt: nat, o: Open)
    requires Inv(s)
    ensures CreateListing(s, caller, price, expiresAt, o).Ok? <==>
      && caller in s.primary && s.now < expiresAt
      && var n := s.primary[caller];
      && (n in s.listings ==> !o.keepListing)
      && LISTING_DEPOSIT
         <= s.bank.Free(caller) + If(n in s.listings && s.listings[n].seller == caller, LISTING_DEPOSIT)
    ensures caller !in s.primary ==> CreateListing(s, caller, price, expiresAt, o) == Err(NoCanonicalName)
    ensures caller in s.primary && expiresAt <= s.now ==>
      CreateListing(s, caller, price, expiresAt, o) == Err(ExpiryNotInFuture)
  {
    hide Inv, Money, CreateListing, Unlist, Names, PrimaryWithout;
    ListInOne(s, caller, price, expiresAt, o);
    if caller in s.primary {
      UnlistNothing(s, s.primary[caller]);
      if s.primary[caller] in s.listings {
        MoneyPart(s);
        HoldCoversRow(s, s.primary[caller]);
        UnlistMoves(s, s.primary[caller], caller);
      }
    }
  }

  lemma ListInOne(s: State, caller: Account, price: nat, expiresAt: nat, o: Open)
    ensures var r := CreateListing(s, caller, price, expiresAt, o);
      && (caller !in s.primary ==> r == Err(NoCanonicalName))
      && (caller in s.primary && expiresAt <= s.now ==> r == Err(ExpiryNotInFuture))
      && (caller in s.primary && s.now < expiresAt ==>
            (r.Ok? <==> (s.primary[caller] in s.listings ==> !o.keepListing)
                        && LISTING_DEPOSIT <= Unlist(s, s.primary[caller]).bank.Free(caller)))
  {
    hide Unlist;
  }

  lemma UnlistNothing(s: State, n: Node)
    ensures n !in s.listings ==> Unlist(s, n) == s
  {
  }

  lemma CancelSucceeds(s: State, caller: Account)
    ensures CancelListing(s, caller).Ok? <==> caller in s.primary && s.primary[caller] in s.listings
    ensures caller !in s.primary ==> CancelListing(s, caller) == Err(NoCanonicalName)
    ensures caller in s.primary && s.primary[caller] !in s.listings ==> CancelListing(s, caller) == Err(ListingNotFound)
  {
    hide Unlist;
  }

  // ---------- Subnames ----------

  /** `m` has a row of this target and in this state. */
  predicate Row(s: State, m: Node, target: Account, state: SubnameState) {
    m in s.subnames && s.subnames[m].target == target && s.subnames[m].state == state
  }

  /** Rows of other subnames stay. */
  ghost predicate OtherRows(s: State, s': State, m: Node) {
    s'.subnames - {m} == s.subnames - {m}
  }

  /** A subname can be offered by whoever has a name, to anyone else, unless it is active; then it is on offer. */
  lemma OfferSubnameSucceeds(s: State, caller: Account, name: Label, target: Account)
    ensures var r := OfferSubname(s, caller, name, target);
      && (r.Ok? <==>
            && caller in s.primary && target != caller
            && var m := Child(s.primary[caller], name);
               m in s.subnames ==> s.subnames[m].state != Active)
      && (caller !in s.primary ==> r == Err(NoCanonicalName))
      && (caller in s.primary && target == caller ==> r == Err(CannotOwnSubnameUnderOwnDomain))
      && (r.Ok? ==>
            var m := Child(s.primary[caller], name);
            Row(r.value, m, target, Offered) && OtherRows(s, r.value, m))
  {
  }

  /** An offer can be turned down by its target alone, and taken up by it while the parent is registered. */
  lemma AnswerSubnameSucceeds(s: State, caller: Account, parent: Label, name: Label)
    ensures var (m, r) := (SubnameHash(parent, name), AcceptSubname(s, caller, parent, name));
      && (r.Ok? <==> NameHash(parent) in s.tokens && Row(s, m, caller, Offered))
      && (r.Ok? ==> Row(r.value, m, caller, Active) && OtherRows(s, r.value, m))
    ensures var (m, r) := (SubnameHash(parent, name), RejectSubname(s, caller, parent, name));
      && (r.Ok? <==> Row(s, m, caller, Offered))
      && (r.Ok? ==> Row(r.value, m, caller, Rejected) && OtherRows(s, r.value, m))
    ensures var m := SubnameHash(parent, name);
      m in s.subnames && s.subnames[m].target != caller ==>
        && RejectSubname(s, caller, parent, name) == Err(NotSubnameTarget)
        && ReleaseSubname(s, caller, parent, name) == Err(NotSubnameTarget)
        && AcceptSubname(s, caller, parent, name).Err?
  {
  }

  /** An active subname can be released by its target alone; any row can be revoked by the owner of the parent alone. */
  lemma EndSubnameSucceeds(s: State, caller: Account, parent: Label, name: Label)
    ensures var (m, r) := (SubnameHash(parent, name), ReleaseSubname(s, caller, parent, name));
      && (r.Ok? <==> Row(s, m, caller, Active))
      && (r.Ok? ==> m !in r.value.subnames && OtherRows(s, r.value, m))
    ensures var r := RevokeSubname(s, caller, name);
      && (r.Ok? <==> caller in s.primary && Child(s.primary[caller], name) in s.subnames)
      && (caller !in s.primary ==> r == Err(NoCanonicalName))
      && (caller in s.primary && Child(s.primary[caller], name) !in s.subnames ==> r == Err(SubnameNotFound))
      && (r.Ok? ==> var m := Child(s.primary[caller], name); m !in r.value.subnames && OtherRows(s, r.value, m))
  {
  }
}
