/** When a sale goes through: who may buy what, what it takes to pay for it, and how each refusal reads. */
module PnsSales {
  import opened Wrappers
  import opened Balances
  import opened PnsTypes
  import opened PnsSteps
  import opened PnsInvariants
  import opened PnsRuns
  import opened PnsEffects

  /** Whoever coincides, a deposit moves exactly if its new carrier can hold it once the old one is freed. */
  lemma RotateSucceeds(s: State, n: Node, who: Account, amount: nat)
    requires n in s.deposits && s.deposits[n].1 <= s.bank.Held(CleanupDeposit, s.deposits[n].0)
    ensures Rotate(s, n, who, amount).Ok? <==> amount <= s.bank.Free(who) + Share(s.deposits[n], who)
    ensures Rotate(s, n, who, amount).Err? ==> Rotate(s, n, who, amount).error == FundsUnavailable
  {
  }

  /** The seller is left with 98 percent of the price. */
  predicate FeesAreLow(price: nat, fees: seq<(Account, nat)>) {
    price * 98 / 100 + SumOf(fees) <= price
  }

  lemma SettleSucceeds(b: Bank, buyer: Account, l: Listing, fees: seq<(Account, nat)>)
    requires buyer != l.seller
    ensures var r := Settle(b, buyer, l, fees);
      && (!FeesAreLow(l.price, fees) ==> r == Err(FeeTooHigh))
      && (FeesAreLow(l.price, fees) ==>
            var net := l.price - SumOf(fees);
            && (r.Ok? <==> net <= b.Free(buyer) && Affords(b.Free(buyer) - net, buyer, fees))
            && (r.Err? ==> r.error == FundsUnavailable))
  {
    hide Affords, FeesAreLow, SumOf;
    LowMeansBelowCut(l.price, SumOf(fees), fees);
    if FeesAreLow(l.price, fees) && l.price - SumOf(fees) <= b.Free(buyer) {
      var net := l.price - SumOf(fees);
      PaidLeaves(b, buyer, l.seller, net);
      ChargeSucceeds(b.Transfer(buyer, l.seller, net).value, buyer, fees);
    }
  }

  lemma LowMeansBelowCut(price: nat, sum: nat, fees: seq<(Account, nat)>)
    requires sum == SumOf(fees)
    ensures FeesAreLow(price, fees) <==> sum <= price - price * 98 / 100
    ensures FeesAreLow(price, fees) ==> sum <= price
  {
    hide SumOf;
  }

  lemma PaidLeaves(b: Bank, from: Account, to: Account, amount: nat)
    requires from != to && amount <= b.Free(from)
    ensures b.Transfer(from, to, amount).Some?
    ensures b.Transfer(from, to, amount).value.Free(from) == b.Free(from) - amount
  {
  }

  // ---------- The conditions ----------

  /** The name is listed, registered and not on offer, and buyer, seller and recipient are different accounts. */
  predicate ForSaleTo(s: State, n: Node, buyer: Account, recipient: Option<Account>) {
    && n in s.listings && n in s.tokens && n !in s.offers
    && buyer != s.listings[n].seller && recipient != Some(buyer) && recipient != Some(s.listings[n].seller)
    && (recipient.None? ==> buyer !in s.primary)
  }

  /**
   The buyer has the price less the fees, then the fees; and once all that is paid, the listing deposit is
   back with the seller and the old cleanup deposit with whoever is recorded for it, the carrier has the new one.
   */
  ghost predicate CanPay(s: State, n: Node, buyer: Account, recipient: Option<Account>, o: Open)
    requires n in s.listings && n in s.deposits && FeesAreLow(s.listings[n].price, o.fees)
  {
    var (seller, price, c) := (s.listings[n].seller, s.listings[n].price, CarrierOf(buyer, recipient, o));
    && price - SumOf(o.fees) <= s.bank.Free(buyer)
    && Affords(s.bank.Free(buyer) - (price - SumOf(o.fees)), buyer, o.fees)
    && If(c == buyer, price) + o.amount
       <= s.bank.Free(c) + If(c == seller, price - SumOf(o.fees) + LISTING_DEPOSIT) + Received(o.fees, c)
          + Share(s.deposits[n], c)
  }

  // ---------- The result ----------

  /** A sale is a payment followed by a move of the cleanup deposit, and fails only if one of the two does. */
  lemma SellInTwo(s: State, n: Node, buyer: Account, recipient: Option<Account>, o: Open)
    requires n in s.listings && n in s.tokens && n in s.deposits
    ensures var (r, paid) := (Sell(s, n, buyer, recipient, o), Settle(s.bank, buyer, s.listings[n], o.fees));
      && (paid.Err? ==> r == Err(paid.error))
      && (paid.Ok? ==>
            && n in Paid(s, n, buyer, o).deposits
            && var moved := Rotate(Paid(s, n, buyer, o), n, CarrierOf(buyer, recipient, o), o.amount);
            && (r.Ok? <==> moved.Ok?) && (moved.Err? ==> r == Err(moved.error)))
  {
    hide Settle, Rotate, Unlist, ClearUserRecords, HandOver;
  }

  lemma SellSucceeds(s: State, n: Node, buyer: Account, recipient: Option<Account>, o: Open)
    requires Money(s) && n in s.listings && n in s.tokens && n in s.deposits && buyer != s.listings[n].seller
    ensures var r := Sell(s, n, buyer, recipient, o);
      && (!FeesAreLow(s.listings[n].price, o.fees) ==> r == Err(FeeTooHigh))
      && (FeesAreLow(s.listings[n].price, o.fees) ==>
            && (r.Ok? <==> CanPay(s, n, buyer, recipient, o))
            && (r.Err? ==> r.error == FundsUnavailable))
  {
    hide Money, Settle, FeesAreLow, Sell, Rotate, Unlist, Affords, Paid, Received, SumOf;
    SettleSucceeds(s.bank, buyer, s.listings[n], o.fees);
    SellInTwo(s, n, buyer, recipient, o);
    var c := CarrierOf(buyer, recipient, o);
    if Settle(s.bank, buyer, s.listings[n], o.fees).Ok? {
      PaidPays(s, n, buyer, o, c);
      PaidHasRow(s, n, buyer, o);
      RotateSucceeds(Paid(s, n, buyer, o), n, c, o.amount);
    }
  }

  lemma PaidHasRow(s: State, n: Node, buyer: Account, o: Open)
    requires n in s.listings && Settle(s.bank, buyer, s.listings[n], o.fees).Ok?
    ensures Paid(s, n, buyer, o).deposits == s.deposits
  {
    hide Settle;
  }

  lemma BuyGuards(s: State, buyer: Account, name: Label, recipient: Option<Account>, o: Open)
    requires NameHash(name) in s.tokens ==> NameHash(name) in s.deposits
    ensures var (n, r) := (NameHash(name), Buy(s, buyer, name, recipient, o));
      && (n !in s.listings ==> r == Err(ListingNotFound))
      && (n in s.listings ==>
            var seller := s.listings[n].seller;
            && (buyer == seller ==> r == Err(BuyerIsSeller))
            && (buyer != seller && recipient == Some(buyer) ==> r == Err(BuyerIsRecipient))
            && (buyer != seller && recipient == Some(seller) ==> r == Err(SellerIsRecipient))
            && (buyer != seller && recipient != Some(buyer) && recipient != Some(seller) ==>
                  && (n !in s.tokens || n in s.offers ==> r == Err(NotForSale))
                  && (n in s.tokens && n !in s.offers && recipient.None? && buyer in s.primary ==>
                        r == Err(AlreadyHasCanonicalName))))
    ensures var n := NameHash(name);
      ForSaleTo(s, n, buyer, recipient) ==>
        n in s.deposits && Buy(s, buyer, name, recipient, o) == Sell(s, n, buyer, recipient, o)
  {
    hide Sell;
  }

  /** A sale goes through exactly if the name is for sale to the buyer, the fees are low, and everyone can pay. */
  lemma BuySucceeds(s: State, buyer: Account, name: Label, recipient: Option<Account>, o: Open)
    requires Inv(s)
    ensures NameHash(name) in s.tokens ==> NameHash(name) in s.deposits
    ensures var n := NameHash(name);
      Buy(s, buyer, name, recipient, o).Ok? <==>
        && ForSaleTo(s, n, buyer, recipient)
        && FeesAreLow(s.listings[n].price, o.fees)
        && CanPay(s, n, buyer, recipient, o)
  {
    hide Inv, Buy, Sell, CanPay, FeesAreLow;
    NameFacts(s, NameHash(name));
    MoneyPart(s);
    BuyGuards(s, buyer, name, recipient, o);
    if ForSaleTo(s, NameHash(name), buyer, recipient) {
      SellSucceeds(s, NameHash(name), buyer, recipient, o);
    }
  }

  /** How each refusal reads. */
  lemma BuyRefusals(s: State, buyer: Account, name: Label, recipient: Option<Account>, o: Open)
    requires Inv(s)
    ensures var (n, r) := (NameHash(name), Buy(s, buyer, name, recipient, o));
      && (r == Err(ListingNotFound) <==> n !in s.listings)
      && (r == Err(BuyerIsSeller) <==> n in s.listings && buyer == s.listings[n].seller)
      && (r == Err(FeeTooHigh) <==> ForSaleTo(s, n, buyer, recipient) && !FeesAreLow(s.listings[n].price, o.fees))
      && (r == Err(BuyerIsRecipient) || r == Err(SellerIsRecipient) ==> recipient.Some?)
      && (r == Err(AlreadyHasCanonicalName) ==> recipient.None? && buyer in s.primary)
  {
    hide Inv, Buy, Sell, CanPay, FeesAreLow;
    NameFacts(s, NameHash(name));
    MoneyPart(s);
    BuyGuards(s, buyer, name, recipient, o);
    if ForSaleTo(s, NameHash(name), buyer, recipient) {
      SellSucceeds(s, NameHash(name), buyer, recipient, o);
    }
  }

  /**
   The plain case: the buyer buys for itself, and neither the fees nor the recorded deposit come back to it. Whoever
   has no name yet, and enough for price and deposit, gets any listed name that is not on offer.
   */
  lemma PlainPurchase(s: State, buyer: Account, name: Label, o: Open)
    requires Inv(s) && NameHash(name) in s.listings && NameHash(name) in s.tokens && NameHash(name) !in s.offers
    requires buyer != s.listings[NameHash(name)].seller && buyer !in s.primary
    requires forall f :: f in o.fees ==> f.0 != buyer
    ensures NameHash(name) in s.deposits
    ensures var n := NameHash(name);
      s.deposits[n].0 != buyer && FeesAreLow(s.listings[n].price, o.fees) ==>
        (Buy(s, buyer, name, None, o).Ok? <==> s.listings[n].price + o.amount <= s.bank.Free(buyer))
  {
    hide Inv, Buy;
    var n := NameHash(name);
    BuySucceeds(s, buyer, name, None, o);
    if FeesAreLow(s.listings[n].price, o.fees) && s.listings[n].price - SumOf(o.fees) <= s.bank.Free(buyer) {
      AffordsSum(s.bank.Free(buyer) - (s.listings[n].price - SumOf(o.fees)), buyer, o.fees);
    } else {
      AffordsSum(0, buyer, o.fees);
    }
    hide Affords;
  }
}
