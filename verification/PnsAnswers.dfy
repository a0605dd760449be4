/** What the calls of the name system do to what its read view answers. */
module PnsAnswers {
  import opened Wrappers
  import opened Balances
  import opened PnsTypes
  import opened PnsSteps
  import opened PnsInvariants
  import opened PnsRuns
  import opened PnsEffects
  import opened PnsRuntimeApi

  // ---------- Registration ----------

  lemma GrantAnswers(s: State, caller: Account, name: Label, o: Open, s': State)
    requires Grant(s, caller, name, o) == Ok(s')
    ensures var n := NameHash(name);
      && n in s'.tokens && s'.tokens[n].owner == caller && s'.now == s.now
      && caller in s'.primary && s'.primary[caller] == n
      && n in s'.infos
      && s'.infos[n] == Info(s.now + MAX_REGISTRATION, DEFAULT_CAPACITY, Price(s.prices, name), o.block)
  {
  }

  lemma RegisterEndsInGrant(s: State, caller: Account, name: Label, reject: Option<Label>, o: Open)
    returns (before: State)
    requires Register(s, caller, name, reject, o).Ok?
    ensures before.now == s.now && before.prices == s.prices
    ensures Register(s, caller, name, reject, o) == Grant(before, caller, name, o)
  {
    hide Register, RejectOffer, Teardown, Grant;
    var s1, s2 := RegisterParts(s, caller, name, reject, o);
    if reject.Some? {
      RejectKeepsClock(s, caller, NameHash(reject.value), o, s1);
    }
    if NameHash(name) in s1.tokens {
      TeardownKeepsClock(s1, NameHash(name), caller, 0, o, s2);
    }
    before := s2;
  }

  lemma RejectKeepsClock(s: State, caller: Account, gift: Node, o: Open, s1: State)
    requires RejectOffer(s, caller, gift, o) == Ok(s1)
    ensures s1.now == s.now && s1.prices == s.prices
  {
    TeardownKeepsClock(s, gift, caller, 0, o, s1);
    hide Teardown;
  }

  /** Whatever stood in the way before, a name just registered resolves at once to its new owner, for a year. */
  lemma RegistrationResolves(s: State, caller: Account, name: Label, reject: Option<Label>, o: Open,
                             s': State, time: nat)
    requires Inv(s) && Register(s, caller, name, reject, o) == Ok(s')
    ensures var answer := GetInfo(s'.(now := time), NameHash(name));
      && (answer.Some? <==> time < s.now + MAX_REGISTRATION)
      && (answer.Some? ==>
            && answer.value.owner == caller && answer.value.expire == s.now + MAX_REGISTRATION
            && answer.value.registerFee == Price(s.prices, name) && answer.value.capacity == DEFAULT_CAPACITY
            && answer.value.lastBlock == o.block
            && answer.value.readBlockNumber == 0 && answer.value.readBlockHash == 0)
  {
    hide Inv, Register, Grant, Price, Names, PrimaryWithout;
    RegisterKeeps(s, caller, name, reject, o);
    var before := RegisterEndsInGrant(s, caller, name, reject, o);
    GrantAnswers(before, caller, name, o, s');
    PrimaryFacts(s', caller);
  }

  // ---------- Changes of owner ----------

  /** A transfer changes whom a name resolves to, and neither whether nor for how long it does. */
  lemma TransferRedirects(s: State, caller: Account, to: Account, o: Open, s': State)
    requires Inv(s) && Transfer(s, caller, to, o) == Ok(s')
    ensures caller in s.primary
    ensures var n := s.primary[caller];
      var (was, becomes) := (GetInfo(s, n), GetInfo(s', n));
      && (becomes.Some? <==> was.Some?)
      && (becomes.Some? ==> was.value.owner == caller && becomes.value.owner == to
                            && becomes.value.expire == was.value.expire
                            && becomes.value.registerFee == was.value.registerFee
                            && becomes.value.capacity == was.value.capacity)
  {
    hide Inv, Transfer, Names, PrimaryWithout;
    TransferNeedsPrimary(s, caller, to, o);
    PrimaryFacts(s, caller);
    TransferAnswers(s, caller, to, o, s');
  }

  lemma TransferAnswers(s: State, caller: Account, to: Account, o: Open, s': State)
    requires Transfer(s, caller, to, o) == Ok(s') && caller in s.primary && s.primary[caller] in s.tokens
    ensures var n := s.primary[caller];
      && s'.infos == s.infos && s'.offers == s.offers && s'.now == s.now
      && n in s'.tokens && s'.tokens[n].owner == to
  {
    var n := s.primary[caller];
    var s1 := Rotate(s, n, to, s.deposits[n].1).value;
    RotateIsMoney(s, n, to, s.deposits[n].1, s1);
    UnlistIsMoney(s1, n);
    hide Rotate, Unlist;
  }

  lemma SellAnswers(s: State, n: Node, buyer: Account, recipient: Option<Account>, o: Open, s': State)
    requires n in s.listings && n in s.tokens && n in s.deposits && Sell(s, n, buyer, recipient, o) == Ok(s')
    ensures s'.infos == s.infos && s'.now == s.now && n in s'.tokens
    ensures recipient.None? ==> s'.offers == s.offers && s'.tokens[n].owner == buyer
  {
    hide Settle;
    var paid := s.(bank := Settle(s.bank, buyer, s.listings[n], o.fees).value);
    UnlistIsMoney(paid, n);
    var s1 := Rotate(Unlist(paid, n), n, CarrierOf(buyer, recipient, o), o.amount).value;
    RotateIsMoney(Unlist(paid, n), n, CarrierOf(buyer, recipient, o), o.amount, s1);
    hide Rotate, Unlist;
  }

  /** A name bought for oneself resolves to the buyer just as it resolved to the seller. */
  lemma PurchaseRedirects(s: State, buyer: Account, name: Label, o: Open, s': State)
    requires Buy(s, buyer, name, None, o) == Ok(s')
    ensures var n := NameHash(name);
      && (GetInfo(s', n).Some? <==> GetInfo(s, n).Some?)
      && (GetInfo(s', n).Some? ==> GetInfo(s', n).value.owner == buyer && !GetInfo(s', n).value.forSale
                                   && GetInfo(s', n).value.expire == GetInfo(s, n).value.expire)
  {
    var n := NameHash(name);
    BuyNeedsSale(s, buyer, name, None, o);
    hide Buy, Sell, Sold;
    SellAnswers(s, n, buyer, None, o, s');
    SellSells(s, n, buyer, None, o, s');
    SoldIsOver(s, n, buyer, None, o, s');
  }

  lemma SoldIsOver(s: State, n: Node, buyer: Account, recipient: Option<Account>, o: Open, s': State)
    requires Sold(s, n, buyer, recipient, o, s')
    ensures n !in s'.listings
    ensures recipient.Some? ==> n in s'.offers && s'.offers[n] == Offer(recipient.value, buyer, s.now)
  {
  }

  /** A name bought as a gift is hidden from everyone until the offer's window is over. */
  lemma GiftHides(s: State, buyer: Account, name: Label, to: Account, o: Open, s': State, time: nat)
    requires Buy(s, buyer, name, Some(to), o) == Ok(s')
    requires time < SaturatingAdd(s.now, OFFER_WINDOW)
    ensures GetInfo(s'.(now := time), NameHash(name)) == None
  {
    var n := NameHash(name);
    BuyNeedsSale(s, buyer, name, Some(to), o);
    hide Buy, Sell, Sold;
    SellSells(s, n, buyer, Some(to), o, s');
    SoldIsOver(s, n, buyer, Some(to), o, s');
  }

  /** Accepting the gift shows the name again, at once, as the recipient's. */
  lemma AcceptanceReveals(s: State, caller: Account, name: Label, o: Open, s': State)
    requires Inv(s) && AcceptOffer(s, caller, name, o) == Ok(s')
    ensures var n := NameHash(name);
      && n in s.infos && n !in s'.offers && caller in s'.primary && s'.primary[caller] == n
      && (GetInfo(s', n).Some? <==> s.now < s.infos[n].expire)
      && (GetInfo(s', n).Some? ==> GetInfo(s', n).value.owner == caller)
  {
    hide Inv, AcceptOffer, Names, PrimaryWithout;
    var n := NameHash(name);
    NameFacts(s, n);
    AcceptAnswers(s, caller, name, o, s');
  }

  lemma AcceptAnswers(s: State, caller: Account, name: Label, o: Open, s': State)
    requires AcceptOffer(s, caller, name, o) == Ok(s')
    ensures var n := NameHash(name);
      && n in s.tokens && s'.infos == s.infos && s'.now == s.now && n !in s'.offers
      && n in s'.tokens && s'.tokens[n].owner == caller && caller in s'.primary && s'.primary[caller] == n
  {
    var n := NameHash(name);
    RotateIsMoney(s, n, o.carrier, o.amount, Rotate(s, n, o.carrier, o.amount).value);
    hide Rotate;
  }

  // ---------- Records ----------

  lemma {:induction false} LookupFrame(s: State, s': State, n: Node, types: seq<RecordType>)
    requires forall t :: t in types ==> ((n, t) in s'.records <==> (n, t) in s.records)
    requires forall t :: t in types && (n, t) in s.records ==> s'.records[(n, t)] == s.records[(n, t)]
    ensures Lookup(s', n, types) == Lookup(s, n, types)
    decreases |types|
  {
    if types != [] {
      LookupFrame(s, s', n, types[1..]);
    }
  }

  /** The answer follows the order of the request: asking for more appends the answers. */
  lemma {:induction false} LookupIsInOrder(s: State, n: Node, types: seq<RecordType>, more: seq<RecordType>)
    ensures Lookup(s, n, types + more) == Lookup(s, n, types) + Lookup(s, n, more)
    decreases |types|
  {
    if types == [] {
      assert types + more == more;
    } else {
      assert (types + more)[1..] == types[1..] + more;
      LookupIsInOrder(s, n, types[1..], more);
    }
  }

  /** A record that was set is what a lookup by name finds, for every name that parses to the node. */
  lemma RecordIsFoundByName(parse: NodeParser, name: string, s: State, caller: Account, n: Node, t: RecordType,
                            content: seq<nat>, s': State)
    requires SetRecord(s, caller, n, t, content) == Ok(s') && parse(name) == Some(n)
    ensures LookupByName(parse, s', name, [t]) == [(t, Bytes(content))]
  {
    RecordRoundTrip(s, caller, n, t, content, s', n, []);
    hide SetRecord;
  }

  /** A record that was set is what a lookup finds, and no other answer changes. */
  lemma RecordRoundTrip(s: State, caller: Account, n: Node, t: RecordType, content: seq<nat>, s': State,
                        m: Node, types: seq<RecordType>)
    requires SetRecord(s, caller, n, t, content) == Ok(s')
    ensures Lookup(s', n, [t]) == [(t, Bytes(content))]
    ensures m != n || t !in types ==> Lookup(s', m, types) == Lookup(s, m, types)
    ensures GetInfo(s', m) == GetInfo(s, m)
  {
    assert Lookup(s', n, []) == [];
    if m != n || t !in types {
      LookupFrame(s, s', m, types);
    }
  }

  /** Text entries are kept apart: setting one changes no lookup. */
  lemma TextsAreApart(s: State, caller: Account, n: Node, kind: nat, content: seq<nat>, s': State,
                      m: Node, types: seq<RecordType>)
    requires SetText(s, caller, n, kind, content) == Ok(s')
    ensures (n, kind) in s'.texts && s'.texts[(n, kind)] == Bytes(content)
    ensures Lookup(s', m, types) == Lookup(s, m, types) && GetInfo(s', m) == GetInfo(s, m)
  {
    LookupFrame(s, s', m, types);
  }

  lemma {:induction false} LookupFinds(s: State, n: Node, types: seq<RecordType>, t: RecordType, c: Content)
    ensures (t, c) in Lookup(s, n, types) <==> t in types && (n, t) in s.records && s.records[(n, t)] == c
    decreases |types|
  {
    if types != [] {
      LookupFinds(s, n, types[1..], t, c);
      assert t in types <==> t == types[0] || t in types[1..];
    }
  }
}
