/**
 Whose a name is, and how it can be taken. A listing that outlives the ownership it was made under lets a
 stranger buy the name from its new owner; without such listings nobody loses a name but by their own call.
 */
module PnsTitle {
  import opened Wrappers
  import opened Balances
  import opened PnsTypes
  import opened PnsSteps
  import opened PnsInvariants
  import opened PnsRuns
  import opened PnsTree
  import opened PnsHistory
  import opened PnsEffects
  import opened PnsCleanup

  /** Whoever listed `n` still owns it. */
  predicate Rightful(s: State, n: Node)
    requires n in s.listings
  {
    IsName(n) && n in s.tokens && n !in s.offers && s.tokens[n].owner == s.listings[n].seller
  }

  ghost predicate SellersOwn(s: State) {
    forall n :: n in s.listings ==> Rightful(s, n)
  }

  // ---------- Parts ----------

  /** A listing whose name is gone. */
  predicate Lost(s: State, n: Node) {
    n in s.listings && n !in s.tokens
  }

  /** Tearing `n` down leaves its listing behind. */
  predicate LeavesListing(s: State, n: Node, o: Open) {
    o.keepListing && n in s.listings
  }

  lemma TearRows(s: State, n: Node, caller: Account, bounty: nat, o: Open, s': State)
    requires Teardown(s, n, caller, bounty, o) == Ok(s')
    ensures s'.listings == if o.keepListing then s.listings else s.listings - {n}
    ensures s'.primary == map a | a in s.primary && s.primary[a] != n :: s.primary[a]
    ensures s'.offers == s.offers - {n} && s'.tokens.Keys <= s.tokens.Keys
    ensures s'.infos == s.infos - {n} && s'.now == s.now
  {
    TeardownIsPurge(s, n, caller, bounty, o, s');
    TeardownListings(s, n, caller, bounty, o, s');
    hide Teardown;
  }

  lemma TearListing(s: State, n: Node, caller: Account, bounty: nat, o: Open, s': State)
    requires Inv(s) && SellersOwn(s) && n in Names(s) && Teardown(s, n, caller, bounty, o) == Ok(s')
    ensures !LeavesListing(s, n, o) ==> SellersOwn(s')
    ensures LeavesListing(s, n, o) ==> Lost(s', n)
  {
    hide Inv, Teardown, Registered, Owned, Linked, Nested, Removable;
    RowParts(s);
    TearRows(s, n, caller, bounty, o, s');
    TeardownBranch(s, n, caller, bounty, o, s');
    forall m | m in s'.listings && !LeavesListing(s, n, o) ensures Rightful(s', m) {
      assert Rightful(s, m) && m != n;
    }
  }

  lemma LostStays(s: State, m: Node, n: Node, caller: Account, bounty: nat, o: Open, s': State)
    requires Lost(s, m) && o.keepListing && Teardown(s, n, caller, bounty, o) == Ok(s')
    ensures Lost(s', m)
  {
    hide Teardown;
    TearRows(s, n, caller, bounty, o, s');
    assert m !in s'.tokens.Keys;
  }

  // ---------- Calls that tear names down ----------

  ghost predicate CleanupLeavesListing(s: State, deadline: nat, due: seq<Node>, o: Open) {
    exists n :: n in due && Due(s, deadline, n) && MayGo(s, n, o) && LeavesListing(s, n, o)
  }

  predicate RegisterLeavesListing(s: State, name: Label, reject: Option<Label>, o: Open) {
    reject != Some(name) && NameHash(name) in s.tokens && LeavesListing(s, NameHash(name), o)
  }

  /** The call succeeds, and a listing outlives by it the ownership it was made under. */
  ghost predicate OutlivesOwner(s: State, op: Op) {
    Apply(s, op).Ok? &&
    match op
    case OpTransfer(caller, _, o) => caller in s.primary && LeavesListing(s, s.primary[caller], o)
    case OpReleaseName(caller, o) => caller in s.primary && LeavesListing(s, s.primary[caller], o)
    case OpRegister(_, name, reject, o) => RegisterLeavesListing(s, name, reject, o)
    case OpCleanup(_, deadline, due, o) => CleanupLeavesListing(s, deadline, due, o)
    case _ => false
  }

  /** After a call: every seller owns what is listed, or some listing is not its seller's. */
  ghost predicate Becomes(s': State, outlived: bool) {
    (outlived ==> exists n :: n in s'.listings && !Rightful(s', n)) && (!outlived ==> SellersOwn(s'))
  }

  lemma BecomesOwned(s': State, outlived: bool)
    requires Becomes(s', outlived)
    ensures SellersOwn(s') <==> !outlived
  {
  }

  lemma ReleaseTitle(s: State, caller: Account, o: Open)
    requires Inv(s) && SellersOwn(s) && ReleaseName(s, caller, o).Ok?
    ensures Becomes(ReleaseName(s, caller, o).value, OutlivesOwner(s, OpReleaseName(caller, o)))
  {
    hide Inv, SellersOwn, Teardown, Rightful;
    PrimaryFacts(s, caller);
    TearListing(s, s.primary[caller], caller, 0, o, ReleaseName(s, caller, o).value);
    LostIsUnrightful(ReleaseName(s, caller, o).value, s.primary[caller]);
  }

  lemma LostIsUnrightful(s: State, n: Node)
    ensures Lost(s, n) ==> n in s.listings && !Rightful(s, n)
  {
  }

  lemma {:induction false} CleanupLost(s: State, caller: Account, deadline: nat, due: seq<Node>, o: Open, m: Node)
    requires Lost(s, m) && o.keepListing
    ensures Lost(CleanupEach(s, caller, deadline, due, o), m)
    decreases |due|
  {
    hide Teardown, Lost;
    if due != [] {
      var n, s1 := due[0], CleanupOne(s, caller, deadline, due[0], o);
      if s1 != s {
        LostStays(s, m, n, caller, BountyFrom(s.deposits[n].1, o.bounty), o, s1);
      }
      CleanupLost(s1, caller, deadline, due[1..], o, m);
    }
  }

  lemma {:induction false} CleanupTitle(s: State, caller: Account, deadline: nat, due: seq<Node>, o: Open)
    requires Inv(s) && SellersOwn(s)
    ensures Becomes(CleanupEach(s, caller, deadline, due, o), CleanupLeavesListing(s, deadline, due, o))
    decreases |due|
  {
    hide Inv, SellersOwn, Teardown, CleanupOne, Rightful, Lost, MayGo, LeavesListing;
    if due != [] {
      var n, s1 := due[0], CleanupOne(s, caller, deadline, due[0], o);
      CleanupOneTitle(s, caller, deadline, n, o);
      CleanupOneKeeps(s, caller, deadline, n, o);
      if Due(s, deadline, n) && MayGo(s, n, o) && LeavesListing(s, n, o) {
        KeptListing(s, n, o);
        CleanupLost(s1, caller, deadline, due[1..], o, n);
        LostIsUnrightful(CleanupEach(s, caller, deadline, due, o), n);
        assert n in due;
      } else {
        CleanupTitle(s1, caller, deadline, due[1..], o);
        ListingsLater(s, s1, caller, deadline, due, o);
      }
    }
  }

  lemma KeptListing(s: State, n: Node, o: Open)
    requires LeavesListing(s, n, o)
    ensures o.keepListing
  {
  }

  lemma CleanupOneTitle(s: State, caller: Account, deadline: nat, n: Node, o: Open)
    requires Inv(s) && SellersOwn(s)
    ensures var s' := CleanupOne(s, caller, deadline, n, o);
      if Due(s, deadline, n) && MayGo(s, n, o)
      then (if LeavesListing(s, n, o) then Lost(s', n) else SellersOwn(s'))
           && s'.infos == s.infos - {n} && s'.deposits == s.deposits - {n} && OthersStay(s, s', n)
           && (o.keepListing ==> s'.listings == s.listings)
      else s' == s
  {
    hide Inv, SellersOwn, Teardown, LeavesListing, Lost, OthersStay;
    var s' := CleanupOne(s, caller, deadline, n, o);
    if Due(s, deadline, n) {
      var bounty := BountyFrom(s.deposits[n].1, o.bounty);
      TeardownGoes(s, n, caller, bounty, o);
      NameFacts(s, n);
      if MayGo(s, n, o) {
        TearListing(s, n, caller, bounty, o, s');
        TearRows(s, n, caller, bounty, o, s');
        TearName(s, n, caller, bounty, o, s');
      }
    }
  }

  lemma ListingsLater(s: State, s1: State, caller: Account, deadline: nat, due: seq<Node>, o: Open)
    requires Inv(s) && due != []
    requires !(Due(s, deadline, due[0]) && MayGo(s, due[0], o) && LeavesListing(s, due[0], o))
    requires if Due(s, deadline, due[0]) && MayGo(s, due[0], o)
             then s1.infos == s.infos - {due[0]} && s1.deposits == s.deposits - {due[0]} && OthersStay(s, s1, due[0])
                  && (o.keepListing ==> s1.listings == s.listings)
             else s1 == s
    ensures CleanupLeavesListing(s1, deadline, due[1..], o) <==> CleanupLeavesListing(s, deadline, due, o)
  {
    hide Inv;
    forall n ensures (n in due[1..] && Due(s1, deadline, n) && MayGo(s1, n, o) && LeavesListing(s1, n, o))
                <==> (n in due && Due(s, deadline, n) && MayGo(s, n, o) && LeavesListing(s, n, o)) {
      DueIsName(s, deadline, n);
      assert n in due <==> n == due[0] || n in due[1..];
    }
    if CleanupLeavesListing(s, deadline, due, o) {
      var n :| n in due && Due(s, deadline, n) && MayGo(s, n, o) && LeavesListing(s, n, o);
      assert n in due[1..] && Due(s1, deadline, n) && MayGo(s1, n, o) && LeavesListing(s1, n, o);
    }
    if CleanupLeavesListing(s1, deadline, due[1..], o) {
      var n :| n in due[1..] && Due(s1, deadline, n) && MayGo(s1, n, o) && LeavesListing(s1, n, o);
      assert n in due && Due(s, deadline, n) && MayGo(s, n, o) && LeavesListing(s, n, o);
    }
  }

  lemma GrantTitle(s: State, caller: Account, name: Label, o: Open, s': State)
    requires Grant(s, caller, name, o) == Ok(s') && NameHash(name) !in s.tokens
    ensures s'.listings == s.listings && s'.offers == s.offers
    ensures s'.tokens == s.tokens[NameHash(name) := Token(caller, 0)]
  {
  }

  lemma RegisterTitle(s: State, caller: Account, name: Label, reject: Option<Label>, o: Open)
    requires Inv(s) && SellersOwn(s) && Register(s, caller, name, reject, o).Ok?
    ensures Becomes(Register(s, caller, name, reject, o).value, OutlivesOwner(s, OpRegister(caller, name, reject, o)))
  {
    hide Inv, SellersOwn, Teardown, RejectOffer, Grant, Register, Rightful, Lost;
    var n, s' := NameHash(name), Register(s, caller, name, reject, o).value;
    var s1, s2 := RegisterParts(s, caller, name, reject, o);
    RejectTitle(s, caller, name, reject, o, s1);
    if n in s1.tokens {
      NameFacts(s1, n);
      TearListing(s1, n, caller, 0, o, s2);
      TearRows(s1, n, caller, 0, o, s2);
      TearName(s1, n, caller, 0, o, s2);
    }
    GrantTitle(s2, caller, name, o, s');
    if n in s1.tokens && LeavesListing(s1, n, o) {
      SellerIsNotCaller(s1, n, caller);
      StrangersListing(s', n, caller, s1.listings[n].seller);
    } else {
      FreshStaysRightful(s2, s', n);
    }
  }

  lemma SellerIsNotCaller(s: State, n: Node, caller: Account)
    requires Inv(s) && SellersOwn(s) && caller !in s.primary && n in s.listings
    ensures s.listings[n].seller != caller
  {
    assert Rightful(s, n);
    SettledFacts(s, n);
    hide Inv;
  }

  lemma StrangersListing(s: State, n: Node, owner: Account, seller: Account)
    requires n in s.listings && s.listings[n].seller == seller != owner && n in s.tokens && s.tokens[n].owner == owner
    ensures !Rightful(s, n)
  {
  }

  lemma FreshStaysRightful(s: State, s': State, n: Node)
    requires SellersOwn(s) && n !in s.tokens && s'.listings == s.listings && s'.offers == s.offers
    requires forall m :: m in s.tokens ==> m in s'.tokens && s'.tokens[m] == s.tokens[m]
    ensures SellersOwn(s')
  {
    forall m | m in s'.listings ensures Rightful(s', m) {
      assert Rightful(s, m);
    }
  }

  /** Declining a gift unlists nothing: a gift is not listed. */
  lemma RejectTitle(s: State, caller: Account, name: Label, reject: Option<Label>, o: Open, s1: State)
    requires Inv(s) && SellersOwn(s) && caller !in s.primary
    requires if reject.Some? then RejectOffer(s, caller, NameHash(reject.value), o) == Ok(s1) else s1 == s
    ensures Inv(s1) && SellersOwn(s1) && caller !in s1.primary
    ensures RegisterLeavesListing(s, name, reject, o)
       <==> NameHash(name) in s1.tokens && LeavesListing(s1, NameHash(name), o)
  {
    hide Inv, Teardown, SellersOwn, Rightful;
    if reject.Some? {
      var g := NameHash(reject.value);
      NameFacts(s, g);
      RejectKeeps(s, caller, g, o);
      GiftIsNotListed(s, g);
      TearListing(s, g, caller, 0, o, s1);
      TearRows(s, g, caller, 0, o, s1);
      TearName(s, g, caller, 0, o, s1);
    }
  }

  lemma GiftIsNotListed(s: State, n: Node)
    requires SellersOwn(s) && n in s.offers
    ensures n !in s.listings
  {
  }

  // ---------- Other calls ----------

  lemma TransferRows(s: State, caller: Account, to: Account, o: Open, s': State)
    requires Transfer(s, caller, to, o) == Ok(s')
    ensures caller in s.primary && s.primary[caller] in s.tokens && to !in s.primary && to != caller
    ensures var n := s.primary[caller];
      && s'.listings == (if o.keepListing then s.listings else s.listings - {n}) && s'.offers == s.offers
      && s'.tokens == s.tokens[n := s.tokens[n].(owner := to)]
      && s'.primary == (s.primary - {caller})[to := n] && s'.infos == s.infos && s'.now == s.now
  {
    TransferNeedsPrimary(s, caller, to, o);
    var n := s.primary[caller];
    var s1 := Rotate(s, n, to, s.deposits[n].1).value;
    RotateIsMoney(s, n, to, s.deposits[n].1, s1);
    UnlistIsMoney(s1, n);
    hide Rotate, Unlist;
  }

  lemma TransferTitle(s: State, caller: Account, to: Account, o: Open)
    requires SellersOwn(s) && Transfer(s, caller, to, o).Ok? && Inv(s)
    ensures Becomes(Transfer(s, caller, to, o).value, OutlivesOwner(s, OpTransfer(caller, to, o)))
  {
    hide Inv, Transfer, Names, PrimaryWithout;
    var s' := Transfer(s, caller, to, o).value;
    TransferRows(s, caller, to, o, s');
    PrimaryFacts(s, caller);
    var n := s.primary[caller];
    if LeavesListing(s, n, o) {
      assert Rightful(s, n) && !Rightful(s', n);
    } else {
      forall m | m in s'.listings ensures Rightful(s', m) {
        assert Rightful(s, m) && m != n;
      }
    }
  }

  lemma BuyRows(s: State, buyer: Account, name: Label, recipient: Option<Account>, o: Open, s': State)
    requires Buy(s, buyer, name, recipient, o) == Ok(s')
    ensures var n := NameHash(name);
      && n in s.tokens && n in s.listings && n !in s.offers && s'.listings == s.listings - {n}
      && s'.offers.Keys <= s.offers.Keys + {n} && s'.now == s.now
      && n in s'.tokens && s'.tokens == s.tokens[n := s'.tokens[n]]
      && s'.primary == (if recipient.None? then (s.primary - {s.tokens[n].owner})[buyer := n]
                        else s.primary - {s.tokens[n].owner})
      && (recipient.None? ==> s'.tokens[n].owner == buyer && buyer !in s.primary)
  {
    var n := NameHash(name);
    BuyNeedsSale(s, buyer, name, recipient, o);
    hide Settle, Buy;
    var paid := s.(bank := Settle(s.bank, buyer, s.listings[n], o.fees).value);
    var carrier := if recipient.None? then buyer else o.carrier;
    UnlistIsMoney(paid, n);
    var s1 := Rotate(Unlist(paid, n), n, carrier, o.amount).value;
    RotateIsMoney(Unlist(paid, n), n, carrier, o.amount, s1);
    hide Rotate, Unlist;
  }

  lemma BuyTitle(s: State, buyer: Account, name: Label, recipient: Option<Account>, o: Open)
    requires SellersOwn(s) && Buy(s, buyer, name, recipient, o).Ok?
    ensures SellersOwn(Buy(s, buyer, name, recipient, o).value)
  {
    var s' := Buy(s, buyer, name, recipient, o).value;
    BuyRows(s, buyer, name, recipient, o, s');
    hide Buy;
    forall m | m in s'.listings ensures Rightful(s', m) {
      assert Rightful(s, m);
    }
  }

  lemma AcceptRows(s: State, caller: Account, name: Label, o: Open, s': State)
    requires AcceptOffer(s, caller, name, o) == Ok(s')
    ensures var n := NameHash(name);
      && n in s.offers && n in s.tokens && caller !in s.primary
      && s'.listings == s.listings && s'.offers == s.offers - {n} && s'.now == s.now
      && s'.tokens == s.tokens[n := s.tokens[n].(owner := caller)] && s'.primary == s.primary[caller := n]
  {
    var n := NameHash(name);
    RotateIsMoney(s, n, o.carrier, o.amount, Rotate(s, n, o.carrier, o.amount).value);
    hide Rotate;
  }

  lemma AcceptTitle(s: State, caller: Account, name: Label, o: Open)
    requires SellersOwn(s) && AcceptOffer(s, caller, name, o).Ok?
    ensures SellersOwn(AcceptOffer(s, caller, name, o).value)
  {
    var s' := AcceptOffer(s, caller, name, o).value;
    AcceptRows(s, caller, name, o, s');
    hide AcceptOffer;
    forall m | m in s'.listings ensures Rightful(s', m) {
      assert Rightful(s, m);
    }
  }

  lemma ListRows(s: State, caller: Account, price: nat, expiresAt: nat, o: Open, s': State)
    requires CreateListing(s, caller, price, expiresAt, o) == Ok(s')
    ensures caller in s.primary
    ensures s'.listings == s.listings[s.primary[caller] := Listing(caller, price, expiresAt)]
    ensures s'.tokens == s.tokens && s'.offers == s.offers && s'.primary == s.primary
  {
    UnlistIsMoney(s, s.primary[caller]);
    hide Unlist;
  }

  lemma ListTitle(s: State, caller: Account, price: nat, expiresAt: nat, o: Open)
    requires Inv(s) && SellersOwn(s) && CreateListing(s, caller, price, expiresAt, o).Ok?
    ensures SellersOwn(CreateListing(s, caller, price, expiresAt, o).value)
  {
    var s' := CreateListing(s, caller, price, expiresAt, o).value;
    ListRows(s, caller, price, expiresAt, o, s');
    PrimaryFacts(s, caller);
    hide Inv, CreateListing;
    forall m | m in s'.listings ensures Rightful(s', m) {
      if m != s.primary[caller] {
        assert Rightful(s, m);
      }
    }
  }

  /** The calls that move no name and make no listing. */
  predicate Idle(op: Op) {
    !op.OpRegister? && !op.OpTransfer? && !op.OpReleaseName? && !op.OpCleanup? && !op.OpAcceptOffer? && !op.OpBuy?
    && !op.OpCreateListing?
  }

  /** Primary names, gifts and listings stay, listings that are cleared aside, and names keep their owners. */
  ghost predicate NamesStand(s: State, s': State) {
    && s'.primary == s.primary && s'.offers == s.offers && s'.now >= s.now
    && (forall n :: n in s'.listings ==> n in s.listings && s'.listings[n] == s.listings[n])
    && (forall n :: n in s.tokens && IsName(n) ==> n in s'.tokens && s'.tokens[n].owner == s.tokens[n].owner)
  }

  lemma OfferStands(s: State, caller: Account, name: Label, target: Account)
    requires TreeOfNames(s)
    ensures OfferSubname(s, caller, name, target).Ok? ==> NamesStand(s, OfferSubname(s, caller, name, target).value)
  {
  }

  lemma AcceptStands(s: State, caller: Account, parent: Label, name: Label)
    ensures AcceptSubname(s, caller, parent, name).Ok? ==> NamesStand(s, AcceptSubname(s, caller, parent, name).value)
  {
  }

  lemma RejectStands(s: State, caller: Account, parent: Label, name: Label)
    ensures RejectSubname(s, caller, parent, name).Ok? ==> NamesStand(s, RejectSubname(s, caller, parent, name).value)
  {
  }

  lemma ReleaseStands(s: State, caller: Account, parent: Label, name: Label)
    ensures ReleaseSubname(s, caller, parent, name).Ok? ==> NamesStand(s, ReleaseSubname(s, caller, parent, name).value)
  {
  }

  lemma RevokeStands(s: State, caller: Account, name: Label)
    requires TreeOfNames(s)
    ensures RevokeSubname(s, caller, name).Ok? ==> NamesStand(s, RevokeSubname(s, caller, name).value)
  {
  }

  lemma RenewStands(s: State, caller: Account, o: Open)
    ensures Renew(s, caller, o).Ok? ==> NamesStand(s, Renew(s, caller, o).value)
  {
  }

  lemma CancelStands(s: State, caller: Account)
    ensures CancelListing(s, caller).Ok? ==> NamesStand(s, CancelListing(s, caller).value)
  {
  }

  lemma ClearStands(s: State, caller: Account, name: Label, o: Open)
    ensures CleanupListing(s, caller, name, o).Ok? ==> NamesStand(s, CleanupListing(s, caller, name, o).value)
  {
    hide PayOut;
  }

  lemma OfficialStands(s: State, origin: Origin, who: Account)
    ensures SetOfficial(s, origin, who).Ok? ==> NamesStand(s, SetOfficial(s, origin, who).value)
  {
  }

  /** Records, prices, reserved names and the clock have nothing to do with it. */
  lemma PlainStands(s: State, s': State)
    requires s'.primary == s.primary && s'.offers == s.offers && s'.now >= s.now
    requires s'.listings == s.listings && s'.tokens == s.tokens
    ensures NamesStand(s, s')
  {
  }

  lemma WriteStands(s: State, caller: Account, n: Node, t: RecordType, kind: nat, content: seq<nat>)
    ensures SetRecord(s, caller, n, t, content).Ok? ==> NamesStand(s, SetRecord(s, caller, n, t, content).value)
    ensures SetText(s, caller, n, kind, content).Ok? ==> NamesStand(s, SetText(s, caller, n, kind, content).value)
  {
  }

  lemma SettingStands(s: State, origin: Origin, prices: PriceTable, name: Label, reserve: bool)
    ensures SetBasePrice(s, origin, prices).Ok? ==> NamesStand(s, SetBasePrice(s, origin, prices).value)
    ensures SetReserved(s, origin, name, reserve).Ok? ==> NamesStand(s, SetReserved(s, origin, name, reserve).value)
  {
  }

  lemma IdleRows(s: State, op: Op)
    requires Idle(op) && TreeOfNames(s)
    ensures NamesStand(s, Next(s, op))
  {
    hide NamesStand, TreeOfNames, OfferSubname, AcceptSubname, RejectSubname, ReleaseSubname, RevokeSubname, Renew,
         CancelListing, CleanupListing, SetOfficial, SetRecord, SetText, SetBasePrice, SetReserved;
    PlainStands(s, s);
    match op
    case OpOfferSubname(caller, name, target) => OfferStands(s, caller, name, target);
    case OpAcceptSubname(caller, parent, name) => AcceptStands(s, caller, parent, name);
    case OpRejectSubname(caller, parent, name) => RejectStands(s, caller, parent, name);
    case OpReleaseSubname(caller, parent, name) => ReleaseStands(s, caller, parent, name);
    case OpRevokeSubname(caller, name) => RevokeStands(s, caller, name);
    case OpRenew(caller, o) => RenewStands(s, caller, o);
    case OpCancelListing(caller) => CancelStands(s, caller);
    case OpCleanupListing(caller, name, o) => ClearStands(s, caller, name, o);
    case OpSetOfficial(origin, who) => OfficialStands(s, origin, who);
    case OpSetRecord(caller, node, t, content) => WriteStands(s, caller, node, t, 0, content);
    case OpSetText(caller, node, kind, content) => WriteStands(s, caller, node, A, kind, content);
    case OpSetBasePrice(origin, prices) => SettingStands(s, origin, prices, "a", false);
    case OpSetReserved(origin, name, reserve) => SettingStands(s, origin, s.prices, name, reserve);
    case OpWait(time) => PlainStands(s, s.(now := s.now + time));
  }

  lemma IdleTitle(s: State, op: Op)
    requires Inv(s) && SellersOwn(s) && Idle(op)
    ensures SellersOwn(Next(s, op))
  {
    hide Inv, Next;
    var s' := Next(s, op);
    InvMakesTree(s);
    IdleRows(s, op);
    forall m | m in s'.listings ensures Rightful(s', m) {
      assert Rightful(s, m);
    }
  }

  // ---------- Steps and runs ----------

  /** Sellers go on owning what they list exactly if no listing outlives the ownership it was made under. */
  lemma StepTitle(s: State, op: Op)
    requires Inv(s) && SellersOwn(s)
    ensures SellersOwn(Next(s, op)) <==> !OutlivesOwner(s, op)
  {
    hide Inv, SellersOwn, Becomes, Register, Transfer, ReleaseName, AcceptOffer, Buy, CreateListing, LeavesListing,
         RegisterLeavesListing, CleanupLeavesListing;
    if Idle(op) {
      IdleTitle(s, op);
    } else if Apply(s, op).Ok? {
      match op {
      case OpRegister(caller, name, reject, o) => RegisterTitle(s, caller, name, reject, o);
      case OpTransfer(caller, to, o) => TransferTitle(s, caller, to, o);
      case OpReleaseName(caller, o) => ReleaseTitle(s, caller, o);
      case OpCleanup(caller, deadline, due, o) => CleanupTitle(s, caller, deadline, due, o);
      case OpAcceptOffer(caller, name, o) => AcceptTitle(s, caller, name, o);
      case OpBuy(caller, name, recipient, o) => BuyTitle(s, caller, name, recipient, o);
      case OpCreateListing(caller, price, expiresAt, o) => ListTitle(s, caller, price, expiresAt, o);
      }
      if op.OpRegister? || op.OpTransfer? || op.OpReleaseName? || op.OpCleanup? {
        BecomesOwned(Next(s, op), OutlivesOwner(s, op));
      }
    }
  }

  /** No listing outlives, in a step of the run, the ownership it was made under. */
  ghost predicate EndsListings(s: State, ops: seq<Op>)
    decreases |ops|
  {
    ops != [] ==> !OutlivesOwner(s, ops[0]) && EndsListings(Next(s, ops[0]), ops[1..])
  }

  ghost predicate AlwaysOwned(s: State, ops: seq<Op>)
    decreases |ops|
  {
    SellersOwn(s) && (ops != [] ==> AlwaysOwned(Next(s, ops[0]), ops[1..]))
  }

  /** All along a run every seller owns what it has listed exactly if no listing outlives its owner. */
  lemma {:induction false} SellersOwnWhileEnded(s: State, ops: seq<Op>)
    requires Inv(s) && SellersOwn(s)
    ensures AlwaysOwned(s, ops) <==> EndsListings(s, ops)
    ensures EndsListings(s, ops) ==> SellersOwn(Run(s, ops))
    decreases |ops|
  {
    hide Inv, SellersOwn, OutlivesOwner, Next;
    if ops != [] {
      StepTitle(s, ops[0]);
      NextKeeps(s, ops[0]);
      if !OutlivesOwner(s, ops[0]) {
        SellersOwnWhileEnded(Next(s, ops[0]), ops[1..]);
      }
    }
  }

  lemma GenesisIsOwned(now: nat, free: map<Account, nat>, prices: PriceTable, reserved: set<Node>, official: Account)
    ensures SellersOwn(Genesis(now, free, prices, reserved, official))
  {
  }

  lemma SellersOwnFromGenesis(now: nat, free: map<Account, nat>, prices: PriceTable, reserved: set<Node>,
                              official: Account, ops: seq<Op>)
    ensures var g := Genesis(now, free, prices, reserved, official);
      AlwaysOwned(g, ops) <==> EndsListings(g, ops)
  {
    hide Inv, SellersOwn;
    GenesisIsSound(now, free, prices, reserved, official);
    GenesisIsOwned(now, free, prices, reserved, official);
    SellersOwnWhileEnded(Genesis(now, free, prices, reserved, official), ops);
  }

  // ---------- Losing a name ----------

  predicate Has(s: State, a: Account, n: Node) {
    a in s.primary && s.primary[a] == n
  }

  /**
   The calls that take `n` from `a`: `a` transfers or releases it, somebody buys it, registers it anew or
   cleans it up.
   */
  predicate Takes(s: State, op: Op, n: Node, a: Account) {
    Apply(s, op).Ok? &&
    match op
    case OpTransfer(caller, _, _) => caller == a
    case OpReleaseName(caller, _) => caller == a
    case OpBuy(_, name, _, _) => NameHash(name) == n
    case OpRegister(_, name, _, _) => NameHash(name) == n
    case OpCleanup(_, deadline, due, o) => n in due && Due(s, deadline, n) && MayGo(s, n, o)
    case _ => false
  }

  lemma TwoOwners(s: State, a: Account, b: Account)
    requires Inv(s) && a in s.primary && b in s.primary && s.primary[a] == s.primary[b]
    ensures a == b
  {
    PrimaryFacts(s, a);
    PrimaryFacts(s, b);
    hide Inv;
  }

  lemma RejectTears(s: State, caller: Account, gift: Node, o: Open, s1: State)
    requires RejectOffer(s, caller, gift, o) == Ok(s1)
    ensures gift in s.offers && s1.infos == s.infos - {gift} && s1.now == s.now
    ensures s1.primary == map a | a in s.primary && s.primary[a] != gift :: s.primary[a]
  {
    hide Teardown;
    TearRows(s, gift, caller, 0, o, s1);
  }

  lemma GrantAdds(s: State, caller: Account, name: Label, o: Open, s': State)
    requires Grant(s, caller, name, o) == Ok(s')
    ensures s'.primary == s.primary[caller := NameHash(name)]
  {
  }

  lemma TransferOwner(s: State, caller: Account, to: Account, o: Open, n: Node, a: Account)
    requires Has(s, a, n) && Transfer(s, caller, to, o).Ok?
    ensures Has(Transfer(s, caller, to, o).value, a, n) <==> caller != a
  {
    hide Transfer;
    TransferRows(s, caller, to, o, Transfer(s, caller, to, o).value);
  }

  lemma ReleaseOwner(s: State, caller: Account, o: Open, n: Node, a: Account)
    requires Inv(s) && Has(s, a, n) && ReleaseName(s, caller, o).Ok?
    ensures Has(ReleaseName(s, caller, o).value, a, n) <==> caller != a
  {
    hide Inv, Teardown;
    if s.primary[caller] == n {
      TwoOwners(s, a, caller);
    }
    TearRows(s, s.primary[caller], caller, 0, o, ReleaseName(s, caller, o).value);
  }

  lemma BuyOwner(s: State, buyer: Account, name: Label, recipient: Option<Account>, o: Open, n: Node, a: Account)
    requires Inv(s) && Has(s, a, n) && Buy(s, buyer, name, recipient, o).Ok?
    ensures Has(Buy(s, buyer, name, recipient, o).value, a, n) <==> NameHash(name) != n
  {
    hide Inv, Buy;
    var m := NameHash(name);
    BuyRows(s, buyer, name, recipient, o, Buy(s, buyer, name, recipient, o).value);
    NameFacts(s, m);
    SettledFacts(s, m);
    PrimaryFacts(s, a);
  }

  lemma RegisterOwner(s: State, caller: Account, name: Label, reject: Option<Label>, o: Open, n: Node, a: Account)
    requires Inv(s) && Has(s, a, n) && Register(s, caller, name, reject, o).Ok?
    ensures Has(Register(s, caller, name, reject, o).value, a, n) <==> NameHash(name) != n
    ensures NameHash(name) == n ==> Registrable(s, n)
  {
    hide Inv, Register, RejectOffer, Teardown, Grant;
    var s' := Register(s, caller, name, reject, o).value;
    PrimaryFacts(s, a);
    var s1, s2 := RegisterParts(s, caller, name, reject, o);
    if reject.Some? {
      RejectTears(s, caller, NameHash(reject.value), o, s1);
    }
    if NameHash(name) in s1.tokens {
      TearRows(s1, NameHash(name), caller, 0, o, s2);
    }
    GrantAdds(s2, caller, name, o, s');
    RegisterKeeps(s, caller, name, reject, o);
    if NameHash(name) == n && Has(s', a, n) {
      TwoOwners(s', a, caller);
    }
  }

  lemma {:induction false} CleanupSparesOwner(s: State, caller: Account, deadline: nat, due: seq<Node>, o: Open,
                                             n: Node, a: Account)
    requires Inv(s) && Has(s, a, n) && !(n in due && Due(s, deadline, n) && MayGo(s, n, o))
    ensures Has(CleanupEach(s, caller, deadline, due, o), a, n)
    decreases |due|
  {
    hide Inv, CleanupOne, MayGo, Due;
    if due != [] {
      var k, s1 := due[0], CleanupOne(s, caller, deadline, due[0], o);
      CleanupOneKeeps(s, caller, deadline, k, o);
      CleanupOneOwner(s, caller, deadline, k, o, n, a);
      assert n in due <==> n == k || n in due[1..];
      CleanupSparesOwner(s1, caller, deadline, due[1..], o, n, a);
    }
  }

  lemma CleanupOneOwner(s: State, caller: Account, deadline: nat, k: Node, o: Open, n: Node, a: Account)
    requires Inv(s) && Has(s, a, n) && !(n == k && Due(s, deadline, n) && MayGo(s, n, o))
    ensures var s1 := CleanupOne(s, caller, deadline, k, o);
      Has(s1, a, n) && ((Due(s1, deadline, n) && MayGo(s1, n, o)) ==> Due(s, deadline, n) && MayGo(s, n, o))
  {
    hide Inv, Teardown, Gain;
    var s1 := CleanupOne(s, caller, deadline, k, o);
    CleanupPaysFinder(s, caller, deadline, k, o, 0);
    PrimaryFacts(s, a);
    if Due(s, deadline, k) && MayGo(s, k, o) {
      var bounty := BountyFrom(s.deposits[k].1, o.bounty);
      TeardownGoes(s, k, caller, bounty, o);
      TearRows(s, k, caller, bounty, o, s1);
      CleanupOneTakes(s, caller, deadline, k, o);
      OthersAsBefore(s, s1, k, caller, deadline, n, o, 0);
    }
  }

  lemma CleanupOwner(s: State, caller: Account, deadline: nat, due: seq<Node>, o: Open, n: Node, a: Account)
    requires Inv(s) && Has(s, a, n)
    ensures Has(CleanupEach(s, caller, deadline, due, o), a, n)
       <==> !(n in due && Due(s, deadline, n) && MayGo(s, n, o))
  {
    hide Inv, CleanupEach, Gains, Parts;
    if n in due && Due(s, deadline, n) && MayGo(s, n, o) {
      PrimaryFacts(s, a);
      CleanupTakesDue(s, caller, deadline, due, o, a);
      CleanupEachKeeps(s, caller, deadline, due, o);
      assert n in Taken(s, deadline, due, o);
      if Has(CleanupEach(s, caller, deadline, due, o), a, n) {
        PrimaryFacts(CleanupEach(s, caller, deadline, due, o), a);
      }
    } else {
      CleanupSparesOwner(s, caller, deadline, due, o, n, a);
    }
  }

  lemma AcceptSparesOwner(s: State, caller: Account, name: Label, o: Open, n: Node, a: Account)
    requires Has(s, a, n) && AcceptOffer(s, caller, name, o).Ok?
    ensures Has(AcceptOffer(s, caller, name, o).value, a, n)
  {
    hide AcceptOffer;
    AcceptRows(s, caller, name, o, AcceptOffer(s, caller, name, o).value);
  }

  lemma ListSparesOwner(s: State, caller: Account, price: nat, expiresAt: nat, o: Open, n: Node, a: Account)
    requires Has(s, a, n) && CreateListing(s, caller, price, expiresAt, o).Ok?
    ensures Has(CreateListing(s, caller, price, expiresAt, o).value, a, n)
  {
    hide CreateListing;
    ListRows(s, caller, price, expiresAt, o, CreateListing(s, caller, price, expiresAt, o).value);
  }

  /** An account keeps its name through a step exactly if the step is none of those that take it. */
  lemma StepOwner(s: State, op: Op, n: Node, a: Account)
    requires Inv(s) && Has(s, a, n)
    ensures Has(Next(s, op), a, n) <==> !Takes(s, op, n, a)
  {
    hide Inv, Register, Transfer, ReleaseName, AcceptOffer, Buy, CreateListing, CleanupEach, Due, MayGo;
    if Idle(op) {
      hide Apply, Next;
      InvMakesTree(s);
      IdleRows(s, op);
    } else if Apply(s, op).Ok? {
      match op
      case OpRegister(caller, name, reject, o) => RegisterOwner(s, caller, name, reject, o, n, a);
      case OpTransfer(caller, to, o) => TransferOwner(s, caller, to, o, n, a);
      case OpReleaseName(caller, o) => ReleaseOwner(s, caller, o, n, a);
      case OpCleanup(caller, deadline, due, o) => CleanupOwner(s, caller, deadline, due, o, n, a);
      case OpAcceptOffer(caller, name, o) => AcceptSparesOwner(s, caller, name, o, n, a);
      case OpBuy(caller, name, recipient, o) => BuyOwner(s, caller, name, recipient, o, n, a);
      case OpCreateListing(caller, price, expiresAt, o) => ListSparesOwner(s, caller, price, expiresAt, o, n, a);
    }
  }

  ghost predicate AlwaysHas(s: State, ops: seq<Op>, n: Node, a: Account)
    decreases |ops|
  {
    Has(s, a, n) && (ops != [] ==> AlwaysHas(Next(s, ops[0]), ops[1..], n, a))
  }

  ghost predicate NeverTaken(s: State, ops: seq<Op>, n: Node, a: Account)
    decreases |ops|
  {
    ops != [] ==> !Takes(s, ops[0], n, a) && NeverTaken(Next(s, ops[0]), ops[1..], n, a)
  }

  /** An account has its name all along a run exactly if no step of the run takes it. */
  lemma {:induction false} OwnerWhileNotTaken(s: State, ops: seq<Op>, n: Node, a: Account)
    requires Inv(s) && Has(s, a, n)
    ensures AlwaysHas(s, ops, n, a) <==> NeverTaken(s, ops, n, a)
    decreases |ops|
  {
    hide Inv, Has, Takes, Next;
    if ops != [] {
      StepOwner(s, ops[0], n, a);
      NextKeeps(s, ops[0]);
      if !Takes(s, ops[0], n, a) {
        OwnerWhileNotTaken(Next(s, ops[0]), ops[1..], n, a);
      }
    }
  }

  // ---------- Losing a name by one's own doing ----------

  /** The registration of `n`, grace included, is not over. */
  predicate Current(s: State, n: Node) {
    n in s.infos && s.now < s.infos[n].expire + GRACE_PERIOD
  }

  /** The listing of `n`, if there is one, was made by `a`. */
  predicate ListedOnlyBy(s: State, n: Node, a: Account) {
    n in s.listings ==> s.listings[n].seller == a
  }

  /** `a` hands `n` on or gives it up, or a buyer takes up the listing that `a` made. */
  predicate GivesUp(s: State, op: Op, n: Node, a: Account) {
    Apply(s, op).Ok? &&
    match op
    case OpTransfer(caller, _, _) => caller == a
    case OpReleaseName(caller, _) => caller == a
    case OpBuy(_, name, _, _) => NameHash(name) == n && n in s.listings && s.listings[n].seller == a
    case _ => false
  }

  lemma TakenOnlyIfGivenUp(s: State, op: Op, n: Node, a: Account)
    requires Inv(s) && Has(s, a, n) && Current(s, n) && ListedOnlyBy(s, n, a)
    ensures Takes(s, op, n, a) <==> GivesUp(s, op, n, a)
  {
    hide Inv, Register, Transfer, ReleaseName, Buy, MayGo, CleanupEach, AcceptOffer, CreateListing;
    if Apply(s, op).Ok? {
      if op.OpRegister? {
        RegisterOwner(s, op.caller, op.name, op.reject, op.o, n, a);
      } else if op.OpBuy? {
        BuyRows(s, op.caller, op.name, op.recipient, op.o, Buy(s, op.caller, op.name, op.recipient, op.o).value);
      }
    }
  }

  /** A current name that nobody else has listed is lost by a step exactly if its owner gives it up in it. */
  lemma TitleIsSafe(s: State, op: Op, n: Node, a: Account)
    requires Inv(s) && Has(s, a, n) && Current(s, n) && ListedOnlyBy(s, n, a)
    ensures Has(Next(s, op), a, n) <==> !GivesUp(s, op, n, a)
  {
    hide Inv, Has, Takes, GivesUp, Next;
    StepOwner(s, op, n, a);
    TakenOnlyIfGivenUp(s, op, n, a);
  }

  lemma {:induction false} CleanupUnlists(s: State, caller: Account, deadline: nat, due: seq<Node>, o: Open, n: Node)
    ensures var s' := CleanupEach(s, caller, deadline, due, o);
      n in s'.listings ==> n in s.listings && s'.listings[n] == s.listings[n]
    decreases |due|
  {
    hide Teardown;
    if due != [] {
      var s1 := CleanupOne(s, caller, deadline, due[0], o);
      if s1 != s {
        TearRows(s, due[0], caller, BountyFrom(s.deposits[due[0]].1, o.bounty), o, s1);
      }
      CleanupUnlists(s1, caller, deadline, due[1..], o, n);
    }
  }

  lemma RegisterUnlists(s: State, caller: Account, name: Label, reject: Option<Label>, o: Open, s': State, n: Node)
    requires Register(s, caller, name, reject, o) == Ok(s')
    ensures n in s'.listings ==> n in s.listings && s'.listings[n] == s.listings[n]
  {
    hide Register, RejectOffer, Teardown, Grant;
    var s1, s2 := RegisterParts(s, caller, name, reject, o);
    if reject.Some? {
      RejectUnlists(s, caller, NameHash(reject.value), o, s1, n);
    }
    if NameHash(name) in s1.tokens {
      TearRows(s1, NameHash(name), caller, 0, o, s2);
    }
    GrantLists(s2, caller, name, o, s');
  }

  lemma RejectUnlists(s: State, caller: Account, gift: Node, o: Open, s1: State, n: Node)
    requires RejectOffer(s, caller, gift, o) == Ok(s1)
    ensures n in s1.listings ==> n in s.listings && s1.listings[n] == s.listings[n]
  {
    hide Teardown;
    TearRows(s, gift, caller, 0, o, s1);
  }

  lemma GrantLists(s: State, caller: Account, name: Label, o: Open, s': State)
    requires Grant(s, caller, name, o) == Ok(s')
    ensures s'.listings == s.listings
  {
  }

  lemma ReleaseUnlists(s: State, caller: Account, o: Open, n: Node)
    requires ReleaseName(s, caller, o).Ok?
    ensures var s' := ReleaseName(s, caller, o).value;
      n in s'.listings ==> n in s.listings && s'.listings[n] == s.listings[n]
  {
    hide Teardown;
    TearRows(s, s.primary[caller], caller, 0, o, ReleaseName(s, caller, o).value);
  }

  /** No call but a listing makes a listing. */
  lemma OthersUnlist(s: State, op: Op, n: Node)
    requires !Idle(op) && !op.OpCreateListing? && Apply(s, op).Ok?
    ensures n in Next(s, op).listings ==> n in s.listings && Next(s, op).listings[n] == s.listings[n]
  {
    hide Register, Transfer, ReleaseName, AcceptOffer, Buy, CleanupEach;
    match op
    case OpRegister(caller, name, reject, o) => RegisterUnlists(s, caller, name, reject, o, Next(s, op), n);
    case OpTransfer(caller, to, o) => TransferRows(s, caller, to, o, Next(s, op));
    case OpReleaseName(caller, o) => ReleaseUnlists(s, caller, o, n);
    case OpCleanup(caller, deadline, due, o) => CleanupUnlists(s, caller, deadline, due, o, n);
    case OpAcceptOffer(caller, name, o) => AcceptRows(s, caller, name, o, Next(s, op));
    case OpBuy(caller, name, recipient, o) => BuyRows(s, caller, name, recipient, o, Next(s, op));
  }

  lemma OwnListing(s: State, op: Op, n: Node, a: Account)
    requires Inv(s) && Has(s, a, n) && ListedOnlyBy(s, n, a) && op.OpCreateListing? && Apply(s, op).Ok?
    ensures ListedOnlyBy(Next(s, op), n, a)
  {
    hide Inv, CreateListing;
    ListRows(s, op.caller, op.price, op.expiresAt, op.o, Next(s, op));
    if s.primary[op.caller] == n {
      TwoOwners(s, a, op.caller);
    }
  }

  /** So nobody but its owner comes to have listed a name. */
  lemma ListedByOwnerOnly(s: State, op: Op, n: Node, a: Account)
    requires Inv(s) && Has(s, a, n) && ListedOnlyBy(s, n, a)
    ensures ListedOnlyBy(Next(s, op), n, a)
  {
    hide Inv, Apply;
    if Idle(op) {
      hide Next;
      InvMakesTree(s);
      IdleRows(s, op);
    } else if Apply(s, op).Ok? {
      if op.OpCreateListing? {
        OwnListing(s, op, n, a);
      } else {
        OthersUnlist(s, op, n);
      }
    }
  }

  /** In no step of the run does `a` give `n` up. */
  ghost predicate KeepsUp(s: State, ops: seq<Op>, n: Node, a: Account)
    decreases |ops|
  {
    ops != [] ==> !GivesUp(s, ops[0], n, a) && KeepsUp(Next(s, ops[0]), ops[1..], n, a)
  }

  /** As long as `a` has it, `n` is current before each step of the run. */
  ghost predicate StaysCurrent(s: State, ops: seq<Op>, n: Node, a: Account)
    decreases |ops|
  {
    ops != [] && Has(s, a, n) ==> Current(s, n) && StaysCurrent(Next(s, ops[0]), ops[1..], n, a)
  }

  /**
   Over any run in which it does not lapse, a name that nobody else has listed at the start stays with its
   owner exactly as long as the owner does not give it up, whatever happens to other names.
   */
  lemma {:induction false} NameStaysWithOwner(s: State, ops: seq<Op>, n: Node, a: Account)
    requires Inv(s) && Has(s, a, n) && ListedOnlyBy(s, n, a) && StaysCurrent(s, ops, n, a)
    ensures AlwaysHas(s, ops, n, a) <==> KeepsUp(s, ops, n, a)
    ensures KeepsUp(s, ops, n, a) ==> Has(Run(s, ops), a, n)
    decreases |ops|
  {
    hide Inv, Has, Current, ListedOnlyBy, GivesUp, Next;
    if ops != [] {
      TitleIsSafe(s, ops[0], n, a);
      if !GivesUp(s, ops[0], n, a) {
        ListedByOwnerOnly(s, ops[0], n, a);
        NextKeeps(s, ops[0]);
        NameStaysWithOwner(Next(s, ops[0]), ops[1..], n, a);
      }
    }
  }

  // ---------- What a stale listing does ----------

  /** A sale by a listing made before a name changed hands takes it from its owner, who gets nothing of the price. */
  lemma StaleSaleTakesName(s: State, buyer: Account, name: Label, o: Open, s': State)
    requires Inv(s) && Buy(s, buyer, name, None, o) == Ok(s') && NameHash(name) in s.tokens
    requires NameHash(name) in s.listings && s.listings[NameHash(name)].seller != s.tokens[NameHash(name)].owner
    ensures NameHash(name) in s.deposits
    ensures var (n, owner) := (NameHash(name), s.tokens[NameHash(name)].owner);
      && Has(s, owner, n) && owner !in s'.primary && Has(s', buyer, n)
      && s'.bank.Free(owner) == s.bank.Free(owner) + Received(o.fees, owner) + Share(s.deposits[n], owner)
  {
    hide Inv, Buy, Sold;
    var n := NameHash(name);
    var owner := s.tokens[n].owner;
    BuyRows(s, buyer, name, None, o, s');
    NameFacts(s, n);
    SettledFacts(s, n);
    BuyMovesMoney(s, buyer, name, None, o, s', owner);
  }

  lemma FirstListing(s: State, caller: Account, expiresAt: nat, o: Open)
    requires caller in s.primary && s.primary[caller] !in s.listings && s.now < expiresAt
    requires s.bank.Free(caller) >= LISTING_DEPOSIT
    ensures var (n, r) := (s.primary[caller], CreateListing(s, caller, 0, expiresAt, o));
      && r.Ok? && r.value == s.(bank := r.value.bank, listings := s.listings[n := Listing(caller, 0, expiresAt)])
  {
  }

  lemma FreeTransfer(s: State, caller: Account, to: Account, o: Open)
    requires caller in s.primary && to !in s.primary && s.primary[caller] in s.tokens
    requires s.primary[caller] in s.deposits && s.deposits[s.primary[caller]].1 == 0 && o.keepListing
    ensures var (n, r) := (s.primary[caller], Transfer(s, caller, to, o));
      && r.Ok? && r.value.deposits == s.deposits[n := (to, 0)]
  {
  }

  lemma FreeSale(s: State, buyer: Account, name: Label, o: Open)
    requires NameHash(name) in s.listings && NameHash(name) in s.tokens && NameHash(name) in s.deposits
    requires NameHash(name) !in s.offers && buyer !in s.primary && buyer != s.listings[NameHash(name)].seller
    requires s.listings[NameHash(name)].price == 0 && o.fees == [] && o.amount == 0
    ensures Buy(s, buyer, name, None, o).Ok?
  {
    var n := NameHash(name);
    var l := s.listings[n];
    assert s.bank.Transfer(buyer, l.seller, 0).Some?;
    assert Settle(s.bank, buyer, l, []).Ok?;
    var paid := s.(bank := Settle(s.bank, buyer, l, []).value);
    UnlistIsMoney(paid, n);
    hide Unlist, Settle;
    assert Rotate(Unlist(paid, n), n, buyer, 0).Ok?;
  }

  /** Register and list, transfer with the listing kept, and sell. */
  function TakingRun(): seq<Op> {
    var o := Open([], Refuse, true, false, 0, 0, 0, 0, 0, 0, 0);
    [OpRegister(1, "a", None, o), OpCreateListing(1, 0, 1, o), OpTransfer(1, 2, o), OpBuy(3, "a", None, o)]
  }

  /** After the third step account 2 owns the name, and after the fourth account 3 does, by no call of 2. */
  lemma NameIsTaken()
    ensures var g := Genesis(0, map[1 := LISTING_DEPOSIT], ZeroPrices(), {}, 0);
      && Has(Run(g, TakingRun()[..3]), 2, NameHash("a"))
      && Has(Run(g, TakingRun()), 3, NameHash("a")) && 2 !in Run(g, TakingRun()).primary
  {
    hide Register, CreateListing, Transfer, Buy, Price;
    var o := Open([], Refuse, true, false, 0, 0, 0, 0, 0, 0, 0);
    var g, ops := Genesis(0, map[1 := LISTING_DEPOSIT], ZeroPrices(), {}, 0), TakingRun();
    FreshRegistration(g, 1, "a", o);
    var s1 := Next(g, ops[0]);
    FirstListing(s1, 1, 1, o);
    var s2 := Next(s1, ops[1]);
    var s3, s4 := LastTwo(s2, "a", o);
    hide Next, Genesis;
    ThreeSteps(g, ops[..3]);
    RunThenOne(g, ops[..3], ops[3]);
    assert ops[..3] + [ops[3]] == ops;
  }

  lemma LastTwo(s: State, name: Label, o: Open) returns (s1: State, s2: State)
    requires Has(s, 1, NameHash(name)) && 2 !in s.primary && 3 !in s.primary && NameHash(name) in s.tokens
    requires NameHash(name) in s.deposits && s.deposits[NameHash(name)].1 == 0 && NameHash(name) !in s.offers
    requires NameHash(name) in s.listings && s.listings[NameHash(name)].price == 0
    requires s.listings[NameHash(name)].seller == 1 && s.tokens[NameHash(name)].owner == 1
    requires o.keepListing && o.fees == [] && o.amount == 0
    ensures s1 == Next(s, OpTransfer(1, 2, o)) && Has(s1, 2, NameHash(name))
    ensures s2 == Next(s1, OpBuy(3, name, None, o)) && Has(s2, 3, NameHash(name)) && 2 !in s2.primary
  {
    hide Transfer, Buy;
    FreeTransfer(s, 1, 2, o);
    s1 := Next(s, OpTransfer(1, 2, o));
    TransferRows(s, 1, 2, o, s1);
    FreeSale(s1, 3, name, o);
    s2 := Next(s1, OpBuy(3, name, None, o));
    BuyRows(s1, 3, name, None, o, s2);
  }

  lemma ThreeSteps(s: State, ops: seq<Op>)
    requires |ops| == 3
    ensures Run(s, ops) == Next(Next(Next(s, ops[0]), ops[1]), ops[2])
  {
    hide Next;
    var s2 := Next(Next(s, ops[0]), ops[1]);
    assert ops[1..][1..] == ops[2..] && ops[2..][1..] == [];
    assert Run(s, ops) == Run(s2, ops[2..]);
    assert Run(s2, ops[2..]) == Run(Next(s2, ops[2]), []);
  }

  lemma {:induction false} RunThenOne(s: State, ops: seq<Op>, op: Op)
    ensures Run(s, ops + [op]) == Next(Run(s, ops), op)
    decreases |ops|
  {
    hide Next;
    if ops == [] {
      assert ([] + [op])[1..] == [];
      assert Run(s, [op]) == Run(Next(s, op), []);
      assert [] + [op] == [op];
    } else {
      assert (ops + [op])[1..] == ops[1..] + [op];
      RunThenOne(Next(s, ops[0]), ops[1..], op);
    }
  }
}
