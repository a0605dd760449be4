/** What stays the same over whole runs, and what only certain calls can change. */
module PnsHistory {
  import opened Wrappers
  import opened Balances
  import opened PnsTypes
  import opened PnsSteps
  import opened PnsInvariants
  import opened PnsRuns
  import opened PnsTree

  // ---------- Reachable states ----------

  ghost predicate Reachable(s: State) {
    exists now: nat, free: map<Account, nat>, prices: PriceTable, reserved: set<Node>, official: Account,
           ops: seq<Op> ::
      s == Run(Genesis(now, free, prices, reserved, official), ops)
  }

  lemma ReachableIsSound(s: State)
    requires Reachable(s)
    ensures Inv(s)
  {
    hide Inv;
    var now: nat, free: map<Account, nat>, prices: PriceTable, reserved: set<Node>, official: Account, ops: seq<Op> :|
      s == Run(Genesis(now, free, prices, reserved, official), ops);
    GenesisIsSound(now, free, prices, reserved, official);
    RunKeeps(Genesis(now, free, prices, reserved, official), ops);
  }

  /** No cleanup deposit is ever stranded, and none is ever missing. */
  lemma CleanupHoldsAreOwed(s: State, who: Account)
    requires Reachable(s)
    ensures s.bank.Held(CleanupDeposit, who) == Owed(s.deposits, who)
  {
    ReachableIsSound(s);
  }

  /** Each live listing holds one listing deposit of its seller, and nothing else does. */
  lemma ListingHoldsAreCounted(s: State, who: Account)
    requires Reachable(s)
    ensures s.bank.Held(ListingDeposit, who)
         == LISTING_DEPOSIT * |set n | n in s.listings && s.listings[n].seller == who|
  {
    ReachableIsSound(s);
    OwedUniform(ListingRows(s), who, LISTING_DEPOSIT);
    assert Mine(ListingRows(s), who) == set n | n in s.listings && s.listings[n].seller == who;
  }

  /** An account has at most one canonical name, and no two accounts have the same. */
  lemma OneNameEach(s: State, a: Account, b: Account, m: Node, n: Node)
    requires Reachable(s)
    ensures a in s.primary && b in s.primary && s.primary[a] == s.primary[b] ==> a == b
    ensures (m in Names(s) && n in Names(s) && m !in s.offers && n !in s.offers
             && s.tokens[m].owner == s.tokens[n].owner) ==> m == n
  {
    ReachableIsSound(s);
  }

  /** The owner record of a name not being given away names whoever owns its token, and whose primary name it is. */
  lemma OwnerRecordIsTrue(s: State, n: Node, a: Account)
    requires Reachable(s) && n in Names(s) && n !in s.offers
    ensures (n, SS58) in s.records
    ensures s.records[(n, SS58)] == Owner(a) <==> s.tokens[n].owner == a
    ensures s.records[(n, SS58)] == Owner(a) <==> a in s.primary && s.primary[a] == n
  {
    ReachableIsSound(s);
  }

  /** What some run leads to in which no teardown of `p` leaves live subnames of it behind. */
  ghost predicate TidilyReachable(s: State, p: Node) {
    exists now: nat, free: map<Account, nat>, prices: PriceTable, reserved: set<Node>, official: Account,
           ops: seq<Op> ::
      s == Run(Genesis(now, free, prices, reserved, official), ops)
      && TidyFor(Genesis(now, free, prices, reserved, official), ops, p)
  }

  lemma TidyIsReachable(s: State, p: Node)
    requires TidilyReachable(s, p) && IsName(p)
    ensures Reachable(s) && Inv(s) && CountedAt(s, p)
  {
    var now: nat, free: map<Account, nat>, prices: PriceTable, reserved: set<Node>, official: Account, ops: seq<Op> :|
      s == Run(Genesis(now, free, prices, reserved, official), ops)
      && TidyFor(Genesis(now, free, prices, reserved, official), ops, p);
    hide Inv, CountedAt, TidyFor, Run;
    GenesisIsSound(now, free, prices, reserved, official);
    GenesisIsCounted(now, free, prices, reserved, official, p);
    CountedWhileTidy(Genesis(now, free, prices, reserved, official), ops, p);
    assert Reachable(s);
    ReachableIsSound(s);
  }

  /** As long as no teardown of it leaves any behind, a parent counts its live subnames. */
  lemma ChildrenAreCounted(s: State, p: Node)
    requires TidilyReachable(s, p) && p in s.tokens && IsName(p)
    ensures s.tokens[p].children == |set m | m in s.tokens && m in s.origins && s.origins[m] == p|
  {
    TidyIsReachable(s, p);
    hide Inv;
    assert Kids(s, p) == set m | m in s.tokens && m in s.origins && s.origins[m] == p;
  }

  /** The same for a subname: its parent is live. */
  lemma SubnamesHaveLiveParents(s: State, m: Node)
    requires m in s.origins && TidilyReachable(s, s.origins[m])
    ensures s.origins[m] in s.tokens && s.origins[m] in s.infos
  {
    var p := s.origins[m];
    assert Reachable(s);
    ReachableIsSound(s);
    assert m in s.origins.Keys && m in SubnameTokens(s) && IsName(p);
    TidyIsReachable(s, p);
    NameFacts(s, p);
    hide Inv;
    assert m in Kids(s, p);
  }

  /** A run that leaves a live subname behind: register, offer, accept, release, and register anew. */
  function OrphaningRun(): seq<Op> {
    var o := Open([], Leave, false, false, 0, 0, 0, 0, 0, 0, 0);
    [OpRegister(1, "a", None, o), OpOfferSubname(1, "b", 2), OpAcceptSubname(2, "a", "b"),
     OpReleaseName(1, o), OpRegister(1, "a", None, o)]
  }

  function ZeroPrices(): PriceTable {
    [0, 0, 0, 0, 0, 0, 0, 0, 0, 0, 0]
  }

  lemma FreshRegistration(s: State, caller: Account, name: Label, o: Open)
    requires caller !in s.primary && s.reserved == {} && s.prices == ZeroPrices() && o.fees == []
    requires NameHash(name) !in s.tokens && NameHash(name) !in s.infos
    ensures var (n, r) := (NameHash(name), Register(s, caller, name, None, o));
      && r.Ok? && r.value.tokens == s.tokens[n := Token(caller, 0)] && r.value.primary == s.primary[caller := n]
      && r.value.subnames == s.subnames && r.value.origins == s.origins
      && r.value.reserved == {} && r.value.prices == s.prices
      && r.value.deposits == s.deposits[n := (caller, 0)] && r.value.listings == s.listings
      && r.value.offers == s.offers && r.value.now == s.now && r.value.bank.Free(caller) == s.bank.Free(caller)
  {
    assert Price(s.prices, name) == 0;
  }

  lemma TakenUpSubname(s: State, caller: Account, parent: Label, name: Label, target: Account)
    requires caller in s.primary && s.primary[caller] == NameHash(parent) && NameHash(parent) in s.tokens
    requires target != caller && SubnameHash(parent, name) !in s.subnames
    ensures var (p, m, r) := (NameHash(parent), SubnameHash(parent, name), OfferSubname(s, caller, name, target));
      && r.Ok?
      && var r2 := AcceptSubname(r.value, target, parent, name);
      && r2.Ok? && m in r2.value.tokens && m in r2.value.origins && r2.value.origins[m] == p
      && p in r2.value.tokens && r2.value.primary == s.primary
      && r2.value.reserved == s.reserved && r2.value.prices == s.prices
  {
  }

  lemma LeavingRelease(s: State, caller: Account, o: Open)
    requires caller in s.primary && s.primary[caller] in s.tokens && o.fate.Leave?
    ensures var (n, r) := (s.primary[caller], ReleaseName(s, caller, o));
      && r.Ok? && r.value.tokens == s.tokens - {n} && r.value.origins == s.origins - {n}
      && n !in r.value.infos && caller !in r.value.primary
      && r.value.reserved == s.reserved && r.value.prices == s.prices
  {
    var r := ReleaseName(s, caller, o);
    TeardownIsPurge(s, s.primary[caller], caller, 0, o, r.value);
    hide Teardown;
  }

  /** After it the name counts no subname, although one is live under it. */
  lemma OrphansGoUncounted()
    ensures var s := Run(Genesis(0, map[], ZeroPrices(), {}, 0), OrphaningRun());
      && NameHash("a") in s.tokens && s.tokens[NameHash("a")].children == 0
      && SubnameHash("a", "b") in Kids(s, NameHash("a"))
  {
    hide Register, OfferSubname, AcceptSubname, ReleaseName, Price;
    var o := Open([], Leave, false, false, 0, 0, 0, 0, 0, 0, 0);
    var g, ops := Genesis(0, map[], ZeroPrices(), {}, 0), OrphaningRun();
    FreshRegistration(g, 1, "a", o);
    var s1 := Next(g, ops[0]);
    TakenUpSubname(s1, 1, "a", "b", 2);
    var s2 := Next(s1, ops[1]);
    var s3 := Next(s2, ops[2]);
    LeavingRelease(s3, 1, o);
    var s4 := Next(s3, ops[3]);
    FreshRegistration(s4, 1, "a", o);
    hide Next;
    FiveSteps(g, ops);
  }

  lemma FiveSteps(s: State, ops: seq<Op>)
    requires |ops| == 5
    ensures Run(s, ops) == Next(Next(Next(Next(Next(s, ops[0]), ops[1]), ops[2]), ops[3]), ops[4])
  {
    hide Next;
    var s2 := Next(Next(s, ops[0]), ops[1]);
    assert Run(s, ops) == Run(s2, ops[2..]) by {
      assert ops[1..][1..] == ops[2..];
    }
    assert Run(s2, ops[2..]) == Run(Next(Next(s2, ops[2]), ops[3]), ops[4..]) by {
      assert ops[2..][1..] == ops[3..] && ops[3..][1..] == ops[4..];
    }
    var s4 := Next(Next(s2, ops[2]), ops[3]);
    assert Run(s4, ops[4..]) == Run(Next(s4, ops[4]), []) by {
      assert ops[4..][1..] == [];
    }
  }

  /** The walk from a node along runtime origins, cut off after `limit` steps. */
  ghost function Ancestry(s: State, m: Node, limit: nat): seq<Node>
    decreases limit
  {
    if limit > 0 && m in s.origins then [m] + Ancestry(s, s.origins[m], limit - 1) else [m]
  }

  /** Every walk ends by itself after at most one step, at a canonical name; no subname is primary. */
  lemma SubnamesAreShallow(s: State, m: Node, limit: nat)
    requires Reachable(s)
    ensures |Ancestry(s, m, limit)| <= 2
    ensures m in s.origins ==> IsName(s.origins[m]) && s.origins[m] !in s.origins
    ensures m in s.origins ==> forall a :: a in s.primary ==> s.primary[a] != m
  {
    ReachableIsSound(s);
    if m in s.origins {
      var p := s.origins[m];
      assert m in s.origins.Keys && m in SubnameTokens(s) && p !in SubnameTokens(s);
      assert p !in s.origins.Keys;
      if limit > 0 {
        assert Ancestry(s, p, limit - 1) == [p];
      }
    }
  }

  // ---------- What a call leaves of a registration ----------

  /** The registration of `n`, as far as it lasts: its origin record and its expiry. */
  ghost predicate Undisturbed(s: State, s': State, n: Node) {
    && s.now <= s'.now
    && (n in s'.tokens ==> n in s.tokens)
    && (n in s'.tokens && (n, ORIGIN) in s.records ==>
          (n, ORIGIN) in s'.records && s'.records[(n, ORIGIN)] == s.records[(n, ORIGIN)])
    && (n in s'.tokens && n in s.infos ==> n in s'.infos && s'.infos[n].expire == s.infos[n].expire)
  }

  ghost predicate TreeOfNames(s: State) {
    (forall m :: m in s.subnames ==> IsSubname(m)) && (forall a :: a in s.primary ==> IsName(s.primary[a]))
  }

  lemma TeardownSpares(s: State, m: Node, finder: Account, bounty: nat, o: Open, n: Node)
    requires TreeOfNames(s) && IsName(n) && IsName(m) && Teardown(s, m, finder, bounty, o).Ok?
    ensures var s' := Teardown(s, m, finder, bounty, o).value;
            TreeOfNames(s') && Undisturbed(s, s', n) && s'.infos == s.infos - {m}
  {
    TeardownIsPurge(s, m, finder, bounty, o, Teardown(s, m, finder, bounty, o).value);
    hide Teardown;
  }

  lemma GrantSpares(s: State, caller: Account, name: Label, o: Open, n: Node)
    requires Grant(s, caller, name, o).Ok? && n != NameHash(name)
    ensures Undisturbed(s, Grant(s, caller, name, o).value, n)
  {
  }

  lemma RegisterSpares(s: State, caller: Account, name: Label, reject: Option<Label>, o: Open, n: Node)
    requires TreeOfNames(s) && IsName(n) && Register(s, caller, name, reject, o).Ok? && n != NameHash(name)
    ensures Undisturbed(s, Register(s, caller, name, reject, o).value, n)
  {
    hide Teardown, Grant, TreeOfNames;
    var s1 := s;
    if reject.Some? {
      TeardownSpares(s, NameHash(reject.value), caller, 0, o, n);
      s1 := Teardown(s, NameHash(reject.value), caller, 0, o).value;
    }
    var s2 := s1;
    if NameHash(name) in s1.tokens {
      TeardownSpares(s1, NameHash(name), caller, 0, o, n);
      s2 := Teardown(s1, NameHash(name), caller, 0, o).value;
    }
    GrantSpares(s2, caller, name, o, n);
  }

  lemma {:induction false} CleanupSpares(s: State, caller: Account, deadline: nat, due: seq<Node>, o: Open, n: Node)
    requires TreeOfNames(s) && IsName(n) && forall m :: m in s.infos ==> IsName(m)
    ensures Undisturbed(s, CleanupEach(s, caller, deadline, due, o), n)
    decreases |due|
  {
    hide Teardown, TreeOfNames;
    if due != [] {
      var s1 := CleanupOne(s, caller, deadline, due[0], o);
      if s1 != s {
        TeardownSpares(s, due[0], caller, BountyFrom(s.deposits[due[0]].1, o.bounty), o, n);
      }
      CleanupSpares(s1, caller, deadline, due[1..], o, n);
    }
  }

  lemma ClearSpares(s: State, m: Node, who: Account, o: Open, n: Node)
    requires m in s.tokens
    ensures Undisturbed(s, ClearUserRecords(s, m, o), n) && Undisturbed(s, SetOwner(s, m, who), n)
    ensures m in ClearUserRecords(s, m, o).tokens
  {
  }

  lemma TransferSpares(s: State, caller: Account, to: Account, o: Open, n: Node)
    requires Transfer(s, caller, to, o).Ok?
    ensures Undisturbed(s, Transfer(s, caller, to, o).value, n)
  {
    var m := s.primary[caller];
    var s1 := Rotate(s, m, to, s.deposits[m].1).value;
    RotateIsMoney(s, m, to, s.deposits[m].1, s1);
    UnlistIsMoney(s1, m);
    hide Rotate, Unlist;
    var s2 := UnlistUnless(s1, m, o.keepListing);
    ConveySpares(s2.(primary := s2.primary - {caller}), m, to, o, n);
  }

  lemma ConveySpares(s: State, m: Node, who: Account, o: Open, n: Node)
    requires m in s.tokens
    ensures Undisturbed(s, SetOwner(ClearUserRecords(s, m, o), m, who), n)
  {
    ClearSpares(s, m, who, o, n);
    ClearSpares(ClearUserRecords(s, m, o), m, who, o, n);
    hide SetOwner, ClearUserRecords;
  }

  lemma AcceptSpares(s: State, caller: Account, name: Label, o: Open, n: Node)
    requires AcceptOffer(s, caller, name, o).Ok?
    ensures Undisturbed(s, AcceptOffer(s, caller, name, o).value, n)
  {
    var m := NameHash(name);
    var s1 := Rotate(s, m, o.carrier, o.amount).value;
    RotateIsMoney(s, m, o.carrier, o.amount, s1);
    hide Rotate;
    ClearSpares(s1.(offers := s1.offers - {m}), m, caller, o, n);
  }

  lemma SellSpares(s: State, m: Node, buyer: Account, recipient: Option<Account>, o: Open, n: Node)
    requires m in s.listings && m in s.tokens && m in s.deposits && Sell(s, m, buyer, recipient, o).Ok?
    ensures Undisturbed(s, Sell(s, m, buyer, recipient, o).value, n)
  {
    hide Settle;
    var paid := s.(bank := Settle(s.bank, buyer, s.listings[m], o.fees).value);
    var carrier := if recipient.None? then buyer else o.carrier;
    UnlistIsMoney(paid, m);
    var s1 := Rotate(Unlist(paid, m), m, carrier, o.amount).value;
    RotateIsMoney(Unlist(paid, m), m, carrier, o.amount, s1);
    hide Rotate, Unlist, HandOver, ClearUserRecords;
    HandOverSpares(s1.(primary := s1.primary - {s1.tokens[m].owner}), m, buyer, recipient, o, n);
  }

  lemma HandOverSpares(s: State, m: Node, buyer: Account, recipient: Option<Account>, o: Open, n: Node)
    requires m in s.tokens
    ensures Undisturbed(s, HandOver(ClearUserRecords(s, m, o), m, buyer, recipient, o), n)
  {
    hide ClearUserRecords, SetOwner;
    if recipient.None? {
      ConveySpares(s, m, buyer, o, n);
    } else {
      OfferSpares(s, m, buyer, recipient, o, n);
    }
  }

  lemma OfferSpares(s: State, m: Node, buyer: Account, recipient: Option<Account>, o: Open, n: Node)
    requires m in s.tokens && recipient.Some?
    ensures Undisturbed(s, HandOver(ClearUserRecords(s, m, o), m, buyer, recipient, o), n)
  {
    ClearSpares(s, m, buyer, o, n);
    hide ClearUserRecords;
  }

  lemma RenewSpares(s: State, caller: Account, o: Open, n: Node)
    requires Renew(s, caller, o).Ok? && n != s.primary[caller]
    ensures Undisturbed(s, Renew(s, caller, o).value, n)
  {
  }

  lemma OtherCallSpares(s: State, op: Op, n: Node)
    requires !op.OpRegister? && !op.OpRenew? && !op.OpReleaseName? && !op.OpCleanup?
    requires !op.OpTransfer? && !op.OpAcceptOffer? && !op.OpBuy?
    requires TreeOfNames(s) && Apply(s, op).Ok? && IsName(n)
    ensures Undisturbed(s, Apply(s, op).value, n)
  {
    hide PayOut;
  }

  /** Does this call succeed in registering `n`? */
  ghost predicate Registers(s: State, op: Op, n: Node) {
    op.OpRegister? && NameHash(op.name) == n && Apply(s, op).Ok?
  }

  /** Does it succeed in registering `n`, or in renewing it? */
  ghost predicate Restarts(s: State, op: Op, n: Node) {
    || Registers(s, op, n)
    || (op.OpRenew? && op.caller in s.primary && s.primary[op.caller] == n && Apply(s, op).Ok?)
  }

  lemma StepSpares(s: State, op: Op, n: Node)
    requires Inv(s) && IsName(n) && !Restarts(s, op, n)
    ensures Undisturbed(s, Next(s, op), n)
  {
    InvMakesTree(s);
    hide Inv, Undisturbed, TreeOfNames, Register, Renew, ReleaseName, Cleanup, Transfer, AcceptOffer, Buy,
         CreateListing, CancelListing, CleanupListing, OfferSubname, AcceptSubname, RejectSubname,
         ReleaseSubname, RevokeSubname, SetRecord, SetText, SetBasePrice, SetReserved, SetOfficial;
    Unchanged(s, n);
    if Apply(s, op).Ok? {
      if op.OpRegister? {
        RegisterSpares(s, op.caller, op.name, op.reject, op.o, n);
      } else if op.OpRenew? {
        RenewNeedsPrimary(s, op.caller, op.o);
        RenewSpares(s, op.caller, op.o, n);
      } else if op.OpReleaseName? {
        ReleaseSpares(s, op.caller, op.o, n);
      } else if op.OpCleanup? {
        CleanupAllSpares(s, op.caller, op.deadline, op.due, op.o, n);
      } else if op.OpTransfer? {
        TransferSpares(s, op.caller, op.to, op.o, n);
      } else if op.OpAcceptOffer? {
        AcceptSpares(s, op.caller, op.name, op.o, n);
      } else if op.OpBuy? {
        BuySpares(s, op.caller, op.name, op.recipient, op.o, n);
      } else {
        OtherCallSpares(s, op, n);
      }
    }
  }

  lemma RenewNeedsPrimary(s: State, caller: Account, o: Open)
    ensures Renew(s, caller, o).Ok? ==> caller in s.primary
  {
  }

  lemma InvMakesTree(s: State)
    requires Inv(s)
    ensures TreeOfNames(s) && forall m :: m in s.infos ==> IsName(m)
  {
    assert forall m :: m in s.infos ==> m in Names(s);
  }

  lemma Unchanged(s: State, n: Node)
    ensures Undisturbed(s, s, n)
  {
  }

  lemma ReleaseSpares(s: State, caller: Account, o: Open, n: Node)
    requires TreeOfNames(s) && IsName(n) && ReleaseName(s, caller, o).Ok?
    ensures Undisturbed(s, ReleaseName(s, caller, o).value, n)
  {
    TeardownSpares(s, s.primary[caller], caller, 0, o, n);
    hide Teardown;
  }

  lemma CleanupAllSpares(s: State, caller: Account, deadline: nat, due: seq<Node>, o: Open, n: Node)
    requires TreeOfNames(s) && IsName(n) && forall m :: m in s.infos ==> IsName(m)
    requires Cleanup(s, caller, deadline, due, o).Ok?
    ensures Undisturbed(s, Cleanup(s, caller, deadline, due, o).value, n)
  {
    CleanupSpares(s, caller, deadline, due, o, n);
  }

  lemma BuySpares(s: State, buyer: Account, name: Label, recipient: Option<Account>, o: Open, n: Node)
    requires Buy(s, buyer, name, recipient, o).Ok?
    ensures Undisturbed(s, Buy(s, buyer, name, recipient, o).value, n)
  {
    BuyNeedsSale(s, buyer, name, recipient, o);
    SellSpares(s, NameHash(name), buyer, recipient, o, n);
    hide Buy, Sell;
  }

  // ---------- Runs ----------

  /** `n` stays registered throughout the run, and no call of the run succeeds in registering it again. */
  ghost predicate Lasts(s: State, ops: seq<Op>, n: Node)
    decreases |ops|
  {
    && n in s.tokens
    && (ops != [] ==>
          && !Registers(s, ops[0], n)
          && Lasts(Next(s, ops[0]), ops[1..], n))
  }

  /** The origin record is written once, at registration, and outlives every change of owner. */
  lemma {:induction false} OriginSurvives(s: State, ops: seq<Op>, n: Node)
    requires Inv(s) && IsName(n) && Lasts(s, ops, n)
    ensures (n, ORIGIN) in s.records && (n, ORIGIN) in Run(s, ops).records
    ensures Run(s, ops).records[(n, ORIGIN)] == s.records[(n, ORIGIN)]
    decreases |ops|
  {
    OriginIsThere(s, n);
    hide Inv, Apply, Next, Registers;
    if ops != [] {
      OriginStep(s, ops[0], n);
      StepIsSound(s, ops[0]);
      OriginSurvives(Next(s, ops[0]), ops[1..], n);
    }
  }

  lemma OriginIsThere(s: State, n: Node)
    requires Inv(s) && IsName(n) && n in s.tokens
    ensures (n, ORIGIN) in s.records
  {
    assert n in Names(s);
  }

  lemma StepIsSound(s: State, op: Op)
    requires Inv(s)
    ensures Inv(Next(s, op))
  {
    hide Inv, Apply, Total;
    StepKeeps(s, op);
  }

  lemma OriginStep(s: State, op: Op, n: Node)
    requires Inv(s) && IsName(n) && n in s.tokens && n in Next(s, op).tokens
    requires !Registers(s, op, n)
    ensures (n, ORIGIN) in s.records && (n, ORIGIN) in Next(s, op).records
    ensures Next(s, op).records[(n, ORIGIN)] == s.records[(n, ORIGIN)]
  {
    OriginIsThere(s, n);
    if Restarts(s, op, n) {
      hide Inv, Apply;
      RenewKeepsRecords(s, op);
    } else {
      hide Inv, Apply, Next;
      StepSpares(s, op, n);
    }
  }

  lemma RenewKeepsRecords(s: State, op: Op)
    requires op.OpRenew?
    ensures Next(s, op).records == s.records
  {
  }

  /** No call of the run succeeds in registering or renewing `n`. */
  ghost predicate NoRestart(s: State, ops: seq<Op>, n: Node)
    decreases |ops|
  {
    ops != [] ==> !Restarts(s, ops[0], n) && NoRestart(Next(s, ops[0]), ops[1..], n)
  }

  /** `n` is not registered, or its registration is over. */
  ghost predicate Lapsed(s: State, n: Node) {
    n in s.tokens && n in s.infos ==> s.infos[n].expire <= s.now
  }

  /** An expired name comes back only by a renewal or a new registration. */
  lemma {:induction false} LapsedStaysLapsed(s: State, ops: seq<Op>, n: Node)
    requires Inv(s) && IsName(n) && Lapsed(s, n) && NoRestart(s, ops, n)
    ensures Lapsed(Run(s, ops), n)
    decreases |ops|
  {
    NameFacts(s, n);
    hide Inv, Apply, Next;
    if ops != [] {
      StepSpares(s, ops[0], n);
      StepIsSound(s, ops[0]);
      NameFacts(Next(s, ops[0]), n);
      LapsedStaysLapsed(Next(s, ops[0]), ops[1..], n);
    }
  }
}
