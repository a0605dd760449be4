/**
 Subnames and the names they are under. What a teardown does with live subnames is left open; a name
 is live and counts its live subnames until a teardown of that very name leaves some behind.
 */
module PnsTree {
  import opened Wrappers
  import opened Balances
  import opened PnsTypes
  import opened PnsSteps
  import opened PnsInvariants
  import opened PnsRuns

  /** The live subname tokens whose origin is `p`. */
  function Kids(s: State, p: Node): set<Node> {
    set m | m in s.tokens && m in s.origins && s.origins[m] == p
  }

  /** The name counts its live subnames; a name that is not registered has none. */
  ghost predicate CountedAt(s: State, p: Node) {
    |Kids(s, p)| == if p in s.tokens then s.tokens[p].children else 0
  }

  /** Every canonical name does. */
  ghost predicate Tree(s: State) {
    forall p :: IsName(p) ==> CountedAt(s, p)
  }

  // ---------- Calls that leave the tree alone ----------

  ghost predicate SameTree(s: State, s': State) {
    && s'.origins == s.origins && s'.tokens.Keys == s.tokens.Keys
    && forall p :: p in s.tokens && IsName(p) ==> s'.tokens[p].children == s.tokens[p].children
  }

  lemma TreeFrame(s: State, s': State, p: Node)
    requires SameTree(s, s') && IsName(p)
    ensures CountedAt(s', p) <==> CountedAt(s, p)
  {
    assert Kids(s', p) == Kids(s, p);
    assert p in s'.tokens.Keys <==> p in s.tokens.Keys;
  }

  lemma ConveyKeepsTree(s: State, n: Node, who: Account, s': State)
    requires Conveys(s, n, who, s')
    ensures SameTree(s, s')
  {
    assert s'.tokens.Keys == s.tokens.Keys;
  }

  /** The calls that neither make, end nor count a subname, nor make or end a name. */
  predicate Flat(op: Op) {
    !op.OpRegister? && !op.OpReleaseName? && !op.OpCleanup?
    && !op.OpAcceptSubname? && !op.OpReleaseSubname? && !op.OpRevokeSubname?
  }

  lemma TransferIsFlat(s: State, caller: Account, to: Account, o: Open)
    requires Inv(s) && Transfer(s, caller, to, o).Ok?
    ensures SameTree(s, Transfer(s, caller, to, o).value)
  {
    hide Inv, Transfer, Conveys, KeepsRecords, Settles, SameTree;
    TransferNeedsPrimary(s, caller, to, o);
    PrimaryFacts(s, caller);
    TransferIsConveyance(s, caller, to, o, Transfer(s, caller, to, o).value);
    ConveyKeepsTree(s, s.primary[caller], to, Transfer(s, caller, to, o).value);
  }

  lemma AcceptIsFlat(s: State, caller: Account, name: Label, o: Open)
    requires Inv(s) && AcceptOffer(s, caller, name, o).Ok?
    ensures SameTree(s, AcceptOffer(s, caller, name, o).value)
  {
    hide Inv, Conveys, KeepsRecords, Settles, SameTree, Rotate, SetOwner;
    NameFacts(s, NameHash(name));
    AcceptIsConveyance(s, caller, name, o, AcceptOffer(s, caller, name, o).value);
    ConveyKeepsTree(s, NameHash(name), caller, AcceptOffer(s, caller, name, o).value);
  }

  lemma BuyIsFlat(s: State, buyer: Account, name: Label, recipient: Option<Account>, o: Open)
    requires Inv(s) && Buy(s, buyer, name, recipient, o).Ok?
    ensures SameTree(s, Buy(s, buyer, name, recipient, o).value)
  {
    hide Inv, Conveys, KeepsRecords, Settles, Offers, SameTree, Sell, Buy;
    var n, s' := NameHash(name), Buy(s, buyer, name, recipient, o).value;
    BuyNeedsSale(s, buyer, name, recipient, o);
    NameFacts(s, n);
    SettledFacts(s, n);
    SellIsConveyance(s, n, buyer, recipient, o, s');
    ConveyKeepsTree(s, n, if recipient.None? then buyer else o.custodian, s');
  }

  lemma OtherIsFlat(s: State, op: Op)
    requires Flat(op) && !op.OpTransfer? && !op.OpAcceptOffer? && !op.OpBuy? && !op.OpSetOfficial?
    ensures Next(s, op).origins == s.origins && Next(s, op).tokens == s.tokens
  {
    hide PayOut;
  }

  lemma HandoverIsFlat(s: State, origin: Origin, who: Account)
    requires SetOfficial(s, origin, who).Ok?
    ensures SameTree(s, SetOfficial(s, origin, who).value)
  {
    assert SetOfficial(s, origin, who).value.tokens.Keys == s.tokens.Keys;
  }

  lemma FlatCounts(s: State, op: Op, p: Node)
    requires Inv(s) && CountedAt(s, p) && IsName(p) && Flat(op)
    ensures CountedAt(Next(s, op), p)
  {
    hide Inv, CountedAt, SameTree, Transfer, AcceptOffer, Buy, SetOfficial;
    if Apply(s, op).Ok? {
      if op.OpTransfer? {
        TransferIsFlat(s, op.caller, op.to, op.o);
      } else if op.OpAcceptOffer? {
        AcceptIsFlat(s, op.caller, op.name, op.o);
      } else if op.OpBuy? {
        BuyIsFlat(s, op.caller, op.name, op.recipient, op.o);
      } else if op.OpSetOfficial? {
        HandoverIsFlat(s, op.origin, op.who);
      } else {
        OtherIsFlat(s, op);
        assert SameTree(s, Next(s, op)) by { SameKids(s, Next(s, op), Base); }
      }
      hide Apply;
      TreeFrame(s, Next(s, op), p);
    }
  }

  // ---------- Taking up and giving up a subname ----------

  lemma TakeUpTokens(s: State, p: Node, m: Node, who: Account, s': State, q: Node)
    requires TakesUp(s, p, m, who, s') && m !in s.tokens && IsName(q)
    ensures s'.tokens.Keys == s.tokens.Keys + {m} && s'.origins == s.origins[m := p] && m != q && p in s.tokens
    ensures q in s.tokens ==> s'.tokens[q].children == s.tokens[q].children + if q == p then 1 else 0
  {
  }

  lemma KidsGrow(s: State, p: Node, m: Node, s': State, q: Node)
    requires m !in s.tokens && m !in s.origins
    requires s'.tokens.Keys == s.tokens.Keys + {m} && s'.origins == s.origins[m := p]
    ensures Kids(s', q) == Kids(s, q) + (if q == p then {m} else {}) && m !in Kids(s, q)
  {
  }

  lemma TakeUpCounts(s: State, p: Node, m: Node, who: Account, s': State, q: Node)
    requires Nested(s) && TakesUp(s, p, m, who, s') && IsName(q) && CountedAt(s, q)
    ensures CountedAt(s', q)
  {
    hide Nested, TakesUp, Kids;
    TakeUpIsNew(s, p, m, who, s');
    TakeUpTokens(s, p, m, who, s', q);
    KidsGrow(s, p, m, s', q);
    assert q in s'.tokens.Keys <==> q in s.tokens.Keys;
  }

  lemma RowParts(s: State)
    requires Inv(s)
    ensures Registered(s) && Owned(s) && Nested(s) && Linked(s)
  {
  }

  lemma AcceptTakesUp(s: State, caller: Account, parent: Label, name: Label)
    requires AcceptSubname(s, caller, parent, name).Ok?
    ensures TakesUp(s, NameHash(parent), SubnameHash(parent, name), caller,
                    AcceptSubname(s, caller, parent, name).value)
  {
  }

  lemma KidsShrink(s: State, m: Node, s': State, q: Node)
    requires s'.tokens.Keys == s.tokens.Keys - {m} && s'.origins == s.origins - {m}
    ensures Kids(s', q) == Kids(s, q) - {m}
  {
  }

  lemma KidOfItsParent(s: State, m: Node, q: Node)
    requires Nested(s) && Linked(s) && IsSubname(m)
    ensures m in Kids(s, q) <==> m in s.tokens && q == m.parent
  {
    assert m in s.tokens <==> m in SubnameTokens(s);
  }

  lemma DropCounts(s: State, p: Node, m: Node, q: Node)
    requires Nested(s) && Linked(s) && IsSubname(m) && m.parent == p && IsName(q) && CountedAt(s, q)
    ensures CountedAt(DropSubname(s, p, m), q)
  {
    KidOfItsParent(s, m, q);
    KidsShrink(s, m, DropSubname(s, p, m), q);
    hide Nested, Linked, Kids;
  }

  lemma SubnameCounts(s: State, op: Op, p: Node)
    requires Inv(s) && CountedAt(s, p) && IsName(p)
    requires op.OpAcceptSubname? || op.OpReleaseSubname? || op.OpRevokeSubname?
    ensures CountedAt(Next(s, op), p)
  {
    hide Inv, Registered, Owned, Nested, Linked, CountedAt, TakesUp, DropSubname, AcceptSubname;
    RowParts(s);
    if Apply(s, op).Ok? {
      match op
      case OpAcceptSubname(caller, parent, name) =>
        AcceptTakesUp(s, caller, parent, name);
        TakeUpCounts(s, NameHash(parent), SubnameHash(parent, name), caller, Next(s, op), p);
      case OpReleaseSubname(caller, parent, name) => DropCounts(s, NameHash(parent), SubnameHash(parent, name), p);
      case OpRevokeSubname(caller, name) =>
        PrimaryFacts(s, caller);
        DropCounts(s, s.primary[caller], Child(s.primary[caller], name), p);
    }
  }

  // ---------- Names that come and go ----------

  /** Tearing `n` down would leave live subnames behind. */
  predicate Strands(s: State, n: Node, o: Open) {
    o.fate.Leave? && n in s.tokens && s.tokens[n].children > 0
  }

  lemma PurgedKids(s: State, n: Node, gone: set<Node>, q: Node)
    requires Nested(s) && Linked(s) && Removable(s, n, gone)
    ensures Kids(Purged(s, n, gone), q) == if q == n && gone != {n} then {} else Kids(s, q)
    ensures gone == {n} ==> Kids(Purged(s, n, gone), q) == Kids(s, q)
  {
    var s' := Purged(s, n, gone);
    forall m ensures m in Kids(s', q) <==> m in Kids(s, q) && m !in gone {}
    forall m | m in Kids(s, q) ensures m != n && (gone != {n} ==> (m in gone <==> q == n)) {
      assert m in s.origins.Keys && m in SubnameTokens(s) && m in ActiveSubnames(s);
    }
  }

  lemma NoRowsNoKids(s: State, n: Node)
    requires Nested(s) && Linked(s) && Subnames(s, n) <= {n} && IsName(n)
    ensures Kids(s, n) == {}
  {
    forall m | m in Kids(s, n) ensures m in Subnames(s, n) && m != n {
      assert m in s.origins.Keys && m in SubnameTokens(s) && m in ActiveSubnames(s);
    }
  }

  lemma TeardownRows(s: State, n: Node, finder: Account, bounty: nat, o: Open, s': State)
    requires Teardown(s, n, finder, bounty, o) == Ok(s')
    ensures var gone := GoneWith(s, n, o);
            s'.tokens == s.tokens - gone && s'.origins == s.origins - gone && s'.infos == s.infos - {n}
    ensures n in s.deposits && bounty <= s.deposits[n].1 ==> s'.deposits == s.deposits - {n}
  {
    TeardownIsPurge(s, n, finder, bounty, o, s');
    hide Teardown;
  }

  lemma TeardownGoesBy(s: State, n: Node, finder: Account, bounty: nat, o: Open)
    requires Teardown(s, n, finder, bounty, o).Ok?
    ensures GoneWith(s, n, o) == (if o.fate.Cascade? then {n} + Subnames(s, n) else {n})
    ensures n in s.tokens && (o.fate.Refuse? ==> s.tokens[n].children == 0)
  {
    hide Refund, UnlistUnless, Purge;
  }

  lemma OtherNamesStay(s: State, n: Node, gone: set<Node>)
    requires Local(s, n, gone)
    ensures forall p :: IsName(p) && p != n ==> p !in gone
  {
  }

  lemma TeardownBranch(s: State, n: Node, finder: Account, bounty: nat, o: Open, s': State)
    requires Nested(s) && n in Names(s) && Teardown(s, n, finder, bounty, o) == Ok(s')
    ensures Removable(s, n, GoneWith(s, n, o))
    ensures s'.tokens == Purged(s, n, GoneWith(s, n, o)).tokens && s'.origins == Purged(s, n, GoneWith(s, n, o)).origins
    ensures n !in s'.tokens && (forall p :: IsName(p) && p != n ==> (p in s'.tokens <==> p in s.tokens))
    ensures forall p :: IsName(p) && p in s'.tokens ==> s'.tokens[p] == s.tokens[p]
  {
    hide Teardown, Nested, Local;
    TeardownRows(s, n, finder, bounty, o, s');
    GoneIsLocal(s, n, GoneWith(s, n, o));
    OtherNamesStay(s, n, GoneWith(s, n, o));
  }

  lemma SameKids(s: State, s': State, q: Node)
    requires s'.tokens == s.tokens && s'.origins == s.origins
    ensures Kids(s', q) == Kids(s, q) && SameTree(s, s')
  {
  }

  /** What a teardown of `n` leaves of the subnames of `p`. */
  lemma TeardownKids(s: State, n: Node, finder: Account, bounty: nat, o: Open, s': State, p: Node)
    requires Inv(s) && n in Names(s) && Teardown(s, n, finder, bounty, o) == Ok(s')
    ensures Kids(s', p) == if p == n && o.fate.Cascade? then {} else Kids(s, p)
    ensures o.fate.Refuse? ==> s.tokens[n].children == 0
  {
    hide Inv, Nested, Linked, Registered, Owned, Removable, Kids, SameTree;
    var gone := GoneWith(s, n, o);
    RowParts(s);
    TeardownGoesBy(s, n, finder, bounty, o);
    TeardownBranch(s, n, finder, bounty, o, s');
    SameKids(Purged(s, n, gone), s', p);
    PurgedKids(s, n, gone, p);
    if o.fate.Cascade? && gone == {n} {
      NoRowsNoKids(s, n);
    }
  }

  lemma GrantCounts(s: State, caller: Account, name: Label, o: Open, s': State, p: Node)
    requires Inv(s) && caller !in s.primary && NameHash(name) !in s.tokens && Grant(s, caller, name, o) == Ok(s')
    ensures CountedAt(s', p) <==> CountedAt(s, p)
  {
    var n := NameHash(name);
    hide Inv, Registered, Owned, Linked, Nested, Kids, Grant;
    RowParts(s);
    GrantIsGrant(s, caller, name, o, s');
    GrantKids(s, n, caller, s', p);
  }

  lemma GrantKids(s: State, n: Node, who: Account, s': State, p: Node)
    requires Nested(s) && Grants(s, n, who, s')
    ensures Kids(s', p) == Kids(s, p)
  {
    assert n !in s.origins by {
      assert n !in SubnameTokens(s);
    }
  }

  // ---------- Calls that tear names down ----------

  /** Whether clean-up takes up `n`. */
  predicate Due(s: State, deadline: nat, n: Node) {
    n in s.infos && s.infos[n].expire + GRACE_PERIOD == deadline && n in s.deposits
  }

  predicate Declines(reject: Option<Label>, p: Node) {
    reject.Some? && NameHash(reject.value) == p
  }

  /** The call succeeds and tears down `p`, leaving live subnames of it behind. */
  predicate LeavesOrphansOf(s: State, op: Op, p: Node) {
    Apply(s, op).Ok? &&
    match op
    case OpRegister(_, name, reject, o) => (NameHash(name) == p || Declines(reject, p)) && Strands(s, p, o)
    case OpReleaseName(caller, o) => caller in s.primary && s.primary[caller] == p && Strands(s, p, o)
    case OpCleanup(_, deadline, due, o) => p in due && Due(s, deadline, p) && Strands(s, p, o)
    case _ => false
  }

  /** Of the canonical names, only `n` may have gone. */
  ghost predicate OthersStay(s: State, s': State, n: Node) {
    && (forall p :: IsName(p) && p != n ==> (p in s'.tokens <==> p in s.tokens))
    && (forall p :: IsName(p) && p != n && p in s'.tokens && p in s.tokens ==> s'.tokens[p] == s.tokens[p])
  }

  lemma TearName(s: State, n: Node, caller: Account, bounty: nat, o: Open, s': State)
    requires Inv(s) && n in Names(s) && bounty <= s.deposits[n].1 && Teardown(s, n, caller, bounty, o) == Ok(s')
    ensures Inv(s') && n !in s'.tokens
    ensures OthersStay(s, s', n) && s'.infos == s.infos - {n} && s'.deposits == s.deposits - {n}
  {
    hide Inv, Nested, Registered, Owned, Linked, Teardown;
    RowParts(s);
    NameFacts(s, n);
    TeardownKeeps(s, n, caller, bounty, o);
    TeardownBranch(s, n, caller, bounty, o, s');
    TeardownRows(s, n, caller, bounty, o, s');
  }

  /** A teardown of another name changes nothing for `p`; its own leaves it counted exactly if it strands nothing. */
  lemma TearCounts(s: State, n: Node, caller: Account, bounty: nat, o: Open, s': State, p: Node)
    requires Inv(s) && n in Names(s) && bounty <= s.deposits[n].1 && Teardown(s, n, caller, bounty, o) == Ok(s')
    requires IsName(p)
    ensures p != n ==> (CountedAt(s', p) <==> CountedAt(s, p))
    ensures p == n && CountedAt(s, p) ==> (CountedAt(s', p) <==> !Strands(s, p, o))
  {
    hide Inv, Teardown, Kids;
    TearName(s, n, caller, bounty, o, s');
    TeardownKids(s, n, caller, bounty, o, s', p);
  }

  lemma ReleaseCounts(s: State, caller: Account, o: Open, p: Node)
    requires Inv(s) && CountedAt(s, p) && IsName(p) && ReleaseName(s, caller, o).Ok?
    ensures CountedAt(ReleaseName(s, caller, o).value, p) <==> !LeavesOrphansOf(s, OpReleaseName(caller, o), p)
  {
    hide Inv, CountedAt, Teardown, Strands;
    PrimaryFacts(s, caller);
    TearCounts(s, s.primary[caller], caller, 0, o, ReleaseName(s, caller, o).value, p);
  }

  lemma RejectCounts(s: State, caller: Account, reject: Option<Label>, o: Open, s1: State, p: Node)
    requires Inv(s) && CountedAt(s, p) && IsName(p) && caller !in s.primary
    requires if reject.Some? then RejectOffer(s, caller, NameHash(reject.value), o) == Ok(s1) else s1 == s
    ensures Inv(s1) && caller !in s1.primary
    ensures CountedAt(s1, p) <==> !(Declines(reject, p) && Strands(s, p, o))
    ensures Declines(reject, p) ==> p !in s1.tokens
    ensures !Declines(reject, p) ==> (Strands(s1, p, o) <==> Strands(s, p, o)) && (p in s1.tokens <==> p in s.tokens)
  {
    hide Inv, CountedAt, Teardown;
    if reject.Some? {
      var g := NameHash(reject.value);
      NameFacts(s, g);
      RejectKeeps(s, caller, g, o);
      TearName(s, g, caller, 0, o, s1);
      TearCounts(s, g, caller, 0, o, s1, p);
    }
  }

  lemma RegisterCounts(s: State, caller: Account, name: Label, reject: Option<Label>, o: Open, p: Node)
    requires Inv(s) && CountedAt(s, p) && IsName(p) && Register(s, caller, name, reject, o).Ok?
    ensures CountedAt(Register(s, caller, name, reject, o).value, p)
       <==> !LeavesOrphansOf(s, OpRegister(caller, name, reject, o), p)
  {
    hide Inv, CountedAt, Teardown, RejectOffer, Grant, Register;
    var n, s' := NameHash(name), Register(s, caller, name, reject, o).value;
    var s1, s2 := RegisterParts(s, caller, name, reject, o);
    RejectCounts(s, caller, reject, o, s1, p);
    SecondTeardown(s1, n, caller, o, s2, p);
    GrantCounts(s2, caller, name, o, s', p);
  }

  /** The name itself, if it is still there, is torn down next. */
  lemma SecondTeardown(s1: State, n: Node, caller: Account, o: Open, s2: State, p: Node)
    requires Inv(s1) && caller !in s1.primary && IsName(n) && IsName(p)
    requires if n in s1.tokens then Teardown(s1, n, caller, 0, o) == Ok(s2) else s2 == s1
    ensures Inv(s2) && caller !in s2.primary && n !in s2.tokens
    ensures p != n || p !in s1.tokens ==> (CountedAt(s2, p) <==> CountedAt(s1, p))
    ensures p == n && CountedAt(s1, p) ==> (CountedAt(s2, p) <==> !Strands(s1, p, o))
  {
    hide Inv, CountedAt, Teardown;
    if n in s1.tokens {
      NameFacts(s1, n);
      ReplaceKeeps(s1, caller, n, o);
      TearName(s1, n, caller, 0, o, s2);
      TearCounts(s1, n, caller, 0, o, s2, p);
    }
  }

  lemma CleanupOneRows(s: State, caller: Account, deadline: nat, n: Node, o: Open)
    requires Inv(s)
    ensures var s' := CleanupOne(s, caller, deadline, n, o);
      && Inv(s')
      && (s' == s || (Due(s, deadline, n) && s'.infos == s.infos - {n} && s'.deposits == s.deposits - {n}
                      && OthersStay(s, s', n)))
  {
    hide Inv, Teardown;
    CleanupOneKeeps(s, caller, deadline, n, o);
    NameFacts(s, n);
    if Due(s, deadline, n) {
      var bounty := BountyFrom(s.deposits[n].1, o.bounty);
      if Teardown(s, n, caller, bounty, o).Ok? {
        TearName(s, n, caller, bounty, o, CleanupOne(s, caller, deadline, n, o));
      }
    }
  }

  lemma CleanupOneCounts(s: State, caller: Account, deadline: nat, n: Node, o: Open, p: Node)
    requires Inv(s) && IsName(p)
    ensures var s' := CleanupOne(s, caller, deadline, n, o);
      && (p != n || !Due(s, deadline, n) ==> (CountedAt(s', p) <==> CountedAt(s, p)))
      && (p == n && Due(s, deadline, n) && CountedAt(s, p) ==> (CountedAt(s', p) <==> !Strands(s, p, o)))
      && (Strands(s, n, o) && Due(s, deadline, n) ==> n !in s'.infos)
  {
    hide Inv, CountedAt, Teardown;
    NameFacts(s, n);
    if Due(s, deadline, n) {
      var s', bounty := CleanupOne(s, caller, deadline, n, o), BountyFrom(s.deposits[n].1, o.bounty);
      LeaveNeverRefuses(s, n, caller, bounty, o);
      if Teardown(s, n, caller, bounty, o).Ok? {
        TearName(s, n, caller, bounty, o, s');
        TearCounts(s, n, caller, bounty, o, s', p);
      }
    }
  }

  lemma LeaveNeverRefuses(s: State, n: Node, finder: Account, bounty: nat, o: Open)
    ensures Strands(s, n, o) ==> Teardown(s, n, finder, bounty, o).Ok?
  {
  }

  /** Clean-up that does not take up `p` changes nothing for it. */
  lemma {:induction false} CleanupPasses(s: State, caller: Account, deadline: nat, due: seq<Node>, o: Open, p: Node)
    requires Inv(s) && IsName(p) && p !in s.infos
    ensures CountedAt(CleanupEach(s, caller, deadline, due, o), p) <==> CountedAt(s, p)
    decreases |due|
  {
    hide Inv, CountedAt, CleanupOne;
    if due != [] {
      CleanupOneRows(s, caller, deadline, due[0], o);
      CleanupOneCounts(s, caller, deadline, due[0], o, p);
      CleanupPasses(CleanupOne(s, caller, deadline, due[0], o), caller, deadline, due[1..], o, p);
    }
  }

  lemma {:induction false} CleanupCounts(s: State, caller: Account, deadline: nat, due: seq<Node>, o: Open, p: Node)
    requires Inv(s) && CountedAt(s, p) && IsName(p)
    ensures CountedAt(CleanupEach(s, caller, deadline, due, o), p)
       <==> !(p in due && Due(s, deadline, p) && Strands(s, p, o))
    decreases |due|
  {
    hide Inv, CountedAt, CleanupOne;
    if due != [] {
      var n, s1 := due[0], CleanupOne(s, caller, deadline, due[0], o);
      CleanupOneRows(s, caller, deadline, n, o);
      CleanupOneCounts(s, caller, deadline, n, o, p);
      assert p in due <==> p == n || p in due[1..];
      if p == n && Due(s, deadline, p) && Strands(s, p, o) {
        CleanupPasses(s1, caller, deadline, due[1..], o, p);
      } else {
        CleanupCounts(s1, caller, deadline, due[1..], o, p);
      }
    }
  }

  lemma DueIsName(s: State, deadline: nat, n: Node)
    requires Inv(s)
    ensures n in s.infos ==> IsName(n)
  {
    NameFacts(s, n);
    hide Inv;
  }

  // ---------- Steps and runs ----------

  /** A name that counts its live subnames goes on doing so exactly if the step leaves none of them behind. */
  lemma StepCounts(s: State, op: Op, p: Node)
    requires Inv(s) && CountedAt(s, p) && IsName(p)
    ensures CountedAt(Next(s, op), p) <==> !LeavesOrphansOf(s, op, p)
  {
    hide Inv, CountedAt, Register, ReleaseName, Strands, Due, CleanupEach;
    if op.OpRegister? {
      if Apply(s, op).Ok? {
        RegisterCounts(s, op.caller, op.name, op.reject, op.o, p);
      }
    } else if op.OpReleaseName? {
      if Apply(s, op).Ok? {
        ReleaseCounts(s, op.caller, op.o, p);
      }
    } else if op.OpCleanup? {
      if Apply(s, op).Ok? {
        CleanupCounts(s, op.caller, op.deadline, op.due, op.o, p);
      }
    } else if Flat(op) {
      FlatCounts(s, op, p);
    } else {
      SubnameCounts(s, op, p);
    }
  }

  /** No step of the run leaves live subnames of `p` behind. */
  ghost predicate TidyFor(s: State, ops: seq<Op>, p: Node)
    decreases |ops|
  {
    ops != [] ==> !LeavesOrphansOf(s, ops[0], p) && TidyFor(Next(s, ops[0]), ops[1..], p)
  }

  /** All along the run `p` counts its live subnames. */
  ghost predicate AlwaysCountedAt(s: State, ops: seq<Op>, p: Node)
    decreases |ops|
  {
    CountedAt(s, p) && (ops != [] ==> AlwaysCountedAt(Next(s, ops[0]), ops[1..], p))
  }

  /** All along a run a name counts its live subnames exactly if no step of it leaves any of them behind. */
  lemma {:induction false} CountedWhileTidy(s: State, ops: seq<Op>, p: Node)
    requires Inv(s) && CountedAt(s, p) && IsName(p)
    ensures AlwaysCountedAt(s, ops, p) <==> TidyFor(s, ops, p)
    ensures TidyFor(s, ops, p) ==> CountedAt(Run(s, ops), p)
    decreases |ops|
  {
    hide Inv, CountedAt, LeavesOrphansOf, Next;
    if ops != [] {
      StepCounts(s, ops[0], p);
      NextKeeps(s, ops[0]);
      if !LeavesOrphansOf(s, ops[0], p) {
        CountedWhileTidy(Next(s, ops[0]), ops[1..], p);
      }
    }
  }

  /** So all names do, exactly if the step leaves no live subname of any name behind. */
  lemma StepTree(s: State, op: Op)
    requires Inv(s) && Tree(s)
    ensures Tree(Next(s, op)) <==> forall p :: IsName(p) ==> !LeavesOrphansOf(s, op, p)
  {
    hide Inv, CountedAt, LeavesOrphansOf, Next;
    forall p | IsName(p) ensures CountedAt(Next(s, op), p) <==> !LeavesOrphansOf(s, op, p) {
      StepCounts(s, op, p);
    }
  }

  lemma NextKeeps(s: State, op: Op)
    requires Inv(s)
    ensures Inv(Next(s, op))
  {
    hide Inv, Apply, Total;
    StepKeeps(s, op);
  }

  lemma GenesisIsCounted(now: nat, free: map<Account, nat>, prices: PriceTable, reserved: set<Node>, official: Account,
                         p: Node)
    requires IsName(p)
    ensures CountedAt(Genesis(now, free, prices, reserved, official), p)
  {
    assert Kids(Genesis(now, free, prices, reserved, official), p) == {};
  }
}
