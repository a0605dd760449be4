/** When records and texts go: with their node, or with its owner. Otherwise what was written stays word for word. */
module PnsErasures {
  import opened Wrappers
  import opened Balances
  import opened PnsTypes
  import opened PnsSteps
  import opened PnsInvariants
  import opened PnsRuns
  import opened PnsTree
  import opened PnsEffects
  import opened PnsCleanup
  import opened PnsTitle
  import opened PnsWrites

  // ---------- What takes a node away ----------

  /** Tearing `p` down takes `n` along: it is `p` itself, or a subname of it that goes with it. */
  predicate GoesWith(s: State, p: Node, n: Node, o: Open) {
    n == p || (o.fate.Cascade? && n in s.subnames && n.Child? && n.parent == p)
  }

  /** Some candidate that is due and may go takes `n` along. */
  ghost predicate Swept(s: State, deadline: nat, due: seq<Node>, o: Open, n: Node) {
    exists p :: p in due && Sweeps(s, deadline, p, o, n)
  }

  predicate Sweeps(s: State, deadline: nat, p: Node, o: Open, n: Node) {
    Due(s, deadline, p) && MayGo(s, p, o) && GoesWith(s, p, n, o)
  }

  /** The call ends `n`: it tears it or its parent down, or it releases or revokes it. */
  ghost predicate Removes(s: State, op: Op, n: Node) {
    match op
    case OpReleaseName(caller, o) => caller in s.primary && GoesWith(s, s.primary[caller], n, o)
    case OpCleanup(_, deadline, due, o) =>
      Swept(s, deadline, due, o, n)
    case OpRegister(_, name, reject, o) =>
      || (reject.Some? && GoesWith(s, NameHash(reject.value), n, o))
      || (NameHash(name) in s.tokens && GoesWith(s, NameHash(name), n, o))
    case OpReleaseSubname(_, parent, name) => SubnameHash(parent, name) == n
    case OpRevokeSubname(caller, name) => caller in s.primary && Child(s.primary[caller], name) == n
    case _ => false
  }

  /** The call hands `n` on: to a new owner, or to be given away. */
  predicate HandsOn(s: State, op: Op, n: Node) {
    match op
    case OpTransfer(caller, _, _) => Has(s, caller, n)
    case OpBuy(_, name, _, _) => NameHash(name) == n
    case _ => false
  }

  /** Whether texts survive that. */
  predicate KeepsTexts(op: Op) {
    match op
    case OpTransfer(_, _, o) => o.keepTexts
    case OpBuy(_, _, _, o) => o.keepTexts
    case _ => true
  }

  // ---------- Call by call ----------

  /** The records an owner set for `n` go exactly if `records`, its texts exactly if `texts`; else they stand. */
  ghost predicate Goes(s: State, s': State, n: Node, records: bool, texts: bool) {
    && (forall t: RecordType :: t != SS58 && t != ORIGIN ==>
          && ((n, t) in s'.records <==> (n, t) in s.records && !records)
          && ((n, t) in s'.records ==> s'.records[(n, t)] == s.records[(n, t)]))
    && (forall kind: nat ::
          && ((n, kind) in s'.texts <==> (n, kind) in s.texts && !texts)
          && ((n, kind) in s'.texts ==> s'.texts[(n, kind)] == s.texts[(n, kind)]))
  }

  lemma GoesThen(s: State, s1: State, s2: State, n: Node, a: bool, b: bool)
    requires Goes(s, s1, n, a, a) && Goes(s1, s2, n, b, b)
    ensures Goes(s, s2, n, a || b, a || b)
  {
  }

  lemma StaysPut(s: State, s': State, n: Node)
    requires s'.records == s.records && s'.texts == s.texts
    ensures Goes(s, s', n, false, false)
  {
  }

  lemma GoneMeansGoes(s: State, p: Node, n: Node, o: Open)
    ensures n in GoneWith(s, p, o) <==> GoesWith(s, p, n, o)
  {
  }

  lemma PurgeErases(s: State, p: Node, gone: set<Node>, n: Node)
    ensures Goes(s, Purge(s, p, gone), n, n in gone, n in gone)
    ensures n in Purge(s, p, gone).subnames <==> n in s.subnames && n !in gone
  {
  }

  lemma SameStores(s: State, s1: State, s2: State, n: Node, gone: bool)
    requires Goes(s, s1, n, gone, gone) && s2.records == s1.records && s2.texts == s1.texts
    ensures Goes(s, s2, n, gone, gone)
  {
  }

  lemma TearErases(s: State, p: Node, caller: Account, bounty: nat, o: Open, s': State, n: Node)
    requires Teardown(s, p, caller, bounty, o) == Ok(s')
    ensures Goes(s, s', n, GoesWith(s, p, n, o), GoesWith(s, p, n, o))
    ensures n in s'.subnames <==> n in s.subnames && !GoesWith(s, p, n, o)
  {
    hide Teardown, Goes, GoesWith, GoneWith, Purge;
    TeardownIsPurge(s, p, caller, bounty, o, s');
    GoneMeansGoes(s, p, n, o);
    PurgeErases(s, p, GoneWith(s, p, o), n);
    SameStores(s, Purge(s, p, GoneWith(s, p, o)), s', n, GoesWith(s, p, n, o));
  }

  lemma GoesElsewhere(s: State, s': State, q: Node, n: Node, o: Open)
    requires n in s'.subnames <==> n in s.subnames
    ensures GoesWith(s', q, n, o) <==> GoesWith(s, q, n, o)
  {
  }

  lemma GrantErases(s: State, caller: Account, name: Label, o: Open, s': State, n: Node)
    requires Grant(s, caller, name, o) == Ok(s')
    ensures Goes(s, s', n, false, false)
  {
  }

  lemma RegisterErases(s: State, caller: Account, name: Label, reject: Option<Label>, o: Open, s': State, n: Node)
    requires Inv(s) && Register(s, caller, name, reject, o) == Ok(s')
    ensures var gone := Removes(s, OpRegister(caller, name, reject, o), n); Goes(s, s', n, gone, gone)
  {
    hide Inv, Register, RejectOffer, Teardown, Grant, Goes, GoesWith;
    var m := NameHash(name);
    var s1, s2 := RegisterParts(s, caller, name, reject, o);
    var first := reject.Some? && GoesWith(s, NameHash(reject.value), n, o);
    DeclineErases(s, caller, name, reject, o, s1, n);
    var second := m in s1.tokens && GoesWith(s1, m, n, o);
    if m in s1.tokens {
      TearErases(s1, m, caller, 0, o, s2, n);
    } else {
      StaysPut(s1, s2, n);
    }
    GrantErases(s2, caller, name, o, s', n);
    GoesThen(s, s1, s2, n, first, second);
    GoesThen(s, s2, s', n, first || second, false);
  }

  /** After a gift is declined, what the second teardown takes is what it would have taken, unless it is gone. */
  lemma DeclineErases(s: State, caller: Account, name: Label, reject: Option<Label>, o: Open, s1: State, n: Node)
    requires Inv(s) && caller !in s.primary
    requires if reject.Some? then RejectOffer(s, caller, NameHash(reject.value), o) == Ok(s1) else s1 == s
    ensures var gone := reject.Some? && GoesWith(s, NameHash(reject.value), n, o);
      && Goes(s, s1, n, gone, gone)
      && (gone || (NameHash(name) in s.tokens && GoesWith(s, NameHash(name), n, o))
          <==> gone || (NameHash(name) in s1.tokens && GoesWith(s1, NameHash(name), n, o)))
  {
    hide Inv, Teardown, Goes, GoesWith;
    if reject.Some? {
      var g := NameHash(reject.value);
      NameFacts(s, g);
      TearErases(s, g, caller, 0, o, s1, n);
      TearName(s, g, caller, 0, o, s1);
      if !GoesWith(s, g, n, o) {
        GoesElsewhere(s, s1, NameHash(name), n, o);
      }
    } else {
      StaysPut(s, s1, n);
    }
  }

  lemma ReleaseErases(s: State, caller: Account, o: Open, s': State, n: Node)
    requires ReleaseName(s, caller, o) == Ok(s')
    ensures var gone := Removes(s, OpReleaseName(caller, o), n); Goes(s, s', n, gone, gone)
  {
    hide Teardown, Goes;
    TearErases(s, s.primary[caller], caller, 0, o, s', n);
  }

  lemma CleanupOneErases(s: State, caller: Account, deadline: nat, k: Node, o: Open, n: Node)
    requires Inv(s)
    ensures var (s1, gone) := (CleanupOne(s, caller, deadline, k, o),
                               Due(s, deadline, k) && MayGo(s, k, o) && GoesWith(s, k, n, o));
      && Inv(s1) && Goes(s, s1, n, gone, gone)
      && (if Due(s, deadline, k) && MayGo(s, k, o) then TakesOnly(s, s1, k) else s1 == s)
      && (!gone ==> (n in s1.subnames <==> n in s.subnames))
  {
    hide Inv, Teardown, Gain, Goes, GoesWith, TakesOnly;
    var s1 := CleanupOne(s, caller, deadline, k, o);
    CleanupOneKeeps(s, caller, deadline, k, o);
    CleanupPaysFinder(s, caller, deadline, k, o, 0);
    if Due(s, deadline, k) && MayGo(s, k, o) {
      var bounty := BountyFrom(s.deposits[k].1, o.bounty);
      TeardownGoes(s, k, caller, bounty, o);
      TearErases(s, k, caller, bounty, o, s1, n);
      CleanupOneTakes(s, caller, deadline, k, o);
    } else {
      StaysPut(s, s1, n);
    }
  }

  lemma SweepsLater(s: State, s1: State, deadline: nat, k: Node, o: Open, n: Node, p: Node)
    requires Inv(s) && !Sweeps(s, deadline, k, o, n)
    requires if Due(s, deadline, k) && MayGo(s, k, o) then TakesOnly(s, s1, k) else s1 == s
    requires n in s1.subnames <==> n in s.subnames
    ensures Sweeps(s1, deadline, p, o, n) <==> Sweeps(s, deadline, p, o, n)
  {
    hide Inv, TakesOnly, Due, MayGo, Gain;
    DueIsName(s, deadline, p);
    DueHasRows(s, deadline, p);
    DueHasRows(s1, deadline, p);
    GoesElsewhere(s, s1, p, n, o);
    if Due(s, deadline, k) && MayGo(s, k, o) {
      OthersAsBefore(s, s1, k, 0, deadline, p, o, 0);
    }
  }

  lemma SweptLater(s: State, s1: State, deadline: nat, due: seq<Node>, o: Open, n: Node)
    requires Inv(s) && due != [] && !Sweeps(s, deadline, due[0], o, n)
    requires if Due(s, deadline, due[0]) && MayGo(s, due[0], o) then TakesOnly(s, s1, due[0]) else s1 == s
    requires n in s1.subnames <==> n in s.subnames
    ensures Swept(s1, deadline, due[1..], o, n) <==> Swept(s, deadline, due, o, n)
  {
    hide Inv, TakesOnly, Sweeps, Due, MayGo;
    if Swept(s, deadline, due, o, n) {
      var p :| p in due && Sweeps(s, deadline, p, o, n);
      SweepsLater(s, s1, deadline, due[0], o, n, p);
      assert p in due[1..] && Sweeps(s1, deadline, p, o, n);
    }
    if Swept(s1, deadline, due[1..], o, n) {
      var p :| p in due[1..] && Sweeps(s1, deadline, p, o, n);
      SweepsLater(s, s1, deadline, due[0], o, n, p);
      assert p in due && Sweeps(s, deadline, p, o, n);
    }
  }

  lemma {:induction false} CleanupErases(s: State, caller: Account, deadline: nat, due: seq<Node>, o: Open, n: Node)
    requires Inv(s)
    ensures var gone := Swept(s, deadline, due, o, n); Goes(s, CleanupEach(s, caller, deadline, due, o), n, gone, gone)
    decreases |due|
  {
    hide Inv, CleanupOne, Goes, TakesOnly, Swept, Due, MayGo, GoesWith;
    if due == [] {
      StaysPut(s, s, n);
      assert !Swept(s, deadline, due, o, n) by { NoneSwept(s, deadline, o, n); }
    } else {
      var s1 := CleanupOne(s, caller, deadline, due[0], o);
      var first := Sweeps(s, deadline, due[0], o, n);
      CleanupOneErases(s, caller, deadline, due[0], o, n);
      CleanupErases(s1, caller, deadline, due[1..], o, n);
      GoesThen(s, s1, CleanupEach(s1, caller, deadline, due[1..], o), n, first, Swept(s1, deadline, due[1..], o, n));
      if first {
        FirstSweeps(s, deadline, due, o, n);
      } else {
        SweptLater(s, s1, deadline, due, o, n);
      }
    }
  }

  lemma NoneSwept(s: State, deadline: nat, o: Open, n: Node)
    ensures !Swept(s, deadline, [], o, n)
  {
  }

  lemma FirstSweeps(s: State, deadline: nat, due: seq<Node>, o: Open, n: Node)
    requires due != [] && Sweeps(s, deadline, due[0], o, n)
    ensures Swept(s, deadline, due, o, n)
  {
    hide Sweeps;
    assert due[0] in due;
  }

  lemma ClearErases(s: State, m: Node, who: Account, recipient: Option<Account>, o: Open, n: Node)
    requires m in s.tokens
    ensures Goes(s, SetOwner(ClearUserRecords(s, m, o), m, who), n, m == n, m == n && !o.keepTexts)
    ensures Goes(s, HandOver(ClearUserRecords(s, m, o), m, who, recipient, o), n, m == n, m == n && !o.keepTexts)
  {
  }

  lemma GoesFrame(s: State, s1: State, s': State, n: Node, records: bool, texts: bool)
    requires s1.records == s.records && s1.texts == s.texts && Goes(s1, s', n, records, texts)
    ensures Goes(s, s', n, records, texts)
  {
  }

  lemma TransferErases(s: State, caller: Account, to: Account, o: Open, s': State, n: Node)
    requires Transfer(s, caller, to, o) == Ok(s')
    ensures Goes(s, s', n, Has(s, caller, n), Has(s, caller, n) && !o.keepTexts)
  {
    var m := s.primary[caller];
    var s1 := Rotate(s, m, to, s.deposits[m].1).value;
    RotateIsMoney(s, m, to, s.deposits[m].1, s1);
    UnlistIsMoney(s1, m);
    hide Rotate, Unlist, ClearUserRecords, SetOwner, Goes;
    var s2 := UnlistUnless(s1, m, o.keepListing);
    ClearErases(s2.(primary := s2.primary - {caller}), m, to, None, o, n);
    GoesFrame(s, s2.(primary := s2.primary - {caller}), s', n, m == n, m == n && !o.keepTexts);
  }

  lemma BuyErases(s: State, buyer: Account, name: Label, recipient: Option<Account>, o: Open, s': State, n: Node)
    requires Buy(s, buyer, name, recipient, o) == Ok(s')
    ensures Goes(s, s', n, NameHash(name) == n, NameHash(name) == n && !o.keepTexts)
  {
    var m := NameHash(name);
    BuyNeedsSale(s, buyer, name, recipient, o);
    hide Settle, Buy;
    var paid := s.(bank := Settle(s.bank, buyer, s.listings[m], o.fees).value);
    var carrier := if recipient.None? then buyer else o.carrier;
    UnlistIsMoney(paid, m);
    var s1 := Rotate(Unlist(paid, m), m, carrier, o.amount).value;
    RotateIsMoney(Unlist(paid, m), m, carrier, o.amount, s1);
    hide Rotate, Unlist, ClearUserRecords, HandOver, Goes;
    var s2 := s1.(primary := s1.primary - {s1.tokens[m].owner});
    ClearErases(s2, m, buyer, recipient, o, n);
    GoesFrame(s, s2, s', n, m == n, m == n && !o.keepTexts);
  }

  lemma OwnerErases(s: State, m: Node, who: Account, n: Node)
    requires m in s.tokens
    ensures Goes(s, SetOwner(s, m, who), n, false, false)
  {
  }

  lemma AcceptErases(s: State, caller: Account, name: Label, o: Open, s': State, n: Node)
    requires AcceptOffer(s, caller, name, o) == Ok(s')
    ensures Goes(s, s', n, false, false)
  {
    var m := NameHash(name);
    var s1 := Rotate(s, m, o.carrier, o.amount).value;
    RotateIsMoney(s, m, o.carrier, o.amount, s1);
    hide Rotate, SetOwner, Goes;
    OwnerErases(s1.(offers := s1.offers - {m}), m, caller, n);
    GoesFrame(s, s1.(offers := s1.offers - {m}), s', n, false, false);
  }

  lemma DropErases(s: State, op: Op, n: Node)
    requires (op.OpReleaseSubname? || op.OpRevokeSubname?) && Apply(s, op).Ok?
    ensures Goes(s, Next(s, op), n, Removes(s, op, n), Removes(s, op, n))
  {
  }

  // ---------- Steps and runs ----------

  /** The setting of a record or a text is the one call that writes; every other leaves or takes away. */
  predicate Writes(op: Op) {
    op.OpSetRecord? || op.OpSetText?
  }

  ghost predicate Erased(s: State, s': State, op: Op, n: Node) {
    Goes(s, s', n, Removes(s, op, n) || HandsOn(s, op, n), Removes(s, op, n) || (HandsOn(s, op, n) && !KeepsTexts(op)))
  }

  lemma TornErases(s: State, op: Op, n: Node)
    requires Inv(s) && Apply(s, op).Ok? && (op.OpRegister? || op.OpReleaseName? || op.OpCleanup?)
    ensures Goes(s, Next(s, op), n, Removes(s, op, n), Removes(s, op, n))
  {
    hide Inv, Register, ReleaseName, CleanupEach, Goes, Due, MayGo, GoesWith;
    match op
    case OpRegister(caller, name, reject, o) => RegisterErases(s, caller, name, reject, o, Next(s, op), n);
    case OpReleaseName(caller, o) => ReleaseErases(s, caller, o, Next(s, op), n);
    case OpCleanup(caller, deadline, due, o) => CleanupErases(s, caller, deadline, due, o, n);
  }

  lemma MovedErases(s: State, op: Op, n: Node)
    requires Apply(s, op).Ok? && (op.OpTransfer? || op.OpBuy? || op.OpAcceptOffer?)
    ensures Goes(s, Next(s, op), n, HandsOn(s, op, n), HandsOn(s, op, n) && !KeepsTexts(op))
  {
    hide Transfer, Buy, AcceptOffer, Goes;
    match op
    case OpTransfer(caller, to, o) => TransferErases(s, caller, to, o, Next(s, op), n);
    case OpBuy(caller, name, recipient, o) => BuyErases(s, caller, name, recipient, o, Next(s, op), n);
    case OpAcceptOffer(caller, name, o) => AcceptErases(s, caller, name, o, Next(s, op), n);
  }

  /**
   Records go exactly with their node or its owner, and so do texts unless they survive a change of owner.
   A call that does neither leaves every one of them as it was.
   */
  lemma StepErases(s: State, op: Op, n: Node)
    requires Inv(s) && !Writes(op) && Apply(s, op).Ok?
    ensures Erased(s, Next(s, op), op, n)
  {
    hide Inv, Apply, Goes, GoesWith, Recordless;
    if op.OpRegister? || op.OpReleaseName? || op.OpCleanup? {
      TornErases(s, op, n);
    } else if op.OpTransfer? || op.OpBuy? || op.OpAcceptOffer? {
      MovedErases(s, op, n);
    } else if op.OpReleaseSubname? || op.OpRevokeSubname? {
      DropErases(s, op, n);
    } else {
      assert Recordless(op) by { OthersAreRecordless(op); }
      RecordlessWrites(s, op);
      StaysPut(s, Next(s, op), n);
    }
  }

  lemma OthersAreRecordless(op: Op)
    requires !Writes(op) && !op.OpRegister? && !op.OpReleaseName? && !op.OpCleanup? && !op.OpTransfer? && !op.OpBuy?
    requires !op.OpAcceptOffer? && !op.OpReleaseSubname? && !op.OpRevokeSubname?
    ensures Recordless(op)
  {
  }

  lemma GrantRecords(s: State, caller: Account, name: Label, o: Open, s': State)
    requires Grant(s, caller, name, o) == Ok(s')
    ensures (NameHash(name), SS58) in s'.records && s'.records[(NameHash(name), SS58)] == Owner(caller)
    ensures (NameHash(name), ORIGIN) in s'.records && s'.records[(NameHash(name), ORIGIN)] == BlockHash(o.hash)
  {
  }

  lemma NodelessIsBlank(s: State, n: Node, t: RecordType, kind: nat)
    requires Inv(s)
    ensures n !in s.tokens ==> (n, t) !in s.records && (n, kind) !in s.texts
  {
    var k, j := (n, t), (n, kind);
    assert k in s.records ==> k.0 in s.tokens;
    assert j in s.texts ==> j.0 in s.tokens;
  }

  /**
   A name just registered carries its owner and the block it comes from, and nothing that any owner before has
   written about it.
   */
  lemma RegistrationStartsAfresh(s: State, caller: Account, name: Label, reject: Option<Label>, o: Open, s': State,
                                 t: RecordType, kind: nat)
    requires Inv(s) && Register(s, caller, name, reject, o) == Ok(s')
    ensures var n := NameHash(name);
      && (n, SS58) in s'.records && s'.records[(n, SS58)] == Owner(caller)
      && (n, ORIGIN) in s'.records && s'.records[(n, ORIGIN)] == BlockHash(o.hash)
      && (t != SS58 && t != ORIGIN ==> (n, t) !in s'.records) && (n, kind) !in s'.texts
  {
    hide Inv, Register, RejectOffer, Teardown, Grant;
    var s1, s2 := RegisterParts(s, caller, name, reject, o);
    GrantRecords(s2, caller, name, o, s');
    RegisterErases(s, caller, name, reject, o, s', NameHash(name));
    NodelessIsBlank(s, NameHash(name), t, kind);
  }

  /** The record of `n` says this. */
  predicate Says(s: State, n: Node, t: RecordType, c: Content) {
    (n, t) in s.records && s.records[(n, t)] == c
  }

  /** The call succeeds, and takes the record away or has it say something else. */
  ghost predicate Unsays(s: State, op: Op, n: Node, t: RecordType, c: Content) {
    && Apply(s, op).Ok?
    && (if op.OpSetRecord? then op.node == n && op.t == t && Bytes(op.content) != c
        else Removes(s, op, n) || HandsOn(s, op, n))
  }

  /** A record says what it said exactly if the step neither overwrites it nor ends its node or its ownership. */
  lemma StepSays(s: State, op: Op, n: Node, t: RecordType, c: Content)
    requires Inv(s) && t != SS58 && t != ORIGIN && Says(s, n, t, c)
    ensures Says(Next(s, op), n, t, c) <==> !Unsays(s, op, n, t, c)
  {
    hide Inv, Apply, Removes, HandsOn, KeepsTexts;
    if Apply(s, op).Ok? {
      if op.OpSetRecord? {
        SetRecordWrites(s, op);
      } else if op.OpSetText? {
        TextRemovesNothing(s, op, n);
        TextKeepsRecords(s, op);
      } else {
        StepErases(s, op, n);
      }
    }
  }

  lemma SetRecordWrites(s: State, op: Op)
    requires op.OpSetRecord? && Apply(s, op).Ok?
    ensures Next(s, op).records == s.records[(op.node, op.t) := Bytes(op.content)]
  {
    SetRecordSucceeds(s, op.caller, op.node, op.t, op.content);
    hide SetRecord;
  }

  lemma TextRemovesNothing(s: State, op: Op, n: Node)
    requires op.OpSetText?
    ensures !Removes(s, op, n) && !HandsOn(s, op, n)
  {
  }

  ghost predicate AlwaysSays(s: State, ops: seq<Op>, n: Node, t: RecordType, c: Content)
    decreases |ops|
  {
    Says(s, n, t, c) && (ops != [] ==> AlwaysSays(Next(s, ops[0]), ops[1..], n, t, c))
  }

  ghost predicate NeverUnsaid(s: State, ops: seq<Op>, n: Node, t: RecordType, c: Content)
    decreases |ops|
  {
    ops != [] ==> !Unsays(s, ops[0], n, t, c) && NeverUnsaid(Next(s, ops[0]), ops[1..], n, t, c)
  }

  /** So it does all along a run. */
  lemma {:induction false} RecordStays(s: State, ops: seq<Op>, n: Node, t: RecordType, c: Content)
    requires Inv(s) && t != SS58 && t != ORIGIN && Says(s, n, t, c)
    ensures AlwaysSays(s, ops, n, t, c) <==> NeverUnsaid(s, ops, n, t, c)
    decreases |ops|
  {
    hide Inv, Says, Unsays, Next;
    if ops != [] {
      StepSays(s, ops[0], n, t, c);
      NextKeeps(s, ops[0]);
      if !Unsays(s, ops[0], n, t, c) {
        RecordStays(Next(s, ops[0]), ops[1..], n, t, c);
      }
    }
  }
}
