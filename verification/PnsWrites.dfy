/** Who may write the records and texts of a node, and that nothing else ever adds or changes one. */
module PnsWrites {
  import opened Wrappers
  import opened Balances
  import opened PnsTypes
  import opened PnsSteps
  import opened PnsInvariants
  import opened PnsRuns

  /** `a` owns the token of `n`, and the registration of `n` is not over if it has one. */
  predicate Masters(s: State, a: Account, n: Node) {
    n in s.tokens && s.tokens[n].owner == a && (n in s.infos ==> s.now < s.infos[n].expire)
  }

  // ---------- The two calls ----------

  /** A record is written exactly by the account that owns the live node, and never one of the chain's own types. */
  lemma SetRecordSucceeds(s: State, caller: Account, n: Node, t: RecordType, content: seq<nat>)
    ensures var r := SetRecord(s, caller, n, t, content);
      && (r.Ok? <==> t != SS58 && t != ORIGIN && Masters(s, caller, n))
      && (t == SS58 || t == ORIGIN ==> r == Err(InvalidRecordType))
      && (t != SS58 && t != ORIGIN && !Masters(s, caller, n) ==> r == Err(InvalidPermission))
      && (r.Ok? ==> r.value == s.(records := s.records[(n, t) := Bytes(content)]))
  {
  }

  lemma SetTextSucceeds(s: State, caller: Account, n: Node, kind: nat, content: seq<nat>)
    ensures var r := SetText(s, caller, n, kind, content);
      && (r.Ok? <==> Masters(s, caller, n))
      && (!Masters(s, caller, n) ==> r == Err(InvalidPermission))
      && (r.Ok? ==> r.value == s.(texts := s.texts[(n, kind) := Bytes(content)]))
  {
  }

  // ---------- Every other call ----------

  /** No record that an owner can set is new or other than it was; nor is any text. */
  ghost predicate WritesNothing(s: State, s': State) {
    && (forall k :: k in s'.records && k.1 != SS58 && k.1 != ORIGIN ==>
          k in s.records && s'.records[k] == s.records[k])
    && (forall k :: k in s'.texts ==> k in s.texts && s'.texts[k] == s.texts[k])
  }

  lemma WritesNothingThen(s: State, s1: State, s2: State)
    requires WritesNothing(s, s1) && WritesNothing(s1, s2)
    ensures WritesNothing(s, s2)
  {
  }

  lemma WritesFrame(s: State, s1: State, s': State)
    requires s1.records == s.records && s1.texts == s.texts && WritesNothing(s1, s')
    ensures WritesNothing(s, s')
  {
  }

  lemma TearWrites(s: State, n: Node, caller: Account, bounty: nat, o: Open, s': State)
    requires Teardown(s, n, caller, bounty, o) == Ok(s')
    ensures WritesNothing(s, s')
  {
    TeardownIsPurge(s, n, caller, bounty, o, s');
    hide Teardown;
  }

  lemma GrantWrites(s: State, caller: Account, name: Label, o: Open, s': State)
    requires Grant(s, caller, name, o) == Ok(s')
    ensures WritesNothing(s, s')
  {
  }

  lemma RejectWrites(s: State, caller: Account, gift: Node, o: Open, s1: State)
    requires RejectOffer(s, caller, gift, o) == Ok(s1)
    ensures WritesNothing(s, s1)
  {
    hide Teardown, WritesNothing;
    TearWrites(s, gift, caller, 0, o, s1);
  }

  lemma RegisterWrites(s: State, caller: Account, name: Label, reject: Option<Label>, o: Open, s': State)
    requires Register(s, caller, name, reject, o) == Ok(s')
    ensures WritesNothing(s, s')
  {
    hide Register, RejectOffer, Teardown, Grant;
    var s1, s2 := RegisterParts(s, caller, name, reject, o);
    if reject.Some? {
      RejectWrites(s, caller, NameHash(reject.value), o, s1);
    }
    if NameHash(name) in s1.tokens {
      TearWrites(s1, NameHash(name), caller, 0, o, s2);
    }
    GrantWrites(s2, caller, name, o, s');
    assert WritesNothing(s, s1) && WritesNothing(s1, s2);
    hide WritesNothing;
    WritesNothingThen(s, s1, s2);
    WritesNothingThen(s, s2, s');
  }

  lemma ReleaseWrites(s: State, caller: Account, o: Open, s': State)
    requires ReleaseName(s, caller, o) == Ok(s')
    ensures WritesNothing(s, s')
  {
    hide Teardown, WritesNothing;
    TearWrites(s, s.primary[caller], caller, 0, o, s');
  }

  lemma {:induction false} CleanupWrites(s: State, caller: Account, deadline: nat, due: seq<Node>, o: Open)
    ensures WritesNothing(s, CleanupEach(s, caller, deadline, due, o))
    decreases |due|
  {
    hide Teardown;
    if due != [] {
      var s1 := CleanupOne(s, caller, deadline, due[0], o);
      if s1 != s {
        TearWrites(s, due[0], caller, BountyFrom(s.deposits[due[0]].1, o.bounty), o, s1);
      }
      CleanupWrites(s1, caller, deadline, due[1..], o);
      hide CleanupOne;
      WritesNothingThen(s, s1, CleanupEach(s1, caller, deadline, due[1..], o));
    }
  }

  lemma SetOwnerWrites(s: State, n: Node, who: Account)
    requires n in s.tokens
    ensures WritesNothing(s, SetOwner(s, n, who))
  {
  }

  lemma HandOverWrites(s: State, n: Node, buyer: Account, recipient: Option<Account>, o: Open)
    requires n in s.tokens
    ensures WritesNothing(s, HandOver(ClearUserRecords(s, n, o), n, buyer, recipient, o))
    ensures WritesNothing(s, SetOwner(ClearUserRecords(s, n, o), n, buyer))
  {
  }

  lemma TransferWrites(s: State, caller: Account, to: Account, o: Open, s': State)
    requires Transfer(s, caller, to, o) == Ok(s')
    ensures WritesNothing(s, s')
  {
    var n := s.primary[caller];
    var s1 := Rotate(s, n, to, s.deposits[n].1).value;
    RotateIsMoney(s, n, to, s.deposits[n].1, s1);
    UnlistIsMoney(s1, n);
    hide Rotate, Unlist, ClearUserRecords, SetOwner, WritesNothing;
    var s2 := UnlistUnless(s1, n, o.keepListing);
    HandOverWrites(s2.(primary := s2.primary - {caller}), n, to, None, o);
    WritesFrame(s, s2.(primary := s2.primary - {caller}), s');
  }

  lemma BuyWrites(s: State, buyer: Account, name: Label, recipient: Option<Account>, o: Open, s': State)
    requires Buy(s, buyer, name, recipient, o) == Ok(s')
    ensures WritesNothing(s, s')
  {
    var n := NameHash(name);
    BuyNeedsSale(s, buyer, name, recipient, o);
    hide Settle, Buy;
    var paid := s.(bank := Settle(s.bank, buyer, s.listings[n], o.fees).value);
    var carrier := if recipient.None? then buyer else o.carrier;
    UnlistIsMoney(paid, n);
    var s1 := Rotate(Unlist(paid, n), n, carrier, o.amount).value;
    RotateIsMoney(Unlist(paid, n), n, carrier, o.amount, s1);
    hide Rotate, Unlist, ClearUserRecords, HandOver, WritesNothing;
    HandOverWrites(s1.(primary := s1.primary - {s1.tokens[n].owner}), n, buyer, recipient, o);
    WritesFrame(s, s1.(primary := s1.primary - {s1.tokens[n].owner}), s');
  }

  lemma AcceptWrites(s: State, caller: Account, name: Label, o: Open, s': State)
    requires AcceptOffer(s, caller, name, o) == Ok(s')
    ensures WritesNothing(s, s')
  {
    var n := NameHash(name);
    var s1 := Rotate(s, n, o.carrier, o.amount).value;
    RotateIsMoney(s, n, o.carrier, o.amount, s1);
    hide Rotate, SetOwner, WritesNothing;
    SetOwnerWrites(s1.(offers := s1.offers - {n}), n, caller);
    WritesFrame(s, s1.(offers := s1.offers - {n}), s');
  }

  /** Calls that have nothing to do with records. */
  predicate Recordless(op: Op) {
    op.OpRenew? || op.OpCreateListing? || op.OpCancelListing? || op.OpCleanupListing? || OfOffers(op) || OfSettings(op)
  }

  predicate OfOffers(op: Op) {
    op.OpOfferSubname? || op.OpAcceptSubname? || op.OpRejectSubname?
  }

  predicate OfSettings(op: Op) {
    op.OpSetBasePrice? || op.OpSetReserved? || op.OpSetOfficial? || op.OpWait?
  }

  ghost predicate SameRecords(s: State, r: Outcome) {
    r.Ok? ==> r.value.records == s.records && r.value.texts == s.texts
  }

  lemma RenewRecords(s: State, caller: Account, o: Open)
    ensures SameRecords(s, Renew(s, caller, o))
  {
    hide CleanupShare, Price;
  }

  lemma ListingRecords(s: State, caller: Account, price: nat, expiresAt: nat, o: Open)
    ensures SameRecords(s, CreateListing(s, caller, price, expiresAt, o))
  {
  }

  lemma CancelRecords(s: State, caller: Account)
    ensures SameRecords(s, CancelListing(s, caller))
  {
  }

  lemma ClearingRecords(s: State, caller: Account, name: Label, o: Open)
    ensures SameRecords(s, CleanupListing(s, caller, name, o))
  {
    hide PayOut;
  }

  lemma OfferRecords(s: State, op: Op)
    requires OfOffers(op)
    ensures SameRecords(s, Apply(s, op))
  {
  }

  lemma SettingRecords(s: State, op: Op)
    requires OfSettings(op)
    ensures SameRecords(s, Apply(s, op))
  {
  }

  lemma RecordlessWrites(s: State, op: Op)
    requires Recordless(op)
    ensures SameRecords(s, Apply(s, op))
  {
    hide SameRecords, Renew, CreateListing, CancelListing, CleanupListing;
    if OfOffers(op) {
      OfferRecords(s, op);
    } else if OfSettings(op) {
      SettingRecords(s, op);
    } else {
      match op
      case OpRenew(caller, o) => RenewRecords(s, caller, o);
      case OpCreateListing(caller, price, expiresAt, o) => ListingRecords(s, caller, price, expiresAt, o);
      case OpCancelListing(caller) => CancelRecords(s, caller);
      case OpCleanupListing(caller, name, o) => ClearingRecords(s, caller, name, o);
    }
  }

  lemma DropWrites(s: State, op: Op)
    requires op.OpReleaseSubname? || op.OpRevokeSubname?
    ensures WritesNothing(s, Next(s, op))
  {
  }

  lemma MovesWrite(s: State, op: Op)
    requires !op.OpSetRecord? && !op.OpSetText? && !op.OpReleaseSubname? && !op.OpRevokeSubname? && !Recordless(op)
    requires Apply(s, op).Ok?
    ensures WritesNothing(s, Next(s, op))
  {
    hide Register, ReleaseName, CleanupEach, Transfer, Buy, AcceptOffer, WritesNothing;
    match op
    case OpRegister(caller, name, reject, o) => RegisterWrites(s, caller, name, reject, o, Next(s, op));
    case OpReleaseName(caller, o) => ReleaseWrites(s, caller, o, Next(s, op));
    case OpCleanup(caller, deadline, due, o) => CleanupWrites(s, caller, deadline, due, o);
    case OpTransfer(caller, to, o) => TransferWrites(s, caller, to, o, Next(s, op));
    case OpBuy(caller, name, recipient, o) => BuyWrites(s, caller, name, recipient, o, Next(s, op));
    case OpAcceptOffer(caller, name, o) => AcceptWrites(s, caller, name, o, Next(s, op));
  }

  lemma OthersWriteNothing(s: State, op: Op)
    requires !op.OpSetRecord? && !op.OpSetText?
    ensures WritesNothing(s, Next(s, op))
  {
    hide Apply, Recordless;
    if Apply(s, op).Ok? {
      if Recordless(op) {
        RecordlessWrites(s, op);
      } else if op.OpReleaseSubname? || op.OpRevokeSubname? {
        DropWrites(s, op);
      } else {
        MovesWrite(s, op);
      }
    }
  }

  // ---------- Steps and runs ----------

  /** The record `k` is there, and is not what it was. */
  ghost predicate RecordChanges(s: State, s': State, k: (Node, RecordType)) {
    k in s'.records && (k in s.records ==> s'.records[k] != s.records[k])
  }

  ghost predicate TextChanges(s: State, s': State, k: (Node, nat)) {
    k in s'.texts && (k in s.texts ==> s'.texts[k] != s.texts[k])
  }

  /** A record that owners set is added or changed by no step but the setting of it by the owner of that moment. */
  lemma StepWrites(s: State, op: Op, k: (Node, RecordType))
    requires k.1 != SS58 && k.1 != ORIGIN && RecordChanges(s, Next(s, op), k)
    ensures op.OpSetRecord? && k == (op.node, op.t) && Masters(s, op.caller, op.node)
    ensures Next(s, op).records[k] == Bytes(op.content)
  {
    hide Apply, WritesNothing;
    if op.OpSetRecord? {
      RecordStep(s, op, k);
    } else if op.OpSetText? {
      TextKeepsRecords(s, op);
    } else {
      OthersWriteNothing(s, op);
      UnwrittenStands(s, Next(s, op), k, (k.0, 0));
    }
  }

  lemma UnwrittenStands(s: State, s': State, k: (Node, RecordType), j: (Node, nat))
    requires WritesNothing(s, s')
    ensures k.1 != SS58 && k.1 != ORIGIN ==> !RecordChanges(s, s', k)
    ensures !TextChanges(s, s', j)
  {
  }

  lemma RecordStep(s: State, op: Op, k: (Node, RecordType))
    requires op.OpSetRecord? && RecordChanges(s, Next(s, op), k)
    ensures k == (op.node, op.t) && Masters(s, op.caller, op.node) && Next(s, op).records[k] == Bytes(op.content)
  {
    SetRecordSucceeds(s, op.caller, op.node, op.t, op.content);
    hide SetRecord;
  }

  lemma TextKeepsRecords(s: State, op: Op)
    requires op.OpSetText?
    ensures Next(s, op).records == s.records
  {
    SetTextSucceeds(s, op.caller, op.node, op.kind, op.content);
    hide SetText;
  }

  /** The same for texts. */
  lemma StepWritesText(s: State, op: Op, k: (Node, nat))
    requires TextChanges(s, Next(s, op), k)
    ensures op.OpSetText? && k == (op.node, op.kind) && Masters(s, op.caller, op.node)
    ensures Next(s, op).texts[k] == Bytes(op.content)
  {
    hide Apply, WritesNothing;
    if op.OpSetText? {
      TextStep(s, op, k);
    } else if op.OpSetRecord? {
      RecordKeepsTexts(s, op);
    } else {
      OthersWriteNothing(s, op);
      UnwrittenStands(s, Next(s, op), (k.0, A), k);
    }
  }

  lemma TextStep(s: State, op: Op, k: (Node, nat))
    requires op.OpSetText? && TextChanges(s, Next(s, op), k)
    ensures k == (op.node, op.kind) && Masters(s, op.caller, op.node) && Next(s, op).texts[k] == Bytes(op.content)
  {
    SetTextSucceeds(s, op.caller, op.node, op.kind, op.content);
    hide SetText;
  }

  lemma RecordKeepsTexts(s: State, op: Op)
    requires op.OpSetRecord?
    ensures Next(s, op).texts == s.texts
  {
    SetRecordSucceeds(s, op.caller, op.node, op.t, op.content);
    hide SetRecord;
  }

  /** Some step of the run is the setting of this record, to this content, by the account that owns the node then. */
  ghost predicate OwnerWrote(s: State, ops: seq<Op>, n: Node, t: RecordType, c: Content)
    decreases |ops|
  {
    ops != [] &&
    (|| (ops[0].OpSetRecord? && ops[0].node == n && ops[0].t == t && c == Bytes(ops[0].content)
         && Masters(s, ops[0].caller, n))
     || OwnerWrote(Next(s, ops[0]), ops[1..], n, t, c))
  }

  ghost predicate OwnerWroteText(s: State, ops: seq<Op>, n: Node, kind: nat, c: Content)
    decreases |ops|
  {
    ops != [] &&
    (|| (ops[0].OpSetText? && ops[0].node == n && ops[0].kind == kind && c == Bytes(ops[0].content)
         && Masters(s, ops[0].caller, n))
     || OwnerWroteText(Next(s, ops[0]), ops[1..], n, kind, c))
  }

  /** Whatever a record says after a run it said before, or the owner of some moment in between made it say. */
  lemma {:induction false} RecordsAreOwners(s: State, ops: seq<Op>, n: Node, t: RecordType)
    requires t != SS58 && t != ORIGIN && RecordChanges(s, Run(s, ops), (n, t))
    ensures OwnerWrote(s, ops, n, t, Run(s, ops).records[(n, t)])
    decreases |ops|
  {
    hide Next, Masters;
    if ops != [] {
      var s1 := Next(s, ops[0]);
      if RecordChanges(s1, Run(s1, ops[1..]), (n, t)) {
        RecordsAreOwners(s1, ops[1..], n, t);
      } else {
        StepWrites(s, ops[0], (n, t));
      }
    }
  }

  /** So for texts. */
  lemma {:induction false} TextsAreOwners(s: State, ops: seq<Op>, n: Node, kind: nat)
    requires TextChanges(s, Run(s, ops), (n, kind))
    ensures OwnerWroteText(s, ops, n, kind, Run(s, ops).texts[(n, kind)])
    decreases |ops|
  {
    hide Next, Masters;
    if ops != [] {
      var s1 := Next(s, ops[0]);
      if TextChanges(s1, Run(s1, ops[1..]), (n, kind)) {
        TextsAreOwners(s1, ops[1..], n, kind);
      } else {
        StepWritesText(s, ops[0], (n, kind));
      }
    }
  }
}
