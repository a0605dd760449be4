/** Subnames taken up: which calls end an active one, and whose calls those are. */
module PnsSubnames {
  import opened Wrappers
  import opened Balances
  import opened PnsTypes
  import opened PnsSteps
  import opened PnsInvariants
  import opened PnsRuns
  import opened PnsTree
  import opened PnsEffects
  import opened PnsTitle

  /** `m` is an active subname of `target`. */
  predicate HeldBy(s: State, m: Node, target: Account) {
    m in s.subnames && s.subnames[m] == Subname(target, Active)
  }

  /** The call takes the live subnames of `p` along with it: it tears `p` down, or registers it anew. */
  predicate TakesAlong(s: State, op: Op, p: Node) {
    match op
    case OpReleaseName(caller, o) => o.fate.Cascade? && Has(s, caller, p)
    case OpCleanup(_, deadline, due, o) => o.fate.Cascade? && p in due && Due(s, deadline, p)
    case OpRegister(_, name, reject, o) =>
      o.fate.Cascade? && (Declines(reject, p) || (NameHash(name) == p && p in s.tokens))
    case _ => false
  }

  /** The call succeeds, and `m` is released or revoked in it, or goes with its parent. */
  predicate EndsSubname(s: State, op: Op, m: Node)
    requires m.Child?
  {
    Apply(s, op).Ok? &&
    match op
    case OpReleaseSubname(_, parent, name) => SubnameHash(parent, name) == m
    case OpRevokeSubname(caller, name) => Has(s, caller, m.parent) && name == m.name
    case _ => TakesAlong(s, op, m.parent)
  }

  // ---------- Teardowns ----------

  /** The row of `m` goes exactly if `goes`, and is as it was otherwise. */
  ghost predicate RowGoes(s: State, s': State, m: Node, goes: bool) {
    (m in s'.subnames <==> m in s.subnames && !goes)
    && (m in s'.subnames && m in s.subnames ==> s'.subnames[m] == s.subnames[m])
  }

  lemma TearRow(s: State, n: Node, caller: Account, bounty: nat, o: Open, s': State, m: Node)
    requires Teardown(s, n, caller, bounty, o) == Ok(s') && IsName(n) && IsSubname(m)
    ensures RowGoes(s, s', m, o.fate.Cascade? && m.parent == n)
  {
    TeardownIsPurge(s, n, caller, bounty, o, s');
    hide Teardown;
  }

  lemma ReleaseRow(s: State, caller: Account, o: Open, m: Node)
    requires Inv(s) && IsSubname(m) && ReleaseName(s, caller, o).Ok?
    ensures RowGoes(s, ReleaseName(s, caller, o).value, m, o.fate.Cascade? && Has(s, caller, m.parent))
  {
    hide Inv, Teardown, RowGoes;
    PrimaryFacts(s, caller);
    TearRow(s, s.primary[caller], caller, 0, o, ReleaseName(s, caller, o).value, m);
  }

  lemma RejectRow(s: State, caller: Account, reject: Option<Label>, o: Open, s1: State, m: Node)
    requires Inv(s) && IsSubname(m) && caller !in s.primary
    requires if reject.Some? then RejectOffer(s, caller, NameHash(reject.value), o) == Ok(s1) else s1 == s
    ensures RowGoes(s, s1, m, o.fate.Cascade? && Declines(reject, m.parent))
    ensures !Declines(reject, m.parent) ==> (m.parent in s1.tokens <==> m.parent in s.tokens)
  {
    hide Inv, Teardown;
    if reject.Some? {
      var g := NameHash(reject.value);
      NameFacts(s, g);
      TearRow(s, g, caller, 0, o, s1, m);
      TearName(s, g, caller, 0, o, s1);
    }
  }

  lemma GrantRow(s: State, caller: Account, name: Label, o: Open, s': State)
    requires Grant(s, caller, name, o) == Ok(s')
    ensures s'.subnames == s.subnames
  {
  }

  lemma RegisterRow(s: State, caller: Account, name: Label, reject: Option<Label>, o: Open, m: Node)
    requires Inv(s) && IsSubname(m) && Register(s, caller, name, reject, o).Ok?
    ensures RowGoes(s, Register(s, caller, name, reject, o).value, m,
                    TakesAlong(s, OpRegister(caller, name, reject, o), m.parent))
  {
    hide Inv, Register, RejectOffer, Teardown, Grant;
    var n := NameHash(name);
    var s1, s2 := RegisterParts(s, caller, name, reject, o);
    RejectRow(s, caller, reject, o, s1, m);
    if n in s1.tokens {
      TearRow(s1, n, caller, 0, o, s2, m);
    }
    GrantRow(s2, caller, name, o, Register(s, caller, name, reject, o).value);
  }

  lemma CleanupOneRow(s: State, caller: Account, deadline: nat, k: Node, o: Open, m: Node)
    requires Inv(s) && IsSubname(m)
    ensures var s1 := CleanupOne(s, caller, deadline, k, o);
      && Inv(s1) && RowGoes(s, s1, m, o.fate.Cascade? && k == m.parent && Due(s, deadline, k))
      && (m.parent != k ==> (Due(s1, deadline, m.parent) <==> Due(s, deadline, m.parent)))
      && (Due(s1, deadline, k) ==> Due(s, deadline, k))
  {
    hide Inv, Teardown;
    var s1 := CleanupOne(s, caller, deadline, k, o);
    CleanupOneRows(s, caller, deadline, k, o);
    NameFacts(s, k);
    if Due(s, deadline, k) {
      var bounty := BountyFrom(s.deposits[k].1, o.bounty);
      TeardownGoes(s, k, caller, bounty, o);
      if MayGo(s, k, o) {
        TearRow(s, k, caller, bounty, o, s1, m);
      }
    }
  }

  lemma {:induction false} CleanupRow(s: State, caller: Account, deadline: nat, due: seq<Node>, o: Open, m: Node)
    requires Inv(s) && IsSubname(m)
    ensures RowGoes(s, CleanupEach(s, caller, deadline, due, o), m,
                    o.fate.Cascade? && m.parent in due && Due(s, deadline, m.parent))
    decreases |due|
  {
    hide Inv, CleanupOne, Due;
    if due != [] {
      CleanupOneRow(s, caller, deadline, due[0], o, m);
      assert m.parent in due <==> m.parent == due[0] || m.parent in due[1..];
      CleanupRow(CleanupOne(s, caller, deadline, due[0], o), caller, deadline, due[1..], o, m);
    }
  }

  // ---------- Other calls ----------

  lemma TransferRow(s: State, caller: Account, to: Account, o: Open)
    requires Inv(s) && Transfer(s, caller, to, o).Ok?
    ensures Transfer(s, caller, to, o).value.subnames == s.subnames
  {
    hide Inv, Transfer, KeepsRecords, Settles;
    TransferNeedsPrimary(s, caller, to, o);
    PrimaryFacts(s, caller);
    TransferIsConveyance(s, caller, to, o, Transfer(s, caller, to, o).value);
  }

  lemma AcceptRow(s: State, caller: Account, name: Label, o: Open)
    requires Inv(s) && AcceptOffer(s, caller, name, o).Ok?
    ensures AcceptOffer(s, caller, name, o).value.subnames == s.subnames
  {
    hide Inv, KeepsRecords, Settles, Rotate, SetOwner;
    NameFacts(s, NameHash(name));
    AcceptIsConveyance(s, caller, name, o, AcceptOffer(s, caller, name, o).value);
  }

  lemma BuyRow(s: State, buyer: Account, name: Label, recipient: Option<Account>, o: Open)
    requires Inv(s) && Buy(s, buyer, name, recipient, o).Ok?
    ensures Buy(s, buyer, name, recipient, o).value.subnames == s.subnames
  {
    hide Inv, KeepsRecords, Settles, Offers, Sell, Buy;
    var n := NameHash(name);
    BuyNeedsSale(s, buyer, name, recipient, o);
    NameFacts(s, n);
    SettledFacts(s, n);
    SellIsConveyance(s, n, buyer, recipient, o, Buy(s, buyer, name, recipient, o).value);
  }

  /** Calls that touch no subname. */
  predicate Apart(op: Op) {
    Flat(op) && !op.OpTransfer? && !op.OpAcceptOffer? && !op.OpBuy? && !op.OpOfferSubname? && !op.OpRejectSubname?
  }

  lemma ApartRow(s: State, op: Op)
    requires Apart(op)
    ensures Next(s, op).subnames == s.subnames
  {
    hide PayOut;
  }

  /** A subname on offer is not active, so neither offering nor answering an offer touches one that is. */
  lemma OfferingRow(s: State, op: Op, m: Node, target: Account)
    requires HeldBy(s, m, target) && (op.OpOfferSubname? || op.OpAcceptSubname? || op.OpRejectSubname?)
    ensures HeldBy(Next(s, op), m, target)
  {
  }

  lemma DropRow(s: State, p: Node, k: Node, m: Node)
    ensures RowGoes(s, DropSubname(s, p, k), m, k == m)
  {
  }

  lemma EndingRow(s: State, op: Op, m: Node)
    requires Inv(s) && IsSubname(m) && m in s.subnames && (op.OpReleaseSubname? || op.OpRevokeSubname?)
    ensures RowGoes(s, Next(s, op), m, EndsSubname(s, op, m))
  {
    hide Inv, DropSubname, RowGoes;
    assert RowGoes(s, s, m, false) by { SameRow(s, m); }
    if Apply(s, op).Ok? {
      match op
      case OpReleaseSubname(_, parent, name) => DropRow(s, NameHash(parent), SubnameHash(parent, name), m);
      case OpRevokeSubname(caller, name) => DropRow(s, s.primary[caller], Child(s.primary[caller], name), m);
    }
  }

  lemma SameRow(s: State, m: Node)
    ensures RowGoes(s, s, m, false)
  {
  }

  // ---------- Steps and runs ----------

  lemma SubnameRowsAreSubnames(s: State, m: Node)
    requires Inv(s) && m in s.subnames
    ensures IsSubname(m)
  {
  }

  lemma TearingRow(s: State, op: Op, m: Node)
    requires Inv(s) && IsSubname(m) && Apply(s, op).Ok? && (op.OpRegister? || op.OpReleaseName? || op.OpCleanup?)
    ensures RowGoes(s, Next(s, op), m, EndsSubname(s, op, m))
  {
    hide Inv, Register, ReleaseName, CleanupEach, Due, RowGoes;
    match op
    case OpRegister(caller, name, reject, o) => RegisterRow(s, caller, name, reject, o, m);
    case OpReleaseName(caller, o) => ReleaseRow(s, caller, o, m);
    case OpCleanup(caller, deadline, due, o) => CleanupRow(s, caller, deadline, due, o, m);
  }

  lemma ConveyingRow(s: State, op: Op)
    requires Inv(s) && Apply(s, op).Ok? && (op.OpTransfer? || op.OpAcceptOffer? || op.OpBuy?)
    ensures Next(s, op).subnames == s.subnames
  {
    hide Inv, Transfer, AcceptOffer, Buy;
    match op
    case OpTransfer(caller, to, o) => TransferRow(s, caller, to, o);
    case OpAcceptOffer(caller, name, o) => AcceptRow(s, caller, name, o);
    case OpBuy(caller, name, recipient, o) => BuyRow(s, caller, name, recipient, o);
  }

  lemma RowHeld(s: State, s': State, m: Node, target: Account, goes: bool)
    requires HeldBy(s, m, target) && RowGoes(s, s', m, goes)
    ensures HeldBy(s', m, target) <==> !goes
  {
  }

  lemma OnlyTheseEnd(s: State, op: Op, m: Node)
    requires m.Child? && EndsSubname(s, op, m)
    ensures Apply(s, op).Ok?
    ensures op.OpRegister? || op.OpReleaseName? || op.OpCleanup? || op.OpReleaseSubname? || op.OpRevokeSubname?
  {
    hide Apply;
  }

  /** A subname stays active and its target's exactly if the step is none of those that end it. */
  lemma StepSubname(s: State, op: Op, m: Node, target: Account)
    requires Inv(s) && HeldBy(s, m, target)
    ensures m.Child? && (HeldBy(Next(s, op), m, target) <==> !EndsSubname(s, op, m))
  {
    SubnameRowsAreSubnames(s, m);
    hide Inv, Apply, EndsSubname, RowGoes;
    if EndsSubname(s, op, m) {
      OnlyTheseEnd(s, op, m);
    }
    if op.OpRegister? || op.OpReleaseName? || op.OpCleanup? {
      if Apply(s, op).Ok? {
        TearingRow(s, op, m);
        RowHeld(s, Next(s, op), m, target, EndsSubname(s, op, m));
      }
    } else if op.OpReleaseSubname? || op.OpRevokeSubname? {
      EndingRow(s, op, m);
      RowHeld(s, Next(s, op), m, target, EndsSubname(s, op, m));
    } else if op.OpOfferSubname? || op.OpAcceptSubname? || op.OpRejectSubname? {
      OfferingRow(s, op, m, target);
    } else if Apart(op) {
      ApartRow(s, op);
    } else if Apply(s, op).Ok? {
      ConveyingRow(s, op);
    }
  }

  ghost predicate AlwaysHeld(s: State, ops: seq<Op>, m: Node, target: Account)
    decreases |ops|
  {
    HeldBy(s, m, target) && (ops != [] ==> AlwaysHeld(Next(s, ops[0]), ops[1..], m, target))
  }

  ghost predicate NeverEnded(s: State, ops: seq<Op>, m: Node)
    requires m.Child?
    decreases |ops|
  {
    ops != [] ==> !EndsSubname(s, ops[0], m) && NeverEnded(Next(s, ops[0]), ops[1..], m)
  }

  /** So it does all along a run. */
  lemma {:induction false} SubnameWhileNotEnded(s: State, ops: seq<Op>, m: Node, target: Account)
    requires Inv(s) && HeldBy(s, m, target) && m.Child?
    ensures AlwaysHeld(s, ops, m, target) <==> NeverEnded(s, ops, m)
    decreases |ops|
  {
    hide Inv, HeldBy, EndsSubname, Next;
    if ops != [] {
      StepSubname(s, ops[0], m, target);
      NextKeeps(s, ops[0]);
      if !EndsSubname(s, ops[0], m) {
        SubnameWhileNotEnded(Next(s, ops[0]), ops[1..], m, target);
      }
    }
  }

  // ---------- Whose call it takes ----------

  /** The target releases `m`, or the owner of its parent revokes it or releases the parent with its subnames. */
  predicate GivesBack(s: State, op: Op, m: Node, target: Account)
    requires m.Child?
  {
    Apply(s, op).Ok? &&
    match op
    case OpReleaseSubname(caller, parent, name) => caller == target && SubnameHash(parent, name) == m
    case OpRevokeSubname(caller, name) => Has(s, caller, m.parent) && name == m.name
    case OpReleaseName(caller, o) => Has(s, caller, m.parent) && o.fate.Cascade?
    case _ => false
  }

  /** The parent is registered, its registration is not over, and it is not being given away. */
  predicate Settled(s: State, p: Node) {
    Current(s, p) && p !in s.offers
  }

  lemma RegisterNeedsRight(s: State, caller: Account, name: Label, reject: Option<Label>, o: Open, p: Node)
    requires Register(s, caller, name, reject, o).Ok? && Settled(s, p)
    ensures NameHash(name) != p && !Declines(reject, p)
  {
    hide Register, RejectOffer, Teardown, Grant;
    var s1, s2 := RegisterParts(s, caller, name, reject, o);
    if reject.Some? {
      RejectTears(s, caller, NameHash(reject.value), o, s1);
    }
  }

  lemma EndedOnlyByParties(s: State, op: Op, m: Node, target: Account)
    requires HeldBy(s, m, target) && m.Child? && Settled(s, m.parent)
    ensures EndsSubname(s, op, m) <==> GivesBack(s, op, m, target)
  {
    hide Register, ReleaseName, CleanupEach, DropSubname;
    if op.OpRegister? && Apply(s, op).Ok? {
      RegisterNeedsRight(s, op.caller, op.name, op.reject, op.o, m.parent);
    }
  }

  /** Under a settled parent an active subname is lost by a step exactly if its target or the parent's owner ends it. */
  lemma SubnameIsSafe(s: State, op: Op, m: Node, target: Account)
    requires Inv(s) && HeldBy(s, m, target) && m.Child? && Settled(s, m.parent)
    ensures HeldBy(Next(s, op), m, target) <==> !GivesBack(s, op, m, target)
  {
    hide Inv, HeldBy, EndsSubname, GivesBack, Next, Settled;
    StepSubname(s, op, m, target);
    EndedOnlyByParties(s, op, m, target);
  }

  ghost predicate NeverGivenBack(s: State, ops: seq<Op>, m: Node, target: Account)
    requires m.Child?
    decreases |ops|
  {
    ops != [] ==> !GivesBack(s, ops[0], m, target) && NeverGivenBack(Next(s, ops[0]), ops[1..], m, target)
  }

  /** As long as the subname is active, its parent is settled before each step of the run. */
  ghost predicate SettledWhileHeld(s: State, ops: seq<Op>, m: Node, target: Account)
    requires m.Child?
    decreases |ops|
  {
    ops != [] && HeldBy(s, m, target) ==>
      Settled(s, m.parent) && SettledWhileHeld(Next(s, ops[0]), ops[1..], m, target)
  }

  /** Over any run through which its parent stays settled, a subname is active exactly until one of the two ends it. */
  lemma {:induction false} SubnameStaysWithTarget(s: State, ops: seq<Op>, m: Node, target: Account)
    requires Inv(s) && HeldBy(s, m, target) && m.Child? && SettledWhileHeld(s, ops, m, target)
    ensures AlwaysHeld(s, ops, m, target) <==> NeverGivenBack(s, ops, m, target)
    decreases |ops|
  {
    hide Inv, HeldBy, Settled, GivesBack, Next;
    if ops != [] {
      SubnameIsSafe(s, ops[0], m, target);
      NextKeeps(s, ops[0]);
      if !GivesBack(s, ops[0], m, target) {
        SubnameStaysWithTarget(Next(s, ops[0]), ops[1..], m, target);
      }
    }
  }
}
