/** Names given away and not yet accepted: which calls end a pending gift, and whose calls those are. */
module PnsGifts {
  import opened Wrappers
  import opened Balances
  import opened PnsTypes
  import opened PnsSteps
  import opened PnsInvariants
  import opened PnsRuns
  import opened PnsTree
  import opened PnsHistory
  import opened PnsEffects
  import opened PnsCleanup
  import opened PnsTitle

  predicate Pending(s: State, n: Node, gift: Offer) {
    n in s.offers && s.offers[n] == gift
  }

  /** The call accepts the gift, declines it, registers the name anew or cleans it up. */
  predicate EndsGift(s: State, op: Op, n: Node) {
    Apply(s, op).Ok? &&
    match op
    case OpAcceptOffer(_, name, _) => NameHash(name) == n
    case OpRegister(_, name, reject, _) => NameHash(name) == n || Declines(reject, n)
    case OpCleanup(_, deadline, due, o) => n in due && Due(s, deadline, n) && MayGo(s, n, o)
    case _ => false
  }

  // ---------- Call by call ----------

  lemma RejectGift(s: State, caller: Account, gift: Node, o: Open, s1: State)
    requires RejectOffer(s, caller, gift, o) == Ok(s1)
    ensures gift in s.offers && s.offers[gift].recipient == caller && s1.offers == s.offers - {gift}
    ensures s1.infos == s.infos - {gift} && s1.now == s.now
  {
    hide Teardown;
    TearRows(s, gift, caller, 0, o, s1);
  }

  lemma GrantGift(s: State, caller: Account, name: Label, o: Open, s': State)
    requires Grant(s, caller, name, o) == Ok(s')
    ensures s'.offers == s.offers
  {
  }

  lemma RegisterGift(s: State, caller: Account, name: Label, reject: Option<Label>, o: Open, n: Node, gift: Offer)
    requires Inv(s) && Pending(s, n, gift) && Register(s, caller, name, reject, o).Ok?
    ensures Pending(Register(s, caller, name, reject, o).value, n, gift)
       <==> NameHash(name) != n && !Declines(reject, n)
    ensures Declines(reject, n) ==> gift.recipient == caller
    ensures NameHash(name) == n && !Declines(reject, n) ==> Registrable(s, n)
  {
    hide Inv, Register, RejectOffer, Teardown, Grant;
    var s1, s2 := RegisterParts(s, caller, name, reject, o);
    if reject.Some? {
      RejectKeeps(s, caller, NameHash(reject.value), o);
      RejectGift(s, caller, NameHash(reject.value), o, s1);
    }
    NameFacts(s1, n);
    if NameHash(name) in s1.tokens {
      TearRows(s1, NameHash(name), caller, 0, o, s2);
    }
    GrantGift(s2, caller, name, o, Register(s, caller, name, reject, o).value);
  }

  lemma CleanupOneGift(s: State, caller: Account, deadline: nat, k: Node, o: Open, n: Node, gift: Offer)
    requires Inv(s) && Pending(s, n, gift) && !(n == k && Due(s, deadline, n) && MayGo(s, n, o))
    ensures var s1 := CleanupOne(s, caller, deadline, k, o);
      Pending(s1, n, gift) && ((Due(s1, deadline, n) && MayGo(s1, n, o)) ==> Due(s, deadline, n) && MayGo(s, n, o))
  {
    hide Inv, Teardown, Gain;
    var s1 := CleanupOne(s, caller, deadline, k, o);
    CleanupPaysFinder(s, caller, deadline, k, o, 0);
    NameFacts(s, n);
    if Due(s, deadline, k) && MayGo(s, k, o) {
      var bounty := BountyFrom(s.deposits[k].1, o.bounty);
      TeardownGoes(s, k, caller, bounty, o);
      TearRows(s, k, caller, bounty, o, s1);
      CleanupOneTakes(s, caller, deadline, k, o);
      OthersAsBefore(s, s1, k, caller, deadline, n, o, 0);
    }
  }

  lemma {:induction false} CleanupSparesGift(s: State, caller: Account, deadline: nat, due: seq<Node>, o: Open,
                                            n: Node, gift: Offer)
    requires Inv(s) && Pending(s, n, gift) && !(n in due && Due(s, deadline, n) && MayGo(s, n, o))
    ensures Pending(CleanupEach(s, caller, deadline, due, o), n, gift)
    decreases |due|
  {
    hide Inv, CleanupOne, MayGo, Due, Pending;
    if due != [] {
      var k, s1 := due[0], CleanupOne(s, caller, deadline, due[0], o);
      CleanupOneKeeps(s, caller, deadline, k, o);
      CleanupOneGift(s, caller, deadline, k, o, n, gift);
      assert n in due <==> n == k || n in due[1..];
      CleanupSparesGift(s1, caller, deadline, due[1..], o, n, gift);
    }
  }

  lemma CleanupGift(s: State, caller: Account, deadline: nat, due: seq<Node>, o: Open, n: Node, gift: Offer)
    requires Inv(s) && Pending(s, n, gift)
    ensures Pending(CleanupEach(s, caller, deadline, due, o), n, gift)
       <==> !(n in due && Due(s, deadline, n) && MayGo(s, n, o))
  {
    hide Inv, CleanupEach, Gains, Parts;
    if n in due && Due(s, deadline, n) && MayGo(s, n, o) {
      NameFacts(s, n);
      CleanupTakesDue(s, caller, deadline, due, o, 0);
      CleanupEachKeeps(s, caller, deadline, due, o);
      assert n in Taken(s, deadline, due, o);
      NameFacts(CleanupEach(s, caller, deadline, due, o), n);
    } else {
      CleanupSparesGift(s, caller, deadline, due, o, n, gift);
    }
  }

  lemma ReleaseSparesGift(s: State, caller: Account, o: Open, n: Node, gift: Offer)
    requires Inv(s) && Pending(s, n, gift) && ReleaseName(s, caller, o).Ok?
    ensures Pending(ReleaseName(s, caller, o).value, n, gift)
  {
    hide Inv, Teardown;
    PrimaryFacts(s, caller);
    TearRows(s, s.primary[caller], caller, 0, o, ReleaseName(s, caller, o).value);
  }

  lemma BuySparesGift(s: State, buyer: Account, name: Label, recipient: Option<Account>, o: Open, n: Node, gift: Offer)
    requires Pending(s, n, gift) && Buy(s, buyer, name, recipient, o).Ok?
    ensures Pending(Buy(s, buyer, name, recipient, o).value, n, gift)
  {
    var m := NameHash(name);
    BuyNeedsSale(s, buyer, name, recipient, o);
    hide Settle, Buy;
    var paid := s.(bank := Settle(s.bank, buyer, s.listings[m], o.fees).value);
    var carrier := if recipient.None? then buyer else o.carrier;
    UnlistIsMoney(paid, m);
    var s1 := Rotate(Unlist(paid, m), m, carrier, o.amount).value;
    RotateIsMoney(Unlist(paid, m), m, carrier, o.amount, s1);
    hide Rotate, Unlist;
  }

  lemma TransferSparesGift(s: State, caller: Account, to: Account, o: Open, n: Node, gift: Offer)
    requires Pending(s, n, gift) && Transfer(s, caller, to, o).Ok?
    ensures Pending(Transfer(s, caller, to, o).value, n, gift)
  {
    hide Transfer;
    TransferRows(s, caller, to, o, Transfer(s, caller, to, o).value);
  }

  lemma AcceptGift(s: State, caller: Account, name: Label, o: Open, n: Node, gift: Offer)
    requires Pending(s, n, gift) && AcceptOffer(s, caller, name, o).Ok?
    ensures Pending(AcceptOffer(s, caller, name, o).value, n, gift) <==> NameHash(name) != n
    ensures NameHash(name) == n ==> gift.recipient == caller
  {
    AcceptRows(s, caller, name, o, AcceptOffer(s, caller, name, o).value);
    hide Rotate, SetOwner;
  }

  lemma ListSparesGift(s: State, caller: Account, price: nat, expiresAt: nat, o: Open, n: Node, gift: Offer)
    requires Pending(s, n, gift) && CreateListing(s, caller, price, expiresAt, o).Ok?
    ensures Pending(CreateListing(s, caller, price, expiresAt, o).value, n, gift)
  {
    hide CreateListing;
    ListRows(s, caller, price, expiresAt, o, CreateListing(s, caller, price, expiresAt, o).value);
  }

  // ---------- Steps and runs ----------

  /** A gift stays pending as it was made exactly if the step is none of those that end it. */
  lemma StepGift(s: State, op: Op, n: Node, gift: Offer)
    requires Inv(s) && Pending(s, n, gift)
    ensures Pending(Next(s, op), n, gift) <==> !EndsGift(s, op, n)
  {
    hide Inv, Register, Transfer, ReleaseName, AcceptOffer, Buy, CreateListing, CleanupEach, Due, MayGo;
    if Idle(op) {
      hide Apply, Next;
      InvMakesTree(s);
      IdleRows(s, op);
    } else if Apply(s, op).Ok? {
      match op
      case OpRegister(caller, name, reject, o) => RegisterGift(s, caller, name, reject, o, n, gift);
      case OpTransfer(caller, to, o) => TransferSparesGift(s, caller, to, o, n, gift);
      case OpReleaseName(caller, o) => ReleaseSparesGift(s, caller, o, n, gift);
      case OpCleanup(caller, deadline, due, o) => CleanupGift(s, caller, deadline, due, o, n, gift);
      case OpAcceptOffer(caller, name, o) => AcceptGift(s, caller, name, o, n, gift);
      case OpBuy(caller, name, recipient, o) => BuySparesGift(s, caller, name, recipient, o, n, gift);
      case OpCreateListing(caller, price, expiresAt, o) => ListSparesGift(s, caller, price, expiresAt, o, n, gift);
    }
  }

  ghost predicate AlwaysPending(s: State, ops: seq<Op>, n: Node, gift: Offer)
    decreases |ops|
  {
    Pending(s, n, gift) && (ops != [] ==> AlwaysPending(Next(s, ops[0]), ops[1..], n, gift))
  }

  ghost predicate NeverEnded(s: State, ops: seq<Op>, n: Node)
    decreases |ops|
  {
    ops != [] ==> !EndsGift(s, ops[0], n) && NeverEnded(Next(s, ops[0]), ops[1..], n)
  }

  /** So it does all along a run. */
  lemma {:induction false} GiftWhileNotEnded(s: State, ops: seq<Op>, n: Node, gift: Offer)
    requires Inv(s) && Pending(s, n, gift)
    ensures AlwaysPending(s, ops, n, gift) <==> NeverEnded(s, ops, n)
    decreases |ops|
  {
    hide Inv, Pending, EndsGift, Next;
    if ops != [] {
      StepGift(s, ops[0], n, gift);
      NextKeeps(s, ops[0]);
      if !EndsGift(s, ops[0], n) {
        GiftWhileNotEnded(Next(s, ops[0]), ops[1..], n, gift);
      }
    }
  }

  // ---------- Whose gift it is to take ----------

  /** The recipient accepts the gift, or declines it on registering another name. */
  predicate Answers(s: State, op: Op, n: Node, recipient: Account) {
    Apply(s, op).Ok? &&
    match op
    case OpAcceptOffer(caller, name, _) => caller == recipient && NameHash(name) == n
    case OpRegister(caller, _, reject, _) => caller == recipient && Declines(reject, n)
    case _ => false
  }

  lemma EndedOnlyIfAnswered(s: State, op: Op, n: Node, gift: Offer)
    requires Inv(s) && Pending(s, n, gift) && Current(s, n)
    ensures EndsGift(s, op, n) <==> Answers(s, op, n, gift.recipient)
  {
    hide Inv, Register, AcceptOffer, MayGo, CleanupEach;
    if Apply(s, op).Ok? {
      if op.OpRegister? {
        RegisterGift(s, op.caller, op.name, op.reject, op.o, n, gift);
      } else if op.OpAcceptOffer? {
        AcceptGift(s, op.caller, op.name, op.o, n, gift);
      }
    }
  }

  /** While the name is current, nobody but the recipient ends a pending gift of it. */
  lemma GiftIsSafe(s: State, op: Op, n: Node, gift: Offer)
    requires Inv(s) && Pending(s, n, gift) && Current(s, n)
    ensures Pending(Next(s, op), n, gift) <==> !Answers(s, op, n, gift.recipient)
  {
    hide Inv, Pending, EndsGift, Answers, Next;
    StepGift(s, op, n, gift);
    EndedOnlyIfAnswered(s, op, n, gift);
  }

  ghost predicate NeverAnswered(s: State, ops: seq<Op>, n: Node, recipient: Account)
    decreases |ops|
  {
    ops != [] ==> !Answers(s, ops[0], n, recipient) && NeverAnswered(Next(s, ops[0]), ops[1..], n, recipient)
  }

  /** As long as the gift is pending, the name is current before each step of the run. */
  ghost predicate CurrentWhilePending(s: State, ops: seq<Op>, n: Node, gift: Offer)
    decreases |ops|
  {
    ops != [] && Pending(s, n, gift) ==>
      Current(s, n) && CurrentWhilePending(Next(s, ops[0]), ops[1..], n, gift)
  }

  /** Over any run in which the name does not lapse, a gift waits for its recipient exactly until it is answered. */
  lemma {:induction false} GiftAwaitsAnswer(s: State, ops: seq<Op>, n: Node, gift: Offer)
    requires Inv(s) && Pending(s, n, gift) && CurrentWhilePending(s, ops, n, gift)
    ensures AlwaysPending(s, ops, n, gift) <==> NeverAnswered(s, ops, n, gift.recipient)
    decreases |ops|
  {
    hide Inv, Pending, Current, Answers, Next;
    if ops != [] {
      GiftIsSafe(s, ops[0], n, gift);
      NextKeeps(s, ops[0]);
      if !Answers(s, ops[0], n, gift.recipient) {
        GiftAwaitsAnswer(Next(s, ops[0]), ops[1..], n, gift);
      }
    }
  }
}
