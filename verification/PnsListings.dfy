/** What the read view says about a listing, how long it goes on saying it, and what a sale makes of it. */
module PnsListings {
  import opened Wrappers
  import opened Balances
  import opened PnsTypes
  import opened PnsSteps
  import opened PnsInvariants
  import opened PnsRuns
  import opened PnsTree
  import opened PnsEffects
  import opened PnsCleanup
  import opened PnsTitle
  import opened PnsRuntimeApi

  /** The seller lists `n` at this price up to this time. */
  predicate Listed(s: State, n: Node, seller: Account, price: nat, expiresAt: nat) {
    && n in s.listings && s.listings[n].seller == seller
    && s.listings[n].price == price && s.listings[n].expiresAt == expiresAt
  }

  predicate ListedAs(s: State, n: Node, l: Listing) {
    Listed(s, n, l.seller, l.price, l.expiresAt)
  }

  // ---------- The answer ----------

  /** What is answered for a name is its listing; a name that does not parse, or is not listed, has none. */
  lemma AnswerIsListing(parse: LabelParser, s: State, name: string)
    ensures var answer := GetListing(parse, s, name);
      && (answer.Some? <==> parse(name).Some? && NameHash(parse(name).value) in s.listings)
      && (answer.Some? ==> Listed(s, NameHash(parse(name).value), answer.value.seller, answer.value.price,
                                  answer.value.expiresAt))
  {
  }

  /** The answer for a name just listed is the caller, the price and the expiry that were asked for. */
  lemma ListingIsAnswered(parse: LabelParser, s: State, caller: Account, price: nat, expiresAt: nat, o: Open,
                          name: string)
    requires caller in s.primary && parse(name).Some? && NameHash(parse(name).value) == s.primary[caller]
    requires CreateListing(s, caller, price, expiresAt, o).Ok?
    ensures var answer := GetListing(parse, CreateListing(s, caller, price, expiresAt, o).value, name);
      && answer.Some? && answer.value.seller == caller && answer.value.price == price
      && answer.value.expiresAt == expiresAt
  {
    ListRows(s, caller, price, expiresAt, o, CreateListing(s, caller, price, expiresAt, o).value);
    hide CreateListing;
  }

  /** The price that is answered is what moves from buyer to seller, less the fees, when the name is bought. */
  lemma AnsweredPriceMoves(parse: LabelParser, s: State, name: string, buyer: Account, recipient: Option<Account>,
                           o: Open, s': State, a: Account)
    requires Inv(s) && parse(name).Some? && Buy(s, buyer, parse(name).value, recipient, o) == Ok(s')
    ensures GetListing(parse, s, name).Some? && GetListing(parse, s', name) == None
    ensures NameHash(parse(name).value) in s.deposits
    ensures var (n, l) := (NameHash(parse(name).value), GetListing(parse, s, name).value);
      && l.seller != buyer && SumOf(o.fees) <= l.price - l.price * 98 / 100
      && s'.bank.Free(a) + If(a == buyer, l.price) + If(a == CarrierOf(buyer, recipient, o), o.amount)
         == s.bank.Free(a) + If(a == l.seller, l.price - SumOf(o.fees)) + Received(o.fees, a)
            + If(a == l.seller, LISTING_DEPOSIT) + Share(s.deposits[n], a)
  {
    hide Inv, Buy;
    BuyMovesMoney(s, buyer, parse(name).value, recipient, o, s', a);
  }

  // ---------- How long it stays ----------

  /** The call tears `n` down, and its listing with it. */
  predicate TearsListing(s: State, op: Op, n: Node) {
    match op
    case OpReleaseName(caller, o) => Has(s, caller, n) && !o.keepListing
    case OpCleanup(_, deadline, due, o) => n in due && Due(s, deadline, n) && MayGo(s, n, o) && !o.keepListing
    case OpRegister(_, name, reject, o) =>
      (Declines(reject, n) || (NameHash(name) == n && n in s.tokens)) && !o.keepListing
    case _ => false
  }

  /** The call succeeds, and the listing is cancelled, replaced by another, cleared, sold, or goes with the name. */
  predicate EndsListing(s: State, op: Op, n: Node)
    requires n in s.listings
  {
    Apply(s, op).Ok? &&
    match op
    case OpCreateListing(caller, price, expiresAt, _) =>
      Has(s, caller, n) && s.listings[n] != Listing(caller, price, expiresAt)
    case OpCancelListing(caller) => Has(s, caller, n)
    case OpTransfer(caller, _, o) => Has(s, caller, n) && !o.keepListing
    case OpBuy(_, name, _, _) => NameHash(name) == n
    case OpCleanupListing(_, name, _) => NameHash(name) == n
    case _ => TearsListing(s, op, n)
  }

  /** The listing of `n` goes exactly if `goes`, and is as it was otherwise. */
  ghost predicate ListingGoes(s: State, s': State, n: Node, goes: bool) {
    && (n in s'.listings <==> n in s.listings && !goes)
    && (n in s'.listings && n in s.listings ==> s'.listings[n] == s.listings[n])
  }

  lemma TearGoes(s: State, m: Node, caller: Account, bounty: nat, o: Open, s': State, n: Node)
    requires Teardown(s, m, caller, bounty, o) == Ok(s')
    ensures ListingGoes(s, s', n, n == m && !o.keepListing)
  {
    TearRows(s, m, caller, bounty, o, s');
    hide Teardown;
  }

  lemma ReleaseGoes(s: State, caller: Account, o: Open, n: Node)
    requires ReleaseName(s, caller, o).Ok?
    ensures ListingGoes(s, ReleaseName(s, caller, o).value, n, Has(s, caller, n) && !o.keepListing)
  {
    hide Teardown, ListingGoes;
    TearGoes(s, s.primary[caller], caller, 0, o, ReleaseName(s, caller, o).value, n);
  }

  lemma DeclineGoes(s: State, caller: Account, reject: Option<Label>, o: Open, s1: State, n: Node)
    requires Inv(s) && caller !in s.primary && IsName(n)
    requires if reject.Some? then RejectOffer(s, caller, NameHash(reject.value), o) == Ok(s1) else s1 == s
    ensures ListingGoes(s, s1, n, Declines(reject, n) && !o.keepListing)
    ensures !Declines(reject, n) ==> (n in s1.tokens <==> n in s.tokens)
    ensures Declines(reject, n) ==> n !in s1.tokens
  {
    hide Inv, Teardown;
    if reject.Some? {
      var g := NameHash(reject.value);
      NameFacts(s, g);
      TearGoes(s, g, caller, 0, o, s1, n);
      TearName(s, g, caller, 0, o, s1);
    }
  }

  lemma RegisterGoes(s: State, caller: Account, name: Label, reject: Option<Label>, o: Open, n: Node)
    requires Inv(s) && IsName(n) && Register(s, caller, name, reject, o).Ok?
    ensures ListingGoes(s, Register(s, caller, name, reject, o).value, n,
                        TearsListing(s, OpRegister(caller, name, reject, o), n))
  {
    hide Inv, Register, RejectOffer, Teardown, Grant;
    var m := NameHash(name);
    var s1, s2 := RegisterParts(s, caller, name, reject, o);
    DeclineGoes(s, caller, reject, o, s1, n);
    if m in s1.tokens {
      TearGoes(s1, m, caller, 0, o, s2, n);
    }
    GrantLists(s2, caller, name, o, Register(s, caller, name, reject, o).value);
  }

  lemma CleanupOneGoes(s: State, caller: Account, deadline: nat, k: Node, o: Open, n: Node)
    requires Inv(s) && IsName(n)
    ensures var s1 := CleanupOne(s, caller, deadline, k, o);
      && Inv(s1)
      && ListingGoes(s, s1, n, k == n && Due(s, deadline, n) && MayGo(s, n, o) && !o.keepListing)
      && (n != k ==> (Due(s1, deadline, n) && MayGo(s1, n, o) <==> Due(s, deadline, n) && MayGo(s, n, o)))
      && (Due(s1, deadline, k) && MayGo(s1, k, o) ==> s1 == s && !(Due(s, deadline, k) && MayGo(s, k, o)))
  {
    hide Inv, Teardown, Gain;
    var s1 := CleanupOne(s, caller, deadline, k, o);
    CleanupOneKeeps(s, caller, deadline, k, o);
    CleanupPaysFinder(s, caller, deadline, k, o, 0);
    if Due(s, deadline, k) && MayGo(s, k, o) {
      var bounty := BountyFrom(s.deposits[k].1, o.bounty);
      TeardownGoes(s, k, caller, bounty, o);
      TearGoes(s, k, caller, bounty, o, s1, n);
      CleanupOneTakes(s, caller, deadline, k, o);
      OthersAsBefore(s, s1, k, caller, deadline, n, o, 0);
    }
  }

  lemma {:induction false} CleanupGoes(s: State, caller: Account, deadline: nat, due: seq<Node>, o: Open, n: Node)
    requires Inv(s) && IsName(n)
    ensures ListingGoes(s, CleanupEach(s, caller, deadline, due, o), n,
                        TearsListing(s, OpCleanup(caller, deadline, due, o), n))
    decreases |due|
  {
    hide Inv, CleanupOne, Due, MayGo;
    if due != [] {
      CleanupOneGoes(s, caller, deadline, due[0], o, n);
      assert n in due <==> n == due[0] || n in due[1..];
      CleanupGoes(CleanupOne(s, caller, deadline, due[0], o), caller, deadline, due[1..], o, n);
    }
  }

  lemma CancelGoes(s: State, caller: Account, n: Node)
    requires CancelListing(s, caller).Ok?
    ensures ListingGoes(s, CancelListing(s, caller).value, n, Has(s, caller, n))
  {
    UnlistIsMoney(s, s.primary[caller]);
    hide Unlist;
  }

  lemma ClearGoes(s: State, caller: Account, name: Label, o: Open, n: Node)
    requires CleanupListing(s, caller, name, o).Ok?
    ensures ListingGoes(s, CleanupListing(s, caller, name, o).value, n, NameHash(name) == n)
  {
    hide PayOut;
  }

  lemma TransferGoes(s: State, caller: Account, to: Account, o: Open, n: Node)
    requires Transfer(s, caller, to, o).Ok?
    ensures ListingGoes(s, Transfer(s, caller, to, o).value, n, Has(s, caller, n) && !o.keepListing)
  {
    TransferRows(s, caller, to, o, Transfer(s, caller, to, o).value);
    hide Transfer;
  }

  lemma BuyGoes(s: State, buyer: Account, name: Label, recipient: Option<Account>, o: Open, n: Node)
    requires Buy(s, buyer, name, recipient, o).Ok?
    ensures ListingGoes(s, Buy(s, buyer, name, recipient, o).value, n, NameHash(name) == n)
  {
    BuyRows(s, buyer, name, recipient, o, Buy(s, buyer, name, recipient, o).value);
    hide Buy;
  }

  lemma AcceptLists(s: State, caller: Account, name: Label, o: Open)
    requires AcceptOffer(s, caller, name, o).Ok?
    ensures AcceptOffer(s, caller, name, o).value.listings == s.listings
  {
    AcceptRows(s, caller, name, o, AcceptOffer(s, caller, name, o).value);
    hide AcceptOffer;
  }

  lemma CreateLists(s: State, caller: Account, price: nat, expiresAt: nat, o: Open, n: Node)
    requires n in s.listings && CreateListing(s, caller, price, expiresAt, o).Ok?
    ensures var s' := CreateListing(s, caller, price, expiresAt, o).value;
      n in s'.listings
      && s'.listings[n] == if Has(s, caller, n) then Listing(caller, price, expiresAt) else s.listings[n]
  {
    ListRows(s, caller, price, expiresAt, o, CreateListing(s, caller, price, expiresAt, o).value);
    hide CreateListing;
  }

  /** Calls that are about something else. */
  predicate Unlisted(op: Op) {
    Idle(op) && !op.OpCancelListing? && !op.OpCleanupListing?
  }

  lemma UnlistedLists(s: State, op: Op)
    requires Unlisted(op)
    ensures Next(s, op).listings == s.listings
  {
    OtherCallKeepsListing(s, op, Zero);
    hide Next;
  }

  lemma TornListing(s: State, op: Op, n: Node)
    requires Inv(s) && IsName(n) && n in s.listings && Apply(s, op).Ok?
    requires op.OpRegister? || op.OpReleaseName? || op.OpCleanup?
    ensures ListingGoes(s, Next(s, op), n, EndsListing(s, op, n))
  {
    hide Inv, Register, ReleaseName, CleanupEach, ListingGoes, Due, MayGo;
    match op
    case OpRegister(caller, name, reject, o) => RegisterGoes(s, caller, name, reject, o, n);
    case OpReleaseName(caller, o) => ReleaseGoes(s, caller, o, n);
    case OpCleanup(caller, deadline, due, o) => CleanupGoes(s, caller, deadline, due, o, n);
  }

  lemma SoldListing(s: State, op: Op, n: Node)
    requires n in s.listings && Apply(s, op).Ok?
    requires op.OpCancelListing? || op.OpTransfer? || op.OpBuy? || op.OpCleanupListing?
    ensures ListingGoes(s, Next(s, op), n, EndsListing(s, op, n))
  {
    hide CancelListing, Transfer, Buy, CleanupListing, ListingGoes;
    match op
    case OpCancelListing(caller) => CancelGoes(s, caller, n);
    case OpTransfer(caller, to, o) => TransferGoes(s, caller, to, o, n);
    case OpBuy(caller, name, recipient, o) => BuyGoes(s, caller, name, recipient, o, n);
    case OpCleanupListing(caller, name, o) => ClearGoes(s, caller, name, o, n);
  }

  lemma OtherListing(s: State, op: Op, n: Node)
    requires n in s.listings && Apply(s, op).Ok? && (Unlisted(op) || op.OpAcceptOffer? || op.OpCreateListing?)
    ensures n in Next(s, op).listings && (Next(s, op).listings[n] == s.listings[n] <==> !EndsListing(s, op, n))
  {
    hide AcceptOffer, CreateListing;
    if op.OpAcceptOffer? {
      AcceptLists(s, op.caller, op.name, op.o);
    } else if op.OpCreateListing? {
      CreateLists(s, op.caller, op.price, op.expiresAt, op.o, n);
    } else {
      UnlistedLists(s, op);
      hide Apply, Next;
      assert op.OpCreateListing? || op.OpTransfer? || op.OpBuy? || op.OpReleaseName? || op.OpRegister?
             || op.OpCleanup? || !EndsListing(s, op, n);
    }
  }

  lemma ListedUnlessGone(s: State, s': State, n: Node, l: Listing, goes: bool)
    requires ListedAs(s, n, l) && ListingGoes(s, s', n, goes)
    ensures ListedAs(s', n, l) <==> !goes
  {
  }

  /** A listing stays as it was made exactly if the step is none of those that end it. */
  lemma StepListing(s: State, op: Op, n: Node, l: Listing)
    requires Inv(s) && IsName(n) && ListedAs(s, n, l)
    ensures ListedAs(Next(s, op), n, l) <==> !EndsListing(s, op, n)
  {
    hide Inv, IsName, ListingGoes;
    if Apply(s, op).Ok? {
      hide Apply, EndsListing;
      if op.OpRegister? || op.OpReleaseName? || op.OpCleanup? {
        TornListing(s, op, n);
        ListedUnlessGone(s, Next(s, op), n, l, EndsListing(s, op, n));
      } else if op.OpCancelListing? || op.OpTransfer? || op.OpBuy? || op.OpCleanupListing? {
        SoldListing(s, op, n);
        ListedUnlessGone(s, Next(s, op), n, l, EndsListing(s, op, n));
      } else {
        OtherListing(s, op, n);
      }
    } else {
      hide Apply;
    }
  }

  ghost predicate AlwaysAnswered(parse: LabelParser, s: State, ops: seq<Op>, name: string, l: Listing)
    decreases |ops|
  {
    GetListing(parse, s, name) == Some(l)
    && (ops != [] ==> AlwaysAnswered(parse, Next(s, ops[0]), ops[1..], name, l))
  }

  /** In no step of the run does the listing end; there is one before every step. */
  ghost predicate NeverEnds(s: State, ops: seq<Op>, n: Node)
    decreases |ops|
  {
    n in s.listings && (ops != [] ==> !EndsListing(s, ops[0], n) && NeverEnds(Next(s, ops[0]), ops[1..], n))
  }

  lemma AnswerMeansListed(parse: LabelParser, s: State, name: string, l: Listing)
    requires parse(name).Some?
    ensures GetListing(parse, s, name) == Some(l) <==> ListedAs(s, NameHash(parse(name).value), l)
  {
  }

  /** All along a run the read view answers with the listing as it was made exactly if nothing ends it. */
  lemma {:induction false} AnswerStands(parse: LabelParser, s: State, ops: seq<Op>, name: string, l: Listing)
    requires Inv(s) && GetListing(parse, s, name) == Some(l)
    ensures parse(name).Some?
    ensures AlwaysAnswered(parse, s, ops, name, l) <==> NeverEnds(s, ops, NameHash(parse(name).value))
    decreases |ops|
  {
    AnswerIsListing(parse, s, name);
    AnswerMeansListed(parse, s, name, l);
    hide Inv, Next, EndsListing, GetListing;
    if ops != [] {
      var n := NameHash(parse(name).value);
      StepListing(s, ops[0], n, l);
      NextKeeps(s, ops[0]);
      AnswerMeansListed(parse, Next(s, ops[0]), name, l);
      if !EndsListing(s, ops[0], n) {
        AnswerStands(parse, Next(s, ops[0]), ops[1..], name, l);
      }
    }
  }
}
