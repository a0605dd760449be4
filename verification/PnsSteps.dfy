/** What each extrinsic of the name system does to its storage. */
module PnsSteps {
  import opened Wrappers
  import opened Balances
  import opened PnsTypes

  type Outcome = Result<State, Error>

  function Funded(b: Option<Bank>): Result<Bank, Error> {
    if b.None? then Err(FundsUnavailable) else Ok(b.value)
  }

  // ---------- Parts ----------

  function Unlist(s: State, n: Node): (r: State)
    ensures r.tokens == s.tokens && r.deposits == s.deposits
  {
    if n in s.listings then
      s.(bank := s.bank.Unhold(ListingDeposit, s.listings[n].seller, s.listings[n].seller, LISTING_DEPOSIT),
         listings := s.listings - {n})
    else s
  }

  function UnlistUnless(s: State, n: Node, keep: bool): State {
    if keep then s else Unlist(s, n)
  }

  /** Pays the cleanup deposit out: a bounty to its finder, the rest back to the depositor. */
  function Refund(s: State, n: Node, finder: Account, bounty: nat): State {
    if n in s.deposits && bounty <= s.deposits[n].1 then
      s.(bank := PayOut(s.bank, CleanupDeposit, s.deposits[n], finder, bounty), deposits := s.deposits - {n})
    else s
  }

  /** Releases the deposit of `n` as recorded and puts `amount` on hold for it on `who`. */
  function Rotate(s: State, n: Node, who: Account, amount: nat): (r: Outcome)
    requires n in s.deposits
    ensures r.Ok? ==> r.value.tokens == s.tokens
  {
    var row := s.deposits[n];
    var freed := s.bank.Unhold(CleanupDeposit, row.0, row.0, row.1);
    var bank :- Funded(freed.Hold(CleanupDeposit, who, amount));
    Ok(s.(bank := bank, deposits := s.deposits[n := (who, amount)]))
  }

  function Subnames(s: State, n: Node): set<Node> {
    set m | m in s.subnames && m.Child? && m.parent == n
  }

  function Without<K(==)>(m: map<(Node, K), Content>, gone: set<Node>): map<(Node, K), Content> {
    map k | k in m && k.0 !in gone :: m[k]
  }

  function Unboxed(inbox: set<(Account, Node)>, gone: set<Node>): set<(Account, Node)> {
    set e | e in inbox && e.1 !in gone
  }

  /** Removes the given nodes, and whatever is stored under them, outside the marketplace. */
  function Purge(s: State, n: Node, gone: set<Node>): State {
    s.(tokens := s.tokens - gone,
       primary := map a | a in s.primary && s.primary[a] != n :: s.primary[a],
       infos := s.infos - {n},
       offers := s.offers - {n},
       subnames := s.subnames - gone,
       inbox := Unboxed(s.inbox, gone),
       origins := s.origins - gone,
       records := Without(s.records, gone),
       texts := Without(s.texts, gone))
  }

  function Teardown(s: State, n: Node, finder: Account, bounty: nat, o: Open): Outcome {
    if n !in s.tokens then Err(NotRegistered) else
    :- Need(o.fate.Refuse? ==> s.tokens[n].children == 0, HasSubnames);
    var gone := if o.fate.Cascade? then {n} + Subnames(s, n) else {n};
    Ok(Purge(UnlistUnless(Refund(s, n, finder, bounty), n, o.keepListing), n, gone))
  }

  /** A change of owner: only the chain's own records of the name survive it. */
  function ClearUserRecords(s: State, n: Node, o: Open): (r: State)
    ensures r.tokens == s.tokens && r.listings == s.listings
  {
    s.(records := map k | k in s.records && (k.0 == n ==> !UserSettable(k.1)) :: s.records[k],
       texts := if o.keepTexts then s.texts else map k | k in s.texts && k.0 != n :: s.texts[k])
  }

  function SetOwner(s: State, n: Node, who: Account): State
    requires n in s.tokens
  {
    s.(tokens := s.tokens[n := s.tokens[n].(owner := who)],
       primary := s.primary[who := n],
       records := s.records[(n, SS58) := Owner(who)])
  }

  // ---------- Registrar ----------

  predicate Registrable(s: State, n: Node) {
    n in s.infos ==> s.now > s.infos[n].expire + GRACE_PERIOD
  }

  function RejectOffer(s: State, caller: Account, gift: Node, o: Open): Outcome {
    if gift !in s.offers || s.offers[gift].recipient != caller then Err(NotOffered) else
    Teardown(s, gift, caller, 0, o)
  }

  function Grant(s: State, caller: Account, name: Label, o: Open): Outcome {
    var n, price := NameHash(name), Price(s.prices, name);
    var charged :- Funded(s.bank.Charge(caller, o.fees));
    var bank :- Funded(charged.Hold(CleanupDeposit, caller, CleanupShare(price)));
    Ok(s.(bank := bank,
          tokens := s.tokens[n := Token(caller, 0)],
          primary := s.primary[caller := n],
          infos := s.infos[n := Info(s.now + MAX_REGISTRATION, DEFAULT_CAPACITY, price, o.block)],
          deposits := s.deposits[n := (caller, CleanupShare(price))],
          records := s.records[(n, SS58) := Owner(caller)][(n, ORIGIN) := BlockHash(o.hash)]))
  }

  function Register(s: State, caller: Account, name: Label, reject: Option<Label>, o: Open): Outcome {
    if caller in s.primary then Err(AlreadyHasCanonicalName) else
    var n := NameHash(name);
    :- Need(n !in s.reserved, Frozen);
    var s1 :- if reject.Some? then RejectOffer(s, caller, NameHash(reject.value), o) else Ok(s);
    :- Need(Registrable(s1, n), Occupied);
    var s2 :- if n in s1.tokens then Teardown(s1, n, caller, 0, o) else Ok(s1);
    Grant(s2, caller, name, o)
  }

  function Renew(s: State, caller: Account, o: Open): Outcome {
    if caller !in s.primary then Err(NoCanonicalName) else
    var n := s.primary[caller];
    :- Need(n.Child? && n in s.infos && n in s.deposits, NotRegistered);
    var bank :- Funded(s.bank.Charge(caller, o.fees));
    Rotate(s.(bank := bank, infos := s.infos[n := s.infos[n].(expire := o.expire, lastBlock := o.block)]),
           n, caller, CleanupShare(Price(s.prices, n.name)))
  }

  function Transfer(s: State, caller: Account, to: Account, o: Open): Outcome {
    if caller !in s.primary then Err(NoCanonicalName) else
    :- Need(to !in s.primary, AlreadyHasCanonicalName);
    var n := s.primary[caller];
    :- Need(n in s.tokens && n in s.deposits, NotRegistered);
    var s1 :- Rotate(s, n, to, s.deposits[n].1);
    var s2 := UnlistUnless(s1, n, o.keepListing);
    Ok(SetOwner(ClearUserRecords(s2.(primary := s2.primary - {caller}), n, o), n, to))
  }

  function ReleaseName(s: State, caller: Account, o: Open): Outcome {
    if caller !in s.primary then Err(NoCanonicalName) else
    Teardown(s, s.primary[caller], caller, 0, o)
  }

  /** Tears down those of the candidates that expire at `deadline`; an entry gone stale is skipped. */
  function CleanupEach(s: State, caller: Account, deadline: nat, due: seq<Node>, o: Open): State
    decreases |due|
  {
    if due == [] then s else CleanupEach(CleanupOne(s, caller, deadline, due[0], o), caller, deadline, due[1..], o)
  }

  function CleanupOne(s: State, caller: Account, deadline: nat, n: Node, o: Open): State {
    if n in s.infos && s.infos[n].expire + GRACE_PERIOD == deadline && n in s.deposits then
      var torn := Teardown(s, n, caller, BountyFrom(s.deposits[n].1, o.bounty), o);
      if torn.Ok? then torn.value else s
    else s
  }

  function Cleanup(s: State, caller: Account, deadline: nat, due: seq<Node>, o: Open): Outcome {
    if s.now < deadline then Err(NotExpired) else
    Ok(CleanupEach(s, caller, deadline, due, o))
  }

  function AcceptOffer(s: State, caller: Account, name: Label, o: Open): Outcome {
    var n := NameHash(name);
    :- Need(n in s.offers && s.offers[n].recipient == caller, NotOffered);
    :- Need(caller !in s.primary, AlreadyHasCanonicalName);
    :- Need(n in s.tokens && n in s.deposits, NotRegistered);
    var s1 :- Rotate(s, n, o.carrier, o.amount);
    Ok(SetOwner(s1.(offers := s1.offers - {n}), n, caller))
  }

  // ---------- Marketplace ----------

  function CreateListing(s: State, caller: Account, price: nat, expiresAt: nat, o: Open): Outcome {
    if caller !in s.primary then Err(NoCanonicalName) else
    var n := s.primary[caller];
    :- Need(s.now < expiresAt, ExpiryNotInFuture);
    :- Need(n !in s.listings || !o.keepListing, AlreadyListed);
    var s1 := Unlist(s, n);
    var bank :- Funded(s1.bank.Hold(ListingDeposit, caller, LISTING_DEPOSIT));
    Ok(s1.(bank := bank, listings := s1.listings[n := Listing(caller, price, expiresAt)]))
  }

  function CancelListing(s: State, caller: Account): Outcome {
    if caller !in s.primary then Err(NoCanonicalName) else
    var n := s.primary[caller];
    :- Need(n in s.listings, ListingNotFound);
    Ok(Unlist(s, n))
  }

  /** The seller is paid the price less a cut of at most two percent; the buyer pays both. */
  function Settle(b: Bank, buyer: Account, l: Listing, fees: seq<(Account, nat)>): Result<Bank, Error> {
    if SumOf(fees) > l.price - l.price * 98 / 100 then Err(FeeTooHigh) else
    var paid :- Funded(b.Transfer(buyer, l.seller, l.price - SumOf(fees)));
    Funded(paid.Charge(buyer, fees))
  }

  function Buy(s: State, buyer: Account, name: Label, recipient: Option<Account>, o: Open): Outcome {
    var n := NameHash(name);
    :- Need(n in s.listings, ListingNotFound);
    var l := s.listings[n];
    :- Need(buyer != l.seller, BuyerIsSeller);
    :- Need(recipient != Some(buyer), BuyerIsRecipient);
    :- Need(recipient != Some(l.seller), SellerIsRecipient);
    :- Need(n in s.tokens && n in s.deposits && n !in s.offers, NotForSale);
    :- Need(recipient.None? ==> buyer !in s.primary, AlreadyHasCanonicalName);
    Sell(s, n, buyer, recipient, o)
  }

  function Sell(s: State, n: Node, buyer: Account, recipient: Option<Account>, o: Open): Outcome
    requires n in s.listings && n in s.tokens && n in s.deposits
  {
    var bank :- Settle(s.bank, buyer, s.listings[n], o.fees);
    var s1 :- Rotate(Unlist(s.(bank := bank), n), n, if recipient.None? then buyer else o.carrier, o.amount);
    var s2 := s1.(primary := s1.primary - {s1.tokens[n].owner});
    Ok(HandOver(ClearUserRecords(s2, n, o), n, buyer, recipient, o))
  }

  /** A direct sale makes the buyer the owner; a gift leaves the name pending for its recipient. */
  function HandOver(s: State, n: Node, buyer: Account, recipient: Option<Account>, o: Open): (r: State)
    requires n in s.tokens
    ensures r.listings == s.listings
  {
    match recipient
    case None => SetOwner(s, n, buyer)
    case Some(to) =>
      s.(tokens := s.tokens[n := s.tokens[n].(owner := o.custodian)],
         offers := s.offers[n := Offer(to, buyer, s.now)])
  }

  function CleanupListing(s: State, caller: Account, name: Label, o: Open): Outcome {
    var n := NameHash(name);
    :- Need(n in s.listings, ListingNotFound);
    :- Need(SaturatingAdd(s.listings[n].expiresAt, LISTING_GRACE) <= s.now, ListingNotExpired);
    var row: (Account, nat) := (s.listings[n].seller, LISTING_DEPOSIT);
    Ok(s.(bank := PayOut(s.bank, ListingDeposit, row, caller, BountyFrom(LISTING_DEPOSIT, o.bounty)),
          listings := s.listings - {n}))
  }

  // ---------- Subnames ----------

  function Uninbox(s: State, m: Node): set<(Account, Node)> {
    Unboxed(s.inbox, {m})
  }

  function OfferSubname(s: State, caller: Account, name: Label, target: Account): Outcome {
    if caller !in s.primary then Err(NoCanonicalName) else
    var p := s.primary[caller];
    :- Need(target != caller, CannotOwnSubnameUnderOwnDomain);
    var m := Child(p, name);
    :- Need(m in s.subnames ==> !s.subnames[m].state.Active?, SubnameIsActive);
    Ok(s.(subnames := s.subnames[m := Subname(target, Offered)], inbox := Uninbox(s, m) + {(target, m)}))
  }

  function AcceptSubname(s: State, caller: Account, parent: Label, name: Label): Outcome {
    var p, m := NameHash(parent), SubnameHash(parent, name);
    :- Need(m in s.subnames && p in s.tokens, SubnameNotFound);
    :- Need(s.subnames[m].target == caller, NotSubnameTarget);
    :- Need(s.subnames[m].state.Offered?, NotOffered);
    var parentToken := s.tokens[p];
    Ok(s.(tokens := s.tokens[p := parentToken.(children := parentToken.children + 1)][m := Token(caller, 0)],
          origins := s.origins[m := p],
          subnames := s.subnames[m := Subname(caller, Active)],
          inbox := Uninbox(s, m)))
  }

  function RejectSubname(s: State, caller: Account, parent: Label, name: Label): Outcome {
    var m := SubnameHash(parent, name);
    :- Need(m in s.subnames, SubnameNotFound);
    :- Need(s.subnames[m].target == caller, NotSubnameTarget);
    :- Need(s.subnames[m].state.Offered?, NotOffered);
    Ok(s.(subnames := s.subnames[m := Subname(caller, Rejected)], inbox := Uninbox(s, m)))
  }

  function DropSubname(s: State, p: Node, m: Node): State {
    var t1 := s.tokens - {m};
    s.(tokens := if m in s.tokens && p in t1 && t1[p].children > 0
                 then t1[p := t1[p].(children := t1[p].children - 1)] else t1,
       origins := s.origins - {m},
       subnames := s.subnames - {m},
       inbox := Uninbox(s, m),
       records := Without(s.records, {m}),
       texts := Without(s.texts, {m}))
  }

  function ReleaseSubname(s: State, caller: Account, parent: Label, name: Label): Outcome {
    var p, m := NameHash(parent), SubnameHash(parent, name);
    :- Need(m in s.subnames, SubnameNotFound);
    :- Need(s.subnames[m].target == caller && s.subnames[m].state.Active?, NotSubnameTarget);
    Ok(DropSubname(s, p, m))
  }

  function RevokeSubname(s: State, caller: Account, name: Label): Outcome {
    if caller !in s.primary then Err(NoCanonicalName) else
    var p := s.primary[caller];
    var m := Child(p, name);
    :- Need(m in s.subnames, SubnameNotFound);
    Ok(DropSubname(s, p, m))
  }

  // ---------- Resolver ----------

  /** The registry's check: the caller owns the token of the node. */
  predicate Verify(s: State, caller: Account, n: Node) {
    n in s.tokens && s.tokens[n].owner == caller
  }

  predicate ExpiresUseable(s: State, n: Node)
    requires n in s.infos
  {
    s.now < s.infos[n].expire
  }

  /** A node without registration info, such as a subname, is useable by whoever owns its token. */
  predicate CheckNodeUseable(s: State, n: Node, owner: Account) {
    if !Verify(s, owner, n) then false
    else if n in s.infos then ExpiresUseable(s, n)
    else true
  }

  function SetRecord(s: State, caller: Account, n: Node, t: RecordType, content: seq<nat>): Outcome {
    if !UserSettable(t) then Err(InvalidRecordType) else
    :- Need(CheckNodeUseable(s, n, caller), InvalidPermission);
    Ok(s.(records := s.records[(n, t) := Bytes(content)]))
  }

  function SetText(s: State, caller: Account, n: Node, kind: nat, content: seq<nat>): Outcome {
    if !CheckNodeUseable(s, n, caller) then Err(InvalidPermission) else
    Ok(s.(texts := s.texts[(n, kind) := Bytes(content)]))
  }

  // ---------- Governance ----------

  function SetBasePrice(s: State, origin: Origin, prices: PriceTable): Outcome {
    if !origin.Root? then Err(BadOrigin) else
    Ok(s.(prices := prices))
  }

  function SetReserved(s: State, origin: Origin, name: Label, reserve: bool): Outcome {
    if !origin.Root? then Err(BadOrigin) else
    Ok(s.(reserved := if reserve then s.reserved + {NameHash(name)} else s.reserved - {NameHash(name)}))
  }

  function SetOfficial(s: State, origin: Origin, who: Account): Outcome {
    if !origin.Root? then Err(BadOrigin) else
    :- Need(Base in s.tokens, NotRegistered);
    Ok(s.(official := who, tokens := s.tokens[Base := s.tokens[Base].(owner := who)]))
  }

  // ---------- Runs ----------

  datatype Op =
    | OpRegister(caller: Account, name: Label, reject: Option<Label>, o: Open)
    | OpRenew(caller: Account, o: Open)
    | OpTransfer(caller: Account, to: Account, o: Open)
    | OpReleaseName(caller: Account, o: Open)
    | OpCleanup(caller: Account, deadline: nat, due: seq<Node>, o: Open)
    | OpAcceptOffer(caller: Account, name: Label, o: Open)
    | OpCreateListing(caller: Account, price: nat, expiresAt: nat, o: Open)
    | OpCancelListing(caller: Account)
    | OpBuy(caller: Account, name: Label, recipient: Option<Account>, o: Open)
    | OpCleanupListing(caller: Account, name: Label, o: Open)
    | OpOfferSubname(caller: Account, name: Label, target: Account)
    | OpAcceptSubname(caller: Account, parent: Label, name: Label)
    | OpRejectSubname(caller: Account, parent: Label, name: Label)
    | OpReleaseSubname(caller: Account, parent: Label, name: Label)
    | OpRevokeSubname(caller: Account, name: Label)
    | OpSetRecord(caller: Account, node: Node, t: RecordType, content: seq<nat>)
    | OpSetText(caller: Account, node: Node, kind: nat, content: seq<nat>)
    | OpSetBasePrice(origin: Origin, prices: PriceTable)
    | OpSetReserved(origin: Origin, name: Label, reserve: bool)
    | OpSetOfficial(origin: Origin, who: Account)
    | OpWait(time: nat)

  function Apply(s: State, op: Op): Outcome {
    match op
    case OpRegister(caller, name, reject, o) => Register(s, caller, name, reject, o)
    case OpRenew(caller, o) => Renew(s, caller, o)
    case OpTransfer(caller, to, o) => Transfer(s, caller, to, o)
    case OpReleaseName(caller, o) => ReleaseName(s, caller, o)
    case OpCleanup(caller, deadline, due, o) => Cleanup(s, caller, deadline, due, o)
    case OpAcceptOffer(caller, name, o) => AcceptOffer(s, caller, name, o)
    case OpCreateListing(caller, price, expiresAt, o) => CreateListing(s, caller, price, expiresAt, o)
    case OpCancelListing(caller) => CancelListing(s, caller)
    case OpBuy(caller, name, recipient, o) => Buy(s, caller, name, recipient, o)
    case OpCleanupListing(caller, name, o) => CleanupListing(s, caller, name, o)
    case OpOfferSubname(caller, name, target) => OfferSubname(s, caller, name, target)
    case OpAcceptSubname(caller, parent, name) => AcceptSubname(s, caller, parent, name)
    case OpRejectSubname(caller, parent, name) => RejectSubname(s, caller, parent, name)
    case OpReleaseSubname(caller, parent, name) => ReleaseSubname(s, caller, parent, name)
    case OpRevokeSubname(caller, name) => RevokeSubname(s, caller, name)
    case OpSetRecord(caller, node, t, content) => SetRecord(s, caller, node, t, content)
    case OpSetText(caller, node, kind, content) => SetText(s, caller, node, kind, content)
    case OpSetBasePrice(origin, prices) => SetBasePrice(s, origin, prices)
    case OpSetReserved(origin, name, reserve) => SetReserved(s, origin, name, reserve)
    case OpSetOfficial(origin, who) => SetOfficial(s, origin, who)
    case OpWait(time) => Ok(s.(now := s.now + time))
  }

  /** A call that fails changes nothing. */
  function Next(s: State, op: Op): State {
    var r := Apply(s, op);
    if r.Ok? then r.value else s
  }

  function Run(s: State, ops: seq<Op>): State
    decreases |ops|
  {
    if ops == [] then s else Run(Next(s, ops[0]), ops[1..])
  }

  /** The chain at its start: the official account owns the base node, and nothing is held. */
  function Genesis(now: nat, free: map<Account, nat>, prices: PriceTable, reserved: set<Node>, official: Account)
    : State
  {
    State(now, Bank(free, map[]), prices, reserved, official, map[Base := Token(official, 0)],
          map[], map[], map[], map[], map[], map[], {}, map[], map[], map[])
  }
}
