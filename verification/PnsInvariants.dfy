/** What holds in every reachable state of the name system, and why each call keeps it. */
module PnsInvariants {
  import opened Wrappers
  import opened Balances
  import opened PnsTypes
  import opened PnsSteps

  // ---------- The invariant ----------

  function Names(s: State): set<Node> {
    set n | n in s.tokens && IsName(n)
  }

  function ListingRows(s: State): map<Node, (Account, nat)> {
    map n | n in s.listings :: (s.listings[n].seller, LISTING_DEPOSIT)
  }

  /** Both kinds of hold match the rows that record them, account by account. */
  ghost predicate Money(s: State) {
    && Solvent(s.bank, CleanupDeposit, s.deposits)
    && Solvent(s.bank, ListingDeposit, ListingRows(s))
  }

  /** Names have a token, an info and a deposit together; nothing else has an info or a deposit. */
  ghost predicate Registered(s: State) {
    && Base in s.tokens && s.tokens[Base].owner == s.official
    && (forall n :: n in s.tokens ==> n == Base || IsName(n) || IsSubname(n))
    && s.infos.Keys == Names(s)
    && s.deposits.Keys == Names(s)
    && s.offers.Keys <= Names(s)
  }

  /** An account's primary name is the one name whose token it owns, gifts in transit aside. */
  ghost predicate Owned(s: State) {
    && (forall a :: a in s.primary ==>
          s.primary[a] in Names(s) && s.primary[a] !in s.offers && s.tokens[s.primary[a]].owner == a)
    && (forall n :: n in Names(s) && n !in s.offers ==>
          s.tokens[n].owner in s.primary && s.primary[s.tokens[n].owner] == n)
  }

  function SubnameTokens(s: State): set<Node> {
    set m | m in s.tokens && IsSubname(m)
  }

  function ActiveSubnames(s: State): set<Node> {
    set m | m in s.subnames && s.subnames[m].state.Active?
  }

  /** A subname has a token and an origin exactly while it is active, owned by its target. */
  ghost predicate Nested(s: State) {
    && s.origins.Keys == SubnameTokens(s) == ActiveSubnames(s)
    && (forall m :: m in s.subnames ==> IsSubname(m))
    && (forall m :: m in s.origins ==> s.subnames[m].target == s.tokens[m].owner)
  }

  /** The inbox of an account lists exactly the subnames on offer to it. */
  ghost predicate Inboxed(s: State) {
    && (forall e :: e in s.inbox ==> e.1 in s.subnames && s.subnames[e.1] == Subname(e.0, Offered))
    && (forall m :: m in s.subnames && s.subnames[m].state.Offered? ==> (s.subnames[m].target, m) in s.inbox)
  }

  /** The origin of a subname is the canonical name it is under. */
  ghost predicate Linked(s: State) {
    forall m :: m in s.origins ==> m.Child? && s.origins[m] == m.parent
  }

  /** Records belong to live tokens; a name not in transit carries its owner, and every name its origin. */
  ghost predicate Recorded(s: State) {
    && (forall k :: k in s.records ==> k.0 in s.tokens)
    && (forall k :: k in s.texts ==> k.0 in s.tokens)
    && (forall n :: n in Names(s) ==> (n, ORIGIN) in s.records)
    && (forall n :: n in Names(s) && n !in s.offers ==>
          (n, SS58) in s.records && s.records[(n, SS58)] == Owner(s.tokens[n].owner))
  }

  ghost predicate Shape(s: State) {
    Registered(s) && Owned(s) && Nested(s) && Inboxed(s) && Linked(s) && Recorded(s)
  }

  ghost predicate Inv(s: State) {
    Money(s) && Shape(s)
  }

  // ---------- Money ----------

  lemma MoneyFrame(s: State, s': State)
    requires Money(s) && s'.deposits == s.deposits && s'.listings == s.listings && s'.bank.held == s.bank.held
    ensures Money(s')
  {
    assert ListingRows(s') == ListingRows(s);
    SolventFrame(s.bank, s'.bank, CleanupDeposit, s.deposits);
    SolventFrame(s.bank, s'.bank, ListingDeposit, ListingRows(s));
  }

  lemma MoneyUnlist(s: State, n: Node)
    requires Money(s)
    ensures Money(Unlist(s, n)) && Total(Unlist(s, n).bank) == Total(s.bank)
  {
    if n in s.listings {
      var s' := Unlist(s, n);
      var seller := s.listings[n].seller;
      SolventUnhold(s.bank, ListingDeposit, ListingRows(s), n, seller);
      assert ListingRows(s') == ListingRows(s) - {n};
      SolventFrame(s.bank, s'.bank, CleanupDeposit, s.deposits);
      UnholdConserves(s.bank, ListingDeposit, seller, seller, LISTING_DEPOSIT);
    }
  }

  lemma MoneyRefund(s: State, n: Node, finder: Account, bounty: nat)
    requires Money(s)
    ensures Money(Refund(s, n, finder, bounty)) && Total(Refund(s, n, finder, bounty).bank) == Total(s.bank)
  {
    if n in s.deposits && bounty <= s.deposits[n].1 {
      var s' := Refund(s, n, finder, bounty);
      SolventPayOut(s.bank, CleanupDeposit, s.deposits, n, finder, bounty);
      assert ListingRows(s') == ListingRows(s);
      SolventFrame(s.bank, s'.bank, ListingDeposit, ListingRows(s));
    }
  }

  lemma MoneyDeposit(s: State, n: Node, who: Account, amount: nat, s': State)
    requires Money(s) && n !in s.deposits && s.bank.Hold(CleanupDeposit, who, amount) == Some(s'.bank)
    requires s'.deposits == s.deposits[n := (who, amount)] && s'.listings == s.listings
    ensures Money(s') && Total(s'.bank) == Total(s.bank)
  {
    SolventHold(s.bank, CleanupDeposit, s.deposits, n, who, amount);
    assert ListingRows(s') == ListingRows(s);
    SolventFrame(s.bank, s'.bank, ListingDeposit, ListingRows(s));
    HoldConserves(s.bank, CleanupDeposit, who, amount);
  }

  lemma MoneyRotate(s: State, n: Node, who: Account, amount: nat)
    requires Money(s) && n in s.deposits && Rotate(s, n, who, amount).Ok?
    ensures Money(Rotate(s, n, who, amount).value) && Total(Rotate(s, n, who, amount).value.bank) == Total(s.bank)
  {
    var s' := Rotate(s, n, who, amount).value;
    var row := s.deposits[n];
    var freed := s.(bank := s.bank.Unhold(CleanupDeposit, row.0, row.0, row.1), deposits := s.deposits - {n});
    SolventUnhold(s.bank, CleanupDeposit, s.deposits, n, row.0);
    UnholdConserves(s.bank, CleanupDeposit, row.0, row.0, row.1);
    assert ListingRows(freed) == ListingRows(s);
    SolventFrame(s.bank, freed.bank, ListingDeposit, ListingRows(s));
    assert freed.deposits[n := (who, amount)] == s'.deposits;
    MoneyDeposit(freed, n, who, amount, s');
  }

  lemma MoneyList(s: State, n: Node, l: Listing, s': State)
    requires Money(s) && n !in s.listings && s.bank.Hold(ListingDeposit, l.seller, LISTING_DEPOSIT) == Some(s'.bank)
    requires s'.deposits == s.deposits && s'.listings == s.listings[n := l]
    ensures Money(s') && Total(s'.bank) == Total(s.bank)
  {
    SolventHold(s.bank, ListingDeposit, ListingRows(s), n, l.seller, LISTING_DEPOSIT);
    assert ListingRows(s') == ListingRows(s)[n := (l.seller, LISTING_DEPOSIT)];
    SolventFrame(s.bank, s'.bank, CleanupDeposit, s.deposits);
    HoldConserves(s.bank, ListingDeposit, l.seller, LISTING_DEPOSIT);
  }

  lemma MoneyCharge(s: State, from: Account, fees: seq<(Account, nat)>, s': State)
    requires Money(s) && s.bank.Charge(from, fees) == Some(s'.bank)
    requires s'.deposits == s.deposits && s'.listings == s.listings
    ensures Money(s') && Total(s'.bank) == Total(s.bank)
  {
    ChargeConserves(s.bank, from, fees);
    MoneyFrame(s, s');
  }

  // ---------- What the parts of a call leave alone ----------

  lemma RotateIsMoney(s: State, n: Node, who: Account, amount: nat, s': State)
    requires n in s.deposits && Rotate(s, n, who, amount) == Ok(s')
    ensures s' == s.(bank := s'.bank, deposits := s.deposits[n := (who, amount)])
  {
  }

  lemma UnlistIsMoney(s: State, n: Node)
    ensures Unlist(s, n) == s.(bank := Unlist(s, n).bank, listings := s.listings - {n})
  {
    if n !in s.listings {
      assert s.listings - {n} == s.listings;
    }
  }

  lemma RefundIsMoney(s: State, n: Node, finder: Account, bounty: nat)
    ensures var s' := Refund(s, n, finder, bounty); s' == s.(bank := s'.bank, deposits := s'.deposits)
  {
  }

  function GoneWith(s: State, n: Node, o: Open): set<Node> {
    if o.fate.Cascade? then {n} + Subnames(s, n) else {n}
  }

  lemma TeardownIsPurge(s: State, n: Node, finder: Account, bounty: nat, o: Open, s': State)
    requires Teardown(s, n, finder, bounty, o) == Ok(s')
    ensures s' == Purge(s, n, GoneWith(s, n, o)).(bank := s'.bank, deposits := s'.deposits, listings := s'.listings)
    ensures n in s.deposits && bounty <= s.deposits[n].1 ==> s'.deposits == s.deposits - {n}
  {
    var s1 := Refund(s, n, finder, bounty);
    RefundIsMoney(s, n, finder, bounty);
    UnlistIsMoney(s1, n);
    RefundDropsRow(s, n, finder, bounty);
    hide Refund, Unlist;
  }

  lemma RefundDropsRow(s: State, n: Node, finder: Account, bounty: nat)
    ensures n in s.deposits && bounty <= s.deposits[n].1 ==> Refund(s, n, finder, bounty).deposits == s.deposits - {n}
  {
  }

  // ---------- Teardown ----------

  /** What a teardown removes: the name, with or without all its subname rows. */
  ghost predicate Removable(s: State, n: Node, gone: set<Node>) {
    n in Names(s) && (gone == {n} + Subnames(s, n) || gone == {n})
  }

  function Purged(s: State, n: Node, gone: set<Node>): State {
    Purge(s, n, gone).(deposits := s.deposits - {n})
  }

  /** The nodes removed with `n` are subnames of `n`. */
  ghost predicate Local(s: State, n: Node, gone: set<Node>) {
    && n in gone && IsName(n)
    && (forall m :: m in gone && m != n ==> IsSubname(m) && m.parent == n)
  }

  lemma GoneIsLocal(s: State, n: Node, gone: set<Node>)
    requires Nested(s) && Removable(s, n, gone)
    ensures Local(s, n, gone)
  {
  }

  lemma PurgedIsRegistered(s: State, n: Node, gone: set<Node>)
    requires Registered(s) && Local(s, n, gone)
    ensures Registered(Purged(s, n, gone))
    ensures Names(Purged(s, n, gone)) == Names(s) - {n}
  {
    assert Names(Purged(s, n, gone)) == Names(s) - {n};
  }

  lemma PurgedIsOwned(s: State, n: Node, gone: set<Node>)
    requires Owned(s) && Local(s, n, gone)
    ensures Owned(Purged(s, n, gone))
  {
    assert Names(Purged(s, n, gone)) == Names(s) - {n};
  }

  lemma PurgedIsNested(s: State, n: Node, gone: set<Node>)
    requires Nested(s) && Inboxed(s) && Local(s, n, gone)
    ensures Nested(Purged(s, n, gone)) && Inboxed(Purged(s, n, gone))
  {
    var t := Purged(s, n, gone);
    assert SubnameTokens(t) == SubnameTokens(s) - gone;
    assert ActiveSubnames(t) == ActiveSubnames(s) - gone;
  }

  lemma PurgedIsLinked(s: State, n: Node, gone: set<Node>)
    requires Linked(s)
    ensures Linked(Purged(s, n, gone))
  {
  }

  lemma PurgedIsRecorded(s: State, n: Node, gone: set<Node>)
    requires Recorded(s) && Local(s, n, gone)
    ensures Recorded(Purged(s, n, gone))
  {
    assert Names(Purged(s, n, gone)) == Names(s) - {n};
  }

  lemma PurgedKeepsShape(s: State, n: Node, gone: set<Node>)
    requires Shape(s) && Removable(s, n, gone)
    ensures Shape(Purged(s, n, gone)) && Names(Purged(s, n, gone)) == Names(s) - {n}
  {
    GoneIsLocal(s, n, gone);
    PurgedIsRegistered(s, n, gone);
    PurgedIsOwned(s, n, gone);
    PurgedIsNested(s, n, gone);
    PurgedIsLinked(s, n, gone);
    PurgedIsRecorded(s, n, gone);
  }

  /** The fields that the shape of a state is about. */
  ghost predicate SameShape(s: State, s': State) {
    && s'.tokens == s.tokens && s'.primary == s.primary && s'.infos.Keys == s.infos.Keys
    && s'.deposits.Keys == s.deposits.Keys && s'.offers == s.offers && s'.official == s.official
    && s'.subnames == s.subnames && s'.inbox == s.inbox && s'.origins == s.origins
    && s'.records == s.records && s'.texts == s.texts
  }

  /** Everything but the records depends only on these fields. */
  lemma RowsFrame(s: State, s': State)
    requires Registered(s) && Owned(s) && Nested(s) && Inboxed(s) && Linked(s)
    requires SameShape(s, s'.(records := s.records, texts := s.texts))
    ensures Registered(s') && Owned(s') && Nested(s') && Inboxed(s') && Linked(s')
  {
    assert Names(s') == Names(s);
    assert SubnameTokens(s') == SubnameTokens(s) && ActiveSubnames(s') == ActiveSubnames(s);
  }

  lemma RecordsFrame(s: State, s': State)
    requires Recorded(s) && SameShape(s, s')
    ensures Recorded(s')
  {
    assert Names(s') == Names(s);
  }

  lemma ShapeFrame(s: State, s': State)
    requires Shape(s) && SameShape(s, s')
    ensures Shape(s')
  {
    hide Registered, Owned, Nested, Inboxed, Linked, Recorded;
    RowsFrame(s, s');
    RecordsFrame(s, s');
  }

  lemma TeardownKeepsMoney(s: State, n: Node, finder: Account, bounty: nat, o: Open)
    requires Money(s) && Teardown(s, n, finder, bounty, o).Ok?
    ensures var s' := Teardown(s, n, finder, bounty, o).value; Money(s') && Total(s'.bank) == Total(s.bank)
  {
    hide Money, Total, Refund, Unlist;
    MoneyRefund(s, n, finder, bounty);
    var s1 := Refund(s, n, finder, bounty);
    MoneyUnlist(s1, n);
    MoneyFrame(UnlistUnless(s1, n, o.keepListing), Teardown(s, n, finder, bounty, o).value);
  }

  lemma TeardownKeeps(s: State, n: Node, finder: Account, bounty: nat, o: Open)
    requires Inv(s) && n in Names(s) && bounty <= s.deposits[n].1
    requires Teardown(s, n, finder, bounty, o).Ok?
    ensures var s' := Teardown(s, n, finder, bounty, o).value;
            Inv(s') && Total(s'.bank) == Total(s.bank) && Names(s') == Names(s) - {n}
  {
    hide Money, Total, Refund, Unlist, Purge, PayOut;
    var s' := Teardown(s, n, finder, bounty, o).value;
    var gone := GoneWith(s, n, o);
    assert n in s.deposits;
    hide Shape;
    TeardownIsPurge(s, n, finder, bounty, o, s');
    TeardownKeepsMoney(s, n, finder, bounty, o);
    PurgedKeepsShape(s, n, gone);
    ShapeFrame(Purged(s, n, gone), s');
    assert Names(s') == Names(Purged(s, n, gone));
  }

  // ---------- Changes of owner ----------

  /** A fresh name and its first owner. */
  ghost predicate Grants(s: State, n: Node, who: Account, s': State) {
    && IsName(n) && n !in s.tokens && who !in s.primary
    && s'.official == s.official && s'.offers == s.offers && s'.subnames == s.subnames
    && s'.inbox == s.inbox && s'.origins == s.origins && s'.texts == s.texts
    && s'.tokens == s.tokens[n := Token(who, 0)]
    && s'.primary == s.primary[who := n]
    && s'.infos.Keys == s.infos.Keys + {n} && s'.deposits.Keys == s.deposits.Keys + {n}
    && (n, ORIGIN) in s'.records
    && s'.records == s.records[(n, SS58) := Owner(who)][(n, ORIGIN) := s'.records[(n, ORIGIN)]]
  }

  lemma GrantKeepsKinds(s: State, n: Node, who: Account, s': State)
    requires Registered(s) && Grants(s, n, who, s')
    ensures Registered(s') && Names(s') == Names(s) + {n} && n !in s.offers
  {
    assert Names(s') == Names(s) + {n};
  }

  lemma GrantKeepsOwners(s: State, n: Node, who: Account, s': State)
    requires Owned(s) && Grants(s, n, who, s') && Names(s') == Names(s) + {n} && n !in s.offers
    ensures Owned(s')
  {
  }

  lemma GrantKeepsRows(s: State, n: Node, who: Account, s': State)
    requires Nested(s) && Inboxed(s) && Linked(s) && Grants(s, n, who, s')
    ensures Nested(s') && Inboxed(s') && Linked(s')
  {
    assert SubnameTokens(s') == SubnameTokens(s);
    assert ActiveSubnames(s') == ActiveSubnames(s);
  }

  lemma GrantKeepsRecords(s: State, n: Node, who: Account, s': State)
    requires Recorded(s) && Grants(s, n, who, s') && Names(s') == Names(s) + {n} && n !in s.offers
    ensures Recorded(s')
  {
  }

  lemma GrantKeepsShape(s: State, n: Node, who: Account, s': State)
    requires Shape(s) && Grants(s, n, who, s')
    ensures Shape(s') && Names(s') == Names(s) + {n}
  {
    GrantKeepsKinds(s, n, who, s');
    GrantKeepsOwners(s, n, who, s');
    GrantKeepsRows(s, n, who, s');
    GrantKeepsRecords(s, n, who, s');
  }

  function PrimaryWithout(s: State, n: Node): map<Account, Node> {
    map a | a in s.primary && s.primary[a] != n :: s.primary[a]
  }

  lemma OwnerIsOnlyHolder(s: State, n: Node)
    requires Owned(s) && n in Names(s)
    ensures n !in s.offers ==> s.primary - {s.tokens[n].owner} == PrimaryWithout(s, n)
    ensures n in s.offers ==> s.primary == PrimaryWithout(s, n)
  {
  }

  /** What every change of owner of the name `n` has in common. */
  ghost predicate Conveys(s: State, n: Node, who: Account, s': State) {
    && n in Names(s)
    && s'.official == s.official && s'.subnames == s.subnames && s'.inbox == s.inbox && s'.origins == s.origins
    && s'.tokens == s.tokens[n := s.tokens[n].(owner := who)]
    && s'.infos.Keys == s.infos.Keys && s'.deposits.Keys == s.deposits.Keys
  }

  /** Records of other nodes and the origin stay; nothing is written but the owner record. */
  ghost predicate KeepsRecords(s: State, n: Node, s': State) {
    && (forall k :: k in s'.texts ==> k in s.texts)
    && (forall k :: k in s'.records ==> k in s.records || k == (n, SS58))
    && (forall k :: k in s.records && (k.0 != n || k.1 == ORIGIN) ==> k in s'.records && s'.records[k] == s.records[k])
  }

  /** The name is now the primary name of `who`. */
  ghost predicate Settles(s: State, n: Node, who: Account, s': State) {
    && who !in PrimaryWithout(s, n)
    && s'.primary == PrimaryWithout(s, n)[who := n]
    && s'.offers == s.offers - {n}
    && (n, SS58) in s'.records && s'.records[(n, SS58)] == Owner(who)
  }

  /** The name is now a gift in transit. */
  ghost predicate Offers(s: State, n: Node, s': State) {
    s'.primary == PrimaryWithout(s, n) && s'.offers.Keys == s.offers.Keys + {n}
  }

  lemma ConveyKeepsKinds(s: State, n: Node, who: Account, s': State)
    requires Registered(s) && Conveys(s, n, who, s') && s'.offers.Keys <= s.offers.Keys + {n}
    ensures Registered(s') && Names(s') == Names(s) && SubnameTokens(s') == SubnameTokens(s) && n !in SubnameTokens(s)
  {
    assert Names(s') == Names(s);
    assert SubnameTokens(s') == SubnameTokens(s);
  }

  lemma ConveyKeepsRows(s: State, n: Node, who: Account, s': State)
    requires Nested(s) && Inboxed(s) && Linked(s) && Conveys(s, n, who, s')
    requires Names(s') == Names(s) && SubnameTokens(s') == SubnameTokens(s) && n !in SubnameTokens(s)
    ensures Nested(s') && Inboxed(s') && Linked(s')
  {
    assert ActiveSubnames(s') == ActiveSubnames(s);
  }

  lemma SettleKeepsOwners(s: State, n: Node, who: Account, s': State)
    requires Owned(s) && Conveys(s, n, who, s') && Names(s') == Names(s) && Settles(s, n, who, s')
    ensures Owned(s')
  {
  }

  lemma OfferKeepsOwners(s: State, n: Node, who: Account, s': State)
    requires Owned(s) && Conveys(s, n, who, s') && Names(s') == Names(s) && Offers(s, n, s')
    ensures Owned(s')
  {
  }

  lemma ConveyKeepsRecords(s: State, n: Node, who: Account, s': State)
    requires Recorded(s) && Conveys(s, n, who, s') && Names(s') == Names(s) && KeepsRecords(s, n, s')
    requires Offers(s, n, s') || Settles(s, n, who, s')
    ensures Recorded(s')
  {
  }

  lemma ConveyKeepsShape(s: State, n: Node, who: Account, s': State)
    requires Shape(s) && Conveys(s, n, who, s') && KeepsRecords(s, n, s')
    requires Offers(s, n, s') || Settles(s, n, who, s')
    ensures Shape(s')
  {
    ConveyKeepsKinds(s, n, who, s');
    ConveyKeepsRows(s, n, who, s');
    if Offers(s, n, s') {
      OfferKeepsOwners(s, n, who, s');
    } else {
      SettleKeepsOwners(s, n, who, s');
    }
    ConveyKeepsRecords(s, n, who, s');
  }

  // ---------- Subnames ----------

  /** The parts of a state that subname calls leave alone. */
  ghost predicate OutsideSubnames(s: State, s': State) {
    && s'.primary == s.primary && s'.infos == s.infos && s'.deposits == s.deposits && s'.offers == s.offers
    && s'.official == s.official && s'.bank == s.bank && s'.listings == s.listings
  }

  /** A change to a row that is not, and does not become, an active subname. */
  ghost predicate ChangesRow(s: State, m: Node, row: Subname, s': State) {
    && IsSubname(m) && !row.state.Active?
    && (m in s.subnames ==> !s.subnames[m].state.Active?)
    && s' == s.(subnames := s.subnames[m := row], inbox := s'.inbox)
    && s'.inbox == Uninbox(s, m) + if row.state.Offered? then {(row.target, m)} else {}
  }

  lemma RowChangeKeepsShape(s: State, m: Node, row: Subname, s': State)
    requires Shape(s) && ChangesRow(s, m, row, s')
    ensures Shape(s')
  {
    hide Registered, Owned, Nested, Inboxed, Linked, Recorded;
    RowChangeKeepsRows(s, m, row, s');
    RowChangeKeepsRest(s, m, row, s');
  }

  lemma RowChangeKeepsRest(s: State, m: Node, row: Subname, s': State)
    requires Registered(s) && Owned(s) && Recorded(s) && ChangesRow(s, m, row, s')
    ensures Registered(s') && Owned(s') && Recorded(s') && Names(s') == Names(s)
  {
    assert Names(s') == Names(s);
  }

  lemma RowChangeKeepsRows(s: State, m: Node, row: Subname, s': State)
    requires Nested(s) && Inboxed(s) && Linked(s) && ChangesRow(s, m, row, s')
    ensures Nested(s') && Inboxed(s') && Linked(s')
  {
    assert SubnameTokens(s') == SubnameTokens(s) && ActiveSubnames(s') == ActiveSubnames(s);
    assert m !in ActiveSubnames(s);
  }

  lemma KeepsNames(s: State, s': State)
    requires Registered(s) && Owned(s)
    requires OutsideSubnames(s, s') && Names(s') == Names(s)
    requires forall n :: n in s'.tokens ==> n in s.tokens || IsSubname(n)
    requires forall n :: n in s.tokens && !IsSubname(n) ==> n in s'.tokens && s'.tokens[n].owner == s.tokens[n].owner
    ensures Registered(s') && Owned(s')
  {
  }

  // Taking up a subname.

  ghost predicate TakesUp(s: State, p: Node, m: Node, who: Account, s': State) {
    && IsSubname(m) && m.parent == p && p in Names(s)
    && m in s.subnames && s.subnames[m] == Subname(who, Offered)
    && OutsideSubnames(s, s')
    && s'.tokens == s.tokens[p := s.tokens[p].(children := s.tokens[p].children + 1)][m := Token(who, 0)]
    && s'.origins == s.origins[m := p] && s'.subnames == s.subnames[m := Subname(who, Active)]
    && s'.inbox == Uninbox(s, m) && s'.records == s.records && s'.texts == s.texts
  }

  lemma TakeUpKeepsNames(s: State, p: Node, m: Node, who: Account, s': State)
    requires Registered(s) && Owned(s) && TakesUp(s, p, m, who, s')
    ensures Registered(s') && Owned(s') && Names(s') == Names(s)
  {
    assert Names(s') == Names(s);
    KeepsNames(s, s');
  }

  lemma TakeUpKeepsRecords(s: State, p: Node, m: Node, who: Account, s': State)
    requires Recorded(s) && TakesUp(s, p, m, who, s') && Names(s') == Names(s)
    ensures Recorded(s')
  {
  }

  lemma TakeUpIsNew(s: State, p: Node, m: Node, who: Account, s': State)
    requires Nested(s) && TakesUp(s, p, m, who, s')
    ensures m !in s.tokens && m !in s.origins
    ensures SubnameTokens(s') == SubnameTokens(s) + {m} && ActiveSubnames(s') == ActiveSubnames(s) + {m}
  {
    assert m !in ActiveSubnames(s) && m !in SubnameTokens(s);
  }

  lemma TakeUpKeepsRows(s: State, p: Node, m: Node, who: Account, s': State)
    requires Nested(s) && Inboxed(s) && Linked(s) && TakesUp(s, p, m, who, s') && m !in s.tokens
    requires SubnameTokens(s') == SubnameTokens(s) + {m} && ActiveSubnames(s') == ActiveSubnames(s) + {m}
    ensures Nested(s') && Inboxed(s') && Linked(s')
  {
    hide SubnameTokens, ActiveSubnames;
  }

  lemma TakeUpKeepsShape(s: State, p: Node, m: Node, who: Account, s': State)
    requires Shape(s) && TakesUp(s, p, m, who, s')
    ensures Shape(s')
  {
    hide Registered, Owned, Nested, Inboxed, Linked, Recorded, TakesUp;
    TakeUpKeepsNames(s, p, m, who, s');
    TakeUpKeepsRecords(s, p, m, who, s');
    TakeUpIsNew(s, p, m, who, s');
    TakeUpKeepsRows(s, p, m, who, s');
  }

  // Giving up a subname, or a row of one.

  lemma DropKeepsNames(s: State, p: Node, m: Node)
    requires Registered(s) && Owned(s) && IsSubname(m) && m.parent == p
    ensures var s' := DropSubname(s, p, m); Registered(s') && Owned(s') && Names(s') == Names(s)
  {
    var s' := DropSubname(s, p, m);
    assert Names(s') == Names(s);
    KeepsNames(s, s');
  }

  lemma DropKeepsRecords(s: State, p: Node, m: Node)
    requires Recorded(s) && IsSubname(m) && Names(DropSubname(s, p, m)) == Names(s)
    ensures Recorded(DropSubname(s, p, m))
  {
  }

  lemma DropKeepsRows(s: State, p: Node, m: Node)
    requires Nested(s) && Inboxed(s) && Linked(s) && IsSubname(m) && m.parent == p
    ensures var s' := DropSubname(s, p, m); Nested(s') && Inboxed(s') && Linked(s')
  {
    var s' := DropSubname(s, p, m);
    assert SubnameTokens(s') == SubnameTokens(s) - {m} && ActiveSubnames(s') == ActiveSubnames(s) - {m};
  }

  lemma DropKeeps(s: State, p: Node, m: Node)
    requires Inv(s) && IsSubname(m) && m.parent == p
    ensures Inv(DropSubname(s, p, m)) && Total(DropSubname(s, p, m).bank) == Total(s.bank)
  {
    DropKeepsNames(s, p, m);
    DropKeepsRecords(s, p, m);
    DropKeepsRows(s, p, m);
    MoneyFrame(s, DropSubname(s, p, m));
  }
}
