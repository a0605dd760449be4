/** What calls undo, what they pay and to whom, and which calls can end a listing. */
module PnsEffects {
  import opened Wrappers
  import opened Balances
  import opened PnsTypes
  import opened PnsSteps
  import opened PnsInvariants
  import opened PnsRuns
  import opened PnsTree

  /** The same balances for everyone. */
  ghost predicate SameBalances(b: Bank, b': Bank) {
    && (forall a :: b'.Free(a) == b.Free(a))
    && (forall r, a :: b'.Held(r, a) == b.Held(r, a))
  }

  // ---------- Round trips ----------

  /** Cancelling a fresh listing undoes it, deposit and all. */
  lemma ListThenCancel(s: State, caller: Account, price: nat, expiresAt: nat, o: Open)
    requires caller in s.primary && s.primary[caller] !in s.listings
    requires CreateListing(s, caller, price, expiresAt, o).Ok?
    ensures var s1 := CreateListing(s, caller, price, expiresAt, o).value;
            CancelListing(s1, caller).Ok? &&
            var s2 := CancelListing(s1, caller).value;
            s2 == s.(bank := s2.bank) && SameBalances(s.bank, s2.bank)
  {
    var s1 := CreateListing(s, caller, price, expiresAt, o).value;
    var s2 := CancelListing(s1, caller).value;
    assert s2.listings == s.listings;
  }

  /** No trace of `m` is stored. */
  lemma NoTrace(s: State, m: Node)
    requires Inv(s) && IsSubname(m) && m !in s.subnames
    ensures m !in s.tokens && m !in s.origins
    ensures forall e :: e in s.inbox ==> e.1 != m
    ensures forall k :: k in s.records ==> k.0 != m
    ensures forall k :: k in s.texts ==> k.0 != m
  {
    assert m !in SubnameTokens(s) && m !in ActiveSubnames(s);
  }

  lemma UninboxNew(s: State, m: Node, target: Account, inbox: set<(Account, Node)>)
    requires forall e :: e in s.inbox ==> e.1 != m
    ensures Uninbox(s, m) == s.inbox
    ensures s.inbox + {(target, m)} - {(target, m)} == s.inbox
    ensures Uninbox(s.(inbox := s.inbox + {(target, m)}), m) == s.inbox
  {
  }

  ghost predicate FreshSubname(s: State, caller: Account, name: Label, target: Account) {
    && caller in s.primary && IsName(s.primary[caller])
    && target != caller && Child(s.primary[caller], name) !in s.subnames
  }

  function WithOffer(s: State, m: Node, target: Account): State {
    s.(subnames := s.subnames[m := Subname(target, Offered)], inbox := s.inbox + {(target, m)})
  }

  function WithActive(s: State, m: Node, target: Account): State
    requires m.Child? && m.parent in s.tokens
  {
    var p := s.tokens[m.parent];
    s.(tokens := s.tokens[m.parent := p.(children := p.children + 1)][m := Token(target, 0)],
       origins := s.origins[m := m.parent],
       subnames := s.subnames[m := Subname(target, Active)])
  }

  function WithRejected(s: State, m: Node, target: Account): State {
    s.(subnames := s.subnames[m := Subname(target, Rejected)])
  }

  /** Nothing at all is stored under `m`, a subname of the primary name of `caller`. */
  ghost predicate Vacant(s: State, caller: Account, m: Node) {
    && caller in s.primary && s.primary[caller] in s.tokens
    && IsSubname(m) && m.parent == s.primary[caller]
    && m !in s.subnames && m !in s.tokens && m !in s.origins
    && (forall e :: e in s.inbox ==> e.1 != m)
    && (forall k :: k in s.records ==> k.0 != m)
    && (forall k :: k in s.texts ==> k.0 != m)
  }

  lemma FreshIsVacant(s: State, caller: Account, name: Label, target: Account)
    requires Inv(s) && FreshSubname(s, caller, name, target)
    ensures Vacant(s, caller, Child(s.primary[caller], name))
  {
    NoTrace(s, Child(s.primary[caller], name));
    PrimaryFacts(s, caller);
    hide Inv;
  }

  lemma OfferVacant(s: State, caller: Account, name: Label, target: Account)
    requires caller in s.primary && target != caller && Vacant(s, caller, Child(s.primary[caller], name))
    ensures OfferSubname(s, caller, name, target) == Ok(WithOffer(s, Child(s.primary[caller], name), target))
  {
    UninboxNew(s, Child(s.primary[caller], name), target, s.inbox);
  }

  lemma AcceptVacant(s: State, caller: Account, m: Node, target: Account)
    requires Vacant(s, caller, m)
    ensures AcceptSubname(WithOffer(s, m, target), target, m.parent.name, m.name) == Ok(WithActive(s, m, target))
    ensures RejectSubname(WithOffer(s, m, target), target, m.parent.name, m.name) == Ok(WithRejected(s, m, target))
  {
    UninboxNew(s, m, target, s.inbox);
    var s1 := WithOffer(s, m, target);
    assert Uninbox(s1, m) == s.inbox;
    assert s1.subnames[m := Subname(target, Active)] == s.subnames[m := Subname(target, Active)];
    assert s1.subnames[m := Subname(target, Rejected)] == s.subnames[m := Subname(target, Rejected)];
  }

  lemma PutDrop<K, V>(m: map<K, V>, k: K, v: V)
    requires k !in m
    ensures m[k := v] - {k} == m
  {
  }

  lemma PutPutDrop<K, V>(m: map<K, V>, j: K, u: V, k: K, v: V)
    requires k !in m && j in m
    ensures (m[j := u][k := v] - {k})[j := m[j]] == m
  {
  }

  lemma DropVacantActive(s: State, caller: Account, m: Node, target: Account)
    requires Vacant(s, caller, m)
    ensures DropSubname(WithActive(s, m, target), m.parent, m) == s
  {
    var s' := DropSubname(WithActive(s, m, target), m.parent, m);
    var p := s.tokens[m.parent];
    PutPutDrop(s.tokens, m.parent, p.(children := p.children + 1), m, Token(target, 0));
    PutDrop(s.origins, m, m.parent);
    PutDrop(s.subnames, m, Subname(target, Active));
    assert s'.inbox == s.inbox && s'.records == s.records && s'.texts == s.texts;
  }

  lemma DropVacantRejected(s: State, caller: Account, m: Node, target: Account)
    requires Vacant(s, caller, m)
    ensures DropSubname(WithRejected(s, m, target), m.parent, m) == s
  {
    var s' := DropSubname(WithRejected(s, m, target), m.parent, m);
    assert s'.tokens == s.tokens && s'.origins == s.origins;
    PutDrop(s.subnames, m, Subname(target, Rejected));
    assert s'.inbox == s.inbox && s'.records == s.records && s'.texts == s.texts;
  }

  /** Offering a subname, taking it up and giving it up or losing it again leaves no trace. */
  lemma OfferAcceptRelease(s: State, caller: Account, name: Label, target: Account)
    requires Inv(s) && FreshSubname(s, caller, name, target)
    ensures var p := s.primary[caller].name;
            var s1 := OfferSubname(s, caller, name, target);
            s1.Ok? && var s2 := AcceptSubname(s1.value, target, p, name);
            s2.Ok? && ReleaseSubname(s2.value, target, p, name) == Ok(s)
                   && RevokeSubname(s2.value, caller, name) == Ok(s)
  {
    var m := Child(s.primary[caller], name);
    FreshIsVacant(s, caller, name, target);
    OfferVacant(s, caller, name, target);
    AcceptVacant(s, caller, m, target);
    GiveUpActive(s, caller, m, target);
    hide Inv, Vacant, OfferSubname, AcceptSubname, ReleaseSubname, RevokeSubname, WithOffer, WithActive;
  }

  lemma GiveUpActive(s: State, caller: Account, m: Node, target: Account)
    requires Vacant(s, caller, m)
    ensures ReleaseSubname(WithActive(s, m, target), target, m.parent.name, m.name) == Ok(s)
    ensures RevokeSubname(WithActive(s, m, target), caller, m.name) == Ok(s)
  {
    DropVacantActive(s, caller, m, target);
    hide DropSubname;
  }

  lemma ClearRejected(s: State, caller: Account, m: Node, target: Account)
    requires Vacant(s, caller, m)
    ensures RevokeSubname(WithRejected(s, m, target), caller, m.name) == Ok(s)
  {
    DropVacantRejected(s, caller, m, target);
    hide DropSubname;
  }

  /** A rejected offer stays visible to the parent's owner, who can clear it away completely. */
  lemma OfferRejectRevoke(s: State, caller: Account, name: Label, target: Account)
    requires Inv(s) && FreshSubname(s, caller, name, target)
    ensures var p := s.primary[caller].name;
            var m := Child(s.primary[caller], name);
            var s1 := OfferSubname(s, caller, name, target);
            s1.Ok? && var s2 := RejectSubname(s1.value, target, p, name);
            s2.Ok? && m in s2.value.subnames && s2.value.subnames[m].state == Rejected
                   && s2.value.inbox == s.inbox && RevokeSubname(s2.value, caller, name) == Ok(s)
  {
    var m := Child(s.primary[caller], name);
    FreshIsVacant(s, caller, name, target);
    OfferVacant(s, caller, name, target);
    AcceptVacant(s, caller, m, target);
    ClearRejected(s, caller, m, target);
    hide Inv, Vacant, OfferSubname, RejectSubname, RevokeSubname, WithOffer;
  }

  // ---------- Giving a name up ----------

  /** Nothing at all is stored under `n`, the marketplace aside. */
  ghost predicate Traceless(s: State, n: Node) {
    && n !in s.tokens && n !in s.infos && n !in s.deposits && n !in s.offers
    && n !in s.origins && n !in s.subnames
    && (forall a :: a in s.primary ==> s.primary[a] != n)
    && (forall e :: e in s.inbox ==> e.1 != n)
    && (forall k :: k in s.records ==> k.0 != n)
    && (forall k :: k in s.texts ==> k.0 != n)
  }

  /**
   Nothing of a name that is given up is left but its listing, and that exactly where listings outlive
   names. Its subnames, in whatever state, are gone without a trace if they go with it, and if not their
   rows are what they were.
   */
  lemma ReleaseLeavesNothing(s: State, caller: Account, o: Open, s': State)
    requires Inv(s) && ReleaseName(s, caller, o) == Ok(s')
    ensures caller in s.primary && caller !in s'.primary
    ensures var n := s.primary[caller];
            && Traceless(s', n)
            && (n in s'.listings <==> n in s.listings && o.keepListing)
            && (o.fate.Cascade? ==> forall m :: IsSubname(m) && m.parent == n ==> Traceless(s', m))
            && (!o.fate.Cascade? ==> s'.subnames == s.subnames && s'.origins == s.origins && s'.inbox == s.inbox
                                     && forall m :: IsSubname(m) ==> (m in s'.tokens <==> m in s.tokens))
  {
    var n := s.primary[caller];
    PrimaryFacts(s, caller);
    TeardownKeeps(s, n, caller, 0, o);
    TeardownIsPurge(s, n, caller, 0, o, s');
    TeardownListings(s, n, caller, 0, o, s');
    hide Inv;
    NotStored(s', n);
    if o.fate.Cascade? {
      forall m | IsSubname(m) && m.parent == n ensures Traceless(s', m) {
        assert m !in s'.subnames;
        NoTrace(s', m);
        NotStored(s', m);
      }
    } else {
      KeepsSubnames(s, n, s');
    }
  }

  lemma NotStored(s: State, n: Node)
    requires Inv(s) && n !in s.tokens && n !in s.subnames
    ensures Traceless(s, n)
  {
    assert n !in Names(s) && n !in SubnameTokens(s);
    hide Money;
  }

  lemma KeepsSubnames(s: State, n: Node, s': State)
    requires Inv(s) && IsName(n)
    requires s'.tokens == s.tokens - {n} && s'.subnames == s.subnames - {n} && s'.origins == s.origins - {n}
    requires s'.inbox == Unboxed(s.inbox, {n})
    ensures s'.subnames == s.subnames && s'.origins == s.origins && s'.inbox == s.inbox
    ensures forall m :: IsSubname(m) ==> (m in s'.tokens <==> m in s.tokens)
  {
    assert n !in s.subnames && n !in SubnameTokens(s) && n !in s.origins.Keys;
    hide Money;
    assert s'.inbox == s.inbox;
  }

  lemma TeardownListings(s: State, n: Node, finder: Account, bounty: nat, o: Open, s': State)
    requires Teardown(s, n, finder, bounty, o) == Ok(s')
    ensures s'.listings == if o.keepListing then s.listings else s.listings - {n}
  {
    UnlistIsMoney(Refund(s, n, finder, bounty), n);
    RefundIsMoney(s, n, finder, bounty);
    hide Refund, Unlist;
  }

  /** What a teardown does with money: the cleanup deposit, and the listing deposit unless the listing stays. */
  function TeardownBank(s: State, n: Node, finder: Account, bounty: nat, o: Open): Bank
    requires n in s.deposits && bounty <= s.deposits[n].1
  {
    var b := PayOut(s.bank, CleanupDeposit, s.deposits[n], finder, bounty);
    if o.keepListing || n !in s.listings then b
    else b.Unhold(ListingDeposit, s.listings[n].seller, s.listings[n].seller, LISTING_DEPOSIT)
  }

  lemma TeardownIsBank(s: State, n: Node, finder: Account, bounty: nat, o: Open, s': State)
    requires n in s.deposits && bounty <= s.deposits[n].1 && Teardown(s, n, finder, bounty, o) == Ok(s')
    ensures s'.bank == TeardownBank(s, n, finder, bounty, o)
  {
    hide PayOut;
  }

  lemma HoldCoversRow(s: State, n: Node)
    requires Money(s)
    ensures n in s.deposits ==> s.deposits[n].1 <= s.bank.Held(CleanupDeposit, s.deposits[n].0)
    ensures n in s.listings ==> LISTING_DEPOSIT <= s.bank.Held(ListingDeposit, s.listings[n].seller)
  {
    if n in s.deposits {
      SolventUnhold(s.bank, CleanupDeposit, s.deposits, n, 0);
    }
    if n in s.listings {
      SolventUnhold(s.bank, ListingDeposit, ListingRows(s), n, 0);
    }
  }

  lemma UnholdPays(b: Bank, reason: HoldReason, who: Account, amount: nat, a: Account)
    requires amount <= b.Held(reason, who)
    ensures b.Unhold(reason, who, who, amount).Free(a) == b.Free(a) + If(a == who, amount)
    ensures reason != CleanupDeposit ==>
      b.Unhold(reason, who, who, amount).Held(CleanupDeposit, a) == b.Held(CleanupDeposit, a)
  {
  }

  /** The listing deposit that a teardown sends back, and to whom. */
  function Relisted(s: State, n: Node, o: Open, a: Account): nat {
    If(!o.keepListing && n in s.listings && a == s.listings[n].seller, LISTING_DEPOSIT)
  }

  /** A teardown pays the recorded deposit out, all of it: to the finder the bounty, to the depositor the rest. */
  lemma TeardownPays(s: State, n: Node, finder: Account, bounty: nat, o: Open, s': State, a: Account)
    requires Money(s) && n in s.deposits && bounty <= s.deposits[n].1 && Teardown(s, n, finder, bounty, o) == Ok(s')
    ensures var row := s.deposits[n];
            && s'.bank.Free(a) == s.bank.Free(a) + If(a == finder, bounty) + If(a == row.0, row.1 - bounty)
                                  + Relisted(s, n, o, a)
            && s'.bank.Held(CleanupDeposit, a) + If(a == row.0, row.1) == s.bank.Held(CleanupDeposit, a)
  {
    TeardownIsBank(s, n, finder, bounty, o, s');
    HoldCoversRow(s, n);
    hide Teardown, Money, PayOut;
    var b := PayOut(s.bank, CleanupDeposit, s.deposits[n], finder, bounty);
    PayOutPays(s.bank, CleanupDeposit, s.deposits[n], finder, bounty, a);
    if n in s.listings {
      PayOutPays(s.bank, CleanupDeposit, s.deposits[n], finder, bounty, s.listings[n].seller);
      UnholdPays(b, ListingDeposit, s.listings[n].seller, LISTING_DEPOSIT, a);
    }
  }

  /** Giving a name up sends its deposit back as recorded, whatever prices are now, to whoever is recorded for it. */
  lemma ReleaseRefundsRecord(s: State, caller: Account, o: Open, s': State, a: Account)
    requires Inv(s) && ReleaseName(s, caller, o) == Ok(s')
    ensures caller in s.primary && s.primary[caller] in s.deposits
    ensures var (n, row) := (s.primary[caller], s.deposits[s.primary[caller]]);
            && s'.bank.Free(a) == s.bank.Free(a) + If(a == row.0, row.1) + Relisted(s, n, o, a)
            && s'.bank.Held(CleanupDeposit, a) + If(a == row.0, row.1) == s.bank.Held(CleanupDeposit, a)
  {
    PrimaryFacts(s, caller);
    hide Inv, Teardown, Money;
    MoneyPart(s);
    TeardownPays(s, s.primary[caller], caller, 0, o, s', a);
  }

  /** A teardown of `n` is not refused for the sake of its subnames. */
  predicate MayGo(s: State, n: Node, o: Open) {
    n in s.tokens && (o.fate.Refuse? ==> s.tokens[n].children == 0)
  }

  /** What clean-up of `n` by `caller` is worth to `a`: the bounty, the rest of the deposit, a listing deposit. */
  function Gain(s: State, caller: Account, n: Node, o: Open, a: Account): nat
    requires n in s.deposits
  {
    var row := s.deposits[n];
    var bounty := BountyFrom(row.1, o.bounty);
    If(a == caller, bounty) + If(a == row.0, row.1 - bounty) + Relisted(s, n, o, a)
  }

  /**
   Clean-up takes a name exactly when it is due and its subnames do not stand in the way. Whoever found it
   is paid out of the deposit recorded for it, and the depositor gets the rest; otherwise nothing changes.
   */
  lemma CleanupPaysFinder(s: State, caller: Account, deadline: nat, n: Node, o: Open, a: Account)
    requires Inv(s)
    ensures var s' := CleanupOne(s, caller, deadline, n, o);
            if Due(s, deadline, n) && MayGo(s, n, o) then
              && n !in s'.tokens
              && s'.bank.Free(a) == s.bank.Free(a) + Gain(s, caller, n, o, a)
              && s'.bank.Held(CleanupDeposit, a) + Share(s.deposits[n], a) == s.bank.Held(CleanupDeposit, a)
            else s' == s
    ensures Due(s, deadline, n) && s.deposits[n].1 > 0 ==> 0 < BountyFrom(s.deposits[n].1, o.bounty) <= s.deposits[n].1
  {
    var s' := CleanupOne(s, caller, deadline, n, o);
    if Due(s, deadline, n) && MayGo(s, n, o) {
      hide Inv, Money;
      MoneyPart(s);
      var bounty := BountyFrom(s.deposits[n].1, o.bounty);
      assert Teardown(s, n, caller, bounty, o) == Ok(s') by { TeardownGoes(s, n, caller, bounty, o); }
      hide Teardown;
      TeardownIsPurge(s, n, caller, bounty, o, s');
      TeardownPays(s, n, caller, bounty, o, s', a);
      hide Relisted;
    } else if Due(s, deadline, n) {
      hide Inv;
      TeardownGoes(s, n, caller, BountyFrom(s.deposits[n].1, o.bounty), o);
      hide Teardown;
    }
  }

  lemma TeardownGoes(s: State, n: Node, finder: Account, bounty: nat, o: Open)
    ensures Teardown(s, n, finder, bounty, o).Ok? <==> MayGo(s, n, o)
  {
    hide Purge, Refund, UnlistUnless;
  }

  /**
   Anyone may clear away a listing, but only once its grace is over; the finder's bounty comes out
   of the listing deposit and the rest goes back to the seller.
   */
  lemma CleanupListingPaysFinder(s: State, caller: Account, name: Label, o: Open, a: Account)
    requires Inv(s)
    ensures var n := NameHash(name);
            CleanupListing(s, caller, name, o).Ok?
            <==> n in s.listings && SaturatingAdd(s.listings[n].expiresAt, LISTING_GRACE) <= s.now
    ensures var (n, r) := (NameHash(name), CleanupListing(s, caller, name, o));
            r.Ok? ==>
              var (seller, bounty) := (s.listings[n].seller, BountyFrom(LISTING_DEPOSIT, o.bounty));
              && 0 < bounty <= LISTING_DEPOSIT && n !in r.value.listings
              && r.value.bank.Free(a)
                 == s.bank.Free(a) + If(a == caller, bounty) + If(a == seller, LISTING_DEPOSIT - bounty)
              && r.value.bank.Held(ListingDeposit, a) + If(a == seller, LISTING_DEPOSIT)
                 == s.bank.Held(ListingDeposit, a)
  {
    var n := NameHash(name);
    if n in s.listings {
      hide Inv, Money;
      MoneyPart(s);
      HoldCoversRow(s, n);
      hide PayOut;
      PayOutPays(s.bank, ListingDeposit, (s.listings[n].seller, LISTING_DEPOSIT), caller,
                 BountyFrom(LISTING_DEPOSIT, o.bounty), a);
    }
  }

  // ---------- Handing a name on ----------

  lemma RotateMoves(s: State, n: Node, who: Account, amount: nat, s': State, a: Account)
    requires n in s.deposits && Rotate(s, n, who, amount) == Ok(s')
    requires s.deposits[n].1 <= s.bank.Held(CleanupDeposit, s.deposits[n].0)
    ensures s'.bank.Free(a) + If(a == who, amount) == s.bank.Free(a) + Share(s.deposits[n], a)
  {
  }

  lemma UnlistMoves(s: State, n: Node, a: Account)
    requires n in s.listings && LISTING_DEPOSIT <= s.bank.Held(ListingDeposit, s.listings[n].seller)
    ensures Unlist(s, n).deposits == s.deposits
    ensures Unlist(s, n).bank.Held(CleanupDeposit, a) == s.bank.Held(CleanupDeposit, a)
    ensures Unlist(s, n).bank.Free(a) == s.bank.Free(a) + If(a == s.listings[n].seller, LISTING_DEPOSIT)
  {
  }

  /** When one row takes the place of another, the holds of every account follow it. */
  lemma HoldsFollowRow(s: State, s': State, n: Node, row: (Account, nat), who: Account)
    requires Money(s) && Money(s') && n in s.deposits && s'.deposits == s.deposits[n := row]
    ensures s'.bank.Held(CleanupDeposit, who) + Share(s.deposits[n], who)
         == s.bank.Held(CleanupDeposit, who) + Share(row, who)
  {
    OwedDrop(s.deposits, n, who);
    OwedPut(s.deposits, n, row, who);
    hide Owed;
    assert s.bank.Held(CleanupDeposit, who) == Owed(s.deposits, who);
    assert s'.bank.Held(CleanupDeposit, who) == Owed(s'.deposits, who);
  }

  lemma MoneyPart(s: State)
    requires Inv(s)
    ensures Money(s) && s.deposits.Keys <= s.tokens.Keys
  {
    assert s.deposits.Keys == Names(s);
  }

  /** The recorded deposit moves from its depositor to the recipient, who is now recorded for it. */
  lemma TransferMovesDeposit(s: State, caller: Account, to: Account, o: Open, s': State, who: Account)
    requires Inv(s) && Transfer(s, caller, to, o) == Ok(s')
    ensures caller in s.primary && s.primary[caller] in s.deposits
    ensures var (n, row) := (s.primary[caller], s.deposits[s.primary[caller]]);
            && s'.deposits == s.deposits[n := (to, row.1)]
            && s'.bank.Held(CleanupDeposit, who) + Share(row, who)
               == s.bank.Held(CleanupDeposit, who) + Share((to, row.1), who)
  {
    TransferNeedsPrimary(s, caller, to, o);
    var n := s.primary[caller];
    PrimaryFacts(s, caller);
    TransferKeeps(s, caller, to, o);
    hide Inv, Money;
    MoneyPart(s);
    MoneyPart(s');
    TransferSwapsRow(s, caller, to, o, s');
    hide Transfer;
    HoldsFollowRow(s, s', n, (to, s.deposits[n].1), who);
  }

  lemma TransferSwapsRow(s: State, caller: Account, to: Account, o: Open, s': State)
    requires Transfer(s, caller, to, o) == Ok(s') && caller in s.primary && s.primary[caller] in s.deposits
    ensures s'.deposits == s.deposits[s.primary[caller] := (to, s.deposits[s.primary[caller]].1)]
  {
    var n := s.primary[caller];
    var s1 := Rotate(s, n, to, s.deposits[n].1).value;
    RotateIsMoney(s, n, to, s.deposits[n].1, s1);
    UnlistIsMoney(s1, n);
    hide Rotate, Unlist;
  }

  /** A renewal gives back what was recorded, and holds what the current price asks for. */
  lemma RenewalReleasesRecord(s: State, caller: Account, o: Open, s': State, who: Account)
    requires Inv(s) && Renew(s, caller, o) == Ok(s')
    ensures caller in s.primary && s.primary[caller] in s.deposits && s.primary[caller].Child?
    ensures var n := s.primary[caller];
            var row := (caller, CleanupShare(Price(s.prices, n.name)));
            && s'.deposits == s.deposits[n := row]
            && s'.bank.Held(CleanupDeposit, who) + Share(s.deposits[n], who)
               == s.bank.Held(CleanupDeposit, who) + Share(row, who)
  {
    RenewSwapsRow(s, caller, o, s');
    RenewKeeps(s, caller, o);
    hide Inv, Money, Renew;
    MoneyPart(s);
    MoneyPart(s');
    var n := s.primary[caller];
    HoldsFollowRow(s, s', n, (caller, CleanupShare(Price(s.prices, n.name))), who);
  }

  lemma RenewSwapsRow(s: State, caller: Account, o: Open, s': State)
    requires Renew(s, caller, o) == Ok(s')
    ensures caller in s.primary && s.primary[caller] in s.deposits && s.primary[caller].Child?
    ensures s'.deposits
         == s.deposits[s.primary[caller] := (caller, CleanupShare(Price(s.prices, s.primary[caller].name)))]
  {
  }

  /** The part of `a` in the row of `n`, if there is one. */
  function RowShare(s: State, n: Node, a: Account): nat {
    if n in s.deposits then Share(s.deposits[n], a) else 0
  }

  /** The name of a gift declined on the way. */
  function Declined(reject: Option<Label>): set<Node> {
    if reject.Some? then {NameHash(reject.value)} else {}
  }

  /**
   Any registration, over an expired name or not, with a gift declined on the way or not, gives back what
   was recorded for whatever it tears down, whatever prices are now, and holds what they ask for.
   */
  lemma ReRegistrationReleasesRecord(s: State, caller: Account, name: Label, reject: Option<Label>, o: Open,
                                     s': State, who: Account)
    requires Inv(s) && Register(s, caller, name, reject, o) == Ok(s')
    ensures Registrable(s, NameHash(name)) || reject == Some(name)
    ensures var n := NameHash(name);
            var row := (caller, CleanupShare(Price(s.prices, name)));
            && s'.deposits == (s.deposits - Declined(reject))[n := row]
            && s'.bank.Held(CleanupDeposit, who) + RowShare(s, n, who) + DeclinedShare(s, name, reject, who)
               == s.bank.Held(CleanupDeposit, who) + Share(row, who)
  {
    hide Inv, Money, Register, RowShare, Price;
    RegisterKeeps(s, caller, name, reject, o);
    MoneyPart(s);
    MoneyPart(s');
    RegisterSwapsRow(s, caller, name, reject, o, s');
    HoldsFollowRows(s, s', name, reject, (caller, CleanupShare(Price(s.prices, name))), who);
  }

  /** What a gift declined on the way gives back to `a`, if it is not the name itself. */
  function DeclinedShare(s: State, name: Label, reject: Option<Label>, a: Account): nat {
    if reject.Some? && reject.value != name then RowShare(s, NameHash(reject.value), a) else 0
  }

  /** Rows that go and a row that is written move the holds of every account by just that much. */
  lemma HoldsFollowRows(s: State, s': State, name: Label, reject: Option<Label>, row: (Account, nat), who: Account)
    requires Money(s) && Money(s') && s'.deposits == (s.deposits - Declined(reject))[NameHash(name) := row]
    ensures s'.bank.Held(CleanupDeposit, who) + RowShare(s, NameHash(name), who) + DeclinedShare(s, name, reject, who)
         == s.bank.Held(CleanupDeposit, who) + Share(row, who)
  {
    var n, rest := NameHash(name), s.deposits - Declined(reject);
    assert s.bank.Held(CleanupDeposit, who) == Owed(s.deposits, who);
    assert s'.bank.Held(CleanupDeposit, who) == Owed(s'.deposits, who);
    hide Owed, Money;
    OwedPut(rest, n, row, who);
    OwedLess(s.deposits, n, who);
    if reject.None? {
      assert rest == s.deposits;
    } else {
      OwedLess(s.deposits - {n}, NameHash(reject.value), who);
      assert s.deposits - {n} - {NameHash(reject.value)} == rest - {n};
    }
  }

  lemma OwedLess(rows: map<Node, (Account, nat)>, n: Node, who: Account)
    ensures Owed(rows, who) == (if n in rows then Share(rows[n], who) else 0) + Owed(rows - {n}, who)
  {
    if n in rows {
      OwedDrop(rows, n, who);
    } else {
      assert rows - {n} == rows;
    }
  }

  lemma RegisterSwapsRow(s: State, caller: Account, name: Label, reject: Option<Label>, o: Open, s': State)
    requires Inv(s) && Register(s, caller, name, reject, o) == Ok(s')
    ensures Registrable(s, NameHash(name)) || reject == Some(name)
    ensures s'.deposits
         == (s.deposits - Declined(reject))[NameHash(name) := (caller, CleanupShare(Price(s.prices, name)))]
  {
    hide Inv, Register, RejectOffer, Teardown, Grant, Price;
    var n := NameHash(name);
    var s1, s2 := RegisterParts(s, caller, name, reject, o);
    if reject.Some? {
      RejectDrops(s, caller, NameHash(reject.value), o, s1);
      RejectKeeps(s, caller, NameHash(reject.value), o);
    }
    assert s1.deposits == s.deposits - Declined(reject);
    assert s1.prices == s.prices && Inv(s1);
    if n in s1.tokens {
      TeardownDrops(s1, n, caller, o, s2);
    }
    GrantWritesRow(s2, caller, name, o, s');
    assert (s1.deposits - {n})[n := (caller, CleanupShare(Price(s.prices, name)))]
        == s1.deposits[n := (caller, CleanupShare(Price(s.prices, name)))];
  }

  lemma RejectDrops(s: State, caller: Account, gift: Node, o: Open, s1: State)
    requires Inv(s) && RejectOffer(s, caller, gift, o) == Ok(s1)
    ensures s1.deposits == s.deposits - {gift} && s1.prices == s.prices && s1.now == s.now
    ensures s1.infos == s.infos - {gift}
  {
    hide Inv, Teardown;
    NameFacts(s, gift);
    TeardownDrops(s, gift, caller, o, s1);
  }

  lemma TeardownDrops(s: State, n: Node, caller: Account, o: Open, s': State)
    requires Inv(s) && IsName(n) && n in s.tokens && Teardown(s, n, caller, 0, o) == Ok(s')
    ensures s'.deposits == s.deposits - {n} && s'.prices == s.prices && s'.now == s.now
    ensures s'.infos == s.infos - {n}
  {
    NameFacts(s, n);
    hide Inv, Teardown;
    TeardownIsPurge(s, n, caller, 0, o, s');
  }

  lemma GrantWritesRow(s: State, caller: Account, name: Label, o: Open, s': State)
    requires Grant(s, caller, name, o) == Ok(s')
    ensures s'.deposits == s.deposits[NameHash(name) := (caller, CleanupShare(Price(s.prices, name)))]
  {
  }

  lemma TeardownKeepsClock(s: State, n: Node, finder: Account, bounty: nat, o: Open, s': State)
    requires Teardown(s, n, finder, bounty, o) == Ok(s')
    ensures s'.now == s.now && s'.prices == s.prices
  {
    TeardownIsPurge(s, n, finder, bounty, o, s');
    hide Teardown;
  }

  /** No record that an owner set outlives a change of owner, by transfer or by sale. */
  lemma UserRecordsDoNotSurvive(s: State, op: Op, n: Node, t: RecordType)
    requires UserSettable(t) && Apply(s, op).Ok?
    requires (op.OpTransfer? && s.primary[op.caller] == n) || (op.OpBuy? && NameHash(op.name) == n)
    ensures (n, t) !in Next(s, op).records
  {
    if op.OpBuy? {
      BuyNeedsSale(s, op.caller, op.name, op.recipient, op.o);
    }
    hide Settle, Rotate, Unlist;
  }

  /**
   Where the money of a sale goes, account by account: the price from the buyer to the seller, less the fees
   and those to whom they go; the listing deposit back to the seller; the recorded cleanup deposit back to
   whoever is recorded for it, and the new one on hold on its carrier.
   */
  lemma BuyMovesMoney(s: State, buyer: Account, name: Label, recipient: Option<Account>, o: Open, s': State, a: Account)
    requires Inv(s) && Buy(s, buyer, name, recipient, o) == Ok(s')
    ensures NameHash(name) in s.listings && NameHash(name) in s.deposits
    ensures var n := NameHash(name);
            var (seller, price) := (s.listings[n].seller, s.listings[n].price);
            && Sold(s, n, buyer, recipient, o, s') && buyer != seller
            && SumOf(o.fees) <= price - price * 98 / 100
            && s'.bank.Free(a) + If(a == buyer, price) + If(a == CarrierOf(buyer, recipient, o), o.amount)
               == s.bank.Free(a) + If(a == seller, price - SumOf(o.fees)) + Received(o.fees, a)
                  + If(a == seller, LISTING_DEPOSIT) + Share(s.deposits[n], a)
  {
    var n := NameHash(name);
    BuyNeedsSale(s, buyer, name, recipient, o);
    BuyIsNotBySeller(s, buyer, name, recipient, o);
    hide Inv, Buy, Sell, Sold, Money, Rotate, Paid;
    MoneyPart(s);
    SellSells(s, n, buyer, recipient, o, s');
    PaidPays(s, n, buyer, o, a);
    var paid, carrier := Paid(s, n, buyer, o), CarrierOf(buyer, recipient, o);
    RotateMoves(paid, n, carrier, o.amount, Rotate(paid, n, carrier, o.amount).value, a);
  }

  /**
   The seller nets at least 98 percent of the price, the listing deposit, and the cleanup deposit if it
   was the seller's; only a seller made to carry the deposit of a pending gift may end up with less.
   */
  lemma BuyPaysSeller(s: State, buyer: Account, name: Label, recipient: Option<Account>, o: Open, s': State)
    requires Inv(s) && Buy(s, buyer, name, recipient, o) == Ok(s')
    ensures NameHash(name) in s.listings && NameHash(name) in s.deposits
    ensures var n := NameHash(name);
            var (seller, price) := (s.listings[n].seller, s.listings[n].price);
            && (CarrierOf(buyer, recipient, o) != seller ==>
                  s'.bank.Free(seller) >= s.bank.Free(seller) + price * 98 / 100 + LISTING_DEPOSIT
                                          + Share(s.deposits[n], seller))
  {
    hide Inv, Buy, Sold;
    var seller := if NameHash(name) in s.listings then s.listings[NameHash(name)].seller else 0;
    BuyMovesMoney(s, buyer, name, recipient, o, s', seller);
  }

  /**
   The buyer pays at least the price, unless fees that name the buyer, or a deposit recorded for the buyer,
   come back and outweigh the deposit that the buyer carries.
   */
  lemma BuyerPaysPrice(s: State, buyer: Account, name: Label, recipient: Option<Account>, o: Open, s': State)
    requires Inv(s) && Buy(s, buyer, name, recipient, o) == Ok(s')
    ensures NameHash(name) in s.listings && NameHash(name) in s.deposits
    ensures var n := NameHash(name);
            var carried := If(buyer == CarrierOf(buyer, recipient, o), o.amount);
            s'.bank.Free(buyer) + s.listings[n].price <= s.bank.Free(buyer)
            <==> Received(o.fees, buyer) + Share(s.deposits[n], buyer) <= carried
  {
    hide Inv, Buy, Sold;
    BuyMovesMoney(s, buyer, name, recipient, o, s', buyer);
  }

  /** Who is recorded for the deposit after a sale. */
  function CarrierOf(buyer: Account, recipient: Option<Account>, o: Open): Account {
    if recipient.None? then buyer else o.carrier
  }

  /** A sale makes the buyer the owner, or leaves the name pending for the recipient; the listing is over. */
  ghost predicate Sold(s: State, n: Node, buyer: Account, recipient: Option<Account>, o: Open, s': State) {
    && n !in s'.listings
    && s'.deposits == s.deposits[n := (CarrierOf(buyer, recipient, o), o.amount)]
    && (recipient.None? ==> buyer in s'.primary && s'.primary[buyer] == n)
    && (recipient.Some? ==> n in s'.offers && s'.offers[n] == Offer(recipient.value, buyer, s.now))
  }

  lemma SettleMoves(b: Bank, buyer: Account, l: Listing, fees: seq<(Account, nat)>, b': Bank, a: Account)
    requires Settle(b, buyer, l, fees) == Ok(b')
    ensures SumOf(fees) <= l.price - l.price * 98 / 100 && b'.held == b.held
    ensures b'.Free(a) + If(a == buyer, l.price)
         == b.Free(a) + If(a == l.seller, l.price - SumOf(fees)) + Received(fees, a)
  {
    var paid := b.Transfer(buyer, l.seller, l.price - SumOf(fees)).value;
    ChargeMoves(paid, buyer, fees, a);
    ChargeConserves(paid, buyer, fees);
  }

  /** The state of a sale once the price is paid and the listing is over. */
  function Paid(s: State, n: Node, buyer: Account, o: Open): State
    requires n in s.listings && Settle(s.bank, buyer, s.listings[n], o.fees).Ok?
  {
    Unlist(s.(bank := Settle(s.bank, buyer, s.listings[n], o.fees).value), n)
  }

  lemma SellSells(s: State, n: Node, buyer: Account, recipient: Option<Account>, o: Open, s': State)
    requires n in s.listings && n in s.tokens && n in s.deposits && Sell(s, n, buyer, recipient, o) == Ok(s')
    ensures Sold(s, n, buyer, recipient, o, s')
    ensures Settle(s.bank, buyer, s.listings[n], o.fees).Ok? && Paid(s, n, buyer, o).deposits == s.deposits
    ensures var r := Rotate(Paid(s, n, buyer, o), n, CarrierOf(buyer, recipient, o), o.amount);
            r.Ok? && r.value.bank == s'.bank
  {
    hide Settle;
    var l, carrier := s.listings[n], CarrierOf(buyer, recipient, o);
    var paid := s.(bank := Settle(s.bank, buyer, l, o.fees).value);
    UnlistIsMoney(paid, n);
    var s1 := Rotate(Unlist(paid, n), n, carrier, o.amount).value;
    RotateIsMoney(Unlist(paid, n), n, carrier, o.amount, s1);
    hide Rotate, Unlist;
  }

  /** Who has what once the price is paid and the listing is over, before the cleanup deposit moves. */
  lemma PaidPays(s: State, n: Node, buyer: Account, o: Open, a: Account)
    requires Money(s) && n in s.listings && n in s.deposits && Settle(s.bank, buyer, s.listings[n], o.fees).Ok?
    ensures var (l, b) := (s.listings[n], Paid(s, n, buyer, o).bank);
            && SumOf(o.fees) <= l.price - l.price * 98 / 100
            && b.Free(a) + If(a == buyer, l.price)
               == s.bank.Free(a) + If(a == l.seller, l.price - SumOf(o.fees)) + Received(o.fees, a)
                  + If(a == l.seller, LISTING_DEPOSIT)
            && s.deposits[n].1 <= b.Held(CleanupDeposit, s.deposits[n].0)
  {
    var l := s.listings[n];
    var paid := s.(bank := Settle(s.bank, buyer, l, o.fees).value);
    SettleMoves(s.bank, buyer, l, o.fees, paid.bank, a);
    HoldCoversRow(s, n);
    hide Settle, Money;
    assert paid.bank.Held(ListingDeposit, l.seller) == s.bank.Held(ListingDeposit, l.seller);
    assert paid.bank.Held(CleanupDeposit, s.deposits[n].0) == s.bank.Held(CleanupDeposit, s.deposits[n].0);
    UnlistMoves(paid, n, a);
    UnlistMoves(paid, n, s.deposits[n].0);
    hide Unlist;
  }

  // ---------- Ending a listing ----------

  ghost predicate KeepsListing(s: State, s': State, n: Node) {
    n in s.listings ==> n in s'.listings && s'.listings[n] == s.listings[n]
  }

  /** The calls that may end the listing of `n`, and when. */
  ghost predicate MayUnlist(s: State, op: Op, n: Node) {
    match op
    case OpCreateListing(caller, _, _, _) => caller in s.primary && s.primary[caller] == n
    case OpCancelListing(caller) => caller in s.primary && s.primary[caller] == n
    case OpTransfer(caller, _, _) => caller in s.primary && s.primary[caller] == n
    case OpReleaseName(caller, _) => caller in s.primary && s.primary[caller] == n
    case OpBuy(caller, name, _, _) => NameHash(name) == n && n in s.listings && caller != s.listings[n].seller
    case OpCleanupListing(_, name, _) =>
      NameHash(name) == n && n in s.listings && SaturatingAdd(s.listings[n].expiresAt, LISTING_GRACE) <= s.now
    case OpCleanup(_, _, _, _) => n in s.infos && s.infos[n].expire + GRACE_PERIOD <= s.now
    case OpRegister(caller, name, reject, _) =>
      || (NameHash(name) == n && Registrable(s, n))
      || (reject.Some? && NameHash(reject.value) == n && n in s.offers && s.offers[n].recipient == caller)
    case _ => false
  }

  lemma TeardownKeepsListing(s: State, m: Node, finder: Account, bounty: nat, o: Open, n: Node, s': State)
    requires Teardown(s, m, finder, bounty, o) == Ok(s')
    ensures n != m ==> KeepsListing(s, s', n)
    ensures s'.infos == s.infos - {m} && s'.now == s.now
  {
    TeardownIsPurge(s, m, finder, bounty, o, s');
    var s1 := Refund(s, m, finder, bounty);
    RefundIsMoney(s, m, finder, bounty);
    UnlistIsMoney(s1, m);
    hide Refund, Unlist;
  }

  lemma RegisterKeepsListing(s: State, caller: Account, name: Label, reject: Option<Label>, o: Open, n: Node, s': State)
    requires Register(s, caller, name, reject, o) == Ok(s') && !MayUnlist(s, OpRegister(caller, name, reject, o), n)
    ensures KeepsListing(s, s', n)
  {
    hide Teardown;
    var s1 := s;
    if reject.Some? {
      s1 := RejectOffer(s, caller, NameHash(reject.value), o).value;
      TeardownKeepsListing(s, NameHash(reject.value), caller, 0, o, n, s1);
    }
    var s2 := s1;
    if NameHash(name) in s1.tokens {
      s2 := Teardown(s1, NameHash(name), caller, 0, o).value;
      TeardownKeepsListing(s1, NameHash(name), caller, 0, o, n, s2);
    }
    assert KeepsListing(s1, s2, n);
  }

  lemma {:induction false} CleanupKeepsListing(s: State, caller: Account, deadline: nat, due: seq<Node>, o: Open,
                                               n: Node)
    requires deadline <= s.now && !(n in s.infos && s.infos[n].expire + GRACE_PERIOD <= s.now)
    ensures KeepsListing(s, CleanupEach(s, caller, deadline, due, o), n)
    decreases |due|
  {
    hide Teardown;
    if due != [] {
      var s1 := CleanupOne(s, caller, deadline, due[0], o);
      if s1 != s {
        TeardownKeepsListing(s, due[0], caller, BountyFrom(s.deposits[due[0]].1, o.bounty), o, n, s1);
      }
      CleanupKeepsListing(s1, caller, deadline, due[1..], o, n);
    }
  }

  lemma SellKeepsListing(s: State, m: Node, buyer: Account, recipient: Option<Account>, o: Open, n: Node, s': State)
    requires m in s.listings && m in s.tokens && m in s.deposits && n != m && Sell(s, m, buyer, recipient, o) == Ok(s')
    ensures KeepsListing(s, s', n)
  {
    hide Settle, HandOver, ClearUserRecords;
  }

  lemma TransferKeepsListing(s: State, caller: Account, to: Account, o: Open, n: Node, s': State)
    requires Transfer(s, caller, to, o) == Ok(s') && s.primary[caller] != n
    ensures KeepsListing(s, s', n)
  {
    var m := s.primary[caller];
    var s1 := Rotate(s, m, to, s.deposits[m].1).value;
    RotateIsMoney(s, m, to, s.deposits[m].1, s1);
    UnlistIsMoney(s1, m);
    hide Rotate, Unlist, ClearUserRecords;
  }

  lemma OwnListingCallKeepsListing(s: State, op: Op, n: Node)
    requires op.OpCreateListing? || op.OpCancelListing?
    requires op.caller in s.primary ==> s.primary[op.caller] != n
    ensures KeepsListing(s, Next(s, op), n)
  {
    if op.caller in s.primary {
      UnlistIsMoney(s, s.primary[op.caller]);
    }
    hide Unlist;
  }

  lemma CleanupListingKeepsOthers(s: State, caller: Account, name: Label, o: Open, n: Node, s': State)
    requires CleanupListing(s, caller, name, o) == Ok(s')
    ensures NameHash(name) != n ==> KeepsListing(s, s', n)
    ensures NameHash(name) in s.listings && SaturatingAdd(s.listings[NameHash(name)].expiresAt, LISTING_GRACE) <= s.now
  {
    hide PayOut;
  }

  lemma OtherCallKeepsListing(s: State, op: Op, n: Node)
    requires !op.OpRegister? && !op.OpCleanup? && !op.OpBuy? && !op.OpReleaseName? && !op.OpTransfer?
    requires !op.OpCreateListing? && !op.OpCancelListing? && !op.OpCleanupListing?
    ensures Next(s, op).listings == s.listings
  {
  }

  /**
   A listing ends only by the owner of the name, by a sale to another account, by the end of the
   registration it belongs to, or by anyone once its expiry and then the grace period are over.
   */
  lemma ListingEndsOnlyBy(s: State, op: Op, n: Node)
    requires !MayUnlist(s, op, n)
    ensures KeepsListing(s, Next(s, op), n)
  {
    if op.OpRegister? {
      if Apply(s, op).Ok? {
        RegisterKeepsListing(s, op.caller, op.name, op.reject, op.o, n, Next(s, op));
      }
    } else if op.OpCleanup? {
      if Apply(s, op).Ok? {
        CleanupKeepsListing(s, op.caller, op.deadline, op.due, op.o, n);
      }
    } else if op.OpBuy? {
      if Apply(s, op).Ok? {
        BuyNeedsSale(s, op.caller, op.name, op.recipient, op.o);
        BuyIsNotBySeller(s, op.caller, op.name, op.recipient, op.o);
        SellKeepsListing(s, NameHash(op.name), op.caller, op.recipient, op.o, n, Next(s, op));
      }
    } else if op.OpReleaseName? {
      if Apply(s, op).Ok? {
        TeardownKeepsListing(s, s.primary[op.caller], op.caller, 0, op.o, n, Next(s, op));
      }
    } else if op.OpTransfer? {
      if Apply(s, op).Ok? {
        TransferKeepsListing(s, op.caller, op.to, op.o, n, Next(s, op));
      }
    } else if op.OpCreateListing? || op.OpCancelListing? {
      OwnListingCallKeepsListing(s, op, n);
    } else if op.OpCleanupListing? {
      if Apply(s, op).Ok? {
        CleanupListingKeepsOthers(s, op.caller, op.name, op.o, n, Next(s, op));
      }
    } else {
      OtherCallKeepsListing(s, op, n);
    }
    hide Register, Buy, CleanupEach, Teardown, Transfer, CleanupListing;
  }

  lemma BuyIsNotBySeller(s: State, buyer: Account, name: Label, recipient: Option<Account>, o: Open)
    ensures Buy(s, buyer, name, recipient, o).Ok? ==>
              NameHash(name) in s.listings && buyer != s.listings[NameHash(name)].seller
              && recipient != Some(buyer) && recipient != Some(s.listings[NameHash(name)].seller)
  {
    hide Sell;
  }
}
