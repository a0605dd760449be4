/** What only root can change in the name system, and what its changes mean for registrations. */
module PnsGovernance {
  import opened Wrappers
  import opened Balances
  import opened PnsTypes
  import opened PnsSteps
  import opened PnsInvariants
  import opened PnsRuns
  import opened PnsEffects
  import opened PnsWrites

  /** The settings that governance is about, and the clock. */
  ghost predicate SameSettings(s: State, s': State) {
    s'.prices == s.prices && s'.reserved == s.reserved && s'.official == s.official && s'.now == s.now
  }

  // ---------- Parts ----------

  lemma TeardownSettings(s: State, n: Node, finder: Account, bounty: nat, o: Open)
    ensures Teardown(s, n, finder, bounty, o).Ok? ==> SameSettings(s, Teardown(s, n, finder, bounty, o).value)
  {
    if Teardown(s, n, finder, bounty, o).Ok? {
      TeardownIsPurge(s, n, finder, bounty, o, Teardown(s, n, finder, bounty, o).value);
    }
    hide Teardown;
  }

  lemma RotateSettings(s: State, n: Node, who: Account, amount: nat)
    requires n in s.deposits
    ensures Rotate(s, n, who, amount).Ok? ==> SameSettings(s, Rotate(s, n, who, amount).value)
  {
    if Rotate(s, n, who, amount).Ok? {
      RotateIsMoney(s, n, who, amount, Rotate(s, n, who, amount).value);
    }
    hide Rotate;
  }

  lemma UnlistSettings(s: State, n: Node, keep: bool)
    ensures SameSettings(s, UnlistUnless(s, n, keep))
  {
    UnlistIsMoney(s, n);
    hide Unlist;
  }

  lemma HandoverSettings(s: State, n: Node, who: Account, recipient: Option<Account>, o: Open)
    requires n in s.tokens
    ensures SameSettings(s, ClearUserRecords(s, n, o)) && SameSettings(s, SetOwner(s, n, who))
    ensures SameSettings(s, HandOver(s, n, who, recipient, o))
  {
  }

  lemma GrantSettings(s: State, caller: Account, name: Label, o: Open)
    ensures Grant(s, caller, name, o).Ok? ==> SameSettings(s, Grant(s, caller, name, o).value)
  {
  }

  // ---------- Calls ----------

  lemma RegisterSettings(s: State, caller: Account, name: Label, reject: Option<Label>, o: Open)
    ensures Register(s, caller, name, reject, o).Ok? ==> SameSettings(s, Register(s, caller, name, reject, o).value)
  {
    hide Teardown, Grant;
    if Register(s, caller, name, reject, o).Ok? {
      var before := s;
      if reject.Some? {
        TeardownSettings(before, NameHash(reject.value), caller, 0, o);
        before := Teardown(before, NameHash(reject.value), caller, 0, o).value;
      }
      if NameHash(name) in before.tokens {
        TeardownSettings(before, NameHash(name), caller, 0, o);
        before := Teardown(before, NameHash(name), caller, 0, o).value;
      }
      GrantSettings(before, caller, name, o);
    }
  }

  lemma {:induction false} CleanupSettings(s: State, caller: Account, deadline: nat, due: seq<Node>, o: Open)
    ensures SameSettings(s, CleanupEach(s, caller, deadline, due, o))
    decreases |due|
  {
    hide Teardown;
    if due != [] {
      if due[0] in s.deposits {
        TeardownSettings(s, due[0], caller, BountyFrom(s.deposits[due[0]].1, o.bounty), o);
      }
      CleanupSettings(CleanupOne(s, caller, deadline, due[0], o), caller, deadline, due[1..], o);
    }
  }

  lemma TransferSettings(s: State, caller: Account, to: Account, o: Open)
    ensures Transfer(s, caller, to, o).Ok? ==> SameSettings(s, Transfer(s, caller, to, o).value)
  {
    hide Rotate, UnlistUnless, SetOwner, ClearUserRecords;
    if Transfer(s, caller, to, o).Ok? {
      var n := s.primary[caller];
      RotateSettings(s, n, to, s.deposits[n].1);
      var s1 := Rotate(s, n, to, s.deposits[n].1).value;
      UnlistSettings(s1, n, o.keepListing);
      var s2 := UnlistUnless(s1, n, o.keepListing);
      TransferHasToken(s, n, to, o);
      HandoverSettings(s2.(primary := s2.primary - {caller}), n, to, None, o);
      HandoverSettings(ClearUserRecords(s2.(primary := s2.primary - {caller}), n, o), n, to, None, o);
    }
  }

  lemma TransferHasToken(s: State, n: Node, to: Account, o: Open)
    requires n in s.tokens && n in s.deposits && Rotate(s, n, to, s.deposits[n].1).Ok?
    ensures n in UnlistUnless(Rotate(s, n, to, s.deposits[n].1).value, n, o.keepListing).tokens
  {
    hide Unlist;
  }

  lemma SellSettings(s: State, n: Node, buyer: Account, recipient: Option<Account>, o: Open)
    requires n in s.listings && n in s.tokens && n in s.deposits
    ensures Sell(s, n, buyer, recipient, o).Ok? ==> SameSettings(s, Sell(s, n, buyer, recipient, o).value)
  {
    hide Settle, Rotate, Unlist, HandOver, ClearUserRecords;
    if Sell(s, n, buyer, recipient, o).Ok? {
      var paid := s.(bank := Settle(s.bank, buyer, s.listings[n], o.fees).value);
      UnlistSettings(paid, n, false);
      var carrier := if recipient.None? then buyer else o.carrier;
      RotateSettings(Unlist(paid, n), n, carrier, o.amount);
      var s1 := Rotate(Unlist(paid, n), n, carrier, o.amount).value;
      var s2 := s1.(primary := s1.primary - {s1.tokens[n].owner});
      HandoverSettings(s2, n, buyer, recipient, o);
      HandoverSettings(ClearUserRecords(s2, n, o), n, buyer, recipient, o);
    }
  }

  lemma SubnameSettings(s: State, op: Op)
    requires op.OpOfferSubname? || op.OpAcceptSubname? || op.OpRejectSubname? || op.OpReleaseSubname?
             || op.OpRevokeSubname?
    ensures SameSettings(s, Next(s, op))
  {
  }

  lemma OtherSettings(s: State, op: Op)
    requires !op.OpOfferSubname? && !op.OpAcceptSubname? && !op.OpRejectSubname? && !op.OpReleaseSubname?
             && !op.OpRevokeSubname?
    requires !op.OpRegister? && !op.OpTransfer? && !op.OpReleaseName? && !op.OpCleanup? && !op.OpBuy?
    requires !op.OpSetBasePrice? && !op.OpSetReserved? && !op.OpSetOfficial? && !op.OpWait?
    ensures SameSettings(s, Next(s, op))
  {
    hide PayOut, SetOwner;
    if op.OpAcceptOffer? && Apply(s, op).Ok? {
      AcceptSettings(s, op.caller, op.name, op.o);
      hide AcceptOffer;
    } else if op.OpRenew? {
      RenewSettings(s, op.caller, op.o);
      hide Renew;
    }
  }

  lemma AcceptSettings(s: State, caller: Account, name: Label, o: Open)
    requires AcceptOffer(s, caller, name, o).Ok?
    ensures SameSettings(s, AcceptOffer(s, caller, name, o).value)
  {
    var n := NameHash(name);
    RotateSettings(s, n, o.carrier, o.amount);
    var s1 := Rotate(s, n, o.carrier, o.amount).value;
    RotateIsMoney(s, n, o.carrier, o.amount, s1);
    hide Rotate;
    HandoverSettings(s1.(offers := s1.offers - {n}), n, caller, None, o);
  }

  lemma RenewSettings(s: State, caller: Account, o: Open)
    ensures Renew(s, caller, o).Ok? ==> SameSettings(s, Renew(s, caller, o).value)
  {
    hide CleanupShare, Price;
  }

  /** The governance calls. */
  predicate Governs(op: Op) {
    op.OpSetBasePrice? || op.OpSetReserved? || op.OpSetOfficial?
  }

  /**
   No setting changes by anything but a governance call of root; anyone else's is refused and changes nothing.
   The clock moves by waiting alone, for as long as that takes, and nothing else happens meanwhile.
   */
  lemma GovernedOnlyByRoot(s: State, op: Op)
    ensures !(Governs(op) && op.origin.Root?) && !op.OpWait? ==> SameSettings(s, Next(s, op))
    ensures op.OpWait? ==> Next(s, op).now - s.now == op.time && Next(s, op) == s.(now := Next(s, op).now)
    ensures Governs(op) && !op.origin.Root? ==> Apply(s, op) == Err(BadOrigin) && Next(s, op) == s
  {
    hide Register, Transfer, Teardown, CleanupEach, Sell;
    if op.OpRegister? {
      RegisterSettings(s, op.caller, op.name, op.reject, op.o);
    } else if op.OpTransfer? {
      TransferSettings(s, op.caller, op.to, op.o);
    } else if op.OpReleaseName? {
      if op.caller in s.primary {
        TeardownSettings(s, s.primary[op.caller], op.caller, 0, op.o);
      }
    } else if op.OpCleanup? {
      CleanupSettings(s, op.caller, op.deadline, op.due, op.o);
    } else if op.OpBuy? {
      BuyNeedsSale(s, op.caller, op.name, op.recipient, op.o);
      var n := NameHash(op.name);
      if n in s.listings && n in s.tokens && n in s.deposits {
        SellSettings(s, n, op.caller, op.recipient, op.o);
      }
    } else if op.OpOfferSubname? || op.OpAcceptSubname? || op.OpRejectSubname? || op.OpReleaseSubname?
              || op.OpRevokeSubname? {
      SubnameSettings(s, op);
    } else if !Governs(op) && !op.OpWait? {
      OtherSettings(s, op);
    }
  }

  // ---------- What root's calls do ----------

  /** Root sets the prices, and reserves and frees names one by one. */
  lemma SettingsTakeEffect(s: State, prices: PriceTable, name: Label, reserve: bool, m: Node)
    ensures var r := SetBasePrice(s, Root, prices); r.Ok? && r.value == s.(prices := prices)
    ensures var r := SetReserved(s, Root, name, reserve);
      && r.Ok? && r.value == s.(reserved := r.value.reserved)
      && (m in r.value.reserved <==> if m == NameHash(name) then reserve else m in s.reserved)
  {
  }

  /** Root's handover makes the new account the official one and the owner of the base node, and moves nothing else. */
  lemma HandoverTakesEffect(s: State, who: Account, n: Node)
    requires Inv(s)
    ensures var r := SetOfficial(s, Root, who);
      && r.Ok? && r.value.official == who && Base in r.value.tokens && r.value.tokens[Base].owner == who
      && r.value == s.(official := who, tokens := r.value.tokens)
      && (n != Base ==>
            && (n in r.value.tokens <==> n in s.tokens)
            && (n in s.tokens ==> r.value.tokens[n] == s.tokens[n]))
  {
  }

  /** From then on it is the new account, and no other, that may write the records of the base node. */
  lemma HandoverMovesBase(s: State, who: Account, a: Account, t: RecordType, content: seq<nat>)
    requires Inv(s) && t != SS58 && t != ORIGIN
    ensures SetOfficial(s, Root, who).Ok?
    ensures SetRecord(SetOfficial(s, Root, who).value, a, Base, t, content).Ok? <==> a == who
  {
    HandoverTakesEffect(s, who, Base);
    BaseHasNoInfo(s);
    hide Inv, SetOfficial;
    SetRecordSucceeds(SetOfficial(s, Root, who).value, a, Base, t, content);
    hide SetRecord;
  }

  lemma BaseHasNoInfo(s: State)
    requires Inv(s)
    ensures Base !in s.infos
  {
    NameFacts(s, Base);
    hide Inv;
  }

  // ---------- Reserved names ----------

  lemma RejectNeverFreezes(s: State, caller: Account, gift: Node, o: Open)
    ensures RejectOffer(s, caller, gift, o) != Err(Frozen)
  {
  }

  lemma GrantNeverFreezes(s: State, caller: Account, name: Label, o: Open)
    ensures Grant(s, caller, name, o) != Err(Frozen)
  {
  }

  /** Exactly the reserved names are frozen, for callers who might register one. */
  lemma FrozenMeansReserved(s: State, caller: Account, name: Label, reject: Option<Label>, o: Open)
    ensures Register(s, caller, name, reject, o) == Err(Frozen)
       <==> caller !in s.primary && NameHash(name) in s.reserved
    ensures caller !in s.primary ==>
      && SetReserved(s, Root, name, true).Ok?
      && Register(SetReserved(s, Root, name, true).value, caller, name, reject, o) == Err(Frozen)
      && SetReserved(s, Root, name, false).Ok?
      && Register(SetReserved(s, Root, name, false).value, caller, name, reject, o) != Err(Frozen)
  {
    FrozenAt(s, caller, name, reject, o);
    FrozenAt(SetReserved(s, Root, name, true).value, caller, name, reject, o);
    FrozenAt(SetReserved(s, Root, name, false).value, caller, name, reject, o);
    hide Register;
  }

  lemma FrozenAt(s: State, caller: Account, name: Label, reject: Option<Label>, o: Open)
    ensures Register(s, caller, name, reject, o) == Err(Frozen)
       <==> caller !in s.primary && NameHash(name) in s.reserved
  {
    var n := NameHash(name);
    if reject.Some? {
      RejectNeverFreezes(s, caller, NameHash(reject.value), o);
    }
    var r1 := if reject.Some? then RejectOffer(s, caller, NameHash(reject.value), o) else Ok(s);
    if r1.Ok? {
      var s1 := r1.value;
      var r2 := if n in s1.tokens then Teardown(s1, n, caller, 0, o) else Ok(s1);
      TeardownNeverFreezes(s1, n, caller, 0, o);
      if r2.Ok? {
        GrantNeverFreezes(r2.value, caller, name, o);
      }
    }
    hide RejectOffer, Teardown, Grant;
  }

  lemma TeardownNeverFreezes(s: State, n: Node, finder: Account, bounty: nat, o: Open)
    ensures Teardown(s, n, finder, bounty, o) != Err(Frozen)
  {
  }

  // ---------- Prices ----------

  /** New prices leave what is held and recorded alone; the next registration holds what they ask for. */
  lemma RepricingSparesHolds(s: State, table: PriceTable, caller: Account, name: Label, reject: Option<Label>, o: Open,
                             s': State)
    requires Register(SetBasePrice(s, Root, table).value, caller, name, reject, o) == Ok(s')
    ensures SetBasePrice(s, Root, table).value.bank == s.bank
    ensures SetBasePrice(s, Root, table).value.deposits == s.deposits
    ensures NameHash(name) in s'.deposits
    ensures s'.deposits[NameHash(name)] == (caller, CleanupShare(table[Min(|name|, 11) - 1]))
  {
    var s0 := SetBasePrice(s, Root, table).value;
    RegisterRecords(s0, caller, name, reject, o, s');
    hide Register;
  }

  lemma RegisterRecords(s: State, caller: Account, name: Label, reject: Option<Label>, o: Open, s': State)
    requires Register(s, caller, name, reject, o) == Ok(s')
    ensures NameHash(name) in s'.deposits
    ensures s'.deposits[NameHash(name)] == (caller, CleanupShare(Price(s.prices, name)))
  {
    hide Teardown, Grant, Price;
    var before := s;
    if reject.Some? {
      TeardownSettings(before, NameHash(reject.value), caller, 0, o);
      before := Teardown(before, NameHash(reject.value), caller, 0, o).value;
    }
    if NameHash(name) in before.tokens {
      TeardownSettings(before, NameHash(name), caller, 0, o);
      before := Teardown(before, NameHash(name), caller, 0, o).value;
    }
    GrantWritesRow(before, caller, name, o, s');
  }
}
