/**
 The name system as storage that its extrinsics update in place. An extrinsic may fail after it
 has already written; `Dispatch` then puts the storage back, as the runtime does.
 */
module PnsPallet {
  import opened Wrappers
  import opened Balances
  import opened PnsTypes
  import opened PnsSteps
  import opened PnsInvariants
  import opened PnsRuns

  type Status = Result<(), Error>

  /** The outcome is the one specified; what a failure leaves behind is not. */
  ghost predicate Agrees(spec: Outcome, r: Status, after: State) {
    match spec
    case Ok(s) => r == Ok(()) && after == s
    case Err(e) => r == Err(e)
  }

  class Pallet {
    var now: nat
    var bank: Bank
    var prices: PriceTable
    var reserved: set<Node>
    var official: Account
    var tokens: map<Node, Token>
    var primary: map<Account, Node>
    var infos: map<Node, Info>
    var deposits: map<Node, (Account, nat)>
    var offers: map<Node, Offer>
    var listings: map<Node, Listing>
    var subnames: map<Node, Subname>
    var inbox: set<(Account, Node)>
    var origins: map<Node, Node>
    var records: map<(Node, RecordType), Content>
    var texts: map<(Node, nat), Content>

    function View(): State
      reads this
    {
      State(now, bank, prices, reserved, official, tokens, primary, infos, deposits, offers, listings,
            subnames, inbox, origins, records, texts)
    }

    constructor (now: nat, free: map<Account, nat>, prices: PriceTable, reserved: set<Node>, official: Account)
      ensures View() == Genesis(now, free, prices, reserved, official) && Inv(View())
    {
      this.now, this.bank := now, Bank(free, map[]);
      this.prices, this.reserved, this.official := prices, reserved, official;
      tokens, primary, infos := map[Base := Token(official, 0)], map[], map[];
      deposits, offers, listings := map[], map[], map[];
      subnames, inbox, origins := map[], {}, map[];
      records, texts := map[], map[];
      new;
      GenesisIsSound(now, free, prices, reserved, official);
    }

    method RestoreNames(s: State)
      modifies `tokens, `primary, `infos, `deposits, `offers, `listings
      ensures tokens == s.tokens && primary == s.primary && infos == s.infos
      ensures deposits == s.deposits && offers == s.offers && listings == s.listings
    {
      tokens, primary, infos := s.tokens, s.primary, s.infos;
      deposits, offers, listings := s.deposits, s.offers, s.listings;
    }

    method RestoreTree(s: State)
      modifies `subnames, `inbox, `origins, `records, `texts
      ensures subnames == s.subnames && inbox == s.inbox && origins == s.origins
      ensures records == s.records && texts == s.texts
    {
      subnames, inbox, origins := s.subnames, s.inbox, s.origins;
      records, texts := s.records, s.texts;
    }

    method RestoreSettings(s: State)
      modifies `now, `bank, `prices, `reserved, `official
      ensures now == s.now && bank == s.bank && prices == s.prices
      ensures reserved == s.reserved && official == s.official
    {
      now, bank, prices, reserved, official := s.now, s.bank, s.prices, s.reserved, s.official;
    }

    method Restore(s: State)
      modifies this
      ensures View() == s
    {
      RestoreSettings(s);
      RestoreNames(s);
      RestoreTree(s);
    }

    // ---------- Parts ----------

    method DoUnlist(n: Node)
      modifies this
      ensures View() == Unlist(old(View()), n)
    {
      if n in listings {
        bank := bank.Unhold(ListingDeposit, listings[n].seller, listings[n].seller, LISTING_DEPOSIT);
        listings := listings - {n};
      }
    }

    method DoRefund(n: Node, finder: Account, bounty: nat)
      modifies this
      ensures View() == Refund(old(View()), n, finder, bounty)
    {
      if n in deposits && bounty <= deposits[n].1 {
        bank := PayOut(bank, CleanupDeposit, deposits[n], finder, bounty);
        deposits := deposits - {n};
      }
    }

    method DoRotate(n: Node, who: Account, amount: nat) returns (r: Status)
      requires n in deposits
      modifies this
      ensures Agrees(Rotate(old(View()), n, who, amount), r, View())
    {
      var row := deposits[n];
      bank := bank.Unhold(CleanupDeposit, row.0, row.0, row.1);
      var held := bank.Hold(CleanupDeposit, who, amount);
      if held.None? {
        return Err(FundsUnavailable);
      }
      bank := held.value;
      deposits := deposits[n := (who, amount)];
      return Ok(());
    }

    method DoPurgeName(n: Node, gone: set<Node>)
      modifies `tokens, `primary, `infos, `offers
      ensures tokens == old(tokens) - gone && infos == old(infos) - {n} && offers == old(offers) - {n}
      ensures primary == map a | a in old(primary) && old(primary)[a] != n :: old(primary)[a]
    {
      tokens := tokens - gone;
      primary := map a | a in primary && primary[a] != n :: primary[a];
      infos := infos - {n};
      offers := offers - {n};
    }

    method DoForget(gone: set<Node>)
      modifies `subnames, `inbox, `origins, `records, `texts
      ensures subnames == old(subnames) - gone && origins == old(origins) - gone
      ensures inbox == Unboxed(old(inbox), gone)
      ensures records == Without(old(records), gone) && texts == Without(old(texts), gone)
    {
      subnames := subnames - gone;
      inbox := Unboxed(inbox, gone);
      origins := origins - gone;
      records := Without(records, gone);
      texts := Without(texts, gone);
    }

    method DoPurge(n: Node, gone: set<Node>)
      modifies this
      ensures View() == Purge(old(View()), n, gone)
    {
      DoPurgeName(n, gone);
      DoForget(gone);
    }

    method DoTeardown(n: Node, finder: Account, bounty: nat, o: Open) returns (r: Status)
      modifies this
      ensures Agrees(Teardown(old(View()), n, finder, bounty, o), r, View())
      ensures r.Err? ==> View() == old(View())
    {
      if n !in tokens {
        return Err(NotRegistered);
      }
      if o.fate.Refuse? && tokens[n].children != 0 {
        return Err(HasSubnames);
      }
      var gone := {n};
      if o.fate.Cascade? {
        gone := gone + Subnames(View(), n);
      }
      DoRefund(n, finder, bounty);
      if !o.keepListing {
        DoUnlist(n);
      }
      DoPurge(n, gone);
      return Ok(());
    }

    method DoClearUserRecords(n: Node, o: Open)
      modifies this
      ensures View() == ClearUserRecords(old(View()), n, o)
    {
      records := map k | k in records && (k.0 == n ==> !UserSettable(k.1)) :: records[k];
      if !o.keepTexts {
        texts := map k | k in texts && k.0 != n :: texts[k];
      }
    }

    method DoSetOwner(n: Node, who: Account)
      requires n in tokens
      modifies this
      ensures View() == SetOwner(old(View()), n, who)
    {
      tokens := tokens[n := tokens[n].(owner := who)];
      primary := primary[who := n];
      records := records[(n, SS58) := Owner(who)];
    }

    // ---------- Registrar ----------

    method RejectOffer(caller: Account, gift: Node, o: Open) returns (r: Status)
      modifies this
      ensures Agrees(PnsSteps.RejectOffer(old(View()), caller, gift, o), r, View())
    {
      if gift !in offers || offers[gift].recipient != caller {
        return Err(NotOffered);
      }
      r := DoTeardown(gift, caller, 0, o);
    }

    method DoMint(n: Node, caller: Account, info: Info, deposit: nat, hash: nat)
      modifies `tokens, `primary, `infos, `deposits, `records
      ensures tokens == old(tokens)[n := Token(caller, 0)] && primary == old(primary)[caller := n]
      ensures infos == old(infos)[n := info] && deposits == old(deposits)[n := (caller, deposit)]
      ensures records == old(records)[(n, SS58) := Owner(caller)][(n, ORIGIN) := BlockHash(hash)]
    {
      tokens := tokens[n := Token(caller, 0)];
      primary := primary[caller := n];
      infos := infos[n := info];
      deposits := deposits[n := (caller, deposit)];
      records := records[(n, SS58) := Owner(caller)];
      records := records[(n, ORIGIN) := BlockHash(hash)];
    }

    method DoFund(caller: Account, fees: seq<(Account, nat)>, deposit: nat) returns (r: Status)
      modifies `bank
      ensures var charged := old(bank).Charge(caller, fees);
              var held := if charged.None? then None else charged.value.Hold(CleanupDeposit, caller, deposit);
              if held.None? then r == Err(FundsUnavailable) else r == Ok(()) && bank == held.value
    {
      var charged := bank.Charge(caller, fees);
      if charged.None? {
        return Err(FundsUnavailable);
      }
      var held := charged.value.Hold(CleanupDeposit, caller, deposit);
      if held.None? {
        return Err(FundsUnavailable);
      }
      bank := held.value;
      return Ok(());
    }

    method Grant(caller: Account, name: Label, o: Open) returns (r: Status)
      modifies this
      ensures Agrees(PnsSteps.Grant(old(View()), caller, name, o), r, View())
    {
      hide Bank.Charge, Bank.Hold;
      var n, price := NameHash(name), Price(prices, name);
      r := DoFund(caller, o.fees, CleanupShare(price));
      if r.Ok? {
        DoMint(n, caller, Info(now + MAX_REGISTRATION, DEFAULT_CAPACITY, price, o.block), CleanupShare(price), o.hash);
      }
    }

    method Register(caller: Account, name: Label, reject: Option<Label>, o: Open) returns (r: Status)
      modifies this
      ensures Agrees(PnsSteps.Register(old(View()), caller, name, reject, o), r, View())
    {
      if caller in primary {
        return Err(AlreadyHasCanonicalName);
      }
      var n := NameHash(name);
      if n in reserved {
        return Err(Frozen);
      }
      if reject.Some? {
        r := RejectOffer(caller, NameHash(reject.value), o);
        if r.Err? {
          return;
        }
      }
      if n in infos && now <= infos[n].expire + GRACE_PERIOD {
        return Err(Occupied);
      }
      if n in tokens {
        r := DoTeardown(n, caller, 0, o);
        if r.Err? {
          return;
        }
      }
      r := Grant(caller, name, o);
    }

    method Renew(caller: Account, o: Open) returns (r: Status)
      modifies this
      ensures Agrees(PnsSteps.Renew(old(View()), caller, o), r, View())
    {
      if caller !in primary {
        return Err(NoCanonicalName);
      }
      var n := primary[caller];
      if !n.Child? || n !in infos || n !in deposits {
        return Err(NotRegistered);
      }
      var charged := bank.Charge(caller, o.fees);
      if charged.None? {
        return Err(FundsUnavailable);
      }
      bank := charged.value;
      infos := infos[n := infos[n].(expire := o.expire, lastBlock := o.block)];
      r := DoRotate(n, caller, CleanupShare(Price(prices, n.name)));
    }

    method Transfer(caller: Account, to: Account, o: Open) returns (r: Status)
      modifies this
      ensures Agrees(PnsSteps.Transfer(old(View()), caller, to, o), r, View())
    {
      if caller !in primary {
        return Err(NoCanonicalName);
      }
      if to in primary {
        return Err(AlreadyHasCanonicalName);
      }
      var n := primary[caller];
      if n !in tokens || n !in deposits {
        return Err(NotRegistered);
      }
      r := DoRotate(n, to, deposits[n].1);
      if r.Err? {
        return;
      }
      if !o.keepListing {
        DoUnlist(n);
      }
      primary := primary - {caller};
      DoClearUserRecords(n, o);
      DoSetOwner(n, to);
    }

    method ReleaseName(caller: Account, o: Open) returns (r: Status)
      modifies this
      ensures Agrees(PnsSteps.ReleaseName(old(View()), caller, o), r, View())
    {
      if caller !in primary {
        return Err(NoCanonicalName);
      }
      r := DoTeardown(primary[caller], caller, 0, o);
    }

    method Cleanup(caller: Account, deadline: nat, due: seq<Node>, o: Open) returns (r: Status)
      modifies this
      ensures Agrees(PnsSteps.Cleanup(old(View()), caller, deadline, due, o), r, View())
    {
      if now < deadline {
        return Err(NotExpired);
      }
      for i := 0 to |due|
        invariant CleanupEach(View(), caller, deadline, due[i..], o)
               == CleanupEach(old(View()), caller, deadline, due, o)
      {
        var n := due[i];
        if n in infos && infos[n].expire + GRACE_PERIOD == deadline && n in deposits {
          var _ := DoTeardown(n, caller, BountyFrom(deposits[n].1, o.bounty), o);
        }
        assert due[i..][1..] == due[i + 1..];
      }
      return Ok(());
    }

    method AcceptOffer(caller: Account, name: Label, o: Open) returns (r: Status)
      modifies this
      ensures Agrees(PnsSteps.AcceptOffer(old(View()), caller, name, o), r, View())
    {
      var n := NameHash(name);
      if n !in offers || offers[n].recipient != caller {
        return Err(NotOffered);
      }
      if caller in primary {
        return Err(AlreadyHasCanonicalName);
      }
      if n !in tokens || n !in deposits {
        return Err(NotRegistered);
      }
      r := DoRotate(n, o.carrier, o.amount);
      if r.Err? {
        return;
      }
      offers := offers - {n};
      DoSetOwner(n, caller);
    }

    // ---------- Marketplace ----------

    method CreateListing(caller: Account, price: nat, expiresAt: nat, o: Open) returns (r: Status)
      modifies this
      ensures Agrees(PnsSteps.CreateListing(old(View()), caller, price, expiresAt, o), r, View())
    {
      if caller !in primary {
        return Err(NoCanonicalName);
      }
      var n := primary[caller];
      if expiresAt <= now {
        return Err(ExpiryNotInFuture);
      }
      if n in listings && o.keepListing {
        return Err(AlreadyListed);
      }
      DoUnlist(n);
      var held := bank.Hold(ListingDeposit, caller, LISTING_DEPOSIT);
      if held.None? {
        return Err(FundsUnavailable);
      }
      bank := held.value;
      listings := listings[n := Listing(caller, price, expiresAt)];
      return Ok(());
    }

    method CancelListing(caller: Account) returns (r: Status)
      modifies this
      ensures Agrees(PnsSteps.CancelListing(old(View()), caller), r, View())
    {
      if caller !in primary {
        return Err(NoCanonicalName);
      }
      if primary[caller] !in listings {
        return Err(ListingNotFound);
      }
      DoUnlist(primary[caller]);
      return Ok(());
    }

    method Pay(buyer: Account, l: Listing, fees: seq<(Account, nat)>) returns (r: Status)
      modifies this`bank
      ensures match Settle(old(bank), buyer, l, fees)
              case Ok(b) => r == Ok(()) && bank == b
              case Err(e) => r == Err(e)
    {
      var cut := SumOf(fees);
      if cut > l.price - l.price * 98 / 100 {
        return Err(FeeTooHigh);
      }
      var paid := bank.Transfer(buyer, l.seller, l.price - cut);
      if paid.None? {
        return Err(FundsUnavailable);
      }
      var charged := paid.value.Charge(buyer, fees);
      if charged.None? {
        return Err(FundsUnavailable);
      }
      bank := charged.value;
      return Ok(());
    }

    method Sell(n: Node, buyer: Account, recipient: Option<Account>, o: Open) returns (r: Status)
      requires n in listings && n in tokens && n in deposits
      modifies this
      ensures Agrees(PnsSteps.Sell(old(View()), n, buyer, recipient, o), r, View())
    {
      hide ClearUserRecords, HandOver;
      r := Pay(buyer, listings[n], o.fees);
      if r.Err? {
        return;
      }
      DoUnlist(n);
      r := DoRotate(n, if recipient.None? then buyer else o.carrier, o.amount);
      if r.Err? {
        return;
      }
      primary := primary - {tokens[n].owner};
      DoClearUserRecords(n, o);
      DoHandOver(n, buyer, recipient, o);
    }

    method DoHandOver(n: Node, buyer: Account, recipient: Option<Account>, o: Open)
      requires n in tokens
      modifies this
      ensures View() == HandOver(old(View()), n, buyer, recipient, o)
    {
      if recipient.None? {
        DoSetOwner(n, buyer);
      } else {
        tokens := tokens[n := tokens[n].(owner := o.custodian)];
        offers := offers[n := Offer(recipient.value, buyer, now)];
      }
    }

    method Buy(buyer: Account, name: Label, recipient: Option<Account>, o: Open) returns (r: Status)
      modifies this
      ensures Agrees(PnsSteps.Buy(old(View()), buyer, name, recipient, o), r, View())
    {
      var n := NameHash(name);
      if n !in listings {
        return Err(ListingNotFound);
      }
      if buyer == listings[n].seller {
        return Err(BuyerIsSeller);
      }
      if recipient == Some(buyer) {
        return Err(BuyerIsRecipient);
      }
      if recipient == Some(listings[n].seller) {
        return Err(SellerIsRecipient);
      }
      if n !in tokens || n !in deposits || n in offers {
        return Err(NotForSale);
      }
      if recipient.None? && buyer in primary {
        return Err(AlreadyHasCanonicalName);
      }
      r := Sell(n, buyer, recipient, o);
    }

    method CleanupListing(caller: Account, name: Label, o: Open) returns (r: Status)
      modifies this
      ensures Agrees(PnsSteps.CleanupListing(old(View()), caller, name, o), r, View())
    {
      var n := NameHash(name);
      if n !in listings {
        return Err(ListingNotFound);
      }
      if now < SaturatingAdd(listings[n].expiresAt, LISTING_GRACE) {
        return Err(ListingNotExpired);
      }
      var row: (Account, nat) := (listings[n].seller, LISTING_DEPOSIT);
      bank := PayOut(bank, ListingDeposit, row, caller, BountyFrom(LISTING_DEPOSIT, o.bounty));
      listings := listings - {n};
      return Ok(());
    }

    // ---------- Subnames ----------

    method OfferSubname(caller: Account, name: Label, target: Account) returns (r: Status)
      modifies this
      ensures Agrees(PnsSteps.OfferSubname(old(View()), caller, name, target), r, View())
    {
      if caller !in primary {
        return Err(NoCanonicalName);
      }
      if target == caller {
        return Err(CannotOwnSubnameUnderOwnDomain);
      }
      var m := Child(primary[caller], name);
      if m in subnames && subnames[m].state.Active? {
        return Err(SubnameIsActive);
      }
      subnames := subnames[m := Subname(target, Offered)];
      inbox := Unboxed(inbox, {m}) + {(target, m)};
      return Ok(());
    }

    method AcceptSubname(caller: Account, parent: Label, name: Label) returns (r: Status)
      modifies this
      ensures Agrees(PnsSteps.AcceptSubname(old(View()), caller, parent, name), r, View())
    {
      var p, m := NameHash(parent), SubnameHash(parent, name);
      if m !in subnames || p !in tokens {
        return Err(SubnameNotFound);
      }
      if subnames[m].target != caller {
        return Err(NotSubnameTarget);
      }
      if !subnames[m].state.Offered? {
        return Err(NotOffered);
      }
      tokens := tokens[p := tokens[p].(children := tokens[p].children + 1)];
      tokens := tokens[m := Token(caller, 0)];
      origins := origins[m := p];
      subnames := subnames[m := Subname(caller, Active)];
      inbox := Unboxed(inbox, {m});
      return Ok(());
    }

    method RejectSubname(caller: Account, parent: Label, name: Label) returns (r: Status)
      modifies this
      ensures Agrees(PnsSteps.RejectSubname(old(View()), caller, parent, name), r, View())
    {
      var m := SubnameHash(parent, name);
      if m !in subnames {
        return Err(SubnameNotFound);
      }
      if subnames[m].target != caller {
        return Err(NotSubnameTarget);
      }
      if !subnames[m].state.Offered? {
        return Err(NotOffered);
      }
      subnames := subnames[m := Subname(caller, Rejected)];
      inbox := Unboxed(inbox, {m});
      return Ok(());
    }

    method DoBurn(p: Node, m: Node)
      modifies `tokens
      ensures var t := old(tokens) - {m};
              tokens == if m in old(tokens) && p in t && t[p].children > 0
                        then t[p := t[p].(children := t[p].children - 1)] else t
    {
      var burned := m in tokens;
      tokens := tokens - {m};
      if burned && p in tokens && tokens[p].children > 0 {
        tokens := tokens[p := tokens[p].(children := tokens[p].children - 1)];
      }
    }

    method DoDropSubname(p: Node, m: Node)
      modifies this
      ensures View() == DropSubname(old(View()), p, m)
    {
      DoBurn(p, m);
      DoForget({m});
    }

    method ReleaseSubname(caller: Account, parent: Label, name: Label) returns (r: Status)
      modifies this
      ensures Agrees(PnsSteps.ReleaseSubname(old(View()), caller, parent, name), r, View())
    {
      var m := SubnameHash(parent, name);
      if m !in subnames {
        return Err(SubnameNotFound);
      }
      if subnames[m].target != caller || !subnames[m].state.Active? {
        return Err(NotSubnameTarget);
      }
      DoDropSubname(NameHash(parent), m);
      return Ok(());
    }

    method RevokeSubname(caller: Account, name: Label) returns (r: Status)
      modifies this
      ensures Agrees(PnsSteps.RevokeSubname(old(View()), caller, name), r, View())
    {
      if caller !in primary {
        return Err(NoCanonicalName);
      }
      var p := primary[caller];
      var m := Child(p, name);
      if m !in subnames {
        return Err(SubnameNotFound);
      }
      DoDropSubname(p, m);
      return Ok(());
    }

    // ---------- Resolver ----------

    method CheckUseable(n: Node, owner: Account) returns (useable: bool)
      ensures useable == CheckNodeUseable(View(), n, owner)
    {
      if n !in tokens || tokens[n].owner != owner {
        return false;
      }
      return n !in infos || now < infos[n].expire;
    }

    method SetRecord(caller: Account, n: Node, t: RecordType, content: seq<nat>) returns (r: Status)
      modifies this
      ensures Agrees(PnsSteps.SetRecord(old(View()), caller, n, t, content), r, View())
    {
      if !UserSettable(t) {
        return Err(InvalidRecordType);
      }
      var useable := CheckUseable(n, caller);
      if !useable {
        return Err(InvalidPermission);
      }
      records := records[(n, t) := Bytes(content)];
      return Ok(());
    }

    method SetText(caller: Account, n: Node, kind: nat, content: seq<nat>) returns (r: Status)
      modifies this
      ensures Agrees(PnsSteps.SetText(old(View()), caller, n, kind, content), r, View())
    {
      var useable := CheckUseable(n, caller);
      if !useable {
        return Err(InvalidPermission);
      }
      texts := texts[(n, kind) := Bytes(content)];
      return Ok(());
    }

    // ---------- Governance ----------

    method SetBasePrice(origin: Origin, table: PriceTable) returns (r: Status)
      modifies `prices
      ensures Agrees(PnsSteps.SetBasePrice(old(View()), origin, table), r, View())
    {
      if !origin.Root? {
        return Err(BadOrigin);
      }
      prices := table;
      return Ok(());
    }

    method SetReserved(origin: Origin, name: Label, reserve: bool) returns (r: Status)
      modifies `reserved
      ensures Agrees(PnsSteps.SetReserved(old(View()), origin, name, reserve), r, View())
    {
      if !origin.Root? {
        return Err(BadOrigin);
      }
      reserved := if reserve then reserved + {NameHash(name)} else reserved - {NameHash(name)};
      return Ok(());
    }

    method SetOfficial(origin: Origin, who: Account) returns (r: Status)
      modifies `official, `tokens
      ensures Agrees(PnsSteps.SetOfficial(old(View()), origin, who), r, View())
    {
      if !origin.Root? {
        return Err(BadOrigin);
      }
      if Base !in tokens {
        return Err(NotRegistered);
      }
      official := who;
      tokens := tokens[Base := tokens[Base].(owner := who)];
      return Ok(());
    }

    method Govern(op: Op) returns (r: Status)
      requires op.OpSetBasePrice? || op.OpSetReserved? || op.OpSetOfficial?
      modifies this
      ensures Agrees(Apply(old(View()), op), r, View())
    {
      hide Agrees;
      match op
      case OpSetBasePrice(origin, table) => r := SetBasePrice(origin, table);
      case OpSetReserved(origin, name, reserve) => r := SetReserved(origin, name, reserve);
      case OpSetOfficial(origin, who) => r := SetOfficial(origin, who);
    }

    method Wait(op: Op) returns (r: Status)
      requires op.OpWait?
      modifies `now
      ensures Agrees(Apply(old(View()), op), r, View())
    {
      now := now + op.time;
      return Ok(());
    }

    // ---------- Dispatch ----------

    method CallRegistrar(op: Op) returns (r: Status)
      requires op.OpRegister? || op.OpRenew? || op.OpTransfer?
               || op.OpReleaseName? || op.OpCleanup? || op.OpAcceptOffer?
      modifies this
      ensures Agrees(Apply(old(View()), op), r, View())
    {
      hide Agrees;
      match op
      case OpRegister(caller, name, reject, o) => r := Register(caller, name, reject, o);
      case OpRenew(caller, o) => r := Renew(caller, o);
      case OpTransfer(caller, to, o) => r := Transfer(caller, to, o);
      case OpReleaseName(caller, o) => r := ReleaseName(caller, o);
      case OpCleanup(caller, deadline, due, o) => r := Cleanup(caller, deadline, due, o);
      case OpAcceptOffer(caller, name, o) => r := AcceptOffer(caller, name, o);
    }

    method CallMarketplace(op: Op) returns (r: Status)
      requires op.OpCreateListing? || op.OpCancelListing? || op.OpBuy? || op.OpCleanupListing?
      modifies this
      ensures Agrees(Apply(old(View()), op), r, View())
    {
      hide Agrees;
      match op
      case OpCreateListing(caller, price, expiresAt, o) => r := CreateListing(caller, price, expiresAt, o);
      case OpCancelListing(caller) => r := CancelListing(caller);
      case OpBuy(caller, name, recipient, o) => r := Buy(caller, name, recipient, o);
      case OpCleanupListing(caller, name, o) => r := CleanupListing(caller, name, o);
    }

    method CallRegistry(op: Op) returns (r: Status)
      requires op.OpOfferSubname? || op.OpAcceptSubname?
               || op.OpRejectSubname? || op.OpReleaseSubname? || op.OpRevokeSubname?
      modifies this
      ensures Agrees(Apply(old(View()), op), r, View())
    {
      hide Agrees;
      match op
      case OpOfferSubname(caller, name, target) => r := OfferSubname(caller, name, target);
      case OpAcceptSubname(caller, parent, name) => r := AcceptSubname(caller, parent, name);
      case OpRejectSubname(caller, parent, name) => r := RejectSubname(caller, parent, name);
      case OpReleaseSubname(caller, parent, name) => r := ReleaseSubname(caller, parent, name);
      case OpRevokeSubname(caller, name) => r := RevokeSubname(caller, name);
    }

    method CallResolver(op: Op) returns (r: Status)
      requires op.OpSetRecord? || op.OpSetText?
      modifies this
      ensures Agrees(Apply(old(View()), op), r, View())
    {
      hide Agrees;
      match op
      case OpSetRecord(caller, node, t, content) => r := SetRecord(caller, node, t, content);
      case OpSetText(caller, node, kind, content) => r := SetText(caller, node, kind, content);
    }

    method Call(op: Op) returns (r: Status)
      modifies this
      ensures Agrees(Apply(old(View()), op), r, View())
    {
      hide Agrees, Apply;
      if op.OpRegister? || op.OpRenew? || op.OpTransfer? || op.OpReleaseName? || op.OpCleanup? || op.OpAcceptOffer? {
        r := CallRegistrar(op);
      } else if op.OpCreateListing? || op.OpCancelListing? || op.OpBuy? || op.OpCleanupListing? {
        r := CallMarketplace(op);
      } else if op.OpSetRecord? || op.OpSetText? {
        r := CallResolver(op);
      } else if op.OpSetBasePrice? || op.OpSetReserved? || op.OpSetOfficial? {
        r := Govern(op);
      } else if op.OpWait? {
        r := Wait(op);
      } else {
        r := CallRegistry(op);
      }
    }

    /** A call either does what is specified or changes nothing; either way the invariant stays. */
    method Dispatch(op: Op) returns (r: Status)
      requires Inv(View())
      modifies this
      ensures View() == Next(old(View()), op)
      ensures r.Ok? <==> Apply(old(View()), op).Ok?
      ensures r.Err? ==> r.error == Apply(old(View()), op).error && View() == old(View())
      ensures Inv(View()) && Total(bank) == Total(old(bank))
    {
      hide Inv, Total, Apply;
      var before := View();
      StepKeeps(before, op);
      r := Call(op);
      if r.Err? {
        Restore(before);
      }
    }
  }
}
