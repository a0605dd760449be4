/** The read view of the name system that the runtime API offers. */
module PnsRuntimeApi {
  import opened Wrappers
  import opened Balances
  import opened PnsTypes
  import opened PnsSteps
  import opened PnsInvariants
  import opened PnsRuns
  import opened PnsHistory

  datatype NameRecord = NameRecord(
    owner: Account, expire: nat, capacity: nat, registerFee: nat, forSale: bool, lastBlock: nat,
    readBlockNumber: nat, readBlockHash: nat)

  /** Turns the bytes of a name into a label, if they are one. The rules are those of another repository. */
  type LabelParser = string -> Option<Label>

  /** Turns the bytes of a possibly nested name into a node, if they are one. */
  type NodeParser = string -> Option<Node>

  // ---------- The calls ----------

  function GetInfo(s: State, id: Node): Option<NameRecord> {
    if id in s.offers && s.now < SaturatingAdd(s.offers[id].offeredAt, OFFER_WINDOW) then None
    else if id !in s.infos then None
    else if s.now >= s.infos[id].expire then None
    else if id !in s.tokens then None
    else Some(NameRecord(
      s.tokens[id].owner, s.infos[id].expire, s.infos[id].capacity, s.infos[id].registerFee,
      id in s.listings, s.infos[id].lastBlock, 0, 0))
  }

  function ResolveName(parse: LabelParser, s: State, name: string): Option<NameRecord> {
    var parsed := parse(name);
    if parsed.None? then None
    else
      var node := Child(Base, parsed.value);
      if node in s.offers && s.now < SaturatingAdd(s.offers[node].offeredAt, OFFER_WINDOW) then None
      else if node !in s.infos then None
      else if s.now >= s.infos[node].expire then None
      else if node !in s.tokens then None
      else Some(NameRecord(
        s.tokens[node].owner, s.infos[node].expire, s.infos[node].capacity, s.infos[node].registerFee,
        node in s.listings, s.infos[node].lastBlock, 0, 0))
  }

  function GetListing(parse: LabelParser, s: State, name: string): Option<Listing> {
    match parse(name)
    case None => None
    case Some(l) => if NameHash(l) in s.listings then Some(s.listings[NameHash(l)]) else None
  }

  /** The requested types that have a record, in the order requested. */
  function Lookup(s: State, n: Node, types: seq<RecordType>): seq<(RecordType, Content)>
    decreases |types|
  {
    if types == [] then []
    else (if (n, types[0]) in s.records then [(types[0], s.records[(n, types[0])])] else [])
         + Lookup(s, n, types[1..])
  }

  /** A name that does not parse is looked up under the default hash. */
  function LookupByName(parse: NodeParser, s: State, name: string, types: seq<RecordType>): seq<(RecordType, Content)> {
    var node := match parse(name) case Some(n) => n case None => Zero;
    Lookup(s, node, types)
  }

  // ---------- What they agree on ----------

  /** Resolving a name is looking up its hash: in every state, at every time, for every label. */
  lemma ResolveIsGetInfo(parse: LabelParser, s: State, name: string)
    ensures parse(name).Some? ==> ResolveName(parse, s, name) == GetInfo(s, NameHash(parse(name).value))
    ensures parse(name).None? ==> ResolveName(parse, s, name) == None
  {
  }

  lemma ForSaleMeansListed(parse: LabelParser, s: State, name: string)
    ensures ResolveName(parse, s, name).Some? ==>
              (ResolveName(parse, s, name).value.forSale <==> GetListing(parse, s, name).Some?)
  {
  }

  /** When a pending gift stops hiding its name. */
  function VisibleFrom(s: State, n: Node): nat {
    if n in s.offers then SaturatingAdd(s.offers[n].offeredAt, OFFER_WINDOW) else 0
  }

  /** With storage as it is, the times at which a registered name resolves are an interval. */
  lemma VisibilityIsAnInterval(s: State, n: Node, time: nat)
    requires Reachable(s)
    ensures GetInfo(s.(now := time), n).Some? <==>
              n in s.infos && VisibleFrom(s, n) <= time < s.infos[n].expire
  {
    hide Inv, Reachable;
    ReachableIsSound(s);
    NameFacts(s, n);
  }

  /** An offer hides its name for ninety days, or to the end of time if that comes first. */
  lemma OfferHidesNinetyDays(s: State, n: Node)
    requires Reachable(s) && n in s.offers && n in s.infos && s.now < s.infos[n].expire
    ensures var end := s.offers[n].offeredAt + 7_776_000_000;
      GetInfo(s, n).None? <==> s.now < end && s.now < 0xFFFF_FFFF_FFFF_FFFF
  {
    hide Inv, Reachable;
    ReachableIsSound(s);
    NameFacts(s, n);
  }

  /** Once hidden by its expiry, a name stays hidden until it is renewed or registered again. */
  lemma ExpiredStaysHidden(s: State, ops: seq<Op>, n: Node)
    requires Reachable(s) && IsName(n) && NoRestart(s, ops, n)
    requires n in s.infos ==> s.infos[n].expire <= s.now
    ensures GetInfo(Run(s, ops), n) == None
  {
    ReachableIsSound(s);
    LapsedStaysLapsed(s, ops, n);
  }

  /**
   Forward and reverse lookup. A name not being given away resolves to `a` exactly when it is
   the primary name of `a` and has not expired.
   */
  lemma ForwardIsReverse(s: State, n: Node, a: Account)
    requires Reachable(s) && n !in s.offers
    ensures (GetInfo(s, n).Some? && GetInfo(s, n).value.owner == a) <==>
            (a in s.primary && s.primary[a] == n && n in s.infos && s.now < s.infos[n].expire)
  {
    hide Inv, Reachable;
    ReachableIsSound(s);
    if n in s.infos {
      RegisteredIsOwned(s, n, a);
    }
    if a in s.primary {
      PrimaryFacts(s, a);
    }
  }

  lemma RegisteredIsOwned(s: State, n: Node, a: Account)
    requires Inv(s) && n in s.infos && n !in s.offers
    ensures n in s.tokens && (s.tokens[n].owner == a <==> a in s.primary && s.primary[a] == n)
  {
    hide Inv;
    NameFacts(s, n);
    SettledFacts(s, n);
    if a in s.primary {
      PrimaryFacts(s, a);
    }
  }

  /** A pending offer is the only thing that separates a resolved owner from its reverse entry. */
  lemma ReverseFailsOnlyForOffers(s: State, n: Node)
    requires Reachable(s) && GetInfo(s, n).Some?
    ensures var owner := GetInfo(s, n).value.owner;
            (owner in s.primary && s.primary[owner] == n) <==> n !in s.offers
  {
    hide Inv, Reachable;
    ReachableIsSound(s);
    NameFacts(s, n);
    if n !in s.offers {
      SettledFacts(s, n);
    } else {
      OfferedIsNotPrimary(s, n);
    }
  }

  lemma OfferedIsNotPrimary(s: State, n: Node)
    requires Inv(s) && n in s.offers
    ensures forall a :: a in s.primary ==> s.primary[a] != n
  {
  }

  /** The owner record, the token and the resolved owner are the same account. */
  lemma LookupAgreesWithResolve(s: State, n: Node)
    requires Reachable(s) && n !in s.offers && GetInfo(s, n).Some?
    ensures Lookup(s, n, [SS58]) == [(SS58, Owner(GetInfo(s, n).value.owner))]
  {
    ReachableIsSound(s);
    NameFacts(s, n);
    assert Lookup(s, n, []) == [];
  }

  lemma {:induction false} NoRecordsNoAnswer(s: State, n: Node, types: seq<RecordType>)
    requires forall k :: k in s.records ==> k.0 != n
    ensures Lookup(s, n, types) == []
    decreases |types|
  {
    if types != [] {
      NoRecordsNoAnswer(s, n, types[1..]);
    }
  }

  /** The default hash never holds a record, so a name that does not parse is answered with nothing. */
  lemma UnparsedNameHasNoRecords(parse: NodeParser, s: State, name: string, types: seq<RecordType>)
    requires Reachable(s) && parse(name).None?
    ensures LookupByName(parse, s, name, types) == []
  {
    ReachableIsSound(s);
    assert Zero !in s.tokens;
    NoRecordsNoAnswer(s, Zero, types);
  }

  // ---------- Who may write records ----------

  /** Whoever a name resolves to may write its records, and nobody else while it is not on offer. */
  lemma ResolvedOwnerMayWrite(s: State, n: Node, a: Account)
    requires Reachable(s) && IsName(n)
    ensures (GetInfo(s, n).Some? && GetInfo(s, n).value.owner == a) <==>
            (CheckNodeUseable(s, n, a) && VisibleFrom(s, n) <= s.now)
  {
    hide Inv, Reachable, GetInfo, CheckNodeUseable;
    ReachableIsSound(s);
    NameFacts(s, n);
    ResolvesMeansUseable(s, n, a);
  }

  lemma ResolvesMeansUseable(s: State, n: Node, a: Account)
    requires n in s.tokens <==> n in s.infos
    ensures (GetInfo(s, n).Some? && GetInfo(s, n).value.owner == a) <==>
            (CheckNodeUseable(s, n, a) && VisibleFrom(s, n) <= s.now)
  {
  }

  /** An active subname is useable by its target, and by nobody else. */
  lemma SubnameIsUseableByTarget(s: State, m: Node, a: Account)
    requires Reachable(s) && IsSubname(m)
    ensures CheckNodeUseable(s, m, a) <==> m in s.subnames && s.subnames[m] == Subname(a, Active)
  {
    ReachableIsSound(s);
    NameFacts(s, m);
    assert m in SubnameTokens(s) <==> m in ActiveSubnames(s);
    assert m !in Names(s);
  }
}
