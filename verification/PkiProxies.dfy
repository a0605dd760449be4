/** What naming a proxy has to do with being a root or an issuer: it is asked for on entry, and only then. */
module PkiProxies {
  import opened Balances
  import opened PkiTypes
  import opened PkiSteps
  import opened PkiSchedule
  import opened PkiTrust

  datatype Role = RootRole | IssuerRole

  predicate Holds(r: Registry, role: Role, a: Account) {
    match role
    case RootRole => a in r.roots
    case IssuerRole => a in r.issuers
  }

  /** The account has a delegate at present. */
  ghost predicate Delegates(r: Registry, a: Account) {
    exists proxy :: HasProxy(r.proxies, a, proxy)
  }

  lemma DelegatesMeansSome(r: Registry, a: Account)
    ensures Delegates(r, a) <==> a in r.proxies && r.proxies[a] != []
  {
    if a in r.proxies && r.proxies[a] != [] {
      assert HasProxy(r.proxies, a, r.proxies[a][0]);
    }
  }

  lemma {:induction false} UndelegatedIsShorter(proxies: seq<Account>, proxy: Account)
    requires proxy in proxies
    ensures |Undelegated(proxies, proxy)| == |proxies| - 1
    ensures multiset(proxies) == multiset(Undelegated(proxies, proxy)) + multiset{proxy}
  {
    assert proxies == [proxies[0]] + proxies[1..];
    if proxies[0] != proxy {
      UndelegatedIsShorter(proxies[1..], proxy);
    }
  }

  // ---------- On entry ----------

  /** The registry, as far as proxies and roles go. */
  ghost predicate SameRoles(r: Registry, r': Registry) {
    r'.proxies == r.proxies && r'.roots == r.roots && r'.issuers.Keys == r.issuers.Keys
  }

  /** Whether the call is about proxies or roles at all. */
  predicate OfRoles(op: Op) {
    op.OpAddProxy? || op.OpRemoveProxy? || op.OpRemoveProxies? || op.OpRegisterRoot? || op.OpIssueIssuer?
  }

  lemma OthersKeepRoles(s: State, op: Op)
    requires !OfRoles(op)
    ensures SameRoles(s.registry, Next(s, op).registry)
  {
    hide PayMint, Insert, Drop, OnInitialize, Deactivate;
    if op.OpNextBlock? {
      HookKeepsRegistry(Tick(s));
    } else if op.OpSelfDiscard? || op.OpCleanup? || op.OpSuspendCert? || op.OpReissue? {
      LifeKeepsRegistry(s, op);
    }
  }

  /** Nobody becomes a root or an issuer in a step before which it has no delegate. */
  lemma RoleNeedsProxy(s: State, op: Op, role: Role, a: Account)
    requires !Holds(s.registry, role, a) && Holds(Next(s, op).registry, role, a)
    ensures Delegates(s.registry, a)
    ensures if role.RootRole? then op.OpRegisterRoot? && op.caller == a else op.OpIssueIssuer? && op.issuer == a
  {
    hide OnInitialize, MintCert, Reissue, Drop;
    if OfRoles(op) {
      if op.OpRegisterRoot? || op.OpIssueIssuer? {
        assert HasProxy(s.registry.proxies, a, op.proxy);
      }
    } else {
      OthersKeepRoles(s, op);
    }
  }

  /** Whoever is a root or an issuer after a run became one in a step of it, with a delegate at that time. */
  lemma {:induction false} EnteredWithProxy(s: State, ops: seq<Op>, role: Role, a: Account) returns (i: nat)
    requires !Holds(s.registry, role, a) && Holds(Run(s, ops).registry, role, a)
    ensures i < |ops| && !Holds(Run(s, ops[..i]).registry, role, a) && Holds(Run(s, ops[..i + 1]).registry, role, a)
    ensures Delegates(Run(s, ops[..i]).registry, a)
    decreases |ops|
  {
    hide Next, Holds, Delegates;
    var s1 := Next(s, ops[0]);
    if Holds(s1.registry, role, a) {
      RoleNeedsProxy(s, ops[0], role, a);
      assert ops[..1][1..] == [] && ops[..0] == [];
      assert Run(s, ops[..1]) == Run(s1, []);
      i := 0;
    } else {
      var j := EnteredWithProxy(s1, ops[1..], role, a);
      i := j + 1;
      assert ops[..i][1..] == ops[1..][..j] && ops[..i + 1][1..] == ops[1..][..j + 1];
    }
  }

  // ---------- Afterwards ----------

  /** At present every root and every issuer has a delegate. */
  ghost predicate Covered(r: Registry) {
    forall role, a :: Holds(r, role, a) ==> Delegates(r, a)
  }

  /** A root or an issuer takes back the last delegation it has given. */
  ghost predicate LosesLast(s: State, op: Op) {
    && (op.OpRemoveProxy? || op.OpRemoveProxies?)
    && (op.caller in s.registry.roots || op.caller in s.registry.issuers)
    && (op.OpRemoveProxy? ==>
          HasProxy(s.registry.proxies, op.caller, op.proxy) && |s.registry.proxies[op.caller]| == 1)
  }

  lemma RemovalCovers(s: State, op: Op)
    requires Covered(s.registry) && (op.OpRemoveProxy? || op.OpRemoveProxies?)
    ensures Covered(Next(s, op).registry) <==> !LosesLast(s, op)
  {
    var r, r' := s.registry, Next(s, op).registry;
    if op.OpRemoveProxy? && HasProxy(r.proxies, op.caller, op.proxy) {
      UndelegatedIsShorter(r.proxies[op.caller], op.proxy);
    }
    DelegatesMeansSome(r', op.caller);
    if LosesLast(s, op) {
      var role := if op.caller in r.roots then RootRole else IssuerRole;
      assert Holds(r', role, op.caller) && !Delegates(r', op.caller);
    } else {
      forall role, a | Holds(r', role, a) ensures Delegates(r', a) {
        assert Holds(r, role, a) && Delegates(r, a);
        DelegatesMeansSome(r, a);
        DelegatesMeansSome(r', a);
      }
    }
  }

  /** A step leaves every root and issuer with a delegate exactly if none of them takes back its last. */
  lemma StepCovers(s: State, op: Op)
    requires Covered(s.registry)
    ensures Covered(Next(s, op).registry) <==> !LosesLast(s, op)
  {
    var r, r' := s.registry, Next(s, op).registry;
    hide OnInitialize, MintCert, Reissue, Drop, Undelegated;
    if op.OpRemoveProxy? || op.OpRemoveProxies? {
      RemovalCovers(s, op);
    } else {
      forall role, a | Holds(r', role, a) ensures Delegates(r', a) {
        DelegatesMeansSome(r, a);
        DelegatesMeansSome(r', a);
        if !Holds(r, role, a) {
          RoleNeedsProxy(s, op, role, a);
        }
        if !OfRoles(op) {
          OthersKeepRoles(s, op);
        }
      }
    }
  }

  ghost predicate AlwaysCovered(s: State, ops: seq<Op>)
    decreases |ops|
  {
    Covered(s.registry) && (ops != [] ==> AlwaysCovered(Next(s, ops[0]), ops[1..]))
  }

  /** No root and no issuer takes back its last delegation in the run. */
  ghost predicate KeepsDelegates(s: State, ops: seq<Op>)
    decreases |ops|
  {
    ops != [] ==> !LosesLast(s, ops[0]) && KeepsDelegates(Next(s, ops[0]), ops[1..])
  }

  /** All along a run every root and issuer has a delegate exactly if none of them takes back its last. */
  lemma {:induction false} CoveredWhileKept(s: State, ops: seq<Op>)
    requires Covered(s.registry)
    ensures AlwaysCovered(s, ops) <==> KeepsDelegates(s, ops)
    decreases |ops|
  {
    hide Covered, LosesLast, Next;
    if ops != [] {
      StepCovers(s, ops[0]);
      if !LosesLast(s, ops[0]) {
        CoveredWhileKept(Next(s, ops[0]), ops[1..]);
      }
    }
  }

  lemma GenesisIsCovered(free: map<Account, nat>)
    ensures Covered(Genesis(free).registry)
  {
  }

  /** So it does from genesis, where there is neither a root nor an issuer. */
  lemma CoveredFromGenesis(free: map<Account, nat>, ops: seq<Op>)
    ensures AlwaysCovered(Genesis(free), ops) <==> KeepsDelegates(Genesis(free), ops)
  {
    hide Covered, AlwaysCovered, KeepsDelegates;
    GenesisIsCovered(free);
    CoveredWhileKept(Genesis(free), ops);
  }

  /** A root stays one after it has taken back the delegation it was registered with. */
  lemma RootWithoutProxy()
    ensures var s := Run(Genesis(map[]), [OpAddProxy(1, 2), OpRegisterRoot(1, 2), OpRemoveProxy(1, 2)]);
      1 in s.registry.roots && !Delegates(s.registry, 1)
  {
    var ops := [OpAddProxy(1, 2), OpRegisterRoot(1, 2), OpRemoveProxy(1, 2)];
    var s1 := Next(Genesis(map[]), ops[0]);
    assert s1.registry.proxies[1] == [] + [2];
    assert HasProxy(s1.registry.proxies, 1, 2) && s1.registry.proxies[1] == [2] && s1.registry.proxies.Keys == {1};
    var s2 := Next(s1, ops[1]);
    var s3 := Next(s2, ops[2]);
    assert Undelegated([2], 2) == [];
    assert s3.registry.proxies == map[] && 1 in s3.registry.roots;
    assert Run(Genesis(map[]), ops) == s3 by {
      hide Next;
      assert ops[1..][1..] == ops[2..] && ops[2..][1..] == [];
      assert Run(Genesis(map[]), ops) == Run(s2, ops[2..]);
    }
  }
}
