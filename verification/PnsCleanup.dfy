/** What the registrar's clean-up of a whole deadline takes away, and what it pays to whom. */
module PnsCleanup {
  import opened Sums
  import opened Balances
  import opened PnsTypes
  import opened PnsSteps
  import opened PnsInvariants
  import opened PnsRuns
  import opened PnsTree
  import opened PnsEffects

  /** The candidates that are due and whose subnames do not stand in the way. */
  ghost function Taken(s: State, deadline: nat, due: seq<Node>, o: Open): set<Node> {
    set n | n in due && Due(s, deadline, n) && MayGo(s, n, o)
  }

  /** What each of them is worth to `a`. */
  ghost function Gains(s: State, caller: Account, deadline: nat, due: seq<Node>, o: Open, a: Account): map<Node, nat> {
    map n | n in Taken(s, deadline, due, o) :: Gain(s, caller, n, o, a)
  }

  /** The part of `a` in the deposits recorded for them. */
  ghost function Parts(s: State, deadline: nat, due: seq<Node>, o: Open, a: Account): map<Node, nat> {
    map n | n in Taken(s, deadline, due, o) :: Share(s.deposits[n], a)
  }

  /** Taking `n` leaves the rows of every other name as they were. */
  ghost predicate TakesOnly(s: State, s1: State, n: Node) {
    && s1.infos == s.infos - {n} && s1.deposits == s.deposits - {n}
    && OthersStay(s, s1, n) && n !in s1.tokens
    && (forall m :: m != n ==> (m in s1.listings <==> m in s.listings))
    && (forall m :: m != n && m in s1.listings ==> s1.listings[m] == s.listings[m])
  }

  lemma CleanupOneTakes(s: State, caller: Account, deadline: nat, n: Node, o: Open)
    requires Inv(s) && Due(s, deadline, n) && MayGo(s, n, o)
    ensures TakesOnly(s, CleanupOne(s, caller, deadline, n, o), n)
  {
    hide Inv, Teardown;
    var s1, bounty := CleanupOne(s, caller, deadline, n, o), BountyFrom(s.deposits[n].1, o.bounty);
    CleanupPaysFinder(s, caller, deadline, n, o, 0);
    CleanupOneRows(s, caller, deadline, n, o);
    TeardownGoes(s, n, caller, bounty, o);
    TeardownListings(s, n, caller, bounty, o, s1);
    hide CleanupOne;
  }

  lemma OthersAsBefore(s: State, s1: State, k: Node, caller: Account, deadline: nat, n: Node, o: Open, a: Account)
    requires TakesOnly(s, s1, k)
    ensures n != k ==> (Due(s1, deadline, n) <==> Due(s, deadline, n))
    ensures n != k && IsName(n) ==> (MayGo(s1, n, o) <==> MayGo(s, n, o))
    ensures n != k && n in s.deposits ==> n in s1.deposits && s1.deposits[n] == s.deposits[n]
                                          && Gain(s1, caller, n, o, a) == Gain(s, caller, n, o, a)
    ensures !Due(s1, deadline, k) && (n in s1.infos ==> n in s.infos)
  {
  }

  lemma TakenAfter(s: State, s1: State, deadline: nat, due: seq<Node>, o: Open)
    requires Inv(s) && due != [] && TakesOnly(s, s1, due[0])
    requires Due(s, deadline, due[0]) && MayGo(s, due[0], o)
    ensures due[0] !in Taken(s1, deadline, due[1..], o)
    ensures Taken(s, deadline, due, o) == Taken(s1, deadline, due[1..], o) + {due[0]}
  {
    hide Inv, TakesOnly, Due, MayGo, Gain;
    OthersAsBefore(s, s1, due[0], 0, deadline, due[0], o, 0);
    forall n ensures n in Taken(s, deadline, due, o) <==> n in Taken(s1, deadline, due[1..], o) || n == due[0] {
      OthersAsBefore(s, s1, due[0], 0, deadline, n, o, 0);
      DueIsName(s, deadline, n);
      DueHasRows(s, deadline, n);
      DueHasRows(s1, deadline, n);
      assert n in due <==> n == due[0] || n in due[1..];
    }
  }

  lemma DueHasRows(s: State, deadline: nat, n: Node)
    ensures Due(s, deadline, n) ==> n in s.infos && n in s.deposits
  {
  }

  lemma RowsAfter(s: State, s1: State, caller: Account, deadline: nat, due: seq<Node>, o: Open, a: Account, n: Node)
    requires Inv(s) && due != [] && TakesOnly(s, s1, due[0]) && n in Taken(s1, deadline, due[1..], o)
    requires Due(s, deadline, due[0]) && MayGo(s, due[0], o)
    ensures n != due[0] && n in s.deposits && n in s1.deposits && s1.deposits[n] == s.deposits[n]
    ensures Gain(s1, caller, n, o, a) == Gain(s, caller, n, o, a)
  {
    hide Inv, TakesOnly, Gain;
    TakenAfter(s, s1, deadline, due, o);
    assert n in Taken(s, deadline, due, o);
    OthersAsBefore(s, s1, due[0], caller, deadline, n, o, a);
  }

  lemma GainsAfter(s: State, s1: State, caller: Account, deadline: nat, due: seq<Node>, o: Open, a: Account)
    requires Inv(s) && due != [] && TakesOnly(s, s1, due[0])
    requires Due(s, deadline, due[0]) && MayGo(s, due[0], o)
    ensures Gains(s, caller, deadline, due, o, a)
         == Gains(s1, caller, deadline, due[1..], o, a)[due[0] := Gain(s, caller, due[0], o, a)]
  {
    hide Inv, Taken, TakesOnly, Gain, MayGo;
    TakenAfter(s, s1, deadline, due, o);
    TakenHaveRows(s, deadline, due, o);
    forall n | n in Taken(s1, deadline, due[1..], o) ensures n in s1.deposits {
      RowsAfter(s, s1, caller, deadline, due, o, a, n);
    }
    forall n | n in Taken(s1, deadline, due[1..], o) ensures Gain(s1, caller, n, o, a) == Gain(s, caller, n, o, a) {
      RowsAfter(s, s1, caller, deadline, due, o, a, n);
    }
  }

  lemma PartsAfter(s: State, s1: State, deadline: nat, due: seq<Node>, o: Open, a: Account)
    requires Inv(s) && due != [] && TakesOnly(s, s1, due[0])
    requires Due(s, deadline, due[0]) && MayGo(s, due[0], o)
    ensures Parts(s, deadline, due, o, a) == Parts(s1, deadline, due[1..], o, a)[due[0] := Share(s.deposits[due[0]], a)]
  {
    hide Inv, Taken, TakesOnly, Share, MayGo;
    TakenAfter(s, s1, deadline, due, o);
    TakenHaveRows(s, deadline, due, o);
    forall n | n in Taken(s1, deadline, due[1..], o) ensures n in s1.deposits && s1.deposits[n] == s.deposits[n] {
      RowsAfter(s, s1, 0, deadline, due, o, a, n);
    }
  }

  lemma TakenHaveRows(s: State, deadline: nat, due: seq<Node>, o: Open)
    ensures forall n :: n in Taken(s, deadline, due, o) ==> n in s.deposits
  {
  }

  lemma NotTaken(s: State, caller: Account, deadline: nat, due: seq<Node>, o: Open, a: Account)
    requires due != [] && !(Due(s, deadline, due[0]) && MayGo(s, due[0], o))
    ensures Taken(s, deadline, due, o) == Taken(s, deadline, due[1..], o)
    ensures Gains(s, caller, deadline, due, o, a) == Gains(s, caller, deadline, due[1..], o, a)
    ensures Parts(s, deadline, due, o, a) == Parts(s, deadline, due[1..], o, a)
  {
    assert Taken(s, deadline, due, o) == Taken(s, deadline, due[1..], o);
  }

  lemma SumAdd<K>(m: map<K, nat>, k: K, v: nat)
    requires k !in m
    ensures Sum(m[k := v]) == v + Sum(m)
  {
    SumPut(m, k, v);
    assert m - {k} == m;
  }

  /** What is left of the canonical names, and what every account gains. */
  ghost predicate Clears(s: State, s': State, gone: set<Node>, gains: nat, parts: nat, a: Account) {
    && (forall p :: IsName(p) ==> (p in s'.tokens <==> p in s.tokens && p !in gone))
    && s'.bank.Free(a) == s.bank.Free(a) + gains
    && s'.bank.Held(CleanupDeposit, a) + parts == s.bank.Held(CleanupDeposit, a)
  }

  /**
   Clean-up of a list of candidates takes exactly those that are due and may go, and pays every account
   exactly the sum of what each of them is worth to it, in whatever order and however often they are listed.
   */
  lemma {:induction false} CleanupTakesDue(s: State, caller: Account, deadline: nat, due: seq<Node>, o: Open,
                                           a: Account)
    requires Inv(s)
    ensures Clears(s, CleanupEach(s, caller, deadline, due, o), Taken(s, deadline, due, o),
                   Sum(Gains(s, caller, deadline, due, o, a)), Sum(Parts(s, deadline, due, o, a)), a)
    decreases |due|
  {
    hide Inv, CleanupOne, Taken, Gains, Parts, MayGo, Gain, Share;
    if due == [] {
      NoneTaken(s, caller, deadline, o, a);
    } else {
      var n, s1 := due[0], CleanupOne(s, caller, deadline, due[0], o);
      CleanupPaysFinder(s, caller, deadline, n, o, a);
      CleanupOneKeeps(s, caller, deadline, n, o);
      CleanupTakesDue(s1, caller, deadline, due[1..], o, a);
      if Due(s, deadline, n) && MayGo(s, n, o) {
        CleanupOneTakes(s, caller, deadline, n, o);
        TakenAfter(s, s1, deadline, due, o);
        GainsAfter(s, s1, caller, deadline, due, o, a);
        PartsAfter(s, s1, deadline, due, o, a);
        GainsOfTaken(s1, caller, deadline, due[1..], o, a);
        SumAdd(Gains(s1, caller, deadline, due[1..], o, a), n, Gain(s, caller, n, o, a));
        SumAdd(Parts(s1, deadline, due[1..], o, a), n, Share(s.deposits[n], a));
      } else {
        NotTaken(s, caller, deadline, due, o, a);
      }
    }
  }

  lemma GainsOfTaken(s: State, caller: Account, deadline: nat, due: seq<Node>, o: Open, a: Account)
    ensures Gains(s, caller, deadline, due, o, a).Keys == Taken(s, deadline, due, o)
    ensures Parts(s, deadline, due, o, a).Keys == Taken(s, deadline, due, o)
  {
  }

  lemma NoneTaken(s: State, caller: Account, deadline: nat, o: Open, a: Account)
    ensures Taken(s, deadline, [], o) == {}
    ensures Sum(Gains(s, caller, deadline, [], o, a)) == 0 && Sum(Parts(s, deadline, [], o, a)) == 0
  {
    assert Gains(s, caller, deadline, [], o, a) == map[] && Parts(s, deadline, [], o, a) == map[];
  }

  /** What is paid to the finder for each name: the bounties alone. */
  ghost function Bounties(s: State, deadline: nat, due: seq<Node>, o: Open): map<Node, nat> {
    map n | n in Taken(s, deadline, due, o) :: BountyFrom(s.deposits[n].1, o.bounty)
  }

  /** When the candidates cover the names of the deadline, none that may go is left. */
  lemma CleanupClearsDeadline(s: State, caller: Account, deadline: nat, due: seq<Node>, o: Open)
    requires Inv(s)
    ensures Cleanup(s, caller, deadline, due, o).Ok? <==> deadline <= s.now
    ensures var r := Cleanup(s, caller, deadline, due, o);
      r.Ok? && (forall n :: Due(s, deadline, n) ==> n in due) ==>
        forall n :: Due(s, deadline, n) && MayGo(s, n, o) ==> n !in r.value.tokens
  {
    hide Inv, Gains, Parts, CleanupEach;
    CleanupTakesDue(s, caller, deadline, due, o, caller);
    forall n | Due(s, deadline, n) && MayGo(s, n, o) && n in due
      ensures n !in CleanupEach(s, caller, deadline, due, o).tokens
    {
      DueIsName(s, deadline, n);
      assert n in Taken(s, deadline, due, o);
    }
  }

  /** Someone with no deposit and no listing among the names taken gains exactly the sum of the bounties. */
  lemma FinderGainsBounties(s: State, caller: Account, deadline: nat, due: seq<Node>, o: Open)
    requires Inv(s)
    requires forall n :: n in Taken(s, deadline, due, o) ==>
               s.deposits[n].0 != caller && (n in s.listings ==> s.listings[n].seller != caller)
    ensures var s' := CleanupEach(s, caller, deadline, due, o);
      s'.bank.Free(caller) == s.bank.Free(caller) + Sum(Bounties(s, deadline, due, o))
  {
    hide Inv, Gains, Parts, Taken, Bounties, CleanupEach;
    OnlyBounties(s, caller, deadline, due, o);
    CleanupTakesDue(s, caller, deadline, due, o, caller);
  }

  lemma OnlyBounties(s: State, caller: Account, deadline: nat, due: seq<Node>, o: Open)
    requires forall n :: n in Taken(s, deadline, due, o) ==>
               s.deposits[n].0 != caller && (n in s.listings ==> s.listings[n].seller != caller)
    ensures Gains(s, caller, deadline, due, o, caller) == Bounties(s, deadline, due, o)
  {
  }
}
