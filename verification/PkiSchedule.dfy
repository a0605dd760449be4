/**
 Taking two buckets of the schedule at each block is as good as looking at every certificate,
 provided that no block goes by without its hook.
 */
module PkiSchedule {
  import opened Wrappers
  import opened Sums
  import opened Balances
  import opened MintFees
  import opened PkiTypes
  import opened PkiSteps
  import opened PkiInvariants
  import opened PkiRuns

  // ---------- The reference: a full scan ----------

  function Overdue(s: State, t: Thumbprint): State {
    if Live(s, t) && s.certs.hot[t].expiry <= s.now then Deactivate(s, t) else s
  }

  function ScanExpired(s: State, order: seq<Thumbprint>): State
    decreases |order|
  {
    if order == [] then s else ScanExpired(Overdue(s, order[0]), order[1..])
  }

  function Reaped(s: State, t: Thumbprint): State {
    if Reapable(s, t) then Drop(s, t, s.certs.cold[t].funder) else s
  }

  function ScanReapable(s: State, order: seq<Thumbprint>): State
    decreases |order|
  {
    if order == [] then s else ScanReapable(Reaped(s, order[0]), order[1..])
  }

  /** Looks at every certificate in `order`, twice: to suspend it if it expired, to drop it if its grace is over. */
  function Scan(s: State, order: seq<Thumbprint>): State {
    ScanReapable(ScanExpired(s, order), order)
  }

  ghost predicate Covers(order: seq<Thumbprint>, c: Certs) {
    forall t :: t in c.hot ==> t in order
  }

  function ScanNext(s: State, op: Op, order: Certs -> seq<Thumbprint>): State {
    if op.OpNextBlock? then Scan(s.(now := s.now + 1), order(s.certs)) else Next(s, op)
  }

  function ScanRun(s: State, ops: seq<Op>, order: Certs -> seq<Thumbprint>): State
    decreases |ops|
  {
    if ops == [] then s else ScanRun(ScanNext(s, ops[0], order), ops[1..], order)
  }

  // ---------- What the schedule keeps up ----------

  /** Nothing is filed under a block that is not its own. Entries of certificates long gone may remain. */
  ghost predicate Filed(sch: Schedule) {
    && (forall b, t :: t in Bucket(sch.expiry, b) ==> t.expiry == b)
    && (forall b, t :: t in Bucket(sch.purge, b) ==> t.expiry + INACTIVE_PURGE_PERIOD == b)
  }

  /** A certificate still to expire is filed for it; an expired one is suspended and filed for removal. */
  ghost predicate OnTime(s: State) {
    forall t :: t in s.certs.hot ==>
      if s.now < t.expiry then t in Bucket(s.schedule.expiry, t.expiry)
      else !s.certs.hot[t].active && s.now < t.expiry + INACTIVE_PURGE_PERIOD
           && t in Bucket(s.schedule.purge, t.expiry + INACTIVE_PURGE_PERIOD)
  }

  /** The rows alone: nothing active is past its expiry, and nothing is past its grace. */
  ghost predicate Punctual(s: State) {
    forall t :: t in s.certs.hot && t.expiry <= s.now ==>
      !s.certs.hot[t].active && s.now < t.expiry + INACTIVE_PURGE_PERIOD
  }

  // ---------- What a walk over a list of certificates does ----------

  ghost function Flip(hot: map<Thumbprint, HotRow>, hit: set<Thumbprint>): map<Thumbprint, HotRow> {
    map t | t in hot :: if t in hit then hot[t].(active := false) else hot[t]
  }

  /** The rows in which `s` and `s'` may differ are the active flags of `hit`. */
  ghost predicate Flips(s: State, s': State, hit: set<Thumbprint>) {
    && s'.certs == s.certs.(hot := Flip(s.certs.hot, hit))
    && s'.now == s.now && s'.bank == s.bank && s'.registry == s.registry
  }

  lemma FlipsNone(s: State)
    ensures Flips(s, s, {})
  {
    assert Flip(s.certs.hot, {}) == s.certs.hot;
  }

  lemma FlipsOne(s: State, t: Thumbprint)
    requires t in s.certs.hot
    ensures Flips(s, Deactivate(s, t), {t})
  {
    assert Flip(s.certs.hot, {t}) == s.certs.hot[t := s.certs.hot[t].(active := false)];
  }

  lemma FlipsThen(s: State, s1: State, s2: State, hit: set<Thumbprint>, more: set<Thumbprint>)
    requires Flips(s, s1, hit) && Flips(s1, s2, more)
    ensures Flips(s, s2, hit + more)
  {
    assert Flip(Flip(s.certs.hot, hit), more) == Flip(s.certs.hot, hit + more);
  }

  ghost function Due(hot: map<Thumbprint, HotRow>, due: seq<Thumbprint>): set<Thumbprint> {
    set t | t in due && t in hot
  }

  lemma {:induction false} ExpireEachFlips(s: State, due: seq<Thumbprint>)
    requires s.certs.hot.Keys == s.certs.cold.Keys
    ensures Flips(s, ExpireEach(s, due), Due(s.certs.hot, due))
    decreases |due|
  {
    if due == [] {
      FlipsNone(s);
    } else {
      var t, s1 := due[0], Expire(s, due[0]);
      hide Flips;
      if t in s.certs.hot {
        assert Flips(s, s1, {t}) by { FlipsExpire(s, t); }
        assert s1.certs.hot.Keys == s.certs.hot.Keys;
        ExpireEachFlips(s1, due[1..]);
        FlipsThen(s, s1, ExpireEach(s, due), {t}, Due(s1.certs.hot, due[1..]));
        assert Due(s.certs.hot, due) == {t} + Due(s1.certs.hot, due[1..]);
      } else {
        ExpireEachFlips(s, due[1..]);
        assert Due(s.certs.hot, due) == Due(s.certs.hot, due[1..]);
      }
    }
  }

  lemma FlipsExpire(s: State, t: Thumbprint)
    requires Live(s, t)
    ensures Flips(s, Expire(s, t), {t})
  {
    FlipsOne(s, t);
  }

  /** Each suspended certificate is filed for removal, once the grace is over; the rest stands. */
  lemma {:induction false} ExpireEachFiles(s: State, due: seq<Thumbprint>, b: nat, t: Thumbprint)
    requires s.certs.hot.Keys == s.certs.cold.Keys
    ensures ExpireEach(s, due).schedule.expiry == s.schedule.expiry
    ensures t in Bucket(ExpireEach(s, due).schedule.purge, b)
       <==> t in Bucket(s.schedule.purge, b) || (b == s.now + INACTIVE_PURGE_PERIOD && t in due && t in s.certs.hot)
    decreases |due|
  {
    if due != [] {
      assert t in due <==> t == due[0] || t in due[1..];
      ExpireEachFiles(Expire(s, due[0]), due[1..], b, t);
    }
  }

  /** The rows of `gone` are dropped, and no account is richer or poorer for it. */
  ghost predicate Drops(s: State, s': State, gone: set<Thumbprint>) {
    && s'.certs.hot == s.certs.hot - gone && s'.certs.cold == s.certs.cold - gone
    && s'.now == s.now && s'.registry == s.registry && s'.schedule == s.schedule
    && forall a :: Wealth(s'.bank, a) == Wealth(s.bank, a)
  }

  ghost function Wealth(b: Bank, a: Account): nat {
    b.Free(a) + b.Held(CertDeposit, a)
  }

  lemma DropOne(s: State, t: Thumbprint)
    requires Live(s, t)
    ensures Drops(s, Drop(s, t, s.certs.cold[t].funder), {t})
  {
  }

  lemma DropsThen(s: State, s1: State, s2: State, t: Thumbprint, gone: set<Thumbprint>)
    requires Drops(s, s1, {t}) && Drops(s1, s2, gone)
    ensures Drops(s, s2, {t} + gone)
  {
    assert s.certs.hot - {t} - gone == s.certs.hot - ({t} + gone);
    assert s.certs.cold - {t} - gone == s.certs.cold - ({t} + gone);
  }

  lemma DropsNone(s: State)
    ensures Drops(s, s, {})
  {
    assert s.certs.hot - {} == s.certs.hot && s.certs.cold - {} == s.certs.cold;
  }

  ghost function Lapsed(hot: map<Thumbprint, HotRow>, due: seq<Thumbprint>): set<Thumbprint> {
    set t | t in due && t in hot && !hot[t].active
  }

  lemma {:induction false} ReapEachDrops(s: State, due: seq<Thumbprint>)
    requires s.certs.hot.Keys == s.certs.cold.Keys
    ensures Drops(s, ReapEach(s, due), Lapsed(s.certs.hot, due))
    decreases |due|
  {
    if due == [] {
      DropsNone(s);
    } else {
      var t, s1 := due[0], Reap(s, due[0]);
      hide Drops;
      if Live(s, t) && !s.certs.hot[t].active {
        assert Drops(s, s1, {t}) by { DropOne(s, t); }
        assert s1.certs.hot == s.certs.hot - {t} && s1.certs.cold == s.certs.cold - {t} by { RemoveRows(s.certs, t); }
        ReapEachDrops(s1, due[1..]);
        DropsThen(s, s1, ReapEach(s, due), t, Lapsed(s1.certs.hot, due[1..]));
        assert Lapsed(s.certs.hot, due) == {t} + Lapsed(s1.certs.hot, due[1..]);
      } else {
        ReapEachDrops(s, due[1..]);
        assert Lapsed(s.certs.hot, due) == Lapsed(s.certs.hot, due[1..]);
      }
    }
  }

  lemma RemoveRows(c: Certs, t: Thumbprint)
    requires t in c.hot && t in c.cold
    ensures Remove(c, t).hot == c.hot - {t} && Remove(c, t).cold == c.cold - {t}
  {
  }

  // ---------- What the scan does ----------

  ghost function Expired(hot: map<Thumbprint, HotRow>, order: seq<Thumbprint>, now: nat): set<Thumbprint> {
    set t | t in order && t in hot && hot[t].expiry <= now
  }

  lemma {:induction false} ScanFlips(s: State, order: seq<Thumbprint>)
    requires s.certs.hot.Keys == s.certs.cold.Keys
    ensures Flips(s, ScanExpired(s, order), Expired(s.certs.hot, order, s.now))
    decreases |order|
  {
    if order == [] {
      FlipsNone(s);
    } else {
      var t, s1 := order[0], Overdue(s, order[0]);
      hide Flips;
      if t in s.certs.hot && s.certs.hot[t].expiry <= s.now {
        assert Flips(s, s1, {t}) by { FlipsOne(s, t); }
        assert s1.certs.hot.Keys == s.certs.hot.Keys && s1.now == s.now;
        ScanFlips(s1, order[1..]);
        FlipsThen(s, s1, ScanExpired(s, order), {t}, Expired(s1.certs.hot, order[1..], s.now));
        assert Expired(s.certs.hot, order, s.now) == {t} + Expired(s1.certs.hot, order[1..], s.now);
      } else {
        ScanFlips(s, order[1..]);
        assert Expired(s.certs.hot, order, s.now) == Expired(s.certs.hot, order[1..], s.now);
      }
    }
  }

  ghost function Ripe(hot: map<Thumbprint, HotRow>, order: seq<Thumbprint>, now: nat): set<Thumbprint> {
    set t | t in order && t in hot && !hot[t].active && hot[t].expiry + INACTIVE_PURGE_PERIOD <= now
  }

  lemma {:induction false} ScanDrops(s: State, order: seq<Thumbprint>)
    requires s.certs.hot.Keys == s.certs.cold.Keys
    ensures Drops(s, ScanReapable(s, order), Ripe(s.certs.hot, order, s.now))
    decreases |order|
  {
    if order == [] {
      DropsNone(s);
    } else {
      var t, s1 := order[0], Reaped(s, order[0]);
      hide Drops;
      if Reapable(s, t) {
        assert Drops(s, s1, {t}) by { DropOne(s, t); }
        assert s1.certs.hot == s.certs.hot - {t} && s1.certs.cold == s.certs.cold - {t} by { RemoveRows(s.certs, t); }
        ScanDrops(s1, order[1..]);
        DropsThen(s, s1, ScanReapable(s, order), t, Ripe(s1.certs.hot, order[1..], s.now));
        assert Ripe(s.certs.hot, order, s.now) == {t} + Ripe(s1.certs.hot, order[1..], s.now);
      } else {
        ScanDrops(s, order[1..]);
        assert Ripe(s.certs.hot, order, s.now) == Ripe(s.certs.hot, order[1..], s.now);
      }
    }
  }

  lemma {:induction false} ScanKeeps(s: State, order: seq<Thumbprint>)
    requires Inv(s)
    ensures Inv(ScanExpired(s, order)) && Inv(ScanReapable(s, order))
    decreases |order|
  {
    hide Inv, Deactivate, Drop;
    if order != [] {
      var t := order[0];
      if Live(s, t) {
        DeactivateKeeps(s, t);
        DropKeeps(s, t, s.certs.cold[t].funder);
      }
      ScanKeeps(Overdue(s, t), order[1..]);
      ScanKeeps(Reaped(s, t), order[1..]);
    }
  }

  // ---------- One block ----------

  lemma RowsDetermineSets(c: Certs, d: Certs)
    requires Projected(c) && Projected(d) && c.hot == d.hot
    ensures c.byIssuer == d.byIssuer && c.byUser == d.byUser && c.byRoot == d.byRoot
  {
  }

  lemma RowsDeterminePairs(c: Certs, d: Certs)
    requires Resolved(c) && Resolved(d) && c.hot == d.hot
    ensures c.userIssuer == d.userIssuer
  {
    assert c.userIssuer.Keys == d.userIssuer.Keys;
  }

  lemma RowsDetermineDevices(c: Certs, d: Certs)
    requires Devices(c) && Devices(d) && c.cold == d.cold
    ensures c.eks == d.eks
  {
    assert c.eks.Keys == d.eks.Keys;
  }

  lemma RowsDetermineCounts(c: Certs, d: Certs)
    requires Counted(c) && Counted(d) && c.cold == d.cold && c.live.Keys == d.live.Keys
    ensures c.live == d.live
  {
    assert forall k :: k in c.live ==> c.live[k] == d.live[k];
  }

  /** The rows determine every index and count. */
  lemma RowsDetermine(c: Certs, d: Certs)
    requires Agreed(c) && Agreed(d) && c.hot == d.hot && c.cold == d.cold && c.live.Keys == d.live.Keys
    ensures c == d
  {
    hide Paired, Projected, Resolved, Devices, Counted, Sponsored;
    RowsDetermineSets(c, d);
    RowsDeterminePairs(c, d);
    RowsDetermineDevices(c, d);
    RowsDetermineCounts(c, d);
  }

  /** Two ledgers that no extrinsic of the certificate system can tell apart. */
  ghost predicate SameMoney(b: Bank, b': Bank) {
    forall a :: b.Free(a) == b'.Free(a) && b.Held(CertDeposit, a) == b'.Held(CertDeposit, a)
  }

  /** Equal but for the schedule. */
  ghost predicate Same(s: State, z: State) {
    s.now == z.now && s.registry == z.registry && s.certs == z.certs && SameMoney(s.bank, z.bank)
  }

  lemma SameRowsSameState(s: State, z: State)
    requires Inv(s) && Inv(z) && s.now == z.now && s.registry == z.registry
    requires s.certs.hot == z.certs.hot && s.certs.cold == z.certs.cold
    requires forall a :: Wealth(s.bank, a) == Wealth(z.bank, a)
    ensures Same(s, z)
  {
    RowsDetermine(s.certs, z.certs);
    hide Agreed, Owed;
    forall a ensures s.bank.Free(a) == z.bank.Free(a) && s.bank.Held(CertDeposit, a) == z.bank.Held(CertDeposit, a) {
      assert s.bank.Held(CertDeposit, a) == Owed(Deposits(s.certs.cold), a);
      assert z.bank.Held(CertDeposit, a) == Owed(Deposits(z.certs.cold), a);
      assert Wealth(s.bank, a) == Wealth(z.bank, a);
    }
  }

  ghost function Expiring(hot: map<Thumbprint, HotRow>, now: nat): set<Thumbprint> {
    set t | t in hot && t.expiry == now
  }

  ghost function Leaving(hot: map<Thumbprint, HotRow>, now: nat): set<Thumbprint> {
    set t | t in hot && t.expiry + INACTIVE_PURGE_PERIOD == now
  }

  /** What a block is to do: suspend what expires in it, drop what has been expired for the whole grace period. */
  ghost predicate Turns(s: State, s': State) {
    && s'.certs.hot == Flip(s.certs.hot, Expiring(s.certs.hot, s.now)) - Leaving(s.certs.hot, s.now)
    && s'.certs.cold == s.certs.cold - Leaving(s.certs.hot, s.now)
    && s'.now == s.now && s'.registry == s.registry
    && forall a :: Wealth(s'.bank, a) == Wealth(s.bank, a)
  }

  /** The state as the hook finds it: the clock has moved on, and nothing else. */
  function Tick(s: State): State {
    s.(now := s.now + 1)
  }

  function TakeExpiry(s: State): State {
    ExpireEach(s.(schedule := s.schedule.(expiry := s.schedule.expiry - {s.now})), Bucket(s.schedule.expiry, s.now))
  }

  lemma HookIsTwoTakes(s: State)
    ensures var s1 := TakeExpiry(s);
      s1.now == s.now &&
      OnInitialize(s) == ReapEach(s1.(schedule := s1.schedule.(purge := s1.schedule.purge - {s.now})),
                                  Bucket(s1.schedule.purge, s.now))
  {
    NowStands(s.(schedule := s.schedule.(expiry := s.schedule.expiry - {s.now})), Bucket(s.schedule.expiry, s.now));
  }

  /** The expiry bucket of the coming block holds, of the live certificates, exactly those that expire in it. */
  lemma DueAreExpiring(p: State)
    requires Filed(p.schedule) && OnTime(p)
    ensures Due(p.certs.hot, Bucket(p.schedule.expiry, p.now + 1)) == Expiring(p.certs.hot, p.now + 1)
  {
  }

  lemma TakeExpiryFlips(p: State)
    requires Paired(p.certs) && Filed(p.schedule) && OnTime(p)
    ensures Flips(Tick(p), TakeExpiry(Tick(p)), Expiring(p.certs.hot, p.now + 1))
  {
    DueAreExpiring(p);
    var s := Tick(p);
    var s0 := s.(schedule := s.schedule.(expiry := s.schedule.expiry - {s.now}));
    assert s0.certs.hot.Keys == s0.certs.cold.Keys;
    hide Paired, Filed, OnTime, ExpireEach, Expiring, Due, Flip, Bucket;
    ExpireEachFlips(s0, Bucket(s.schedule.expiry, s.now));
  }

  lemma TakeExpiryFiles(p: State, b: nat, t: Thumbprint)
    requires Paired(p.certs) && Filed(p.schedule) && OnTime(p)
    ensures var s1 := TakeExpiry(Tick(p)).schedule;
      && s1.expiry == p.schedule.expiry - {p.now + 1}
      && (t in Bucket(s1.purge, b) <==>
          || t in Bucket(p.schedule.purge, b)
          || (t in Expiring(p.certs.hot, p.now + 1) && b == p.now + 1 + INACTIVE_PURGE_PERIOD))
  {
    DueAreExpiring(p);
    var s := Tick(p);
    var s0 := s.(schedule := s.schedule.(expiry := s.schedule.expiry - {s.now}));
    var due := Bucket(s.schedule.expiry, s.now);
    assert t in Due(s.certs.hot, due) <==> t in due && t in s.certs.hot;
    assert s0.certs.hot.Keys == s0.certs.cold.Keys;
    hide Paired, Filed, OnTime, ExpireEach, Expiring, Due, Bucket;
    ExpireEachFiles(s0, due, b, t);
  }

  lemma ExpiringIsNow(hot: map<Thumbprint, HotRow>, t: Thumbprint, now: nat)
    ensures t in Expiring(hot, now) <==> t in hot && t.expiry == now
    ensures t in Leaving(hot, now) <==> t in hot && t.expiry + INACTIVE_PURGE_PERIOD == now
  {
  }

  /** Of the live certificates, the removal bucket of the coming block holds exactly those whose grace is over. */
  lemma LeavingAreBooked(p: State, t: Thumbprint)
    requires Filed(p.schedule) && OnTime(p)
    ensures t in p.certs.hot && t in Bucket(p.schedule.purge, p.now + 1) <==> t in Leaving(p.certs.hot, p.now + 1)
    ensures t in Leaving(p.certs.hot, p.now + 1) ==> !p.certs.hot[t].active
  {
  }

  lemma LapsedAreLeaving(p: State)
    requires Paired(p.certs) && Filed(p.schedule) && OnTime(p)
    ensures var s1 := TakeExpiry(Tick(p));
      Lapsed(s1.certs.hot, Bucket(s1.schedule.purge, p.now + 1)) == Leaving(p.certs.hot, p.now + 1)
  {
    hide Paired, Filed, OnTime, TakeExpiry, Expiring, Leaving, Bucket;
    var s1 := TakeExpiry(Tick(p));
    TakeExpiryFlips(p);
    var due := Bucket(s1.schedule.purge, p.now + 1);
    forall t ensures t in Lapsed(s1.certs.hot, due) <==> t in Leaving(p.certs.hot, p.now + 1) {
      TakeExpiryFiles(p, p.now + 1, t);
      LeavingAreBooked(p, t);
      ExpiringIsNow(p.certs.hot, t, p.now + 1);
    }
  }

  lemma HookTurns(p: State)
    requires Paired(p.certs) && Filed(p.schedule) && OnTime(p)
    ensures Turns(Tick(p), OnInitialize(Tick(p)))
    ensures var s1 := TakeExpiry(Tick(p)).schedule;
      OnInitialize(Tick(p)).schedule == s1.(purge := s1.purge - {p.now + 1})
  {
    var s1 := TakeExpiry(Tick(p));
    assert p.certs.hot.Keys == p.certs.cold.Keys;
    hide Paired, TakeExpiry, OnInitialize, ReapEach, Lapsed, Filed, OnTime, Expiring, Leaving, Bucket;
    TakeExpiryFlips(p);
    LapsedAreLeaving(p);
    HookIsTwoTakes(Tick(p));
    var s2 := s1.(schedule := s1.schedule.(purge := s1.schedule.purge - {p.now + 1}));
    assert s2.certs.hot.Keys == p.certs.hot.Keys;
    ReapEachDrops(s2, Bucket(s1.schedule.purge, p.now + 1));
  }

  /** The schedule after the hook: the two buckets are gone, and what just expired is filed for removal. */
  lemma HookFiles(p: State, b: nat, t: Thumbprint)
    requires Paired(p.certs) && Filed(p.schedule) && OnTime(p)
    ensures var sch := OnInitialize(Tick(p)).schedule;
      && (t in Bucket(sch.expiry, b) <==> b != p.now + 1 && t in Bucket(p.schedule.expiry, b))
      && (t in Bucket(sch.purge, b) <==>
          || (b != p.now + 1 && t in Bucket(p.schedule.purge, b))
          || (t in p.certs.hot && t.expiry == p.now + 1 && b == t.expiry + INACTIVE_PURGE_PERIOD))
  {
    hide Paired, Filed, OnTime, TakeExpiry, OnInitialize, Expiring, Turns;
    HookTurns(p);
    TakeExpiryFiles(p, b, t);
    ExpiringIsNow(p.certs.hot, t, p.now + 1);
  }

  lemma HookIsOnTime(p: State)
    requires Paired(p.certs) && Filed(p.schedule) && OnTime(p)
    ensures Filed(OnInitialize(Tick(p)).schedule) && OnTime(OnInitialize(Tick(p)))
  {
    hide Paired, TakeExpiry, OnInitialize, Bucket;
    var s' := OnInitialize(Tick(p));
    HookTurns(p);
    forall b, t ensures t in Bucket(s'.schedule.expiry, b) ==> t.expiry == b {
      HookFiles(p, b, t);
    }
    forall b, t ensures t in Bucket(s'.schedule.purge, b) ==> t.expiry + INACTIVE_PURGE_PERIOD == b {
      HookFiles(p, b, t);
    }
    forall t | t in s'.certs.hot
      ensures if s'.now < t.expiry then t in Bucket(s'.schedule.expiry, t.expiry)
              else !s'.certs.hot[t].active && s'.now < t.expiry + INACTIVE_PURGE_PERIOD
                   && t in Bucket(s'.schedule.purge, t.expiry + INACTIVE_PURGE_PERIOD) {
      HookFiles(p, t.expiry, t);
      HookFiles(p, t.expiry + INACTIVE_PURGE_PERIOD, t);
    }
  }

  lemma FlipKeys(s: State, s': State, hit: set<Thumbprint>)
    requires Flips(s, s', hit)
    ensures s'.certs.hot.Keys == s.certs.hot.Keys && s'.certs.cold == s.certs.cold
  {
  }

  lemma FlipThenDrop(s: State, s1: State, s2: State, hit: set<Thumbprint>)
    requires Flips(s, s1, hit) && Flip(s.certs.hot, hit) == Flip(s.certs.hot, Expiring(s.certs.hot, s.now))
    requires Drops(s1, s2, Leaving(s.certs.hot, s.now))
    ensures Turns(s, s2)
  {
    hide Flip, Expiring, Leaving;
  }

  lemma ScanTurns(p: State, order: seq<Thumbprint>)
    requires Paired(p.certs) && Punctual(p) && Covers(order, p.certs)
    ensures Turns(Tick(p), Scan(Tick(p), order))
  {
    assert p.certs.hot.Keys == p.certs.cold.Keys;
    ScanFindsExpiring(p, order);
    ScanFindsLeaving(p, order);
    hide *;
    assert Tick(p).certs == p.certs && Tick(p).now == p.now + 1 by { TickOnly(p); }
    var s1 := ScanExpired(Tick(p), order);
    var hit := Expired(p.certs.hot, order, p.now + 1);
    ScanFlips(Tick(p), order);
    FlipKeys(Tick(p), s1, hit);
    ScanDrops(s1, order);
    assert s1.certs.hot == Flip(p.certs.hot, hit) by { FlipRows(Tick(p), s1, hit); }
    assert s1.now == Tick(p).now by { FlipRows(Tick(p), s1, hit); }
    FlipThenDrop(Tick(p), s1, ScanReapable(s1, order), hit);
    assert Scan(Tick(p), order) == ScanReapable(s1, order) by { ScanIsTwoWalks(Tick(p), order); }
  }

  lemma TickOnly(p: State)
    ensures Tick(p) == p.(now := p.now + 1)
  {
  }

  lemma FlipRows(s: State, s': State, hit: set<Thumbprint>)
    requires Flips(s, s', hit)
    ensures s'.certs.hot == Flip(s.certs.hot, hit) && s'.now == s.now
  {
  }

  lemma ScanIsTwoWalks(s: State, order: seq<Thumbprint>)
    ensures Scan(s, order) == ScanReapable(ScanExpired(s, order), order)
  {
  }

  lemma ScanFindsExpiring(p: State, order: seq<Thumbprint>)
    requires Paired(p.certs) && Punctual(p) && Covers(order, p.certs)
    ensures Flip(p.certs.hot, Expired(p.certs.hot, order, p.now + 1))
         == Flip(p.certs.hot, Expiring(p.certs.hot, p.now + 1))
  {
  }

  lemma ScanFindsLeaving(p: State, order: seq<Thumbprint>)
    requires Paired(p.certs) && Punctual(p) && Covers(order, p.certs)
    ensures Ripe(Flip(p.certs.hot, Expiring(p.certs.hot, p.now + 1)), order, p.now + 1)
         == Leaving(p.certs.hot, p.now + 1)
  {
  }

  // ---------- Blocks agree ----------

  /** The hook of a block and a full scan lead to states that nothing can tell apart. */
  lemma BlocksAgree(p: State, z: State, order: seq<Thumbprint>)
    requires Inv(p) && Inv(z) && Same(p, z)
    requires Filed(p.schedule) && OnTime(p) && Covers(order, z.certs)
    ensures Same(OnInitialize(Tick(p)), Scan(Tick(z), order))
    ensures Inv(OnInitialize(Tick(p))) && Inv(Scan(Tick(z), order))
  {
    assert Paired(p.certs) && Paired(z.certs) && Punctual(z);
    HookKept(p);
    ScanKept(z, order);
    hide Inv, Filed, OnTime, Punctual, Covers, OnInitialize, Scan, Turns;
    HookTurns(p);
    ScanTurns(z, order);
    TurnsAgree(p, z, OnInitialize(Tick(p)), Scan(Tick(z), order));
    SameRowsSameState(OnInitialize(Tick(p)), Scan(Tick(z), order));
  }

  lemma HookKept(p: State)
    requires Inv(p)
    ensures Inv(OnInitialize(Tick(p)))
  {
    hide Inv, OnInitialize;
    ScheduleIsFree(p, p.now + 1, p.schedule);
    HookKeeps(Tick(p));
  }

  lemma ScanKept(z: State, order: seq<Thumbprint>)
    requires Inv(z)
    ensures Inv(Scan(Tick(z), order))
  {
    hide Inv;
    ScheduleIsFree(z, z.now + 1, z.schedule);
    ScanKeeps(Tick(z), order);
    ScanKeeps(ScanExpired(Tick(z), order), order);
  }

  lemma TurnsAgree(p: State, z: State, p': State, z': State)
    requires Same(p, z) && Turns(Tick(p), p') && Turns(Tick(z), z')
    ensures p'.now == z'.now && p'.registry == z'.registry
    ensures p'.certs.hot == z'.certs.hot && p'.certs.cold == z'.certs.cold
    ensures forall a :: Wealth(p'.bank, a) == Wealth(z'.bank, a)
  {
    hide Expiring, Leaving, Flip;
    forall a ensures Wealth(p'.bank, a) == Wealth(z'.bank, a) {
      assert Wealth(p'.bank, a) == Wealth(p.bank, a) && Wealth(z'.bank, a) == Wealth(z.bank, a);
    }
  }

  // ---------- Other steps cannot tell the two apart ----------

  ghost predicate SameOutcome(r: Outcome, r': Outcome) {
    if r.Ok? then r'.Ok? && Same(r.value, r'.value) else r' == r
  }

  lemma HoldSame(b: Bank, b': Bank, who: Account, amount: nat)
    requires SameMoney(b, b')
    ensures b.Hold(CertDeposit, who, amount).Some? == b'.Hold(CertDeposit, who, amount).Some?
    ensures b.Hold(CertDeposit, who, amount).Some? ==>
      SameMoney(b.Hold(CertDeposit, who, amount).value, b'.Hold(CertDeposit, who, amount).value)
  {
    SameAt(b, b', who);
    if b.Hold(CertDeposit, who, amount).Some? {
      var c, c' := b.Hold(CertDeposit, who, amount).value, b'.Hold(CertDeposit, who, amount).value;
      forall a ensures c.Free(a) == c'.Free(a) && c.Held(CertDeposit, a) == c'.Held(CertDeposit, a) {
        SameAt(b, b', a);
      }
    }
  }

  lemma SameAt(b: Bank, b': Bank, a: Account)
    requires SameMoney(b, b')
    ensures At(b.free, a) == At(b'.free, a) && At(b.held, (CertDeposit, a)) == At(b'.held, (CertDeposit, a))
  {
    assert b.Free(a) == b'.Free(a);
  }

  lemma UnholdSame(b: Bank, b': Bank, from: Account, to: Account, amount: nat)
    requires SameMoney(b, b')
    ensures SameMoney(b.Unhold(CertDeposit, from, to, amount), b'.Unhold(CertDeposit, from, to, amount))
  {
    SameAt(b, b', from);
    var c, c' := b.Unhold(CertDeposit, from, to, amount), b'.Unhold(CertDeposit, from, to, amount);
    forall a ensures c.Free(a) == c'.Free(a) && c.Held(CertDeposit, a) == c'.Held(CertDeposit, a) {
      SameAt(b, b', a);
    }
  }

  lemma TransferSame(b: Bank, b': Bank, from: Account, to: Account, amount: nat)
    requires SameMoney(b, b')
    ensures b.Transfer(from, to, amount).Some? == b'.Transfer(from, to, amount).Some?
    ensures b.Transfer(from, to, amount).Some? ==>
      SameMoney(b.Transfer(from, to, amount).value, b'.Transfer(from, to, amount).value)
  {
    SameAt(b, b', from);
    if b.Transfer(from, to, amount).Some? {
      var c, c' := b.Transfer(from, to, amount).value, b'.Transfer(from, to, amount).value;
      forall a ensures c.Free(a) == c'.Free(a) && c.Held(CertDeposit, a) == c'.Held(CertDeposit, a) {
        SameAt(b, b', a);
      }
    }
  }

  lemma DropSame(s: State, z: State, t: Thumbprint, to: Account)
    requires Same(s, z) && Live(s, t)
    ensures Same(Drop(s, t, to), Drop(z, t, to))
  {
    hide Remove, SameMoney;
    UnholdSame(s.bank, z.bank, s.certs.cold[t].funder, to, s.certs.cold[t].deposit);
  }

  lemma PayMintSame(b: Bank, b': Bank, user: Account, protocol: Account, author: Option<Account>, tip: nat, fee: nat)
    requires SameMoney(b, b')
    ensures var r := PayMint(b, user, protocol, author, tip, fee);
      var r' := PayMint(b', user, protocol, author, tip, fee);
      if r.Ok? then r'.Ok? && SameMoney(r.value, r'.value) else r' == r
  {
    if Fits(fee) && tip <= (if author.Some? then TipCap(fee) else 0) {
      hide SameMoney;
      var share := ProtocolShare(fee, tip);
      TransferSame(b, b', user, protocol, share);
      if b.Transfer(user, protocol, share).Some? {
        var c, c' := b.Transfer(user, protocol, share).value, b'.Transfer(user, protocol, share).value;
        if author.Some? {
          TransferSame(c, c', user, author.value, tip);
          if c.Transfer(user, author.value, tip).Some? {
            HoldSame(c.Transfer(user, author.value, tip).value, c'.Transfer(user, author.value, tip).value,
                     user, Deposit(fee));
          }
        } else {
          HoldSame(c, c', user, Deposit(fee));
        }
      }
    }
  }

  lemma MintSame(s: State, z: State, user: Account, nonce: nat, createdAt: nat, a: MintArgs)
    requires Same(s, z)
    ensures SameOutcome(MintCert(s, user, nonce, createdAt, a), MintCert(z, user, nonce, createdAt, a))
  {
    hide SameMoney, PayMint, Insert;
    if nonce in s.registry.offers {
      var k := (s.registry.offers[nonce].issuer, s.registry.offers[nonce].template);
      if k in s.registry.templates {
        PayMintSame(s.bank, z.bank, user, a.protocol, a.author, a.tip,
                    MintFee(s.registry.templates[k].popRequired, a.verdict));
      }
    }
  }

  lemma ReissueSame(s: State, z: State, caller: Account, t: Thumbprint, v: Verdict, ttl: nat, body: nat)
    requires Same(s, z)
    ensures SameOutcome(Reissue(s, caller, t, v, ttl, body), Reissue(z, caller, t, v, ttl, body))
  {
    hide SameMoney, Insert, Remove;
    if Live(s, t) {
      var funder := s.certs.cold[t].funder;
      DropSame(s, z, t, funder);
      HoldSame(Drop(s, t, funder).bank, Drop(z, t, funder).bank, caller, CERT_DEPOSIT);
    }
  }

  lemma StepSame(s: State, z: State, op: Op)
    requires Same(s, z) && !op.OpNextBlock?
    ensures SameOutcome(Apply(s, op), Apply(z, op))
  {
    hide SameMoney, MintCert, Reissue, Drop, Insert, Remove;
    match op
    case OpMintCert(caller, nonce, createdAt, a) => MintSame(s, z, caller, nonce, createdAt, a);
    case OpReissue(caller, t, v, ttl, body) => ReissueSame(s, z, caller, t, v, ttl, body);
    case OpSelfDiscard(_, t, _) =>
      if Live(s, t) {
        DropSame(s, z, t, s.certs.cold[t].funder);
      }
    case OpCleanup(t, recipient) =>
      if Live(s, t) {
        DropSame(s, z, t, if recipient.Some? then recipient.value else s.certs.cold[t].funder);
      }
    case _ =>
  }

  // ---------- Other steps stay on time ----------

  lemma FileFiles(index: map<nat, seq<Thumbprint>>, b: nat, t: Thumbprint, b': nat, u: Thumbprint)
    ensures u in Bucket(File(index, b, t), b') <==> u in Bucket(index, b') || (b' == b && u == t)
  {
  }

  /** A certificate added, and filed, before its expiry. */
  lemma InsertOnTime(s: State, s': State, c: Certs, t: Thumbprint, row: ColdRow)
    requires Filed(s.schedule) && OnTime(s) && s.now < t.expiry && s'.now == s.now
    requires forall u :: u in c.hot ==> u in s.certs.hot && c.hot[u] == s.certs.hot[u]
    requires s'.certs == Insert(c, t, row)
    requires s'.schedule == s.schedule.(expiry := File(s.schedule.expiry, t.expiry, t))
    ensures Filed(s'.schedule) && OnTime(s')
  {
    hide Bucket, File;
    forall b, u ensures u in Bucket(s'.schedule.expiry, b) ==> u.expiry == b {
      FileFiles(s.schedule.expiry, t.expiry, t, b, u);
    }
    forall u | u in s'.certs.hot && s.now < u.expiry ensures u in Bucket(s'.schedule.expiry, u.expiry) {
      FileFiles(s.schedule.expiry, t.expiry, t, u.expiry, u);
    }
  }

  /** Fewer certificates, or fewer active ones, are no later. */
  lemma ShrinkOnTime(s: State, s': State)
    requires OnTime(s) && s'.now == s.now && s'.schedule == s.schedule
    requires forall u :: u in s'.certs.hot ==> u in s.certs.hot && (s'.certs.hot[u].active ==> s.certs.hot[u].active)
    ensures OnTime(s')
  {
  }

  lemma MintOnTime(s: State, user: Account, nonce: nat, createdAt: nat, a: MintArgs)
    requires Offered(s) && Filed(s.schedule) && OnTime(s)
    requires MintCert(s, user, nonce, createdAt, a).Ok?
    ensures Filed(MintCert(s, user, nonce, createdAt, a).value.schedule)
    ensures OnTime(MintCert(s, user, nonce, createdAt, a).value)
  {
    hide OnTime, Filed, Insert, PayMint;
    var offer := s.registry.offers[nonce];
    var k := (offer.issuer, offer.template);
    var t := Thumbprint(s.registry.issuers[offer.issuer].root, offer.issuer, user, s.now + offer.ttl, a.body);
    var fee := MintFee(s.registry.templates[k].popRequired, a.verdict);
    InsertOnTime(s, MintCert(s, user, nonce, createdAt, a).value, s.certs, t,
                 ColdRow(Deposit(fee), user, k, a.verdict));
  }

  lemma ReissueOnTime(s: State, caller: Account, t: Thumbprint, v: Verdict, ttl: nat, body: nat)
    requires Filed(s.schedule) && OnTime(s)
    requires Reissue(s, caller, t, v, ttl, body).Ok?
    ensures Filed(Reissue(s, caller, t, v, ttl, body).value.schedule)
    ensures OnTime(Reissue(s, caller, t, v, ttl, body).value)
  {
    hide OnTime, Filed, Insert;
    var h := s.certs.hot[t];
    var u := Thumbprint(h.root, h.issuer, h.user, s.now + ttl, body);
    InsertOnTime(s, Reissue(s, caller, t, v, ttl, body).value, Remove(s.certs, t), u,
                 ColdRow(CERT_DEPOSIT, caller, s.certs.cold[t].template, v));
  }

  /** Every other extrinsic only takes certificates, or their active flag, away. */
  lemma StepShrinks(s: State, op: Op)
    requires !op.OpMintCert? && !op.OpReissue? && !op.OpNextBlock? && !op.OpSkipTo?
    ensures Next(s, op).now == s.now && Next(s, op).schedule == s.schedule
    ensures forall u :: u in Next(s, op).certs.hot ==>
      u in s.certs.hot && (Next(s, op).certs.hot[u].active ==> s.certs.hot[u].active)
  {
    if (op.OpSelfDiscard? || op.OpCleanup?) && Live(s, op.t) {
      RemoveRows(s.certs, op.t);
      hide Remove;
    }
  }

  lemma StepOnTime(s: State, op: Op)
    requires Inv(s) && Filed(s.schedule) && OnTime(s) && !op.OpSkipTo?
    ensures Filed(Next(s, op).schedule) && OnTime(Next(s, op))
  {
    assert Paired(s.certs) && Offered(s);
    hide Inv, Agreed, Paired, Offered, OnTime, Filed, OnInitialize, MintCert, Reissue;
    if op.OpNextBlock? {
      HookIsOnTime(s);
    } else if op.OpMintCert? && Apply(s, op).Ok? {
      MintOnTime(s, op.caller, op.nonce, op.createdAt, op.a);
    } else if op.OpReissue? && Apply(s, op).Ok? {
      ReissueOnTime(s, op.caller, op.t, op.v, op.ttl, op.body);
    } else if !op.OpMintCert? && !op.OpReissue? {
      hide Next;
      StepShrinks(s, op);
      ShrinkOnTime(s, Next(s, op));
    }
  }

  // ---------- Runs ----------

  lemma StepsAgree(s: State, z: State, op: Op, order: Certs -> seq<Thumbprint>)
    requires Inv(s) && Inv(z) && Same(s, z) && Filed(s.schedule) && OnTime(s)
    requires !op.OpSkipTo? && Covers(order(z.certs), z.certs)
    ensures Same(Next(s, op), ScanNext(z, op, order))
    ensures Inv(Next(s, op)) && Inv(ScanNext(z, op, order))
  {
    hide Inv, Filed, OnTime, OnInitialize, Scan, Covers;
    StepKeeps(s, op);
    StepKeeps(z, op);
    if op.OpNextBlock? {
      BlocksAgree(s, z, order(z.certs));
    } else {
      StepSame(s, z, op);
      hide Apply;
    }
  }

  /** Over any run in which every block has its hook, the schedule does what scanning every certificate would. */
  lemma {:induction false} ScheduleRefinesScan(s: State, z: State, ops: seq<Op>, order: Certs -> seq<Thumbprint>)
    requires Inv(s) && Inv(z) && Same(s, z) && Filed(s.schedule) && OnTime(s)
    requires forall op :: op in ops ==> !op.OpSkipTo?
    requires forall c :: Covers(order(c), c)
    ensures Same(Run(s, ops), ScanRun(z, ops, order))
    ensures Filed(Run(s, ops).schedule) && OnTime(Run(s, ops))
    decreases |ops|
  {
    hide Inv, Filed, OnTime, Same, Next, ScanNext, Covers;
    if ops != [] {
      StepsAgree(s, z, ops[0], order);
      StepOnTime(s, ops[0]);
      ScheduleRefinesScan(Next(s, ops[0]), ScanNext(z, ops[0], order), ops[1..], order);
    }
  }

  lemma ScheduleRefinesScanFromGenesis(free: map<Account, nat>, ops: seq<Op>, order: Certs -> seq<Thumbprint>)
    requires forall op :: op in ops ==> !op.OpSkipTo?
    requires forall c :: Covers(order(c), c)
    ensures Same(Run(Genesis(free), ops), ScanRun(Genesis(free), ops, order))
    ensures OnTime(Run(Genesis(free), ops))
  {
    GenesisIsSound(free);
    hide Inv;
    ScheduleRefinesScan(Genesis(free), Genesis(free), ops, order);
  }
}
