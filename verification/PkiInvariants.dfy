/** What every reachable state of the certificate system satisfies, and what adding or removing a row keeps. */
module PkiInvariants {
  import opened Sums
  import opened Balances
  import opened PkiTypes
  import opened PkiSteps

  // ---------- The parts of the invariant ----------

  /** Hot and cold hold the same certificates, and a hot row repeats what its thumbprint hashes. */
  ghost predicate Paired(c: Certs) {
    && c.hot.Keys == c.cold.Keys
    && (forall t :: t in c.hot ==> c.hot[t] == HotRow(c.hot[t].active, t.expiry, t.root, t.issuer, t.user))
  }

  /** The three sets are the projections of the live rows. */
  ghost predicate Projected(c: Certs) {
    && c.byIssuer == (set t | t in c.hot :: (t.issuer, t))
    && c.byUser == (set t | t in c.hot :: (t.user, t))
    && c.byRoot == (set t | t in c.hot :: (t.root, t))
  }

  /** The pair index points at every live row, and at nothing else. */
  ghost predicate Resolved(c: Certs) {
    && (forall t :: t in c.hot ==> (t.user, t.issuer) in c.userIssuer && c.userIssuer[(t.user, t.issuer)] == t)
    && (forall k :: k in c.userIssuer ==>
          c.userIssuer[k] in c.hot && k == (c.userIssuer[k].user, c.userIssuer[k].issuer))
  }

  /** The device registry has exactly one entry for each live certificate of a device. */
  ghost predicate Devices(c: Certs) {
    && (forall t :: t in c.cold && c.cold[t].verdict.Tpm? ==>
          (t.root, c.cold[t].verdict.ek) in c.eks && c.eks[(t.root, c.cold[t].verdict.ek)] == t)
    && (forall k :: k in c.eks ==>
          c.eks[k] in c.cold && c.eks[k].root == k.0 && c.cold[c.eks[k]].verdict == Tpm(k.1))
  }

  ghost function Under(cold: map<Thumbprint, ColdRow>, k: TemplateKey): set<Thumbprint> {
    set t | t in cold && cold[t].template == k
  }

  /** Each template counts the certificates under it. */
  ghost predicate Counted(c: Certs) {
    && (forall t :: t in c.cold ==> c.cold[t].template in c.live)
    && (forall k :: k in c.live ==> c.live[k] == |Under(c.cold, k)|)
  }

  /** A certificate is funded by its user or its issuer, and its template is its issuer's. */
  ghost predicate Sponsored(c: Certs) {
    forall t :: t in c.cold ==>
      (c.cold[t].funder == t.user || c.cold[t].funder == t.issuer) && c.cold[t].template.0 == t.issuer
  }

  ghost predicate Agreed(c: Certs) {
    Paired(c) && Projected(c) && Resolved(c) && Devices(c) && Counted(c) && Sponsored(c)
  }

  /** Who is owed which deposit. */
  function Deposits(cold: map<Thumbprint, ColdRow>): map<Thumbprint, (Account, nat)> {
    map t | t in cold :: (cold[t].funder, cold[t].deposit)
  }

  ghost predicate Paid(s: State) {
    Solvent(s.bank, CertDeposit, Deposits(s.certs.cold))
  }

  /** Only templates that exist are counted, and no certificate was ever offered for no time at all. */
  ghost predicate Offered(s: State) {
    && s.certs.live.Keys == s.registry.templates.Keys
    && (forall n :: n in s.registry.offers ==> s.registry.offers[n].ttl > 0)
  }

  ghost predicate Inv(s: State) {
    Agreed(s.certs) && Paid(s) && Offered(s)
  }

  // ---------- Adding and discarding a template ----------

  /** The counts concern nothing but the count. */
  lemma LiveFrame(c: Certs, live: map<TemplateKey, nat>)
    requires Agreed(c) && Counted(c.(live := live))
    ensures Agreed(c.(live := live))
  {
    var d := c.(live := live);
    assert Paired(d) && Projected(d) by { hide Resolved, Devices, Counted, Sponsored; }
    assert Resolved(d) by { hide Paired, Projected, Devices, Counted, Sponsored; }
    assert Devices(d) by { hide Paired, Projected, Resolved, Counted, Sponsored; }
    assert Sponsored(d) by { hide Paired, Projected, Resolved, Devices, Counted; }
    hide Paired, Projected, Resolved, Devices, Counted, Sponsored;
  }

  lemma NewTemplateCounts(c: Certs, k: TemplateKey)
    requires Counted(c) && k !in c.live
    ensures Counted(c.(live := c.live[k := 0]))
  {
    assert Under(c.cold, k) == {};
  }

  lemma NoneUnder(c: Certs, k: TemplateKey)
    requires Counted(c) && k in c.live
    ensures c.live[k] == 0 <==> forall t :: t in c.cold ==> c.cold[t].template != k
  {
    if c.live[k] == 0 {
      assert Under(c.cold, k) == {};
      forall t | t in c.cold ensures c.cold[t].template != k {
        assert t !in Under(c.cold, k);
      }
    } else {
      var t :| t in Under(c.cold, k);
      assert t in c.cold;
    }
  }

  lemma OldTemplateCounts(c: Certs, k: TemplateKey)
    requires Counted(c) && k in c.live && c.live[k] == 0
    ensures Counted(c.(live := c.live - {k}))
  {
    NoneUnder(c, k);
  }

  // ---------- Adding a row ----------

  /** The place of `t` is free: in the pair index, and in the device registry if it names a device. */
  ghost predicate Vacant(c: Certs, t: Thumbprint, row: ColdRow) {
    && (t.user, t.issuer) !in c.userIssuer
    && !EkTaken(c, t.root, row.verdict)
    && row.template in c.live && row.template.0 == t.issuer
    && (row.funder == t.user || row.funder == t.issuer)
  }

  lemma VacantIsNew(c: Certs, t: Thumbprint, row: ColdRow)
    requires Paired(c) && Resolved(c) && Vacant(c, t, row)
    ensures t !in c.hot && t !in c.cold
  {
  }

  lemma InsertPairs(c: Certs, t: Thumbprint, row: ColdRow)
    requires Paired(c) && Projected(c)
    ensures Paired(Insert(c, t, row)) && Projected(Insert(c, t, row))
  {
    var d := Insert(c, t, row);
    assert d.hot.Keys == c.hot.Keys + {t};
    assert d.byIssuer == (set u | u in d.hot :: (u.issuer, u));
    assert d.byUser == (set u | u in d.hot :: (u.user, u));
    assert d.byRoot == (set u | u in d.hot :: (u.root, u));
  }

  lemma InsertResolves(c: Certs, t: Thumbprint, row: ColdRow)
    requires Paired(c) && Resolved(c) && Vacant(c, t, row)
    ensures Resolved(Insert(c, t, row))
  {
  }

  lemma InsertRegisters(c: Certs, t: Thumbprint, row: ColdRow)
    requires Paired(c) && Resolved(c) && Devices(c) && Vacant(c, t, row)
    ensures Devices(Insert(c, t, row))
  {
    VacantIsNew(c, t, row);
  }

  lemma UnderAdd(cold: map<Thumbprint, ColdRow>, t: Thumbprint, row: ColdRow, k: TemplateKey)
    requires t !in cold
    ensures |Under(cold[t := row], k)| == |Under(cold, k)| + if row.template == k then 1 else 0
  {
    assert Under(cold[t := row], k) == Under(cold, k) + if row.template == k then {t} else {};
  }

  lemma InsertCounts(c: Certs, t: Thumbprint, row: ColdRow)
    requires Counted(c) && t !in c.cold && row.template in c.live
    ensures Counted(Insert(c, t, row))
  {
    var d := Insert(c, t, row);
    forall k | k in d.live ensures d.live[k] == |Under(d.cold, k)| {
      UnderAdd(c.cold, t, row, k);
    }
  }

  lemma InsertSponsors(c: Certs, t: Thumbprint, row: ColdRow)
    requires Sponsored(c) && Vacant(c, t, row)
    ensures Sponsored(Insert(c, t, row))
  {
  }

  lemma InsertAgrees(c: Certs, t: Thumbprint, row: ColdRow)
    requires Agreed(c) && Vacant(c, t, row)
    ensures t !in c.hot && t !in c.cold
    ensures Agreed(Insert(c, t, row))
  {
    hide Paired, Projected, Resolved, Devices, Counted, Sponsored, Insert;
    InsertSponsors(c, t, row);
    VacantIsNew(c, t, row);
    InsertPairs(c, t, row);
    InsertResolves(c, t, row);
    InsertRegisters(c, t, row);
    InsertCounts(c, t, row);
  }

  // ---------- Removing a row ----------

  lemma RemovePairs(c: Certs, t: Thumbprint)
    requires Paired(c) && Projected(c) && t in c.hot
    ensures Paired(Remove(c, t)) && Projected(Remove(c, t))
  {
    var d := Remove(c, t);
    assert d.hot.Keys == c.hot.Keys - {t} && d.cold.Keys == c.cold.Keys - {t};
    assert d.byIssuer == (set u | u in d.hot :: (u.issuer, u));
    assert d.byUser == (set u | u in d.hot :: (u.user, u));
    assert d.byRoot == (set u | u in d.hot :: (u.root, u));
  }

  lemma RemoveResolves(c: Certs, t: Thumbprint)
    requires Paired(c) && Resolved(c) && t in c.hot
    ensures Resolved(Remove(c, t))
  {
  }

  lemma RemoveRegisters(c: Certs, t: Thumbprint)
    requires Paired(c) && Devices(c) && t in c.hot
    ensures Devices(Remove(c, t))
  {
  }

  lemma UnderSub(cold: map<Thumbprint, ColdRow>, t: Thumbprint, k: TemplateKey)
    requires t in cold
    ensures |Under(cold, k)| == |Under(cold - {t}, k)| + if cold[t].template == k then 1 else 0
  {
    assert Under(cold, k) == Under(cold - {t}, k) + if cold[t].template == k then {t} else {};
  }

  lemma RemoveCounts(c: Certs, t: Thumbprint)
    requires Counted(c) && t in c.hot && t in c.cold
    ensures Counted(Remove(c, t))
    ensures At(c.live, c.cold[t].template) > 0
  {
    UnderSub(c.cold, t, c.cold[t].template);
    var d := Remove(c, t);
    forall k | k in d.live ensures d.live[k] == |Under(d.cold, k)| {
      UnderSub(c.cold, t, k);
    }
  }

  lemma RemoveAgrees(c: Certs, t: Thumbprint)
    requires Agreed(c) && t in c.hot
    ensures Agreed(Remove(c, t))
  {
    RemovePairs(c, t);
    RemoveResolves(c, t);
    RemoveRegisters(c, t);
    RemoveCounts(c, t);
  }

  /** After a removal the removed certificate's place, and its device, are free. */
  lemma RemoveVacates(c: Certs, t: Thumbprint)
    requires Agreed(c) && t in c.hot
    ensures Remove(c, t).live.Keys == c.live.Keys
    ensures c.cold[t].template in c.live && (t.user, t.issuer) !in Remove(c, t).userIssuer
    ensures !EkTaken(Remove(c, t), t.root, c.cold[t].verdict)
  {
    RemoveCounts(c, t);
  }

  // ---------- Money ----------

  lemma DropPays(s: State, t: Thumbprint, to: Account)
    requires Paid(s) && Live(s, t)
    ensures Paid(Drop(s, t, to)) && Total(Drop(s, t, to).bank) == Total(s.bank)
    ensures s.certs.cold[t].deposit <= s.bank.Held(CertDeposit, s.certs.cold[t].funder)
  {
    var rows := Deposits(s.certs.cold);
    SolventUnhold(s.bank, CertDeposit, rows, t, to);
    assert Deposits(Drop(s, t, to).certs.cold) == rows - {t};
    UnholdConserves(s.bank, CertDeposit, s.certs.cold[t].funder, to, s.certs.cold[t].deposit);
  }

  lemma DropKeeps(s: State, t: Thumbprint, to: Account)
    requires Inv(s) && Live(s, t)
    ensures Inv(Drop(s, t, to)) && Total(Drop(s, t, to).bank) == Total(s.bank)
  {
    DropPays(s, t, to);
    RemoveAgrees(s.certs, t);
    RemoveVacates(s.certs, t);
  }

  /** A hold on the funder and a new row go together. */
  lemma InsertPays(b: Bank, c: Certs, t: Thumbprint, row: ColdRow)
    requires Solvent(b, CertDeposit, Deposits(c.cold)) && t !in c.cold
    requires b.Hold(CertDeposit, row.funder, row.deposit).Some?
    ensures Solvent(b.Hold(CertDeposit, row.funder, row.deposit).value, CertDeposit, Deposits(Insert(c, t, row).cold))
    ensures Total(b.Hold(CertDeposit, row.funder, row.deposit).value) == Total(b)
  {
    SolventHold(b, CertDeposit, Deposits(c.cold), t, row.funder, row.deposit);
    assert Deposits(Insert(c, t, row).cold) == Deposits(c.cold)[t := (row.funder, row.deposit)];
    HoldConserves(b, CertDeposit, row.funder, row.deposit);
  }

  // ---------- Suspending touches the active flag alone ----------

  lemma SuspendPairs(c: Certs, t: Thumbprint, hot: map<Thumbprint, HotRow>)
    requires Paired(c) && Projected(c) && t in c.hot && hot == c.hot[t := c.hot[t].(active := false)]
    ensures Paired(c.(hot := hot)) && Projected(c.(hot := hot))
  {
    assert hot.Keys == c.hot.Keys;
    assert c.byIssuer == (set u | u in hot :: (u.issuer, u));
    assert c.byUser == (set u | u in hot :: (u.user, u));
    assert c.byRoot == (set u | u in hot :: (u.root, u));
  }

  lemma SuspendResolves(c: Certs, t: Thumbprint, hot: map<Thumbprint, HotRow>)
    requires Resolved(c) && hot.Keys == c.hot.Keys
    ensures Resolved(c.(hot := hot))
  {
    forall u | u in hot ensures (u.user, u.issuer) in c.userIssuer && c.userIssuer[(u.user, u.issuer)] == u {
      assert u in c.hot;
    }
    forall k | k in c.userIssuer ensures c.userIssuer[k] in hot {
      assert c.userIssuer[k] in c.hot.Keys;
    }
  }

  lemma ColdStands(c: Certs, hot: map<Thumbprint, HotRow>)
    requires Agreed(c)
    ensures Devices(c.(hot := hot)) && Counted(c.(hot := hot)) && Sponsored(c.(hot := hot))
  {
    hide Paired, Projected, Resolved;
    var d := c.(hot := hot);
    assert Devices(d) by { hide Counted, Sponsored; }
    assert Counted(d) by { hide Devices, Sponsored; }
    assert Sponsored(d) by { hide Devices, Counted; }
  }

  lemma SuspendAgrees(c: Certs, t: Thumbprint, hot: map<Thumbprint, HotRow>)
    requires Agreed(c) && t in c.hot && hot == c.hot[t := c.hot[t].(active := false)]
    ensures Agreed(c.(hot := hot))
  {
    hide Paired, Projected, Resolved, Devices, Counted, Sponsored;
    assert hot.Keys == c.hot.Keys;
    ColdStands(c, hot);
    SuspendPairs(c, t, hot);
    SuspendResolves(c, t, hot);
  }

  lemma DeactivateKeeps(s: State, t: Thumbprint)
    requires Inv(s) && t in s.certs.hot
    ensures Inv(Deactivate(s, t))
  {
    hide Agreed;
    SuspendAgrees(s.certs, t, s.certs.hot[t := s.certs.hot[t].(active := false)]);
  }
}
