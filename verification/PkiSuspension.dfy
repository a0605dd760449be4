/** What suspending a certificate does, and for how long: until it goes, or is issued anew as it was. */
module PkiSuspension {
  import opened Wrappers
  import opened Balances
  import opened MintFees
  import opened PkiTypes
  import opened PkiSteps
  import opened PkiInvariants
  import opened PkiRuns
  import opened PkiSchedule
  import opened PkiHistory
  import opened PkiEffects
  import opened PkiGuards
  import opened PkiOffers

  /** The certificate is there, and not active. */
  predicate Down(s: State, t: Thumbprint) {
    t in s.certs.hot && !s.certs.hot[t].active
  }

  // ---------- The call ----------

  /** Exactly the issuer of a live certificate suspends it. The row is then inactive, and nothing else is changed. */
  lemma SuspendSucceeds(s: State, caller: Account, t: Thumbprint)
    requires Inv(s)
    ensures var r := SuspendCert(s, caller, t);
      && (r.Ok? <==> t in s.certs.hot && caller == t.issuer)
      && (t !in s.certs.hot ==> r == Err(CertNotFound))
      && (t in s.certs.hot && caller != t.issuer ==> r == Err(NotCertIssuer))
      && (r.Ok? ==>
            && Down(r.value, t) && r.value == s.(certs := s.certs.(hot := r.value.certs.hot))
            && r.value.certs.hot - {t} == s.certs.hot - {t}
            && r.value.certs.hot[t] == HotRow(false, t.expiry, t.root, t.issuer, t.user))
  {
    hide Inv;
    KeysAgree(s, t);
    OthersStand(s.certs.hot, t, HotRow(false, t.expiry, t.root, t.issuer, t.user));
  }

  lemma OthersStand(hot: map<Thumbprint, HotRow>, t: Thumbprint, row: HotRow)
    ensures hot[t := row] - {t} == hot - {t}
  {
  }

  // ---------- What can bring it back ----------

  /** The issuer replaces `t` by a certificate for the same time and with the same body, which is `t` again. */
  predicate Revives(s: State, op: Op, t: Thumbprint) {
    op.OpReissue? && op.t == t && s.now + op.ttl == t.expiry && op.body == t.body && Apply(s, op).Ok?
  }

  /** A block, whether or not earlier ones were skipped, makes nothing active and adds nothing. */
  lemma HookRevivesNothing(s: State, t: Thumbprint)
    requires s.certs.hot.Keys == s.certs.cold.Keys && t in OnInitialize(Tick(s)).certs.hot
    ensures t in s.certs.hot && (OnInitialize(Tick(s)).certs.hot[t].active ==> s.certs.hot[t].active)
  {
    hide ExpireEach, ReapEach, OnInitialize, Bucket;
    var p := Tick(s);
    var s0 := p.(schedule := p.schedule.(expiry := p.schedule.expiry - {p.now}));
    var s1 := TakeExpiry(p);
    HookIsTwoTakes(p);
    ExpireEachFlips(s0, Bucket(p.schedule.expiry, p.now));
    assert s1.certs.hot.Keys == s1.certs.cold.Keys;
    ReapEachDrops(s1.(schedule := s1.schedule.(purge := s1.schedule.purge - {p.now})),
                  Bucket(s1.schedule.purge, p.now));
  }

  lemma LifeRevivesNothing(s: State, op: Op, t: Thumbprint)
    requires op.OpSuspendCert? || op.OpSelfDiscard? || op.OpCleanup?
    requires Down(s, t) && t in Next(s, op).certs.hot
    ensures !Next(s, op).certs.hot[t].active
  {
    if !op.OpSuspendCert? && Live(s, op.t) {
      RemoveRows(s.certs, op.t);
    }
    hide Remove;
  }

  lemma ReissueOfItself(s: State, caller: Account, t: Thumbprint, v: Verdict, ttl: nat, body: nat)
    requires Inv(s) && Reissue(s, caller, t, v, ttl, body).Ok?
    ensures var s' := Reissue(s, caller, t, v, ttl, body).value;
      && (t in s'.certs.hot <==> s.now + ttl == t.expiry && body == t.body)
      && (t in s'.certs.hot ==> s'.certs.hot[t].active)
  {
    ReissueIsByIssuer(s, caller, t, v, ttl, body);
    ReissueReplaces(s, caller, t, v, ttl, body);
    var s' := Reissue(s, caller, t, v, ttl, body).value;
    var u := Thumbprint(t.root, t.issuer, t.user, s.now + ttl, body);
    ReissueKeeps(s, caller, t, v, ttl, body);
    KeysAgree(s', t);
    hide Inv, Reissue;
    assert t == u <==> s.now + ttl == t.expiry && body == t.body;
  }

  /** A suspended certificate that outlasts a step is active again exactly if its issuer issued it anew as it was. */
  lemma StepDown(s: State, op: Op, t: Thumbprint)
    requires Inv(s) && Down(s, t) && t in Next(s, op).certs.hot
    ensures Down(Next(s, op), t) <==> !Revives(s, op, t)
  {
    KeysAgree(s, t);
    hide Inv, Apply, OnInitialize;
    if op.OpMintCert? || op.OpReissue? {
      IssueDown(s, op, t);
    } else if op.OpNextBlock? {
      BlockRevivesNothing(s, t);
    } else if op.OpSuspendCert? || op.OpSelfDiscard? || op.OpCleanup? {
      LifeRevivesNothing(s, op, t);
    } else {
      hide Next;
      RegistrySpares(s, op, t);
    }
  }

  lemma BlockRevivesNothing(s: State, t: Thumbprint)
    requires Inv(s) && t in Next(s, OpNextBlock).certs.hot
    ensures t in s.certs.hot && (Next(s, OpNextBlock).certs.hot[t].active ==> s.certs.hot[t].active)
  {
    IndexParts(s);
    assert s.certs.hot.Keys == s.certs.cold.Keys;
    hide Inv, OnInitialize;
    HookRevivesNothing(s, t);
  }

  lemma IssueDown(s: State, op: Op, t: Thumbprint)
    requires Inv(s) && Down(s, t) && t in Next(s, op).certs.hot && (op.OpMintCert? || op.OpReissue?)
    ensures Down(Next(s, op), t) <==> !Revives(s, op, t)
  {
    hide Inv, MintCert, Reissue, Resolved, Devices, Paired;
    KeysAgree(s, t);
    IndexParts(s);
    if Apply(s, op).Ok? {
      if op.OpMintCert? {
        MintSpares(s, op.caller, op.nonce, op.createdAt, op.a, t);
      } else if op.t == t {
        ReissueOfItself(s, op.caller, t, op.v, op.ttl, op.body);
      } else {
        ReissueSpares(s, op.caller, op.t, op.v, op.ttl, op.body, t);
      }
    }
  }

  // ---------- Runs ----------

  /** `t` is there in every state of the run. */
  ghost predicate LivesOn(s: State, ops: seq<Op>, t: Thumbprint)
    decreases |ops|
  {
    t in s.certs.hot && (ops != [] ==> LivesOn(Next(s, ops[0]), ops[1..], t))
  }

  ghost predicate AlwaysDown(s: State, ops: seq<Op>, t: Thumbprint)
    decreases |ops|
  {
    Down(s, t) && (ops != [] ==> AlwaysDown(Next(s, ops[0]), ops[1..], t))
  }

  ghost predicate NeverRevived(s: State, ops: seq<Op>, t: Thumbprint)
    decreases |ops|
  {
    ops != [] ==> !Revives(s, ops[0], t) && NeverRevived(Next(s, ops[0]), ops[1..], t)
  }

  /** As long as a suspended certificate is there, it is inactive, exactly until it is issued anew as it was. */
  lemma {:induction false} DownWhileNotRevived(s: State, ops: seq<Op>, t: Thumbprint)
    requires Inv(s) && Down(s, t) && LivesOn(s, ops, t)
    ensures AlwaysDown(s, ops, t) <==> NeverRevived(s, ops, t)
    ensures NeverRevived(s, ops, t) ==> Down(Run(s, ops), t)
    decreases |ops|
  {
    hide Inv, Down, Next, Revives;
    if ops != [] {
      assert LivesOn(Next(s, ops[0]), ops[1..], t);
      StepDown(s, ops[0], t);
      StepKeeps(s, ops[0]);
      if !Revives(s, ops[0], t) {
        DownWhileNotRevived(Next(s, ops[0]), ops[1..], t);
      }
    }
  }

  /**
   From a suspension on, whatever else happens: as long as the certificate is there and not issued anew as it
   was, it is inactive, and anyone's clean-up of it succeeds exactly from its expiry plus the purge period on.
   */
  lemma SuspendedIsReaped(s: State, caller: Account, t: Thumbprint, ops: seq<Op>, recipient: Option<Account>)
    requires Inv(s) && SuspendCert(s, caller, t).Ok?
    requires LivesOn(SuspendCert(s, caller, t).value, ops, t) && NeverRevived(SuspendCert(s, caller, t).value, ops, t)
    ensures AlwaysDown(SuspendCert(s, caller, t).value, ops, t)
    ensures var s' := Run(SuspendCert(s, caller, t).value, ops);
      Cleanup(s', t, recipient).Ok? <==> t.expiry + INACTIVE_PURGE_PERIOD <= s'.now
  {
    hide Inv, SuspendCert, Cleanup, Next;
    SuspendSucceeds(s, caller, t);
    StepKeepsSuspension(s, caller, t);
    DownWhileNotRevived(SuspendCert(s, caller, t).value, ops, t);
    RunKeeps(SuspendCert(s, caller, t).value, ops);
    CleanupSucceeds(Run(SuspendCert(s, caller, t).value, ops), t, recipient);
  }

  lemma StepKeepsSuspension(s: State, caller: Account, t: Thumbprint)
    requires Inv(s) && SuspendCert(s, caller, t).Ok?
    ensures Inv(SuspendCert(s, caller, t).value)
  {
    hide Inv, SuspendCert;
    StepKeeps(s, OpSuspendCert(caller, t));
  }

  // ---------- With every hook run ----------

  /** A suspended certificate is there, inactive, up to the end of its grace, and then gone. */
  ghost predicate DownInTime(s: State, t: Thumbprint) {
    if s.now < t.expiry + INACTIVE_PURGE_PERIOD then Down(s, t) else t !in s.certs.hot
  }

  /** The call succeeds in replacing or discarding `t`. */
  predicate Takes(s: State, op: Op, t: Thumbprint) {
    (op.OpReissue? || op.OpSelfDiscard?) && op.t == t && Apply(s, op).Ok?
  }

  ghost predicate NeverTaken(s: State, ops: seq<Op>, t: Thumbprint)
    decreases |ops|
  {
    ops != [] ==> !Takes(s, ops[0], t) && NeverTaken(Next(s, ops[0]), ops[1..], t)
  }

  lemma TurnsDown(s: State, s': State, t: Thumbprint)
    requires Turns(Tick(s), s') && DownInTime(s, t)
    ensures DownInTime(s', t)
  {
    ExpiringIsNow(s.certs.hot, t, s.now + 1);
    hide Expiring, Leaving, Wealth;
    assert t in s'.certs.hot <==> t in s.certs.hot && t.expiry + INACTIVE_PURGE_PERIOD != s.now + 1;
  }

  lemma BlockDown(s: State, t: Thumbprint)
    requires Paired(s.certs) && Filed(s.schedule) && OnTime(s) && DownInTime(s, t)
    ensures DownInTime(Next(s, OpNextBlock), t)
  {
    hide Paired, Filed, OnTime, OnInitialize, TakeExpiry, Turns, DownInTime;
    HookTurns(s);
    TurnsDown(s, OnInitialize(Tick(s)), t);
  }

  lemma SuspendAgain(s: State, op: Op, t: Thumbprint)
    requires op.OpSuspendCert? && op.t == t && Down(s, t)
    ensures Down(Next(s, op), t)
  {
  }

  lemma StepDownInTime(s: State, op: Op, t: Thumbprint)
    requires Inv(s) && Filed(s.schedule) && OnTime(s) && DownInTime(s, t)
    requires !op.OpSkipTo? && !Takes(s, op, t)
    ensures DownInTime(Next(s, op), t)
  {
    KeysAgree(s, t);
    IndexParts(s);
    assert Offered(s);
    hide Inv, Paired, Filed, OnTime, Apply, Offered, Resolved, Devices;
    if op.OpNextBlock? {
      BlockDown(s, t);
    } else {
      ClockMovesOn(s, op);
      if s.now < t.expiry + INACTIVE_PURGE_PERIOD {
        if op.OpSuspendCert? && op.t == t {
          SuspendAgain(s, op, t);
        } else {
          SparedUnlessActedOn(s, op, t);
        }
      } else if t in Next(s, op).certs.hot {
        NewcomersExpireLater(s, op, t);
      }
    }
  }

  /**
   While every block has its hook, a suspended certificate that is neither replaced nor discarded stays,
   inactive, exactly until its grace is over: suspension ends its use and not its term.
   */
  lemma {:induction false} SuspendedServesItsTerm(s: State, ops: seq<Op>, t: Thumbprint)
    requires Inv(s) && Filed(s.schedule) && OnTime(s) && DownInTime(s, t)
    requires NeverTaken(s, ops, t) && forall op :: op in ops ==> !op.OpSkipTo?
    ensures DownInTime(Run(s, ops), t)
    decreases |ops|
  {
    hide Inv, Filed, OnTime, DownInTime, Next, Takes;
    if ops != [] {
      StepDownInTime(s, ops[0], t);
      StepOnTime(s, ops[0]);
      StepKeeps(s, ops[0]);
      SuspendedServesItsTerm(Next(s, ops[0]), ops[1..], t);
    }
  }

  // ---------- A run that revives ----------

  /** Issuer 3 offers, user 5 mints, and 3 suspends the certificate and at once issues it anew as it was. */
  function RevivingRun(): seq<Op> {
    [OpOfferContract(3, 5, 10, "t", 0), OpMintCert(5, 0, 1, PackedMint()), OpSuspendCert(3, Thumbprint(1, 3, 5, 11, 0)),
     OpReissue(3, Thumbprint(1, 3, 5, 11, 0), Packed, 10, 0)]
  }

  /** Offer 0, from 3 to 5 for ten blocks, can be minted. */
  ghost predicate Mintable(s: State) {
    && OnFile(s, 0, 3, 5, "t", 10, 1) && 3 in s.registry.issuers && s.registry.issuers[3].root == 1
    && (3, "t") in s.registry.templates && !s.registry.templates[(3, "t")].popRequired
    && (5, 3) !in s.certs.userIssuer && s.now == 1 && s.bank.Free(5) >= MINT_FEE_PACKED
  }

  lemma OfferedIsMintable(s: State)
    requires Founded(s)
    ensures var s1 := Next(s, OpOfferContract(3, 5, 10, "t", 0)); Mintable(s1) && s1.bank == s.bank
  {
  }

  lemma MintedIsLive(s: State)
    requires Mintable(s) && Inv(s)
    ensures var s1 := Next(s, OpMintCert(5, 0, 1, PackedMint()));
      Thumbprint(1, 3, 5, 11, 0) in s1.certs.hot && s1.now == 1 && s1.bank.Free(3) == s.bank.Free(3)
  {
    hide Inv, MintCert;
    PackedMintSucceeds(s, 5, 0);
    MintHonoursOffer(s, 5, 0, 1, PackedMint(), 0, PackedMint());
    assert Minted(s, 5, 0, PackedMint()) == Thumbprint(1, 3, 5, 11, 0);
    ClockMovesOn(s, OpMintCert(5, 0, 1, PackedMint()));
    MintSplitsFee(s, 5, 0, 1, PackedMint(), 3);
  }

  lemma MintOffered(s: State)
    requires Founded(s) && Inv(s)
    ensures var s2 := Next(Next(s, OpOfferContract(3, 5, 10, "t", 0)), OpMintCert(5, 0, 1, PackedMint()));
      Thumbprint(1, 3, 5, 11, 0) in s2.certs.hot && s2.now == 1 && Inv(s2) && s2.bank.Free(3) == s.bank.Free(3)
  {
    hide Inv, Next, Mintable, Founded;
    var s1 := Next(s, OpOfferContract(3, 5, 10, "t", 0));
    StepKeeps(s, OpOfferContract(3, 5, 10, "t", 0));
    OfferedIsMintable(s);
    MintedIsLive(s1);
    StepKeeps(s1, OpMintCert(5, 0, 1, PackedMint()));
  }

  lemma Reviving(s: State, t: Thumbprint)
    requires Inv(s) && t in s.certs.hot && t.issuer == 3 && s.now + 10 == t.expiry && t.body == 0
    requires s.bank.Free(3) >= UNIT
    ensures var s1 := Next(s, OpSuspendCert(3, t));
      Down(s1, t) && t in Next(s1, OpReissue(3, t, Packed, 10, 0)).certs.hot
      && !Down(Next(s1, OpReissue(3, t, Packed, 10, 0)), t)
  {
    hide Inv, SuspendCert, Reissue;
    SuspendSucceeds(s, 3, t);
    StepKeeps(s, OpSuspendCert(3, t));
    var s1 := Next(s, OpSuspendCert(3, t));
    ReissueSucceeds(s1, 3, t, Packed, 10, 0);
    ReissueOfItself(s1, 3, t, Packed, 10, 0);
  }

  /** After its third step the certificate is suspended, and after the fourth it is active again. */
  lemma SuspensionIsUndone()
    ensures var s := Run(Genesis(map[5 := MINT_FEE_PACKED, 3 := UNIT]), FoundingRun());
      && Down(Run(s, RevivingRun()[..3]), Thumbprint(1, 3, 5, 11, 0))
      && Thumbprint(1, 3, 5, 11, 0) in Run(s, RevivingRun()).certs.hot
      && !Down(Run(s, RevivingRun()), Thumbprint(1, 3, 5, 11, 0))
  {
    hide Inv, Next, Founded, Down;
    var (t, free) := (Thumbprint(1, 3, 5, 11, 0), map[5 := MINT_FEE_PACKED, 3 := UNIT]);
    Founding(free);
    GenesisIsSound(free);
    RunKeeps(Genesis(free), FoundingRun());
    var s, ops := Run(Genesis(free), FoundingRun()), RevivingRun();
    MintOffered(s);
    var s2 := Next(Next(s, ops[0]), ops[1]);
    Reviving(s2, t);
    RunByFours(s, ops);
  }

  lemma RunByFours(s: State, ops: seq<Op>)
    requires |ops| == 4
    ensures Run(s, ops[..3]) == Next(Next(Next(s, ops[0]), ops[1]), ops[2])
    ensures Run(s, ops) == Next(Next(Next(Next(s, ops[0]), ops[1]), ops[2]), ops[3])
  {
    hide Next;
    var s2 := Next(Next(s, ops[0]), ops[1]);
    assert ops[..3][1..] == ops[1..3] && ops[1..3][1..] == ops[2..3] && ops[2..3][1..] == [];
    assert Run(s, ops[..3]) == Run(s2, ops[2..3]);
    assert Run(s2, ops[2..3]) == Run(Next(s2, ops[2]), []);
    assert ops[1..][1..] == ops[2..] && ops[2..][1..] == ops[3..] && ops[3..][1..] == [];
    assert Run(s, ops) == Run(s2, ops[2..]);
    assert Run(s2, ops[2..]) == Run(Next(Next(s2, ops[2]), ops[3]), []);
  }
}
