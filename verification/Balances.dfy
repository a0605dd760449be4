/**
 The part of pallet_balances the two ledgers use: a free balance for every account,
 and balances on hold that each carry the reason for which they are held.
 */
module Balances {
  import opened Wrappers
  import opened Sums

  type Account = nat

  datatype HoldReason = CleanupDeposit | ListingDeposit | CertDeposit

  datatype Bank = Bank(free: map<Account, nat>, held: map<(HoldReason, Account), nat>) {

    function Free(who: Account): nat {
      At(free, who)
    }

    function Held(reason: HoldReason, who: Account): nat {
      At(held, (reason, who))
    }

    function Transfer(from: Account, to: Account, amount: nat): Option<Bank> {
      if Free(from) < amount then None
      else Some(this.(free := Plus(Minus(free, from, amount), to, amount)))
    }

    function Hold(reason: HoldReason, who: Account, amount: nat): Option<Bank> {
      if Free(who) < amount then None
      else Some(Bank(Minus(free, who, amount), Plus(held, (reason, who), amount)))
    }

    /** Takes `amount`, or what there is of it, out of the hold of `from` and pays it to `to`. */
    function Unhold(reason: HoldReason, from: Account, to: Account, amount: nat): Bank {
      var paid := Min(amount, Held(reason, from));
      Bank(Plus(free, to, paid), Minus(held, (reason, from), paid))
    }

    /** Pays every entry of `fees` out of the free balance of `from`. */
    function Charge(from: Account, fees: seq<(Account, nat)>): Option<Bank>
      decreases |fees|
    {
      if fees == [] then Some(this)
      else
        match Transfer(from, fees[0].0, fees[0].1)
        case None => None
        case Some(b) => b.Charge(from, fees[1..])
    }
  }

  function SumOf(fees: seq<(Account, nat)>): nat {
    if fees == [] then 0 else fees[0].1 + SumOf(fees[1..])
  }

  /** `amount` if `same`, and nothing otherwise: a term of an account-by-account equation. */
  function If(same: bool, amount: nat): nat {
    if same then amount else 0
  }

  /** What an account is paid by a list of fees. */
  function Received(fees: seq<(Account, nat)>, who: Account): nat {
    if fees == [] then 0 else If(fees[0].0 == who, fees[0].1) + Received(fees[1..], who)
  }

  // ---------- Conservation ----------

  ghost function Total(b: Bank): nat {
    Sum(b.free) + Sum(b.held)
  }

  lemma TransferConserves(b: Bank, from: Account, to: Account, amount: nat)
    requires b.Transfer(from, to, amount).Some?
    ensures Total(b.Transfer(from, to, amount).value) == Total(b)
  {
    SumMinus(b.free, from, amount);
    SumPlus(Minus(b.free, from, amount), to, amount);
  }

  lemma HoldConserves(b: Bank, reason: HoldReason, who: Account, amount: nat)
    requires b.Hold(reason, who, amount).Some?
    ensures Total(b.Hold(reason, who, amount).value) == Total(b)
  {
    SumMinus(b.free, who, amount);
    SumPlus(b.held, (reason, who), amount);
  }

  lemma UnholdConserves(b: Bank, reason: HoldReason, from: Account, to: Account, amount: nat)
    ensures Total(b.Unhold(reason, from, to, amount)) == Total(b)
  {
    var paid := Min(amount, b.Held(reason, from));
    SumPlus(b.free, to, paid);
    SumMinus(b.held, (reason, from), paid);
  }

  lemma {:induction false} ChargeConserves(b: Bank, from: Account, fees: seq<(Account, nat)>)
    requires b.Charge(from, fees).Some?
    ensures Total(b.Charge(from, fees).value) == Total(b)
    ensures b.Charge(from, fees).value.held == b.held
    decreases |fees|
  {
    if fees != [] {
      TransferConserves(b, from, fees[0].0, fees[0].1);
      ChargeConserves(b.Transfer(from, fees[0].0, fees[0].1).value, from, fees[1..]);
    }
  }

  /** A charge costs its payer what the fees add up to, and pays each account what they name for it. */
  lemma {:induction false} ChargeMoves(b: Bank, from: Account, fees: seq<(Account, nat)>, a: Account)
    requires b.Charge(from, fees).Some?
    ensures b.Charge(from, fees).value.Free(a) + If(a == from, SumOf(fees)) == b.Free(a) + Received(fees, a)
    decreases |fees|
  {
    if fees != [] {
      ChargeMoves(b.Transfer(from, fees[0].0, fees[0].1).value, from, fees[1..], a);
    }
  }

  // ---------- What an account can pay ----------

  /** With `free` at hand, `who` can pay the fees one after the other; one that names `who` comes back at once. */
  ghost predicate Affords(free: nat, who: Account, fees: seq<(Account, nat)>) {
    forall i :: 0 <= i < |fees| ==> SumOf(fees[..i + 1]) <= free + Received(fees[..i], who)
  }

  lemma Prefixes(fees: seq<(Account, nat)>, i: nat, who: Account)
    requires 0 < i <= |fees|
    ensures SumOf(fees[..i]) == fees[0].1 + SumOf(fees[1..][..i - 1])
    ensures Received(fees[..i], who) == If(fees[0].0 == who, fees[0].1) + Received(fees[1..][..i - 1], who)
  {
    assert fees[..i][1..] == fees[1..][..i - 1];
  }

  /** To afford a list of fees is to afford the first, and with what is left then the others. */
  lemma AffordsFirst(free: nat, who: Account, fees: seq<(Account, nat)>)
    requires fees != []
    ensures Affords(free, who, fees) <==>
      fees[0].1 <= free && Affords(free - fees[0].1 + If(fees[0].0 == who, fees[0].1), who, fees[1..])
  {
    Prefixes(fees, 1, who);
    if Affords(free, who, fees) {
      assert SumOf(fees[..0 + 1]) <= free + Received(fees[..0], who);
      forall i | 0 <= i < |fees| - 1
        ensures SumOf(fees[1..][..i + 1]) + fees[0].1
             <= free + If(fees[0].0 == who, fees[0].1) + Received(fees[1..][..i], who)
      {
        Prefixes(fees, i + 2, who);
        Prefixes(fees, i + 1, who);
        assert SumOf(fees[..i + 1 + 1]) <= free + Received(fees[..i + 1], who);
      }
    } else {
      var i :| 0 <= i < |fees| && SumOf(fees[..i + 1]) > free + Received(fees[..i], who);
      Prefixes(fees, i + 1, who);
      if i > 0 {
        Prefixes(fees, i, who);
        var rest := free - fees[0].1 + If(fees[0].0 == who, fees[0].1);
        assert fees[0].1 <= free ==> SumOf(fees[1..][..i - 1 + 1]) > rest + Received(fees[1..][..i - 1], who);
      }
    }
  }

  /** A charge goes through exactly if its payer can afford it. */
  lemma {:induction false} ChargeSucceeds(b: Bank, from: Account, fees: seq<(Account, nat)>)
    ensures b.Charge(from, fees).Some? <==> Affords(b.Free(from), from, fees)
    decreases |fees|
  {
    if fees != [] {
      AffordsFirst(b.Free(from), from, fees);
      if fees[0].1 <= b.Free(from) {
        ChargeSucceeds(b.Transfer(from, fees[0].0, fees[0].1).value, from, fees[1..]);
      }
    }
  }

  /** Where no fee comes back to its payer, it is the sum that counts. */
  lemma {:induction false} AffordsSum(free: nat, who: Account, fees: seq<(Account, nat)>)
    requires forall f :: f in fees ==> f.0 != who
    ensures Affords(free, who, fees) <==> SumOf(fees) <= free
    ensures Received(fees, who) == 0
    decreases |fees|
  {
    if fees != [] {
      AffordsFirst(free, who, fees);
      assert fees[0] in fees && forall f :: f in fees[1..] ==> f in fees;
      if fees[0].1 <= free {
        AffordsSum(free - fees[0].1, who, fees[1..]);
      } else {
        AffordsSum(0, who, fees[1..]);
      }
    }
  }

  // ---------- Solvency: holds match the rows that record them ----------

  /** What the rows say is held on `who`. A row names its depositor and the amount. */
  ghost function Owed<K>(rows: map<K, (Account, nat)>, who: Account): nat {
    Sum(Shares(rows, who))
  }

  ghost function Shares<K>(rows: map<K, (Account, nat)>, who: Account): map<K, nat> {
    map k | k in rows :: Share(rows[k], who)
  }

  function Share(row: (Account, nat), who: Account): nat {
    if row.0 == who then row.1 else 0
  }

  ghost predicate Solvent<K>(b: Bank, reason: HoldReason, rows: map<K, (Account, nat)>) {
    forall who :: b.Held(reason, who) == Owed(rows, who)
  }

  lemma OwedPut<K>(rows: map<K, (Account, nat)>, k: K, row: (Account, nat), who: Account)
    ensures Owed(rows[k := row], who) == Share(row, who) + Owed(rows - {k}, who)
  {
    SumPut(Shares(rows, who), k, Share(row, who));
    assert Shares(rows[k := row], who) == Shares(rows, who)[k := Share(row, who)];
    assert Shares(rows - {k}, who) == Shares(rows, who) - {k};
  }

  lemma OwedDrop<K>(rows: map<K, (Account, nat)>, k: K, who: Account)
    requires k in rows
    ensures Owed(rows, who) == Share(rows[k], who) + Owed(rows - {k}, who)
  {
    SumDrop(Shares(rows, who), k);
    assert Shares(rows - {k}, who) == Shares(rows, who) - {k};
  }

  lemma SolventHold<K>(b: Bank, reason: HoldReason, rows: map<K, (Account, nat)>, k: K, who: Account, amount: nat)
    requires Solvent(b, reason, rows) && k !in rows
    requires b.Hold(reason, who, amount).Some?
    ensures Solvent(b.Hold(reason, who, amount).value, reason, rows[k := (who, amount)])
  {
    forall a ensures b.Hold(reason, who, amount).value.Held(reason, a) == Owed(rows[k := (who, amount)], a) {
      OwedPut(rows, k, (who, amount), a);
      assert rows - {k} == rows;
    }
  }

  /** Paying out part of a row shrinks the row by that part, and the part is there to be paid. */
  lemma SolventPart<K>(b: Bank, reason: HoldReason, rows: map<K, (Account, nat)>, k: K, to: Account, part: nat)
    requires Solvent(b, reason, rows) && k in rows && part <= rows[k].1
    ensures part <= b.Held(reason, rows[k].0)
    ensures Solvent(b.Unhold(reason, rows[k].0, to, part), reason, rows[k := (rows[k].0, rows[k].1 - part)])
  {
    var row: (Account, nat) := (rows[k].0, rows[k].1 - part);
    OwedDrop(rows, k, rows[k].0);
    forall a ensures b.Unhold(reason, rows[k].0, to, part).Held(reason, a) == Owed(rows[k := row], a) {
      OwedDrop(rows, k, a);
      OwedPut(rows, k, row, a);
    }
  }

  /** Paying out a whole row allows the row to go. */
  lemma SolventUnhold<K>(b: Bank, reason: HoldReason, rows: map<K, (Account, nat)>, k: K, to: Account)
    requires Solvent(b, reason, rows) && k in rows
    ensures rows[k].1 <= b.Held(reason, rows[k].0)
    ensures Solvent(b.Unhold(reason, rows[k].0, to, rows[k].1), reason, rows - {k})
  {
    SolventPart(b, reason, rows, k, to, rows[k].1);
    var row: (Account, nat) := (rows[k].0, 0);
    forall a ensures Owed(rows[k := row], a) == Owed(rows - {k}, a) {
      OwedPut(rows, k, row, a);
    }
  }

  /** A bounty to the finder of a row, and the rest back to its depositor. */
  function PayOut(b: Bank, reason: HoldReason, row: (Account, nat), finder: Account, bounty: nat): Bank
    requires bounty <= row.1
  {
    b.Unhold(reason, row.0, finder, bounty).Unhold(reason, row.0, row.0, row.1 - bounty)
  }

  /** When the hold covers the row, the finder gets the bounty and the depositor the rest. */
  lemma PayOutPays(b: Bank, reason: HoldReason, row: (Account, nat), finder: Account, bounty: nat, a: Account)
    requires bounty <= row.1 <= b.Held(reason, row.0)
    ensures var b' := PayOut(b, reason, row, finder, bounty);
      && b'.Free(a) == b.Free(a) + If(a == finder, bounty) + If(a == row.0, row.1 - bounty)
      && (forall r :: b'.Held(r, a) + If(r == reason && a == row.0, row.1) == b.Held(r, a))
  {
  }

  lemma SolventPayOut<K>(b: Bank, reason: HoldReason, rows: map<K, (Account, nat)>, k: K, finder: Account, bounty: nat)
    requires Solvent(b, reason, rows) && k in rows && bounty <= rows[k].1
    ensures Solvent(PayOut(b, reason, rows[k], finder, bounty), reason, rows - {k})
    ensures Total(PayOut(b, reason, rows[k], finder, bounty)) == Total(b)
  {
    var row := rows[k];
    var rest: map<K, (Account, nat)> := rows[k := (row.0, row.1 - bounty)];
    var b1 := b.Unhold(reason, row.0, finder, bounty);
    SolventPart(b, reason, rows, k, finder, bounty);
    SolventUnhold(b1, reason, rest, k, row.0);
    assert rest - {k} == rows - {k};
    UnholdConserves(b, reason, row.0, finder, bounty);
    UnholdConserves(b1, reason, row.0, row.0, row.1 - bounty);
  }

  /** Holds for one reason do not touch the rows of another. */
  lemma SolventFrame<K>(b: Bank, b': Bank, reason: HoldReason, rows: map<K, (Account, nat)>)
    requires Solvent(b, reason, rows)
    requires forall who :: b'.Held(reason, who) == b.Held(reason, who)
    ensures Solvent(b', reason, rows)
  {
  }

  ghost function Mine<K>(rows: map<K, (Account, nat)>, who: Account): set<K> {
    set k | k in rows && rows[k].0 == who
  }

  lemma MineDrop<K>(rows: map<K, (Account, nat)>, j: K, who: Account)
    requires j in rows
    ensures |Mine(rows, who)| == |Mine(rows - {j}, who)| + if rows[j].0 == who then 1 else 0
  {
    assert Mine(rows, who) == Mine(rows - {j}, who) + if rows[j].0 == who then {j} else {};
  }

  lemma NoneMine<K>(rows: map<K, (Account, nat)>, who: Account)
    requires rows == map[]
    ensures Owed(rows, who) == 0 && Mine(rows, who) == {}
  {
    assert Shares(rows, who) == map[];
  }

  lemma OneMore(a: nat, b: nat)
    ensures a * (b + 1) == a * b + a
  {
  }

  /** When every row holds the same amount, the hold is that amount times the number of rows. */
  lemma {:induction false} OwedUniform<K>(rows: map<K, (Account, nat)>, who: Account, amount: nat)
    requires forall k :: k in rows ==> rows[k].1 == amount
    ensures Owed(rows, who) == amount * |Mine(rows, who)|
    decreases |rows|
  {
    hide Owed, Mine;
    if rows == map[] {
      NoneMine(rows, who);
    } else {
      var j :| j in rows;
      OwedDrop(rows, j, who);
      OwedUniform(rows - {j}, who, amount);
      MineDrop(rows, j, who);
      OneMore(amount, |Mine(rows - {j}, who)|);
    }
  }
}
