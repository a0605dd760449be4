/** How a mint fee is split: the constants and arithmetic of the certificate fee system. */
module MintFees {
  import opened Wrappers

  const UNIT: nat := 1_000_000_000_000
  const MAX_U128: nat := 0xFFFF_FFFF_FFFF_FFFF_FFFF_FFFF_FFFF_FFFF
  const PROTOCOL_FEE_BPS: nat := 1_000
  const AUTHOR_CAP_BPS: nat := 4_000
  const DEPOSIT_BPS: nat := 500
  const MIN_DEPOSIT: nat := UNIT / 10
  const MINT_FEE_POP: nat := UNIT
  const MINT_FEE_PACKED: nat := UNIT + UNIT / 2
  const MINT_FEE_NONE: nat := 2 * UNIT

  function SaturatingMul(a: nat, b: nat): nat {
    Min(a * b, MAX_U128)
  }

  function BasisPoints(fee: nat, bps: nat): nat {
    SaturatingMul(fee, bps) / 10_000
  }

  function Deposit(fee: nat): nat {
    var pct := BasisPoints(fee, DEPOSIT_BPS);
    if pct < MIN_DEPOSIT then MIN_DEPOSIT else pct
  }

  function ProtocolSlice(fee: nat): nat {
    BasisPoints(fee, PROTOCOL_FEE_BPS)
  }

  function TipCap(fee: nat): nat {
    BasisPoints(fee, AUTHOR_CAP_BPS)
  }

  /** What the protocol account receives: its slice and the remainder after deposit and tip. */
  function ProtocolShare(fee: nat, tip: nat): nat
    requires Fits(fee) && tip <= TipCap(fee)
  {
    ProtocolSlice(fee) + (fee - Deposit(fee) - ProtocolSlice(fee) - tip)
  }

  /** The fixed parts and the largest tip can all be taken out of the fee. */
  predicate Fits(fee: nat) {
    Deposit(fee) + ProtocolSlice(fee) + TipCap(fee) <= fee
  }

  lemma BasisPointsBelowShare(fee: nat, bps: nat)
    ensures BasisPoints(fee, bps) * 10_000 <= fee * bps
  {
  }

  /** Every fee of at least twice the smallest deposit can be split, however large it is. */
  lemma SplitFits(fee: nat)
    requires fee >= 2 * MIN_DEPOSIT
    ensures Fits(fee)
  {
    BasisPointsBelowShare(fee, DEPOSIT_BPS);
    BasisPointsBelowShare(fee, PROTOCOL_FEE_BPS);
    BasisPointsBelowShare(fee, AUTHOR_CAP_BPS);
  }

  /** Where the split starts to fail: flooring makes up for three units below the bound, and for no more. */
  lemma SplitFitsExactly(fee: nat)
    ensures Fits(fee) <==> fee + 3 >= 2 * MIN_DEPOSIT
  {
    if fee >= 2 * MIN_DEPOSIT {
      SplitFits(fee);
    } else {
      var q, r := fee / 10, fee % 10;
      assert fee == 10 * q + r;
      assert BasisPoints(fee, PROTOCOL_FEE_BPS) == q;
      assert BasisPoints(fee, AUTHOR_CAP_BPS) == 4 * q + 4 * r / 10;
      assert Deposit(fee) == MIN_DEPOSIT;
    }
  }

  /** No unit of the fee is lost or made, and without a tip the protocol takes all but the deposit. */
  lemma SplitIsExact(fee: nat, tip: nat)
    requires fee >= 2 * MIN_DEPOSIT && tip <= TipCap(fee)
    ensures Fits(fee)
    ensures Deposit(fee) + tip + ProtocolShare(fee, tip) == fee
    ensures ProtocolShare(fee, tip) >= ProtocolSlice(fee)
    ensures ProtocolShare(fee, 0) == fee - Deposit(fee)
  {
    SplitFits(fee);
  }

  /** The three configured tiers split, and each leaves the smallest deposit on hold. */
  lemma ConfiguredTiers(fee: nat)
    requires fee in {MINT_FEE_POP, MINT_FEE_PACKED, MINT_FEE_NONE}
    ensures fee >= 2 * MIN_DEPOSIT && Deposit(fee) == UNIT / 10
  {
  }

  /** The percentages: five on hold, or the smallest deposit; ten for the protocol; up to forty for the author. */
  lemma SharesOfFee(fee: nat)
    requires 4_000 * fee <= MAX_U128
    ensures fee <= 2 * UNIT ==> Deposit(fee) == UNIT / 10
    ensures fee >= 2 * UNIT ==> 20 * Deposit(fee) <= fee < 20 * (Deposit(fee) + 1)
    ensures 10 * ProtocolSlice(fee) <= fee < 10 * (ProtocolSlice(fee) + 1)
    ensures 5 * TipCap(fee) <= 2 * fee < 5 * (TipCap(fee) + 1)
  {
  }
}
