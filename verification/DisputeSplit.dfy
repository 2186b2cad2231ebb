/**
 How a resolved dispute divides the tokens of its escrow (`_computeResolveSplit` in
 contracts/contracts/EscrowImplementation.sol).
 */
module DisputeSplit {
  /** What an escrow was created with. */
  datatype Terms = Terms(amount: nat, buyerFee: nat, sellerFee: nat, fineMin: nat, fineMax: nat, fineBps: nat)

  datatype Split = Split(
    fine: nat,
    fineFromEscrow: nat,
    fineFromReserve: nat,
    buyerPayout: nat,
    sellerPayout: nat,
    feeToTreasury: nat)

  const SHARES: nat := 100
  const BPS: nat := 10000
  const DISPUTE_FEE_BPS: nat := 5000

  function Min(a: nat, b: nat): nat {
    if a > b then b else a
  }

  function ComputeFine(t: Terms): nat {
    var percentFine := t.amount * t.fineBps / BPS;
    if percentFine < t.fineMin then t.fineMin
    else if percentFine > t.fineMax then t.fineMax
    else percentFine
  }

  /** A share of `value` in percent, rounded down. */
  function Share(value: nat, pct: nat): (share: nat)
    requires pct <= SHARES
    ensures share <= value && (pct == SHARES ==> share == value) && (pct == 0 ==> share == 0)
  {
    ShareBound(value, pct);
    value * pct / SHARES
  }

  lemma ShareBound(value: nat, pct: nat)
    requires pct <= SHARES
    ensures 0 <= value * pct / SHARES <= value
    ensures value * SHARES / SHARES == value
  {
    assert value * pct <= value * SHARES;
  }

  function ResolveSplit(t: Terms, escrowBalance: nat, buyerSharePct: nat): Split
    requires t.amount <= escrowBalance && buyerSharePct <= SHARES
  {
    var sellerSharePct := SHARES - buyerSharePct;
    var fine := ComputeFine(t);
    var buyerPrincipal := Share(t.amount, buyerSharePct);
    var ancillary := escrowBalance - t.amount;
    var fineFromEscrow := Min(Share(fine, sellerSharePct), ancillary);
    var afterFine := ancillary - fineFromEscrow;
    var fee := if buyerSharePct != 0 && sellerSharePct != 0
               then Min((t.buyerFee + t.sellerFee) * DISPUTE_FEE_BPS / BPS, afterFine) else 0;
    Split(fine, fineFromEscrow, fine - fineFromEscrow, buyerPrincipal + (afterFine - fee), t.amount - buyerPrincipal, fee)
  }

  /** What leaves the escrow. */
  function Outflow(s: Split): nat {
    s.buyerPayout + s.sellerPayout + s.feeToTreasury + s.fineFromEscrow
  }

  /** Everything the escrow holds is paid out, and the fine is paid in full from escrow and reserve. */
  lemma SplitConserves(t: Terms, balance: nat, pct: nat)
    requires t.amount <= balance && pct <= SHARES
    ensures Outflow(ResolveSplit(t, balance, pct)) == balance
    ensures var s := ResolveSplit(t, balance, pct); s.fineFromEscrow + s.fineFromReserve == s.fine
  {
  }

  /** Fine and fee come out of what lies above the price, never out of it: each party gets at least its
      share of the price, the shares make up the price, and neither charge exceeds what is left. */
  lemma PrincipalsAreSafe(t: Terms, balance: nat, pct: nat)
    requires t.amount <= balance && pct <= SHARES
    ensures var s := ResolveSplit(t, balance, pct);
            && s.sellerPayout + Share(t.amount, pct) == t.amount
            && Share(t.amount, pct) <= s.buyerPayout
            && s.fineFromEscrow + s.feeToTreasury <= balance - t.amount
            && s.fineFromEscrow <= Share(s.fine, SHARES - pct)
            && 2 * s.feeToTreasury <= t.buyerFee + t.sellerFee
  {
  }

  /** The fine is the percentage of the price kept between the two bounds, the upper one deciding should
      they cross, and the part of it at the seller's charge is taken from the escrow as far as it reaches. */
  lemma FineIsClamped(t: Terms, balance: nat, pct: nat)
    requires t.amount <= balance && pct <= 100
    ensures var s := ResolveSplit(t, balance, pct);
            && (t.amount * t.fineBps / 10000 < t.fineMin ==> s.fine == t.fineMin)
            && (t.fineMin <= t.fineMax ==> t.fineMin <= s.fine <= t.fineMax)
            && (t.fineMin <= t.amount * t.fineBps / 10000 ==> s.fine <= t.fineMax)
            && (t.fineMin < s.fine < t.fineMax ==> 10000 * s.fine <= t.amount * t.fineBps < 10000 * (s.fine + 1))
            && s.fineFromEscrow <= s.fine * (100 - pct) / 100
            && (s.fineFromEscrow < s.fine * (100 - pct) / 100 ==> s.fineFromEscrow == balance - t.amount)
  {
  }

  /** When the price is shared, half of both fees is due, as far as price and fine leave it. */
  lemma FeeIsHalf(t: Terms, balance: nat, pct: nat)
    requires t.amount <= balance && 0 < pct < 100
    ensures var s := ResolveSplit(t, balance, pct);
            && 2 * s.feeToTreasury <= t.buyerFee + t.sellerFee
            && (2 * s.feeToTreasury + 1 < t.buyerFee + t.sellerFee ==>
                  s.feeToTreasury + s.fineFromEscrow == balance - t.amount)
            && 100 * (t.amount - s.sellerPayout) <= t.amount * pct < 100 * (t.amount - s.sellerPayout + 1)
  {
  }

  /** A party that is not at fault loses nothing: a buyer awarded everything gets the whole balance, a
      seller awarded everything the whole price, and neither is charged a fee. */
  lemma InnocentLosesNothing(t: Terms, balance: nat)
    requires t.amount <= balance
    ensures ResolveSplit(t, balance, SHARES).buyerPayout == balance
    ensures ResolveSplit(t, balance, SHARES).fineFromEscrow == 0
    ensures ResolveSplit(t, balance, 0).sellerPayout == t.amount
    ensures ResolveSplit(t, balance, SHARES).feeToTreasury == ResolveSplit(t, balance, 0).feeToTreasury == 0
  {
  }

  /** The seller's payout is the same whatever fine and fees are charged. */
  lemma SellerIsNotFined(t: Terms, u: Terms, balance: nat, balance': nat, pct: nat)
    requires t.amount == u.amount <= balance && t.amount <= balance' && pct <= SHARES
    ensures ResolveSplit(t, balance, pct).sellerPayout == ResolveSplit(u, balance', pct).sellerPayout
  {
  }
}
