/** From the listing to the payout: a lot priced and sold by these rules pays its
    seller at least the base price asked for and at most what the buyer paid. */
module SellerPayout {
  import opened AuctionRows
  import opened AuctionInvariant
  import opened AuctionRuns
  import opened SaleOnce
  import opened Commission

  /** A payment for the round that sold the lot. */
  ghost predicate PaysSale(s: Lot, pay: Payment) {
    exists j: nat :: SettledRound(s, j) && s.rounds[j].id == pay.roundId
  }

  /** Its amount is the sale amount. */
  lemma PaymentIsSaleAmount(cfg: Config, s: Lot, i: nat)
    requires cfg.Valid() && Inv(cfg, s) && i < |s.payments| && PaysSale(s, s.payments[i])
    ensures s.product.status == Settled && s.product.settledAmount == Some(s.payments[i].amount)
  {
    SoldIffOneRound(cfg, s);
    PaymentMatches(cfg, s, i);
    hide Inv;
  }

  /** Whatever run a lot went through, the payout for the sale it ended in lies
      between the base price and the amount paid, and grows with the seller's
      points. */
  lemma PayoutEndToEnd(cfg: Config, s: Lot, i: nat, points: int, more: int)
    requires cfg.Valid() && Reachable(cfg, s) && i < |s.payments| && PaysSale(s, s.payments[i]) && points <= more
    ensures var base, amount := s.product.base * 100, s.payments[i].amount;
            base <= Payout(base, amount, points) <= Payout(base, amount, more) <= amount
  {
    hide Reachable, Inv, PaysSale, Payout;
    ReachableInv(cfg, s);
    PaymentIsSaleAmount(cfg, s, i);
    SaleWithinPrices(cfg, s);
    PayoutBounds(s.product.base * 100, s.payments[i].amount, points, more);
  }
}
