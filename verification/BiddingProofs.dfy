/** Placing a bid, and the steps that touch no bid, keep the invariant. */
module BiddingProofs {
  import opened Money
  import opened AuctionRows
  import opened AuctionQueries
  import opened AuctionSteps
  import opened Leaderboard
  import opened AuctionInvariant
  import BidRange
  import Pricing

  // ---- placeBid

  /** A bid that passes the checks extends the ladder. */
  lemma LadderExtends(cfg: Config, p: Product, rs: seq<Offer>, o: Offer)
    requires cfg.Valid() && PricesSet(p) && Ladder(cfg, TermsOf(p), rs)
    requires BidRange.EnforcedRange(cfg, p).Between? && OnStep(o.amount) && o.bidder != p.owner
    requires BidRange.EnforcedRange(cfg, p).min <= o.amount as real <= BidRange.EnforcedRange(cfg, p).max
    requires if rs == [] then p.status == AwaitingFirstBid
             else p.status == Active && p.highest == Some(rs[|rs| - 1].amount) && o.bidder != rs[|rs| - 1].bidder
    ensures Ladder(cfg, TermsOf(p), rs + [o])
  {
    if rs == [] {
      assert p.start as real <= o.amount as real <= p.end as real;
    } else {
      AmountFollows(cfg, p, rs[|rs| - 1].amount, o.amount);
      LadderPush(cfg, TermsOf(p), rs, o);
    }
  }

  lemma AmountFollows(cfg: Config, p: Product, leading: Paisa, amount: Paisa)
    requires cfg.Valid() && p.status == Active && p.highest == Some(leading)
    requires BidRange.EnforcedRange(cfg, p).Between?
    requires BidRange.EnforcedRange(cfg, p).min <= amount as real <= BidRange.EnforcedRange(cfg, p).max
    ensures leading as real + cfg.flat <= amount as real <= Cap(cfg, leading)
    ensures leading < amount <= p.end
  {
  }

  lemma LadderPush(cfg: Config, t: Terms, rs: seq<Offer>, o: Offer)
    requires rs != [] && Ladder(cfg, t, rs) && OnStep(o.amount) && o.bidder != t.owner
    requires var last := rs[|rs| - 1];
             && last.amount < o.amount <= t.end && o.bidder != last.bidder
             && last.amount as real + cfg.flat <= o.amount as real <= Cap(cfg, last.amount)
    ensures Ladder(cfg, t, rs + [o])
  {
    var rs' := rs + [o];
    forall k | 0 <= k < |rs'| ensures Rung(cfg, t, rs', k) {
      if k < |rs| {
        assert Rung(cfg, t, rs, k);
      } else {
        assert Rung(cfg, t, rs, k - 1);
      }
    }
  }

  /** The ladder climbs by at least Rs 5 a rung. */
  lemma {:induction false} LadderClimbs(cfg: Config, t: Terms, rs: seq<Offer>, k: nat, l: nat)
    requires cfg.Valid() && Ladder(cfg, t, rs) && k <= l < |rs|
    ensures rs[k].amount + (l - k) * STEP <= rs[l].amount
  {
    if k < l {
      LadderClimbs(cfg, t, rs, k, l - 1);
      assert Rung(cfg, t, rs, l - 1) && Rung(cfg, t, rs, l);
      OnStepGap(rs[l - 1].amount, rs[l].amount);
    }
  }

  lemma InvRising(cfg: Config, t: Terms, os: seq<Offer>, rs: seq<Offer>)
    requires cfg.Valid() && rs == Reals(os) && Ladder(cfg, t, rs)
    ensures Rising(os)
    ensures if rs == [] then forall i :: 0 <= i < |os| ==> os[i].instant
            else RealsUpTo(os, rs[|rs| - 1].amount)
  {
    forall k | 0 < k < |rs| ensures rs[k - 1].amount < rs[k].amount {
      assert Rung(cfg, t, rs, k);
    }
    RisingFromReals(os, rs);
  }

  lemma PlaceBidKeepsInv(cfg: Config, s: Lot, user: UserId, amount: Paisa, openElsewhere: nat, now: Time)
    requires cfg.Valid() && Inv(cfg, s) && s.clock <= now
    requires PlaceBid(cfg, s, user, amount, openElsewhere, now).Done?
    ensures Inv(cfg, PlaceBid(cfg, s, user, amount, openElsewhere, now).lot)
  {
    var s' := PlaceBid(cfg, s, user, amount, openElsewhere, now).lot;
    var b := NewBid(s, user, amount, now);
    var os := Offers(s.bids);
    BidRows(s, b, s');
    PlaceBidAt(cfg, s, user, amount, openElsewhere, now, s', os, Reals(os), Ranking(os), Ranking(os + [b.offer]));
  }

  lemma PlaceBidAt(cfg: Config, s: Lot, user: UserId, amount: Paisa, openElsewhere: nat, now: Time, s': Lot,
                   os: seq<Offer>, rs: seq<Offer>, ls: seq<nat>, ls': seq<nat>)
    requires cfg.Valid() && InvAt(cfg, s, os, rs, ls, 0) && s.clock <= now
    requires PlaceBid(cfg, s, user, amount, openElsewhere, now) == Done(s')
    requires RoundsFollow(s'.rounds, os + [NewBid(s, user, amount, now).offer], 0)
    ensures var o := NewBid(s, user, amount, now).offer; InvAt(cfg, s', os + [o], rs + [o], ls', 0)
  {
    LadderExtends(cfg, s.product, rs, NewBid(s, user, amount, now).offer);
    BidFresh(s, NewBid(s, user, amount, now), s');
    PlaceBidStages(cfg, s, user, amount, now, s', rs);
  }

  lemma BidFresh(s: Lot, b: Bid, s': Lot)
    requires Fresh(s) && b.offer.id == s.nextId < s'.nextId
    requires s'.bids == s.bids + [b] && s'.rounds == s.rounds && s'.payments == s.payments
    ensures Fresh(s')
  {
    OffersAppend(s.bids, b);
    AscendingPush(BidIds(s.bids), s.nextId, b.offer.id, s'.nextId);
  }

  lemma PlaceBidStages(cfg: Config, s: Lot, user: UserId, amount: Paisa, now: Time, s': Lot, rs: seq<Offer>)
    requires s.product.status == AwaitingFirstBid || s.product.status == Active
    requires s' == s.(
      product := BidPlaced(cfg, s.product, user, amount, now),
      bids := s.bids + [NewBid(s, user, amount, now)],
      nextId := s.nextId + 1,
      clock := now)
    requires Stage(s, [], 0) && PaymentRows(s, 0)
    requires ProductRow(s.product, s.bids, rs, -1) && Cache(s.product, s.bids, rs, 0)
    ensures var rs' := rs + [NewBid(s, user, amount, now).offer];
            && Stage(s', [], 0) && PaymentRows(s', 0)
            && ProductRow(s'.product, s'.bids, rs', -1) && Cache(s'.product, s'.bids, rs', 0)
            && HoldPrice(s'.product, s'.bids, rs', 0)
  {
  }

  /** The rows of a lot open for bids, with one real bid more. */
  lemma BidRows(s: Lot, b: Bid, s': Lot)
    requires !b.offer.instant && s'.bids == s.bids + [b] && s'.rounds == s.rounds
    requires RoundsFollow(s.rounds, Offers(s.bids), 0) && Turns(s) == 0
    ensures Offers(s'.bids) == Offers(s.bids) + [b.offer]
    ensures Reals(Offers(s'.bids)) == Reals(Offers(s.bids)) + [b.offer]
    ensures RoundsFollow(s'.rounds, Offers(s'.bids), 0) && Turns(s') == 0
  {
    OffersAppend(s.bids, b);
    ProjectionsAppend(Offers(s.bids), b.offer);
  }

  // ---- The steps that touch neither bids nor rounds

  lemma SameBidsAndRounds(cfg: Config, s: Lot, s': Lot)
    requires Inv(cfg, s) && s'.bids == s.bids && s'.rounds == s.rounds && s'.product == s.product
    requires Fresh(s') && PaymentRows(s', Turns(s))
    ensures Inv(cfg, s')
  {
    hide InvAt, Fresh, PaymentRows, Offers;
    var os := Offers(s.bids);
    SameRowsAt(cfg, s, s', os, Reals(os), Ranking(os), Turns(s));
  }

  lemma SameRowsAt(cfg: Config, s: Lot, s': Lot, os: seq<Offer>, rs: seq<Offer>, ls: seq<nat>, k: int)
    requires InvAt(cfg, s, os, rs, ls, k)
    requires s'.bids == s.bids && s'.rounds == s.rounds && s'.product == s.product
    requires Fresh(s') && PaymentRows(s', k)
    ensures InvAt(cfg, s', os, rs, ls, k)
  {
  }

  lemma TimePasses(cfg: Config, s: Lot, now: Time)
    requires Inv(cfg, s) && s.clock <= now
    ensures Inv(cfg, s.(clock := now))
  {
    ClockMoves(s, now, Turns(s));
    SameBidsAndRounds(cfg, s, s.(clock := now));
  }

  lemma ClockMoves(s: Lot, now: Time, k: int)
    requires Fresh(s) && PaymentRows(s, k) && s.clock <= now
    ensures Fresh(s.(clock := now)) && PaymentRows(s.(clock := now), k)
  {
  }

  lemma OpenPaymentKeepsInv(cfg: Config, s: Lot, roundId: RowId, now: Time)
    requires Inv(cfg, s) && s.clock <= now && OpenPayment(s, roundId, now).Done?
    ensures Inv(cfg, OpenPayment(s, roundId, now).lot)
  {
    var s' := OpenPayment(s, roundId, now).lot;
    PaymentAdded(s, s', s'.payments[|s.payments|], Turns(s));
    SameBidsAndRounds(cfg, s, s');
  }

  lemma PaymentAdded(s: Lot, s': Lot, pay: Payment, k: int)
    requires Fresh(s) && PaymentRows(s, k) && s.clock <= s'.clock
    requires s' == s.(payments := s.payments + [pay], nextId := s.nextId + 1, clock := s'.clock)
    requires pay.id == s.nextId && Backed(s.rounds, pay) && pay.status != CodPending
    requires pay.status == PayPending ==> !InFlight(s.payments, pay.roundId)
    ensures Fresh(s') && PaymentRows(s', k)
  {
    PaymentIdsAdded(s, s', pay);
    InFlightAdded(s.payments, pay);
    var n := |s.payments|;
    forall i | 0 <= i < |s'.payments| ensures Backed(s'.rounds, s'.payments[i]) {
      assert s'.payments[i] == if i < n then s.payments[i] else pay;
    }
  }

  lemma PaymentIdsAdded(s: Lot, s': Lot, pay: Payment)
    requires Fresh(s) && pay.id == s.nextId
    requires s' == s.(payments := s.payments + [pay], nextId := s.nextId + 1, clock := s'.clock)
    ensures Fresh(s')
  {
    PaymentIdsAppend(s.payments, pay);
    AscendingPush(PaymentIds(s.payments), s.nextId, pay.id, s'.nextId);
  }

  lemma InFlightAdded(payments: seq<Payment>, pay: Payment)
    requires OneInFlight(payments) && OneCashDue(payments) && pay.status != CodPending
    requires pay.status == PayPending ==> !InFlight(payments, pay.roundId)
    ensures OneInFlight(payments + [pay]) && OneCashDue(payments + [pay])
  {
    var payments' := payments + [pay];
    forall i: nat, j: nat ensures FlightsApart(payments', i, j) && CashApart(payments', i, j) {
      assert FlightsApart(payments, i, j) && CashApart(payments, i, j);
    }
  }

  /** A payment changes its status to one that is neither in flight nor cash outstanding. */
  lemma PaymentReported(s: Lot, s': Lot, i: nat, status: PaymentStatus, k: int)
    requires Fresh(s) && PaymentRows(s, k) && s.clock <= s'.clock && i < |s.payments|
    requires s' == s.(payments := s.payments[i := s.payments[i].(status := status)], clock := s'.clock)
    requires status != CodPending && status != PayPending
    ensures Fresh(s') && PaymentRows(s', k)
  {
    PaymentIdsUpdate(s.payments, i, s'.payments[i]);
    InFlightReported(s.payments, i, status);
    forall j | 0 <= j < |s'.payments| ensures Backed(s'.rounds, s'.payments[j]) {
      assert Backed(s.rounds, s.payments[j]);
    }
  }

  lemma InFlightReported(payments: seq<Payment>, i: nat, status: PaymentStatus)
    requires OneInFlight(payments) && OneCashDue(payments) && i < |payments|
    requires status != CodPending && status != PayPending
    ensures OneInFlight(payments[i := payments[i].(status := status)])
    ensures OneCashDue(payments[i := payments[i].(status := status)])
  {
    var payments' := payments[i := payments[i].(status := status)];
    forall k: nat, l: nat ensures FlightsApart(payments', k, l) && CashApart(payments', k, l) {
      assert FlightsApart(payments, k, l) && CashApart(payments, k, l);
    }
  }

  lemma GatewayReportKeepsInv(cfg: Config, s: Lot, paymentId: RowId, report: PaymentStatus, now: Time)
    requires Inv(cfg, s) && s.clock <= now && GatewayReport(s, paymentId, report, now).Done?
    ensures Inv(cfg, GatewayReport(s, paymentId, report, now).lot)
  {
    var s' := GatewayReport(s, paymentId, report, now).lot;
    if s' == s.(clock := now) {
      TimePasses(cfg, s, now);
    } else {
      PaymentReported(s, s', PaymentById(s.payments, paymentId).value, report, Turns(s));
      SameBidsAndRounds(cfg, s, s');
    }
  }

  lemma CollectCodKeepsInv(cfg: Config, s: Lot, paymentId: RowId, now: Time)
    requires Inv(cfg, s) && s.clock <= now && CollectCod(s, paymentId, now).Done?
    ensures Inv(cfg, CollectCod(s, paymentId, now).lot)
  {
    var s' := CollectCod(s, paymentId, now).lot;
    if s' == s.(clock := now) {
      TimePasses(cfg, s, now);
    } else {
      PaymentReported(s, s', PaymentById(s.payments, paymentId).value, PaySuccess, Turns(s));
      SameBidsAndRounds(cfg, s, s');
    }
  }

  lemma RepriceKeepsInv(cfg: Config, s: Lot, base: Pricing.Rupees, now: Time)
    requires Inv(cfg, s) && s.clock <= now && Reprice(s, base, now).Done?
    ensures Inv(cfg, Reprice(s, base, now).lot)
  {
    var s' := Reprice(s, base, now).lot;
    var os := Offers(s.bids);
    RepriceAt(cfg, s, s', os, Reals(os), Ranking(os), Turns(s));
  }

  lemma RepriceAt(cfg: Config, s: Lot, s': Lot, os: seq<Offer>, rs: seq<Offer>, ls: seq<nat>, k: int)
    requires InvAt(cfg, s, os, rs, ls, k) && s.product.status == AwaitingFirstBid && s.clock <= s'.clock
    requires s' == s.(clock := s'.clock, product := s.product.(
                       base := s'.product.base, start := s'.product.start,
                       instant := s'.product.instant, end := s'.product.end))
    requires PricesSet(s'.product)
    ensures InvAt(cfg, s', os, rs, ls, k)
  {
  }
}
