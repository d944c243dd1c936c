/** Confirming a payment, and unwinding a refused cash-on-delivery sale, keep
    the invariant. */
module SettlementProofs {
  import opened AuctionRows
  import opened AuctionQueries
  import opened AuctionSteps
  import opened Leaderboard
  import opened AuctionInvariant
  import opened BiddingProofs
  import opened HoldProofs
  import opened CascadeProofs

  /** A payment is due: on an Instant Buy hold, or on a ranked bidder's turn. */
  predicate PaymentDue(p: Product) {
    p.status == AwaitingInstantBuy || p.status == AwaitingPayment
  }

  /** The responsible bid and its round, wherever the payment is due. */
  lemma DueInForce(s: Lot, os: seq<Offer>, ls: seq<nat>, k: int)
    requires os == Offers(s.bids) && ls == Ranking(os) && RoundsFollow(s.rounds, os, k) && Stage(s, ls, k)
    requires PaymentDue(s.product)
    ensures s.rounds != [] && 0 <= Latest(s.bids, ls, k) < |s.bids|
    ensures Responsible(s.bids) == Some(Latest(s.bids, ls, k))
    ensures RoundOf(s.rounds, s.bids[Latest(s.bids, ls, k)].offer.id) == Some(|s.rounds| - 1)
    ensures s.bids[Latest(s.bids, ls, k)].offer.instant <==> s.product.status == AwaitingInstantBuy
    ensures s.rounds[|s.rounds| - 1].ticket.winner == s.bids[Latest(s.bids, ls, k)].offer.bidder
    ensures s.rounds[|s.rounds| - 1].ticket.amount == s.bids[Latest(s.bids, ls, k)].offer.amount
  {
    if s.product.status == AwaitingInstantBuy {
      HoldInForce(s, os, ls);
    } else {
      TurnInForce(s, os, ls, k);
    }
  }

  // ---- The confirmation itself

  lemma SettleKeeps(cfg: Config, s: Lot, live: nat, how: Confirmation, now: Time, s': Lot,
                    os: seq<Offer>, rs: seq<Offer>, ls: seq<nat>, k: int)
    requires InvAt(cfg, s, os, rs, ls, k) && PaymentDue(s.product)
    requires os == Offers(s.bids) && s.rounds != [] && live == Latest(s.bids, ls, k) && live < |s.bids|
    requires s.product.status == AwaitingInstantBuy ==> how == BankApi
    requires s.bids[live].offer.instant <==> s.product.status == AwaitingInstantBuy
    requires s' == Settle(s, live, |s.rounds| - 1, how, now)
    ensures InvAt(cfg, s', os, rs, ls, k) && Offers(s'.bids) == os && |s'.rounds| == |s.rounds|
  {
    hide Ladder, Fresh, DeadlinesRise, Stage, Cache, ProductRow, HoldPrice, PaymentRows;
    SettleRows(s, live, how, now, s');
    SettleStage(s, live, how, now, s', ls, k);
    SettleProduct(cfg, s, live, how, now, s', rs, ls, k);
    SettlePayments(s, live, how, now, s', k);
  }

  lemma SettleRows(s: Lot, live: nat, how: Confirmation, now: Time, s': Lot)
    requires Fresh(s) && s.rounds != [] && live < |s.bids|
    requires s' == Settle(s, live, |s.rounds| - 1, how, now)
    ensures Fresh(s') && Offers(s'.bids) == Offers(s.bids) && Tickets(s'.rounds) == Tickets(s.rounds)
    ensures |s'.rounds| == |s.rounds| && |s'.bids| == |s.bids|
    ensures forall k :: DeadlinesRise(s.rounds, k) ==> DeadlinesRise(s'.rounds, k)
  {
    var b := s.bids[live].(payment := Confirmed, confirmedAt := Some(now), confirmedBy := Some(how));
    OffersUpdate(s.bids, live, b);
    assert BidIds(s'.bids) == BidIds(s.bids[live := b]);
    assert Offers(s'.bids) == Offers(s.bids[live := b]);
    TicketsUpdate(s.rounds, |s.rounds| - 1, s'.rounds[|s.rounds| - 1]);
    forall k, i: nat | DeadlinesRise(s.rounds, k) && |s'.rounds| - k < i ensures DeadlineBefore(s'.rounds, i) {
      assert DeadlineBefore(s.rounds, i);
    }
  }

  /** Bid ids differ, so the bulk update spares exactly the bid that paid. */
  lemma SettleStage(s: Lot, live: nat, how: Confirmation, now: Time, s': Lot, ls: seq<nat>, k: int)
    requires Fresh(s) && Stage(s, ls, k) && PaymentDue(s.product) && s.rounds != []
    requires live == Latest(s.bids, ls, k) && live < |s.bids|
    requires s' == Settle(s, live, |s.rounds| - 1, how, now)
    ensures Stage(s', ls, k)
  {
    SettleBids(s, live, how, now, s');
    assert Latest(s'.bids, ls, k) == live;
  }

  lemma SettleBids(s: Lot, live: nat, how: Confirmation, now: Time, s': Lot)
    requires Fresh(s) && s.rounds != [] && live < |s.bids|
    requires forall i :: 0 <= i < |s.bids| ==> (s.bids[i].responsible <==> i == live)
    requires RoundsAre(s.rounds, PendingPayment)
    requires s' == Settle(s, live, |s.rounds| - 1, how, now)
    ensures |s'.bids| == |s.bids| && Cleared(s'.bids, live, Confirmed) && RoundsAre(s'.rounds, RoundSettled)
    ensures s'.bids[live].deadline == s.bids[live].deadline && s'.bids[live].rank == s.bids[live].rank
  {
    forall i | 0 <= i < |s.bids| && i != live ensures s.bids[i].offer.id != s.bids[live].offer.id {
      assert Before(BidIds(s.bids), i, live) && Before(BidIds(s.bids), live, i);
    }
  }

  lemma SettleProduct(cfg: Config, s: Lot, live: nat, how: Confirmation, now: Time, s': Lot,
                      rs: seq<Offer>, ls: seq<nat>, k: int)
    requires Stage(s, ls, k) && PaymentDue(s.product) && s.rounds != []
    requires Cache(s.product, s.bids, rs, k) && ProductRow(s.product, s.bids, rs, live)
    requires HoldPrice(s.product, s.bids, rs, k)
    requires live == Latest(s.bids, ls, k) && live < |s.bids|
    requires s.product.status == AwaitingInstantBuy ==> how == BankApi
    requires s.bids[live].offer.instant <==> s.product.status == AwaitingInstantBuy
    requires s' == Settle(s, live, |s.rounds| - 1, how, now)
    ensures Cache(s'.product, s'.bids, rs, k) && ProductRow(s'.product, s'.bids, rs, live)
    ensures HoldPrice(s'.product, s'.bids, rs, k)
  {
    assert s'.bids[|s.bids| - 1].offer == s.bids[|s.bids| - 1].offer && s'.bids[live].offer == s.bids[live].offer;
  }

  lemma SettlePayments(s: Lot, live: nat, how: Confirmation, now: Time, s': Lot, k: int)
    requires PaymentRows(s, k) && PaymentDue(s.product) && live < |s.bids| && s.rounds != []
    requires s' == Settle(s, live, |s.rounds| - 1, how, now)
    ensures PaymentRows(s', k)
  {
    RoundClosedBacked(s, s', |s.rounds| - 1);
  }

  // ---- The payment row of a manual or cash-on-delivery confirmation

  lemma PaidKeeps(cfg: Config, s: Lot, live: nat, means: PaymentMethod, status: PaymentStatus, s': Lot,
                  os: seq<Offer>, rs: seq<Offer>, ls: seq<nat>, k: int)
    requires InvAt(cfg, s, os, rs, ls, k) && s.product.status == Settled && k > 0
    requires live < |s.bids| && s.rounds != []
    requires s.rounds[|s.rounds| - 1].ticket.winner == s.bids[live].offer.bidder
    requires s.rounds[|s.rounds| - 1].ticket.amount == s.bids[live].offer.amount
    requires forall i :: 0 <= i < |s.payments| ==> s.payments[i].status != CodPending
    requires status == PaySuccess || status == CodPending
    requires s' == Paid(s, live, |s.rounds| - 1, means, status)
    ensures InvAt(cfg, s', os, rs, ls, k)
  {
    PaidRows(s, live, means, status, s', k);
    SameRowsAt(cfg, s, s', os, rs, ls, k);
  }

  lemma PaidRows(s: Lot, live: nat, means: PaymentMethod, status: PaymentStatus, s': Lot, k: int)
    requires Fresh(s) && PaymentRows(s, k) && s.product.status == Settled && k > 0
    requires live < |s.bids| && s.rounds != []
    requires s.rounds[|s.rounds| - 1].ticket.winner == s.bids[live].offer.bidder
    requires s.rounds[|s.rounds| - 1].ticket.amount == s.bids[live].offer.amount
    requires forall i :: 0 <= i < |s.payments| ==> s.payments[i].status != CodPending
    requires status == PaySuccess || status == CodPending
    requires s' == Paid(s, live, |s.rounds| - 1, means, status)
    ensures Fresh(s') && PaymentRows(s', k)
  {
    var n, pay := |s.payments|, s'.payments[|s.payments|];
    PaymentIdsAppend(s.payments, pay);
    assert PaymentIds(s'.payments) == PaymentIds(s.payments + [pay]);
    AscendingPush(PaymentIds(s.payments), s.nextId, pay.id, s'.nextId);
    forall i | 0 <= i < |s'.payments| ensures Backed(s'.rounds, s'.payments[i]) {
      if i < n {
        assert Backed(s.rounds, s.payments[i]);
      } else {
        var j := |s.rounds| - 1;
        assert s'.rounds[j].id == pay.roundId;
      }
    }
    forall i: nat, j: nat ensures FlightsApart(s'.payments, i, j) && CashApart(s'.payments, i, j) {
    }
  }

  // ---- The three confirmations

  /** A gateway confirmation settles the lot through the responsible bid and its
      round, unless the payment was for another round. */
  lemma GatewaySettles(s: Lot, os: seq<Offer>, ls: seq<nat>, k: int, expected: Option<RowId>, now: Time)
    requires os == Offers(s.bids) && ls == Ranking(os) && RoundsFollow(s.rounds, os, k) && Stage(s, ls, k)
    requires PaymentDue(s.product)
    ensures s.rounds != [] && 0 <= Latest(s.bids, ls, k) < |s.bids|
    ensures var live, last := Latest(s.bids, ls, k), |s.rounds| - 1;
            ConfirmGateway(s, expected, now) ==
              if expected.Some? && expected.value != s.rounds[last].id then Rejected(StaleRound)
              else Done(Settle(s, live, last, BankApi, now))
  {
    DueInForce(s, os, ls, k);
  }

  lemma ManualSettles(s: Lot, os: seq<Offer>, ls: seq<nat>, k: int, ok: bool, now: Time)
    requires os == Offers(s.bids) && ls == Ranking(os) && RoundsFollow(s.rounds, os, k) && Stage(s, ls, k)
    requires s.product.status == AwaitingPayment
    ensures s.rounds != [] && 0 <= Latest(s.bids, ls, k) < |s.bids|
    ensures var live, last := Latest(s.bids, ls, k), |s.rounds| - 1;
            ConfirmManual(s, ok, now) ==
              if !ok then Rejected(BadAddress)
              else Done(Paid(Settle(s, live, last, AdminManual, now), live, last, Fonepay, PaySuccess))
  {
    DueInForce(s, os, ls, k);
  }

  /** Cash on delivery, besides, only for the bidder whose turn it is, and in time. */
  lemma CodSettles(s: Lot, os: seq<Offer>, ls: seq<nat>, k: int, buyer: UserId, ok: bool, now: Time)
    requires os == Offers(s.bids) && ls == Ranking(os) && RoundsFollow(s.rounds, os, k) && Stage(s, ls, k)
    requires s.product.status == AwaitingPayment
    ensures s.rounds != [] && 0 <= Latest(s.bids, ls, k) < |s.bids|
    ensures var live, last := Latest(s.bids, ls, k), |s.rounds| - 1;
            ConfirmCod(s, buyer, ok, now) ==
              if s.bids[live].offer.bidder != buyer then Rejected(NotTheWinner)
              else if s.rounds[last].deadline <= now then Rejected(WindowExpired)
              else if !ok then Rejected(BadAddress)
              else Done(Paid(Settle(s, live, last, CashOnDelivery, now), live, last, Cod, CodPending))
  {
    TurnInForce(s, os, ls, k);
  }

  lemma SettledInv(cfg: Config, s: Lot, how: Confirmation, now: Time, s': Lot, os: seq<Offer>, ls: seq<nat>)
    requires Inv(cfg, s) && os == Offers(s.bids) && ls == Ranking(os) && PaymentDue(s.product)
    requires s.product.status == AwaitingInstantBuy ==> how == BankApi
    requires s.rounds != [] && 0 <= Latest(s.bids, ls, Turns(s)) < |s.bids|
    requires s' == Settle(s, Latest(s.bids, ls, Turns(s)), |s.rounds| - 1, how, now)
    ensures Inv(cfg, s')
  {
    hide Fresh, Ladder, RoundsFollow, DeadlinesRise, Stage, Cache, ProductRow, HoldPrice, PaymentRows;
    hide Offers, Reals, Ranking, HoldTickets, Settle;
    DueInForce(s, os, ls, Turns(s));
    SettleKeeps(cfg, s, Latest(s.bids, ls, Turns(s)), how, now, s', os, Reals(os), ls, Turns(s));
  }

  lemma ConfirmGatewayKeepsInv(cfg: Config, s: Lot, expected: Option<RowId>, now: Time)
    requires Inv(cfg, s) && ConfirmGateway(s, expected, now).Done?
    ensures Inv(cfg, ConfirmGateway(s, expected, now).lot)
  {
    var os := Offers(s.bids);
    GatewaySettles(s, os, Ranking(os), Turns(s), expected, now);
    SettledInv(cfg, s, BankApi, now, ConfirmGateway(s, expected, now).lot, os, Ranking(os));
  }

  /** Before the sale no cash is outstanding. */
  lemma NoCashDue(s: Lot, k: int)
    requires PaymentRows(s, k) && s.product.status != Settled
    ensures forall i :: 0 <= i < |s.payments| ==> s.payments[i].status != CodPending
  {
  }

  /** A manual or cash-on-delivery confirmation: the sale, then its payment row. */
  lemma SettledAndPaidInv(cfg: Config, s: Lot, how: Confirmation, means: PaymentMethod, status: PaymentStatus,
                          now: Time, s': Lot, os: seq<Offer>, rs: seq<Offer>, ls: seq<nat>, k: int)
    requires InvAt(cfg, s, os, rs, ls, k) && os == Offers(s.bids) && ls == Ranking(os)
    requires s.product.status == AwaitingPayment && (status == PaySuccess || status == CodPending)
    requires s.rounds != [] && 0 <= Latest(s.bids, ls, k) < |s.bids|
    requires s' == Paid(Settle(s, Latest(s.bids, ls, k), |s.rounds| - 1, how, now),
                        Latest(s.bids, ls, k), |s.rounds| - 1, means, status)
    ensures InvAt(cfg, s', os, rs, ls, k) && Offers(s'.bids) == os && |s'.rounds| == |s.rounds|
  {
    var live, last := Latest(s.bids, ls, k), |s.rounds| - 1;
    NoCashDue(s, k);
    hide Fresh, Ladder, RoundsFollow, DeadlinesRise, Stage, Cache, ProductRow, HoldPrice, PaymentRows, Offers, Ranking;
    DueInForce(s, os, ls, k);
    var sold := Settle(s, live, last, how, now);
    SettleKeeps(cfg, s, live, how, now, sold, os, rs, ls, k);
    PaidKeeps(cfg, sold, live, means, status, s', os, rs, ls, k);
  }

  lemma ConfirmManualAt(cfg: Config, s: Lot, ok: bool, now: Time, s': Lot,
                        os: seq<Offer>, rs: seq<Offer>, ls: seq<nat>, k: int)
    requires InvAt(cfg, s, os, rs, ls, k) && os == Offers(s.bids) && ls == Ranking(os)
    requires ConfirmManual(s, ok, now) == Done(s')
    ensures InvAt(cfg, s', os, rs, ls, k) && Offers(s'.bids) == os && |s'.rounds| == |s.rounds|
  {
    ManualSettles(s, os, ls, k, ok, now);
    SettledAndPaidInv(cfg, s, AdminManual, Fonepay, PaySuccess, now, s', os, rs, ls, k);
  }

  lemma ConfirmManualKeepsInv(cfg: Config, s: Lot, ok: bool, now: Time)
    requires Inv(cfg, s) && ConfirmManual(s, ok, now).Done?
    ensures Inv(cfg, ConfirmManual(s, ok, now).lot)
  {
    hide InvAt, ConfirmManual, Offers;
    var os, s' := Offers(s.bids), ConfirmManual(s, ok, now).lot;
    ConfirmManualAt(cfg, s, ok, now, s', os, Reals(os), Ranking(os), Turns(s));
  }

  lemma ConfirmCodAt(cfg: Config, s: Lot, buyer: UserId, ok: bool, now: Time, s': Lot,
                     os: seq<Offer>, rs: seq<Offer>, ls: seq<nat>, k: int)
    requires InvAt(cfg, s, os, rs, ls, k) && os == Offers(s.bids) && ls == Ranking(os)
    requires ConfirmCod(s, buyer, ok, now) == Done(s')
    ensures InvAt(cfg, s', os, rs, ls, k) && Offers(s'.bids) == os && |s'.rounds| == |s.rounds|
  {
    CodSettles(s, os, ls, k, buyer, ok, now);
    SettledAndPaidInv(cfg, s, CashOnDelivery, Cod, CodPending, now, s', os, rs, ls, k);
  }

  lemma ConfirmCodKeepsInv(cfg: Config, s: Lot, buyer: UserId, ok: bool, now: Time)
    requires Inv(cfg, s) && ConfirmCod(s, buyer, ok, now).Done?
    ensures Inv(cfg, ConfirmCod(s, buyer, ok, now).lot)
  {
    hide InvAt, ConfirmCod, Offers;
    var os, s' := Offers(s.bids), ConfirmCod(s, buyer, ok, now).lot;
    ConfirmCodAt(cfg, s, buyer, ok, now, s', os, Reals(os), Ranking(os), Turns(s));
  }

  // ---- abandonAfterCodRefusal

  predicate Uncollected(s: Lot, i: nat) {
    i < |s.payments| && s.payments[i].means == Cod && s.payments[i].status == CodPending
  }

  /** The sale of ranked bidder `k - 1`, refused at the door. */
  function Refused(s: Lot, i: nat, live: nat, parcel: Parcel, now: Time): Lot
    requires i < |s.payments| && live < |s.bids| && s.rounds != []
  {
    s.(product := s.product.(status := Abandoned, abandonedAt := Some(now), settledAt := None, settledAmount := None),
       payments := s.payments[i := s.payments[i].(status := PayFailed)],
       rounds := CloseRound(s.rounds, |s.rounds| - 1, RoundExpired, now),
       bids := s.bids[live := s.bids[live].(payment := Expired)],
       returned := if parcel == OnItsWay then s.returned + [s.payments[i].id] else s.returned,
       refusals := s.refusals + [s.payments[i].winner],
       clock := now)
  }

  /** Outstanding cash belongs to the round that settled the lot, so a refusal
      unwinds exactly that round and its bid. */
  lemma RefusalUnwinds(s: Lot, paymentId: RowId, parcel: Parcel, now: Time, os: seq<Offer>, ls: seq<nat>, k: int)
    requires os == Offers(s.bids) && ls == Ranking(os) && RoundsFollow(s.rounds, os, k) && k <= |ls|
    requires Fresh(s) && CashDue(s, k)
    requires PaymentById(s.payments, paymentId).Some? && Uncollected(s, PaymentById(s.payments, paymentId).value)
    ensures s.product.status == Settled && 0 < k && ls[k - 1] < |s.bids| && s.rounds != []
    ensures !s.bids[ls[k - 1]].offer.instant
    ensures RefuseCod(s, paymentId, parcel, now) ==
            if parcel == Delivered then Rejected(AlreadyDelivered)
            else Done(Refused(s, PaymentById(s.payments, paymentId).value, ls[k - 1], parcel, now))
  {
    SoldToRanked(s, os, ls, k);
    BidOfRound(s, ls[k - 1], s.rounds[|s.rounds| - 1].ticket.bidId);
    RefusalUnfolds(s, paymentId, parcel, now, ls[k - 1]);
  }

  lemma RefusalUnfolds(s: Lot, paymentId: RowId, parcel: Parcel, now: Time, live: nat)
    requires PaymentById(s.payments, paymentId).Some? && Uncollected(s, PaymentById(s.payments, paymentId).value)
    requires s.product.status == Settled && s.rounds != [] && live < |s.bids|
    requires s.payments[PaymentById(s.payments, paymentId).value].roundId == s.rounds[|s.rounds| - 1].id
    requires BidById(s.bids, s.rounds[|s.rounds| - 1].ticket.bidId) == Some(live)
    ensures RefuseCod(s, paymentId, parcel, now) ==
            if parcel == Delivered then Rejected(AlreadyDelivered)
            else Done(Refused(s, PaymentById(s.payments, paymentId).value, live, parcel, now))
  {
    assert RoundById(s.rounds, s.rounds[|s.rounds| - 1].id) == Some(|s.rounds| - 1);
  }

  lemma SoldToRanked(s: Lot, os: seq<Offer>, ls: seq<nat>, k: int)
    requires os == Offers(s.bids) && ls == Ranking(os) && RoundsFollow(s.rounds, os, k) && 0 < k <= |ls|
    ensures s.rounds != [] && ls[k - 1] < |s.bids| && !s.bids[ls[k - 1]].offer.instant
    ensures s.rounds[|s.rounds| - 1].ticket.bidId == s.bids[ls[k - 1]].offer.id
  {
    NewestRoundOfTurn(s.rounds, os, k);
    LeadersValid(os, {});
    assert s.bids[ls[k - 1]].offer == os[ls[k - 1]];
  }

  /** Bid ids differ, so looking a bid up by its id finds it. */
  lemma BidOfRound(s: Lot, live: nat, id: RowId)
    requires Fresh(s) && live < |s.bids| && s.bids[live].offer.id == id
    ensures BidById(s.bids, id) == Some(live)
  {
    var i := BidById(s.bids, id);
    assert i.Some?;
    assert Before(BidIds(s.bids), i.value, live) && Before(BidIds(s.bids), live, i.value);
  }

  lemma RefusedInv(cfg: Config, s: Lot, i: nat, live: nat, parcel: Parcel, now: Time, s': Lot,
                   os: seq<Offer>, rs: seq<Offer>, ls: seq<nat>, k: int)
    requires InvAt(cfg, s, os, rs, ls, k) && os == Offers(s.bids) && rs == Reals(os) && ls == Ranking(os)
    requires s.product.status == Settled && 0 < k <= |ls| && live == ls[k - 1] < |s.bids| && s.rounds != []
    requires Uncollected(s, i) && !s.bids[live].offer.instant && s' == Refused(s, i, live, parcel, now)
    ensures InvAt(cfg, s', os, rs, ls, k) && Offers(s'.bids) == os && |s'.rounds| == |s.rounds|
  {
    hide Fresh, DeadlinesRise, Stage, PaymentRows, Ladder, Offers, Cache, ProductRow, HoldPrice;
    if rs == [] {
      EmptyRanking(os, {});
    }
    RefusedProduct(s, i, live, parcel, now, s', rs, k);
    RefusedRows(s, i, live, parcel, now, s', k);
    RefusedStage(s, i, live, parcel, now, s', ls, k);
    RefusedPayments(s, i, live, parcel, now, s', k);
  }

  lemma RefusedProduct(s: Lot, i: nat, live: nat, parcel: Parcel, now: Time, s': Lot, rs: seq<Offer>, k: int)
    requires Cache(s.product, s.bids, rs, k) && ProductRow(s.product, s.bids, rs, live)
    requires HoldPrice(s.product, s.bids, rs, k) && s.product.status == Settled && k > 0 && rs != []
    requires i < |s.payments| && live < |s.bids| && s.rounds != [] && !s.bids[live].offer.instant
    requires s' == Refused(s, i, live, parcel, now)
    ensures Cache(s'.product, s'.bids, rs, k) && ProductRow(s'.product, s'.bids, rs, live)
    ensures HoldPrice(s'.product, s'.bids, rs, k)
  {
  }

  lemma RefusedRows(s: Lot, i: nat, live: nat, parcel: Parcel, now: Time, s': Lot, k: int)
    requires Fresh(s) && DeadlinesRise(s.rounds, k) && i < |s.payments| && live < |s.bids| && s.rounds != []
    requires s' == Refused(s, i, live, parcel, now)
    ensures Fresh(s') && Offers(s'.bids) == Offers(s.bids) && Tickets(s'.rounds) == Tickets(s.rounds)
    ensures DeadlinesRise(s'.rounds, k)
  {
    OffersUpdate(s.bids, live, s'.bids[live]);
    TicketsUpdate(s.rounds, |s.rounds| - 1, s'.rounds[|s.rounds| - 1]);
    PaymentIdsUpdate(s.payments, i, s'.payments[i]);
    forall j: nat | |s'.rounds| - k < j ensures DeadlineBefore(s'.rounds, j) {
      assert DeadlineBefore(s.rounds, j);
    }
  }

  lemma RefusedStage(s: Lot, i: nat, live: nat, parcel: Parcel, now: Time, s': Lot, ls: seq<nat>, k: int)
    requires Stage(s, ls, k) && s.product.status == Settled && 0 < k <= |ls| && live == ls[k - 1] < |s.bids|
    requires i < |s.payments| && s.rounds != [] && s' == Refused(s, i, live, parcel, now)
    ensures Stage(s', ls, k)
  {
    assert Cleared(s'.bids, live, Expired);
  }

  lemma RefusedPayments(s: Lot, i: nat, live: nat, parcel: Parcel, now: Time, s': Lot, k: int)
    requires PaymentRows(s, k) && Uncollected(s, i) && live < |s.bids| && s.rounds != []
    requires s' == Refused(s, i, live, parcel, now)
    ensures PaymentRows(s', k)
  {
    InFlightReported(s.payments, i, PayFailed);
    forall j | 0 <= j < |s'.payments| ensures Backed(s'.rounds, s'.payments[j]) && s'.payments[j].status != CodPending {
      assert CashApart(s.payments, i, j) && CashApart(s.payments, j, i);
      assert Backed(s.rounds, s.payments[j]);
      var l :| 0 <= l < |s.rounds| && s.rounds[l].id == s.payments[j].roundId &&
               s.rounds[l].ticket.winner == s.payments[j].winner && s.rounds[l].ticket.amount == s.payments[j].amount;
      assert s'.rounds[l].id == s.rounds[l].id && s'.rounds[l].ticket == s.rounds[l].ticket;
    }
  }

  lemma RefuseCodAt(cfg: Config, s: Lot, paymentId: RowId, parcel: Parcel, now: Time, s': Lot,
                    os: seq<Offer>, rs: seq<Offer>, ls: seq<nat>, k: int)
    requires InvAt(cfg, s, os, rs, ls, k) && os == Offers(s.bids) && rs == Reals(os) && ls == Ranking(os)
    requires k <= |ls| && RefuseCod(s, paymentId, parcel, now) == Done(s')
    ensures InvAt(cfg, s', os, rs, ls, k) && Offers(s'.bids) == os && |s'.rounds| == |s.rounds|
  {
    var i := RefusedPayment(s, paymentId, parcel, now);
    hide RefuseCod, Uncollected;
    RefusalUnwinds(s, paymentId, parcel, now, os, ls, k);
    hide *;
    RefusedInv(cfg, s, i, ls[k - 1], parcel, now, s', os, rs, ls, k);
  }

  lemma RefusedPayment(s: Lot, paymentId: RowId, parcel: Parcel, now: Time) returns (i: nat)
    requires RefuseCod(s, paymentId, parcel, now).Done?
    ensures PaymentById(s.payments, paymentId) == Some(i) && Uncollected(s, i) && parcel != Delivered
  {
    i := PaymentById(s.payments, paymentId).value;
  }

  lemma RefuseCodKeepsInv(cfg: Config, s: Lot, paymentId: RowId, parcel: Parcel, now: Time)
    requires Inv(cfg, s) && RefuseCod(s, paymentId, parcel, now).Done?
    ensures Inv(cfg, RefuseCod(s, paymentId, parcel, now).lot)
  {
    var os, k := Offers(s.bids), Turns(s);
    var ls, s' := Ranking(os), RefuseCod(s, paymentId, parcel, now).lot;
    hide InvAt, RefuseCod, Offers;
    RefuseCodAt(cfg, s, paymentId, parcel, now, s', os, Reals(os), ls, k);
  }
}
