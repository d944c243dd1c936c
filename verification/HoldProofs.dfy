/** Starting, releasing and expiring an Instant Buy hold keep the invariant. */
module HoldProofs {
  import opened AuctionRows
  import opened AuctionQueries
  import opened AuctionSteps
  import opened Leaderboard
  import opened AuctionInvariant
  import opened BiddingProofs

  // ---- startInstantBuyHold

  lemma StartHoldKeepsInv(cfg: Config, s: Lot, buyer: UserId, now: Time)
    requires cfg.Valid() && Inv(cfg, s) && s.clock <= now && StartHold(cfg, s, buyer, now).Done?
    ensures Inv(cfg, StartHold(cfg, s, buyer, now).lot)
  {
    var s' := StartHold(cfg, s, buyer, now).lot;
    var b := HoldBid(cfg, s, buyer, now);
    var os := Offers(s.bids);
    HoldRows(s, b, s');
    StartHoldAt(cfg, s, buyer, now, s', os, Reals(os), Ranking(os), Ranking(os + [b.offer]));
  }

  lemma HoldRows(s: Lot, b: Bid, s': Lot)
    requires b.offer.instant && b.rank == 0 && s'.bids == s.bids + [b]
    requires |s'.rounds| == |s.rounds| + 1 && s'.rounds[..|s.rounds|] == s.rounds
    requires s'.rounds[|s.rounds|].ticket == TicketOf(b)
    requires RoundsFollow(s.rounds, Offers(s.bids), 0) && Turns(s) == 0
    ensures Offers(s'.bids) == Offers(s.bids) + [b.offer]
    ensures Reals(Offers(s'.bids)) == Reals(Offers(s.bids))
    ensures RoundsFollow(s'.rounds, Offers(s'.bids), 0) && Turns(s') == 0
  {
    OffersAppend(s.bids, b);
    ProjectionsAppend(Offers(s.bids), b.offer);
    assert s'.rounds == s.rounds + [s'.rounds[|s.rounds|]];
    TicketsAppend(s.rounds, s'.rounds[|s.rounds|]);
  }

  lemma StartHoldAt(cfg: Config, s: Lot, buyer: UserId, now: Time, s': Lot,
                    os: seq<Offer>, rs: seq<Offer>, ls: seq<nat>, ls': seq<nat>)
    requires cfg.Valid() && InvAt(cfg, s, os, rs, ls, 0) && s.clock <= now
    requires StartHold(cfg, s, buyer, now) == Done(s')
    requires RoundsFollow(s'.rounds, os + [HoldBid(cfg, s, buyer, now).offer], 0)
    ensures InvAt(cfg, s', os + [HoldBid(cfg, s, buyer, now).offer], rs, ls', 0)
  {
    HoldFresh(cfg, s, buyer, now, s');
    HoldStage(cfg, s, buyer, now, s', ls, ls');
    RoundAddedBacked(s, s');
  }

  predicate HoldAdded(cfg: Config, s: Lot, buyer: UserId, now: Time, s': Lot) {
    var b := HoldBid(cfg, s, buyer, now);
    s' == s.(product := s.product.(status := AwaitingInstantBuy),
             bids := s.bids + [b],
             rounds := s.rounds + [NewRound(s.nextId + 1, b, now + cfg.holdMs)],
             nextId := s.nextId + 2,
             clock := now)
  }

  lemma HoldFresh(cfg: Config, s: Lot, buyer: UserId, now: Time, s': Lot)
    requires Fresh(s) && s.clock <= now && HoldAdded(cfg, s, buyer, now, s')
    ensures Fresh(s')
  {
    var b, r := s'.bids[|s.bids|], s'.rounds[|s.rounds|];
    OffersAppend(s.bids, b);
    TicketsAppend(s.rounds, r);
    AscendingPush(BidIds(s.bids), s.nextId, b.offer.id, s'.nextId);
    AscendingPush(RoundIds(s.rounds), s.nextId, r.id, s'.nextId);
  }

  lemma HoldStage(cfg: Config, s: Lot, buyer: UserId, now: Time, s': Lot, ls: seq<nat>, ls': seq<nat>)
    requires Stage(s, ls, 0) && (s.product.status == AwaitingFirstBid || s.product.status == Active)
    requires HoldAdded(cfg, s, buyer, now, s')
    ensures Stage(s', ls', 0)
  {
  }

  /** A round more leaves every payment backed. */
  lemma RoundAddedBacked(s: Lot, s': Lot)
    requires PaymentsBacked(s) && s'.payments == s.payments
    requires |s.rounds| <= |s'.rounds| && s'.rounds[..|s.rounds|] == s.rounds
    ensures PaymentsBacked(s')
  {
    forall i | 0 <= i < |s'.payments| ensures Backed(s'.rounds, s'.payments[i]) {
      assert Backed(s.rounds, s.payments[i]);
      var j :| 0 <= j < |s.rounds| && s.rounds[j].id == s.payments[i].roundId &&
               s.rounds[j].ticket.winner == s.payments[i].winner && s.rounds[j].ticket.amount == s.payments[i].amount;
      assert s'.rounds[j] == s.rounds[j];
    }
  }

  // ---- The hold in force

  lemma {:induction false} NewestRoundOfHold(rounds: seq<Round>, os: seq<Offer>)
    requires RoundsFollow(rounds, os, 0) && rounds != [] && os != [] && os[|os| - 1].instant
    ensures HoldTickets(os) == Tickets(rounds)
    ensures var o := os[|os| - 1]; rounds[|rounds| - 1].ticket == Ticket(o.id, o.bidder, o.amount, 0)
  {
    assert Tickets(rounds) == HoldTickets(os) + LeaderTickets(os)[..0];
    var n := |os| - 1;
    ProjectionsAppend(os[..n], os[n]);
    assert os[..n] + [os[n]] == os;
    assert Tickets(rounds)[|rounds| - 1] == rounds[|rounds| - 1].ticket;
  }

  /** During a hold the responsible bid is the newest one, and its round the newest round. */
  lemma HoldInForce(s: Lot, os: seq<Offer>, ls: seq<nat>)
    requires os == Offers(s.bids) && RoundsFollow(s.rounds, os, 0) && Stage(s, ls, 0)
    requires s.product.status == AwaitingInstantBuy
    ensures s.bids != [] && s.rounds != []
    ensures Responsible(s.bids) == Some(|s.bids| - 1)
    ensures RoundOf(s.rounds, s.bids[|s.bids| - 1].offer.id) == Some(|s.rounds| - 1)
    ensures os == os[..|os| - 1] + [os[|os| - 1]] && os[|os| - 1].instant
    ensures HoldTickets(os) == Tickets(s.rounds)
    ensures s.rounds[|s.rounds| - 1].ticket == Ticket(os[|os| - 1].id, os[|os| - 1].bidder, os[|os| - 1].amount, 0)
  {
    hide RoundsFollow, HoldTickets, Tickets;
    assert os[|os| - 1] == s.bids[|s.bids| - 1].offer;
    NewestRoundOfHold(s.rounds, os);
  }

  /** Bidding reopens as the real bids say. */
  lemma ReopenedStatus(p: Product, bids: seq<Bid>, heldSince: Time, now: Time)
    ensures var rs := Reals(Offers(bids));
            Reopened(p, bids, heldSince, now).status == (if rs == [] then AwaitingFirstBid else Active)
  {
    RealsEmpty(Offers(bids));
    assert forall i :: 0 <= i < |bids| ==> Offers(bids)[i] == bids[i].offer;
    assert forall i :: 0 <= i < |bids| ==> (Eligible(bids[i], AnyReal) <==> !bids[i].offer.instant);
  }

  // ---- A hold that leaves its rows behind

  predicate HoldRetired(s: Lot, payment: BidPayment, now: Time, s': Lot) {
    && s.bids != [] && s.rounds != []
    && var n, m := |s.bids| - 1, |s.rounds| - 1;
       var bids := s.bids[n := s.bids[n].(responsible := false, payment := payment)];
       s' == s.(product := Reopened(s.product, bids, s.bids[n].offer.placedAt, now),
                bids := bids,
                rounds := CloseRound(s.rounds, m, RoundExpired, now),
                clock := now)
  }

  lemma HoldRetiredKeepsInv(cfg: Config, s: Lot, payment: BidPayment, now: Time, s': Lot)
    requires Inv(cfg, s) && s.clock <= now && s.product.status == AwaitingInstantBuy
    requires payment == NotResponsible || payment == Expired
    requires HoldRetired(s, payment, now, s')
    ensures Inv(cfg, s')
  {
    var os, n := Offers(s.bids), |s.bids| - 1;
    OffersUpdate(s.bids, n, s'.bids[n]);
    TicketsUpdate(s.rounds, |s.rounds| - 1, s'.rounds[|s.rounds| - 1]);
    ReopenedStatus(s.product, s'.bids, s.bids[n].offer.placedAt, now);
    HoldRetiredAt(cfg, s, payment, now, s', os, Reals(os), Ranking(os));
  }

  lemma HoldRetiredAt(cfg: Config, s: Lot, payment: BidPayment, now: Time, s': Lot,
                      os: seq<Offer>, rs: seq<Offer>, ls: seq<nat>)
    requires InvAt(cfg, s, os, rs, ls, 0) && s.clock <= now && s.product.status == AwaitingInstantBuy
    requires payment == NotResponsible || payment == Expired
    requires HoldRetired(s, payment, now, s') && RoundsFollow(s'.rounds, os, 0)
    requires s'.product.status == if rs == [] then AwaitingFirstBid else Active
    ensures InvAt(cfg, s', os, rs, ls, 0)
  {
    HoldRetiredRows(s, payment, now, s', ls);
    RoundClosedBacked(s, s', |s.rounds| - 1);
  }

  lemma HoldRetiredRows(s: Lot, payment: BidPayment, now: Time, s': Lot, ls: seq<nat>)
    requires Fresh(s) && Stage(s, ls, 0) && s.product.status == AwaitingInstantBuy
    requires payment == NotResponsible || payment == Expired
    requires HoldRetired(s, payment, now, s')
    ensures Fresh(s') && Stage(s', ls, 0)
  {
    OffersUpdate(s.bids, |s.bids| - 1, s'.bids[|s.bids| - 1]);
    TicketsUpdate(s.rounds, |s.rounds| - 1, s'.rounds[|s.rounds| - 1]);
  }

  /** Closing a round leaves every payment backed. */
  lemma RoundClosedBacked(s: Lot, s': Lot, j: nat)
    requires PaymentsBacked(s) && s'.payments == s.payments && j < |s.rounds|
    requires exists status, now :: s'.rounds == CloseRound(s.rounds, j, status, now)
    ensures PaymentsBacked(s')
  {
    forall i | 0 <= i < |s'.payments| ensures Backed(s'.rounds, s'.payments[i]) {
      assert Backed(s.rounds, s.payments[i]);
      var l :| 0 <= l < |s.rounds| && s.rounds[l].id == s.payments[i].roundId &&
               s.rounds[l].ticket.winner == s.payments[i].winner && s.rounds[l].ticket.amount == s.payments[i].amount;
      assert s'.rounds[l].id == s.rounds[l].id && s'.rounds[l].ticket == s.rounds[l].ticket;
    }
  }

  // ---- A hold whose rows are deleted

  /** Bid ids rise, so the newest bid is the only one with its id. */
  lemma NewestBidDeleted(s: Lot)
    requires Fresh(s) && s.bids != []
    ensures WithoutBid(s.bids, s.bids[|s.bids| - 1].offer.id) == s.bids[..|s.bids| - 1]
  {
    var n := |s.bids| - 1;
    forall i | 0 <= i < n ensures s.bids[..n][i].offer.id < s.bids[n].offer.id {
      assert Before(BidIds(s.bids), i, n);
    }
  }

  /** No other round covers the bid of the hold. */
  lemma NewestRoundDeleted(s: Lot, os: seq<Offer>, ls: seq<nat>)
    requires os == Offers(s.bids) && Fresh(s) && RoundsFollow(s.rounds, os, 0) && Stage(s, ls, 0)
    requires s.product.status == AwaitingInstantBuy
    ensures s.bids != [] && s.rounds != []
    ensures WithoutRoundsOf(s.rounds, s.bids[|s.bids| - 1].offer.id) == s.rounds[..|s.rounds| - 1]
  {
    HoldInForce(s, os, ls);
    var n, m, id := |os| - 1, |s.rounds| - 1, os[|os| - 1].id;
    ProjectionsAppend(os[..n], os[n]);
    forall i | 0 <= i < n ensures os[..n][i].id < id {
      assert Before(BidIds(s.bids), i, n);
    }
    HoldTicketsBelow(os[..n], id);
    forall j | 0 <= j < m ensures s.rounds[..m][j].ticket.bidId != id {
      assert Tickets(s.rounds)[j] == HoldTickets(os[..n])[j];
    }
  }

  /** The tickets of the holds carry ids of the offers. */
  lemma {:induction false} HoldTicketsBelow(os: seq<Offer>, bound: RowId)
    requires forall i :: 0 <= i < |os| ==> os[i].id < bound
    ensures forall j :: 0 <= j < |HoldTickets(os)| ==> HoldTickets(os)[j].bidId < bound
  {
    if os != [] {
      HoldTicketsBelow(os[..|os| - 1], bound);
    }
  }

  predicate HoldDeleted(s: Lot, now: Time, s': Lot) {
    && s.bids != [] && s.rounds != []
    && var n, m := |s.bids| - 1, |s.rounds| - 1;
       s' == s.(product := Reopened(s.product, s.bids[..n], s.bids[n].offer.placedAt, now),
                bids := s.bids[..n],
                rounds := s.rounds[..m],
                clock := now)
  }

  lemma HoldDeletedKeepsInv(cfg: Config, s: Lot, now: Time, s': Lot)
    requires Inv(cfg, s) && s.clock <= now && s.product.status == AwaitingInstantBuy
    requires HoldDeleted(s, now, s') && !RoundPaidFor(s.payments, s.rounds[|s.rounds| - 1].id)
    ensures Inv(cfg, s')
  {
    var os, n := Offers(s.bids), |s.bids| - 1;
    HoldDeletedRows(s, os, Ranking(os), s');
    ReopenedStatus(s.product, s'.bids, s.bids[n].offer.placedAt, now);
    HoldDeletedAt(cfg, s, now, s', os, Reals(os), Ranking(os), Ranking(os[..n]));
  }

  lemma HoldDeletedRows(s: Lot, os: seq<Offer>, ls: seq<nat>, s': Lot)
    requires os == Offers(s.bids) && RoundsFollow(s.rounds, os, 0) && Stage(s, ls, 0)
    requires s.product.status == AwaitingInstantBuy
    requires s.bids != [] && s'.bids == s.bids[..|s.bids| - 1]
    requires s.rounds != [] && s'.rounds == s.rounds[..|s.rounds| - 1]
    ensures Offers(s'.bids) == os[..|os| - 1] && Reals(Offers(s'.bids)) == Reals(os)
    ensures RoundsFollow(s'.rounds, Offers(s'.bids), 0) && Turns(s') == 0
  {
    var n := |os| - 1;
    HoldInForce(s, os, ls);
    assert Offers(s'.bids) == os[..n];
    ProjectionsAppend(os[..n], os[n]);
    assert Tickets(s'.rounds) == Tickets(s.rounds)[..|s'.rounds|];
  }

  lemma HoldDeletedAt(cfg: Config, s: Lot, now: Time, s': Lot,
                      os: seq<Offer>, rs: seq<Offer>, ls: seq<nat>, ls': seq<nat>)
    requires InvAt(cfg, s, os, rs, ls, 0) && s.clock <= now && s.product.status == AwaitingInstantBuy
    requires HoldDeleted(s, now, s') && RoundsFollow(s'.rounds, os[..|os| - 1], 0) && os != []
    requires !RoundPaidFor(s.payments, s.rounds[|s.rounds| - 1].id)
    requires s'.product.status == if rs == [] then AwaitingFirstBid else Active
    ensures InvAt(cfg, s', os[..|os| - 1], rs, ls', 0)
  {
    HoldDeletedFresh(s, now, s');
    HoldDeletedStage(s, now, s', ls, ls');
    HoldDeletedBacked(s, now, s');
  }

  lemma HoldDeletedFresh(s: Lot, now: Time, s': Lot)
    requires Fresh(s) && HoldDeleted(s, now, s')
    ensures Fresh(s')
  {
    assert BidIds(s'.bids) == BidIds(s.bids)[..|s'.bids|];
    assert RoundIds(s'.rounds) == RoundIds(s.rounds)[..|s'.rounds|];
    AscendingPrefix(BidIds(s.bids), s.nextId, |s'.bids|);
    AscendingPrefix(RoundIds(s.rounds), s.nextId, |s'.rounds|);
  }

  lemma AscendingPrefix(ids: seq<RowId>, next: RowId, n: nat)
    requires Ascending(ids, next) && n <= |ids|
    ensures Ascending(ids[..n], next)
  {
    forall i: nat, j: nat ensures Before(ids[..n], i, j) {
      assert Before(ids, i, j);
    }
  }

  lemma HoldDeletedStage(s: Lot, now: Time, s': Lot, ls: seq<nat>, ls': seq<nat>)
    requires Stage(s, ls, 0) && s.product.status == AwaitingInstantBuy && HoldDeleted(s, now, s')
    ensures Stage(s', ls', 0)
  {
  }

  lemma HoldDeletedBacked(s: Lot, now: Time, s': Lot)
    requires PaymentsBacked(s) && HoldDeleted(s, now, s')
    requires !RoundPaidFor(s.payments, s.rounds[|s.rounds| - 1].id)
    ensures PaymentsBacked(s')
  {
    forall i | 0 <= i < |s'.payments| ensures Backed(s'.rounds, s'.payments[i]) {
      assert Backed(s.rounds, s.payments[i]);
      var j :| 0 <= j < |s.rounds| && s.rounds[j].id == s.payments[i].roundId &&
               s.rounds[j].ticket.winner == s.payments[i].winner && s.rounds[j].ticket.amount == s.payments[i].amount;
      assert s'.rounds[j] == s.rounds[j];
    }
  }

  // ---- releaseInstantBuyHold

  lemma ReleaseHoldKeepsInv(cfg: Config, s: Lot, expected: Option<RowId>, now: Time)
    requires Inv(cfg, s) && s.clock <= now
    ensures ReleaseHold(s, expected, now).Done?
    ensures Inv(cfg, ReleaseHold(s, expected, now).lot)
  {
    var s' := ReleaseHold(s, expected, now).lot;
    if s' == s.(clock := now) {
      TimePasses(cfg, s, now);
    } else {
      var os := Offers(s.bids);
      assert s.product.status == AwaitingInstantBuy;
      ReleaseCases(s, expected, now, os, Ranking(os));
      if RoundPaidFor(s.payments, s.rounds[|s.rounds| - 1].id) {
        HoldRetiredKeepsInv(cfg, s, NotResponsible, now, s');
      } else {
        HoldDeletedKeepsInv(cfg, s, now, s');
      }
    }
  }

  /** A release retires or deletes exactly the rows of the hold in force, or
      finds that the failed payment belonged to an earlier round. */
  lemma ReleaseCases(s: Lot, expected: Option<RowId>, now: Time, os: seq<Offer>, ls: seq<nat>)
    requires os == Offers(s.bids) && Fresh(s) && RoundsFollow(s.rounds, os, 0) && Stage(s, ls, 0)
    requires s.product.status == AwaitingInstantBuy
    ensures s.rounds != [] && ReleaseHold(s, expected, now).Done?
    ensures var s', round := ReleaseHold(s, expected, now).lot, s.rounds[|s.rounds| - 1].id;
            if expected.Some? && expected.value != round then s' == s.(clock := now)
            else if RoundPaidFor(s.payments, round) then HoldRetired(s, NotResponsible, now, s')
            else HoldDeleted(s, now, s')
  {
    HoldInForce(s, os, ls);
    NewestBidDeleted(s);
    NewestRoundDeleted(s, os, ls);
    ReleaseUnfolds(s, expected, now);
  }

  lemma ReleaseUnfolds(s: Lot, expected: Option<RowId>, now: Time)
    requires s.product.status == AwaitingInstantBuy && s.bids != [] && s.rounds != []
    requires Responsible(s.bids) == Some(|s.bids| - 1) && s.bids[|s.bids| - 1].offer.instant
    requires RoundOf(s.rounds, s.bids[|s.bids| - 1].offer.id) == Some(|s.rounds| - 1)
    requires WithoutBid(s.bids, s.bids[|s.bids| - 1].offer.id) == s.bids[..|s.bids| - 1]
    requires WithoutRoundsOf(s.rounds, s.bids[|s.bids| - 1].offer.id) == s.rounds[..|s.rounds| - 1]
    ensures ReleaseHold(s, expected, now).Done?
    ensures var s', round := ReleaseHold(s, expected, now).lot, s.rounds[|s.rounds| - 1].id;
            if expected.Some? && expected.value != round then s' == s.(clock := now)
            else if RoundPaidFor(s.payments, round) then HoldRetired(s, NotResponsible, now, s')
            else HoldDeleted(s, now, s')
  {
  }
}
