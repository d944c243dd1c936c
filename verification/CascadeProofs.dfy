/** Closing an auction, and passing the win on when a payment window lapses,
    keep the invariant: the win goes down the ranking, one bidder at a time. */
module CascadeProofs {
  import opened AuctionRows
  import opened AuctionQueries
  import opened AuctionSteps
  import opened Leaderboard
  import opened AuctionInvariant
  import opened BiddingProofs
  import opened HoldProofs

  // ---- Whose turn is next

  /** With the first `k` ranked bidders lapsed, the bidders excluded from the
      fallback query are exactly those. */
  lemma SpentAreRanked(bids: seq<Bid>, os: seq<Offer>, ls: seq<nat>, k: nat, user: UserId)
    requires os == Offers(bids) && Standings(os, {}, ls) && k <= |ls|
    requires BidsAre(bids, -1, NotResponsible, ls[..k])
    ensures user in SpentBidders(bids) <==> exists j :: 0 <= j < k && os[ls[j]].bidder == user
  {
    if user in SpentBidders(bids) {
      var i :| 0 <= i < |bids| && !bids[i].offer.instant && bids[i].payment == Expired && bids[i].offer.bidder == user;
      assert i in ls[..k];
      var j :| 0 <= j < k && ls[j] == i;
      assert os[ls[j]].bidder == user;
    }
    if j :| 0 <= j < k && os[ls[j]].bidder == user {
      assert ls[..k][j] == ls[j] && ls[j] in ls[..k];
      assert bids[ls[j]].payment == Expired;
    }
  }

  /** The fallback query returns the bid of the next ranked bidder, and nothing
      once the ranking is used up. */
  lemma NextInRanking(bids: seq<Bid>, os: seq<Offer>, ls: seq<nat>, k: nat)
    requires os == Offers(bids) && ls == Ranking(os) && Rising(os) && k <= |ls|
    requires BidsAre(bids, -1, NotResponsible, ls[..k])
    ensures Top(bids, Unserved(SpentBidders(bids))) == if k < |ls| then Some(ls[k]) else None
  {
    LeadersValid(os, {});
    var f := Unserved(SpentBidders(bids));
    forall i | 0 <= i < |bids| && Eligible(bids[i], f) ensures k < |ls| && i <= ls[k] {
      EligibleBelow(bids, os, ls, k, i);
    }
    if k < |ls| {
      NextIsEligible(bids, os, ls, k);
      var r := Top(bids, f).value;
      assert os[r] == bids[r].offer && os[ls[k]] == bids[ls[k]].offer;
    }
  }

  /** Nobody still to be served bid after the next ranked bidder. */
  lemma EligibleBelow(bids: seq<Bid>, os: seq<Offer>, ls: seq<nat>, k: nat, i: nat)
    requires os == Offers(bids) && ls == Ranking(os) && Standings(os, {}, ls) && k <= |ls|
    requires BidsAre(bids, -1, NotResponsible, ls[..k])
    requires i < |bids| && Eligible(bids[i], Unserved(SpentBidders(bids)))
    ensures k < |ls| && i <= ls[k]
  {
    assert os[i] == bids[i].offer;
    var j := LeaderOf(os, {}, i);
    SpentAreRanked(bids, os, ls, k, os[i].bidder);
    assert k <= j;
  }

  lemma NextIsEligible(bids: seq<Bid>, os: seq<Offer>, ls: seq<nat>, k: nat)
    requires os == Offers(bids) && Standings(os, {}, ls) && k < |ls|
    requires BidsAre(bids, -1, NotResponsible, ls[..k])
    ensures Eligible(bids[ls[k]], Unserved(SpentBidders(bids)))
  {
    SpentAreRanked(bids, os, ls, k, os[ls[k]].bidder);
    assert ls[k] !in ls[..k];
  }

  /** Closing looks at every real bid: the highest is the first in the ranking. */
  lemma HighestIsFirst(bids: seq<Bid>, os: seq<Offer>, ls: seq<nat>)
    requires os == Offers(bids) && ls == Ranking(os) && Rising(os)
    ensures Top(bids, AnyReal) == if ls == [] then None else Some(ls[0])
  {
    LeadersValid(os, {});
    forall i | 0 <= i < |bids| && Eligible(bids[i], AnyReal) ensures ls != [] && i <= ls[0] {
      assert os[i] == bids[i].offer;
      var j := LeaderOf(os, {}, i);
    }
    if ls != [] {
      assert os[ls[0]] == bids[ls[0]].offer && Eligible(bids[ls[0]], AnyReal);
      var r := Top(bids, AnyReal).value;
      assert os[r] == bids[r].offer;
    }
  }

  // ---- Giving a bidder the turn to pay

  /** The rounds go one ranked bidder further. */
  lemma TurnRows(s: Lot, k: nat, deadline: Time, s': Lot, os: seq<Offer>, ls: seq<nat>)
    requires os == Offers(s.bids) && ls == Ranking(os) && RoundsFollow(s.rounds, os, k)
    requires k < |ls| && k <= MAX_FALLBACK_RANK && ls[k] < |s.bids|
    requires s' == GiveTurn(s, ls[k], k, deadline)
    ensures Offers(s'.bids) == os && RoundsFollow(s'.rounds, os, k + 1) && Turns(s') == k + 1
  {
    OffersUpdate(s.bids, ls[k], s'.bids[ls[k]]);
    TicketsAppend(s.rounds, s'.rounds[|s.rounds|]);
    var ts := LeaderTickets(os);
    assert ts[..k + 1] == ts[..k] + [ts[k]];
    assert ts[k] == s'.rounds[|s.rounds|].ticket;
  }

  lemma TurnGiven(s: Lot, k: nat, deadline: Time, s': Lot, ls: seq<nat>)
    requires k < |ls| && ls[k] < |s.bids| && !s.bids[ls[k]].offer.instant
    requires BidsAre(s.bids, -1, NotResponsible, ls[..k]) && RoundsAre(s.rounds, RoundExpired)
    requires s' == GiveTurn(s, ls[k], k, deadline) && s'.product.status == AwaitingPayment
    ensures Stage(s', ls, k + 1)
  {
    TurnBids(s.bids, ls[k], s'.bids, ls[..k]);
  }

  lemma TurnBids(bids: seq<Bid>, i: nat, bids': seq<Bid>, spent: seq<nat>)
    requires i < |bids| && BidsAre(bids, -1, NotResponsible, spent)
    requires |bids'| == |bids| && bids'[i].responsible && bids'[i].payment == Pending
    requires forall j :: 0 <= j < |bids| && j != i ==> bids'[j] == bids[j]
    ensures BidsAre(bids', i, Pending, spent)
  {
  }

  lemma TurnDeadlines(rounds: seq<Round>, r: Round, k: nat)
    requires k <= |rounds| && DeadlinesRise(rounds, k)
    requires k > 0 ==> rounds[|rounds| - 1].deadline < r.deadline
    ensures DeadlinesRise(rounds + [r], k + 1)
  {
    var rounds' := rounds + [r];
    forall i: nat | |rounds'| - (k + 1) < i ensures DeadlineBefore(rounds', i) {
      assert DeadlineBefore(rounds, i);
    }
  }

  lemma TurnFresh(s: Lot, i: nat, rank: nat, deadline: Time, s': Lot)
    requires Fresh(s) && i < |s.bids| && s' == GiveTurn(s, i, rank, deadline)
    ensures Fresh(s')
  {
    var r := s'.rounds[|s.rounds|];
    OffersUpdate(s.bids, i, s'.bids[i]);
    TicketsAppend(s.rounds, r);
    AscendingPush(RoundIds(s.rounds), s.nextId, r.id, s'.nextId);
  }

  /** A lot just before ranked bidder `k` gets the turn to pay. */
  ghost predicate TurnReady(cfg: Config, c: Lot, k: nat, deadline: Time, rs: seq<Offer>, ls: seq<nat>) {
    && Fresh(c) && PricesSet(c.product) && Ladder(cfg, TermsOf(c.product), rs)
    && k < |ls| && k <= MAX_FALLBACK_RANK && ls[k] < |c.bids| && !c.bids[ls[k]].offer.instant
    && BidsAre(c.bids, -1, NotResponsible, ls[..k]) && RoundsAre(c.rounds, RoundExpired)
    && k <= |c.rounds| && DeadlinesRise(c.rounds, k)
    && (k > 0 ==> c.rounds[|c.rounds| - 1].deadline < deadline)
    && Cache(c.product, c.bids, rs, k) && rs != []
    && c.product.status == AwaitingPayment && c.product.closedAt.Some? && c.product.settledAt == None
    && c.product.settledAmount == None && c.product.abandonedAt == None
    && PaymentRows(c, k)
  }

  lemma TurnKeeps(cfg: Config, c: Lot, k: nat, deadline: Time, s': Lot, os: seq<Offer>, rs: seq<Offer>, ls: seq<nat>)
    requires TurnReady(cfg, c, k, deadline, rs, ls)
    requires s' == GiveTurn(c, ls[k], k, deadline) && RoundsFollow(s'.rounds, os, k + 1)
    ensures InvAt(cfg, s', os, rs, ls, k + 1)
  {
    TurnGiven(c, k, deadline, s', ls);
    TurnFresh(c, ls[k], k, deadline, s');
    TurnDeadlines(c.rounds, s'.rounds[|c.rounds|], k);
    RoundAddedBacked(c, s');
    TurnProduct(cfg, c, k, deadline, s', rs, ls);
  }

  lemma TurnProduct(cfg: Config, c: Lot, k: nat, deadline: Time, s': Lot, rs: seq<Offer>, ls: seq<nat>)
    requires TurnReady(cfg, c, k, deadline, rs, ls) && s' == GiveTurn(c, ls[k], k, deadline)
    ensures Cache(s'.product, s'.bids, rs, k + 1) && HoldPrice(s'.product, s'.bids, rs, k + 1)
    ensures ProductRow(s'.product, s'.bids, rs, ls[k]) && CashDue(s', k + 1)
  {
  }

  // ---- closeIfExpired

  lemma CloseKeepsInv(cfg: Config, s: Lot, now: Time)
    requires cfg.Valid() && Inv(cfg, s) && s.clock <= now
    ensures CloseIfExpired(cfg, s, now).Done?
    ensures Inv(cfg, CloseIfExpired(cfg, s, now).lot)
  {
    var s' := CloseIfExpired(cfg, s, now).lot;
    if s.product.status != Active || !ShouldClose(s.product, now) {
      TimePasses(cfg, s, now);
    } else {
      var os := Offers(s.bids);
      CloseAt(cfg, s, now, s', os, Reals(os), Ranking(os));
    }
  }

  /** The lot as it is just before the winner gets the turn to pay. */
  function Closing(s: Lot, i: nat, now: Time): Lot
    requires i < |s.bids|
  {
    s.(product := s.product.(status := AwaitingPayment, closedAt := Some(now)),
       bids := s.bids[i := s.bids[i].(originalWinner := true)],
       clock := now)
  }

  lemma CloseAt(cfg: Config, s: Lot, now: Time, s': Lot, os: seq<Offer>, rs: seq<Offer>, ls: seq<nat>)
    requires cfg.Valid() && InvAt(cfg, s, os, rs, ls, 0) && s.clock <= now
    requires os == Offers(s.bids) && rs == Reals(os) && ls == Ranking(os)
    requires s.product.status == Active && ShouldClose(s.product, now)
    requires CloseIfExpired(cfg, s, now).Done? ==> s' == CloseIfExpired(cfg, s, now).lot
    ensures CloseIfExpired(cfg, s, now).Done?
    ensures InvAt(cfg, s', os, rs, ls, 1) && Offers(s'.bids) == os && Turns(s') == 1
  {
    ClosesToFirst(cfg, s, now, os, rs, ls);
    ClosingTurn(cfg, s, now, s', os, rs, ls);
  }

  /** An expired auction closes to the highest real bid: the first in the ranking. */
  lemma ClosesToFirst(cfg: Config, s: Lot, now: Time, os: seq<Offer>, rs: seq<Offer>, ls: seq<nat>)
    requires cfg.Valid() && Ladder(cfg, TermsOf(s.product), rs) && rs != []
    requires os == Offers(s.bids) && rs == Reals(os) && ls == Ranking(os)
    requires s.product.status == Active && ShouldClose(s.product, now)
    ensures ls != [] && ls[0] < |s.bids| && !s.bids[ls[0]].offer.instant
    ensures CloseIfExpired(cfg, s, now) == Done(GiveTurn(Closing(s, ls[0], now), ls[0], 0, now + cfg.paymentMs))
    ensures Offers(Closing(s, ls[0], now).bids) == os
  {
    WinnerExists(cfg, s, os, rs, ls);
    HighestIsFirst(s.bids, os, ls);
    OffersUpdate(s.bids, ls[0], Closing(s, ls[0], now).bids[ls[0]]);
  }

  lemma ClosingTurn(cfg: Config, s: Lot, now: Time, s': Lot, os: seq<Offer>, rs: seq<Offer>, ls: seq<nat>)
    requires cfg.Valid() && InvAt(cfg, s, os, rs, ls, 0) && s.clock <= now && s.product.status == Active
    requires ls == Ranking(os) && ls != [] && ls[0] < |s.bids| && !s.bids[ls[0]].offer.instant
    requires Offers(Closing(s, ls[0], now).bids) == os
    requires s' == GiveTurn(Closing(s, ls[0], now), ls[0], 0, now + cfg.paymentMs)
    ensures InvAt(cfg, s', os, rs, ls, 1) && Offers(s'.bids) == os && Turns(s') == 1
  {
    hide TurnReady, Fresh, Ladder, RoundsFollow, DeadlinesRise, Stage, Cache, ProductRow, HoldPrice, PaymentRows;
    hide Offers, Ranking;
    ClosingReady(cfg, s, now, os, rs, ls);
    RankedTurn(cfg, Closing(s, ls[0], now), 0, now + cfg.paymentMs, s', os, rs, ls);
  }

  lemma RankedTurn(cfg: Config, c: Lot, k: nat, deadline: Time, s': Lot, os: seq<Offer>, rs: seq<Offer>, ls: seq<nat>)
    requires os == Offers(c.bids) && ls == Ranking(os) && RoundsFollow(c.rounds, os, k)
    requires TurnReady(cfg, c, k, deadline, rs, ls) && s' == GiveTurn(c, ls[k], k, deadline)
    ensures InvAt(cfg, s', os, rs, ls, k + 1) && Offers(s'.bids) == os && Turns(s') == k + 1
  {
    TurnRows(c, k, deadline, s', os, ls);
    TurnKeeps(cfg, c, k, deadline, s', os, rs, ls);
  }

  lemma WinnerExists(cfg: Config, s: Lot, os: seq<Offer>, rs: seq<Offer>, ls: seq<nat>)
    requires cfg.Valid() && Ladder(cfg, TermsOf(s.product), rs) && rs != []
    requires os == Offers(s.bids) && rs == Reals(os) && ls == Ranking(os)
    ensures Rising(os) && ls != [] && ls[0] < |s.bids| && !s.bids[ls[0]].offer.instant
    ensures os[ls[0]] == rs[|rs| - 1]
  {
    InvRising(cfg, TermsOf(s.product), os, rs);
    WinnerBidLast(os, {});
    LeadersValid(os, {});
    assert os[ls[0]] == s.bids[ls[0]].offer;
  }

  lemma ClosingReady(cfg: Config, s: Lot, now: Time, os: seq<Offer>, rs: seq<Offer>, ls: seq<nat>)
    requires cfg.Valid() && InvAt(cfg, s, os, rs, ls, 0) && s.clock <= now && s.product.status == Active
    requires ls != [] && ls[0] < |s.bids| && !s.bids[ls[0]].offer.instant
    ensures TurnReady(cfg, Closing(s, ls[0], now), 0, now + cfg.paymentMs, rs, ls)
  {
    var c := Closing(s, ls[0], now);
    OffersUpdate(s.bids, ls[0], c.bids[ls[0]]);
    assert BidsAre(c.bids, -1, NotResponsible, ls[..0]);
  }

  // ---- handlePaymentExpiry

  /** While a ranked bidder has the turn, the responsible bid is theirs and the
      newest round covers it. */
  lemma TurnInForce(s: Lot, os: seq<Offer>, ls: seq<nat>, k: nat)
    requires os == Offers(s.bids) && ls == Ranking(os) && RoundsFollow(s.rounds, os, k) && TurnStage(s, ls, k)
    ensures s.rounds != [] && ls[k - 1] < |s.bids| && !s.bids[ls[k - 1]].offer.instant
    ensures Responsible(s.bids) == Some(ls[k - 1])
    ensures RoundOf(s.rounds, s.bids[ls[k - 1]].offer.id) == Some(|s.rounds| - 1)
    ensures s.rounds[|s.rounds| - 1].ticket ==
            Ticket(os[ls[k - 1]].id, os[ls[k - 1]].bidder, os[ls[k - 1]].amount, k - 1)
  {
    LeadersValid(os, {});
    var r := Responsible(s.bids);
    assert r.Some? && r.value == ls[k - 1];
    assert s.bids[ls[k - 1]].offer == os[ls[k - 1]];
    NewestRoundOfTurn(s.rounds, os, k);
  }

  lemma NewestRoundOfTurn(rounds: seq<Round>, os: seq<Offer>, k: nat)
    requires 0 < k && RoundsFollow(rounds, os, k)
    ensures rounds != [] && rounds[|rounds| - 1].ticket == LeaderTickets(os)[k - 1]
  {
    var ts := HoldTickets(os) + LeaderTickets(os)[..k];
    assert ts[|ts| - 1] == LeaderTickets(os)[k - 1];
    assert Tickets(rounds)[|rounds| - 1] == rounds[|rounds| - 1].ticket;
  }

  /** The lot once the bidder whose turn it was has let it lapse. */
  function Lapsed(s: Lot, i: nat, now: Time): Lot
    requires i < |s.bids| && s.rounds != []
  {
    s.(bids := s.bids[i := s.bids[i].(responsible := false, payment := Expired)],
       rounds := CloseRound(s.rounds, |s.rounds| - 1, RoundExpired, now),
       clock := now)
  }

  lemma LapsedBids(s: Lot, ls: seq<nat>, k: nat, now: Time)
    requires TurnStage(s, ls, k) && !s.bids[ls[k - 1]].offer.instant
    ensures BidsAre(Lapsed(s, ls[k - 1], now).bids, -1, NotResponsible, ls[..k])
    ensures RoundsAre(Lapsed(s, ls[k - 1], now).rounds, RoundExpired)
  {
    assert ls[..k] == ls[..k - 1] + [ls[k - 1]];
  }

  /** What a lapsed turn leads to: the turn of the next ranked bidder, unless
      the ranking or the three rounds are used up. */
  function AfterLapse(cfg: Config, s: Lot, ls: seq<nat>, k: nat, now: Time): Lot
    requires 0 < k <= |ls| && ls[k - 1] < |s.bids| && s.rounds != []
    requires k < |ls| ==> ls[k] < |s.bids|
  {
    var lapsed := Lapsed(s, ls[k - 1], now);
    if k <= MAX_FALLBACK_RANK && k < |ls| then GiveTurn(lapsed, ls[k], k, now + cfg.paymentMs)
    else GivenUp(s, ls[k - 1], now)
  }

  /** Nobody is left to pass the win on to. */
  function GivenUp(s: Lot, i: nat, now: Time): Lot
    requires i < |s.bids| && s.rounds != []
  {
    Lapsed(s, i, now).(product := s.product.(status := Abandoned, abandonedAt := Some(now)))
  }

  predicate TurnOverdue(s: Lot, now: Time) {
    && s.product.status == AwaitingPayment
    && s.rounds != []
    && s.rounds[|s.rounds| - 1].deadline <= now
  }

  /** The bid whose turn it is has the deadline of the newest round, and its rank. */
  lemma TurnOwes(s: Lot, ls: seq<nat>, k: nat)
    requires TurnStage(s, ls, k)
    ensures 0 < k <= |ls| && ls[k - 1] < |s.bids| && s.rounds != []
    ensures s.bids[ls[k - 1]].rank == k - 1 && s.bids[ls[k - 1]].deadline == Some(s.rounds[|s.rounds| - 1].deadline)
  {
  }

  /** The cascade follows the ranking. */
  lemma ExpiryFollowsRanking(cfg: Config, s: Lot, now: Time, os: seq<Offer>, rs: seq<Offer>, ls: seq<nat>, k: nat)
    requires cfg.Valid() && Ladder(cfg, TermsOf(s.product), rs) && RoundsFollow(s.rounds, os, k) && TurnStage(s, ls, k)
    requires TurnOverdue(s, now)
    requires os == Offers(s.bids) && rs == Reals(os) && ls == Ranking(os)
    ensures 0 < k <= |ls| && ls[k - 1] < |s.bids| && !s.bids[ls[k - 1]].offer.instant
    ensures k < |ls| ==> ls[k] < |s.bids| && !s.bids[ls[k]].offer.instant
    ensures PaymentExpiry(cfg, s, now) == Done(AfterLapse(cfg, s, ls, k, now))
    ensures Offers(Lapsed(s, ls[k - 1], now).bids) == os
  {
    TurnInForce(s, os, ls, k);
    TurnOwes(s, ls, k);
    hide TurnStage, RoundsFollow, Ladder, Ranking, Reals, Offers;
    hide PaymentExpiry, Top, SpentBidders, Responsible, RoundOf;
    var i, lapsed := ls[k - 1], Lapsed(s, ls[k - 1], now);
    OffersUpdate(s.bids, i, lapsed.bids[i]);
    LapsedNext(cfg, s, now, os, rs, ls, k);
    ExpiryUnfolds(cfg, s, i, k, now);
  }

  lemma LapsedNext(cfg: Config, s: Lot, now: Time, os: seq<Offer>, rs: seq<Offer>, ls: seq<nat>, k: nat)
    requires cfg.Valid() && Ladder(cfg, TermsOf(s.product), rs) && TurnStage(s, ls, k) && TurnOverdue(s, now)
    requires 0 < k <= |ls| && ls[k - 1] < |s.bids| && !s.bids[ls[k - 1]].offer.instant
    requires os == Offers(Lapsed(s, ls[k - 1], now).bids) && rs == Reals(os) && ls == Ranking(os)
    ensures var bids := Lapsed(s, ls[k - 1], now).bids;
            Top(bids, Unserved(SpentBidders(bids))) == if k < |ls| then Some(ls[k]) else None
    ensures k < |ls| ==> ls[k] < |s.bids| && !s.bids[ls[k]].offer.instant
  {
    LapsedBids(s, ls, k, now);
    NextTurn(cfg, TermsOf(s.product), Lapsed(s, ls[k - 1], now).bids, os, rs, ls, k);
  }

  lemma NextTurn(cfg: Config, t: Terms, bids: seq<Bid>, os: seq<Offer>, rs: seq<Offer>, ls: seq<nat>, k: nat)
    requires cfg.Valid() && Ladder(cfg, t, rs) && rs == Reals(os)
    requires os == Offers(bids) && ls == Ranking(os) && k <= |ls| && BidsAre(bids, -1, NotResponsible, ls[..k])
    ensures Top(bids, Unserved(SpentBidders(bids))) == if k < |ls| then Some(ls[k]) else None
    ensures k < |ls| ==> ls[k] < |bids| && !bids[ls[k]].offer.instant
  {
    InvRising(cfg, t, os, rs);
    NextInRanking(bids, os, ls, k);
  }

  lemma ExpiryUnfolds(cfg: Config, s: Lot, i: nat, k: nat, now: Time)
    requires TurnOverdue(s, now) && i < |s.bids| && Responsible(s.bids) == Some(i) && !s.bids[i].offer.instant
    requires RoundOf(s.rounds, s.bids[i].offer.id) == Some(|s.rounds| - 1) && 0 < k && s.bids[i].rank == k - 1
    requires s.bids[i].deadline == Some(s.rounds[|s.rounds| - 1].deadline)
    ensures var lapsed := Lapsed(s, i, now);
            PaymentExpiry(cfg, s, now) ==
            match (if k > MAX_FALLBACK_RANK then None else Top(lapsed.bids, Unserved(SpentBidders(lapsed.bids))))
            case Some(n) => Done(GiveTurn(lapsed, n, k, now + cfg.paymentMs))
            case None => Done(GivenUp(s, i, now))
  {
  }

  lemma LapsedReady(cfg: Config, s: Lot, now: Time, rs: seq<Offer>, os: seq<Offer>, ls: seq<nat>, k: nat)
    requires cfg.Valid() && InvAt(cfg, s, os, rs, ls, k) && s.clock <= now && TurnOverdue(s, now)
    requires 0 < k < |ls| && k <= MAX_FALLBACK_RANK && ls[k - 1] < |s.bids| && ls[k] < |s.bids|
    requires !s.bids[ls[k - 1]].offer.instant && !s.bids[ls[k]].offer.instant
    ensures TurnReady(cfg, Lapsed(s, ls[k - 1], now), k, now + cfg.paymentMs, rs, ls)
  {
    var lapsed := Lapsed(s, ls[k - 1], now);
    LapsedBids(s, ls, k, now);
    LapsedFresh(s, ls[k - 1], now);
    LapsedPayments(s, ls[k - 1], now, k);
    LapsedDeadlines(s, ls[k - 1], now, k);
  }

  lemma LapsedFresh(s: Lot, i: nat, now: Time)
    requires Fresh(s) && i < |s.bids| && s.rounds != []
    ensures Fresh(Lapsed(s, i, now))
    ensures Tickets(Lapsed(s, i, now).rounds) == Tickets(s.rounds)
  {
    var lapsed := Lapsed(s, i, now);
    OffersUpdate(s.bids, i, lapsed.bids[i]);
    TicketsUpdate(s.rounds, |s.rounds| - 1, lapsed.rounds[|s.rounds| - 1]);
  }

  lemma LapsedDeadlines(s: Lot, i: nat, now: Time, k: int)
    requires DeadlinesRise(s.rounds, k) && i < |s.bids| && s.rounds != []
    ensures DeadlinesRise(Lapsed(s, i, now).rounds, k)
  {
    var rounds := Lapsed(s, i, now).rounds;
    forall j: nat | |rounds| - k < j ensures DeadlineBefore(rounds, j) {
      assert DeadlineBefore(s.rounds, j);
    }
  }

  lemma LapsedPayments(s: Lot, i: nat, now: Time, k: int)
    requires PaymentRows(s, k) && s.product.status == AwaitingPayment && i < |s.bids| && s.rounds != []
    ensures PaymentRows(Lapsed(s, i, now), k)
  {
    RoundClosedBacked(s, Lapsed(s, i, now), |s.rounds| - 1);
  }

  lemma FallbackInv(cfg: Config, s: Lot, now: Time, s': Lot, os: seq<Offer>, rs: seq<Offer>, ls: seq<nat>, k: nat)
    requires cfg.Valid() && InvAt(cfg, s, os, rs, ls, k) && s.clock <= now && TurnOverdue(s, now)
    requires 0 < k < |ls| && k <= MAX_FALLBACK_RANK && ls[k - 1] < |s.bids| && ls[k] < |s.bids|
    requires !s.bids[ls[k - 1]].offer.instant && !s.bids[ls[k]].offer.instant && ls == Ranking(os)
    requires Offers(Lapsed(s, ls[k - 1], now).bids) == os
    requires s' == GiveTurn(Lapsed(s, ls[k - 1], now), ls[k], k, now + cfg.paymentMs)
    ensures InvAt(cfg, s', os, rs, ls, k + 1) && Offers(s'.bids) == os && Turns(s') == k + 1
  {
    hide TurnReady, Ladder, DeadlinesRise, Stage, Cache, ProductRow, HoldPrice, PaymentRows, Ranking;
    LapsedReady(cfg, s, now, rs, os, ls, k);
    LapsedFresh(s, ls[k - 1], now);
    RankedTurn(cfg, Lapsed(s, ls[k - 1], now), k, now + cfg.paymentMs, s', os, rs, ls);
  }

  lemma AbandonInv(cfg: Config, s: Lot, now: Time, s': Lot, os: seq<Offer>, rs: seq<Offer>, ls: seq<nat>, k: nat)
    requires cfg.Valid() && InvAt(cfg, s, os, rs, ls, k) && s.clock <= now && TurnOverdue(s, now)
    requires 0 < k <= |ls| && (k == |ls| || k > MAX_FALLBACK_RANK)
    requires ls[k - 1] < |s.bids| && !s.bids[ls[k - 1]].offer.instant
    requires Offers(Lapsed(s, ls[k - 1], now).bids) == os
    requires s' == GivenUp(s, ls[k - 1], now)
    ensures InvAt(cfg, s', os, rs, ls, k) && Offers(s'.bids) == os && Turns(s') == k
  {
    LapsedBids(s, ls, k, now);
    LapsedFresh(s, ls[k - 1], now);
    LapsedPayments(s, ls[k - 1], now, k);
    LapsedDeadlines(s, ls[k - 1], now, k);
    assert LapsedOut(s'.bids, ls, k);
  }

  lemma ExpiryKeepsInv(cfg: Config, s: Lot, now: Time)
    requires cfg.Valid() && Inv(cfg, s) && s.clock <= now
    ensures PaymentExpiry(cfg, s, now).Done?
    ensures Inv(cfg, PaymentExpiry(cfg, s, now).lot)
  {
    hide Offers, Ranking, Fresh, Ladder, DeadlinesRise, Cache, ProductRow, HoldPrice, PaymentRows;
    hide Responsible, RoundOf, Top, SpentBidders;
    var s' := PaymentExpiry(cfg, s, now).lot;
    var os := Offers(s.bids);
    if TurnOverdue(s, now) {
      TurnExpires(cfg, s, now, s', os, Reals(os), Ranking(os), Turns(s));
    } else if s.product.status == AwaitingInstantBuy {
      HoldExpires(cfg, s, now, os, Ranking(os));
      if s.rounds[|s.rounds| - 1].deadline <= now {
        HoldRetiredKeepsInv(cfg, s, Expired, now, s');
      } else {
        TimePasses(cfg, s, now);
      }
    } else {
      NothingOverdue(cfg, s, now, os, Ranking(os), Turns(s));
      TimePasses(cfg, s, now);
    }
  }

  lemma TurnExpires(cfg: Config, s: Lot, now: Time, s': Lot, os: seq<Offer>, rs: seq<Offer>, ls: seq<nat>, k: nat)
    requires cfg.Valid() && InvAt(cfg, s, os, rs, ls, k) && s.clock <= now && TurnOverdue(s, now)
    requires os == Offers(s.bids) && rs == Reals(os) && ls == Ranking(os)
    requires PaymentExpiry(cfg, s, now) == Done(s')
    ensures Offers(s'.bids) == os && InvAt(cfg, s', os, rs, ls, Turns(s'))
  {
    ExpiryFollowsRanking(cfg, s, now, os, rs, ls, k);
    LapseKeeps(cfg, s, now, s', os, rs, ls, k);
  }

  lemma LapseKeeps(cfg: Config, s: Lot, now: Time, s': Lot, os: seq<Offer>, rs: seq<Offer>, ls: seq<nat>, k: nat)
    requires cfg.Valid() && InvAt(cfg, s, os, rs, ls, k) && s.clock <= now && TurnOverdue(s, now) && ls == Ranking(os)
    requires 0 < k <= |ls| && ls[k - 1] < |s.bids| && !s.bids[ls[k - 1]].offer.instant
    requires k < |ls| ==> ls[k] < |s.bids| && !s.bids[ls[k]].offer.instant
    requires Offers(Lapsed(s, ls[k - 1], now).bids) == os && s' == AfterLapse(cfg, s, ls, k, now)
    ensures Offers(s'.bids) == os && InvAt(cfg, s', os, rs, ls, Turns(s'))
  {
    hide InvAt, Lapsed, GiveTurn, GivenUp, Ranking;
    if k <= MAX_FALLBACK_RANK && k < |ls| {
      FallbackInv(cfg, s, now, s', os, rs, ls, k);
    } else {
      AbandonInv(cfg, s, now, s', os, rs, ls, k);
    }
  }

  /** A hold past its deadline is retired as EXPIRED. */
  lemma HoldExpires(cfg: Config, s: Lot, now: Time, os: seq<Offer>, ls: seq<nat>)
    requires os == Offers(s.bids) && RoundsFollow(s.rounds, os, 0) && Stage(s, ls, 0)
    requires s.product.status == AwaitingInstantBuy
    ensures s.rounds != [] && PaymentExpiry(cfg, s, now).Done?
    ensures var s' := PaymentExpiry(cfg, s, now).lot;
            if s.rounds[|s.rounds| - 1].deadline <= now then HoldRetired(s, Expired, now, s')
            else s' == s.(clock := now)
  {
    HoldInForce(s, os, ls);
  }

  lemma NothingOverdue(cfg: Config, s: Lot, now: Time, os: seq<Offer>, ls: seq<nat>, k: int)
    requires os == Offers(s.bids) && ls == Ranking(os) && RoundsFollow(s.rounds, os, k) && Stage(s, ls, k)
    requires !TurnOverdue(s, now) && s.product.status != AwaitingInstantBuy
    ensures PaymentExpiry(cfg, s, now) == Done(s.(clock := now))
  {
    hide RoundsFollow, BidsAre, RoundsAre, Offers, Ranking, Responsible, RoundOf, Top, SpentBidders;
    if s.product.status == AwaitingPayment {
      TurnInForce(s, os, ls, k);
    }
  }
}
