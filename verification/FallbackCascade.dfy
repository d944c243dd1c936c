/** The win goes down the leaderboard: the rounds of a closed auction are its
    first entries, in order, and it is given up on exactly when three of them,
    or all there are, have let it lapse. */
module FallbackCascade {
  import opened AuctionRows
  import opened AuctionQueries
  import opened AuctionSteps
  import opened Leaderboard
  import opened AuctionInvariant
  import opened BiddingProofs
  import opened CascadeProofs

  /** Everybody who bid in the auction. */
  function Bidders(os: seq<Offer>): set<UserId> {
    set i | 0 <= i < |os| && !os[i].instant :: os[i].bidder
  }

  /** How many bidders get a turn to pay at most: all of them, up to three. */
  function MaxTurns(os: seq<Offer>): nat {
    if |Bidders(os)| < 3 then |Bidders(os)| else 3
  }

  // ---- A leaderboard has one entry a bidder

  function BoardBidders(os: seq<Offer>, lb: seq<nat>, n: nat): set<UserId>
    requires n <= |lb| && forall k :: 0 <= k < |lb| ==> lb[k] < |os|
  {
    set k | 0 <= k < n :: os[lb[k]].bidder
  }

  /** An entry's bidder is none of those before. */
  lemma NextBidder(os: seq<Offer>, lb: seq<nat>, m: nat)
    requires IsLeaderboard(os, lb) && m < |lb| && forall k :: 0 <= k < |lb| ==> lb[k] < |os|
    ensures |BoardBidders(os, lb, m + 1)| == |BoardBidders(os, lb, m)| + 1
  {
    var last := os[lb[m]].bidder;
    assert BoardBidders(os, lb, m + 1) == BoardBidders(os, lb, m) + {last};
  }

  lemma {:induction false} BoardBiddersCount(os: seq<Offer>, lb: seq<nat>, n: nat)
    requires IsLeaderboard(os, lb) && n <= |lb|
    ensures forall k :: 0 <= k < |lb| ==> lb[k] < |os|
    ensures |BoardBidders(os, lb, n)| == n
  {
    assert forall k :: 0 <= k < |lb| ==> IsBest(os, lb[k]);
    if n > 0 {
      var m := n - 1;
      BoardBiddersCount(os, lb, m);
      NextBidder(os, lb, m);
    }
  }

  lemma OneEntryPerBidder(os: seq<Offer>, lb: seq<nat>)
    requires IsLeaderboard(os, lb)
    ensures |lb| == |Bidders(os)|
  {
    BoardBiddersCount(os, lb, |lb|);
    assert forall k :: 0 <= k < |lb| ==> IsBest(os, lb[k]);
    forall i | 0 <= i < |os| && !os[i].instant ensures os[i].bidder in BoardBidders(os, lb, |lb|) {
      assert OnBoard(os, lb, os[i].bidder);
    }
    assert BoardBidders(os, lb, |lb|) == Bidders(os);
  }

  // ---- The rounds at any time

  ghost predicate RoundAt(s: Lot, lb: seq<nat>, h: nat, j: nat) {
    && j < |lb| && lb[j] < |s.bids| && h + j < |s.rounds|
    && var o := s.bids[lb[j]].offer;
       s.rounds[h + j].ticket == Ticket(o.id, o.bidder, o.amount, j)
  }

  ghost predicate RoundAfter(s: Lot, h: nat, j: nat) {
    && 0 < j && h + j < |s.rounds|
    && s.rounds[h + j].ticket.amount < s.rounds[h + j - 1].ticket.amount
    && s.rounds[h + j - 1].deadline < s.rounds[h + j].deadline
  }

  /** After the rounds of the `h` holds, the `k` rounds of the auction are those
      of the first `k` leaderboard entries: ranks 0, 1, 2, amounts falling,
      deadlines rising. */
  ghost predicate FollowsBoard(s: Lot, lb: seq<nat>, h: nat, k: nat) {
    && |s.rounds| == h + k && k <= MaxTurns(Offers(s.bids))
    && (forall j :: 0 <= j < k ==> RoundAt(s, lb, h, j))
    && (forall j :: 0 < j < k ==> RoundAfter(s, h, j))
  }

  lemma RoundsFollowLeaderboard(cfg: Config, s: Lot, lb: seq<nat>)
    requires cfg.Valid() && Inv(cfg, s) && IsLeaderboard(Offers(s.bids), lb)
    ensures 0 <= Turns(s) && FollowsBoard(s, lb, |HoldTickets(Offers(s.bids))|, Turns(s))
    ensures Tickets(s.rounds[..|s.rounds| - Turns(s)]) == HoldTickets(Offers(s.bids))
  {
    var os := Offers(s.bids);
    BoardIsRanking(cfg, TermsOf(s.product), os, Reals(os), lb);
    LeaderboardFalls(os, lb);
    FollowsAt(s, os, lb, Turns(s));
  }

  lemma BoardIsRanking(cfg: Config, t: Terms, os: seq<Offer>, rs: seq<Offer>, lb: seq<nat>)
    requires cfg.Valid() && rs == Reals(os) && Ladder(cfg, t, rs) && IsLeaderboard(os, lb)
    ensures lb == Ranking(os) && |lb| == |Bidders(os)|
  {
    InvRising(cfg, t, os, rs);
    RankingIsLeaderboard(os);
    LeaderboardUnique(os, lb, Ranking(os));
    OneEntryPerBidder(os, lb);
  }

  lemma FollowsAt(s: Lot, os: seq<Offer>, lb: seq<nat>, k: int)
    requires os == Offers(s.bids) && lb == Ranking(os) && EntriesFall(os, lb) && |lb| == |Bidders(os)|
    requires RoundsFollow(s.rounds, os, k) && DeadlinesRise(s.rounds, k) && k == Turns(s)
    ensures 0 <= k && FollowsBoard(s, lb, |HoldTickets(os)|, k)
    ensures Tickets(s.rounds[..|s.rounds| - k]) == HoldTickets(os)
  {
    var h := |HoldTickets(os)|;
    TicketsInTwo(s.rounds, os, lb, k);
    hide RoundsFollow, Ranking, Bidders, Tickets, LeaderTickets, HoldTickets, RoundAt, RoundAfter, TicketIs, EntryFalls;
    forall j | 0 <= j < k ensures RoundAt(s, lb, h, j) {
      RankedRound(s, os, lb, h, j);
    }
    forall j | 0 < j < k ensures RoundAfter(s, h, j) {
      NextRankedRound(s, os, lb, h, k, j);
    }
  }

  /** Round `h + j` is that of ranked bidder `j`. */
  ghost predicate TicketIs(rounds: seq<Round>, os: seq<Offer>, ls: seq<nat>, h: nat, j: nat) {
    && j < |ls| && ls[j] < |os| && h + j < |rounds|
    && rounds[h + j].ticket == Ticket(os[ls[j]].id, os[ls[j]].bidder, os[ls[j]].amount, j)
  }

  lemma RankedRound(s: Lot, os: seq<Offer>, ls: seq<nat>, h: nat, j: nat)
    requires os == Offers(s.bids) && TicketIs(s.rounds, os, ls, h, j)
    ensures RoundAt(s, ls, h, j)
  {
    assert os[ls[j]] == s.bids[ls[j]].offer;
  }

  lemma NextRankedRound(s: Lot, os: seq<Offer>, ls: seq<nat>, h: nat, k: int, j: nat)
    requires TicketIs(s.rounds, os, ls, h, j) && j > 0 && TicketIs(s.rounds, os, ls, h, j - 1)
    requires EntryFalls(os, ls, j) && |s.rounds| == h + k && DeadlinesRise(s.rounds, k)
    ensures RoundAfter(s, h, j)
  {
    assert DeadlineBefore(s.rounds, h + j);
  }

  /** From one leaderboard entry to the next the amount falls. */
  ghost predicate EntryFalls(os: seq<Offer>, lb: seq<nat>, j: nat) {
    0 < j < |lb| ==> lb[j] < |os| && lb[j - 1] < |os| && os[lb[j]].amount < os[lb[j - 1]].amount
  }

  ghost predicate EntriesFall(os: seq<Offer>, lb: seq<nat>) {
    forall j: nat :: EntryFalls(os, lb, j)
  }

  lemma LeaderboardFalls(os: seq<Offer>, lb: seq<nat>)
    requires IsLeaderboard(os, lb)
    ensures EntriesFall(os, lb)
  {
    forall j: nat ensures EntryFalls(os, lb, j) {
      if 0 < j < |lb| {
        assert IsBest(os, lb[j]) && IsBest(os, lb[j - 1]);
      }
    }
  }

  /** The tickets of the holds, then those of the first `k` ranked bidders. */
  lemma TicketsInTwo(rounds: seq<Round>, os: seq<Offer>, ls: seq<nat>, k: int)
    requires RoundsFollow(rounds, os, k) && ls == Ranking(os)
    ensures var h := |HoldTickets(os)|;
            && 0 <= k <= |ls| && |rounds| == h + k && k <= MAX_FALLBACK_RANK + 1
            && Tickets(rounds[..h]) == HoldTickets(os)
            && forall j: nat :: j < k ==> TicketIs(rounds, os, ls, h, j)
  {
    var h, ts := |HoldTickets(os)|, Tickets(rounds);
    assert |ts| == |rounds|;
    LeadersValid(os, {});
    forall j: nat | j < k ensures TicketIs(rounds, os, ls, h, j) {
      assert ts[h + j] == LeaderTickets(os)[..k][j];
    }
    assert Tickets(rounds[..h]) == ts[..h];
  }

  // ---- What an overdue turn leads to

  /** Leaderboard entry `k - 1` has had the last turn, which lapses. */
  ghost predicate Lapses(s: Lot, lb: seq<nat>, k: nat) {
    0 < k <= |lb| && lb[k - 1] < |s.bids| && s.rounds != []
  }

  function LapsedBid(b: Bid): Bid {
    b.(responsible := false, payment := Expired)
  }

  function LapsedRound(r: Round, now: Time): Round {
    r.(status := RoundExpired, resolvedAt := Some(now))
  }

  /** The turn to pay has passed from leaderboard entry `k - 1` to entry `k`. */
  ghost predicate PassedTo(cfg: Config, s: Lot, lb: seq<nat>, k: nat, now: Time, s': Lot) {
    && Lapses(s, lb, k) && k < |lb| && lb[k] < |s.bids| && lb[k] != lb[k - 1]
    && var from, to, last, due := lb[k - 1], lb[k], |s.rounds| - 1, now + cfg.paymentMs;
       var o := s.bids[to].offer;
       && s'.product == s.product.(winningBid := Some(o.id))
       && s'.bids == s.bids[from := LapsedBid(s.bids[from])]
                           [to := s.bids[to].(rank := k, responsible := true, payment := Pending,
                                              deadline := Some(due))]
       && s'.rounds == s.rounds[last := LapsedRound(s.rounds[last], now)] +
                       [Round(s.nextId, Ticket(o.id, o.bidder, o.amount, k), PendingPayment, due, None)]
  }

  /** The lot is given up on: every round has expired. */
  ghost predicate GivenUpOn(s: Lot, lb: seq<nat>, k: nat, now: Time, s': Lot) {
    && Lapses(s, lb, k)
    && (forall j :: 0 <= j < |s'.rounds| ==> s'.rounds[j].status == RoundExpired)
    && var from, last := lb[k - 1], |s.rounds| - 1;
       && s'.product == s.product.(status := Abandoned, abandonedAt := Some(now))
       && s'.bids == s.bids[from := LapsedBid(s.bids[from])]
       && s'.rounds == s.rounds[last := LapsedRound(s.rounds[last], now)]
  }

  /** Before its deadline nothing happens; after it the turn passes to the next
      entry of the leaderboard, and the lot is abandoned if and only if three
      turns, or as many as there are bidders, have been had. */
  lemma OverdueTurn(cfg: Config, s: Lot, lb: seq<nat>, now: Time)
    requires cfg.Valid() && Inv(cfg, s) && s.product.status == AwaitingPayment && IsLeaderboard(Offers(s.bids), lb)
    ensures 0 < Turns(s) <= MaxTurns(Offers(s.bids)) && s.rounds != [] && PaymentExpiry(cfg, s, now).Done?
    ensures var s' := PaymentExpiry(cfg, s, now).lot;
            if s.rounds[|s.rounds| - 1].deadline > now then s' == s.(clock := now)
            else if Turns(s) < MaxTurns(Offers(s.bids)) then PassedTo(cfg, s, lb, Turns(s), now, s')
            else GivenUpOn(s, lb, Turns(s), now, s')
  {
    var os := Offers(s.bids);
    BoardIsRanking(cfg, TermsOf(s.product), os, Reals(os), lb);
    OverdueAt(cfg, s, now, PaymentExpiry(cfg, s, now), os, Reals(os), lb, Turns(s));
  }

  lemma OverdueAt(cfg: Config, s: Lot, now: Time, outcome: Outcome,
                  os: seq<Offer>, rs: seq<Offer>, ls: seq<nat>, k: int)
    requires cfg.Valid() && InvAt(cfg, s, os, rs, ls, k) && s.product.status == AwaitingPayment
    requires os == Offers(s.bids) && rs == Reals(os) && ls == Ranking(os) && |ls| == |Bidders(os)|
    requires outcome == PaymentExpiry(cfg, s, now)
    ensures 0 < k <= MaxTurns(os) && s.rounds != [] && outcome.Done?
    ensures if s.rounds[|s.rounds| - 1].deadline > now then outcome.lot == s.(clock := now)
            else if k < MaxTurns(os) then PassedTo(cfg, s, ls, k, now, outcome.lot)
            else GivenUpOn(s, ls, k, now, outcome.lot)
  {
    hide PaymentExpiry, Ladder, Fresh, PaymentRows, HoldPrice, Cache, DeadlinesRise, Bidders, ProductRow;
    hide Top, SpentBidders, Responsible, RoundOf, BidsAre, RoundsAre, RoundsFollow, PassedTo, GivenUpOn, AfterLapse;
    TurnsInRange(s, os, ls, k);
    if TurnOverdue(s, now) {
      ExpiryFollowsRanking(cfg, s, now, os, rs, ls, k);
      LapseIs(cfg, s, now, outcome.lot, os, ls, k);
    } else {
      NothingOverdue(cfg, s, now, os, ls, k);
    }
  }

  lemma TurnsInRange(s: Lot, os: seq<Offer>, ls: seq<nat>, k: int)
    requires RoundsFollow(s.rounds, os, k) && Stage(s, ls, k) && s.product.status == AwaitingPayment
    requires ls == Ranking(os) && |ls| == |Bidders(os)|
    ensures 0 < k <= MaxTurns(os) && s.rounds != []
  {
  }

  lemma LapseIs(cfg: Config, s: Lot, now: Time, s': Lot, os: seq<Offer>, ls: seq<nat>, k: nat)
    requires TurnStage(s, ls, k) && ls == Ranking(os) && |ls| == |Bidders(os)| && |os| == |s.bids|
    requires ls[k - 1] < |s.bids| && !s.bids[ls[k - 1]].offer.instant && (k < |ls| ==> ls[k] < |s.bids|)
    requires s' == AfterLapse(cfg, s, ls, k, now)
    ensures if k < MaxTurns(os) then PassedTo(cfg, s, ls, k, now, s') else GivenUpOn(s, ls, k, now, s')
  {
    LeadersValid(os, {});
    LapsedBids(s, ls, k, now);
    hide Leaders, Bidders, BidsAre, TurnStage;
    TurnOwes(s, ls, k);
  }

  /** A lot nobody paid for is abandoned after exactly as many rounds as that. */
  lemma AbandonedAfterAll(cfg: Config, s: Lot)
    requires cfg.Valid() && Inv(cfg, s) && s.product.status == Abandoned
    requires forall i :: 0 <= i < |s.bids| ==> !s.bids[i].responsible
    ensures Turns(s) == MaxTurns(Offers(s.bids))
    ensures forall j :: 0 <= j < |s.rounds| ==> s.rounds[j].status == RoundExpired
  {
    var os := Offers(s.bids);
    InvRising(cfg, TermsOf(s.product), os, Reals(os));
    RankingIsLeaderboard(os);
    OneEntryPerBidder(os, Ranking(os));
  }
}
