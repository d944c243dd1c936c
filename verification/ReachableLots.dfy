/** What can be said, in the backend's own terms, of every lot that some run from
    a listing leads to. */
module ReachableLots {
  import opened Money
  import opened AuctionRows
  import opened AuctionQueries
  import opened AuctionSteps
  import opened Leaderboard
  import opened AuctionInvariant
  import opened BiddingProofs
  import opened CascadeProofs
  import opened AuctionRuns
  import opened WhoOwes
  import BidLadder
  import FallbackCascade
  import SaleOnce
  import BidRange
  import Pricing

  // ---- The bids

  /** The bids placed in the auction are multiples of Rs 5 from the start price
      to the ceiling, none by the owner; each is by another bidder than the one
      before, at least the flat increment above it and no further above it than
      the larger increment allows; and amounts rise throughout. */
  lemma BidsClimb(cfg: Config, s: Lot)
    requires cfg.Valid() && Reachable(cfg, s)
    ensures var p, rs := s.product, BidLadder.RealBids(s);
            && (forall k :: 0 <= k < |rs| ==>
                  OnStep(rs[k].amount) && p.start <= rs[k].amount <= p.end && rs[k].bidder != p.owner)
            && (forall k :: 0 < k < |rs| ==>
                  var last, next := rs[k - 1], rs[k];
                  && last.bidder != next.bidder
                  && last.amount as real + cfg.flat <= next.amount as real
                  && (next.amount as real <= last.amount as real + cfg.flat
                      || next.amount as real <= BidRange.Raised(last.amount, cfg.percent)))
            && (forall k, l :: 0 <= k < l < |rs| ==> rs[k].amount < rs[l].amount)
  {
    var t, rs := TermsOf(s.product), BidLadder.RealBids(s);
    hide Reachable, Inv, Ladder, BidLadder.RealBids;
    ReachableInv(cfg, s);
    BidLadder.LadderOf(cfg, s);
    forall k | 0 <= k < |rs|
      ensures OnStep(rs[k].amount) && t.start <= rs[k].amount <= t.end && rs[k].bidder != t.owner
      ensures k > 0 ==>
                && rs[k - 1].bidder != rs[k].bidder
                && rs[k - 1].amount as real + cfg.flat <= rs[k].amount as real
                && (rs[k].amount as real <= rs[k - 1].amount as real + cfg.flat
                    || rs[k].amount as real <= BidRange.Raised(rs[k - 1].amount, cfg.percent))
    {
      RungOf(cfg, t, rs, k);
    }
    forall k, l | 0 <= k < l < |rs| ensures rs[k].amount < rs[l].amount {
      LadderClimbs(cfg, t, rs, k, l);
    }
  }

  lemma RungOf(cfg: Config, t: Terms, rs: seq<Offer>, k: nat)
    requires Ladder(cfg, t, rs) && k < |rs|
    ensures OnStep(rs[k].amount) && t.start <= rs[k].amount <= t.end && rs[k].bidder != t.owner
    ensures k > 0 ==>
              && rs[k - 1].bidder != rs[k].bidder
              && rs[k - 1].amount as real + cfg.flat <= rs[k].amount as real
              && (rs[k].amount as real <= rs[k - 1].amount as real + cfg.flat
                  || rs[k].amount as real <= BidRange.Raised(rs[k - 1].amount, cfg.percent))
  {
    assert Rung(cfg, t, rs, k);
  }

  /** The base price can be changed until the first bid, but not during a hold;
      the other prices follow it. */
  lemma RepricedUntilFirstBid(cfg: Config, s: Lot, base: Pricing.Rupees, now: Time)
    requires cfg.Valid() && Reachable(cfg, s)
    ensures Reprice(s, base, now) ==
            if s.product.status != AwaitingFirstBid then Rejected(PriceFrozen)
            else Done(s.(clock := now,
                         product := s.product.(base := base, start := Pricing.BiddingStartPrice(base),
                                               instant := Pricing.InstantBuyPrice(base),
                                               end := Pricing.BiddingEndPrice(base))))
  {
    hide Reachable, Inv;
    ReachableInv(cfg, s);
    if s.product.status == AwaitingFirstBid {
      NothingVisible(cfg, s);
    }
  }

  lemma NothingVisible(cfg: Config, s: Lot)
    requires Inv(cfg, s) && s.product.status == AwaitingFirstBid
    ensures !AnyVisible(s.product, s.bids)
  {
    RealsEmpty(Offers(s.bids));
    assert forall i :: 0 <= i < |s.bids| ==> Offers(s.bids)[i] == s.bids[i].offer;
  }

  // ---- The rows

  /** Status, responsible bid, open round and winning bid agree. */
  lemma OneDebtor(cfg: Config, s: Lot) returns (i: nat, j: nat)
    requires cfg.Valid() && Reachable(cfg, s)
    ensures ViewsAgree(s, i, j)
  {
    hide Reachable, Inv;
    ReachableInv(cfg, s);
    i, j := FourViewsAgree(cfg, s);
  }

  /** Sold exactly if one round is settled, and then exactly one, within the prices. */
  lemma OneSale(cfg: Config, s: Lot)
    requires cfg.Valid() && Reachable(cfg, s)
    ensures s.product.status == Settled <==> exists j: nat :: SaleOnce.SettledRound(s, j)
    ensures forall j: nat :: SaleOnce.SettledRound(s, j) ==>
              && (forall i: nat :: SaleOnce.SettledRound(s, i) ==> i == j)
              && s.product.settledAmount == Some(s.rounds[j].ticket.amount)
              && s.product.winningBid == Some(s.rounds[j].ticket.bidId)
              && s.product.base * 100 < s.product.start <= s.rounds[j].ticket.amount <= s.product.end
  {
    hide Reachable, Inv;
    ReachableInv(cfg, s);
    SaleOnce.SoldIffOneRound(cfg, s);
    if s.product.status == Settled {
      SaleOnce.SaleWithinPrices(cfg, s);
    }
  }

  /** The rounds are those of the holds, then the first entries of the
      leaderboard, as far as the win has been passed on. */
  lemma RoundsAreBoard(cfg: Config, s: Lot, lb: seq<nat>)
    requires cfg.Valid() && Reachable(cfg, s) && IsLeaderboard(Offers(s.bids), lb)
    ensures 0 <= Turns(s) && FallbackCascade.FollowsBoard(s, lb, |HoldTickets(Offers(s.bids))|, Turns(s))
  {
    hide Reachable, Inv, IsLeaderboard;
    ReachableInv(cfg, s);
    FallbackCascade.RoundsFollowLeaderboard(cfg, s, lb);
  }

  /** At most three bidders ever get a turn to pay.  When one is overdue the lot
      is abandoned exactly if three have had theirs, or everybody who bid; else
      the turn passes to the next entry of the leaderboard. */
  lemma ThreeTurnsAtMost(cfg: Config, s: Lot, lb: seq<nat>, now: Time)
    requires cfg.Valid() && Reachable(cfg, s) && IsLeaderboard(Offers(s.bids), lb)
    ensures 0 <= Turns(s) <= 3 && Turns(s) <= |FallbackCascade.Bidders(Offers(s.bids))|
    ensures s.product.status == AwaitingPayment ==>
              s.rounds != [] && PaymentExpiry(cfg, s, now).Done?
              && var s' := PaymentExpiry(cfg, s, now).lot;
                 if s.rounds[|s.rounds| - 1].deadline > now then s' == s.(clock := now)
                 else
                   && (s'.product.status == Abandoned <==>
                         Turns(s) == 3 || Turns(s) == |FallbackCascade.Bidders(Offers(s.bids))|)
                   && (s'.product.status != Abandoned ==> FallbackCascade.PassedTo(cfg, s, lb, Turns(s), now, s'))
  {
    hide Reachable, Inv, IsLeaderboard, PaymentExpiry, Turns, FallbackCascade.Bidders, Offers;
    ReachableInv(cfg, s);
    FallbackCascade.RoundsFollowLeaderboard(cfg, s, lb);
    if s.product.status == AwaitingPayment {
      FallbackCascade.OverdueTurn(cfg, s, lb, now);
    }
  }

  // ---- What the public sees

  /** The bids as the public counts them: every visible one is a bid. */
  function PublicOffers(p: Product, bids: seq<Bid>): (os: seq<Offer>)
    ensures |os| == |bids|
    ensures forall i :: 0 <= i < |bids| ==> os[i] == bids[i].offer.(instant := !Visible(p, bids[i]))
  {
    seq(|bids|, i requires 0 <= i < |bids| => bids[i].offer.(instant := !Visible(p, bids[i])))
  }

  const BOARD_ROWS: nat := 5

  /** The rows of the public query: the best visible bid of every bidder, largest
      first, up to five. */
  ghost predicate IsPublicBoard(s: Lot, rows: seq<nat>) {
    exists lb :: IsLeaderboard(PublicOffers(s.product, s.bids), lb) && rows == TopRows(lb)
  }

  function TopRows(lb: seq<nat>): seq<nat> {
    if |lb| <= BOARD_ROWS then lb else lb[..BOARD_ROWS]
  }

  /** An Instant Buy has bought the lot. */
  predicate HoldBought(s: Lot) {
    && s.product.status == Settled
    && exists i :: 0 <= i < |s.bids| && s.bids[i].offer.instant && Visible(s.product, s.bids[i])
  }

  function PublicBoard(s: Lot): seq<nat> {
    TopRows(Ranking(PublicOffers(s.product, s.bids)))
  }

  /** The public query has exactly one answer.  It is headed by the cached leader
      at the cached amount and empty without one; and unless an Instant Buy
      bought the lot, it is the ranking by which the win is passed on. */
  lemma PublicLeaderboard(cfg: Config, s: Lot, rows: seq<nat>)
    requires cfg.Valid() && Reachable(cfg, s)
    ensures IsPublicBoard(s, rows) <==> rows == PublicBoard(s)
    ensures var all := Ranking(PublicOffers(s.product, s.bids));
            PublicBoard(s) == if |all| <= 5 then all else all[..5]
    ensures var board := PublicBoard(s);
            if board == [] then s.product.highest == None && s.product.leader == None
            else board[0] < |s.bids| && s.product.highest == Some(s.bids[board[0]].offer.amount)
                 && s.product.leader == Some(s.bids[board[0]].offer.bidder)
    ensures !HoldBought(s) ==> PublicBoard(s) == TopRows(Ranking(Offers(s.bids)))
  {
    hide Reachable, Inv, HoldBought, PublicOffers, Offers, Rising, IsPublicBoard;
    ReachableInv(cfg, s);
    var ps := PublicOffers(s.product, s.bids);
    var at := PublicRows(cfg, s, ps);
    OnlyBoard(s, ps, rows);
    HeadOfBoard(ps, at);
  }

  /** The visible offers rise, and the last real one of them is the cached leader's. */
  lemma PublicRows(cfg: Config, s: Lot, ps: seq<Offer>) returns (at: int)
    requires cfg.Valid() && Inv(cfg, s) && ps == PublicOffers(s.product, s.bids)
    ensures Rising(ps) && -1 <= at < |ps| == |s.bids| && (forall j :: at < j < |ps| ==> ps[j].instant)
    ensures if at < 0 then s.product.highest == None && s.product.leader == None
            else !ps[at].instant && s.product.highest == Some(s.bids[at].offer.amount)
                 && s.product.leader == Some(s.bids[at].offer.bidder)
    ensures !HoldBought(s) ==> ps == Offers(s.bids)
  {
    var os := Offers(s.bids);
    InvRising(cfg, TermsOf(s.product), os, Reals(os));
    hide InvAt, HoldBought, Rising, Visible;
    at := PublicAt(cfg, s, os, Reals(os), Ranking(os), Turns(s), ps);
  }

  lemma OnlyBoard(s: Lot, ps: seq<Offer>, rows: seq<nat>)
    requires ps == PublicOffers(s.product, s.bids) && Rising(ps)
    ensures IsPublicBoard(s, rows) <==> rows == TopRows(Ranking(ps))
  {
    hide Rising;
    RankingIsLeaderboard(ps);
    if lb :| IsLeaderboard(ps, lb) && rows == TopRows(lb) {
      LeaderboardUnique(ps, lb, Ranking(ps));
    }
  }

  /** No visible bid is above the one at `at`, which comes last of them. */
  lemma HeadOfBoard(ps: seq<Offer>, at: int)
    requires Rising(ps) && -1 <= at < |ps| && (at >= 0 ==> !ps[at].instant)
    requires forall j :: at < j < |ps| ==> ps[j].instant
    ensures if at < 0 then Ranking(ps) == [] else Ranking(ps) != [] && Ranking(ps)[0] == at
  {
    LeadersValid(ps, {});
    assert Ranking(ps) != [] ==> !ps[Ranking(ps)[0]].instant;
    if at >= 0 {
      var k := LeaderOf(ps, {}, at);
    }
  }

  /** The visible bids rise, and the last of them is what the cache holds. */
  lemma PublicAt(cfg: Config, s: Lot, os: seq<Offer>, rs: seq<Offer>, ls: seq<nat>, k: int, ps: seq<Offer>)
    returns (at: int)
    requires cfg.Valid() && InvAt(cfg, s, os, rs, ls, k) && os == Offers(s.bids) && rs == Reals(os) && ls == Ranking(os)
    requires Rising(os) && ps == PublicOffers(s.product, s.bids)
    requires if rs == [] then forall i :: 0 <= i < |os| ==> os[i].instant else RealsUpTo(os, rs[|rs| - 1].amount)
    ensures Rising(ps) && -1 <= at < |ps| && (forall j :: at < j < |ps| ==> ps[j].instant)
    ensures if at < 0 then s.product.highest == None && s.product.leader == None
            else !ps[at].instant && s.product.highest == Some(ps[at].amount) && s.product.leader == Some(ps[at].bidder)
    ensures !HoldBought(s) ==> ps == os
  {
    hide Ladder, Fresh, RoundsFollow, DeadlinesRise, PaymentRows;
    forall j | 0 <= j < |s.bids| && s.bids[j].offer.instant && Visible(s.product, s.bids[j])
      ensures BoughtInstantly(s.product, k) && j == |s.bids| - 1
    {
      VisibleHold(s, os, rs, ls, k, j);
    }
    at := -1;
    if BoughtInstantly(s.product, k) {
      at := |s.bids| - 1;
    } else if rs != [] {
      WinnerExists(cfg, s, os, rs, ls);
      LastReal(os, ls);
      at := ls[0];
    }
    hide Stage;
    forall i | 0 <= i < |os| && os[i].instant
      ensures ps[i] == os[i] || (BoughtInstantly(s.product, k) && i == |os| - 1)
    {
    }
  }

  /** After the first in the ranking nobody bid. */
  lemma LastReal(os: seq<Offer>, ls: seq<nat>)
    requires ls == Ranking(os) && ls != []
    ensures forall j :: ls[0] < j < |os| ==> os[j].instant
  {
    LeadersValid(os, {});
    forall j | ls[0] < j < |os| ensures os[j].instant {
      if !os[j].instant {
        var k := LeaderOf(os, {}, j);
      }
    }
  }

  /** The cached leader is the largest visible bid, and an Instant Buy bid is
      visible only once it has settled the lot. */
  lemma CacheIsPublic(cfg: Config, s: Lot) returns (i: nat)
    requires cfg.Valid() && Reachable(cfg, s)
    ensures CacheAgrees(s, i) && HoldsUnseen(s)
  {
    hide Reachable, Inv;
    ReachableInv(cfg, s);
    i := CachedLeader(cfg, s);
  }
}
