/** The offers made on a lot, oldest first: the ladder the real ones climb, the
    ranking of the bidders, and the settlement rounds they lead to.

    Everything here depends only on the columns of a bid that no step rewrites.
 */
module Leaderboard {
  import opened Money
  import opened AuctionRows

  /** The offers made in the auction itself, leaving out Instant Buy holds. */
  function Reals(os: seq<Offer>): seq<Offer> {
    if os == [] then []
    else
      var rest, last := Reals(os[..|os| - 1]), os[|os| - 1];
      if last.instant then rest else rest + [last]
  }

  /** The ticket of every Instant Buy hold, oldest first. */
  function HoldTickets(os: seq<Offer>): (ts: seq<Ticket>)
    ensures |ts| + |Reals(os)| == |os|
  {
    if os == [] then []
    else
      var rest, last := HoldTickets(os[..|os| - 1]), os[|os| - 1];
      if last.instant then rest + [Ticket(last.id, last.bidder, last.amount, 0)] else rest
  }

  /** Scans from the newest offer back and keeps the first real one met of every
      bidder outside `seen`. */
  function Leaders(os: seq<Offer>, seen: set<UserId>): seq<nat> {
    if os == [] then []
    else
      var n := |os| - 1;
      if os[n].instant || os[n].bidder in seen then Leaders(os[..n], seen)
      else [n] + Leaders(os[..n], seen + {os[n].bidder})
  }

  function Ranking(os: seq<Offer>): seq<nat> {
    Leaders(os, {})
  }

  /** The tickets of the ranked bidders, from the winner down. */
  function LeaderTickets(os: seq<Offer>): (ts: seq<Ticket>) {
    LeadersValid(os, {});
    var ls := Ranking(os);
    seq(|ls|, j requires 0 <= j < |ls| =>
      Ticket(os[ls[j]].id, os[ls[j]].bidder, os[ls[j]].amount, j))
  }

  /** Entries of the scan are real offers of different unseen bidders, newest first. */
  ghost predicate Standings(os: seq<Offer>, seen: set<UserId>, ls: seq<nat>) {
    && (forall k :: 0 <= k < |ls| ==> ls[k] < |os| && !os[ls[k]].instant && os[ls[k]].bidder !in seen)
    && (forall k, l :: 0 <= k < l < |ls| ==> ls[l] < ls[k])
    && (forall k, l :: 0 <= k < l < |ls| ==> os[ls[k]].bidder != os[ls[l]].bidder)
  }

  lemma {:induction false} LeadersValid(os: seq<Offer>, seen: set<UserId>)
    ensures Standings(os, seen, Leaders(os, seen))
  {
    if os != [] {
      var n := |os| - 1;
      var prefix := os[..n];
      if os[n].instant || os[n].bidder in seen {
        LeadersValid(prefix, seen);
        StandingsExtend(os, seen, Leaders(prefix, seen));
      } else {
        var seen' := seen + {os[n].bidder};
        LeadersValid(prefix, seen');
        StandingsPush(os, seen, Leaders(prefix, seen'));
      }
    }
  }

  lemma StandingsExtend(os: seq<Offer>, seen: set<UserId>, ls: seq<nat>)
    requires os != [] && Standings(os[..|os| - 1], seen, ls)
    ensures Standings(os, seen, ls)
    ensures forall k :: 0 <= k < |ls| ==> ls[k] < |os| - 1
  {
    var prefix := os[..|os| - 1];
    forall k | 0 <= k < |ls| ensures ls[k] < |prefix| && prefix[ls[k]] == os[ls[k]] {}
  }

  lemma StandingsPush(os: seq<Offer>, seen: set<UserId>, ls: seq<nat>)
    requires os != [] && !os[|os| - 1].instant && os[|os| - 1].bidder !in seen
    requires Standings(os[..|os| - 1], seen + {os[|os| - 1].bidder}, ls)
    ensures Standings(os, seen, [|os| - 1] + ls)
  {
    StandingsExtend(os, seen + {os[|os| - 1].bidder}, ls);
    var ls' := [|os| - 1] + ls;
    forall k | 0 < k < |ls'|
      ensures ls'[k] < |os| - 1 && !os[ls'[k]].instant && os[ls'[k]].bidder !in seen + {os[|os| - 1].bidder}
    {
      assert ls'[k] == ls[k - 1];
    }
    forall k, l | 0 < k < l < |ls'| ensures ls'[l] < ls'[k] && os[ls'[k]].bidder != os[ls'[l]].bidder {
      assert ls'[k] == ls[k - 1] && ls'[l] == ls[l - 1];
    }
  }

  /** The scan finds every unseen bidder, at an offer no older than any given one. */
  lemma {:induction false} LeaderOf(os: seq<Offer>, seen: set<UserId>, i: nat) returns (k: nat)
    requires i < |os| && !os[i].instant && os[i].bidder !in seen
    ensures var ls := Leaders(os, seen);
            k < |ls| && i <= ls[k] < |os| && os[ls[k]].bidder == os[i].bidder
  {
    var n := |os| - 1;
    if os[n].instant || os[n].bidder in seen {
      k := LeaderOf(os[..n], seen, i);
    } else if os[n].bidder == os[i].bidder {
      k := 0;
    } else {
      k := LeaderOf(os[..n], seen + {os[n].bidder}, i);
      k := k + 1;
    }
  }

  /** Real amounts rise with time. */
  ghost predicate Rising(os: seq<Offer>) {
    forall i, j :: 0 <= i < j < |os| && !os[i].instant && !os[j].instant ==> os[i].amount < os[j].amount
  }

  // ---- The leaderboard as a query: best offer of every bidder, best bidder first.

  /** `os[i]` is its bidder's best real offer. */
  ghost predicate IsBest(os: seq<Offer>, i: nat) {
    && i < |os| && !os[i].instant
    && forall j :: 0 <= j < |os| && !os[j].instant && os[j].bidder == os[i].bidder ==> os[j].amount <= os[i].amount
  }

  ghost predicate OnBoard(os: seq<Offer>, lb: seq<nat>, user: UserId) {
    exists k :: 0 <= k < |lb| && lb[k] < |os| && os[lb[k]].bidder == user
  }

  /** Grouped by bidder with the maximum amount, ordered by it, largest first. */
  ghost predicate IsLeaderboard(os: seq<Offer>, lb: seq<nat>) {
    && (forall k :: 0 <= k < |lb| ==> IsBest(os, lb[k]))
    && (forall k, l :: 0 <= k < l < |lb| ==> os[lb[l]].amount < os[lb[k]].amount)
    && (forall j :: 0 <= j < |os| && !os[j].instant ==> OnBoard(os, lb, os[j].bidder))
  }

  /** The scan is a leaderboard. */
  lemma RankingIsLeaderboard(os: seq<Offer>)
    requires Rising(os)
    ensures IsLeaderboard(os, Ranking(os))
  {
    var ls := Ranking(os);
    LeadersValid(os, {});
    forall k | 0 <= k < |ls| ensures IsBest(os, ls[k]) {
      forall j | 0 <= j < |os| && !os[j].instant && os[j].bidder == os[ls[k]].bidder
        ensures os[j].amount <= os[ls[k]].amount
      {
        var k' := LeaderOf(os, {}, j);
        assert k' == k;
      }
    }
    forall j | 0 <= j < |os| && !os[j].instant ensures OnBoard(os, ls, os[j].bidder) {
      var k := LeaderOf(os, {}, j);
    }
  }

  /** There is only one leaderboard, so the ranking is the one the query returns. */
  lemma {:induction false} LeaderboardUnique(os: seq<Offer>, lb: seq<nat>, lb': seq<nat>)
    requires Rising(os) && IsLeaderboard(os, lb) && IsLeaderboard(os, lb')
    ensures lb == lb'
  {
    SameHeads(os, lb, lb', |lb|);
    SameHeads(os, lb', lb, |lb'|);
  }

  lemma {:induction false} SameHeads(os: seq<Offer>, lb: seq<nat>, lb': seq<nat>, n: nat)
    requires Rising(os) && IsLeaderboard(os, lb) && IsLeaderboard(os, lb') && n <= |lb|
    ensures n <= |lb'| && lb[..n] == lb'[..n]
  {
    if n > 0 {
      var m := n - 1;
      SameHeads(os, lb, lb', m);
      var k := Standing(os, lb, lb', m);
      var l := Standing(os, lb', lb, m);
      assert lb[m] == lb'[m];
    }
  }

  lemma OneBest(os: seq<Offer>, i: nat, j: nat)
    requires Rising(os) && IsBest(os, i) && IsBest(os, j) && os[i].bidder == os[j].bidder
    ensures i == j
  {
  }

  /** An entry of one leaderboard stands in any other, no higher than the common part. */
  lemma Standing(os: seq<Offer>, lb: seq<nat>, lb': seq<nat>, m: nat) returns (k: nat)
    requires Rising(os) && IsLeaderboard(os, lb) && IsLeaderboard(os, lb')
    requires m <= |lb'| && m <= |lb| && lb[..m] == lb'[..m] && m < |lb|
    ensures m <= k < |lb'| && lb'[k] == lb[m]
  {
    hide Rising;
    assert IsBest(os, lb[m]);
    assert OnBoard(os, lb', os[lb[m]].bidder);
    k :| 0 <= k < |lb'| && lb'[k] < |os| && os[lb'[k]].bidder == os[lb[m]].bidder;
    assert forall l :: 0 <= l < m ==> lb[..m][l] == lb[l] && lb'[..m][l] == lb'[l];
    OneBest(os, lb[m], lb'[k]);
    if k < m {
      assert false;
    }
  }

  // ---- How the projections grow.

  lemma ProjectionsAppend(os: seq<Offer>, o: Offer)
    ensures Reals(os + [o]) == if o.instant then Reals(os) else Reals(os) + [o]
    ensures HoldTickets(os + [o]) ==
            if o.instant then HoldTickets(os) + [Ticket(o.id, o.bidder, o.amount, 0)] else HoldTickets(os)
  {
    assert (os + [o])[..|os|] == os;
  }

  lemma {:induction false} RealsEmpty(os: seq<Offer>)
    ensures Reals(os) == [] <==> forall i :: 0 <= i < |os| ==> os[i].instant
  {
    if os != [] {
      var n := |os| - 1;
      RealsEmpty(os[..n]);
      assert forall i :: 0 <= i < n ==> os[..n][i] == os[i];
    }
  }

  /** Amounts rise along the sequence. */
  ghost predicate Climbing(rs: seq<Offer>) {
    forall k :: 0 < k < |rs| ==> rs[k - 1].amount < rs[k].amount
  }

  /** No real offer exceeds `top`. */
  ghost predicate RealsUpTo(os: seq<Offer>, top: Paisa) {
    forall i :: 0 <= i < |os| && !os[i].instant ==> os[i].amount <= top
  }

  /** Real offers that rise, seen as one sequence, rise as part of the whole
      too, and the last of them is the largest. */
  lemma {:induction false} RisingFromReals(os: seq<Offer>, rs: seq<Offer>)
    requires rs == Reals(os) && Climbing(rs)
    ensures Rising(os)
    ensures if rs == [] then forall i :: 0 <= i < |os| ==> os[i].instant
            else RealsUpTo(os, rs[|rs| - 1].amount)
  {
    if os != [] {
      var n := |os| - 1;
      var prefix, last := os[..n], os[n];
      var before := Reals(prefix);
      assert os == prefix + [last];
      RealsGrow(prefix, last, rs);
      RisingFromReals(prefix, before);
      RisingPush(prefix, before, last);
    }
  }

  lemma RealsGrow(os: seq<Offer>, o: Offer, rs: seq<Offer>)
    requires rs == Reals(os + [o]) && Climbing(rs)
    ensures rs == if o.instant then Reals(os) else Reals(os) + [o]
    ensures Climbing(Reals(os))
    ensures Reals(os) != [] && !o.instant ==> Reals(os)[|Reals(os)| - 1].amount < o.amount
  {
    ProjectionsAppend(os, o);
    if !o.instant {
      ClimbingPrefix(Reals(os), o);
    }
  }

  lemma ClimbingPrefix(rs: seq<Offer>, o: Offer)
    requires Climbing(rs + [o])
    ensures Climbing(rs)
    ensures rs != [] ==> rs[|rs| - 1].amount < o.amount
  {
    var rs' := rs + [o];
    if rs != [] {
      var k := |rs|;
      assert rs'[k] == o && rs'[k - 1] == rs[k - 1];
    }
    forall k | 0 < k < |rs| ensures rs[k - 1].amount < rs[k].amount {
      assert rs'[k - 1] == rs[k - 1] && rs'[k] == rs[k];
    }
  }

  lemma RisingPush(os: seq<Offer>, rs: seq<Offer>, o: Offer)
    requires Rising(os)
    requires if rs == [] then forall i :: 0 <= i < |os| ==> os[i].instant
             else RealsUpTo(os, rs[|rs| - 1].amount) && (!o.instant ==> rs[|rs| - 1].amount < o.amount)
    ensures Rising(os + [o])
    ensures var rs' := if o.instant then rs else rs + [o];
            if rs' == [] then forall i :: 0 <= i < |os + [o]| ==> (os + [o])[i].instant
            else RealsUpTo(os + [o], rs'[|rs'| - 1].amount)
  {
  }

  /** The best ranked bidder is the one who bid last. */
  lemma {:induction false} WinnerBidLast(os: seq<Offer>, seen: set<UserId>)
    requires Reals(os) != [] && Reals(os)[|Reals(os)| - 1].bidder !in seen
    ensures Leaders(os, seen) != [] && Leaders(os, seen)[0] < |os|
    ensures os[Leaders(os, seen)[0]] == Reals(os)[|Reals(os)| - 1]
  {
    var n := |os| - 1;
    if os[n].instant {
      WinnerBidLast(os[..n], seen);
    }
  }

  /** No real offer, no ranking. */
  lemma {:induction false} EmptyRanking(os: seq<Offer>, seen: set<UserId>)
    requires Reals(os) == []
    ensures Leaders(os, seen) == []
  {
    if os != [] {
      EmptyRanking(os[..|os| - 1], seen);
    }
  }
}
