/** When an auction ends.  An active lot closes exactly at the ceiling or once it
    has been open for bids, from the first one on, for the bidding time; the time
    it was on hold does not count. */
module BiddingTime {
  import opened AuctionRows
  import opened AuctionQueries
  import opened AuctionSteps
  import opened Leaderboard
  import opened AuctionInvariant
  import opened BiddingProofs
  import opened HoldProofs
  import opened CascadeProofs
  import opened AuctionRuns
  import opened WhoOwes
  import opened BidLadder
  import HoldTransparency
  import Pricing

  // ---- One transaction

  /** An active lot closes if and only if its time is up or its ceiling reached;
      otherwise nothing happens to it. */
  lemma ClosesIff(cfg: Config, s: Lot, now: Time)
    requires cfg.Valid() && Inv(cfg, s) && s.product.status == Active
    ensures s.product.endsAt.Some? && s.product.highest.Some? && CloseIfExpired(cfg, s, now).Done?
    ensures var p, s' := s.product, CloseIfExpired(cfg, s, now).lot;
            if p.endsAt.value <= now || p.highest.value >= p.end
            then s'.product.status == AwaitingPayment && s'.product.closedAt == Some(now)
            else s' == s.(clock := now)
  {
    ActiveRow(cfg, s);
    hide Inv;
    if ShouldClose(s.product, now) {
      var i := DueLotCloses(cfg, s, now);
      hide CloseIfExpired;
    }
  }

  lemma ActiveRow(cfg: Config, s: Lot)
    requires Inv(cfg, s) && s.product.status == Active
    ensures s.product.endsAt.Some? && s.product.highest.Some? && RealBids(s) != []
    ensures s.product.highest == Some(RealBids(s)[|RealBids(s)| - 1].amount)
  {
  }

  // ---- The clock over a run

  predicate Bidding(s: Lot) {
    s.product.status == Active || s.product.status == AwaitingInstantBuy
  }

  /** How long the lot has been on the hold it is on. */
  function HeldNow(s: Lot): int {
    if s.product.status == AwaitingInstantBuy && s.bids != [] then s.clock - s.bids[|s.bids| - 1].offer.placedAt else 0
  }

  /** With `held` the time on hold so far, bidding ends that much later than the
      bidding time after the first bid. */
  ghost predicate Clocked(cfg: Config, s: Lot, held: int) {
    var rs := RealBids(s);
    if rs == [] then held == 0
    else Bidding(s) ==> s.product.endsAt == Some(rs[0].placedAt + cfg.biddingMs + held - HeldNow(s))
  }

  /** The time the transaction lets pass on hold, once there is a bid. */
  ghost function HeldBy(s: Lot, s': Lot): int {
    if RealBids(s) != [] && s.product.status == AwaitingInstantBuy then s'.clock - s.clock else 0
  }

  ghost function HeldIn(run: seq<Lot>, n: nat): int
    requires n < |run|
  {
    if n == 0 then 0 else HeldIn(run, n - 1) + HeldBy(run[n - 1], run[n])
  }

  /** The hold in force has ended, and bidding goes on as far as there was any. */
  predicate GoesOn(s: Lot, s': Lot, now: Time) {
    s.bids != [] && s'.product == Reopened(s.product, s'.bids, s.bids[|s.bids| - 1].offer.placedAt, now)
  }

  predicate StaysHeld(s: Lot, s': Lot) {
    s'.product == s.product && s'.bids == s.bids
  }

  /** A transaction on a lot on hold leaves it so, buys it, or lets bidding go on. */
  lemma HeldMoves(cfg: Config, s: Lot, e: Event, s': Lot)
    requires Inv(cfg, s) && StepTo(cfg, s, e, s') && s.product.status == AwaitingInstantBuy
    ensures s.bids != [] && s'.clock == s.clock + e.elapsed
    ensures s'.product.status == Settled || StaysHeld(s, s') || GoesOn(s, s', s.clock + e.elapsed)
  {
    hide Inv, StepTo, GoesOn;
    HoldTransparency.NewestPending(cfg, s);
    match e.step
    case StepReleaseHold(expected) => ReleaseMovesHold(cfg, s, e, s');
    case StepPaymentExpiry => ExpiryMovesHold(cfg, s, e, s');
    case StepRefuseCod(_, _) => RefusalMovesNothing(cfg, s, e, s');
    case _ => OthersMoveHold(cfg, s, e, s');
  }

  lemma ReleaseMovesHold(cfg: Config, s: Lot, e: Event, s': Lot)
    requires Inv(cfg, s) && StepTo(cfg, s, e, s') && s.product.status == AwaitingInstantBuy && e.step.StepReleaseHold?
    ensures s'.clock == s.clock + e.elapsed
    ensures StaysHeld(s, s') || GoesOn(s, s', s.clock + e.elapsed)
  {
    hide Inv, Stage, RoundsFollow, Fresh, Offers, Ranking, ReleaseHold, RoundPaidFor, Reopened;
    HoldTransparency.HoldFacts(cfg, s);
    ReleaseCases(s, e.step.expected, s.clock + e.elapsed, Offers(s.bids), Ranking(Offers(s.bids)));
  }

  lemma ExpiryMovesHold(cfg: Config, s: Lot, e: Event, s': Lot)
    requires Inv(cfg, s) && StepTo(cfg, s, e, s') && s.product.status == AwaitingInstantBuy && e.step.StepPaymentExpiry?
    ensures s'.clock == s.clock + e.elapsed
    ensures StaysHeld(s, s') || GoesOn(s, s', s.clock + e.elapsed)
  {
    hide Inv, Stage, RoundsFollow, Fresh, Offers, Ranking, PaymentExpiry, Reopened;
    HoldTransparency.HoldFacts(cfg, s);
    HoldExpires(cfg, s, s.clock + e.elapsed, Offers(s.bids), Ranking(Offers(s.bids)));
  }

  lemma RefusalMovesNothing(cfg: Config, s: Lot, e: Event, s': Lot)
    requires Inv(cfg, s) && StepTo(cfg, s, e, s') && s.product.status == AwaitingInstantBuy && e.step.StepRefuseCod?
    ensures StaysHeld(s, s') && s'.clock == s.clock + e.elapsed
  {
    hide Inv, RefuseCod;
    HoldTransparency.RefusalOnHold(cfg, s, e.step.payment, e.step.parcel, s.clock + e.elapsed);
  }

  lemma OthersMoveHold(cfg: Config, s: Lot, e: Event, s': Lot)
    requires StepTo(cfg, s, e, s') && s.product.status == AwaitingInstantBuy
    requires !e.step.StepReleaseHold? && !e.step.StepPaymentExpiry? && !e.step.StepRefuseCod?
    ensures s'.clock == s.clock + e.elapsed
    ensures s'.product.status == Settled || StaysHeld(s, s')
  {
    hide Responsible, RoundOf, PaymentById, Top;
  }

  lemma HeldClocked(cfg: Config, s: Lot, e: Event, s': Lot, held: int)
    requires Inv(cfg, s) && StepTo(cfg, s, e, s') && s.product.status == AwaitingInstantBuy && Clocked(cfg, s, held)
    ensures Clocked(cfg, s', held + HeldBy(s, s'))
  {
    hide Inv, StepTo, RealBids, Top;
    HeldMoves(cfg, s, e, s');
    LadderGrows(cfg, s, e, s');
    if RealBids(s) != [] && GoesOn(s, s', s.clock + e.elapsed) {
      GoesOnActive(s, s', s.clock + e.elapsed);
    }
  }

  lemma GoesOnActive(s: Lot, s': Lot, now: Time)
    requires GoesOn(s, s', now) && RealBids(s') != []
    ensures s'.product.status == Active
  {
    ReopenedStatus(s.product, s'.bids, s.bids[|s.bids| - 1].offer.placedAt, now);
  }

  /** The bids placed in the auction only grow, and only by a bid. */
  lemma LadderGrows(cfg: Config, s: Lot, e: Event, s': Lot)
    requires Inv(cfg, s) && StepTo(cfg, s, e, s')
    ensures RealBids(s) <= RealBids(s') && (RealBids(s') == RealBids(s) || e.step.StepPlaceBid?)
    ensures s.product.status == AwaitingInstantBuy ==> RealBids(s') == RealBids(s)
  {
    hide Inv, StepTo, RealBids;
    StepLadder(cfg, s, e, s');
  }

  // ---- Outside a hold

  lemma BidClocked(cfg: Config, s: Lot, e: Event, s': Lot, held: int)
    requires Inv(cfg, s) && StepTo(cfg, s, e, s') && s.product.status != AwaitingInstantBuy && Clocked(cfg, s, held)
    requires Accepted(cfg, s, e)
    ensures Clocked(cfg, s', held)
  {
    hide Inv, RealBids, HasBidBy;
    OpenCache(cfg, s);
    StepLadder(cfg, s, e, s');
    BidStands(cfg, s, e.step.user, e.step.amount, e.step.openElsewhere, s.clock + e.elapsed, s');
    hide StepTo;
  }

  /** Neither bid nor hold: a lot not on hold keeps its clock, or does not take bids. */
  ghost predicate ClockStays(s: Lot, s': Lot) {
    Bidding(s') ==> s'.product.status == s.product.status == Active && s'.product.endsAt == s.product.endsAt
  }

  lemma ExpiryStays(cfg: Config, s: Lot, now: Time)
    requires cfg.Valid() && Inv(cfg, s) && s.product.status != AwaitingInstantBuy
    ensures PaymentExpiry(cfg, s, now).Done? && ClockStays(s, PaymentExpiry(cfg, s, now).lot)
  {
    hide PaymentExpiry;
    var os, ls, k := Offers(s.bids), Ranking(Offers(s.bids)), Turns(s);
    if TurnOverdue(s, now) {
      ExpiryFollowsRanking(cfg, s, now, os, Reals(os), ls, k);
      hide Inv;
    } else {
      NothingOverdue(cfg, s, now, os, ls, k);
      hide Inv;
    }
  }

  lemma OthersStay(cfg: Config, s: Lot, step: Step, now: Time)
    requires s.product.status != AwaitingInstantBuy
    requires !step.StepPlaceBid? && !step.StepStartHold? && !step.StepPaymentExpiry?
    ensures ClockStays(s, After(s, Perform(cfg, s, step, now), now))
  {
    hide Responsible, RoundOf, PaymentById, RoundById, BidById, Top;
  }

  lemma HoldStays(cfg: Config, s: Lot, buyer: UserId, now: Time, s': Lot)
    requires Inv(cfg, s) && StartHold(cfg, s, buyer, now) == Done(s') && RealBids(s) != []
    ensures s.product.status == Active && s'.product.endsAt == s.product.endsAt && HeldNow(s') == 0
  {
    HoldTransparency.HoldOpens(cfg, s, buyer, now, s');
    OpenCache(cfg, s);
    hide Inv, RealBids, AttemptSpent, Responsible;
  }

  lemma HoldClocked(cfg: Config, s: Lot, e: Event, s': Lot, held: int)
    requires Inv(cfg, s) && StepTo(cfg, s, e, s') && s.product.status != AwaitingInstantBuy && Clocked(cfg, s, held)
    requires e.step.StepStartHold? && RealBids(s') == RealBids(s)
    ensures Clocked(cfg, s', held)
  {
    hide Inv, RealBids, StartHold;
    if StartHold(cfg, s, e.step.buyer, s.clock + e.elapsed).Done? && RealBids(s) != [] {
      HoldStays(cfg, s, e.step.buyer, s.clock + e.elapsed, s');
    }
  }

  lemma OthersClocked(cfg: Config, s: Lot, e: Event, s': Lot, held: int)
    requires Inv(cfg, s) && StepTo(cfg, s, e, s') && s.product.status != AwaitingInstantBuy && Clocked(cfg, s, held)
    requires cfg.Valid() && !e.step.StepStartHold? && !e.step.StepPlaceBid? && RealBids(s') == RealBids(s)
    ensures Clocked(cfg, s', held)
  {
    hide Inv, RealBids, Perform;
    if e.step.StepPaymentExpiry? {
      ExpiryPerformed(cfg, s, s.clock + e.elapsed);
      ExpiryStays(cfg, s, s.clock + e.elapsed);
    } else {
      OthersStay(cfg, s, e.step, s.clock + e.elapsed);
    }
  }

  lemma ExpiryPerformed(cfg: Config, s: Lot, now: Time)
    ensures Perform(cfg, s, StepPaymentExpiry, now) == PaymentExpiry(cfg, s, now)
  {
  }

  /** A bid that is rejected changes nothing but the time. */
  lemma RejectedClocked(cfg: Config, s: Lot, e: Event, s': Lot, held: int)
    requires StepTo(cfg, s, e, s') && s.product.status != AwaitingInstantBuy && Clocked(cfg, s, held)
    requires e.step.StepPlaceBid? && !Accepted(cfg, s, e)
    ensures Clocked(cfg, s', held)
  {
    hide PlaceBid, RealBids;
    assert RealBids(s') == RealBids(s) by {
      SameOffers(s.bids, s'.bids);
      SameRealBids(s, s');
    }
  }

  lemma SameRealBids(s: Lot, s': Lot)
    requires s'.bids == s.bids
    ensures RealBids(s') == RealBids(s)
  {
  }

  lemma StepClocked(cfg: Config, s: Lot, e: Event, s': Lot, held: int)
    requires cfg.Valid() && Inv(cfg, s) && StepTo(cfg, s, e, s') && Clocked(cfg, s, held)
    ensures Clocked(cfg, s', held + HeldBy(s, s'))
  {
    hide Inv, StepTo, RealBids, Clocked, Accepted;
    LadderGrows(cfg, s, e, s');
    if s.product.status == AwaitingInstantBuy {
      HeldClocked(cfg, s, e, s', held);
    } else if e.step.StepStartHold? {
      HoldClocked(cfg, s, e, s', held);
    } else if !e.step.StepPlaceBid? {
      OthersClocked(cfg, s, e, s', held);
    } else if Accepted(cfg, s, e) {
      BidClocked(cfg, s, e, s', held);
    } else {
      RejectedClocked(cfg, s, e, s', held);
    }
  }

  // ---- Over a run

  /** From the listing on, bidding ends the bidding time after the first bid,
      later by all the time the lot has been on hold since. */
  lemma {:induction false} RunIsClocked(cfg: Config, run: seq<Lot>, es: seq<Event>, n: nat)
    requires cfg.Valid() && IsRun(cfg, run, es) && StartsListed(run) && n < |run|
    ensures Inv(cfg, run[n]) && Clocked(cfg, run[n], HeldIn(run, n))
  {
    hide Inv, StepTo, RealBids, Clocked;
    var owner: UserId, base, since: Time :| run[0] == Listed(owner, base, since);
    ListedInv(cfg, owner, base, since);
    RunKeepsInv(cfg, run, es, n);
    if n == 0 {
      ListedClocked(cfg, owner, base, since);
    } else {
      RunIsClocked(cfg, run, es, n - 1);
      assert Moves(cfg, run, es, n - 1);
      StepClocked(cfg, run[n - 1], es[n - 1], run[n], HeldIn(run, n - 1));
    }
  }

  lemma ListedClocked(cfg: Config, owner: UserId, base: Pricing.Rupees, since: Time)
    ensures Clocked(cfg, Listed(owner, base, since), 0)
  {
    NothingBid(owner, base, since);
  }

  /** Without a hold there is no time on hold. */
  lemma {:induction false} NeverHeld(run: seq<Lot>, n: nat)
    requires n < |run| && forall i :: 0 <= i < n ==> run[i].product.status != AwaitingInstantBuy
    ensures HeldIn(run, n) == 0
  {
    if n > 0 {
      NeverHeld(run, n - 1);
    }
  }

  /** The bidding time has passed since the first bid, time on hold not counted,
      or the ceiling is reached. */
  ghost predicate TimeIsUp(cfg: Config, run: seq<Lot>, n: nat, now: Time) {
    && n < |run| && RealBids(run[n]) != []
    && var rs := RealBids(run[n]);
       rs[0].placedAt + cfg.biddingMs + HeldIn(run, n) <= now || rs[|rs| - 1].amount >= run[n].product.end
  }

  /** Until then closing an active lot of the run does nothing; from then on it
      closes it. */
  lemma AuctionEnds(cfg: Config, run: seq<Lot>, es: seq<Event>, n: nat, now: Time)
    requires cfg.Valid() && IsRun(cfg, run, es) && StartsListed(run) && n < |run| && run[n].product.status == Active
    ensures RealBids(run[n]) != [] && CloseIfExpired(cfg, run[n], now).Done?
    ensures var s' := CloseIfExpired(cfg, run[n], now).lot;
            if TimeIsUp(cfg, run, n, now)
            then s'.product.status == AwaitingPayment && s'.product.closedAt == Some(now)
            else s' == run[n].(clock := now)
    ensures (forall i :: 0 <= i < n ==> run[i].product.status != AwaitingInstantBuy) ==> HeldIn(run, n) == 0
  {
    hide Inv, StepTo, RealBids, CloseIfExpired, HeldIn;
    RunIsClocked(cfg, run, es, n);
    ActiveRow(cfg, run[n]);
    ClosesIff(cfg, run[n], now);
    if forall i :: 0 <= i < n ==> run[i].product.status != AwaitingInstantBuy {
      NeverHeld(run, n);
    }
  }

  /** Nothing else ends bidding: until it is closed in due time an active lot of
      the run stays active, save for a hold. */
  lemma BiddingLasts(cfg: Config, run: seq<Lot>, es: seq<Event>, n: nat)
    requires cfg.Valid() && IsRun(cfg, run, es) && StartsListed(run) && n < |es| && run[n].product.status == Active
    ensures run[n + 1].product.status ==
            var now := run[n].clock + es[n].elapsed;
            match es[n].step
            case StepCloseIfExpired => if TimeIsUp(cfg, run, n, now) then AwaitingPayment else Active
            case StepStartHold(buyer) => if StartHold(cfg, run[n], buyer, now).Done? then AwaitingInstantBuy else Active
            case _ => Active
  {
    hide Inv, TimeIsUp, StartHold, CloseIfExpired;
    var now := run[n].clock + es[n].elapsed;
    assert Moves(cfg, run, es, n);
    if es[n].step.StepCloseIfExpired? {
      AuctionEnds(cfg, run, es, n, now);
    } else {
      OthersStayActive(cfg, run[n], es[n].step, now);
    }
  }

  lemma OthersStayActive(cfg: Config, s: Lot, step: Step, now: Time)
    requires s.product.status == Active && !step.StepCloseIfExpired?
    ensures After(s, Perform(cfg, s, step, now), now).product.status ==
            if step.StepStartHold? && StartHold(cfg, s, step.buyer, now).Done? then AwaitingInstantBuy else Active
  {
  }
}
