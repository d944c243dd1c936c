/** The bids of an auction only ever grow by one more rung, so there can be only
    so many of them. */
module BidLadder {
  import opened Money
  import opened AuctionRows
  import opened AuctionQueries
  import opened AuctionSteps
  import opened Leaderboard
  import opened AuctionInvariant
  import opened BiddingProofs
  import opened HoldProofs
  import opened AuctionRuns
  import HoldTransparency
  import BidRange
  import Pricing

  /** The bids placed in the auction, in order. */
  function RealBids(s: Lot): seq<Offer> {
    Reals(Offers(s.bids))
  }

  // ---- At any time

  /** The rungs climb by at least Rs 5 from the start price to the ceiling. */
  lemma LadderIsShort(cfg: Config, s: Lot)
    requires cfg.Valid() && Inv(cfg, s) && RealBids(s) != []
    ensures (|RealBids(s)| - 1) * STEP <= s.product.end - s.product.start
  {
    var t, rs := TermsOf(s.product), RealBids(s);
    hide Inv;
    LadderOf(cfg, s);
    hide Reals, Offers;
    assert Rung(cfg, t, rs, 0) && Rung(cfg, t, rs, |rs| - 1);
    LadderClimbs(cfg, t, rs, 0, |rs| - 1);
  }

  lemma LadderOf(cfg: Config, s: Lot)
    requires Inv(cfg, s)
    ensures Ladder(cfg, TermsOf(s.product), RealBids(s))
  {
  }

  /** What a lot open for bids shows of its amounts: all on the step, the
      leading one no higher than the ceiling. */
  lemma OpenAmounts(cfg: Config, s: Lot)
    requires Inv(cfg, s) && BidRange.Biddable(s.product)
    ensures var p := s.product;
            && BidRange.Priced(p) && OnStep(p.start) && OnStep(p.end)
            && (p.status == Active ==> OnStep(p.highest.value) && p.highest.value <= p.end)
            && p.start == Pricing.BiddingStartPrice(p.base) && p.end == Pricing.BiddingEndPrice(p.base)
  {
    var rs := RealBids(s);
    Pricing.PricesOnStepAboveBase(s.product.base);
    if s.product.status == Active {
      assert Rung(cfg, TermsOf(s.product), rs, |rs| - 1);
    }
  }

  lemma LeaderAboveStart(cfg: Config, s: Lot)
    requires Inv(cfg, s) && s.product.status == Active
    ensures s.product.highest.Some? && s.product.start <= s.product.highest.value
  {
    var rs := RealBids(s);
    assert Rung(cfg, TermsOf(s.product), rs, |rs| - 1);
  }

  /** A bid on an open lot is accepted exactly from another user than the owner
      and the leader, who has bid here before or has a slot left, and exactly at
      an amount the published range offers. */
  lemma BidAcceptedIff(cfg: Config, s: Lot, user: UserId, amount: Paisa, openElsewhere: nat, now: Time)
    requires cfg.Valid() && Inv(cfg, s) && BidRange.Biddable(s.product)
    ensures PlaceBid(cfg, s, user, amount, openElsewhere, now).Done? <==>
              && user != s.product.owner && s.product.leader != Some(user)
              && ((exists i :: 0 <= i < |s.bids| && s.bids[i].offer.bidder == user) || openElsewhere < 10)
              && match BidRange.PublicRange(cfg, s.product)
                 case Open(lo, hi) => OnStep(amount) && lo <= amount <= hi
                 case _ => false
  {
    OpenAmounts(cfg, s);
    hide Inv, PlaceBid;
    BidRange.PublishedAsEnforced(cfg, s.product, amount);
    hide BidRange.PublicRange, OnStep, BidRange.Accepts;
    BidChecks(cfg, s, user, amount, openElsewhere, now);
  }

  /** The amount checks of placeBid are those the range enforces. */
  lemma BidChecks(cfg: Config, s: Lot, user: UserId, amount: Paisa, openElsewhere: nat, now: Time)
    requires cfg.Valid() && BidRange.Priced(s.product)
    ensures PlaceBid(cfg, s, user, amount, openElsewhere, now).Done? <==>
              && user != s.product.owner && s.product.leader != Some(user)
              && (HasBidBy(s.bids, user) || openElsewhere < MAX_ACTIVE_BIDS_PER_USER)
              && BidRange.Accepts(cfg, s.product, amount)
  {
    MinimumPositive(cfg, s.product);
    hide BidRange.EnforcedRange, HasBidBy, OnStep;
  }

  lemma MinimumPositive(cfg: Config, p: Product)
    requires cfg.Valid() && BidRange.Priced(p)
    ensures BidRange.EnforcedRange(cfg, p).Between? ==> 0.0 < BidRange.EnforcedRange(cfg, p).min
  {
  }

  /** An accepted bid records where it stands on the ladder: whether it is the
      first rung, and the amount of the one below; the first rung starts the clock. */
  lemma BidStands(cfg: Config, s: Lot, user: UserId, amount: Paisa, openElsewhere: nat, now: Time, s': Lot)
    requires Inv(cfg, s) && PlaceBid(cfg, s, user, amount, openElsewhere, now) == Done(s')
    ensures var rs := RealBids(s);
            var before := if rs == [] then None else Some(rs[|rs| - 1].amount);
            && s'.bids == s.bids + [Bid(Offer(s.nextId, user, amount, now, false), before, rs == [],
                                        false, 0, false, NotResponsible, None, None, None)]
            && s'.product == s.product.(
                 status := Active, highest := Some(amount), leader := Some(user),
                 endsAt := if rs == [] then Some(now + cfg.biddingMs) else s.product.endsAt,
                 startedAt := if rs == [] then Some(now) else s.product.startedAt)
            && s'.rounds == s.rounds && s'.payments == s.payments
  {
    OpenCache(cfg, s);
    hide Inv, RealBids, HasBidBy, OnStep, BidRange.EnforcedRange;
  }

  /** Why a bid is rejected: the first of these that applies. */
  lemma BidRejectedBecause(cfg: Config, s: Lot, user: UserId, amount: Paisa, openElsewhere: nat, now: Time)
    requires cfg.Valid() && Inv(cfg, s)
    ensures var outcome, p := PlaceBid(cfg, s, user, amount, openElsewhere, now), s.product;
            var open := p.status == AwaitingFirstBid || p.status == Active;
            var allowed := open && user != p.owner && p.leader != Some(user);
            var known := exists i :: 0 <= i < |s.bids| && s.bids[i].offer.bidder == user;
            var placed := allowed && (known || openElsewhere < 10);
            && (outcome == Rejected(BiddingNotOpen) <==> !open)
            && (outcome == Rejected(OwnProduct) <==> open && user == p.owner)
            && (outcome == Rejected(AlreadyLeading) <==> open && user != p.owner && p.leader == Some(user))
            && (outcome == Rejected(AuctionSteps.SlotLimit) <==> allowed && !known && openElsewhere >= 10)
            && (outcome == Rejected(NoAmountLeft) <==> placed && BidRange.EnforcedRange(cfg, p).Exhausted?)
            && (outcome == Rejected(NotOnStep) <==>
                  placed && !BidRange.EnforcedRange(cfg, p).Exhausted? && amount % 500 != 0)
            && (outcome == Rejected(OutOfRange) ==> amount % 500 == 0 && !BidRange.Accepts(cfg, p, amount))
            && (placed && outcome.Rejected? ==>
                  outcome.error == NotOnStep || outcome.error == OutOfRange || outcome.error == NoAmountLeft)
  {
    if BidRange.Biddable(s.product) {
      OpenAmounts(cfg, s);
      hide Inv, BidRange.EnforcedRange;
    } else {
      hide Inv, BidRange.EnforcedRange;
    }
  }

  lemma OpenCache(cfg: Config, s: Lot)
    requires Inv(cfg, s) && BidRange.Biddable(s.product)
    ensures var rs := RealBids(s);
            && (s.product.status == AwaitingFirstBid <==> rs == [])
            && s.product.highest == if rs == [] then None else Some(rs[|rs| - 1].amount)
  {
  }

  /** With the Rs 5 increment an active lot never stalls: there is a legal next
      amount, or the ceiling is reached and the lot closes. */
  lemma NeverStalls(cfg: Config, s: Lot)
    requires cfg.Valid() && cfg.flat == STEP as real && Inv(cfg, s) && s.product.status == Active
    ensures s.product.highest.Some?
    ensures (exists a :: BidRange.Accepts(cfg, s.product, a)) <==> s.product.highest.value < s.product.end
  {
    OpenAmounts(cfg, s);
    hide Inv;
    BidRange.NextBidOnStep(cfg, s.product, STEP);
  }

  /** A listed lot can be opened by some first bid, save for six base prices. */
  lemma CanBeOpened(cfg: Config, s: Lot)
    requires cfg.Valid() && Inv(cfg, s) && s.product.status == AwaitingFirstBid
    ensures (exists a :: BidRange.Accepts(cfg, s.product, a)) <==> !BidRange.StartAboveCeiling(s.product.base)
  {
    OpenAmounts(cfg, s);
    hide Inv;
    BidRange.FirstBidExists(cfg, s.product);
    BidRange.StartFitsUnderCeiling(s.product.base);
  }

  // ---- Step by step

  ghost predicate OffersKept(bids: seq<Bid>, bids': seq<Bid>) {
    |bids'| == |bids| && forall i :: 0 <= i < |bids| ==> bids'[i].offer == bids[i].offer
  }

  lemma SameOffers(bids: seq<Bid>, bids': seq<Bid>)
    requires OffersKept(bids, bids')
    ensures Offers(bids') == Offers(bids)
  {
  }

  predicate AddsOrDropsBids(step: Step) {
    step.StepPlaceBid? || step.StepStartHold? || step.StepReleaseHold?
  }

  lemma TurnsKeepOffers(cfg: Config, s: Lot, now: Time)
    ensures OffersKept(s.bids, After(s, CloseIfExpired(cfg, s, now), now).bids)
    ensures OffersKept(s.bids, After(s, PaymentExpiry(cfg, s, now), now).bids)
  {
    hide Top;
  }

  lemma SalesKeepOffers(cfg: Config, s: Lot, step: Step, now: Time)
    requires step.StepConfirmManual? || step.StepConfirmCod? || step.StepConfirmGateway? || step.StepRefuseCod?
    ensures OffersKept(s.bids, After(s, Perform(cfg, s, step, now), now).bids)
  {
    hide Responsible, RoundOf, RetireInFlight;
  }

  lemma OtherStepsKeepOffers(cfg: Config, s: Lot, step: Step, now: Time)
    requires !AddsOrDropsBids(step)
    ensures OffersKept(s.bids, After(s, Perform(cfg, s, step, now), now).bids)
  {
    hide CloseIfExpired, PaymentExpiry, ConfirmManual, ConfirmCod, ConfirmGateway, RefuseCod;
    if step.StepCloseIfExpired? || step.StepPaymentExpiry? {
      TurnsKeepOffers(cfg, s, now);
    } else if step.StepConfirmManual? || step.StepConfirmCod? || step.StepConfirmGateway? || step.StepRefuseCod? {
      SalesKeepOffers(cfg, s, step, now);
    }
  }

  lemma ReleaseKeepsReals(cfg: Config, s: Lot, expected: Option<RowId>, now: Time)
    requires Inv(cfg, s)
    ensures ReleaseHold(s, expected, now).Done? && RealBids(ReleaseHold(s, expected, now).lot) == RealBids(s)
  {
    if s.product.status == AwaitingInstantBuy {
      HoldTransparency.HoldFacts(cfg, s);
      HoldTransparency.NewestPending(cfg, s);
      var os := Offers(s.bids);
      hide Inv, Stage, RoundsFollow, Fresh, Ranking;
      ReleaseCases(s, expected, now, os, Ranking(os));
      hide ReleaseHold, Reopened, Reals;
      ReleasedReals(s, ReleaseHold(s, expected, now).lot.bids);
    }
  }

  lemma ReleasedReals(s: Lot, bids: seq<Bid>)
    requires s.bids != [] && s.bids[|s.bids| - 1].offer.instant
    requires OffersKept(s.bids, bids) || bids == s.bids[..|s.bids| - 1]
    ensures Reals(Offers(bids)) == Reals(Offers(s.bids))
  {
    if OffersKept(s.bids, bids) {
      SameOffers(s.bids, bids);
    } else {
      var last := s.bids[|s.bids| - 1];
      OffersAppend(bids, last);
      assert s.bids == bids + [last];
      ProjectionsAppend(Offers(bids), last.offer);
    }
  }

  /** The transaction is a bid that was accepted. */
  predicate Accepted(cfg: Config, s: Lot, e: Event) {
    e.step.StepPlaceBid? && Perform(cfg, s, e.step, s.clock + e.elapsed).Done?
  }

  /** The real bids, with the accepted one on top if there is one. */
  ghost predicate LadderMoves(cfg: Config, s: Lot, e: Event, s': Lot) {
    if Accepted(cfg, s, e)
    then RealBids(s') == RealBids(s) + [Offer(s.nextId, e.step.user, e.step.amount, s.clock + e.elapsed, false)]
    else RealBids(s') == RealBids(s)
  }

  lemma BidMoves(cfg: Config, s: Lot, e: Event, s': Lot)
    requires StepTo(cfg, s, e, s') && (e.step.StepPlaceBid? || e.step.StepStartHold?)
    ensures LadderMoves(cfg, s, e, s')
  {
    hide Reals, Offers;
    if Perform(cfg, s, e.step, s.clock + e.elapsed).Done? {
      BidAdded(s.bids, s'.bids[|s.bids|]);
    }
  }

  lemma ReleaseMoves(cfg: Config, s: Lot, e: Event, s': Lot)
    requires Inv(cfg, s) && StepTo(cfg, s, e, s') && e.step.StepReleaseHold?
    ensures LadderMoves(cfg, s, e, s')
  {
    hide Inv, Reals, Offers, ReleaseHold;
    ReleaseKeepsReals(cfg, s, e.step.expected, s.clock + e.elapsed);
  }

  lemma OtherMoves(cfg: Config, s: Lot, e: Event, s': Lot)
    requires StepTo(cfg, s, e, s') && !AddsOrDropsBids(e.step)
    ensures LadderMoves(cfg, s, e, s')
  {
    hide Perform, Reals, Offers;
    OtherStepsKeepOffers(cfg, s, e.step, s.clock + e.elapsed);
    SameOffers(s.bids, s'.bids);
  }

  /** An accepted bid is added at the top; nothing else ever adds, alters or
      removes one. */
  lemma StepLadder(cfg: Config, s: Lot, e: Event, s': Lot)
    requires Inv(cfg, s) && StepTo(cfg, s, e, s')
    ensures LadderMoves(cfg, s, e, s')
  {
    hide Inv, StepTo, LadderMoves;
    if e.step.StepReleaseHold? {
      ReleaseMoves(cfg, s, e, s');
    } else if AddsOrDropsBids(e.step) {
      BidMoves(cfg, s, e, s');
    } else {
      OtherMoves(cfg, s, e, s');
    }
  }

  lemma BidAdded(bids: seq<Bid>, b: Bid)
    ensures var rs := Reals(Offers(bids));
            Reals(Offers(bids + [b])) == if b.offer.instant then rs else rs + [b.offer]
  {
    OffersAppend(bids, b);
    ProjectionsAppend(Offers(bids), b.offer);
  }

  // ---- Over a run

  /** How many of the first `n` transactions of a run were accepted bids. */
  ghost function AcceptedIn(cfg: Config, run: seq<Lot>, es: seq<Event>, n: nat): nat
    requires n <= |es| && n <= |run|
  {
    if n == 0 then 0
    else AcceptedIn(cfg, run, es, n - 1) + if Accepted(cfg, run[n - 1], es[n - 1]) then 1 else 0
  }

  lemma {:induction false} EveryBidIsARung(cfg: Config, run: seq<Lot>, es: seq<Event>, n: nat)
    requires cfg.Valid() && IsRun(cfg, run, es) && Inv(cfg, run[0]) && n <= |es|
    ensures |RealBids(run[n])| == |RealBids(run[0])| + AcceptedIn(cfg, run, es, n)
    ensures RealBids(run[0]) <= RealBids(run[n])
  {
    hide Inv, StepTo, RealBids, Accepted;
    if n > 0 {
      EveryBidIsARung(cfg, run, es, n - 1);
      RunKeepsInv(cfg, run, es, n - 1);
      assert Moves(cfg, run, es, n - 1);
      StepLadder(cfg, run[n - 1], es[n - 1], run[n]);
    }
  }

  /** From the listing on, no more bids are ever accepted than there are
      multiples of Rs 5 from the start price to the ceiling, however long the
      run is. */
  lemma BiddingIsBounded(cfg: Config, run: seq<Lot>, es: seq<Event>)
    requires cfg.Valid() && IsRun(cfg, run, es) && StartsListed(run)
    ensures var p, n := run[|es|].product, AcceptedIn(cfg, run, es, |es|);
            n > 0 ==> n <= (p.end - p.start) / STEP + 1
  {
    var owner: UserId, base, since: Time :| run[0] == Listed(owner, base, since);
    hide Inv, StepTo, RealBids, Accepted, AcceptedIn, Listed;
    ListedInv(cfg, owner, base, since);
    NothingBid(owner, base, since);
    EveryBidIsARung(cfg, run, es, |es|);
    RunKeepsInv(cfg, run, es, |es|);
    if AcceptedIn(cfg, run, es, |es|) > 0 {
      LadderIsShort(cfg, run[|es|]);
    }
  }

  lemma NothingBid(owner: UserId, base: Pricing.Rupees, since: Time)
    ensures RealBids(Listed(owner, base, since)) == []
  {
  }
}
