/** Under which configurations of the increments the backend keeps what it says
    about bidding, on every lot it can ever get to. */
module BidConfig {
  import opened Money
  import opened AuctionRows
  import opened AuctionSteps
  import opened AuctionInvariant
  import opened AuctionRuns
  import opened BidRange
  import BidLadder
  import Pricing

  // ---- Lots that exist

  /** A listed lot is reachable, by the run that does nothing. */
  lemma ListedReachable(cfg: Config, owner: UserId, base: Pricing.Rupees, since: Time)
    ensures Reachable(cfg, Listed(owner, base, since))
  {
    var s := Listed(owner, base, since);
    assert IsRun(cfg, [s], []) && StartsListed([s]);
  }

  /** So is what one more transaction makes of a reachable lot. */
  lemma OneStepReachable(cfg: Config, s: Lot, e: Event, s': Lot)
    requires Reachable(cfg, s) && StepTo(cfg, s, e, s')
    ensures Reachable(cfg, s')
  {
    hide StepTo;
    var run, es :| IsRun(cfg, run, es) && StartsListed(run) && s == run[|run| - 1];
    var run', es' := run + [s'], es + [e];
    forall i | 0 <= i < |es'| ensures Moves(cfg, run', es', i) {
      if i < |es| {
        assert Moves(cfg, run, es, i);
      }
    }
    assert StartsListed(run') by {
      var owner: UserId, base: Pricing.Rupees, since: Time :| run[0] == Listed(owner, base, since);
      assert run'[0] == Listed(owner, base, since);
    }
    assert IsRun(cfg, run', es') && s' == run'[|run'| - 1];
  }

  /** A lot whose start price was bid, where that fits under its ceiling. */
  lemma OpenedAtStart(cfg: Config, base: Pricing.Rupees) returns (s: Lot)
    requires cfg.Valid() && Pricing.BiddingStartPrice(base) <= Pricing.BiddingEndPrice(base)
    ensures Reachable(cfg, s) && s.product.status == Active && s.product.base == base
    ensures s.product.start == Pricing.BiddingStartPrice(base) && s.product.end == Pricing.BiddingEndPrice(base)
    ensures s.product.highest == Some(s.product.start)
  {
    var start := Pricing.BiddingStartPrice(base);
    var listed, e := Listed(0, base, 0), Event(0, StepPlaceBid(1, start, 0));
    ListedReachable(cfg, 0, base, 0);
    Pricing.PricesOnStepAboveBase(base);
    RoundDownIsSharp(Raised(start, cfg.percent), start);
    var outcome := PlaceBid(cfg, listed, 1, start, 0, 0);
    StartAccepted(cfg, listed, start);
    s := outcome.lot;
    hide Reachable, PlaceBid;
    assert StepTo(cfg, listed, e, s);
    OneStepReachable(cfg, listed, e, s);
  }

  lemma StartAccepted(cfg: Config, listed: Lot, start: Paisa)
    requires cfg.Valid() && listed.product.status == AwaitingFirstBid && listed.product.owner != 1
    requires listed.product.leader == None && start == listed.product.start && OnStep(start) && 0 < start
    requires start <= listed.product.end
    ensures PlaceBid(cfg, listed, 1, start, 0, 0).Done?
  {
    FirstBidExists(cfg, listed.product);
    BidLadder.BidChecks(cfg, listed, 1, start, 0, 0);
    hide PlaceBid, Accepts;
    RaisedAbove(start, cfg.percent);
  }

  lemma RaisedAbove(amount: Paisa, percent: real)
    requires 0 < amount && 0.0 < percent
    ensures amount as real <= Raised(amount, percent)
  {
  }

  lemma PricesOfTwo()
    ensures Pricing.BiddingStartPrice(16) == 2000 && Pricing.BiddingEndPrice(16) == 2500
    ensures Pricing.BiddingStartPrice(50) == 6000 && Pricing.BiddingEndPrice(50) == 8000
  {
    Pricing.PricesOnStepAboveBase(16);
    Pricing.PricesOnStepAboveBase(50);
  }

  // ---- Stalling

  /** An active lot below its ceiling that nobody can bid on any more. */
  ghost predicate Stalls(cfg: Config, p: Product) {
    p.status == Active && p.highest.Some? && p.highest.value < p.end && forall a :: !Accepts(cfg, p, a)
  }

  /** Where bidding can start below the ceiling, it starts at Rs 20 or above. */
  lemma LeastContestedStart(base: Pricing.Rupees)
    requires Pricing.BiddingStartPrice(base) < Pricing.BiddingEndPrice(base)
    ensures 2000 <= Pricing.BiddingStartPrice(base)
  {
    Pricing.PricesOnStepAboveBase(base);
    if base < 20 {
      assert Pricing.MarkupPercent(base) == 20;
      var s, e := Pricing.BiddingStartPrice(base) / STEP, Pricing.BiddingEndPrice(base) / STEP;
      assert base * 120 <= s * STEP < base * 120 + STEP;
      assert e * STEP <= base * 160;
    }
  }

  /** No lot stalls under these increments. */
  predicate Unstalling(cfg: Config) {
    cfg.flat == STEP as real || (cfg.flat < STEP as real && 0.25 <= cfg.percent)
  }

  lemma NextRung(cfg: Config, p: Product)
    requires cfg.Valid() && Priced(p) && p.status == Active && OnStep(p.highest.value) && OnStep(p.end)
    requires cfg.flat <= STEP as real && p.highest.value < p.end
    ensures NextAmount(cfg, p) == p.highest.value + STEP <= p.end
  {
    var current, next := p.highest.value, NextAmount(cfg, p);
    OnStepGap(current, p.end);
    RoundUpIsSharp(current as real + cfg.flat, current + STEP);
    assert current < next;
    OnStepGap(current, next);
  }

  lemma LotNeverStalls(cfg: Config, s: Lot)
    requires cfg.Valid() && Unstalling(cfg) && Inv(cfg, s)
    ensures !Stalls(cfg, s.product)
  {
    var p := s.product;
    if p.status == Active && p.highest.Some? && p.highest.value < p.end {
      BidLadder.OpenAmounts(cfg, s);
      BidLadder.LeaderAboveStart(cfg, s);
      hide Inv;
      LeastContestedStart(p.base);
      ContestedNeverStalls(cfg, p);
    }
  }

  lemma ContestedNeverStalls(cfg: Config, p: Product)
    requires cfg.Valid() && Unstalling(cfg) && Priced(p) && p.status == Active
    requires OnStep(p.highest.value) && OnStep(p.end) && 2000 <= p.highest.value < p.end
    ensures exists a :: Accepts(cfg, p, a)
  {
    NextRung(cfg, p);
    NextBidExists(cfg, p);
    hide Accepts, NextAmount;
    if cfg.flat < STEP as real {
      QuarterCovers(p.highest.value, cfg.percent);
    }
  }

  /** From Rs 20 up a quarter is at least Rs 5. */
  lemma QuarterCovers(current: Paisa, percent: real)
    requires 2000 <= current && 0.25 <= percent
    ensures STEP as real <= current as real * percent
  {
    assert current as real * 0.25 <= current as real * percent;
  }

  /** The least lot that can stall does, under any other increments. */
  lemma TwentyStalls(cfg: Config, p: Product)
    requires cfg.Valid() && !Unstalling(cfg)
    requires p.status == Active && p.highest == Some(2000) && p.start == 2000 && p.end == 2500
    ensures Stalls(cfg, p)
  {
    NextBidExists(cfg, p);
    hide Accepts;
    if cfg.flat < STEP as real {
      NextRung(cfg, p);
    }
  }

  /** Every active lot the backend can ever get to has a legal next amount until
      its ceiling is reached, if and only if the flat increment is Rs 5, or less
      and the percentage at least a quarter. */
  lemma NoLotStallsIff(cfg: Config)
    requires cfg.Valid()
    ensures (forall s: Lot :: Reachable(cfg, s) ==> !Stalls(cfg, s.product)) <==> Unstalling(cfg)
  {
    hide Reachable, Stalls;
    if Unstalling(cfg) {
      forall s: Lot | Reachable(cfg, s) ensures !Stalls(cfg, s.product) {
        ReachableInv(cfg, s);
        LotNeverStalls(cfg, s);
      }
    } else {
      PricesOfTwo();
      var s := OpenedAtStart(cfg, 16);
      TwentyStalls(cfg, s.product);
    }
  }

  /** A lot of base price Rs 50 on which its start price, Rs 60, was bid: a flat
      increment of Rs 3 and a percentage of 5 leave it without a legal bid, though
      the flat increment is not the larger one, because both are Rs 3 and Rs 63 is
      off the step. */
  lemma NoAmountLeft(cfg: Config) returns (s: Lot)
    requires cfg.Valid() && cfg.flat == 300.0 && cfg.percent == 0.05
    ensures Reachable(cfg, s) && s.product.highest.Some?
    ensures !FlatWins(cfg, s.product.highest.value) && Stalls(cfg, s.product)
  {
    PricesOfTwo();
    s := OpenedAtStart(cfg, 50);
    hide Reachable;
    NextBidExists(cfg, s.product);
    hide Accepts;
    assert Raised(6000, cfg.percent) == 6300.0;
    assert NextAmount(cfg, s.product) > 6300;
  }

  // ---- The published step

  /** A range is published whose step does not describe the valid amounts. */
  ghost predicate Misleads(cfg: Config, p: Product, lo: Paisa, hi: Paisa) {
    PublicRange(cfg, p) == Open(lo, hi) && !StepIsTrue(cfg, p, cfg.flat, lo, hi)
  }

  /** A fresh lot dear enough that its first bid may be one of two amounts. */
  lemma WideFirstRange(cfg: Config) returns (base: Pricing.Rupees, lo: Paisa, hi: Paisa)
    requires cfg.Valid()
    ensures Priced(Listed(0, base, 0).product)
    ensures PublicRange(cfg, Listed(0, base, 0).product) == Open(lo, hi) && lo < hi
  {
    base := DearBase(cfg.percent);
    hide RoundUpToStep, RoundDownToStep;
    lo, hi := TwoFirstBids(cfg, Listed(0, base, 0).product);
  }

  lemma DearBase(percent: real) returns (base: Pricing.Rupees)
    requires 0.0 < percent
    ensures var p := Listed(0, base, 0).product;
            && OnStep(p.start) && 0 < p.start && p.start + STEP <= p.end
            && STEP as real <= p.start as real * percent
  {
    base := (10.0 / percent).Floor + 100;
    DearPrices(base);
    PercentCovers(Pricing.BiddingStartPrice(base), base, percent);
  }

  lemma DearPrices(base: Pricing.Rupees)
    requires 100 <= base
    ensures var p := Pricing.PricesFor(base); OnStep(p.start) && base * 100 < p.start && p.start + STEP <= p.end
  {
    Pricing.PricesOnStepAboveBase(base);
    Pricing.LargePricesOrdered(base);
    OnStepGap(Pricing.BiddingStartPrice(base), Pricing.BiddingEndPrice(base));
  }

  lemma TwoFirstBids(cfg: Config, p: Product) returns (lo: Paisa, hi: Paisa)
    requires cfg.Valid() && p.status == AwaitingFirstBid && OnStep(p.start) && p.start + STEP <= p.end
    requires 0 < p.start && STEP as real <= p.start as real * cfg.percent
    ensures PublicRange(cfg, p) == Open(lo, hi) && lo < hi
  {
    hide Raised, RoundUpToStep, RoundDownToStep;
    var max := Min(RoundDownToStep(Raised(p.start, cfg.percent)) as real, p.end as real);
    OneStepUp(p.start, cfg.percent, p.end, max);
    lo, hi := RoundUpToStep(p.start as real), RoundDownToStep(max);
  }

  /** One step above the start price is within the percentage and the ceiling. */
  lemma OneStepUp(start: Paisa, percent: real, end: Paisa, max: real)
    requires OnStep(start) && start + STEP <= end && STEP as real <= start as real * percent
    requires max == Min(RoundDownToStep(Raised(start, percent)) as real, end as real)
    ensures RoundUpToStep(start as real) <= start && start + STEP <= RoundDownToStep(max)
  {
    hide Raised, RoundUpToStep, RoundDownToStep;
    OneStepAllowed(start, percent);
    RoundUpIsSharp(start as real, start);
    RoundDownIsSharp(max, start + STEP);
  }

  lemma OneStepAllowed(start: Paisa, percent: real)
    requires OnStep(start) && STEP as real <= start as real * percent
    ensures start + STEP <= RoundDownToStep(Raised(start, percent))
  {
    hide RoundDownToStep;
    RoundDownIsSharp(Raised(start, percent), start + STEP);
  }

  lemma PercentCovers(start: Paisa, base: int, percent: real)
    requires 0.0 < percent && base == (10.0 / percent).Floor + 100 && base * 100 < start
    ensures STEP as real <= start as real * percent
  {
    var q := 10.0 / percent;
    assert q * percent == 10.0;
    assert start as real >= 100.0 * q;
    assert start as real * percent >= 100.0 * q * percent;
  }

  /** The published step describes the valid amounts of every lot the backend can
      ever get to, if and only if it is Rs 5. */
  lemma StepIsTrueIffFive(cfg: Config)
    requires cfg.Valid()
    ensures (forall s: Lot, lo, hi :: Reachable(cfg, s) ==> !Misleads(cfg, s.product, lo, hi)) <==>
            cfg.flat == STEP as real
  {
    hide Reachable, Misleads;
    if cfg.flat == STEP as real {
      forall s: Lot, lo, hi | Reachable(cfg, s) ensures !Misleads(cfg, s.product, lo, hi) {
        ReachableInv(cfg, s);
        FiveNeverMisleads(cfg, s, lo, hi);
      }
    } else {
      var base, lo, hi := WideFirstRange(cfg);
      ListedReachable(cfg, 0, base, 0);
      OthersMislead(cfg, Listed(0, base, 0), lo, hi);
    }
  }

  lemma FiveNeverMisleads(cfg: Config, s: Lot, lo: Paisa, hi: Paisa)
    requires cfg.Valid() && cfg.flat == STEP as real && Inv(cfg, s)
    ensures !Misleads(cfg, s.product, lo, hi)
  {
    if PublicRange(cfg, s.product) == Open(lo, hi) {
      BidLadder.OpenAmounts(cfg, s);
      hide Inv;
      PublishedEqualsEnforced(cfg, s.product, lo, hi);
      PublishedStepIsTrue(cfg, s.product, lo, hi);
      assert Multiple(lo / STEP, cfg.flat) == lo as real;
    }
  }

  lemma OthersMislead(cfg: Config, s: Lot, lo: Paisa, hi: Paisa)
    requires cfg.Valid() && cfg.flat != STEP as real && Priced(s.product)
    requires PublicRange(cfg, s.product) == Open(lo, hi) && lo < hi
    ensures Misleads(cfg, s.product, lo, hi)
  {
    PublishedStepIsTrue(cfg, s.product, lo, hi);
  }
}
