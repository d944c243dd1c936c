/** The range of amounts a bid may have, as it is enforced and as it is published. */
module BidRange {
  import opened Money
  import opened AuctionRows
  import Pricing

  /** `Exhausted` stands for the BadRequest "no valid amount left", `Fault` for
      the arithmetic error on a missing leading amount. */
  datatype Enforced = Between(min: real, max: real) | Exhausted | Fault

  datatype Published = Open(lo: Paisa, hi: Paisa) | Closed | Unavailable | Broken

  function Min(x: real, y: real): (m: real)
    ensures m <= x && m <= y && (m == x || m == y)
  {
    if x <= y then x else y
  }

  function Bounded(min: real, uncapped: real, end: Paisa): Enforced {
    var max := Min(uncapped, end as real);
    if min > max then Exhausted else Between(min, max)
  }

  /** The largest increment the percentage allows, before rounding. */
  function Raised(current: Paisa, percent: real): real {
    current as real + current as real * percent
  }

  /** The flat increment is the larger of the two. */
  predicate FlatWins(cfg: Config, current: Paisa) {
    cfg.flat > current as real * cfg.percent
  }

  function EnforcedRange(cfg: Config, p: Product): Enforced {
    if p.status == AwaitingFirstBid then
      Bounded(p.start as real, RoundDownToStep(Raised(p.start, cfg.percent)) as real, p.end)
    else match p.highest
      case None => Fault
      case Some(current) =>
        var min := current as real + cfg.flat;
        if FlatWins(cfg, current) then
          Bounded(min, min, p.end)
        else
          Bounded(min, RoundDownToStep(Raised(current, cfg.percent)) as real, p.end)
  }

  predicate Biddable(p: Product) {
    p.status == AwaitingFirstBid || p.status == Active
  }

  function PublicRange(cfg: Config, p: Product): Published {
    if !Biddable(p) then Unavailable
    else match EnforcedRange(cfg, p)
      case Fault => Broken
      case Exhausted => Closed
      case Between(min, max) =>
        var lo, hi := RoundUpToStep(min), RoundDownToStep(max);
        if lo > hi then Closed else Open(lo, hi)
  }

  /** The amount checks of a bid, in one predicate: positive, on the step, in range. */
  predicate Accepts(cfg: Config, p: Product, amount: Paisa) {
    && 0 < amount
    && OnStep(amount)
    && EnforcedRange(cfg, p).Between?
    && EnforcedRange(cfg, p).min <= amount as real <= EnforcedRange(cfg, p).max
  }

  /** A lot open for bids whose amounts are set: prices positive, a leading
      amount once it is active. */
  predicate Priced(p: Product) {
    && Biddable(p)
    && 0 < p.start
    && (p.status == Active ==> p.highest.Some? && 0 < p.highest.value)
  }

  lemma PublishedAsEnforced(cfg: Config, p: Product, amount: Paisa)
    requires cfg.Valid() && Priced(p)
    ensures !PublicRange(cfg, p).Broken? && !PublicRange(cfg, p).Unavailable?
    ensures match PublicRange(cfg, p)
            case Open(lo, hi) => Accepts(cfg, p, amount) <==> OnStep(amount) && lo <= amount <= hi
            case _ => !Accepts(cfg, p, amount)
  {
    match EnforcedRange(cfg, p)
    case Between(min, max) =>
      if OnStep(amount) {
        RoundUpIsSharp(min, amount);
        RoundDownIsSharp(max, amount);
      }
    case _ =>
  }

  /** The published range is `Open(lo, hi)` if and only if the amounts a bid is
      accepted at are exactly the multiples of Rs 5 from `lo` to `hi`, both
      ends included; it is `Closed` if and only if no amount is accepted. */
  lemma PublishedEqualsEnforced(cfg: Config, p: Product, lo: Paisa, hi: Paisa)
    requires cfg.Valid() && Priced(p)
    ensures PublicRange(cfg, p) == Open(lo, hi) <==>
            && OnStep(lo) && OnStep(hi) && lo <= hi
            && forall a :: Accepts(cfg, p, a) <==> OnStep(a) && lo <= a <= hi
    ensures PublicRange(cfg, p) == Closed <==> forall a :: !Accepts(cfg, p, a)
  {
    forall a
      ensures match PublicRange(cfg, p)
              case Open(lo', hi') => Accepts(cfg, p, a) <==> OnStep(a) && lo' <= a <= hi'
              case _ => !Accepts(cfg, p, a)
    {
      PublishedAsEnforced(cfg, p, a);
    }
    match PublicRange(cfg, p)
    case Open(lo', hi') =>
      assert Accepts(cfg, p, lo') && Accepts(cfg, p, hi');
    case _ =>
  }

  // ---- Which amounts there are

  /** The least amount on the step a minimum admits lies in the range exactly if
      some amount does. */
  lemma SomeAmount(cfg: Config, p: Product, min: real, uncapped: real)
    requires EnforcedRange(cfg, p) == Bounded(min, uncapped, p.end) && 0.0 < min
    ensures var next := RoundUpToStep(min);
            && ((exists a :: Accepts(cfg, p, a)) <==> next as real <= uncapped && next <= p.end)
            && (Accepts(cfg, p, next) <==> next as real <= uncapped && next <= p.end)
  {
    var next := RoundUpToStep(min);
    forall a | Accepts(cfg, p, a) ensures next as real <= uncapped && next <= p.end {
      RoundUpIsSharp(min, a);
      assert next as real <= a as real;
    }
    if next as real <= uncapped && next <= p.end {
      assert Accepts(cfg, p, next);
    }
  }

  /** The legal amounts of an active lot: while the flat increment is the larger
      one, only the leading amount plus that increment, unrounded; otherwise the
      multiples of Rs 5 between the two increments.  Never past the ceiling. */
  lemma FlatIncrementIsExact(cfg: Config, p: Product, a: Paisa)
    requires cfg.Valid() && Priced(p) && p.status == Active
    ensures var current := p.highest.value as real;
            Accepts(cfg, p, a) <==>
              && a % 500 == 0 && a <= p.end
              && if cfg.flat > current * cfg.percent then a as real == current + cfg.flat
                 else current + cfg.flat <= a as real <= current + current * cfg.percent
  {
    if OnStep(a) {
      RoundDownIsSharp(Raised(p.highest.value, cfg.percent), a);
    }
  }

  /** The legal first bids: the multiples of Rs 5 from the start price to the
      percentage above it, never past the ceiling. */
  lemma FirstBidIsExact(cfg: Config, p: Product, a: Paisa)
    requires cfg.Valid() && Priced(p) && p.status == AwaitingFirstBid
    ensures var start := p.start as real;
            Accepts(cfg, p, a) <==>
              a % 500 == 0 && p.start <= a <= p.end && a as real <= start + start * cfg.percent
  {
    if OnStep(a) {
      RoundDownIsSharp(Raised(p.start, cfg.percent), a);
    }
  }

  /** The first multiple of Rs 5 that one flat increment over the leading amount reaches. */
  function NextAmount(cfg: Config, p: Product): Paisa
    requires p.highest.Some?
  {
    RoundUpToStep(p.highest.value as real + cfg.flat)
  }

  /** Whatever the increments are configured to be, an active lot has a legal
      next amount exactly if that amount is under the ceiling and within the
      percentage increment, or is the flat increment to the paisa where the flat
      increment is the larger one. */
  lemma NextBidExists(cfg: Config, p: Product)
    requires cfg.Valid() && Priced(p) && p.status == Active
    ensures var current, next := p.highest.value, NextAmount(cfg, p);
            (exists a :: Accepts(cfg, p, a)) <==>
              && next <= p.end
              && if FlatWins(cfg, current) then next as real == current as real + cfg.flat
                 else next as real <= Raised(current, cfg.percent)
  {
    var current := p.highest.value;
    var min, raised := current as real + cfg.flat, Raised(current, cfg.percent);
    var flatWins := FlatWins(cfg, current);
    assert EnforcedRange(cfg, p) == Bounded(min, if flatWins then min else RoundDownToStep(raised) as real, p.end);
    hide EnforcedRange, Bounded, Accepts, Raised, FlatWins;
    RoundDownIsSharp(raised, NextAmount(cfg, p));
    SomeAmount(cfg, p, min, if flatWins then min else RoundDownToStep(raised) as real);
    hide RoundUpToStep, RoundDownToStep;
  }

  /** With a flat increment on the step that is: exactly while one flat increment
      still fits under the ceiling; with the Rs 5 one, until the ceiling itself
      is reached, where the other close trigger takes over. */
  lemma NextBidOnStep(cfg: Config, p: Product, flat: Paisa)
    requires cfg.Valid() && Priced(p) && p.status == Active
    requires cfg.flat == flat as real && OnStep(flat) && OnStep(p.highest.value) && OnStep(p.end)
    ensures (exists a :: Accepts(cfg, p, a)) <==> p.highest.value + flat <= p.end
    ensures flat == STEP ==> ((exists a :: Accepts(cfg, p, a)) <==> p.highest.value < p.end)
  {
    NextBidExists(cfg, p);
    var current, next := p.highest.value, NextAmount(cfg, p);
    RoundUpIsSharp(current as real + cfg.flat, current + flat);
    RoundUpIsSharp(current as real + cfg.flat, next);
    assert next == current + flat;
  }

  // ---- The published step

  /** `n` times the step. */
  function Multiple(n: int, step: real): real {
    n as real * step
  }

  /** What the published step is said to mean: every valid amount is a multiple
      of it, and every multiple of it in the published range is a valid amount. */
  ghost predicate StepIsTrue(cfg: Config, p: Product, step: real, lo: Paisa, hi: Paisa) {
    && (forall a :: Accepts(cfg, p, a) ==> exists n: int :: Multiple(n, step) == a as real)
    && (forall n: int :: lo as real <= Multiple(n, step) <= hi as real ==>
          exists a :: Accepts(cfg, p, a) && a as real == Multiple(n, step))
  }

  /** The published step is the flat increment, not the Rs 5 bids are checked
      against, so it describes the valid amounts exactly when the two are the
      same; or, where a single amount is left, when that is a multiple of it. */
  lemma PublishedStepIsTrue(cfg: Config, p: Product, lo: Paisa, hi: Paisa)
    requires cfg.Valid() && Priced(p) && PublicRange(cfg, p) == Open(lo, hi)
    ensures StepIsTrue(cfg, p, cfg.flat, lo, hi) <==>
            if lo < hi then cfg.flat == STEP as real else exists n: int :: Multiple(n, cfg.flat) == lo as real
  {
    PublishedEqualsEnforced(cfg, p, lo, hi);
    hide Accepts, EnforcedRange, PublicRange, Priced;
    assert Accepts(cfg, p, lo) && Accepts(cfg, p, hi);
    if lo < hi {
      if cfg.flat == STEP as real {
        FiveIsTrue(cfg, p, cfg.flat, lo, hi);
      } else {
        OtherStepIsFalse(cfg, p, lo, hi);
      }
    }
  }

  lemma FiveIsTrue(cfg: Config, p: Product, step: real, lo: Paisa, hi: Paisa)
    requires step == STEP as real && forall a :: Accepts(cfg, p, a) <==> OnStep(a) && lo <= a <= hi
    ensures StepIsTrue(cfg, p, step, lo, hi)
  {
    hide Accepts;
    forall a | Accepts(cfg, p, a) ensures exists n: int :: Multiple(n, step) == a as real {
      assert Multiple(a / STEP, step) == a as real;
    }
    forall n: int | lo as real <= Multiple(n, step) <= hi as real
      ensures exists a :: Accepts(cfg, p, a) && a as real == Multiple(n, step)
    {
      assert Accepts(cfg, p, n * STEP);
    }
  }

  /** Both ends of a Rs 5 step being multiples, a smaller step has one between them. */
  lemma OtherStepIsFalse(cfg: Config, p: Product, lo: Paisa, hi: Paisa)
    requires 0.0 < cfg.flat != STEP as real && OnStep(lo) && OnStep(hi) && lo < hi
    requires forall a :: Accepts(cfg, p, a) <==> OnStep(a) && lo <= a <= hi
    ensures !StepIsTrue(cfg, p, cfg.flat, lo, hi)
  {
    hide Accepts;
    OnStepGap(lo, hi);
    assert Accepts(cfg, p, lo) && Accepts(cfg, p, lo + STEP);
    if m, n: int :| Multiple(m, cfg.flat) == lo as real && Multiple(n, cfg.flat) == (lo + STEP) as real {
      MultipleInside(m, n, cfg.flat, lo);
      if a :| Accepts(cfg, p, a) && a as real == Multiple(m + 1, cfg.flat) {
        OnStepGap(lo, a);
      }
    }
  }

  lemma MultipleInside(m: int, n: int, step: real, lo: Paisa)
    requires 0.0 < step != STEP as real
    requires Multiple(m, step) == lo as real && Multiple(n, step) == (lo + STEP) as real
    ensures lo as real < Multiple(m + 1, step) < (lo + STEP) as real
  {
    var k := n - m;
    assert k as real * step == STEP as real;
    assert k <= 0 ==> k as real * step <= 0.0;
    assert k >= 2 ==> k as real * step >= 2.0 * step;
  }

  /** With a flat increment of Rs 10 a fresh lot of base price Rs 1000 takes Rs
      1205, which is no multiple of it. */
  lemma PublishedStepWrong(cfg: Config, p: Product)
    requires cfg.flat == 1000.0 && cfg.percent == 0.05
    requires p.status == AwaitingFirstBid && p.start == 120000 && p.end == 160000
    ensures PublicRange(cfg, p) == Open(120000, 126000) && !StepIsTrue(cfg, p, cfg.flat, 120000, 126000)
  {
    assert Raised(p.start, cfg.percent) == 126000.0;
    assert Accepts(cfg, p, 120500);
    forall n: int ensures Multiple(n, 1000.0) != 120500.0 {}
  }

  /** The base prices, in rupees, whose start price rounds up past their ceiling. */
  predicate StartAboveCeiling(base: Pricing.Rupees) {
    base == 1 || base == 2 || base == 3 || base == 5 || base == 6 || base == 9
  }

  /** A first bid is possible exactly when the start price, rounded up to Rs 5,
      fits under the ceiling and within the percentage; it is then itself a legal
      first bid.  For a start price on the step the percentage never matters. */
  lemma FirstBidExists(cfg: Config, p: Product)
    requires cfg.Valid() && Priced(p) && p.status == AwaitingFirstBid
    ensures var first := RoundUpToStep(p.start as real);
            && ((exists a :: Accepts(cfg, p, a)) <==> first <= p.end && first as real <= Raised(p.start, cfg.percent))
            && (Accepts(cfg, p, first) <==> first <= p.end && first as real <= Raised(p.start, cfg.percent))
    ensures OnStep(p.start) ==> RoundUpToStep(p.start as real) == p.start
    ensures OnStep(p.start) ==> ((exists a :: Accepts(cfg, p, a)) <==> p.start <= p.end)
  {
    var raised, first := Raised(p.start, cfg.percent), RoundUpToStep(p.start as real);
    assert p.start as real <= raised;
    RoundDownIsSharp(raised, first);
    SomeAmount(cfg, p, p.start as real, RoundDownToStep(raised) as real);
    if OnStep(p.start) {
      RoundUpIsSharp(p.start as real, p.start);
    }
  }

  /** Which the prices computed from a base price miss at six of them only. */
  lemma StartFitsUnderCeiling(base: Pricing.Rupees)
    ensures Pricing.BiddingStartPrice(base) <= Pricing.BiddingEndPrice(base) <==> !StartAboveCeiling(base)
  {
    Pricing.PricesOnStepAboveBase(base);
    if base < 25 {
      assert Pricing.MarkupPercent(base) == 20;
      CheapStartFits(base, Pricing.BiddingStartPrice(base), Pricing.BiddingEndPrice(base));
    }
  }

  lemma CheapStartFits(base: Pricing.Rupees, start: Paisa, end: Paisa)
    requires base < 25 && OnStep(start) && OnStep(end)
    requires base * 120 <= start < base * 120 + STEP
    requires base * 160 - STEP < end <= base * 160
    ensures start <= end <==> !StartAboveCeiling(base)
  {
    var s, e := start / STEP, end / STEP;
  }
}
