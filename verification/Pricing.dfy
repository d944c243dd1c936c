/** The three prices derived from a seller's base price. */
module Pricing {
  import opened Money

  /** The base price is a whole number of rupees. */
  type Rupees = b: int | 0 < b witness 1

  datatype Prices = Prices(start: Paisa, instant: Paisa, end: Paisa)

  /** The markup over the base price, in percent, that the band of the base price sets. */
  function MarkupPercent(base: Rupees): (m: int)
    ensures 10 <= m <= 20
  {
    if base <= 10000 then 20
    else if base <= 20000 then 18
    else if base <= 30000 then 16
    else if base <= 40000 then 14
    else if base <= 50000 then 12
    else 10
  }

  /** A percentage of a number of rupees is a whole number of paisa. */
  function BiddingStartPrice(base: Rupees): Paisa {
    RoundUpToStep((base * (100 + MarkupPercent(base))) as real)
  }

  function InstantBuyPrice(base: Rupees): Paisa {
    RoundDownToStep((base * 140) as real)
  }

  function BiddingEndPrice(base: Rupees): Paisa {
    RoundDownToStep((base * 160) as real)
  }

  function PricesFor(base: Rupees): Prices {
    Prices(BiddingStartPrice(base), InstantBuyPrice(base), BiddingEndPrice(base))
  }

  /** What the rest of the model needs to know about prices: all on the step,
      each within Rs 5 of its markup, and bidding never starts below what the
      seller asked for. */
  lemma PricesOnStepAboveBase(base: Rupees)
    ensures var p := PricesFor(base);
            && OnStep(p.start) && OnStep(p.instant) && OnStep(p.end)
            && base * (100 + MarkupPercent(base)) <= p.start < base * (100 + MarkupPercent(base)) + STEP
            && base * 100 < p.start < base * 120 + STEP
            && base * 140 - STEP < p.instant <= base * 140
            && base * 160 - STEP < p.end <= base * 160
  {
    var up := base * (100 + MarkupPercent(base));
    assert base * 110 <= up <= base * 120;
  }

  /** The start price is the first multiple of Rs 5 at or above 120 percent of a
      base price of up to Rs 10000, 118 of one up to Rs 20000, 116 up to Rs
      30000, 114 up to Rs 40000, 112 up to Rs 50000 and 110 beyond. */
  lemma StartPriceByBand(base: Rupees)
    ensures var start := BiddingStartPrice(base);
            && start % 500 == 0
            && (base <= 10000 ==> base * 120 <= start < base * 120 + 500)
            && (10000 < base <= 20000 ==> base * 118 <= start < base * 118 + 500)
            && (20000 < base <= 30000 ==> base * 116 <= start < base * 116 + 500)
            && (30000 < base <= 40000 ==> base * 114 <= start < base * 114 + 500)
            && (40000 < base <= 50000 ==> base * 112 <= start < base * 112 + 500)
            && (50000 < base ==> base * 110 <= start < base * 110 + 500)
  {
    PricesOnStepAboveBase(base);
    var percent := 100 + MarkupPercent(base);
    assert base * percent ==
           if base <= 10000 then base * 120 else if base <= 20000 then base * 118
           else if base <= 30000 then base * 116 else if base <= 40000 then base * 114
           else if base <= 50000 then base * 112 else base * 110;
  }

  /** The base prices below Rs 47 at which Instant Buy still lies above the first bid. */
  predicate SmallButOrdered(base: Rupees) {
    base == 25 || base == 29 || base == 33 || base == 36 || base == 37 ||
    base == 40 || base == 41 || base == 43 || base == 44 || base == 45
  }

  /** Instant Buy is above the bidding start price, and the bidding ceiling
      above Instant Buy, exactly from Rs 47 on and at ten smaller base prices:
      the claim that Instant Buy is always above the start is false of the
      cheapest lots. */
  lemma PricesOrdered(base: Rupees)
    ensures var p := PricesFor(base);
            p.start < p.instant < p.end <==> 47 <= base || SmallButOrdered(base)
    ensures var p := PricesFor(base);
            p.start < p.instant <==> 47 <= base || SmallButOrdered(base)
  {
    PricesOnStepAboveBase(base);
    if base < 50 {
      PricesOrderedSmall(base);
    } else {
      LargePricesOrdered(base);
    }
  }

  lemma LargePricesOrdered(base: Rupees)
    requires 50 <= base
    ensures var p := PricesFor(base); p.start < p.instant < p.end
  {
    PricesOnStepAboveBase(base);
  }

  lemma PricesOrderedSmall(base: Rupees)
    requires base < 50
    ensures var p := PricesFor(base);
            p.start < p.instant < p.end <==> 47 <= base || SmallButOrdered(base)
    ensures var p := PricesFor(base);
            p.start < p.instant <==> 47 <= base || SmallButOrdered(base)
  {
    PricesOnStepAboveBase(base);
    var p := PricesFor(base);
    SmallSteps(base, p.start / STEP, p.instant / STEP, p.end / STEP);
  }

  /** The same counted in steps of Rs 5. */
  lemma SmallSteps(base: int, s: int, i: int, e: int)
    requires 0 < base < 50
    requires base * 120 <= s * STEP < base * 120 + STEP
    requires i * STEP <= base * 140 < i * STEP + STEP
    requires e * STEP <= base * 160 < e * STEP + STEP
    ensures s < i <==> 47 <= base || SmallButOrdered(base)
    ensures s < i ==> i < e
  {
  }

  /** A lot whose base price is one rupee: bidding starts at Rs 5, above an Instant
      Buy price of nothing, so that Instant Buy is never on offer. */
  lemma InstantBuyNotAlwaysAboveStart()
    ensures BiddingStartPrice(1) == 500 && InstantBuyPrice(1) == 0
  {
  }
}
