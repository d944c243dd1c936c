/** What a seller is paid for a sale: the commission bands and the payout. */
module Commission {
  import opened Money

  datatype Tier = Bronze | Silver | Gold | Platinum | Diamond

  /** `percent` is the seller's share of the profit from `min` points on. */
  datatype Band = Band(min: int, tier: Tier, percent: nat)

  const COMMISSION_BANDS: seq<Band> := [
    Band(0, Bronze, 20),
    Band(500, Bronze, 25),
    Band(1000, Bronze, 30),
    Band(1500, Silver, 35),
    Band(2000, Silver, 40),
    Band(2500, Silver, 45),
    Band(3000, Gold, 50),
    Band(4000, Gold, 55),
    Band(5000, Gold, 60),
    Band(6500, Platinum, 65),
    Band(8000, Platinum, 70),
    Band(10000, Platinum, 75),
    Band(12500, Diamond, 80),
    Band(15000, Diamond, 90),
    Band(20000, Diamond, 100)
  ]

  // ---- Resolving a band

  /** Band `i` is the last one whose minimum the points meet; a balance below
      every minimum still gets the first. */
  ghost predicate Governs(bands: seq<Band>, points: int, i: nat) {
    && i < |bands|
    && (i == 0 || bands[i].min <= points)
    && forall j :: i < j < |bands| ==> points < bands[j].min
  }

  ghost predicate Sorted(bands: seq<Band>) {
    forall i, j :: 0 <= i < j < |bands| ==> bands[i].min < bands[j].min && bands[i].percent < bands[j].percent
  }

  /** The position of the governing band: how many later minimums are met. */
  function Level(bands: seq<Band>, points: int): (i: nat)
    ensures bands != [] ==> i < |bands|
  {
    if |bands| <= 1 then 0
    else if points >= bands[|bands| - 1].min then |bands| - 1
    else Level(bands[..|bands| - 1], points)
  }

  /** It is the governing one, and the only one. */
  lemma {:induction false} LevelGoverns(bands: seq<Band>, points: int, i: nat)
    requires bands != []
    ensures Governs(bands, points, i) <==> i == Level(bands, points)
  {
    var n := |bands| - 1;
    if n > 0 && points < bands[n].min {
      LevelGoverns(bands[..n], points, i);
      assert forall j :: 0 <= j < n ==> bands[..n][j] == bands[j];
    }
  }

  /** More points never mean a lower band. */
  lemma LevelRises(bands: seq<Band>, points: int, more: int)
    requires bands != [] && points <= more
    ensures Level(bands, points) <= Level(bands, more)
  {
    LevelGoverns(bands, points, Level(bands, points));
    LevelGoverns(bands, more, Level(bands, more));
  }

  /** Scans upwards and stops at the first minimum not met. */
  method ResolveBand(bands: seq<Band>, points: int) returns (band: Band)
    requires bands != [] && Sorted(bands)
    ensures band == bands[Level(bands, points)]
  {
    band := bands[0];
    ghost var level := 0;
    var k := 0;
    while k < |bands|
      invariant 0 <= k <= |bands| && level < |bands| && band == bands[level]
      invariant level == 0 || bands[level].min <= points
      invariant level == if k == 0 then 0 else if points < bands[0].min then 0 else k - 1
    {
      if points >= bands[k].min {
        band, level := bands[k], k;
      } else {
        break;
      }
      k := k + 1;
    }
    LevelGoverns(bands, points, level);
  }

  lemma BandsSorted()
    ensures Sorted(COMMISSION_BANDS)
  {
  }

  function BandOf(points: int): Band {
    COMMISSION_BANDS[Level(COMMISSION_BANDS, points)]
  }

  method ResolveTierAndCommission(points: int) returns (tier: Tier, percent: nat)
    ensures tier == BandOf(points).tier && percent == BandOf(points).percent
  {
    BandsSorted();
    var band := ResolveBand(COMMISSION_BANDS, points);
    return band.tier, band.percent;
  }

  lemma SharesRise(points: int, more: int)
    requires points <= more
    ensures 20 <= BandOf(points).percent <= BandOf(more).percent <= 100
  {
    BandsSorted();
    LevelRises(COMMISSION_BANDS, points, more);
  }

  /** The table by which points give tier and share. */
  lemma ShareTable(points: int)
    ensures BandOf(points).percent ==
            if points < 500 then 20 else if points < 1000 then 25 else if points < 1500 then 30
            else if points < 2000 then 35 else if points < 2500 then 40 else if points < 3000 then 45
            else if points < 4000 then 50 else if points < 5000 then 55 else if points < 6500 then 60
            else if points < 8000 then 65 else if points < 10000 then 70 else if points < 12500 then 75
            else if points < 15000 then 80 else if points < 20000 then 90 else 100
    ensures BandOf(points).tier ==
            if points < 1500 then Bronze else if points < 3000 then Silver else if points < 6500 then Gold
            else if points < 12500 then Platinum else Diamond
  {
    var i := Level(COMMISSION_BANDS, points);
    LevelGoverns(COMMISSION_BANDS, points, i);
    hide Level;
    assert i > 0 ==> COMMISSION_BANDS[i].min <= points;
    assert i < 14 ==> points < COMMISSION_BANDS[i + 1].min;
  }

  // ---- The payout

  /** Rounded half up to a whole paisa. */
  function RoundPaisa(x: real): (r: Paisa)
    ensures r as real - 0.5 <= x < r as real + 0.5
  {
    (x + 0.5).Floor
  }

  function Share(percent: nat, profit: Paisa): real {
    percent as real / 100.0 * profit as real
  }

  function Payout(base: Paisa, amount: Paisa, points: int): Paisa {
    RoundPaisa(base as real + Share(BandOf(points).percent, amount - base))
  }

  /** One percent of the amount, in whole rupees. */
  function PointsEarned(amount: Paisa): int {
    (0.01 * (amount as real / 100.0) + 0.5).Floor
  }

  /** Points are a hundredth of the rupees paid, to the nearest whole one and
      rounded up at the half. */
  lemma PointsAreOnePercent(amount: Paisa)
    ensures var points := PointsEarned(amount); 10000 * points - 5000 <= amount < 10000 * points + 5000
  {
  }

  /** The payout is the base price and the seller's share of the profit, to the
      nearest paisa and rounded up at the half. */
  ghost predicate PaysShare(base: Paisa, amount: Paisa, percent: nat, payout: Paisa) {
    -50 < 100 * (payout - base) - percent * (amount - base) <= 50
  }

  lemma PayoutIsShare(base: Paisa, amount: Paisa, points: int)
    ensures PaysShare(base, amount, BandOf(points).percent, Payout(base, amount, points))
  {
    var percent, profit := BandOf(points).percent, amount - base;
    hide BandOf;
    assert 100.0 * Share(percent, profit) == (percent * profit) as real;
  }

  lemma RoundingRises(x: real, y: real)
    requires x <= y
    ensures RoundPaisa(x) <= RoundPaisa(y)
  {
  }

  lemma WholePaisa(x: Paisa)
    ensures RoundPaisa(x as real) == x
  {
  }

  lemma ShareBounds(percent: nat, more: nat, profit: Paisa)
    requires percent <= more <= 100 && 0 <= profit
    ensures 0.0 <= Share(percent, profit) <= Share(more, profit) <= profit as real
  {
    var x, y, p := percent as real / 100.0, more as real / 100.0, profit as real;
    TimesRises(0.0, x, p);
    TimesRises(x, y, p);
    TimesRises(y, 1.0, p);
    assert 1.0 * p == p;
  }

  lemma TimesRises(x: real, y: real, p: real)
    requires x <= y && 0.0 <= p
    ensures x * p <= y * p
  {
  }

  /** A sale at or above the base price pays the seller at least the base price,
      at most the sale amount, and never less for more points. */
  lemma PayoutBounds(base: Paisa, amount: Paisa, points: int, more: int)
    requires base <= amount && points <= more
    ensures base <= Payout(base, amount, points) <= Payout(base, amount, more) <= amount
  {
    hide Share, RoundPaisa, BandOf;
    SharesRise(points, more);
    var low, high := Share(BandOf(points).percent, amount - base), Share(BandOf(more).percent, amount - base);
    ShareBounds(BandOf(points).percent, BandOf(more).percent, amount - base);
    RoundingRises(base as real, base as real + low);
    RoundingRises(base as real + low, base as real + high);
    RoundingRises(base as real + high, amount as real);
    WholePaisa(base);
    WholePaisa(amount);
  }

  /** From 20000 points on the seller keeps everything; without points, a fifth
      of the profit, to within half a paisa. */
  lemma PayoutExtremes(base: Paisa, amount: Paisa, points: int)
    requires base <= amount
    ensures 20000 <= points ==> Payout(base, amount, points) == amount
    ensures points < 500 ==> -50 <= 100 * (Payout(base, amount, points) - base) - 20 * (amount - base) <= 50
  {
    LevelGoverns(COMMISSION_BANDS, points, 14);
    LevelGoverns(COMMISSION_BANDS, points, 0);
    if 20000 <= points {
      assert Governs(COMMISSION_BANDS, points, 14);
      WholePaisa(amount);
    } else if points < 500 {
      assert Governs(COMMISSION_BANDS, points, 0);
    }
  }
}
