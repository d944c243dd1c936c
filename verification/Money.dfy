/** Amounts of money, in paisa (1 rupee = 100 paisa), and the rounding to Rs 5.

    Stored amounts are whole paisa, because every amount column is a
    decimal with two places.  The bounds computed from the configured
    increments are exact fractions of a paisa, so they are `real`.
 */
module Money {

  type Paisa = int

  /** Rs 5: every bid and every computed price is a multiple of it. */
  const STEP: Paisa := 500

  predicate OnStep(amount: Paisa) {
    amount % STEP == 0
  }

  /** The least multiple of Rs 5 that is not below `x`. */
  function RoundUpToStep(x: real): (r: Paisa)
    ensures OnStep(r) && x <= r as real < x + STEP as real
  {
    -((-x / STEP as real).Floor) * STEP
  }

  /** The greatest multiple of Rs 5 that is not above `x`. */
  function RoundDownToStep(x: real): (r: Paisa)
    ensures OnStep(r) && r as real <= x < r as real + STEP as real
  {
    (x / STEP as real).Floor * STEP
  }

  /** An amount on the step lies at or above `x` exactly when it lies at or
      above `x` rounded up: rounding a minimum never weakens or tightens it. */
  lemma RoundUpIsSharp(x: real, amount: Paisa)
    requires OnStep(amount)
    ensures x <= amount as real <==> RoundUpToStep(x) <= amount
  {
    var r := RoundUpToStep(x);
    if amount < r {
      OnStepGap(amount, r);
    }
  }

  /** The mirror image for a maximum. */
  lemma RoundDownIsSharp(x: real, amount: Paisa)
    requires OnStep(amount)
    ensures amount as real <= x <==> amount <= RoundDownToStep(x)
  {
    var r := RoundDownToStep(x);
    if r < amount {
      OnStepGap(r, amount);
    }
  }

  /** Two different amounts on the step are at least one step apart. */
  lemma OnStepGap(a: Paisa, b: Paisa)
    requires OnStep(a) && OnStep(b) && a < b
    ensures a + STEP <= b
  {
  }
}
