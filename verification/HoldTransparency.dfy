/** An Instant Buy hold freezes the auction and then, unless it is paid, leaves
    it as it was: same status, leader and price, and exactly the bidding time
    that remained.  A buyer can let one such hold run out, not two. */
module HoldTransparency {
  import opened AuctionRows
  import opened AuctionQueries
  import opened AuctionSteps
  import opened Leaderboard
  import opened AuctionInvariant
  import opened HoldProofs
  import opened CascadeProofs
  import opened SettlementProofs
  import opened AuctionRuns
  import Pricing

  // ---- What a hold leads to

  /** The hold is in force and nothing it froze has moved; only payments and the
      clock may have. */
  predicate Frozen(h: Lot, s: Lot) {
    s.product == h.product && s.bids == h.bids && s.rounds == h.rounds
  }

  /** The auction goes on where it stood, with the same time left. */
  predicate Resumed(p: Product, heldAt: Time, p': Product, now: Time) {
    && p' == p.(endsAt := p'.endsAt)
    && (p.endsAt.None? <==> p'.endsAt.None?)
    && (p.endsAt.Some? ==> p'.endsAt.value - now == p.endsAt.value - heldAt)
  }

  /** As if the hold had never been. */
  predicate Undone(s: Lot, heldAt: Time, s': Lot, now: Time) {
    Resumed(s.product, heldAt, s'.product, now) && s'.bids == s.bids && s'.rounds == s.rounds
  }

  /** The hold's bid and its expired round stay behind, as history. */
  predicate Retired(s: Lot, heldAt: Time, h: Lot, payment: BidPayment, s': Lot, now: Time) {
    && Resumed(s.product, heldAt, s'.product, now)
    && h.bids != [] && h.rounds != []
    && s'.bids == s.bids + [h.bids[|h.bids| - 1].(responsible := false, payment := payment)]
    && s'.rounds == s.rounds + [h.rounds[|h.rounds| - 1].(status := RoundExpired, resolvedAt := Some(now))]
  }

  /** Sold to the buyer at the Instant Buy price. */
  predicate Bought(s: Lot, buyer: UserId, s': Lot) {
    && s'.product.status == Settled && s'.product.settledAmount == Some(s.product.instant)
    && s'.product.leader == Some(buyer) && s'.product.highest == Some(s.product.instant)
    && |s'.bids| == |s.bids| + 1 && s'.product.winningBid == Some(s'.bids[|s.bids|].offer.id)
    && s'.bids[|s.bids|].offer.bidder == buyer
  }

  /** A payment reported without a round, or for this one. */
  predicate For(expected: Option<RowId>, id: RowId) {
    expected.None? || expected.value == id
  }

  /** Transaction `e` on lot `c` ends hold `h`. */
  predicate EndsHold(h: Lot, c: Lot, e: Event) {
    && h.rounds != []
    && var round := h.rounds[|h.rounds| - 1];
       match e.step
       case StepReleaseHold(expected) => For(expected, round.id)
       case StepConfirmGateway(expected) => For(expected, round.id)
       case StepPaymentExpiry => round.deadline <= c.clock + e.elapsed
       case _ => false
  }

  /** What transaction `e` makes of a lot on hold: `s` is the lot before the
      hold, `h` with the hold fresh, `c` and `c'` before and after `e`. */
  ghost predicate HoldStepped(s: Lot, buyer: UserId, heldAt: Time, h: Lot, c: Lot, e: Event, c': Lot) {
    var now := c.clock + e.elapsed;
    if !EndsHold(h, c, e) then Frozen(h, c')
    else match e.step
      case StepReleaseHold(_) =>
        if exists i :: 0 <= i < |c.payments| && c.payments[i].roundId == h.rounds[|h.rounds| - 1].id
        then Retired(s, heldAt, h, NotResponsible, c', now)
        else Undone(s, heldAt, c', now)
      case StepPaymentExpiry => Retired(s, heldAt, h, Expired, c', now)
      case _ => Bought(s, buyer, c')
  }

  // ---- One transaction on a lot on hold

  /** How a lot and the lot with the hold fresh differ. */
  lemma HoldStarts(cfg: Config, s: Lot, buyer: UserId, heldAt: Time, h: Lot)
    requires StartHold(cfg, s, buyer, heldAt) == Done(h)
    ensures |h.bids| == |s.bids| + 1 && h.bids[..|s.bids|] == s.bids
    ensures |h.rounds| == |s.rounds| + 1 && h.rounds[..|s.rounds|] == s.rounds
    ensures h.product == s.product.(status := AwaitingInstantBuy)
    ensures var o := h.bids[|s.bids|].offer;
            o.bidder == buyer && o.amount == s.product.instant && o.placedAt == heldAt && o.instant
    ensures h.rounds[|s.rounds|].deadline == heldAt + cfg.holdMs
    ensures !AttemptSpent(h.bids, buyer)
  {
  }

  /** Who can start a hold on an open lot: anyone but the owner who has let none
      run out, as long as bidding stands below the Instant Buy price.  Before the
      first bid that depends on the base price alone: on lots priced the other
      way round Instant Buy is never on offer. */
  lemma HoldOfferedIff(cfg: Config, s: Lot, buyer: UserId, now: Time)
    requires Inv(cfg, s) && (s.product.status == AwaitingFirstBid || s.product.status == Active)
    ensures StartHold(cfg, s, buyer, now).Done? <==>
              && buyer != s.product.owner
              && (forall i :: 0 <= i < |s.bids| && s.bids[i].offer.bidder == buyer && s.bids[i].offer.instant ==>
                    s.bids[i].payment != Expired)
              && if s.product.status == Active
                 then s.product.highest.Some? && s.product.highest.value < s.product.instant
                 else 47 <= s.product.base || Pricing.SmallButOrdered(s.product.base)
  {
    Pricing.PricesOrdered(s.product.base);
    NobodyOwesYet(cfg, s);
    hide Inv, Pricing.SmallButOrdered;
  }

  /** The rows a hold leaves: its bid and its round, both due when the hold ends. */
  lemma HoldRecorded(cfg: Config, s: Lot, buyer: UserId, now: Time, s': Lot)
    requires StartHold(cfg, s, buyer, now) == Done(s')
    ensures var due := now + cfg.holdMs;
            && s'.bids == s.bids + [Bid(Offer(s.nextId, buyer, s.product.instant, now, true), s.product.highest,
                                        s.product.highest == None, true, 0, true, Pending, Some(due), None, None)]
            && s'.rounds == s.rounds + [Round(s.nextId + 1, Ticket(s.nextId, buyer, s.product.instant, 0),
                                              PendingPayment, due, None)]
            && s'.product == s.product.(status := AwaitingInstantBuy) && s'.payments == s.payments
  {
    hide AttemptSpent, Responsible;
  }

  /** Why a hold is refused: the first of these that applies. */
  lemma HoldRejectedBecause(cfg: Config, s: Lot, buyer: UserId, now: Time)
    requires Inv(cfg, s)
    ensures var outcome, p := StartHold(cfg, s, buyer, now), s.product;
            var open := p.status == AwaitingFirstBid || p.status == Active;
            var price := if p.highest.Some? then p.highest.value else p.start;
            && (outcome == Rejected(NotOpenForInstantBuy) <==> !open)
            && (outcome == Rejected(OwnProduct) <==> open && buyer == p.owner)
            && (outcome == Rejected(InstantBuyGone) <==> open && buyer != p.owner && price >= p.instant)
            && (outcome == Rejected(AttemptExpired) <==>
                  && open && buyer != p.owner && price < p.instant
                  && exists i :: 0 <= i < |s.bids| && s.bids[i].offer.bidder == buyer
                                 && s.bids[i].offer.instant && s.bids[i].payment == Expired)
  {
    if s.product.status == AwaitingFirstBid || s.product.status == Active {
      NobodyOwesYet(cfg, s);
    }
    hide Inv, PricesSet;
  }

  lemma NobodyOwesYet(cfg: Config, s: Lot)
    requires Inv(cfg, s) && (s.product.status == AwaitingFirstBid || s.product.status == Active)
    ensures Responsible(s.bids) == None && PricesSet(s.product)
    ensures s.product.highest.None? <==> s.product.status == AwaitingFirstBid
  {
  }

  /** Reopening undoes what the hold did to the product row. */
  lemma Reopens(s: Lot, heldAt: Time, bids: seq<Bid>, now: Time, os: seq<Offer>, rs: seq<Offer>)
    requires rs == Reals(Offers(bids))
    requires ProductRow(s.product, s.bids, rs, -1)
    requires s.product.status == AwaitingFirstBid || s.product.status == Active
    ensures Resumed(s.product, heldAt, Reopened(s.product.(status := AwaitingInstantBuy), bids, heldAt, now), now)
  {
    ReopenedStatus(s.product.(status := AwaitingInstantBuy), bids, heldAt, now);
  }

  lemma RealsUnchanged(s: Lot, bids: seq<Bid>)
    requires bids == s.bids || (|bids| == |s.bids| + 1 && bids[..|s.bids|] == s.bids && bids[|s.bids|].offer.instant)
    ensures Reals(Offers(bids)) == Reals(Offers(s.bids))
  {
    if bids != s.bids {
      OffersAppend(s.bids, bids[|s.bids|]);
      assert bids == s.bids + [bids[|s.bids|]];
      ProjectionsAppend(Offers(s.bids), bids[|s.bids|].offer);
    }
  }

  lemma OpenRow(cfg: Config, s: Lot)
    requires Inv(cfg, s) && (s.product.status == AwaitingFirstBid || s.product.status == Active)
    ensures ProductRow(s.product, s.bids, Reals(Offers(s.bids)), -1)
  {
  }

  lemma HoldOpens(cfg: Config, s: Lot, buyer: UserId, heldAt: Time, h: Lot)
    requires StartHold(cfg, s, buyer, heldAt) == Done(h)
    ensures s.product.status == AwaitingFirstBid || s.product.status == Active
  {
  }

  lemma RetiredIs(cfg: Config, s: Lot, buyer: UserId, heldAt: Time, h: Lot, c: Lot, payment: BidPayment,
                  c': Lot, now: Time)
    requires Inv(cfg, s) && StartHold(cfg, s, buyer, heldAt) == Done(h)
    requires Frozen(h, c) && HoldRetired(c, payment, now, c')
    ensures Retired(s, heldAt, h, payment, c', now)
  {
    HoldOpens(cfg, s, buyer, heldAt, h);
    hide Inv, StartHold, Offers, ProductRow, Resumed, Reopened;
    HoldStarts(cfg, s, buyer, heldAt, h);
    OpenRow(cfg, s);
    RetiredRows(s, h, c, payment, c', now);
    RealsUnchanged(s, c'.bids);
    Reopens(s, heldAt, c'.bids, now, Offers(s.bids), Reals(Offers(s.bids)));
  }

  lemma RetiredRows(s: Lot, h: Lot, c: Lot, payment: BidPayment, c': Lot, now: Time)
    requires |h.bids| == |s.bids| + 1 && h.bids[..|s.bids|] == s.bids
    requires |h.rounds| == |s.rounds| + 1 && h.rounds[..|s.rounds|] == s.rounds
    requires Frozen(h, c) && HoldRetired(c, payment, now, c')
    ensures c'.bids == s.bids + [h.bids[|s.bids|].(responsible := false, payment := payment)]
    ensures c'.rounds == s.rounds + [h.rounds[|s.rounds|].(status := RoundExpired, resolvedAt := Some(now))]
  {
    hide Reopened;
    assert c'.bids == s.bids + [c'.bids[|s.bids|]];
    assert c'.rounds == s.rounds + [c'.rounds[|s.rounds|]];
  }

  lemma DeletedIs(cfg: Config, s: Lot, buyer: UserId, heldAt: Time, h: Lot, c: Lot, c': Lot, now: Time)
    requires Inv(cfg, s) && StartHold(cfg, s, buyer, heldAt) == Done(h)
    requires Frozen(h, c) && HoldDeleted(c, now, c')
    ensures Undone(s, heldAt, c', now)
  {
    HoldStarts(cfg, s, buyer, heldAt, h);
    OpenRow(cfg, s);
    RealsUnchanged(s, c'.bids);
    Reopens(s, heldAt, c'.bids, now, Offers(s.bids), Reals(Offers(s.bids)));
  }

  /** The facts a lot on hold offers its transactions. */
  lemma HoldFacts(cfg: Config, c: Lot)
    requires Inv(cfg, c) && c.product.status == AwaitingInstantBuy
    ensures var os, ls := Offers(c.bids), Ranking(Offers(c.bids));
            Turns(c) == 0 && Fresh(c) && RoundsFollow(c.rounds, os, 0) && Stage(c, ls, 0)
  {
  }

  lemma ReleaseOnHold(cfg: Config, s: Lot, buyer: UserId, heldAt: Time, h: Lot, c: Lot, expected: Option<RowId>,
                      now: Time)
    requires Inv(cfg, s) && StartHold(cfg, s, buyer, heldAt) == Done(h) && Inv(cfg, c) && Frozen(h, c)
    ensures ReleaseHold(c, expected, now).Done? && h.rounds != []
    ensures var c', id := ReleaseHold(c, expected, now).lot, h.rounds[|h.rounds| - 1].id;
            if !For(expected, id) then Frozen(h, c')
            else if RoundPaidFor(c.payments, id) then Retired(s, heldAt, h, NotResponsible, c', now)
            else Undone(s, heldAt, c', now)
  {
    HoldStarts(cfg, s, buyer, heldAt, h);
    HoldFacts(cfg, c);
    hide Inv, Stage, RoundsFollow, Fresh, StartHold, Offers, Ranking, Retired, Undone;
    ReleaseCases(c, expected, now, Offers(c.bids), Ranking(Offers(c.bids)));
    hide ReleaseHold;
    var c', id := ReleaseHold(c, expected, now).lot, h.rounds[|h.rounds| - 1].id;
    if For(expected, id) {
      if RoundPaidFor(c.payments, id) {
        RetiredIs(cfg, s, buyer, heldAt, h, c, NotResponsible, c', now);
      } else {
        DeletedIs(cfg, s, buyer, heldAt, h, c, c', now);
      }
    }
  }

  lemma ExpiryOnHold(cfg: Config, s: Lot, buyer: UserId, heldAt: Time, h: Lot, c: Lot, now: Time)
    requires Inv(cfg, s) && StartHold(cfg, s, buyer, heldAt) == Done(h) && Inv(cfg, c) && Frozen(h, c)
    ensures PaymentExpiry(cfg, c, now).Done? && h.rounds != []
    ensures var c' := PaymentExpiry(cfg, c, now).lot;
            if h.rounds[|h.rounds| - 1].deadline <= now then Retired(s, heldAt, h, Expired, c', now) else Frozen(h, c')
  {
    HoldStarts(cfg, s, buyer, heldAt, h);
    HoldFacts(cfg, c);
    hide Inv, Stage, RoundsFollow, Fresh, StartHold, Offers, Ranking, Retired, Undone;
    HoldExpires(cfg, c, now, Offers(c.bids), Ranking(Offers(c.bids)));
    hide PaymentExpiry;
    if h.rounds[|h.rounds| - 1].deadline <= now {
      RetiredIs(cfg, s, buyer, heldAt, h, c, Expired, PaymentExpiry(cfg, c, now).lot, now);
    }
  }

  lemma GatewayOnHold(cfg: Config, s: Lot, buyer: UserId, heldAt: Time, h: Lot, c: Lot, expected: Option<RowId>,
                      now: Time)
    requires StartHold(cfg, s, buyer, heldAt) == Done(h) && Inv(cfg, c) && Frozen(h, c)
    ensures h.rounds != []
    ensures if For(expected, h.rounds[|h.rounds| - 1].id)
            then ConfirmGateway(c, expected, now).Done? && Bought(s, buyer, ConfirmGateway(c, expected, now).lot)
            else ConfirmGateway(c, expected, now).Rejected?
  {
    HoldStarts(cfg, s, buyer, heldAt, h);
    HoldFacts(cfg, c);
    hide Inv, Stage, RoundsFollow, Fresh, StartHold, Offers, Ranking;
    GatewaySettles(c, Offers(c.bids), Ranking(Offers(c.bids)), 0, expected, now);
    hide ConfirmGateway;
  }

  /** No cash is outstanding on a lot on hold. */
  lemma RefusalOnHold(cfg: Config, c: Lot, payment: RowId, parcel: Parcel, now: Time)
    requires Inv(cfg, c) && c.product.status == AwaitingInstantBuy
    ensures RefuseCod(c, payment, parcel, now).Rejected?
  {
    assert CashDue(c, Turns(c));
    hide Inv;
  }

  /** The remaining transactions do not touch a lot on hold. */
  lemma OthersOnHold(cfg: Config, c: Lot, step: Step, now: Time)
    requires c.product.status == AwaitingInstantBuy
    requires !step.StepReleaseHold? && !step.StepPaymentExpiry? && !step.StepConfirmGateway? && !step.StepRefuseCod?
    ensures Frozen(c, After(c, Perform(cfg, c, step, now), now))
  {
  }

  lemma ReleaseSteps(cfg: Config, s: Lot, buyer: UserId, heldAt: Time, h: Lot, c: Lot, e: Event, c': Lot)
    requires Inv(cfg, s) && StartHold(cfg, s, buyer, heldAt) == Done(h) && Inv(cfg, c) && Frozen(h, c)
    requires StepTo(cfg, c, e, c') && e.step.StepReleaseHold?
    ensures HoldStepped(s, buyer, heldAt, h, c, e, c')
  {
    hide Inv, StartHold, Retired, Undone, Bought, ReleaseHold, PaymentExpiry, ConfirmGateway, RefuseCod;
    ReleaseOnHold(cfg, s, buyer, heldAt, h, c, e.step.expected, c.clock + e.elapsed);
  }

  lemma ExpirySteps(cfg: Config, s: Lot, buyer: UserId, heldAt: Time, h: Lot, c: Lot, e: Event, c': Lot)
    requires Inv(cfg, s) && StartHold(cfg, s, buyer, heldAt) == Done(h) && Inv(cfg, c) && Frozen(h, c)
    requires StepTo(cfg, c, e, c') && e.step.StepPaymentExpiry?
    ensures HoldStepped(s, buyer, heldAt, h, c, e, c')
  {
    hide Inv, StartHold, Retired, Undone, Bought, ReleaseHold, PaymentExpiry, ConfirmGateway, RefuseCod;
    ExpiryOnHold(cfg, s, buyer, heldAt, h, c, c.clock + e.elapsed);
  }

  lemma GatewaySteps(cfg: Config, s: Lot, buyer: UserId, heldAt: Time, h: Lot, c: Lot, e: Event, c': Lot)
    requires Inv(cfg, s) && StartHold(cfg, s, buyer, heldAt) == Done(h) && Inv(cfg, c) && Frozen(h, c)
    requires StepTo(cfg, c, e, c') && e.step.StepConfirmGateway?
    ensures HoldStepped(s, buyer, heldAt, h, c, e, c')
  {
    hide Inv, StartHold, Retired, Undone, Bought, ReleaseHold, PaymentExpiry, ConfirmGateway, RefuseCod;
    GatewayOnHold(cfg, s, buyer, heldAt, h, c, e.step.expected, c.clock + e.elapsed);
  }

  lemma OtherSteps(cfg: Config, s: Lot, buyer: UserId, heldAt: Time, h: Lot, c: Lot, e: Event, c': Lot)
    requires StartHold(cfg, s, buyer, heldAt) == Done(h) && Inv(cfg, c) && Frozen(h, c)
    requires StepTo(cfg, c, e, c')
    requires !e.step.StepReleaseHold? && !e.step.StepPaymentExpiry? && !e.step.StepConfirmGateway?
    ensures HoldStepped(s, buyer, heldAt, h, c, e, c')
  {
    hide Inv, StartHold, Retired, Undone, Bought, RefuseCod;
    HoldStarts(cfg, s, buyer, heldAt, h);
    if e.step.StepRefuseCod? {
      RefusalOnHold(cfg, c, e.step.payment, e.step.parcel, c.clock + e.elapsed);
    } else {
      hide Perform;
      OthersOnHold(cfg, c, e.step, c.clock + e.elapsed);
    }
  }

  /** A transaction either leaves a hold alone or ends it in one of the four
      ways, and which is decided by the transaction alone. */
  lemma HoldStep(cfg: Config, s: Lot, buyer: UserId, heldAt: Time, h: Lot, c: Lot, e: Event, c': Lot)
    requires Inv(cfg, s) && StartHold(cfg, s, buyer, heldAt) == Done(h) && Inv(cfg, c) && Frozen(h, c)
    requires StepTo(cfg, c, e, c')
    ensures HoldStepped(s, buyer, heldAt, h, c, e, c')
  {
    hide Inv, StartHold, HoldStepped, StepTo, Frozen;
    match e.step
    case StepReleaseHold(_) => ReleaseSteps(cfg, s, buyer, heldAt, h, c, e, c');
    case StepPaymentExpiry => ExpirySteps(cfg, s, buyer, heldAt, h, c, e, c');
    case StepConfirmGateway(_) => GatewaySteps(cfg, s, buyer, heldAt, h, c, e, c');
    case _ => OtherSteps(cfg, s, buyer, heldAt, h, c, e, c');
  }

  // ---- Over a run

  ghost predicate HoldAt(cfg: Config, run: seq<Lot>, es: seq<Event>, a: nat) {
    && a < |es| && a + 1 < |run| && es[a].step.StepStartHold?
    && StartHold(cfg, run[a], es[a].step.buyer, run[a].clock + es[a].elapsed) == Done(run[a + 1])
  }

  /** No transaction from `a + 1` up to `n` ends the hold that transaction `a` started. */
  ghost predicate HeldUntil(run: seq<Lot>, es: seq<Event>, a: nat, n: nat) {
    && a < n < |run| && |run| == |es| + 1
    && forall i :: a < i < n ==> !EndsHold(run[a + 1], run[i], es[i])
  }

  lemma FrozenSelf(s: Lot)
    ensures Frozen(s, s)
  {
  }

  lemma {:induction false} StaysFrozen(cfg: Config, run: seq<Lot>, es: seq<Event>, a: nat, n: nat)
    requires cfg.Valid() && IsRun(cfg, run, es) && Inv(cfg, run[0])
    requires HoldAt(cfg, run, es, a) && HeldUntil(run, es, a, n)
    ensures Frozen(run[a + 1], run[n])
  {
    hide Inv, StepTo, StartHold, Frozen, EndsHold;
    if n == a + 1 {
      FrozenSelf(run[n]);
    } else {
      var m := n - 1;
      StaysFrozen(cfg, run, es, a, m);
      RunKeepsInv(cfg, run, es, a);
      RunKeepsInv(cfg, run, es, m);
      assert Moves(cfg, run, es, m);
      OneMore(cfg, run[a], es[a].step.buyer, run[a].clock + es[a].elapsed, run[a + 1], run[m], es[m], run[n]);
    }
  }

  lemma OneMore(cfg: Config, s: Lot, buyer: UserId, heldAt: Time, h: Lot, c: Lot, e: Event, c': Lot)
    requires Inv(cfg, s) && StartHold(cfg, s, buyer, heldAt) == Done(h) && Inv(cfg, c) && Frozen(h, c)
    requires StepTo(cfg, c, e, c') && !EndsHold(h, c, e)
    ensures Frozen(h, c')
  {
    hide Inv, StepTo, StartHold, Frozen, EndsHold;
    HoldStep(cfg, s, buyer, heldAt, h, c, e, c');
  }

  /** Whatever payments open, fail or expire meanwhile, the lot stays as the
      hold froze it, and the first transaction that ends the hold undoes it,
      retires it or completes it. */
  lemma HoldIsTransparent(cfg: Config, run: seq<Lot>, es: seq<Event>, a: nat, n: nat)
    requires cfg.Valid() && IsRun(cfg, run, es) && Inv(cfg, run[0])
    requires HoldAt(cfg, run, es, a) && HeldUntil(run, es, a, n) && n < |es|
    ensures Frozen(run[a + 1], run[n])
    ensures HoldStepped(run[a], es[a].step.buyer, run[a].clock + es[a].elapsed, run[a + 1], run[n], es[n], run[n + 1])
  {
    hide Inv, StepTo, StartHold, Frozen, EndsHold, HoldStepped;
    StaysFrozen(cfg, run, es, a, n);
    RunKeepsInv(cfg, run, es, a);
    RunKeepsInv(cfg, run, es, n);
    assert Moves(cfg, run, es, n);
    HoldStep(cfg, run[a], es[a].step.buyer, run[a].clock + es[a].elapsed, run[a + 1], run[n], es[n], run[n + 1]);
  }

  // ---- One timeout for one buyer

  predicate TimedOut(b: Bid) {
    b.offer.instant && b.payment == Expired
  }

  predicate Over(p: Product) {
    p.status == Settled || p.status == Abandoned
  }

  /** The buyer can start no hold on this lot any more. */
  predicate Barred(s: Lot, buyer: UserId) {
    AttemptSpent(s.bids, buyer) || Over(s.product)
  }

  ghost predicate KeepsTimeouts(bids: seq<Bid>, bids': seq<Bid>) {
    forall i :: 0 <= i < |bids| && TimedOut(bids[i]) ==> i < |bids'| && bids'[i] == bids[i]
  }

  lemma AttemptStaysSpent(bids: seq<Bid>, bids': seq<Bid>, buyer: UserId)
    requires KeepsTimeouts(bids, bids') && AttemptSpent(bids, buyer)
    ensures AttemptSpent(bids', buyer)
  {
    var i :| 0 <= i < |bids| && bids[i].offer.bidder == buyer && bids[i].offer.instant && bids[i].payment == Expired;
    assert TimedOut(bids[i]);
  }

  /** What a transaction may do as far as timeouts go. */
  ghost predicate BarsOn(s: Lot, s': Lot) {
    && (Over(s.product) ==> Over(s'.product))
    && (Over(s'.product) || KeepsTimeouts(s.bids, s'.bids))
  }

  /** The bid of the hold in force is pending. */
  lemma NewestPending(cfg: Config, s: Lot)
    requires Inv(cfg, s) && s.product.status == AwaitingInstantBuy
    ensures s.bids != [] && s.bids[|s.bids| - 1].payment == Pending && s.bids[|s.bids| - 1].offer.instant
  {
  }

  lemma ReleaseBars(cfg: Config, s: Lot, expected: Option<RowId>, now: Time)
    requires Inv(cfg, s)
    ensures ReleaseHold(s, expected, now).Done? && BarsOn(s, ReleaseHold(s, expected, now).lot)
  {
    hide Inv, Stage, RoundsFollow, Fresh, Offers, Ranking;
    if s.product.status == AwaitingInstantBuy {
      HeldReleaseBars(cfg, s, expected, now, ReleaseHold(s, expected, now));
    }
  }

  lemma HeldReleaseBars(cfg: Config, s: Lot, expected: Option<RowId>, now: Time, outcome: Outcome)
    requires Inv(cfg, s) && s.product.status == AwaitingInstantBuy && outcome == ReleaseHold(s, expected, now)
    ensures outcome.Done? && BarsOn(s, outcome.lot)
  {
    hide Inv, Stage, RoundsFollow, Fresh, Offers, Ranking, ReleaseHold, RoundPaidFor;
    HoldFacts(cfg, s);
    NewestPending(cfg, s);
    var os := Offers(s.bids);
    ReleaseCases(s, expected, now, os, Ranking(os));
  }

  lemma HoldExpiryBars(cfg: Config, s: Lot, now: Time)
    requires Inv(cfg, s) && s.product.status == AwaitingInstantBuy
    ensures PaymentExpiry(cfg, s, now).Done? && BarsOn(s, PaymentExpiry(cfg, s, now).lot)
  {
    var os := Offers(s.bids);
    HoldFacts(cfg, s);
    NewestPending(cfg, s);
    hide Inv, Stage, RoundsFollow, Fresh, Offers, Ranking;
    HoldExpires(cfg, s, now, os, Ranking(os));
    hide PaymentExpiry;
  }

  lemma TurnExpiryBars(cfg: Config, s: Lot, now: Time)
    requires cfg.Valid() && Inv(cfg, s) && s.product.status != AwaitingInstantBuy
    ensures PaymentExpiry(cfg, s, now).Done? && BarsOn(s, PaymentExpiry(cfg, s, now).lot)
  {
    hide PaymentExpiry;
    var os, ls, k := Offers(s.bids), Ranking(Offers(s.bids)), Turns(s);
    if TurnOverdue(s, now) {
      ExpiryFollowsRanking(cfg, s, now, os, Reals(os), ls, k);
      hide Inv;
    } else {
      NothingOverdue(cfg, s, now, os, ls, k);
      hide Inv;
    }
  }

  lemma ExpiryBars(cfg: Config, s: Lot, now: Time)
    requires cfg.Valid() && Inv(cfg, s)
    ensures PaymentExpiry(cfg, s, now).Done? && BarsOn(s, PaymentExpiry(cfg, s, now).lot)
  {
    hide Inv, PaymentExpiry, BarsOn;
    if s.product.status == AwaitingInstantBuy {
      HoldExpiryBars(cfg, s, now);
    } else {
      TurnExpiryBars(cfg, s, now);
    }
  }

  lemma CloseBars(cfg: Config, s: Lot, now: Time)
    requires cfg.Valid() && Inv(cfg, s)
    ensures CloseIfExpired(cfg, s, now).Done? && BarsOn(s, CloseIfExpired(cfg, s, now).lot)
  {
    if s.product.status == Active && ShouldClose(s.product, now) {
      var os := Offers(s.bids);
      ClosesToFirst(cfg, s, now, os, Reals(os), Ranking(os));
      hide Inv, CloseIfExpired, Offers, Ranking;
    }
  }

  lemma OtherBars(cfg: Config, s: Lot, step: Step, now: Time)
    requires !step.StepReleaseHold? && !step.StepPaymentExpiry? && !step.StepCloseIfExpired?
    ensures BarsOn(s, After(s, Perform(cfg, s, step, now), now))
  {
  }

  lemma StepBars(cfg: Config, s: Lot, e: Event, s': Lot)
    requires cfg.Valid() && Inv(cfg, s) && StepTo(cfg, s, e, s')
    ensures BarsOn(s, s')
  {
    hide Inv, BarsOn;
    var now := s.clock + e.elapsed;
    match e.step
    case StepCloseIfExpired => hide CloseIfExpired; CloseBars(cfg, s, now);
    case StepReleaseHold(expected) => hide ReleaseHold; ReleaseBars(cfg, s, expected, now);
    case StepPaymentExpiry => hide PaymentExpiry; ExpiryBars(cfg, s, now);
    case _ => hide Perform; OtherBars(cfg, s, e.step, now);
  }

  lemma {:induction false} BarredForGood(cfg: Config, run: seq<Lot>, es: seq<Event>, i: nat, j: nat, buyer: UserId)
    requires cfg.Valid() && IsRun(cfg, run, es) && Inv(cfg, run[0]) && i <= j < |run|
    requires Barred(run[i], buyer)
    ensures Barred(run[j], buyer)
  {
    hide Inv, StepTo, AttemptSpent, KeepsTimeouts;
    if i < j {
      BarredForGood(cfg, run, es, i, j - 1, buyer);
      RunKeepsInv(cfg, run, es, j - 1);
      assert Moves(cfg, run, es, j - 1);
      StepBars(cfg, run[j - 1], es[j - 1], run[j]);
      if AttemptSpent(run[j - 1].bids, buyer) && !Over(run[j].product) {
        AttemptStaysSpent(run[j - 1].bids, run[j].bids, buyer);
      }
    }
  }

  /** The holder has let no earlier hold run out. */
  predicate HolderUnspent(s: Lot) {
    s.product.status == AwaitingInstantBuy ==> s.bids != [] && !AttemptSpent(s.bids, s.bids[|s.bids| - 1].offer.bidder)
  }

  /** A lot gets on hold only through StartHold. */
  lemma OnHoldOnlyThrough(cfg: Config, s: Lot, e: Event, s': Lot)
    requires StepTo(cfg, s, e, s') && !e.step.StepStartHold? && s.product.status != AwaitingInstantBuy
    ensures s'.product.status != AwaitingInstantBuy
  {
    hide Top, Responsible, RoundOf;
  }

  lemma ReleaseOrHeld(cfg: Config, s: Lot, expected: Option<RowId>, now: Time)
    requires Inv(cfg, s) && s.product.status == AwaitingInstantBuy
    ensures ReleaseHold(s, expected, now).Done?
    ensures var s' := ReleaseHold(s, expected, now).lot; s'.product.status != AwaitingInstantBuy || s'.bids == s.bids
  {
    hide Inv, Stage, RoundsFollow, Fresh, Offers, Ranking, ReleaseHold, RoundPaidFor;
    HoldFacts(cfg, s);
    ReleaseCases(s, expected, now, Offers(s.bids), Ranking(Offers(s.bids)));
  }

  lemma ExpiryOrHeld(cfg: Config, s: Lot, now: Time)
    requires Inv(cfg, s) && s.product.status == AwaitingInstantBuy
    ensures PaymentExpiry(cfg, s, now).Done?
    ensures var s' := PaymentExpiry(cfg, s, now).lot;
            s' == s.(clock := now) || (HoldRetired(s, Expired, now, s') && s'.product.status != AwaitingInstantBuy)
  {
    HoldFacts(cfg, s);
    hide Inv, Stage, RoundsFollow, Fresh, Offers, Ranking;
    HoldExpires(cfg, s, now, Offers(s.bids), Ranking(Offers(s.bids)));
    hide PaymentExpiry;
  }

  lemma HolderStep(cfg: Config, s: Lot, e: Event, s': Lot)
    requires Inv(cfg, s) && StepTo(cfg, s, e, s') && HolderUnspent(s)
    ensures HolderUnspent(s')
  {
    hide Inv, HolderUnspent, StepTo;
    if e.step.StepStartHold? {
      HoldUnspent(cfg, s, e, s');
    } else if s.product.status == AwaitingInstantBuy {
      HeldStep(cfg, s, e, s');
    } else {
      OnHoldOnlyThrough(cfg, s, e, s');
      NotHeldUnspent(s');
    }
  }

  lemma NotHeldUnspent(s: Lot)
    requires s.product.status != AwaitingInstantBuy
    ensures HolderUnspent(s)
  {
  }

  lemma HoldUnspent(cfg: Config, s: Lot, e: Event, s': Lot)
    requires StepTo(cfg, s, e, s') && e.step.StepStartHold? && HolderUnspent(s)
    ensures HolderUnspent(s')
  {
    var now := s.clock + e.elapsed;
    if StartHold(cfg, s, e.step.buyer, now).Done? {
      HoldStarts(cfg, s, e.step.buyer, now, s');
    }
  }

  /** A transaction on a lot on hold ends it or leaves the bids as they are. */
  lemma HeldStep(cfg: Config, s: Lot, e: Event, s': Lot)
    requires Inv(cfg, s) && StepTo(cfg, s, e, s') && HolderUnspent(s) && s.product.status == AwaitingInstantBuy
    ensures HolderUnspent(s')
  {
    hide Inv, AttemptSpent, ReleaseHold, PaymentExpiry, HoldRetired;
    var now := s.clock + e.elapsed;
    if e.step.StepReleaseHold? {
      ReleaseOrHeld(cfg, s, e.step.expected, now);
    } else if e.step.StepPaymentExpiry? {
      ExpiryOrHeld(cfg, s, now);
    } else {
      hide Perform;
      OnHoldOthers(cfg, s, e.step, now);
    }
  }

  lemma OnHoldOthers(cfg: Config, s: Lot, step: Step, now: Time)
    requires s.product.status == AwaitingInstantBuy && !step.StepReleaseHold? && !step.StepPaymentExpiry?
    ensures var s' := After(s, Perform(cfg, s, step, now), now);
            s'.product.status != AwaitingInstantBuy || s'.bids == s.bids
  {
  }

  lemma {:induction false} HolderNeverSpent(cfg: Config, run: seq<Lot>, es: seq<Event>, i: nat)
    requires cfg.Valid() && IsRun(cfg, run, es) && Inv(cfg, run[0]) && HolderUnspent(run[0]) && i < |run|
    ensures HolderUnspent(run[i])
  {
    hide Inv, StepTo, HolderUnspent;
    if i > 0 {
      HolderNeverSpent(cfg, run, es, i - 1);
      RunKeepsInv(cfg, run, es, i - 1);
      assert Moves(cfg, run, es, i - 1);
      HolderStep(cfg, run[i - 1], es[i - 1], run[i]);
    }
  }

  /** Transaction `i` of the run finds this buyer's hold past its deadline. */
  ghost predicate TimesOut(cfg: Config, run: seq<Lot>, es: seq<Event>, i: nat, buyer: UserId) {
    && i < |es| && i + 1 < |run| && es[i].step == StepPaymentExpiry
    && run[i].product.status == AwaitingInstantBuy && run[i + 1].product.status != AwaitingInstantBuy
    && run[i].bids != [] && run[i].bids[|run[i].bids| - 1].offer.bidder == buyer
  }

  lemma TimeoutBars(cfg: Config, s: Lot, e: Event, s': Lot)
    requires Inv(cfg, s) && StepTo(cfg, s, e, s') && e.step == StepPaymentExpiry
    requires s.product.status == AwaitingInstantBuy && s'.product.status != AwaitingInstantBuy && s.bids != []
    ensures AttemptSpent(s'.bids, s.bids[|s.bids| - 1].offer.bidder)
  {
    hide Inv, PaymentExpiry, Reopened;
    NewestPending(cfg, s);
    ExpiryOrHeld(cfg, s, s.clock + e.elapsed);
    assert s'.bids[|s.bids| - 1].payment == Expired;
  }

  /** In a run from the listing on, a buyer lets at most one hold on the lot run out. */
  lemma OneTimeoutEach(cfg: Config, run: seq<Lot>, es: seq<Event>, i: nat, j: nat, buyer: UserId)
    requires cfg.Valid() && IsRun(cfg, run, es) && StartsListed(run)
    requires TimesOut(cfg, run, es, i, buyer) && TimesOut(cfg, run, es, j, buyer)
    ensures i == j
  {
    hide Inv, StepTo, AttemptSpent, Listed;
    var owner: UserId, base, since: Time :| run[0] == Listed(owner, base, since);
    ListedInv(cfg, owner, base, since);
    ListedUnheld(owner, base, since);
    var first, second := if i < j then i else j, if i < j then j else i;
    if first < second {
      RunKeepsInv(cfg, run, es, first);
      assert Moves(cfg, run, es, first);
      TimeoutBars(cfg, run[first], es[first], run[first + 1]);
      BarredForGood(cfg, run, es, first + 1, second, buyer);
      HolderNeverSpent(cfg, run, es, second);
      assert false;
    }
  }

  lemma ListedUnheld(owner: UserId, base: Pricing.Rupees, since: Time)
    ensures HolderUnspent(Listed(owner, base, since))
  {
  }
}
