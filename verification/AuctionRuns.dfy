/** Runs of the auction, and the invariant in every lot a run reaches. */
module AuctionRuns {
  import opened AuctionRows
  import opened AuctionSteps
  import opened AuctionInvariant
  import opened BiddingProofs
  import opened HoldProofs
  import opened CascadeProofs
  import opened SettlementProofs
  import Pricing

  // ---- The invariant over runs

  lemma ListedInv(cfg: Config, owner: UserId, base: Pricing.Rupees, now: Time)
    ensures Inv(cfg, Listed(owner, base, now))
  {
  }

  lemma StepKeepsInv(cfg: Config, s: Lot, step: Step, now: Time, s': Lot)
    requires cfg.Valid() && Inv(cfg, s) && s.clock <= now && Perform(cfg, s, step, now) == Done(s')
    ensures Inv(cfg, s')
  {
    hide Inv, PlaceBid, CloseIfExpired, StartHold, ReleaseHold, PaymentExpiry, ConfirmManual, ConfirmCod;
    hide ConfirmGateway, RefuseCod, OpenPayment, GatewayReport, CollectCod, Reprice;
    match step
    case StepPlaceBid(user, amount, openElsewhere) => PlaceBidKeepsInv(cfg, s, user, amount, openElsewhere, now);
    case StepCloseIfExpired => CloseKeepsInv(cfg, s, now);
    case StepStartHold(buyer) => StartHoldKeepsInv(cfg, s, buyer, now);
    case StepReleaseHold(expected) => ReleaseHoldKeepsInv(cfg, s, expected, now);
    case StepPaymentExpiry => ExpiryKeepsInv(cfg, s, now);
    case StepConfirmManual(addressOk) => ConfirmManualKeepsInv(cfg, s, addressOk, now);
    case StepConfirmCod(buyer, addressOk) => ConfirmCodKeepsInv(cfg, s, buyer, addressOk, now);
    case StepConfirmGateway(expected) => ConfirmGatewayKeepsInv(cfg, s, expected, now);
    case StepRefuseCod(payment, parcel) => RefuseCodKeepsInv(cfg, s, payment, parcel, now);
    case StepOpenPayment(round) => OpenPaymentKeepsInv(cfg, s, round, now);
    case StepGatewayReport(payment, report) => GatewayReportKeepsInv(cfg, s, payment, report, now);
    case StepCollectCod(payment) => CollectCodKeepsInv(cfg, s, payment, now);
    case StepReprice(base) => RepriceKeepsInv(cfg, s, base, now);
  }

  lemma OutcomeInv(cfg: Config, s: Lot, step: Step, now: Time, outcome: Outcome, s': Lot)
    requires cfg.Valid() && Inv(cfg, s) && s.clock <= now && outcome == Perform(cfg, s, step, now)
    requires s' == After(s, outcome, now)
    ensures Inv(cfg, s')
  {
    hide Inv, Perform;
    match outcome
    case Done(_) => StepKeepsInv(cfg, s, step, now, s');
    case Rejected(_) => TimePasses(cfg, s, now);
  }

  /** One transaction takes the lot from `s` to `s'`. */
  ghost predicate StepTo(cfg: Config, s: Lot, e: Event, s': Lot) {
    s' == After(s, Perform(cfg, s, e.step, s.clock + e.elapsed), s.clock + e.elapsed)
  }

  lemma StepToInv(cfg: Config, s: Lot, e: Event, s': Lot)
    requires cfg.Valid() && Inv(cfg, s) && StepTo(cfg, s, e, s')
    ensures Inv(cfg, s')
  {
    hide Inv, Perform;
    var now := s.clock + e.elapsed;
    OutcomeInv(cfg, s, e.step, now, Perform(cfg, s, e.step, now), s');
  }

  ghost predicate Moves(cfg: Config, run: seq<Lot>, es: seq<Event>, i: nat) {
    i + 1 < |run| && i < |es| && StepTo(cfg, run[i], es[i], run[i + 1])
  }

  /** The lots a run goes through, one transaction after another. */
  ghost predicate IsRun(cfg: Config, run: seq<Lot>, es: seq<Event>) {
    |run| == |es| + 1 && forall i :: 0 <= i < |es| ==> Moves(cfg, run, es, i)
  }

  /** The first lot of a run that starts where a listing does. */
  ghost predicate StartsListed(run: seq<Lot>) {
    run != [] && exists owner: UserId, base: Pricing.Rupees, since: Time :: run[0] == Listed(owner, base, since)
  }

  lemma MoveKeepsInv(cfg: Config, run: seq<Lot>, es: seq<Event>, i: nat, s: Lot, s': Lot)
    requires cfg.Valid() && Moves(cfg, run, es, i) && s == run[i] && s' == run[i + 1] && Inv(cfg, s)
    ensures Inv(cfg, s')
  {
    hide Inv, StepTo;
    StepToInv(cfg, s, es[i], s');
  }

  lemma {:induction false} RunKeepsInv(cfg: Config, run: seq<Lot>, es: seq<Event>, i: nat)
    requires cfg.Valid() && IsRun(cfg, run, es) && Inv(cfg, run[0]) && i < |run|
    ensures Inv(cfg, run[i])
  {
    hide Inv, StepTo;
    if i > 0 {
      RunKeepsInv(cfg, run, es, i - 1);
      assert Moves(cfg, run, es, i - 1);
      MoveKeepsInv(cfg, run, es, i - 1, run[i - 1], run[i]);
    }
  }

  /** A lot that some run of some listing leads to. */
  ghost predicate Reachable(cfg: Config, s: Lot) {
    exists run: seq<Lot>, es: seq<Event> :: IsRun(cfg, run, es) && StartsListed(run) && s == run[|run| - 1]
  }

  lemma ReachableInv(cfg: Config, s: Lot)
    requires cfg.Valid() && Reachable(cfg, s)
    ensures Inv(cfg, s)
  {
    hide Inv;
    var run, es :| IsRun(cfg, run, es) && StartsListed(run) && s == run[|run| - 1];
    var owner: UserId, base: Pricing.Rupees, since: Time :| run[0] == Listed(owner, base, since);
    ListedInv(cfg, owner, base, since);
    RunKeepsInv(cfg, run, es, |es|);
  }
}
