/** Payments of a lot: cash on delivery from the choice to the door, where it can
    be collected, or the parcel refused, until one of the two happens; and the
    prepaid attempts. */
module SalePayments {
  import opened AuctionRows
  import opened AuctionQueries
  import opened AuctionSteps
  import opened AuctionInvariant
  import opened SettlementProofs
  import opened AuctionRuns
  import opened SaleOnce

  /** Payment `k` is the cash still to be collected for the sale. */
  ghost predicate CashAt(s: Lot, k: nat, id: RowId) {
    s.product.status == Settled && k < |s.payments| && s.payments[k].id == id && Uncollected(s, k)
  }

  /** Payment ids differ, so looking one up by its id finds it. */
  lemma PaymentFound(cfg: Config, s: Lot, k: nat)
    requires Inv(cfg, s) && k < |s.payments|
    ensures PaymentById(s.payments, s.payments[k].id) == Some(k)
  {
    assert Fresh(s);
    hide Inv;
    var i := PaymentById(s.payments, s.payments[k].id);
    assert i.Some?;
    assert Before(PaymentIds(s.payments), i.value, k) && Before(PaymentIds(s.payments), k, i.value);
  }

  /** What can become of cash that is due: the parcel is refused, unless it was
      delivered, and the sale is undone; or the cash is collected. */
  ghost predicate CashIsOpen(s: Lot, k: nat, id: RowId, later: Time) {
    && k < |s.payments|
    && RefuseCod(s, id, Delivered, later) == Rejected(AlreadyDelivered)
    && (forall parcel :: parcel != Delivered ==>
          var refused := RefuseCod(s, id, parcel, later);
          && refused.Done? && refused.lot.refusals == s.refusals + [s.payments[k].winner]
          && refused.lot.product ==
               s.product.(status := Abandoned, abandonedAt := Some(later), settledAt := None, settledAmount := None)
          && refused.lot.payments == s.payments[k := s.payments[k].(status := PayFailed)]
          && refused.lot.returned == if parcel == OnItsWay then s.returned + [id] else s.returned)
    && CollectCod(s, id, later) ==
         Done(s.(payments := s.payments[k := s.payments[k].(status := PaySuccess)], clock := later))
  }

  /** When a refusal is accepted, and why it is rejected otherwise. */
  lemma RefusalDecided(cfg: Config, s: Lot, k: nat, parcel: Parcel, now: Time)
    requires Inv(cfg, s) && k < |s.payments|
    ensures var pay := s.payments[k];
            var refusal := RefuseCod(s, pay.id, parcel, now);
            if pay.means != Cod || pay.status != CodPending then refusal == Rejected(NotUncollectedCod)
            else if parcel == Delivered then refusal == Rejected(AlreadyDelivered)
            else refusal.Done?
  {
    PaymentFound(cfg, s, k);
    if s.payments[k].status == CodPending {
      CashOnlyIfSold(cfg, s, k);
    }
    hide Inv, PaymentById, RoundById, BidById;
  }

  lemma UnknownPayment(s: Lot, id: RowId, parcel: Parcel, now: Time)
    requires forall l :: 0 <= l < |s.payments| ==> s.payments[l].id != id
    ensures RefuseCod(s, id, parcel, now) == Rejected(PaymentNotFound)
  {
  }

  lemma CashOnlyIfSold(cfg: Config, s: Lot, k: nat)
    requires Inv(cfg, s) && k < |s.payments| && s.payments[k].status == CodPending
    ensures s.product.status == Settled
  {
    assert CashDue(s, Turns(s));
  }

  lemma CashAtIsOpen(cfg: Config, s: Lot, k: nat, id: RowId, later: Time)
    requires Inv(cfg, s) && CashAt(s, k, id)
    ensures CashIsOpen(s, k, id, later)
  {
    PaymentFound(cfg, s, k);
    hide Inv, PaymentById, RoundById, BidById;
  }

  /** Choosing cash on delivery leaves a payment that can be collected or refused. */
  lemma CashChosen(cfg: Config, s: Lot, buyer: UserId, ok: bool, now: Time, s': Lot)
    requires cfg.Valid() && Inv(cfg, s) && ConfirmCod(s, buyer, ok, now) == Done(s')
    ensures CashAt(s', |s.payments|, s.nextId)
  {
    hide Inv;
    var i, j := SaleRecorded(cfg, s, StepConfirmCod(buyer, ok), now, s');
  }

  /** The payment of a manual confirmation is neither. */
  lemma ManualIsPaid(cfg: Config, s: Lot, ok: bool, now: Time, s': Lot, parcel: Parcel, later: Time)
    requires cfg.Valid() && Inv(cfg, s) && s.clock <= now && ConfirmManual(s, ok, now) == Done(s')
    ensures RefuseCod(s', s.nextId, parcel, later) == Rejected(NotUncollectedCod)
    ensures CollectCod(s', s.nextId, later) == Done(s'.(clock := later))
  {
    hide Inv, ConfirmManual;
    ConfirmManualKeepsInv(cfg, s, ok, now);
    var k := ManualRecorded(cfg, s, ok, now, s');
    PaymentFound(cfg, s', k);
    hide PaymentById;
  }

  lemma ManualRecorded(cfg: Config, s: Lot, ok: bool, now: Time, s': Lot) returns (k: nat)
    requires Inv(cfg, s) && ConfirmManual(s, ok, now) == Done(s')
    ensures k < |s'.payments| && s'.payments[k].id == s.nextId
    ensures s'.payments[k].means == Fonepay && s'.payments[k].status == PaySuccess
  {
    hide Inv;
    var i, j := SaleRecorded(cfg, s, StepConfirmManual(ok), now, s');
    k := |s.payments|;
  }

  /** The transaction collects the cash, or refuses a parcel not yet delivered. */
  predicate EndsCash(e: Event, id: RowId) {
    || (e.step.StepCollectCod? && e.step.payment == id)
    || (e.step.StepRefuseCod? && e.step.payment == id && e.step.parcel != Delivered)
  }

  lemma OthersKeepCash(cfg: Config, s: Lot, e: Event, s': Lot, k: nat, id: RowId)
    requires StepTo(cfg, s, e, s') && CashAt(s, k, id) && !EndsCash(e, id)
    requires !e.step.StepRefuseCod?
    ensures CashAt(s', k, id)
  {
    hide PaymentById;
  }

  lemma OnlyCash(cfg: Config, s: Lot, k: nat, other: RowId, parcel: Parcel, now: Time)
    requires Inv(cfg, s) && k < |s.payments| && Uncollected(s, k) && RefuseCod(s, other, parcel, now).Done?
    ensures other == s.payments[k].id && parcel != Delivered
  {
    hide Inv, RefuseCod;
    var i := RefusedPayment(s, other, parcel, now);
    OneCash(cfg, s, i, k);
  }

  lemma OneCash(cfg: Config, s: Lot, i: nat, k: nat)
    requires Inv(cfg, s) && i < |s.payments| && k < |s.payments|
    requires s.payments[i].status == CodPending && s.payments[k].status == CodPending
    ensures i == k
  {
    assert OneCashDue(s.payments);
    hide Inv;
    assert CashApart(s.payments, i, k) && CashApart(s.payments, k, i);
  }

  lemma CashStep(cfg: Config, s: Lot, e: Event, s': Lot, k: nat, id: RowId)
    requires Inv(cfg, s) && StepTo(cfg, s, e, s') && CashAt(s, k, id) && !EndsCash(e, id)
    ensures CashAt(s', k, id)
  {
    hide Inv, RefuseCod, PaymentById;
    var now := s.clock + e.elapsed;
    if e.step.StepRefuseCod? {
      if RefuseCod(s, e.step.payment, e.step.parcel, now).Done? {
        OnlyCash(cfg, s, k, e.step.payment, e.step.parcel, now);
      }
    } else {
      OthersKeepCash(cfg, s, e, s', k, id);
    }
  }

  /** Transaction `a` of the run is an accepted choice of cash on delivery. */
  ghost predicate ChoosesCash(cfg: Config, run: seq<Lot>, es: seq<Event>, a: nat) {
    && a < |es| && a + 1 < |run| && es[a].step.StepConfirmCod?
    && var now := run[a].clock + es[a].elapsed;
       ConfirmCod(run[a], es[a].step.buyer, es[a].step.addressOk, now) == Done(run[a + 1])
  }

  lemma {:induction false} CashStays(cfg: Config, run: seq<Lot>, es: seq<Event>, a: nat, n: nat)
    requires cfg.Valid() && IsRun(cfg, run, es) && Inv(cfg, run[0]) && ChoosesCash(cfg, run, es, a) && a < n < |run|
    requires forall i :: a < i < n ==> !EndsCash(es[i], run[a].nextId)
    ensures CashAt(run[n], |run[a].payments|, run[a].nextId)
  {
    hide Inv, StepTo, CashAt, EndsCash, ConfirmCod;
    if n == a + 1 {
      RunKeepsInv(cfg, run, es, a);
      CashChosen(cfg, run[a], es[a].step.buyer, es[a].step.addressOk, run[a].clock + es[a].elapsed, run[n]);
    } else {
      var m := n - 1;
      CashStays(cfg, run, es, a, m);
      RunKeepsInv(cfg, run, es, m);
      assert Moves(cfg, run, es, m);
      CashStep(cfg, run[m], es[m], run[n], |run[a].payments|, run[a].nextId);
    }
  }

  /** Whatever a run does after cash on delivery was chosen, the cash can be
      collected, or the parcel refused until it is delivered, up to the first
      time either happens. */
  lemma CashStaysOpen(cfg: Config, run: seq<Lot>, es: seq<Event>, a: nat, n: nat, later: Time)
    requires cfg.Valid() && IsRun(cfg, run, es) && Inv(cfg, run[0]) && ChoosesCash(cfg, run, es, a) && a < n < |run|
    requires forall i :: a < i < n ==> !EndsCash(es[i], run[a].nextId)
    ensures CashIsOpen(run[n], |run[a].payments|, run[a].nextId, later)
  {
    hide Inv, StepTo, CashAt, CashIsOpen, EndsCash, ConfirmCod;
    CashStays(cfg, run, es, a, n);
    RunKeepsInv(cfg, run, es, n);
    CashAtIsOpen(cfg, run[n], |run[a].payments|, run[a].nextId, later);
  }

  // ---- Prepaid attempts

  /** A prepaid attempt is of its round's winner and amount; a round has no second
      one while one is in flight. */
  lemma AttemptOpened(cfg: Config, s: Lot, j: nat, now: Time)
    requires Inv(cfg, s) && j < |s.rounds|
    ensures var round := s.rounds[j];
            OpenPayment(s, round.id, now) ==
              if exists i :: 0 <= i < |s.payments| && s.payments[i].roundId == round.id
                             && s.payments[i].status == PayPending
              then Rejected(PaymentInFlight)
              else Done(s.(payments := s.payments + [Payment(s.nextId, round.id, round.ticket.winner,
                                                             round.ticket.amount, Fonepay, PayPending)],
                           nextId := s.nextId + 1, clock := now))
  {
    RoundFound(cfg, s, j);
    hide Inv, RoundById;
  }

  lemma RoundFound(cfg: Config, s: Lot, j: nat)
    requires Inv(cfg, s) && j < |s.rounds|
    ensures RoundById(s.rounds, s.rounds[j].id) == Some(j)
  {
    assert Fresh(s);
    hide Inv;
    var i := RoundById(s.rounds, s.rounds[j].id);
    assert i.Some?;
    assert Before(RoundIds(s.rounds), i.value, j) && Before(RoundIds(s.rounds), j, i.value);
  }

  /** A report counts for an attempt in flight, or one already expired; never for
      cash, nor for an attempt that has been reported paid or failed. */
  lemma AttemptReported(cfg: Config, s: Lot, k: nat, report: PaymentStatus, now: Time)
    requires Inv(cfg, s) && k < |s.payments| && (report == PaySuccess || report == PayFailed || report == PayExpired)
    ensures var pay := s.payments[k];
            GatewayReport(s, pay.id, report, now) ==
              if pay.status == PayPending || pay.status == PayExpired
              then Done(s.(payments := s.payments[k := pay.(status := report)], clock := now))
              else Done(s.(clock := now))
  {
    PaymentFound(cfg, s, k);
    hide Inv, PaymentById;
  }
}
