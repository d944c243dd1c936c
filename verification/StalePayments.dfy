/** A payment confirmed late settles the lot only through the round it was
    created for, and to that round's own winner and amount. */
module StalePayments {
  import opened AuctionRows
  import opened AuctionQueries
  import opened AuctionSteps
  import opened Leaderboard
  import opened AuctionInvariant
  import opened SettlementProofs
  import opened AuctionRuns

  // ---- What a run may do to a round

  /** The same round later on: who pays what until when never changes, a round
      no longer open never opens again, and an expired one stays expired. */
  predicate SameRound(a: Round, b: Round) {
    && a.id == b.id && a.ticket == b.ticket && a.deadline == b.deadline
    && (b.status == PendingPayment ==> a.status == PendingPayment)
    && (a.status == RoundExpired ==> b.status == RoundExpired)
  }

  /** The round was there in `s`, or got an id nobody had then. */
  ghost predicate Descends(s: Lot, r: Round) {
    s.nextId <= r.id || exists j :: 0 <= j < |s.rounds| && SameRound(s.rounds[j], r)
  }

  ghost predicate Follows(s: Lot, s': Lot) {
    s.nextId <= s'.nextId && forall j :: 0 <= j < |s'.rounds| ==> Descends(s, s'.rounds[j])
  }

  lemma FollowsItself(s: Lot, s': Lot)
    requires s.nextId <= s'.nextId && s'.rounds == s.rounds
    ensures Follows(s, s')
  {
    forall j | 0 <= j < |s'.rounds| ensures Descends(s, s'.rounds[j]) {
      assert SameRound(s.rounds[j], s'.rounds[j]);
    }
  }

  lemma FollowsOn(s: Lot, m: Lot, s': Lot)
    requires Follows(s, m) && Follows(m, s')
    ensures Follows(s, s')
  {
    forall j | 0 <= j < |s'.rounds| ensures Descends(s, s'.rounds[j]) {
      var r := s'.rounds[j];
      assert Descends(m, r);
      if r.id < m.nextId {
        var l :| 0 <= l < |m.rounds| && SameRound(m.rounds[l], r);
        assert Descends(s, m.rounds[l]);
        if r.id < s.nextId {
          var i :| 0 <= i < |s.rounds| && SameRound(s.rounds[i], m.rounds[l]);
          assert SameRound(s.rounds[i], r);
        }
      }
    }
  }

  lemma RoundCloses(s: Lot, s': Lot, j: nat, status: RoundStatus, now: Time)
    requires s.nextId <= s'.nextId && j < |s.rounds| && s'.rounds == CloseRound(s.rounds, j, status, now)
    requires status == RoundExpired || (status == RoundSettled && s.rounds[j].status == PendingPayment)
    ensures Follows(s, s')
  {
    forall i | 0 <= i < |s'.rounds| ensures Descends(s, s'.rounds[i]) {
      assert SameRound(s.rounds[i], s'.rounds[i]);
    }
  }

  lemma RoundOpens(s: Lot, m: Lot, s': Lot, r: Round)
    requires Follows(s, m) && m.nextId <= r.id && m.nextId <= s'.nextId && s'.rounds == m.rounds + [r]
    ensures Follows(s, s')
  {
    forall j | 0 <= j < |s'.rounds| ensures Descends(s, s'.rounds[j]) {
      if j < |m.rounds| {
        assert Descends(s, m.rounds[j]);
      }
    }
  }

  lemma RoundsGo(s: Lot, s': Lot)
    requires s.nextId <= s'.nextId && forall r :: r in s'.rounds ==> r in s.rounds
    ensures Follows(s, s')
  {
    forall j | 0 <= j < |s'.rounds| ensures Descends(s, s'.rounds[j]) {
      assert s'.rounds[j] in s.rounds;
      var i :| 0 <= i < |s.rounds| && s.rounds[i] == s'.rounds[j];
      assert SameRound(s.rounds[i], s'.rounds[j]);
    }
  }

  // ---- Step by step

  lemma ReleaseFollows(s: Lot, expected: Option<RowId>, now: Time)
    ensures ReleaseHold(s, expected, now).Done? && Follows(s, ReleaseHold(s, expected, now).lot)
  {
    var s', held := ReleaseHold(s, expected, now).lot, Responsible(s.bids);
    if s'.rounds == s.rounds {
      FollowsItself(s, s');
    } else {
      var j := RoundOf(s.rounds, s.bids[held.value].offer.id);
      if j.Some? && RoundPaidFor(s.payments, s.rounds[j.value].id) {
        RoundCloses(s, s', j.value, RoundExpired, now);
      } else {
        RoundsGo(s, s');
      }
    }
  }

  lemma CloseFollows(cfg: Config, s: Lot, now: Time)
    ensures CloseIfExpired(cfg, s, now).Done? && Follows(s, CloseIfExpired(cfg, s, now).lot)
  {
    var s' := CloseIfExpired(cfg, s, now).lot;
    FollowsItself(s, s);
    if s'.rounds == s.rounds {
      FollowsItself(s, s');
    } else {
      RoundOpens(s, s, s', s'.rounds[|s.rounds|]);
    }
  }

  lemma ExpiryFollows(cfg: Config, s: Lot, now: Time)
    ensures PaymentExpiry(cfg, s, now).Done? && Follows(s, PaymentExpiry(cfg, s, now).lot)
  {
    var s' := PaymentExpiry(cfg, s, now).lot;
    if s' == s.(clock := now) {
      FollowsItself(s, s');
    } else {
      var b := s.bids[Responsible(s.bids).value];
      var j := RoundOf(s.rounds, b.offer.id);
      var lapsed := s.(rounds := if j.None? then s.rounds else CloseRound(s.rounds, j.value, RoundExpired, now));
      if j.None? {
        FollowsItself(s, lapsed);
      } else {
        RoundCloses(s, lapsed, j.value, RoundExpired, now);
      }
      if |s'.rounds| == |lapsed.rounds| {
        FollowsItself(lapsed, s');
        FollowsOn(s, lapsed, s');
      } else {
        RoundOpens(s, lapsed, s', s'.rounds[|lapsed.rounds|]);
      }
    }
  }

  lemma HoldFollows(cfg: Config, s: Lot, buyer: UserId, now: Time)
    requires StartHold(cfg, s, buyer, now).Done?
    ensures Follows(s, StartHold(cfg, s, buyer, now).lot)
  {
    FollowsItself(s, s);
    var s' := StartHold(cfg, s, buyer, now).lot;
    RoundOpens(s, s, s', s'.rounds[|s.rounds|]);
  }

  lemma RefusalFollows(s: Lot, paymentId: RowId, parcel: Parcel, now: Time)
    requires RefuseCod(s, paymentId, parcel, now).Done?
    ensures Follows(s, RefuseCod(s, paymentId, parcel, now).lot)
  {
    var s' := RefuseCod(s, paymentId, parcel, now).lot;
    var j := RoundById(s.rounds, s.payments[PaymentById(s.payments, paymentId).value].roundId);
    if j.None? {
      FollowsItself(s, s');
    } else {
      RoundCloses(s, s', j.value, RoundExpired, now);
    }
  }

  /** A confirmation settles an open round. */
  lemma ConfirmationFollows(s: Lot, step: Step, cfg: Config, now: Time, os: seq<Offer>, ls: seq<nat>, k: int)
    requires os == Offers(s.bids) && ls == Ranking(os) && RoundsFollow(s.rounds, os, k) && Stage(s, ls, k)
    requires step.StepConfirmManual? || step.StepConfirmCod? || step.StepConfirmGateway?
    requires Perform(cfg, s, step, now).Done?
    ensures Follows(s, Perform(cfg, s, step, now).lot)
  {
    hide Perform, RoundsFollow, Offers, Ranking;
    ConfirmationDue(s, step, cfg, now);
    DueInForce(s, os, ls, k);
    ConfirmationCloses(s, step, cfg, now, Latest(s.bids, ls, k));
    RoundCloses(s, Perform(cfg, s, step, now).lot, |s.rounds| - 1, RoundSettled, now);
  }

  lemma ConfirmationDue(s: Lot, step: Step, cfg: Config, now: Time)
    requires step.StepConfirmManual? || step.StepConfirmCod? || step.StepConfirmGateway?
    requires Perform(cfg, s, step, now).Done?
    ensures PaymentDue(s.product)
  {
    hide Responsible, RoundOf;
  }

  lemma ConfirmationCloses(s: Lot, step: Step, cfg: Config, now: Time, live: nat)
    requires step.StepConfirmManual? || step.StepConfirmCod? || step.StepConfirmGateway?
    requires Perform(cfg, s, step, now).Done? && s.rounds != [] && live < |s.bids|
    requires Responsible(s.bids) == Some(live) && RoundOf(s.rounds, s.bids[live].offer.id) == Some(|s.rounds| - 1)
    ensures var s' := Perform(cfg, s, step, now).lot;
            s'.rounds == CloseRound(s.rounds, |s.rounds| - 1, RoundSettled, now) && s.nextId <= s'.nextId
  {
    hide Responsible, RoundOf, CloseRound, ClearOthers, RetireInFlight;
  }

  lemma StepFollows(cfg: Config, s: Lot, step: Step, now: Time)
    requires Inv(cfg, s) && Perform(cfg, s, step, now).Done?
    ensures Follows(s, Perform(cfg, s, step, now).lot)
  {
    hide CloseIfExpired, StartHold, ReleaseHold, PaymentExpiry, ConfirmManual, ConfirmCod, ConfirmGateway, RefuseCod;
    var os := Offers(s.bids);
    match step
    case StepCloseIfExpired => hide Inv; CloseFollows(cfg, s, now);
    case StepStartHold(buyer) => hide Inv; HoldFollows(cfg, s, buyer, now);
    case StepReleaseHold(expected) => hide Inv; ReleaseFollows(s, expected, now);
    case StepPaymentExpiry => hide Inv; ExpiryFollows(cfg, s, now);
    case StepConfirmManual(_) => ConfirmationFollows(s, step, cfg, now, os, Ranking(os), Turns(s));
    case StepConfirmCod(_, _) => ConfirmationFollows(s, step, cfg, now, os, Ranking(os), Turns(s));
    case StepConfirmGateway(_) => ConfirmationFollows(s, step, cfg, now, os, Ranking(os), Turns(s));
    case StepRefuseCod(payment, parcel) => hide Inv; RefusalFollows(s, payment, parcel, now);
    case _ => hide Inv; FollowsItself(s, Perform(cfg, s, step, now).lot);
  }

  lemma StepToFollows(cfg: Config, s: Lot, e: Event, s': Lot)
    requires Inv(cfg, s) && StepTo(cfg, s, e, s')
    ensures Follows(s, s')
  {
    hide Inv;
    var now := s.clock + e.elapsed;
    if Perform(cfg, s, e.step, now).Done? {
      hide Perform;
      StepFollows(cfg, s, e.step, now);
    } else {
      hide Perform;
      FollowsItself(s, s');
    }
  }

  lemma {:induction false} RunFollows(cfg: Config, run: seq<Lot>, es: seq<Event>, i: nat, j: nat)
    requires cfg.Valid() && IsRun(cfg, run, es) && Inv(cfg, run[0]) && i <= j < |run|
    ensures Follows(run[i], run[j])
  {
    hide Inv, StepTo, Follows;
    if i == j {
      FollowsItself(run[i], run[i]);
    } else {
      RunFollows(cfg, run, es, i, j - 1);
      RunKeepsInv(cfg, run, es, j - 1);
      assert Moves(cfg, run, es, j - 1);
      StepToFollows(cfg, run[j - 1], es[j - 1], run[j]);
      FollowsOn(run[i], run[j - 1], run[j]);
    }
  }

  // ---- Confirming a payment

  /** Round `id` of the lot is open. */
  predicate StillOpen(s: Lot, id: RowId) {
    exists j :: 0 <= j < |s.rounds| && s.rounds[j].id == id && s.rounds[j].status == PendingPayment
  }

  /** The lot is sold to a bid by this user at this amount, in this round. */
  ghost predicate SoldTo(s: Lot, id: RowId, t: Ticket) {
    && s.product.status == Settled && s.product.settledAmount == Some(t.amount)
    && (exists i :: 0 <= i < |s.bids| && s.product.winningBid == Some(s.bids[i].offer.id)
          && s.bids[i].offer.bidder == t.winner && s.bids[i].offer.amount == t.amount && s.bids[i].payment == Confirmed)
    && (exists j :: 0 <= j < |s.rounds| && s.rounds[j].id == id && s.rounds[j].ticket == t &&
                    s.rounds[j].status == RoundSettled)
  }

  /** In one lot: a payment for round `id` is accepted exactly while that round
      is open, and sells the lot on that round's terms. */
  lemma GatewayNeedsOpenRound(cfg: Config, s: Lot, id: RowId, now: Time)
    requires Inv(cfg, s)
    ensures ConfirmGateway(s, Some(id), now).Done? <==> StillOpen(s, id)
    ensures forall j :: 0 <= j < |s.rounds| && s.rounds[j].id == id && ConfirmGateway(s, Some(id), now).Done? ==>
              SoldTo(ConfirmGateway(s, Some(id), now).lot, id, s.rounds[j].ticket)
    ensures !StillOpen(s, id) ==>
              ConfirmGateway(s, Some(id), now) ==
                Rejected(if s.product.status == Settled then AlreadySettled else StaleRound)
  {
    var os := Offers(s.bids);
    OpenRoundAt(s, id, now, os, Ranking(os), Turns(s));
  }

  lemma OpenRoundAt(s: Lot, id: RowId, now: Time, os: seq<Offer>, ls: seq<nat>, k: int)
    requires os == Offers(s.bids) && ls == Ranking(os) && Fresh(s) && RoundsFollow(s.rounds, os, k) && Stage(s, ls, k)
    ensures ConfirmGateway(s, Some(id), now).Done? <==> StillOpen(s, id)
    ensures forall j :: 0 <= j < |s.rounds| && s.rounds[j].id == id && ConfirmGateway(s, Some(id), now).Done? ==>
              SoldTo(ConfirmGateway(s, Some(id), now).lot, id, s.rounds[j].ticket)
    ensures !StillOpen(s, id) ==>
              ConfirmGateway(s, Some(id), now) ==
                Rejected(if s.product.status == Settled then AlreadySettled else StaleRound)
  {
    hide RoundsFollow, Offers, Ranking, Responsible, RoundOf, ClearOthers, RetireInFlight, BidsAre;
    if PaymentDue(s.product) {
      DueInForce(s, os, ls, k);
      forall j | 0 <= j < |s.rounds| && s.rounds[j].id == id && id == s.rounds[|s.rounds| - 1].id
        ensures j == |s.rounds| - 1
      {
        assert Before(RoundIds(s.rounds), j, |s.rounds| - 1);
      }
      if id == s.rounds[|s.rounds| - 1].id {
        DueRoundSells(s, Latest(s.bids, ls, k), now, ConfirmGateway(s, Some(id), now).lot);
      }
    }
  }

  lemma DueRoundSells(s: Lot, live: nat, now: Time, s': Lot)
    requires live < |s.bids| && s.rounds != [] && s' == Settle(s, live, |s.rounds| - 1, BankApi, now)
    requires s.rounds[|s.rounds| - 1].ticket.winner == s.bids[live].offer.bidder
    requires s.rounds[|s.rounds| - 1].ticket.amount == s.bids[live].offer.amount
    ensures SoldTo(s', s.rounds[|s.rounds| - 1].id, s.rounds[|s.rounds| - 1].ticket)
  {
    assert s'.bids[live].offer == s.bids[live].offer && s'.bids[live].payment == Confirmed;
    assert s'.rounds[|s.rounds| - 1].status == RoundSettled;
  }

  /** Over a whole run: a payment is created for round `m` of one lot of the run
      and confirmed against a later one.  Whatever happened in between, it is
      accepted exactly if the round is still open, and then sells the lot to the
      winner and at the amount the round had when the payment was created.  A
      round found expired once is refused for good. */
  lemma LatePaymentIsSafe(cfg: Config, run: seq<Lot>, es: seq<Event>, i: nat, m: nat, j: nat, now: Time)
    requires cfg.Valid() && IsRun(cfg, run, es) && Inv(cfg, run[0]) && i <= j < |run| && m < |run[i].rounds|
    ensures var r, late := run[i].rounds[m], ConfirmGateway(run[j], Some(run[i].rounds[m].id), now);
            && (late.Done? <==> StillOpen(run[j], r.id))
            && (late.Done? ==> r.status == PendingPayment && SoldTo(late.lot, r.id, r.ticket))
            && (late.Rejected? ==>
                  late.error == if run[j].product.status == Settled then AlreadySettled else StaleRound)
  {
    hide Inv, IsRun, Follows, ConfirmGateway, SoldTo, StillOpen;
    RunKeepsInv(cfg, run, es, i);
    RunKeepsInv(cfg, run, es, j);
    RunFollows(cfg, run, es, i, j);
    GatewayNeedsOpenRound(cfg, run[j], run[i].rounds[m].id, now);
    RoundRemembered(cfg, run[i], m, run[j]);
  }

  /** A round of `s` that is open in `s'` was open in `s`, on the same terms. */
  lemma RoundRemembered(cfg: Config, s: Lot, m: nat, s': Lot)
    requires Inv(cfg, s) && Follows(s, s') && m < |s.rounds|
    ensures forall l :: 0 <= l < |s'.rounds| && s'.rounds[l].id == s.rounds[m].id ==>
              SameRound(s.rounds[m], s'.rounds[l])
    ensures StillOpen(s', s.rounds[m].id) ==>
              exists l :: 0 <= l < |s'.rounds| && s'.rounds[l].id == s.rounds[m].id &&
                          s'.rounds[l].status == PendingPayment
  {
    assert Fresh(s);
    hide Inv, InvAt;
    forall l | 0 <= l < |s'.rounds| && s'.rounds[l].id == s.rounds[m].id ensures SameRound(s.rounds[m], s'.rounds[l]) {
      assert RoundIds(s.rounds)[m] == s.rounds[m].id;
      assert Descends(s, s'.rounds[l]);
      var i :| 0 <= i < |s.rounds| && SameRound(s.rounds[i], s'.rounds[l]);
      assert Before(RoundIds(s.rounds), i, m) && Before(RoundIds(s.rounds), m, i);
    }
  }
}
