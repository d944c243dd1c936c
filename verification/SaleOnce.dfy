/** A lot is sold once, within its prices, and only a refusal at the door
    undoes the sale. */
module SaleOnce {
  import opened Money
  import opened AuctionRows
  import opened AuctionQueries
  import opened AuctionSteps
  import opened Leaderboard
  import opened AuctionInvariant
  import opened CascadeProofs
  import opened SettlementProofs
  import opened AuctionRuns
  import opened WhoOwes
  import Pricing

  predicate SettledRound(s: Lot, j: nat) {
    j < |s.rounds| && s.rounds[j].status == RoundSettled
  }

  /** The lot is sold exactly if one of its rounds is settled, and then it is
      exactly one, of the same amount as the sale and the bid that won it. */
  lemma SoldIffOneRound(cfg: Config, s: Lot)
    requires Inv(cfg, s)
    ensures s.product.status == Settled <==> exists j: nat :: SettledRound(s, j)
    ensures forall i: nat, j: nat :: SettledRound(s, i) && SettledRound(s, j) ==> i == j
    ensures forall j: nat :: SettledRound(s, j) ==>
              && s.product.settledAmount == Some(s.rounds[j].ticket.amount)
              && s.product.winningBid == Some(s.rounds[j].ticket.bidId)
  {
    hide Inv;
    var i, j := FourViewsAgree(cfg, s);
    if s.product.status == Settled {
      assert SettledRound(s, j);
    }
  }

  // ---- Only a refusal undoes a sale

  predicate SameSale(s: Lot, s': Lot) {
    s'.product == s.product && s'.bids == s.bids && s'.rounds == s.rounds
  }

  lemma SaleStep(cfg: Config, s: Lot, e: Event, s': Lot)
    requires StepTo(cfg, s, e, s') && s.product.status == Settled
    ensures SameSale(s, s') || (e.step.StepRefuseCod? && s'.product.status == Abandoned)
  {
  }

  lemma AbandonedStep(cfg: Config, s: Lot, e: Event, s': Lot)
    requires StepTo(cfg, s, e, s') && s.product.status == Abandoned
    ensures SameSale(s, s')
  {
  }

  ghost predicate Refused(run: seq<Lot>, es: seq<Event>, i: nat, j: nat) {
    exists n: nat :: i <= n < j && n < |es| && es[n].step.StepRefuseCod?
  }

  /** Once sold, the lot stays sold as it is, or a refusal abandoned it for good. */
  lemma {:induction false} SaleStands(cfg: Config, run: seq<Lot>, es: seq<Event>, i: nat, j: nat)
    requires IsRun(cfg, run, es) && i <= j < |run| && run[i].product.status == Settled
    ensures SameSale(run[i], run[j]) || (Refused(run, es, i, j) && run[j].product.status == Abandoned)
  {
    hide StepTo;
    if i < j {
      SaleStands(cfg, run, es, i, j - 1);
      assert Moves(cfg, run, es, j - 1);
      if run[j - 1].product.status == Settled {
        SaleStep(cfg, run[j - 1], es[j - 1], run[j]);
      } else {
        AbandonedStep(cfg, run[j - 1], es[j - 1], run[j]);
      }
    }
  }

  /** In any run at most one round is ever settled. */
  lemma SettlesAtMostOnce(cfg: Config, run: seq<Lot>, es: seq<Event>, i: nat, m: nat, j: nat, n: nat)
    requires cfg.Valid() && IsRun(cfg, run, es) && Inv(cfg, run[0]) && i < |run| && j < |run|
    requires SettledRound(run[i], m) && SettledRound(run[j], n)
    ensures m == n && run[i].rounds[m] == run[j].rounds[n]
    ensures run[i].product == run[j].product
  {
    hide Inv, StepTo;
    RunKeepsInv(cfg, run, es, i);
    RunKeepsInv(cfg, run, es, j);
    SoldIffOneRound(cfg, run[i]);
    SoldIffOneRound(cfg, run[j]);
    if i <= j {
      SaleStands(cfg, run, es, i, j);
    } else {
      SaleStands(cfg, run, es, j, i);
    }
    assert SettledRound(run[i], n);
  }

  predicate Confirms(step: Step) {
    step.StepConfirmManual? || step.StepConfirmCod? || step.StepConfirmGateway?
  }

  function MethodOf(step: Step): Confirmation
    requires Confirms(step)
  {
    match step
    case StepConfirmManual(_) => AdminManual
    case StepConfirmCod(_, _) => CashOnDelivery
    case StepConfirmGateway(_) => BankApi
  }

  /** Bid `i` is the only debtor, and round `j`, the newest, the only open one;
      they are of the same winner and amount. */
  ghost predicate Owes(s: Lot, i: nat, j: nat) {
    && i < |s.bids| && j < |s.rounds| && j == |s.rounds| - 1 && Covers(s, j, i)
    && (forall l :: 0 <= l < |s.bids| ==> (s.bids[l].responsible <==> l == i))
    && (forall l :: 0 <= l < |s.rounds| ==> (s.rounds[l].status == PendingPayment <==> l == j))
  }

  /** Nobody else is left to pay, and the sale is recorded on bid, round and lot. */
  ghost predicate RecordedFor(s: Lot, i: nat, j: nat, how: Confirmation, now: Time, s': Lot) {
    && i < |s.bids| == |s'.bids| && j < |s.rounds| == |s'.rounds|
    && s'.bids[i] == s.bids[i].(payment := Confirmed, confirmedAt := Some(now), confirmedBy := Some(how))
    && (forall l :: 0 <= l < |s.bids| && l != i ==> s'.bids[l] == s.bids[l].(payment := NotResponsible))
    && s'.rounds == s.rounds[j := s.rounds[j].(status := RoundSettled, resolvedAt := Some(now))]
    && s'.product == SoldProduct(s.product, s.rounds[j].ticket, now)
  }

  /** A lot that was on hold has not been closed yet, and its buyer not led it. */
  function SoldProduct(p: Product, t: Ticket, now: Time): Product {
    var sold := p.(status := Settled, settledAt := Some(now), winningBid := Some(t.bidId),
                   settledAmount := Some(t.amount));
    if p.status == AwaitingInstantBuy
    then sold.(closedAt := Some(now), endsAt := Some(now), highest := Some(t.amount), leader := Some(t.winner))
    else sold
  }

  /** A gateway sale leaves the payments to the gateway's own row.  Any other
      records one payment of that round's amount, by its winner, and expires the
      prepaid attempts of the lot still in flight, which could be charged. */
  ghost predicate PaidFor(s: Lot, j: nat, how: Confirmation, s': Lot) {
    if how == BankApi then s'.payments == s.payments
    else
      && j < |s.rounds| && |s'.payments| == |s.payments| + 1
      && (forall l :: 0 <= l < |s.payments| ==>
            var pay := s.payments[l];
            s'.payments[l] == if pay.status == PayPending then pay.(status := PayExpired) else pay)
      && var pay, t := s'.payments[|s.payments|], s.rounds[j].ticket;
         && pay.id == s.nextId && pay.roundId == s.rounds[j].id && pay.winner == t.winner && pay.amount == t.amount
         && pay.means == (if how == CashOnDelivery then Cod else Fonepay)
         && pay.status == (if how == CashOnDelivery then CodPending else PaySuccess)
  }

  /** Whichever way a sale is confirmed, it goes to the one bid that owed, through
      the one open round, on that round's terms. */
  lemma SaleRecorded(cfg: Config, s: Lot, step: Step, now: Time, s': Lot) returns (i: nat, j: nat)
    requires Inv(cfg, s) && Confirms(step) && Perform(cfg, s, step, now) == Done(s')
    ensures Owes(s, i, j)
    ensures RecordedFor(s, i, j, MethodOf(step), now, s')
    ensures PaidFor(s, j, MethodOf(step), s')
  {
    i, j := DebtorAt(cfg, s);
    hide Inv, RecordedFor, PaidFor, Owes;
    ConfirmedDue(cfg, s, step, now);
    SaleUnfolds(cfg, s, step, now, i, j, s');
    hide Perform;
    SettledRows(s, i, j, MethodOf(step), now, s');
  }

  /** When a confirmation is accepted, and why it is rejected otherwise: manually
      for a serviceable address; in cash, besides, for the winner of the newest
      round before its deadline; through the gateway, on hold too, unless the
      payment was for another round. */
  lemma ConfirmationDecided(cfg: Config, s: Lot, buyer: UserId, ok: bool, expected: Option<RowId>, now: Time)
    requires Inv(cfg, s)
    ensures PaymentDue(s.product) ==> s.rounds != []
    ensures var manual := ConfirmManual(s, ok, now);
            if s.product.status != AwaitingPayment then manual == Rejected(NotAwaitingPayment)
            else if !ok then manual == Rejected(BadAddress)
            else manual.Done?
    ensures var cash := ConfirmCod(s, buyer, ok, now);
            if s.product.status != AwaitingPayment then cash == Rejected(NotAwaitingPayment)
            else
              var round := s.rounds[|s.rounds| - 1];
              if round.ticket.winner != buyer then cash == Rejected(NotTheWinner)
              else if round.deadline <= now then cash == Rejected(WindowExpired)
              else if !ok then cash == Rejected(BadAddress)
              else cash.Done?
    ensures var gateway := ConfirmGateway(s, expected, now);
            if s.product.status == Settled then gateway == Rejected(AlreadySettled)
            else if s.product.status != AwaitingPayment && s.product.status != AwaitingInstantBuy
            then gateway == Rejected(StaleRound)
            else if expected.Some? && expected.value != s.rounds[|s.rounds| - 1].id
            then gateway == Rejected(StaleRound)
            else gateway.Done?
  {
    hide Inv, Settle, Paid, IdsDiffer, Responsible, RoundOf;
    var i, j := DebtorAt(cfg, s);
  }

  lemma ConfirmedDue(cfg: Config, s: Lot, step: Step, now: Time)
    requires Confirms(step) && Perform(cfg, s, step, now).Done?
    ensures PaymentDue(s.product) && (s.product.status == AwaitingInstantBuy ==> MethodOf(step) == BankApi)
  {
  }

  lemma SaleUnfolds(cfg: Config, s: Lot, step: Step, now: Time, i: nat, j: nat, s': Lot)
    requires Confirms(step) && Perform(cfg, s, step, now) == Done(s') && Owes(s, i, j)
    requires Responsible(s.bids) == Some(i) && RoundOf(s.rounds, s.bids[i].offer.id) == Some(j)
    ensures s'.(payments := [], nextId := 0) == Settle(s, i, j, MethodOf(step), now).(payments := [], nextId := 0)
    ensures PaidFor(s, j, MethodOf(step), s')
  {
  }

  lemma SettledRows(s: Lot, i: nat, j: nat, how: Confirmation, now: Time, s': Lot)
    requires Owes(s, i, j)
    requires s'.(payments := [], nextId := 0) == Settle(s, i, j, how, now).(payments := [], nextId := 0)
    requires IdsDiffer(s.bids) && PaymentDue(s.product)
    requires s.bids[i].offer.instant <==> s.product.status == AwaitingInstantBuy
    requires s.product.status == AwaitingInstantBuy ==> how == BankApi
    ensures RecordedFor(s, i, j, how, now, s')
  {
    var sold := Settle(s, i, j, how, now);
    assert s'.product == sold.product && s'.bids == sold.bids && s'.rounds == sold.rounds;
  }

  /** While a payment is due the queries find the one debtor and the one open round. */
  lemma DebtorAt(cfg: Config, s: Lot) returns (i: nat, j: nat)
    requires Inv(cfg, s)
    ensures PaymentDue(s.product) ==>
              && Owes(s, i, j) && Responsible(s.bids) == Some(i) && RoundOf(s.rounds, s.bids[i].offer.id) == Some(j)
              && (s.bids[i].offer.instant <==> s.product.status == AwaitingInstantBuy)
    ensures IdsDiffer(s.bids)
  {
    var os, ls, k := Offers(s.bids), Ranking(Offers(s.bids)), Turns(s);
    i, j := FourViewsAgree(cfg, s);
    DistinctIds(cfg, s);
    if PaymentDue(s.product) {
      DueInForce(s, os, ls, k);
      hide Inv, Offers, Ranking;
    }
  }

  ghost predicate IdsDiffer(bids: seq<Bid>) {
    forall l, m :: 0 <= l < |bids| && 0 <= m < |bids| && l != m ==> bids[l].offer.id != bids[m].offer.id
  }

  lemma DistinctIds(cfg: Config, s: Lot)
    requires Inv(cfg, s)
    ensures IdsDiffer(s.bids)
  {
    assert Fresh(s);
    hide Inv;
    forall l, m | 0 <= l < |s.bids| && 0 <= m < |s.bids| && l != m
      ensures s.bids[l].offer.id != s.bids[m].offer.id
    {
      assert Before(BidIds(s.bids), l, m) && Before(BidIds(s.bids), m, l);
    }
  }

  // ---- A refusal at the door

  /** A payment carries the amount of whichever round has its round id. */
  lemma PaymentMatches(cfg: Config, s: Lot, i: nat)
    requires Inv(cfg, s) && i < |s.payments|
    ensures forall j :: 0 <= j < |s.rounds| && s.rounds[j].id == s.payments[i].roundId ==>
              s.rounds[j].ticket.amount == s.payments[i].amount && s.rounds[j].ticket.winner == s.payments[i].winner
  {
    assert Backed(s.rounds, s.payments[i]) && Fresh(s);
    hide Inv;
    forall j | 0 <= j < |s.rounds| && s.rounds[j].id == s.payments[i].roundId
      ensures s.rounds[j].ticket.amount == s.payments[i].amount && s.rounds[j].ticket.winner == s.payments[i].winner
    {
      var l :| 0 <= l < |s.rounds| && s.rounds[l].id == s.payments[i].roundId &&
               s.rounds[l].ticket.winner == s.payments[i].winner && s.rounds[l].ticket.amount == s.payments[i].amount;
      assert Before(RoundIds(s.rounds), j, l) && Before(RoundIds(s.rounds), l, j);
    }
  }

  /** The transaction is a refusal that was accepted. */
  predicate Refuses(cfg: Config, s: Lot, e: Event) {
    e.step.StepRefuseCod? && Perform(cfg, s, e.step, s.clock + e.elapsed).Done?
  }

  /** A strike is recorded only on an abandoned lot, and against the buyer it had
      been sold to. */
  ghost predicate StruckFor(s: Lot, i: nat) {
    && s.product.status == Abandoned && i < |s.bids| && s.bids[i].responsible && s.bids[i].payment == Expired
    && s.product.winningBid == Some(s.bids[i].offer.id) && s.refusals == [s.bids[i].offer.bidder]
  }

  ghost predicate Struck(s: Lot) {
    s.refusals == [] || exists i :: StruckFor(s, i)
  }

  lemma RefusedSale(cfg: Config, s: Lot, paymentId: RowId, parcel: Parcel, now: Time, s': Lot) returns (live: nat)
    requires Inv(cfg, s) && RefuseCod(s, paymentId, parcel, now) == Done(s')
    ensures s.product.status == Settled && Turns(s) > 0 && live < |s.bids| && s.rounds != []
    ensures live == Latest(s.bids, Ranking(Offers(s.bids)), Turns(s))
    ensures PaymentById(s.payments, paymentId).Some? && Uncollected(s, PaymentById(s.payments, paymentId).value)
    ensures s' == SettlementProofs.Refused(s, PaymentById(s.payments, paymentId).value, live, parcel, now)
  {
    var os, ls, k := Offers(s.bids), Ranking(Offers(s.bids)), Turns(s);
    var i := RefusedPayment(s, paymentId, parcel, now);
    hide RefuseCod, Uncollected, Offers, Ranking;
    RefusalUnwinds(s, paymentId, parcel, now, os, ls, k);
    live := ls[k - 1];
  }

  lemma RefusalStrikes(cfg: Config, s: Lot, paymentId: RowId, parcel: Parcel, now: Time, s': Lot)
    requires Inv(cfg, s) && RefuseCod(s, paymentId, parcel, now) == Done(s') && s.refusals == []
    ensures exists i :: StruckFor(s', i)
  {
    var live := RefusedSale(cfg, s, paymentId, parcel, now, s');
    var i := RefusedPayment(s, paymentId, parcel, now);
    hide Inv, RefuseCod;
    RefusalTerms(cfg, s, i, live);
    assert StruckFor(s', live);
  }

  /** The uncollected payment is by the buyer of the winning bid. */
  lemma RefusalTerms(cfg: Config, s: Lot, i: nat, live: nat)
    requires Inv(cfg, s) && s.product.status == Settled && Uncollected(s, i)
    requires Turns(s) > 0 && live == Latest(s.bids, Ranking(Offers(s.bids)), Turns(s)) && live < |s.bids|
    ensures s.payments[i].winner == s.bids[live].offer.bidder && s.bids[live].responsible
    ensures s.product.winningBid == Some(s.bids[live].offer.id)
  {
    var os, ls, k := Offers(s.bids), Ranking(Offers(s.bids)), Turns(s);
    SoldToRanked(s, os, ls, k);
    NewestRoundOfTurn(s.rounds, os, k);
    LeadersValid(os, {});
    PaymentMatches(cfg, s, i);
  }

  lemma OthersKeepStrikes(cfg: Config, s: Lot, step: Step, now: Time)
    requires !step.StepRefuseCod?
    ensures After(s, Perform(cfg, s, step, now), now).refusals == s.refusals
  {
  }

  lemma RefusalStep(cfg: Config, s: Lot, e: Event, s': Lot)
    requires Inv(cfg, s) && StepTo(cfg, s, e, s') && Struck(s) && Refuses(cfg, s, e)
    ensures s.refusals == [] && |s'.refusals| == 1 && Struck(s')
  {
    hide Inv;
    assert s.product.status == Settled;
    RefusalStrikes(cfg, s, e.step.payment, e.step.parcel, s.clock + e.elapsed, s');
  }

  lemma RefusalsStay(cfg: Config, s: Lot, e: Event, s': Lot)
    requires StepTo(cfg, s, e, s') && !Refuses(cfg, s, e)
    ensures s'.refusals == s.refusals
  {
    hide Perform;
    if !e.step.StepRefuseCod? {
      OthersKeepStrikes(cfg, s, e.step, s.clock + e.elapsed);
    }
  }

  lemma StrikeStep(cfg: Config, s: Lot, e: Event, s': Lot)
    requires Inv(cfg, s) && StepTo(cfg, s, e, s') && Struck(s)
    ensures Struck(s') && |s'.refusals| == |s.refusals| + if Refuses(cfg, s, e) then 1 else 0
  {
    hide Inv, StepTo, Perform, Refuses;
    if Refuses(cfg, s, e) {
      RefusalStep(cfg, s, e, s');
    } else {
      RefusalsStay(cfg, s, e, s');
      if s.refusals != [] {
        var i :| StruckFor(s, i);
        AbandonedStep(cfg, s, e, s');
        assert StruckFor(s', i);
      }
    }
  }

  /** How many of the first `n` transactions of a run were accepted refusals. */
  ghost function RefusalsIn(cfg: Config, run: seq<Lot>, es: seq<Event>, n: nat): nat
    requires n <= |es| && n <= |run|
  {
    if n == 0 then 0
    else RefusalsIn(cfg, run, es, n - 1) + if Refuses(cfg, run[n - 1], es[n - 1]) then 1 else 0
  }

  /** In a run from the listing a lot is refused at most once, and the strike goes
      to the buyer it was sold to. */
  lemma {:induction false} OneStrike(cfg: Config, run: seq<Lot>, es: seq<Event>, n: nat)
    requires cfg.Valid() && IsRun(cfg, run, es) && StartsListed(run) && n <= |es|
    ensures |run[n].refusals| == RefusalsIn(cfg, run, es, n) <= 1
    ensures RefusalsIn(cfg, run, es, n) == 1 ==> exists i :: StruckFor(run[n], i)
  {
    hide Inv, StepTo, Refuses;
    var owner: UserId, base, since: Time :| run[0] == Listed(owner, base, since);
    ListedInv(cfg, owner, base, since);
    if n > 0 {
      OneStrike(cfg, run, es, n - 1);
      RunKeepsInv(cfg, run, es, n - 1);
      assert Moves(cfg, run, es, n - 1);
      StrikeStep(cfg, run[n - 1], es[n - 1], run[n]);
    }
  }

  // ---- What a lot sells for

  /** A real bid is a rung of the ladder. */
  lemma {:induction false} RealIsRung(os: seq<Offer>, i: nat) returns (m: nat)
    requires i < |os| && !os[i].instant
    ensures m < |Reals(os)| && Reals(os)[m] == os[i]
  {
    var n := |os| - 1;
    if i == n {
      m := |Reals(os[..n])|;
    } else {
      m := RealIsRung(os[..n], i);
    }
  }

  /** A lot sells for at least its start price, which is above its base price,
      and at most its ceiling, whichever way it is sold. */
  lemma SaleWithinPrices(cfg: Config, s: Lot)
    requires cfg.Valid() && Inv(cfg, s) && s.product.status == Settled
    ensures s.product.settledAmount.Some?
    ensures s.product.base * 100 < s.product.start <= s.product.settledAmount.value <= s.product.end
    ensures s.product.end <= s.product.base * 160
  {
    var os := Offers(s.bids);
    SaleAt(cfg, s, os, Reals(os), Ranking(os), Turns(s));
  }

  lemma SaleAt(cfg: Config, s: Lot, os: seq<Offer>, rs: seq<Offer>, ls: seq<nat>, k: int)
    requires cfg.Valid() && InvAt(cfg, s, os, rs, ls, k) && s.product.status == Settled
    requires os == Offers(s.bids) && rs == Reals(os) && ls == Ranking(os)
    ensures s.product.settledAmount.Some?
    ensures s.product.base * 100 < s.product.start <= s.product.settledAmount.value <= s.product.end
    ensures s.product.end <= s.product.base * 160
  {
    hide Fresh, DeadlinesRise, PaymentRows, Cache;
    Pricing.PricesOnStepAboveBase(s.product.base);
    if k > 0 {
      SoldToRanked(s, os, ls, k);
      var m := RealIsRung(os, ls[k - 1]);
      assert Rung(cfg, TermsOf(s.product), rs, m);
    } else {
      InstantUnderCeiling(s.product.base);
      if rs != [] {
        assert Rung(cfg, TermsOf(s.product), rs, |rs| - 1);
      }
    }
  }

  lemma InstantUnderCeiling(base: Pricing.Rupees)
    ensures Pricing.InstantBuyPrice(base) <= Pricing.BiddingEndPrice(base)
  {
    Pricing.PricesOnStepAboveBase(base);
    if Pricing.BiddingEndPrice(base) < Pricing.InstantBuyPrice(base) {
      OnStepGap(Pricing.BiddingEndPrice(base), Pricing.InstantBuyPrice(base));
    }
  }
}
