/** The transactions on a lot as they are carried out: rows are loaded, changed
    column by column and saved, one statement after another.

    A save demands what the database would enforce: at most one bid responsible
    for payment, at most one settlement round open and at most one payment of a
    round in flight, after every statement.
 */
module AuctionTables {
  import opened Money
  import opened AuctionRows
  import opened AuctionQueries
  import opened AuctionSteps
  import opened AuctionInvariant
  import opened SettlementProofs
  import opened AuctionRuns
  import opened WhoOwes
  import BidRange
  import Pricing

  // ---- The partial unique indexes

  ghost predicate UniqueResponsible(bids: seq<Bid>) {
    forall i, j :: 0 <= i < j < |bids| ==> !(bids[i].responsible && bids[j].responsible)
  }

  ghost predicate UniqueOpen(rounds: seq<Round>) {
    forall i, j :: 0 <= i < j < |rounds| ==>
      !(rounds[i].status == PendingPayment && rounds[j].status == PendingPayment)
  }

  ghost predicate NoneResponsible(bids: seq<Bid>) {
    forall i :: 0 <= i < |bids| ==> !bids[i].responsible
  }

  ghost predicate NoneOpen(rounds: seq<Round>) {
    forall j :: 0 <= j < |rounds| ==> rounds[j].status != PendingPayment
  }

  lemma IndexesHold(cfg: Config, s: Lot)
    requires Inv(cfg, s)
    ensures UniqueResponsible(s.bids) && UniqueOpen(s.rounds) && OneInFlight(s.payments)
    ensures s.product.status == AwaitingFirstBid || s.product.status == Active ==>
              NoneResponsible(s.bids) && NoneOpen(s.rounds)
  {
    AttemptsApart(cfg, s);
    hide Inv;
    var i, j := FourViewsAgree(cfg, s);
    hide OneInFlight;
  }

  lemma AttemptsApart(cfg: Config, s: Lot)
    requires Inv(cfg, s)
    ensures OneInFlight(s.payments)
  {
    assert PaymentRows(s, Turns(s));
  }

  /** With the responsible bid and its round closed nothing is owed any more. */
  lemma DebtorCleared(cfg: Config, s: Lot)
    requires Inv(cfg, s) && PaymentDue(s.product)
    ensures Responsible(s.bids).Some?
    ensures var i := Responsible(s.bids).value;
            && (forall l :: 0 <= l < |s.bids| && l != i ==> !s.bids[l].responsible)
            && RoundOf(s.rounds, s.bids[i].offer.id).Some?
            && (forall l :: 0 <= l < |s.rounds| && l != RoundOf(s.rounds, s.bids[i].offer.id).value ==>
                  s.rounds[l].status != PendingPayment)
  {
    hide Inv;
    var i, j := FourViewsAgree(cfg, s);
    var id := s.bids[i].offer.id;
    var k := RoundOf(s.rounds, id);
    if k.Some? && k.value != j {
      OneRoundPerBid(cfg, s, k.value, j);
      OneRoundPerBid(cfg, s, j, k.value);
    }
  }

  lemma DebtorLapses(cfg: Config, s: Lot, now: Time)
    requires Inv(cfg, s) && PaymentDue(s.product) && Responsible(s.bids).Some?
    ensures var i := Responsible(s.bids).value;
            var j := RoundOf(s.rounds, s.bids[i].offer.id);
            && NoneResponsible(s.bids[i := s.bids[i].(responsible := false, payment := BidPayment.Expired)])
            && j.Some? && NoneOpen(CloseRound(s.rounds, j.value, RoundExpired, now))
  {
    hide Inv, Responsible, RoundOf;
    DebtorCleared(cfg, s);
  }

  /** Deleting rows leaves the indexes intact. */
  lemma {:induction false} BidGoneUnique(bids: seq<Bid>, id: RowId)
    requires UniqueResponsible(bids)
    ensures UniqueResponsible(WithoutBid(bids, id))
  {
    if bids != [] {
      BidGoneUnique(bids[..|bids| - 1], id);
      assert bids == bids[..|bids| - 1] + [bids[|bids| - 1]];
    }
  }

  lemma {:induction false} RoundsGoneUnique(rounds: seq<Round>, bidId: RowId)
    requires UniqueOpen(rounds)
    ensures UniqueOpen(WithoutRoundsOf(rounds, bidId))
  {
    if rounds != [] {
      RoundsGoneUnique(rounds[..|rounds| - 1], bidId);
      assert rounds == rounds[..|rounds| - 1] + [rounds[|rounds| - 1]];
    }
  }

  /** No payment refers to a round that covers this bid. */
  ghost predicate Unpaid(rounds: seq<Round>, payments: seq<Payment>, bidId: RowId) {
    forall j :: 0 <= j < |rounds| && rounds[j].ticket.bidId == bidId ==> !RoundPaidFor(payments, rounds[j].id)
  }

  /** The round a query finds for a bid is its only one. */
  lemma OnlyRoundUnpaid(cfg: Config, s: Lot, bidId: RowId)
    requires Inv(cfg, s)
    requires var found := RoundOf(s.rounds, bidId); found.Some? ==> !RoundPaidFor(s.payments, s.rounds[found.value].id)
    ensures Unpaid(s.rounds, s.payments, bidId)
  {
    hide Inv, RoundPaidFor;
    forall j | 0 <= j < |s.rounds| && s.rounds[j].ticket.bidId == bidId
      ensures !RoundPaidFor(s.payments, s.rounds[j].id)
    {
      var k := RoundOf(s.rounds, bidId).value;
      OneRoundPerBid(cfg, s, j, k);
      OneRoundPerBid(cfg, s, k, j);
    }
  }

  lemma SavedUnique(bids: seq<Bid>, i: nat, b: Bid)
    requires UniqueResponsible(bids) && i < |bids| && (b.responsible ==> bids[i].responsible)
    ensures UniqueResponsible(bids[i := b])
  {
  }

  lemma PaymentAddedApart(payments: seq<Payment>, pay: Payment)
    requires OneInFlight(payments) && (pay.status == PayPending ==> !InFlight(payments, pay.roundId))
    ensures OneInFlight(payments + [pay])
  {
    forall i: nat, j: nat ensures FlightsApart(payments + [pay], i, j) {
      assert FlightsApart(payments, i, j);
    }
  }

  lemma PaymentSavedApart(payments: seq<Payment>, i: nat, pay: Payment)
    requires i < |payments| && OneInFlight(payments) && pay.status != PayPending
    ensures OneInFlight(payments[i := pay])
  {
    var saved := payments[i := pay];
    forall k: nat, l: nat ensures FlightsApart(saved, k, l) {
      assert FlightsApart(payments, k, l);
    }
  }

  lemma StepKept(cfg: Config, s: Lot, step: Step, now: Time)
    requires cfg.Valid() && Inv(cfg, s) && s.clock <= now
    ensures Inv(cfg, After(s, Perform(cfg, s, step, now), now))
  {
    hide Inv;
    var outcome := Perform(cfg, s, step, now);
    OutcomeInv(cfg, s, step, now, outcome, After(s, outcome, now));
  }

  // What each method below performs.

  lemma BidPerformed(cfg: Config, s: Lot, user: UserId, amount: Paisa, openElsewhere: nat, now: Time)
    ensures Perform(cfg, s, StepPlaceBid(user, amount, openElsewhere), now) ==
              AuctionSteps.PlaceBid(cfg, s, user, amount, openElsewhere, now)
  {
  }

  lemma ClosingPerformed(cfg: Config, s: Lot, now: Time)
    ensures Perform(cfg, s, StepCloseIfExpired, now) == AuctionSteps.CloseIfExpired(cfg, s, now)
  {
  }

  lemma HoldPerformed(cfg: Config, s: Lot, buyer: UserId, now: Time)
    ensures Perform(cfg, s, StepStartHold(buyer), now) == AuctionSteps.StartHold(cfg, s, buyer, now)
  {
  }

  lemma ReleasePerformed(cfg: Config, s: Lot, expected: Option<RowId>, now: Time)
    ensures Perform(cfg, s, StepReleaseHold(expected), now) == AuctionSteps.ReleaseHold(s, expected, now)
  {
  }

  lemma ExpiryPerformed(cfg: Config, s: Lot, now: Time)
    ensures Perform(cfg, s, StepPaymentExpiry, now) == AuctionSteps.PaymentExpiry(cfg, s, now)
  {
  }

  lemma ManualPerformed(cfg: Config, s: Lot, addressOk: bool, now: Time)
    ensures Perform(cfg, s, StepConfirmManual(addressOk), now) == AuctionSteps.ConfirmManual(s, addressOk, now)
  {
  }

  lemma CodPerformed(cfg: Config, s: Lot, buyer: UserId, addressOk: bool, now: Time)
    ensures Perform(cfg, s, StepConfirmCod(buyer, addressOk), now) == AuctionSteps.ConfirmCod(s, buyer, addressOk, now)
  {
  }

  lemma GatewayPerformed(cfg: Config, s: Lot, expected: Option<RowId>, now: Time)
    ensures Perform(cfg, s, StepConfirmGateway(expected), now) == AuctionSteps.ConfirmGateway(s, expected, now)
  {
  }

  lemma RefusalPerformed(cfg: Config, s: Lot, paymentId: RowId, parcel: Parcel, now: Time)
    ensures Perform(cfg, s, StepRefuseCod(paymentId, parcel), now) == AuctionSteps.RefuseCod(s, paymentId, parcel, now)
  {
  }

  function ErrorOf(outcome: Outcome): Option<Error> {
    match outcome
    case Done(_) => None
    case Rejected(e) => Some(e)
  }

  class Tables {
    const cfg: Config
    var product: Product
    var bids: seq<Bid>
    var rounds: seq<Round>
    var payments: seq<Payment>
    var nextId: RowId
    var clock: Time
    var refusals: seq<UserId>
    var returned: seq<RowId>

    ghost function View(): Lot
      reads this
    {
      Lot(product, bids, rounds, payments, nextId, clock, refusals, returned)
    }

    ghost predicate Valid()
      reads this
    {
      cfg.Valid() && Inv(cfg, View())
    }

    /** A lot as it is listed. */
    constructor (cfg: Config, owner: UserId, base: Pricing.Rupees, now: Time)
      requires cfg.Valid()
      ensures Valid() && this.cfg == cfg && View() == Listed(owner, base, now)
    {
      var prices := Pricing.PricesFor(base);
      this.cfg := cfg;
      product := Product(owner, base, prices.start, prices.instant, prices.end, AwaitingFirstBid,
                         None, None, None, None, None, None, None, None, None);
      bids, rounds, payments, nextId, clock := [], [], [], 0, now;
      refusals, returned := [], [];
      new;
      ListedInv(cfg, owner, base, now);
    }

    // ---- Statements

    method InsertBid(b: Bid)
      requires UniqueResponsible(bids + [b])
      modifies this`bids
      ensures bids == old(bids) + [b]
    {
      bids := bids + [b];
    }

    method SaveBid(i: nat, b: Bid)
      requires i < |bids| && UniqueResponsible(bids[i := b])
      modifies this`bids
      ensures bids == old(bids)[i := b]
    {
      bids := bids[i := b];
    }

    method InsertRound(r: Round)
      requires UniqueOpen(rounds + [r])
      modifies this`rounds
      ensures rounds == old(rounds) + [r]
    {
      rounds := rounds + [r];
    }

    method SaveRound(j: nat, r: Round)
      requires j < |rounds| && UniqueOpen(rounds[j := r])
      modifies this`rounds
      ensures rounds == old(rounds)[j := r]
    {
      rounds := rounds[j := r];
    }

    /** Every bid but one becomes NOT_RESPONSIBLE, in one statement. */
    method ClearOtherBids(id: RowId)
      requires UniqueResponsible(ClearOthers(bids, id))
      modifies this`bids
      ensures bids == ClearOthers(old(bids), id)
    {
      bids := ClearOthers(bids, id);
    }

    /** Payments refer to rounds and rounds to bids; neither may lose what it
        refers to. */
    method DeleteRoundsOf(bidId: RowId)
      requires UniqueOpen(WithoutRoundsOf(rounds, bidId)) && Unpaid(rounds, payments, bidId)
      modifies this`rounds
      ensures rounds == WithoutRoundsOf(old(rounds), bidId)
    {
      rounds := WithoutRoundsOf(rounds, bidId);
    }

    method DeleteBid(id: RowId)
      requires UniqueResponsible(WithoutBid(bids, id))
      requires forall j :: 0 <= j < |rounds| ==> rounds[j].ticket.bidId != id
      modifies this`bids
      ensures bids == WithoutBid(old(bids), id)
    {
      bids := WithoutBid(bids, id);
    }

    /** At most one payment of a round may be in flight. */
    method InsertPayment(pay: Payment)
      requires OneInFlight(payments) && (pay.status == PayPending ==> !InFlight(payments, pay.roundId))
      modifies this`payments
      ensures payments == old(payments) + [pay] && OneInFlight(payments)
    {
      PaymentAddedApart(payments, pay);
      payments := payments + [pay];
    }

    method SavePayment(i: nat, pay: Payment)
      requires i < |payments| && OneInFlight(payments) && pay.status != PayPending
      modifies this`payments
      ensures payments == old(payments)[i := pay] && OneInFlight(payments)
    {
      PaymentSavedApart(payments, i, pay);
      payments := payments[i := pay];
    }

    /** Every payment in flight is retired, in one statement. */
    method RetireAttempts()
      modifies this`payments
      ensures payments == RetireInFlight(old(payments)) && OneInFlight(payments)
    {
      payments := RetireInFlight(payments);
      forall i: nat, j: nat ensures FlightsApart(payments, i, j) {}
    }

    /** The next unused row id. */
    method FreshId() returns (id: RowId)
      modifies this`nextId
      ensures id == old(nextId) && nextId == old(nextId) + 1
    {
      id := nextId;
      nextId := nextId + 1;
    }

    // ---- Statements that go together

    /** The bid that paid is saved and every other cleared. */
    method SettleBid(i: nat, bid: Bid)
      requires i < |bids| && UniqueResponsible(bids) && (bid.responsible ==> bids[i].responsible)
      modifies this`bids
      ensures bids == ClearOthers(old(bids)[i := bid], bid.offer.id)
    {
      SaveBid(i, bid);
      ClearOtherBids(bid.offer.id);
    }

    /** A round is settled or expires. */
    method ResolveRound(j: nat, status: RoundStatus, now: Time)
      requires j < |rounds| && UniqueOpen(rounds) && status != PendingPayment
      modifies this`rounds
      ensures rounds == CloseRound(old(rounds), j, status, now)
    {
      var round := rounds[j];
      round := round.(status := status);
      round := round.(resolvedAt := Some(now));
      SaveRound(j, round);
    }

    /** The payment of a sale is recorded, and attempts still in flight are retired. */
    method RecordPayment(pay: Payment)
      requires OneInFlight(payments) && pay.status != PayPending
      modifies this`payments
      ensures payments == RetireInFlight(old(payments) + [pay])
    {
      InsertPayment(pay);
      RetireAttempts();
    }

    /** The round a refused payment was for expires, and with it the bid. */
    method ExpireSale(roundId: RowId, now: Time)
      requires UniqueResponsible(bids) && UniqueOpen(rounds)
      modifies this`bids, this`rounds
      ensures var found := RoundById(old(rounds), roundId);
              if found.None? then rounds == old(rounds) && bids == old(bids)
              else
                && rounds == CloseRound(old(rounds), found.value, RoundExpired, now)
                && var sold := BidById(old(bids), old(rounds)[found.value].ticket.bidId);
                   bids == if sold.None? then old(bids)
                           else old(bids)[sold.value := old(bids)[sold.value].(payment := BidPayment.Expired)]
    {
      hide UniqueResponsible, UniqueOpen, RoundById, BidById;
      var found := RoundById(rounds, roundId);
      if found.None? {
        return;
      }
      ResolveRound(found.value, RoundExpired, now);
      var sold := BidById(bids, rounds[found.value].ticket.bidId);
      if sold.Some? {
        var bid := bids[sold.value].(payment := BidPayment.Expired);
        SavedUnique(bids, sold.value, bid);
        SaveBid(sold.value, bid);
      }
    }

    // ---- Placing a bid

    method PlaceBid(user: UserId, amount: Paisa, openElsewhere: nat, now: Time) returns (error: Option<Error>)
      requires Valid() && clock <= now
      modifies this
      ensures Valid()
      ensures var outcome := AuctionSteps.PlaceBid(cfg, old(View()), user, amount, openElsewhere, now);
              View() == After(old(View()), outcome, now) && error == ErrorOf(outcome)
    {
      hide Inv, Perform;
      ghost var s := View();
      IndexesHold(cfg, s);
      BidPerformed(cfg, s, user, amount, openElsewhere, now);
      StepKept(cfg, s, StepPlaceBid(user, amount, openElsewhere), now);
      clock := now;
      if product.status != AwaitingFirstBid && product.status != Active {
        return Some(BiddingNotOpen);
      }
      if product.owner == user {
        return Some(OwnProduct);
      }
      if product.leader == Some(user) {
        return Some(AlreadyLeading);
      }
      if !HasBidBy(bids, user) {
        if openElsewhere >= MAX_ACTIVE_BIDS_PER_USER {
          return Some(SlotLimit);
        }
      }
      var range := BidRange.EnforcedRange(cfg, product);
      if range.Fault? {
        return Some(MissingLeader);
      }
      if range.Exhausted? {
        return Some(NoAmountLeft);
      }
      if !OnStep(amount) {
        return Some(NotOnStep);
      }
      if amount as real < range.min || amount as real > range.max {
        return Some(OutOfRange);
      }
      var id := FreshId();
      var bid := Bid(Offer(id, user, amount, now, false), product.highest, product.status == AwaitingFirstBid,
                     false, 0, false, NotResponsible, None, None, None);
      var p := product;
      if p.status == AwaitingFirstBid {
        p := p.(status := Active);
        p := p.(startedAt := Some(now));
        p := p.(endsAt := Some(now + cfg.biddingMs));
      }
      p := p.(highest := Some(amount));
      p := p.(leader := Some(user));
      InsertBid(bid);
      product := p;
      return None;
    }

    // ---- Closing the auction

    method CloseIfExpired(now: Time)
      requires Valid() && clock <= now
      modifies this
      ensures Valid()
      ensures View() == After(old(View()), AuctionSteps.CloseIfExpired(cfg, old(View()), now), now)
    {
      hide Inv, Perform;
      ghost var s := View();
      IndexesHold(cfg, s);
      ClosingPerformed(cfg, s, now);
      StepKept(cfg, s, StepCloseIfExpired, now);
      clock := now;
      if product.status != Active {
        return;
      }
      var timerExpired := product.endsAt.Some? && product.endsAt.value <= now;
      var ceilingReached := product.highest.Some? && product.highest.value >= product.end;
      if !timerExpired && !ceilingReached {
        return;
      }
      var highest := Top(bids, AnyReal);
      if highest.None? {
        return;
      }
      var i := highest.value;
      var deadline := now + cfg.paymentMs;
      var bid := bids[i];
      bid := bid.(originalWinner := true);
      bid := bid.(rank := 0);
      bid := bid.(responsible := true);
      bid := bid.(payment := Pending);
      bid := bid.(deadline := Some(deadline));
      var p := product;
      p := p.(status := AwaitingPayment);
      p := p.(closedAt := Some(now));
      p := p.(winningBid := Some(bid.offer.id));
      SaveBid(i, bid);
      product := p;
      var id := FreshId();
      InsertRound(Round(id, Ticket(bid.offer.id, bid.offer.bidder, bid.offer.amount, 0),
                        PendingPayment, deadline, None));
      assert View() == After(s, AuctionSteps.CloseIfExpired(cfg, s, now), now);
    }

    // ---- Instant Buy

    method StartHold(buyer: UserId, now: Time) returns (error: Option<Error>)
      requires Valid() && clock <= now
      modifies this
      ensures Valid()
      ensures var outcome := AuctionSteps.StartHold(cfg, old(View()), buyer, now);
              View() == After(old(View()), outcome, now) && error == ErrorOf(outcome)
    {
      hide Inv, Perform;
      ghost var s := View();
      IndexesHold(cfg, s);
      HoldPerformed(cfg, s, buyer, now);
      StepKept(cfg, s, StepStartHold(buyer), now);
      clock := now;
      if product.status != AwaitingFirstBid && product.status != Active {
        return Some(NotOpenForInstantBuy);
      }
      if product.owner == buyer {
        return Some(OwnProduct);
      }
      var current := if product.highest.Some? then product.highest.value else product.start;
      if current >= product.instant {
        return Some(InstantBuyGone);
      }
      if Responsible(bids).Some? {
        return Some(Inconsistent);
      }
      if AttemptSpent(bids, buyer) {
        return Some(AttemptExpired);
      }
      var deadline := now + cfg.holdMs;
      var bidId := FreshId();
      var bid := Bid(Offer(bidId, buyer, product.instant, now, true), product.highest, product.highest.None?,
                     true, 0, true, Pending, Some(deadline), None, None);
      InsertBid(bid);
      product := product.(status := AwaitingInstantBuy);
      var roundId := FreshId();
      InsertRound(Round(roundId, Ticket(bidId, buyer, bid.offer.amount, 0), PendingPayment, deadline, None));
      return None;
    }

    /** Reopens bidding on a product row loaded by the caller, who saves it. */
    method Revert(p: Product, heldSince: Time, now: Time) returns (p': Product)
      ensures p' == Reopened(p, bids, heldSince, now)
    {
      p' := p;
      if Top(bids, AnyReal).Some? {
        p' := p'.(status := Active);
        if p'.endsAt.Some? {
          var heldMs := now - heldSince;
          p' := p'.(endsAt := Some(p'.endsAt.value + heldMs));
        }
      } else {
        p' := p'.(status := AwaitingFirstBid);
        p' := p'.(startedAt := None);
        p' := p'.(endsAt := None);
      }
    }

    method ReleaseHold(expected: Option<RowId>, now: Time)
      requires Valid() && clock <= now
      modifies this
      ensures Valid()
      ensures View() == After(old(View()), AuctionSteps.ReleaseHold(old(View()), expected, now), now)
    {
      hide Inv, Perform, RoundOf, Responsible, RoundById, BidById, PaymentById, WithoutBid, WithoutRoundsOf;
      ghost var s := View();
      IndexesHold(cfg, s);
      ReleasePerformed(cfg, s, expected, now);
      StepKept(cfg, s, StepReleaseHold(expected), now);
      clock := now;
      if product.status != AwaitingInstantBuy {
        return;
      }
      var held := Responsible(bids);
      if held.None? || !bids[held.value].offer.instant {
        return;
      }
      var bid := bids[held.value];
      var found := RoundOf(rounds, bid.offer.id);
      if expected.Some? && (found.None? || rounds[found.value].id != expected.value) {
        return;
      }
      if found.Some? && RoundPaidFor(payments, rounds[found.value].id) {
        bid := bid.(responsible := false);
        bid := bid.(payment := NotResponsible);
        SaveBid(held.value, bid);
        ResolveRound(found.value, RoundExpired, now);
      } else {
        BidGoneUnique(bids, bid.offer.id);
        RoundsGoneUnique(rounds, bid.offer.id);
        OnlyRoundUnpaid(cfg, s, bid.offer.id);
        DeleteRoundsOf(bid.offer.id);
        DeleteBid(bid.offer.id);
      }
      product := Revert(product, bid.offer.placedAt, now);
    }

    // ---- A payment window that lapsed

    /** The responsible bid and its round expire. */
    method Lapse(i: nat, now: Time)
      requires i < |bids| && UniqueResponsible(bids) && UniqueOpen(rounds)
      modifies this`bids, this`rounds
      ensures bids == old(bids)[i := old(bids)[i].(responsible := false, payment := BidPayment.Expired)]
      ensures var found := RoundOf(old(rounds), old(bids)[i].offer.id);
              rounds == if found.None? then old(rounds) else CloseRound(old(rounds), found.value, RoundExpired, now)
    {
      var bid := bids[i];
      bid := bid.(payment := BidPayment.Expired);
      bid := bid.(responsible := false);
      SaveBid(i, bid);
      var found := RoundOf(rounds, bid.offer.id);
      if found.Some? {
        ResolveRound(found.value, RoundExpired, now);
      }
    }

    /** The next bidder becomes responsible, and their round opens. */
    method PassOn(i: nat, rank: nat, now: Time)
      requires i < |bids| && NoneResponsible(bids) && NoneOpen(rounds)
      modifies this
      ensures View() == GiveTurn(old(View()), i, rank, now + cfg.paymentMs)
    {
      var deadline := now + cfg.paymentMs;
      var bid := bids[i];
      bid := bid.(rank := rank);
      bid := bid.(responsible := true);
      bid := bid.(payment := Pending);
      bid := bid.(deadline := Some(deadline));
      SaveBid(i, bid);
      product := product.(winningBid := Some(bid.offer.id));
      var id := FreshId();
      InsertRound(Round(id, Ticket(bid.offer.id, bid.offer.bidder, bid.offer.amount, bid.rank),
                        PendingPayment, deadline, None));
    }

    method PaymentExpiry(now: Time)
      requires Valid() && clock <= now
      modifies this
      ensures Valid()
      ensures View() == After(old(View()), AuctionSteps.PaymentExpiry(cfg, old(View()), now), now)
    {
      hide Inv, Perform, Top, SpentBidders, RoundOf, Responsible, Reopened, CloseRound, GiveTurn;
      hide UniqueResponsible, UniqueOpen, OneInFlight, NoneResponsible, NoneOpen;
      ghost var s := View();
      IndexesHold(cfg, s);
      ExpiryPerformed(cfg, s, now);
      StepKept(cfg, s, StepPaymentExpiry, now);
      clock := now;
      if product.status != AwaitingPayment && product.status != AwaitingInstantBuy {
        return;
      }
      var responsible := Responsible(bids);
      if responsible.None? {
        return;
      }
      var bid := bids[responsible.value];
      DebtorLapses(cfg, s, now);
      if bid.deadline.None? || bid.deadline.value > now {
        return;
      }
      Lapse(responsible.value, now);
      var exhausted := bid.rank >= MAX_FALLBACK_RANK;
      var next := None;
      if !bid.offer.instant && !exhausted {
        next := Top(bids, Unserved(SpentBidders(bids)));
      }
      if bid.offer.instant {
        product := Revert(product, bid.offer.placedAt, now);
      } else if next.Some? {
        PassOn(next.value, bid.rank + 1, now);
      } else {
        product := product.(status := Abandoned);
        product := product.(abandonedAt := Some(now));
      }
    }

    // ---- Confirmations

    /** The columns of the confirmed bid and the sold product. */
    method Confirmed(i: nat, how: Confirmation, now: Time) returns (bid: Bid, p: Product)
      requires i < |bids|
      ensures bid == bids[i].(payment := BidPayment.Confirmed, confirmedAt := Some(now), confirmedBy := Some(how))
      ensures p == product.(status := Settled, settledAt := Some(now),
                            winningBid := Some(bid.offer.id), settledAmount := Some(bid.offer.amount))
    {
      bid := bids[i];
      bid := bid.(payment := BidPayment.Confirmed);
      bid := bid.(confirmedAt := Some(now));
      bid := bid.(confirmedBy := Some(how));
      p := product;
      p := p.(status := Settled);
      p := p.(settledAt := Some(now));
      p := p.(winningBid := Some(bid.offer.id));
      p := p.(settledAmount := Some(bid.offer.amount));
    }

    method ConfirmManual(addressOk: bool, now: Time) returns (error: Option<Error>)
      requires Valid() && clock <= now
      modifies this
      ensures Valid()
      ensures var outcome := AuctionSteps.ConfirmManual(old(View()), addressOk, now);
              View() == After(old(View()), outcome, now) && error == ErrorOf(outcome)
    {
      hide Inv, Perform, RoundOf, Responsible, UniqueResponsible, UniqueOpen, OneInFlight, ClearOthers, RetireInFlight;
      ghost var s := View();
      IndexesHold(cfg, s);
      ManualPerformed(cfg, s, addressOk, now);
      StepKept(cfg, s, StepConfirmManual(addressOk), now);
      clock := now;
      if product.status != AwaitingPayment {
        return Some(NotAwaitingPayment);
      }
      var responsible := Responsible(bids);
      if responsible.None? {
        return Some(Inconsistent);
      }
      if !addressOk {
        return Some(BadAddress);
      }
      var i := responsible.value;
      var productBefore, bidsBefore := product, bids;
      var bid, p := Confirmed(i, AdminManual, now);
      SettleBid(i, bid);
      product := p;
      var found := RoundOf(rounds, bid.offer.id);
      if found.None? {
        // The transaction is rolled back.
        product, bids := productBefore, bidsBefore;
        return Some(Inconsistent);
      }
      ResolveRound(found.value, RoundSettled, now);
      var id := FreshId();
      RecordPayment(Payment(id, rounds[found.value].id, bid.offer.bidder, bid.offer.amount, Fonepay, PaySuccess));
      return None;
    }

    method ConfirmCod(buyer: UserId, addressOk: bool, now: Time) returns (error: Option<Error>)
      requires Valid() && clock <= now
      modifies this
      ensures Valid()
      ensures var outcome := AuctionSteps.ConfirmCod(old(View()), buyer, addressOk, now);
              View() == After(old(View()), outcome, now) && error == ErrorOf(outcome)
    {
      hide Inv, Perform, RoundOf, Responsible, UniqueResponsible, UniqueOpen, OneInFlight, ClearOthers, RetireInFlight;
      ghost var s := View();
      IndexesHold(cfg, s);
      CodPerformed(cfg, s, buyer, addressOk, now);
      StepKept(cfg, s, StepConfirmCod(buyer, addressOk), now);
      clock := now;
      if product.status != AwaitingPayment {
        return Some(NotAwaitingPayment);
      }
      var responsible := Responsible(bids);
      if responsible.None? {
        return Some(NoPaymentWindow);
      }
      var i := responsible.value;
      if bids[i].offer.bidder != buyer {
        return Some(NotTheWinner);
      }
      if bids[i].offer.instant {
        return Some(PrepaidOnly);
      }
      if bids[i].deadline.None? || bids[i].deadline.value <= now {
        return Some(WindowExpired);
      }
      if !addressOk {
        return Some(BadAddress);
      }
      var found := RoundOf(rounds, bids[i].offer.id);
      if found.None? {
        return Some(Inconsistent);
      }
      var bid, p := Confirmed(i, CashOnDelivery, now);
      SettleBid(i, bid);
      product := p;
      ResolveRound(found.value, RoundSettled, now);
      var id := FreshId();
      RecordPayment(Payment(id, rounds[found.value].id, buyer, bid.offer.amount, Cod, CodPending));
      return None;
    }

    method ConfirmGateway(expected: Option<RowId>, now: Time) returns (error: Option<Error>)
      requires Valid() && clock <= now
      modifies this
      ensures Valid()
      ensures var outcome := AuctionSteps.ConfirmGateway(old(View()), expected, now);
              View() == After(old(View()), outcome, now) && error == ErrorOf(outcome)
    {
      hide Inv, Perform, RoundOf, Responsible, UniqueResponsible, UniqueOpen, ClearOthers, CloseRound, RetireInFlight;
      ghost var s := View();
      IndexesHold(cfg, s);
      GatewayPerformed(cfg, s, expected, now);
      StepKept(cfg, s, StepConfirmGateway(expected), now);
      clock := now;
      if product.status == Settled {
        return Some(AlreadySettled);
      }
      if product.status != AwaitingPayment && product.status != AwaitingInstantBuy {
        return Some(StaleRound);
      }
      var responsible := Responsible(bids);
      if responsible.None? {
        return Some(Inconsistent);
      }
      var i := responsible.value;
      var found := RoundOf(rounds, bids[i].offer.id);
      if found.None? {
        return Some(Inconsistent);
      }
      if expected.Some? && expected.value != rounds[found.value].id {
        return Some(StaleRound);
      }
      var bid, p := Confirmed(i, BankApi, now);
      if bid.offer.instant {
        p := p.(closedAt := Some(now));
        p := p.(endsAt := Some(now));
        p := p.(highest := Some(bid.offer.amount));
        p := p.(leader := Some(bid.offer.bidder));
      }
      SettleBid(i, bid);
      ResolveRound(found.value, RoundSettled, now);
      product := p;
      return None;
    }

    // ---- Cash on delivery refused at the door

    method RefuseCod(paymentId: RowId, parcel: Parcel, now: Time) returns (error: Option<Error>)
      requires Valid() && clock <= now
      modifies this
      ensures Valid()
      ensures var outcome := AuctionSteps.RefuseCod(old(View()), paymentId, parcel, now);
              View() == After(old(View()), outcome, now) && error == ErrorOf(outcome)
    {
      hide Inv, Perform, RoundById, BidById, PaymentById, UniqueResponsible, UniqueOpen, OneInFlight;
      ghost var s := View();
      IndexesHold(cfg, s);
      RefusalPerformed(cfg, s, paymentId, parcel, now);
      StepKept(cfg, s, StepRefuseCod(paymentId, parcel), now);
      clock := now;
      var k := PaymentById(payments, paymentId);
      if k.None? {
        return Some(PaymentNotFound);
      }
      var payment := payments[k.value];
      if payment.means != Cod || payment.status != CodPending {
        return Some(NotUncollectedCod);
      }
      if product.status != Settled {
        return Some(Inconsistent);
      }
      if parcel == Delivered {
        return Some(AlreadyDelivered);
      }
      payment := payment.(status := PayFailed);
      SavePayment(k.value, payment);
      if parcel == OnItsWay {
        returned := returned + [paymentId];
      }
      ExpireSale(payment.roundId, now);
      product := product.(status := Abandoned);
      product := product.(abandonedAt := Some(now));
      product := product.(settledAt := None);
      product := product.(settledAmount := None);
      refusals := refusals + [payment.winner];
      return None;
    }

    // ---- A change of the base price

    method Reprice(base: Pricing.Rupees, now: Time) returns (error: Option<Error>)
      requires Valid() && clock <= now
      modifies this
      ensures Valid()
      ensures var outcome := AuctionSteps.Reprice(old(View()), base, now);
              View() == After(old(View()), outcome, now) && error == ErrorOf(outcome)
    {
      hide Inv;
      ghost var s := View();
      StepKept(cfg, s, StepReprice(base), now);
      clock := now;
      if product.status != AwaitingFirstBid || AnyVisible(product, bids) {
        return Some(PriceFrozen);
      }
      var p := product;
      p := p.(base := base);
      p := p.(start := Pricing.BiddingStartPrice(base));
      p := p.(instant := Pricing.InstantBuyPrice(base));
      p := p.(end := Pricing.BiddingEndPrice(base));
      product := p;
      return None;
    }
  }
}
