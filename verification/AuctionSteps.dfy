/** What each transaction on a lot does to its rows: the specification the
    methods of `AuctionTables.Tables` are verified against.

    `now` is the time the transaction reads after taking the product row lock.
 */
module AuctionSteps {
  import opened Money
  import opened AuctionRows
  import opened AuctionQueries
  import BidRange
  import Pricing

  datatype Error =
    // placeBid
    | BiddingNotOpen | OwnProduct | AlreadyLeading | SlotLimit | NoAmountLeft | NotOnStep | OutOfRange
    // Instant Buy
    | NotOpenForInstantBuy | InstantBuyGone | AttemptExpired
    // confirmations
    | NotAwaitingPayment | NoPaymentWindow | BadAddress | NotTheWinner | PrepaidOnly | WindowExpired
    | AlreadySettled | StaleRound
    // cash on delivery
    | PaymentNotFound | NotUncollectedCod | AlreadyDelivered
    // environment
    | NoSuchRound | PaymentInFlight | PriceFrozen
    // thrown as "data inconsistency", and the arithmetic error on a missing leader
    | Inconsistent | MissingLeader

  datatype Outcome = Done(lot: Lot) | Rejected(error: Error)

  const MAX_FALLBACK_RANK: nat := 2

  const MAX_ACTIVE_BIDS_PER_USER: nat := 10

  /** `openElsewhere` is the number of open products the user already has a bid on. */
  function PlaceBid(cfg: Config, s: Lot, user: UserId, amount: Paisa, openElsewhere: nat, now: Time): Outcome {
    var p := s.product;
    var range := BidRange.EnforcedRange(cfg, p);
    if p.status != AwaitingFirstBid && p.status != Active then Rejected(BiddingNotOpen)
    else if p.owner == user then Rejected(OwnProduct)
    else if p.leader == Some(user) then Rejected(AlreadyLeading)
    else if !HasBidBy(s.bids, user) && openElsewhere >= MAX_ACTIVE_BIDS_PER_USER then Rejected(SlotLimit)
    else if range.Fault? then Rejected(MissingLeader)
    else if range.Exhausted? then Rejected(NoAmountLeft)
    else if !OnStep(amount) then Rejected(NotOnStep)
    else if amount as real < range.min || amount as real > range.max then Rejected(OutOfRange)
    else Done(s.(
      product := BidPlaced(cfg, p, user, amount, now),
      bids := s.bids + [NewBid(s, user, amount, now)],
      nextId := s.nextId + 1,
      clock := now))
  }

  function NewBid(s: Lot, user: UserId, amount: Paisa, now: Time): Bid {
    Bid(Offer(s.nextId, user, amount, now, false), s.product.highest, s.product.status == AwaitingFirstBid,
        false, 0, false, NotResponsible, None, None, None)
  }

  function BidPlaced(cfg: Config, p: Product, user: UserId, amount: Paisa, now: Time): Product {
    (if p.status == AwaitingFirstBid
     then p.(status := Active, startedAt := Some(now), endsAt := Some(now + cfg.biddingMs))
     else p).(highest := Some(amount), leader := Some(user))
  }

  /** Either trigger closes an active auction: the timer, or the ceiling. */
  predicate ShouldClose(p: Product, now: Time) {
    || (p.endsAt.Some? && p.endsAt.value <= now)
    || (p.highest.Some? && p.highest.value >= p.end)
  }

  function CloseIfExpired(cfg: Config, s: Lot, now: Time): Outcome {
    var p := s.product;
    if p.status != Active || !ShouldClose(p, now) then Done(s.(clock := now))
    else match Top(s.bids, AnyReal)
      case None => Done(s.(clock := now))
      case Some(i) =>
        var closing := s.(
          product := p.(status := AwaitingPayment, closedAt := Some(now)),
          bids := s.bids[i := s.bids[i].(originalWinner := true)],
          clock := now);
        Done(GiveTurn(closing, i, 0, now + cfg.paymentMs))
  }

  /** Makes bid `i` responsible for payment at `rank`: marks the bid, points the
      product at it and opens its settlement round. */
  function GiveTurn(s: Lot, i: nat, rank: nat, deadline: Time): Lot
    requires i < |s.bids|
  {
    var b := s.bids[i].(rank := rank, responsible := true, payment := Pending, deadline := Some(deadline));
    s.(product := s.product.(winningBid := Some(b.offer.id)),
       bids := s.bids[i := b],
       rounds := s.rounds + [NewRound(s.nextId, b, deadline)],
       nextId := s.nextId + 1)
  }

  function TicketOf(b: Bid): Ticket {
    Ticket(b.offer.id, b.offer.bidder, b.offer.amount, b.rank)
  }

  function NewRound(id: RowId, b: Bid, deadline: Time): Round {
    Round(id, TicketOf(b), PendingPayment, deadline, None)
  }

  function StartHold(cfg: Config, s: Lot, buyer: UserId, now: Time): Outcome {
    var p := s.product;
    if p.status != AwaitingFirstBid && p.status != Active then Rejected(NotOpenForInstantBuy)
    else if p.owner == buyer then Rejected(OwnProduct)
    else if CurrentPrice(p) >= p.instant then Rejected(InstantBuyGone)
    else if Responsible(s.bids).Some? then Rejected(Inconsistent)
    else if AttemptSpent(s.bids, buyer) then Rejected(AttemptExpired)
    else
      var b := HoldBid(cfg, s, buyer, now);
      Done(s.(
        product := p.(status := AwaitingInstantBuy),
        bids := s.bids + [b],
        rounds := s.rounds + [NewRound(s.nextId + 1, b, now + cfg.holdMs)],
        nextId := s.nextId + 2,
        clock := now))
  }

  function CurrentPrice(p: Product): Paisa {
    match p.highest
    case None => p.start
    case Some(h) => h
  }

  function HoldBid(cfg: Config, s: Lot, buyer: UserId, now: Time): Bid {
    Bid(Offer(s.nextId, buyer, s.product.instant, now, true), s.product.highest, s.product.highest.None?,
        true, 0, true, Pending, Some(now + cfg.holdMs), None, None)
  }

  /** What a failed hold leaves of the product: bidding reopens, and a running
      clock gets back exactly the time the hold took. */
  function Reopened(p: Product, bids: seq<Bid>, heldSince: Time, now: Time): Product {
    if Top(bids, AnyReal).Some? then
      p.(status := Active,
         endsAt := match p.endsAt case None => None case Some(t) => Some(t + (now - heldSince)))
    else
      p.(status := AwaitingFirstBid, startedAt := None, endsAt := None)
  }

  function ReleaseHold(s: Lot, expected: Option<RowId>, now: Time): Outcome {
    var held := Responsible(s.bids);
    if s.product.status != AwaitingInstantBuy || held.None? || !s.bids[held.value].offer.instant
    then Done(s.(clock := now))
    else
      var b := s.bids[held.value];
      var round := RoundOf(s.rounds, b.offer.id);
      if expected.Some? && (round.None? || s.rounds[round.value].id != expected.value)
      then Done(s.(clock := now))
      else if round.Some? && RoundPaidFor(s.payments, s.rounds[round.value].id) then
        var bids := s.bids[held.value := b.(responsible := false, payment := NotResponsible)];
        Done(s.(
          product := Reopened(s.product, bids, b.offer.placedAt, now),
          bids := bids,
          rounds := CloseRound(s.rounds, round.value, RoundExpired, now),
          clock := now))
      else
        var bids := WithoutBid(s.bids, b.offer.id);
        Done(s.(
          product := Reopened(s.product, bids, b.offer.placedAt, now),
          bids := bids,
          rounds := WithoutRoundsOf(s.rounds, b.offer.id),
          clock := now))
  }

  function CloseRound(rounds: seq<Round>, j: nat, status: RoundStatus, now: Time): seq<Round>
    requires j < |rounds|
  {
    rounds[j := rounds[j].(status := status, resolvedAt := Some(now))]
  }

  function PaymentExpiry(cfg: Config, s: Lot, now: Time): Outcome {
    var p := s.product;
    var r := Responsible(s.bids);
    if p.status != AwaitingPayment && p.status != AwaitingInstantBuy then Done(s.(clock := now))
    else if r.None? then Done(s.(clock := now))
    else
      var b := s.bids[r.value];
      if b.deadline.None? || b.deadline.value > now then Done(s.(clock := now))
      else
        var bids := s.bids[r.value := b.(responsible := false, payment := Expired)];
        var round := RoundOf(s.rounds, b.offer.id);
        var rounds := if round.None? then s.rounds else CloseRound(s.rounds, round.value, RoundExpired, now);
        var lapsed := s.(bids := bids, rounds := rounds, clock := now);
        if b.offer.instant then
          Done(lapsed.(product := Reopened(p, bids, b.offer.placedAt, now)))
        else
          var next := if b.rank >= MAX_FALLBACK_RANK then None else Top(bids, Unserved(SpentBidders(bids)));
          match next
          case Some(i) => Done(GiveTurn(lapsed, i, b.rank + 1, now + cfg.paymentMs))
          case None => Done(lapsed.(product := p.(status := Abandoned, abandonedAt := Some(now))))
  }

  /** Settles the lot to bid `i` through round `j`. */
  function Settle(s: Lot, i: nat, j: nat, how: Confirmation, now: Time): Lot
    requires i < |s.bids| && j < |s.rounds|
  {
    var b := s.bids[i].(payment := Confirmed, confirmedAt := Some(now), confirmedBy := Some(how));
    var p := s.product.(
      status := Settled,
      settledAt := Some(now),
      winningBid := Some(b.offer.id),
      settledAmount := Some(b.offer.amount));
    s.(product := if how == BankApi && b.offer.instant
                  then p.(closedAt := Some(now), endsAt := Some(now),
                          highest := Some(b.offer.amount), leader := Some(b.offer.bidder))
                  else p,
       bids := ClearOthers(s.bids[i := b], b.offer.id),
       rounds := CloseRound(s.rounds, j, RoundSettled, now),
       clock := now)
  }

  /** Records the payment that settled the lot and retires the ones in flight. */
  function Paid(s: Lot, i: nat, j: nat, means: PaymentMethod, status: PaymentStatus): Lot
    requires i < |s.bids| && j < |s.rounds|
  {
    var o := s.bids[i].offer;
    s.(payments := RetireInFlight(s.payments + [Payment(s.nextId, s.rounds[j].id, o.bidder, o.amount, means, status)]),
       nextId := s.nextId + 1)
  }

  function ConfirmManual(s: Lot, addressOk: bool, now: Time): Outcome {
    var r := Responsible(s.bids);
    if s.product.status != AwaitingPayment then Rejected(NotAwaitingPayment)
    else if r.None? then Rejected(Inconsistent)
    else if !addressOk then Rejected(BadAddress)
    else match RoundOf(s.rounds, s.bids[r.value].offer.id)
      case None => Rejected(Inconsistent)
      case Some(j) => Done(Paid(Settle(s, r.value, j, AdminManual, now), r.value, j, Fonepay, PaySuccess))
  }

  function ConfirmCod(s: Lot, buyer: UserId, addressOk: bool, now: Time): Outcome {
    var r := Responsible(s.bids);
    if s.product.status != AwaitingPayment then Rejected(NotAwaitingPayment)
    else if r.None? then Rejected(NoPaymentWindow)
    else
      var b := s.bids[r.value];
      if b.offer.bidder != buyer then Rejected(NotTheWinner)
      else if b.offer.instant then Rejected(PrepaidOnly)
      else if b.deadline.None? || b.deadline.value <= now then Rejected(WindowExpired)
      else if !addressOk then Rejected(BadAddress)
      else match RoundOf(s.rounds, b.offer.id)
        case None => Rejected(Inconsistent)
        case Some(j) => Done(Paid(Settle(s, r.value, j, CashOnDelivery, now), r.value, j, Cod, CodPending))
  }

  function ConfirmGateway(s: Lot, expected: Option<RowId>, now: Time): Outcome {
    var r := Responsible(s.bids);
    if s.product.status == Settled then Rejected(AlreadySettled)
    else if s.product.status != AwaitingPayment && s.product.status != AwaitingInstantBuy then Rejected(StaleRound)
    else if r.None? then Rejected(Inconsistent)
    else match RoundOf(s.rounds, s.bids[r.value].offer.id)
      case None => Rejected(Inconsistent)
      case Some(j) =>
        if expected.Some? && expected.value != s.rounds[j].id then Rejected(StaleRound)
        else Done(Settle(s, r.value, j, BankApi, now))
  }

  /** The buyer refuses the parcel at the door: the sale is undone, the parcel
      goes back and the buyer gets a strike. */
  function RefuseCod(s: Lot, paymentId: RowId, parcel: Parcel, now: Time): Outcome {
    match PaymentById(s.payments, paymentId)
    case None => Rejected(PaymentNotFound)
    case Some(k) =>
      var pay := s.payments[k];
      if pay.means != Cod || pay.status != CodPending then Rejected(NotUncollectedCod)
      else if s.product.status != Settled then Rejected(Inconsistent)
      else if parcel == Delivered then Rejected(AlreadyDelivered)
      else
        var unsold := s.(
          product := s.product.(status := Abandoned, abandonedAt := Some(now),
                                settledAt := None, settledAmount := None),
          payments := s.payments[k := pay.(status := PayFailed)],
          returned := if parcel == OnItsWay then s.returned + [paymentId] else s.returned,
          refusals := s.refusals + [pay.winner],
          clock := now);
        match RoundById(s.rounds, pay.roundId)
        case None => Done(unsold)
        case Some(j) =>
          Done(unsold.(
            rounds := CloseRound(s.rounds, j, RoundExpired, now),
            bids := match BidById(s.bids, s.rounds[j].ticket.bidId)
                    case None => s.bids
                    case Some(i) => s.bids[i := s.bids[i].(payment := Expired)]))
  }

  // ---- Steps of the environment: payment attempts, couriers and price edits.

  /** A payment attempt is recorded for a round; a partial unique index allows
      one in flight per round.  The round need not be live any more. */
  function OpenPayment(s: Lot, roundId: RowId, now: Time): Outcome {
    match RoundById(s.rounds, roundId)
    case None => Rejected(NoSuchRound)
    case Some(j) =>
      if InFlight(s.payments, roundId) then Rejected(PaymentInFlight)
      else
        var t := s.rounds[j].ticket;
        Done(s.(payments := s.payments + [Payment(s.nextId, roundId, t.winner, t.amount, Fonepay, PayPending)],
                nextId := s.nextId + 1,
                clock := now))
  }

  /** A prepaid attempt that is in flight, or already given up on, is reported
      paid, failed or expired. */
  function GatewayReport(s: Lot, paymentId: RowId, report: PaymentStatus, now: Time): Outcome {
    match PaymentById(s.payments, paymentId)
    case None => Rejected(PaymentNotFound)
    case Some(k) =>
      var was := s.payments[k].status;
      if (was == PayPending || was == PayExpired) && report != CodPending && report != PayPending
      then Done(s.(payments := s.payments[k := s.payments[k].(status := report)], clock := now))
      else Done(s.(clock := now))
  }

  /** The courier delivered a cash-on-delivery parcel. */
  function CollectCod(s: Lot, paymentId: RowId, now: Time): Outcome {
    match PaymentById(s.payments, paymentId)
    case None => Rejected(PaymentNotFound)
    case Some(k) =>
      if s.payments[k].means == Cod && s.payments[k].status == CodPending
      then Done(s.(payments := s.payments[k := s.payments[k].(status := PaySuccess)], clock := now))
      else Done(s.(clock := now))
  }

  /** An admin changes the base price of a listed lot. */
  function Reprice(s: Lot, base: Pricing.Rupees, now: Time): Outcome {
    if s.product.status != AwaitingFirstBid || AnyVisible(s.product, s.bids) then Rejected(PriceFrozen)
    else
      var prices := Pricing.PricesFor(base);
      Done(s.(product := s.product.(base := base, start := prices.start, instant := prices.instant, end := prices.end),
              clock := now))
  }

  // ---- Runs.

  datatype Step =
    | StepPlaceBid(user: UserId, amount: Paisa, openElsewhere: nat)
    | StepCloseIfExpired
    | StepStartHold(buyer: UserId)
    | StepReleaseHold(expected: Option<RowId>)
    | StepPaymentExpiry
    | StepConfirmManual(addressOk: bool)
    | StepConfirmCod(buyer: UserId, addressOk: bool)
    | StepConfirmGateway(expected: Option<RowId>)
    | StepRefuseCod(payment: RowId, parcel: Parcel)
    | StepOpenPayment(round: RowId)
    | StepGatewayReport(payment: RowId, report: PaymentStatus)
    | StepCollectCod(payment: RowId)
    | StepReprice(base: Pricing.Rupees)

  function Perform(cfg: Config, s: Lot, step: Step, now: Time): Outcome {
    match step
    case StepPlaceBid(user, amount, openElsewhere) => PlaceBid(cfg, s, user, amount, openElsewhere, now)
    case StepCloseIfExpired => CloseIfExpired(cfg, s, now)
    case StepStartHold(buyer) => StartHold(cfg, s, buyer, now)
    case StepReleaseHold(expected) => ReleaseHold(s, expected, now)
    case StepPaymentExpiry => PaymentExpiry(cfg, s, now)
    case StepConfirmManual(addressOk) => ConfirmManual(s, addressOk, now)
    case StepConfirmCod(buyer, addressOk) => ConfirmCod(s, buyer, addressOk, now)
    case StepConfirmGateway(expected) => ConfirmGateway(s, expected, now)
    case StepRefuseCod(payment, parcel) => RefuseCod(s, payment, parcel, now)
    case StepOpenPayment(round) => OpenPayment(s, round, now)
    case StepGatewayReport(payment, report) => GatewayReport(s, payment, report, now)
    case StepCollectCod(payment) => CollectCod(s, payment, now)
    case StepReprice(base) => Reprice(s, base, now)
  }

  /** A transaction some time after the last one; time never runs back. */
  datatype Event = Event(elapsed: nat, step: Step)

  /** A rejected transaction is rolled back. */
  function After(s: Lot, outcome: Outcome, now: Time): Lot {
    match outcome
    case Done(lot) => lot
    case Rejected(_) => s.(clock := now)
  }

  /** A lot fresh from approval: listed, priced, nothing bid. */
  function Listed(owner: UserId, base: Pricing.Rupees, now: Time): Lot {
    var prices := Pricing.PricesFor(base);
    Lot(Product(owner, base, prices.start, prices.instant, prices.end, AwaitingFirstBid,
                None, None, None, None, None, None, None, None, None),
        [], [], [], 0, now, [], [])
  }
}
