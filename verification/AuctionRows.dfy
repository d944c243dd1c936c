/** The rows one lot's auction reads and writes: the product, its bids, its
    settlement rounds and its payments. */
module AuctionRows {
  import opened Money
  import opened Pricing

  datatype Option<+T> = None | Some(value: T)

  type UserId = int
  type RowId = nat
  /** Milliseconds. */
  type Time = int

  datatype Status =
    | AwaitingFirstBid
    | Active
    | AwaitingInstantBuy
    | AwaitingPayment
    | Settled
    | Abandoned

  datatype Product = Product(
    owner: UserId,
    base: Rupees,
    start: Paisa,
    instant: Paisa,
    end: Paisa,
    status: Status,
    highest: Option<Paisa>,
    leader: Option<UserId>,
    startedAt: Option<Time>,
    endsAt: Option<Time>,
    winningBid: Option<RowId>,
    closedAt: Option<Time>,
    settledAt: Option<Time>,
    settledAmount: Option<Paisa>,
    abandonedAt: Option<Time>)

  /** The columns of a bid that no step ever rewrites. */
  datatype Offer = Offer(id: RowId, bidder: UserId, amount: Paisa, placedAt: Time, instant: bool)

  datatype BidPayment = NotResponsible | Pending | Confirmed | Expired

  datatype Confirmation = AdminManual | CashOnDelivery | BankApi

  datatype Bid = Bid(
    offer: Offer,
    previousHighest: Option<Paisa>,
    first: bool,
    originalWinner: bool,
    rank: nat,
    responsible: bool,
    payment: BidPayment,
    deadline: Option<Time>,
    confirmedAt: Option<Time>,
    confirmedBy: Option<Confirmation>)

  datatype RoundStatus = PendingPayment | RoundSettled | RoundExpired

  /** The columns of a settlement round that no step ever rewrites. */
  datatype Ticket = Ticket(bidId: RowId, winner: UserId, amount: Paisa, rank: nat)

  datatype Round = Round(
    id: RowId,
    ticket: Ticket,
    status: RoundStatus,
    deadline: Time,
    resolvedAt: Option<Time>)

  datatype PaymentMethod = Fonepay | Cod

  datatype PaymentStatus = PayPending | CodPending | PaySuccess | PayFailed | PayExpired

  datatype Payment = Payment(
    id: RowId,
    roundId: RowId,
    winner: UserId,
    amount: Paisa,
    means: PaymentMethod,
    status: PaymentStatus)

  /** What the courier has reported of a parcel. */
  datatype Parcel = NotSent | OnItsWay | Delivered

  /** One lot with everything that hangs off it.  `nextId` is the next fresh
      row id; `clock` is the time the last transaction took as its `now`.
      `refusals` are the buyers who refused the lot at the door, each a strike
      against them, and `returned` the payments whose parcel was sent back. */
  datatype Lot = Lot(
    product: Product,
    bids: seq<Bid>,
    rounds: seq<Round>,
    payments: seq<Payment>,
    nextId: RowId,
    clock: Time,
    refusals: seq<UserId>,
    returned: seq<RowId>)

  datatype Config = Config(
    flat: real,           // BID_INCREMENT_MIN_FLAT, in paisa
    percent: real,        // BID_INCREMENT_PERCENT, as a fraction
    biddingMs: int,       // BIDDING_DURATION_HOURS
    paymentMs: int,       // PAYMENT_WINDOW_HOURS
    holdMs: int)          // INSTANT_BUY_HOLD_SECONDS
  {
    /** What the environment schema demands at start-up. */
    predicate Valid() {
      0.0 < flat && 0.0 < percent && 0 < biddingMs && 0 < paymentMs && 0 < holdMs
    }
  }
}
