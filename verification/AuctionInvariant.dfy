/** What holds of a lot's rows in every reachable state. */
module AuctionInvariant {
  import opened Money
  import opened AuctionRows
  import opened AuctionSteps
  import opened Leaderboard
  import BidRange
  import Pricing

  function Offers(bids: seq<Bid>): (os: seq<Offer>)
    ensures |os| == |bids|
    ensures forall i :: 0 <= i < |bids| ==> os[i] == bids[i].offer
  {
    seq(|bids|, i requires 0 <= i < |bids| => bids[i].offer)
  }

  function Tickets(rounds: seq<Round>): (ts: seq<Ticket>)
    ensures |ts| == |rounds|
    ensures forall i :: 0 <= i < |rounds| ==> ts[i] == rounds[i].ticket
  {
    seq(|rounds|, i requires 0 <= i < |rounds| => rounds[i].ticket)
  }

  /** The number of bidders who have had the win so far: every round beyond
      those of the Instant Buy holds. */
  function Turns(s: Lot): int {
    |s.rounds| - |HoldTickets(Offers(s.bids))|
  }

  // ---- Row ids.

  function BidIds(bids: seq<Bid>): (ids: seq<RowId>) {
    seq(|bids|, i requires 0 <= i < |bids| => bids[i].offer.id)
  }

  function RoundIds(rounds: seq<Round>): (ids: seq<RowId>) {
    seq(|rounds|, i requires 0 <= i < |rounds| => rounds[i].id)
  }

  function PaymentIds(payments: seq<Payment>): (ids: seq<RowId>) {
    seq(|payments|, i requires 0 <= i < |payments| => payments[i].id)
  }

  // Pairwise statements are about a named relation, so that the verifier
  // instantiates them only where a proof mentions it.
  ghost predicate Before(ids: seq<RowId>, i: nat, j: nat) {
    i < j < |ids| ==> ids[i] < ids[j]
  }

  ghost predicate Ascending(ids: seq<RowId>, next: RowId) {
    && (forall i :: 0 <= i < |ids| ==> ids[i] < next)
    && (forall i: nat, j: nat :: Before(ids, i, j))
  }

  lemma AscendingPush(ids: seq<RowId>, next: RowId, id: RowId, next': RowId)
    requires Ascending(ids, next) && next <= id < next'
    ensures Ascending(ids + [id], next')
  {
    forall i: nat, j: nat ensures Before(ids + [id], i, j) {
      assert Before(ids, i, j);
    }
  }

  /** Ids are handed out in order, and none twice. */
  ghost predicate Fresh(s: Lot) {
    && Ascending(BidIds(s.bids), s.nextId)
    && Ascending(RoundIds(s.rounds), s.nextId)
    && Ascending(PaymentIds(s.payments), s.nextId)
  }

  // ---- The bids placed in the auction.

  /** The largest amount that may follow a leading amount. */
  function Cap(cfg: Config, leading: Paisa): real {
    var flat, raised := leading as real + cfg.flat, BidRange.Raised(leading, cfg.percent);
    if flat > raised then flat else raised
  }

  /** What the bids of a lot are measured against. */
  datatype Terms = Terms(owner: UserId, start: Paisa, end: Paisa)

  function TermsOf(p: Product): Terms {
    Terms(p.owner, p.start, p.end)
  }

  /** A real bid, the `k`-th: on the step, between the start price and the
      ceiling, within the increments over the one before and by another bidder. */
  ghost predicate Rung(cfg: Config, t: Terms, rs: seq<Offer>, k: nat) {
    && k < |rs|
    && OnStep(rs[k].amount) && t.start <= rs[k].amount <= t.end && rs[k].bidder != t.owner
    && (k > 0 ==>
          && rs[k - 1].bidder != rs[k].bidder
          && rs[k - 1].amount as real + cfg.flat <= rs[k].amount as real <= Cap(cfg, rs[k - 1].amount))
  }

  ghost predicate Ladder(cfg: Config, t: Terms, rs: seq<Offer>) {
    forall k :: 0 <= k < |rs| ==> Rung(cfg, t, rs, k)
  }

  predicate PricesSet(p: Product) {
    Pricing.Prices(p.start, p.instant, p.end) == Pricing.PricesFor(p.base)
  }

  // ---- The settlement rounds.  `os` are the offers, `rs` the real ones, `ls`
  // the ranking and `k` the number of bidders who have had their turn.

  /** The rounds are those of the holds, then a prefix of the ranked bidders. */
  ghost predicate RoundsFollow(rounds: seq<Round>, os: seq<Offer>, k: int) {
    && 0 <= k <= |LeaderTickets(os)|
    && k <= MAX_FALLBACK_RANK + 1
    && Tickets(rounds) == HoldTickets(os) + LeaderTickets(os)[..k]
  }

  ghost predicate RoundsAre(rounds: seq<Round>, last: RoundStatus) {
    forall i :: 0 <= i < |rounds| ==>
      && rounds[i].status == (if i == |rounds| - 1 then last else RoundExpired)
      && (rounds[i].resolvedAt == None <==> rounds[i].status == PendingPayment)
  }

  ghost predicate DeadlineBefore(rounds: seq<Round>, i: nat) {
    0 < i < |rounds| ==> rounds[i - 1].deadline < rounds[i].deadline
  }

  /** Deadlines rise from one bidder's turn to the next. */
  ghost predicate DeadlinesRise(rounds: seq<Round>, k: int) {
    forall i: nat :: |rounds| - k < i ==> DeadlineBefore(rounds, i)
  }

  // ---- Who owes the money.

  /** The bid `live` is responsible and in state `pay`; of the others the real
      ones in `spent` have lapsed, and a past hold may have. */
  ghost predicate BidsAre(bids: seq<Bid>, live: int, pay: BidPayment, spent: seq<nat>) {
    forall i :: 0 <= i < |bids| ==>
      if i == live then bids[i].responsible && bids[i].payment == pay
      else
        && !bids[i].responsible
        && (if bids[i].offer.instant then bids[i].payment == NotResponsible || bids[i].payment == Expired
            else bids[i].payment == if i in spent then Expired else NotResponsible)
  }

  /** After a confirmation every other bid is NOT_RESPONSIBLE. */
  ghost predicate Cleared(bids: seq<Bid>, live: int, pay: BidPayment) {
    forall i :: 0 <= i < |bids| ==>
      if i == live then bids[i].responsible && bids[i].payment == pay
      else !bids[i].responsible && bids[i].payment == NotResponsible
  }

  /** The bid the latest round covers: the newest bid, for a hold, or the bid of
      the ranked bidder whose turn it is. */
  function Latest(bids: seq<Bid>, ls: seq<nat>, k: int): int {
    if 0 < k <= |ls| then ls[k - 1] else |bids| - 1
  }

  /** The bid at `live` and the latest round agree on deadline and rank. */
  ghost predicate LiveRound(s: Lot, live: int, k: int) {
    && 0 <= live < |s.bids|
    && |s.rounds| > 0
    && s.bids[live].deadline == Some(s.rounds[|s.rounds| - 1].deadline)
    && s.bids[live].rank == (if k > 0 then k - 1 else 0)
    && (k == 0 ==> s.bids[live].offer.instant)
  }

  /** Ranked bidder `k - 1` has the turn to pay; those before them have lapsed. */
  ghost predicate TurnStage(s: Lot, ls: seq<nat>, k: int) {
    && 0 < k <= |ls|
    && LiveRound(s, ls[k - 1], k)
    && BidsAre(s.bids, ls[k - 1], Pending, ls[..k - 1])
    && RoundsAre(s.rounds, PendingPayment)
  }

  ghost predicate Stage(s: Lot, ls: seq<nat>, k: int) {
    var live := Latest(s.bids, ls, k);
    && 0 <= k <= |ls|
    && match s.product.status
       case AwaitingFirstBid => k == 0 && BidsAre(s.bids, -1, NotResponsible, []) && RoundsAre(s.rounds, RoundExpired)
       case Active => k == 0 && BidsAre(s.bids, -1, NotResponsible, []) && RoundsAre(s.rounds, RoundExpired)
       case AwaitingInstantBuy =>
         k == 0 && LiveRound(s, live, k) && BidsAre(s.bids, live, Pending, []) && RoundsAre(s.rounds, PendingPayment)
       case AwaitingPayment => TurnStage(s, ls, k)
       case Settled =>
         LiveRound(s, live, k) && Cleared(s.bids, live, Confirmed) && RoundsAre(s.rounds, RoundSettled)
       case Abandoned =>
         && 0 < k && LiveRound(s, live, k) && RoundsAre(s.rounds, RoundExpired)
         && (LapsedOut(s.bids, ls, k) || Cleared(s.bids, live, Expired))
  }

  /** Abandoned because nobody paid: all of the first three ranked bidders, or
      all the bidders there were, had their turn and let it lapse. */
  ghost predicate LapsedOut(bids: seq<Bid>, ls: seq<nat>, k: int) {
    && 0 <= k <= |ls|
    && (k == MAX_FALLBACK_RANK + 1 || k == |ls|)
    && BidsAre(bids, -1, NotResponsible, ls[..k])
  }

  // ---- The product row.

  predicate BoughtInstantly(p: Product, k: int) {
    p.status == Settled && k == 0
  }

  /** The cached leader is the last real bid, or the Instant Buy that paid. */
  ghost predicate Cache(p: Product, bids: seq<Bid>, rs: seq<Offer>, k: int) {
    if BoughtInstantly(p, k) then
      bids != [] && p.highest == Some(bids[|bids| - 1].offer.amount) && p.leader == Some(bids[|bids| - 1].offer.bidder)
    else if rs == [] then p.highest == None && p.leader == None
    else p.highest == Some(rs[|rs| - 1].amount) && p.leader == Some(rs[|rs| - 1].bidder)
  }

  ghost predicate ProductRow(p: Product, bids: seq<Bid>, rs: seq<Offer>, live: int) {
    match p.status
    case AwaitingFirstBid => rs == [] && Undecided(p, rs)
    case Active => rs != [] && Undecided(p, rs)
    case AwaitingInstantBuy => Undecided(p, rs)
    case AwaitingPayment =>
      && rs != [] && Decided(p, bids, live)
      && p.settledAt == None && p.settledAmount == None && p.abandonedAt == None
    case Settled =>
      && Decided(p, bids, live) && p.settledAt.Some? && p.abandonedAt == None
      && p.settledAmount == Some(bids[live].offer.amount)
    case Abandoned =>
      && rs != [] && Decided(p, bids, live)
      && p.settledAt == None && p.settledAmount == None && p.abandonedAt.Some?
  }

  /** No winner declared; the clock runs once there is a real bid. */
  ghost predicate Undecided(p: Product, rs: seq<Offer>) {
    && p.winningBid == None && p.closedAt == None
    && p.settledAt == None && p.settledAmount == None && p.abandonedAt == None
    && (rs == [] <==> p.endsAt == None) && (rs == [] <==> p.startedAt == None)
  }

  ghost predicate Decided(p: Product, bids: seq<Bid>, live: int) {
    0 <= live < |bids| && p.winningBid == Some(bids[live].offer.id) && p.closedAt.Some?
  }

  /** A hold, and the sale it may end in, is at the Instant Buy price, which was
      above the price bidding stood at, and its buyer is not the owner. */
  ghost predicate HoldPrice(p: Product, bids: seq<Bid>, rs: seq<Offer>, k: int) {
    p.status == AwaitingInstantBuy || BoughtInstantly(p, k) ==>
      && bids != []
      && bids[|bids| - 1].offer.amount == p.instant
      && bids[|bids| - 1].offer.bidder != p.owner
      && (if rs == [] then p.start < p.instant else rs[|rs| - 1].amount < p.instant)
  }

  // ---- Payments.

  /** The payment refers to a round and carries that round's winner and amount. */
  ghost predicate Backed(rounds: seq<Round>, pay: Payment) {
    exists j :: 0 <= j < |rounds| && rounds[j].id == pay.roundId &&
                rounds[j].ticket.winner == pay.winner && rounds[j].ticket.amount == pay.amount
  }

  ghost predicate PaymentsBacked(s: Lot) {
    forall i :: 0 <= i < |s.payments| ==> Backed(s.rounds, s.payments[i])
  }

  /** Cash is outstanding only for the round that settled the lot. */
  ghost predicate CashDue(s: Lot, k: int) {
    forall i :: 0 <= i < |s.payments| && s.payments[i].status == CodPending ==>
      && s.product.status == Settled && k > 0
      && |s.rounds| > 0 && s.payments[i].roundId == s.rounds[|s.rounds| - 1].id
  }

  ghost predicate CashApart(payments: seq<Payment>, i: nat, j: nat) {
    i < j < |payments| && payments[i].status == CodPending ==> payments[j].status != CodPending
  }

  ghost predicate FlightsApart(payments: seq<Payment>, i: nat, j: nat) {
    i < j < |payments| && payments[i].status == PayPending && payments[j].status == PayPending ==>
      payments[i].roundId != payments[j].roundId
  }

  ghost predicate OneCashDue(payments: seq<Payment>) {
    forall i: nat, j: nat :: CashApart(payments, i, j)
  }

  /** The partial unique index on payments in flight. */
  ghost predicate OneInFlight(payments: seq<Payment>) {
    forall i: nat, j: nat :: FlightsApart(payments, i, j)
  }

  ghost predicate PaymentRows(s: Lot, k: int) {
    PaymentsBacked(s) && CashDue(s, k) && OneCashDue(s.payments) && OneInFlight(s.payments)
  }

  // ---- Everything.

  ghost predicate InvAt(cfg: Config, s: Lot, os: seq<Offer>, rs: seq<Offer>, ls: seq<nat>, k: int) {
    && Fresh(s)
    && PricesSet(s.product)
    && Ladder(cfg, TermsOf(s.product), rs)
    && RoundsFollow(s.rounds, os, k)
    && k <= |s.rounds| && DeadlinesRise(s.rounds, k)
    && Stage(s, ls, k)
    && Cache(s.product, s.bids, rs, k)
    && ProductRow(s.product, s.bids, rs, Latest(s.bids, ls, k))
    && HoldPrice(s.product, s.bids, rs, k)
    && PaymentRows(s, k)
  }

  ghost predicate Inv(cfg: Config, s: Lot) {
    var os := Offers(s.bids);
    InvAt(cfg, s, os, Reals(os), Ranking(os), Turns(s))
  }

  // ---- How the projections follow an update.

  lemma OffersUpdate(bids: seq<Bid>, i: nat, b: Bid)
    requires i < |bids| && b.offer == bids[i].offer
    ensures Offers(bids[i := b]) == Offers(bids) && BidIds(bids[i := b]) == BidIds(bids)
  {
  }

  lemma OffersAppend(bids: seq<Bid>, b: Bid)
    ensures Offers(bids + [b]) == Offers(bids) + [b.offer]
    ensures BidIds(bids + [b]) == BidIds(bids) + [b.offer.id]
  {
  }

  lemma TicketsUpdate(rounds: seq<Round>, j: nat, r: Round)
    requires j < |rounds| && r.id == rounds[j].id && r.ticket == rounds[j].ticket
    ensures Tickets(rounds[j := r]) == Tickets(rounds) && RoundIds(rounds[j := r]) == RoundIds(rounds)
  {
  }

  lemma TicketsAppend(rounds: seq<Round>, r: Round)
    ensures Tickets(rounds + [r]) == Tickets(rounds) + [r.ticket]
    ensures RoundIds(rounds + [r]) == RoundIds(rounds) + [r.id]
  {
  }

  lemma PaymentIdsUpdate(payments: seq<Payment>, i: nat, pay: Payment)
    requires i < |payments| && pay.id == payments[i].id
    ensures PaymentIds(payments[i := pay]) == PaymentIds(payments)
  {
  }

  lemma PaymentIdsAppend(payments: seq<Payment>, pay: Payment)
    ensures PaymentIds(payments + [pay]) == PaymentIds(payments) + [pay.id]
  {
  }
}
