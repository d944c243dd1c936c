/** The queries the auction steps run over one lot's rows. */
module AuctionQueries {
  import opened AuctionRows

  /** Which bids a highest-bid query looks at: every real bid, or the real bids
      still unserved whose bidder is not `spent`. */
  datatype Filter = AnyReal | Unserved(spent: set<UserId>)

  predicate Eligible(b: Bid, f: Filter) {
    && !b.offer.instant
    && (f.Unserved? ==> b.payment == NotResponsible && b.offer.bidder !in f.spent)
  }

  /** `ORDER BY amount DESC, placedAt ASC`. */
  predicate Beats(a: Offer, b: Offer) {
    a.amount > b.amount || (a.amount == b.amount && a.placedAt < b.placedAt)
  }

  /** The first row of the ordered query, or none. */
  function Top(bids: seq<Bid>, f: Filter): (r: Option<nat>)
    ensures r.Some? ==>
              && r.value < |bids| && Eligible(bids[r.value], f)
              && forall j :: 0 <= j < |bids| && Eligible(bids[j], f) ==>
                   var o, top := bids[j].offer, bids[r.value].offer;
                   o.amount < top.amount || (o.amount == top.amount && o.placedAt >= top.placedAt)
    ensures r.None? ==> forall j :: 0 <= j < |bids| ==> !Eligible(bids[j], f)
  {
    if bids == [] then None
    else
      var n := |bids| - 1;
      var rest := Top(bids[..n], f);
      assert forall j :: 0 <= j < n ==> bids[..n][j] == bids[j];
      if !Eligible(bids[n], f) then rest
      else if rest.None? || Beats(bids[n].offer, bids[rest.value].offer) then Some(n)
      else rest
  }

  /** The bidders whose turn to pay for a win has already lapsed. */
  function SpentBidders(bids: seq<Bid>): set<UserId> {
    set i | 0 <= i < |bids| && !bids[i].offer.instant && bids[i].payment == Expired :: bids[i].offer.bidder
  }

  /** The bid currently responsible for payment. */
  function Responsible(bids: seq<Bid>): (r: Option<nat>)
    ensures r.Some? ==> r.value < |bids| && bids[r.value].responsible
    ensures r.None? ==> forall j :: 0 <= j < |bids| ==> !bids[j].responsible
  {
    if bids == [] then None
    else
      var n := |bids| - 1;
      assert forall j :: 0 <= j < n ==> bids[..n][j] == bids[j];
      if bids[n].responsible then Some(n) else Responsible(bids[..n])
  }

  function BidById(bids: seq<Bid>, id: RowId): (r: Option<nat>)
    ensures r.Some? ==> r.value < |bids| && bids[r.value].offer.id == id
    ensures r.None? ==> forall j :: 0 <= j < |bids| ==> bids[j].offer.id != id
  {
    if bids == [] then None
    else
      var n := |bids| - 1;
      assert forall j :: 0 <= j < n ==> bids[..n][j] == bids[j];
      if bids[n].offer.id == id then Some(n) else BidById(bids[..n], id)
  }

  /** The settlement round that covers a bid. */
  function RoundOf(rounds: seq<Round>, bidId: RowId): (r: Option<nat>)
    ensures r.Some? ==> r.value < |rounds| && rounds[r.value].ticket.bidId == bidId
    ensures r.None? ==> forall j :: 0 <= j < |rounds| ==> rounds[j].ticket.bidId != bidId
  {
    if rounds == [] then None
    else
      var n := |rounds| - 1;
      assert forall j :: 0 <= j < n ==> rounds[..n][j] == rounds[j];
      if rounds[n].ticket.bidId == bidId then Some(n) else RoundOf(rounds[..n], bidId)
  }

  function RoundById(rounds: seq<Round>, id: RowId): (r: Option<nat>)
    ensures r.Some? ==> r.value < |rounds| && rounds[r.value].id == id
    ensures r.None? ==> forall j :: 0 <= j < |rounds| ==> rounds[j].id != id
  {
    if rounds == [] then None
    else
      var n := |rounds| - 1;
      assert forall j :: 0 <= j < n ==> rounds[..n][j] == rounds[j];
      if rounds[n].id == id then Some(n) else RoundById(rounds[..n], id)
  }

  function PaymentById(payments: seq<Payment>, id: RowId): (r: Option<nat>)
    ensures r.Some? ==> r.value < |payments| && payments[r.value].id == id
    ensures r.None? ==> forall j :: 0 <= j < |payments| ==> payments[j].id != id
  {
    if payments == [] then None
    else
      var n := |payments| - 1;
      assert forall j :: 0 <= j < n ==> payments[..n][j] == payments[j];
      if payments[n].id == id then Some(n) else PaymentById(payments[..n], id)
  }

  predicate HasBidBy(bids: seq<Bid>, user: UserId) {
    exists i :: 0 <= i < |bids| && bids[i].offer.bidder == user
  }

  /** The buyer has let an Instant Buy window on this lot run out. */
  predicate AttemptSpent(bids: seq<Bid>, buyer: UserId) {
    exists i :: 0 <= i < |bids| && bids[i].offer.bidder == buyer && bids[i].offer.instant && bids[i].payment == Expired
  }

  predicate RoundPaidFor(payments: seq<Payment>, roundId: RowId) {
    exists i :: 0 <= i < |payments| && payments[i].roundId == roundId
  }

  predicate InFlight(payments: seq<Payment>, roundId: RowId) {
    exists i :: 0 <= i < |payments| && payments[i].roundId == roundId && payments[i].status == PayPending
  }

  /** PUBLIC_BID_CONDITION: a bid placed in the auction, or the Instant Buy that won it. */
  predicate Visible(p: Product, b: Bid) {
    !b.offer.instant || Some(b.offer.id) == p.winningBid
  }

  predicate AnyVisible(p: Product, bids: seq<Bid>) {
    exists i :: 0 <= i < |bids| && Visible(p, bids[i])
  }

  // ---- Bulk statements.

  /** Every bid but the one with this id becomes NOT_RESPONSIBLE. */
  function ClearOthers(bids: seq<Bid>, id: RowId): (r: seq<Bid>)
    ensures |r| == |bids|
    ensures forall i :: 0 <= i < |bids| ==>
              r[i] == if bids[i].offer.id == id then bids[i] else bids[i].(payment := NotResponsible)
  {
    seq(|bids|, i requires 0 <= i < |bids| =>
      if bids[i].offer.id == id then bids[i] else bids[i].(payment := NotResponsible))
  }

  /** Payments still in flight are retired. */
  function RetireInFlight(payments: seq<Payment>): (r: seq<Payment>)
    ensures |r| == |payments|
    ensures forall i :: 0 <= i < |payments| ==>
              r[i] == if payments[i].status == PayPending then payments[i].(status := PayExpired) else payments[i]
  {
    seq(|payments|, i requires 0 <= i < |payments| =>
      if payments[i].status == PayPending then payments[i].(status := PayExpired) else payments[i])
  }

  /** Deletes the rounds that cover a bid. */
  function WithoutRoundsOf(rounds: seq<Round>, bidId: RowId): (r: seq<Round>)
    ensures |r| <= |rounds|
    ensures forall x :: x in r ==> x in rounds && x.ticket.bidId != bidId
    ensures (forall i :: 0 <= i < |rounds| ==> rounds[i].ticket.bidId != bidId) ==> r == rounds
  {
    if rounds == [] then []
    else
      var n := |rounds| - 1;
      var rest := WithoutRoundsOf(rounds[..n], bidId);
      assert rounds == rounds[..n] + [rounds[n]];
      assert forall j :: 0 <= j < n ==> rounds[..n][j] == rounds[j];
      if rounds[n].ticket.bidId == bidId then rest else rest + [rounds[n]]
  }

  /** Deletes the bid with this id. */
  function WithoutBid(bids: seq<Bid>, id: RowId): (r: seq<Bid>)
    ensures |r| <= |bids|
    ensures forall x :: x in r ==> x in bids && x.offer.id != id
    ensures (forall i :: 0 <= i < |bids| ==> bids[i].offer.id != id) ==> r == bids
  {
    if bids == [] then []
    else
      var n := |bids| - 1;
      var rest := WithoutBid(bids[..n], id);
      assert bids == bids[..n] + [bids[n]];
      assert forall j :: 0 <= j < n ==> bids[..n][j] == bids[j];
      if bids[n].offer.id == id then rest else rest + [bids[n]]
  }
}
