/** Points: balances, the ledger of every movement, and the sales they come from. */
module RewardsLedger {
  import opened Money
  import opened AuctionRows
  import opened Commission

  datatype Kind = BuyerPoints | SellerPoints

  /** A ledger row; `reference` is the payment it was earned by, if any. */
  datatype Entry = Entry(user: UserId, kind: Kind, delta: int, reference: Option<RowId>)

  datatype Balance = Balance(buyerPoints: int, sellerPoints: int, tier: Tier)

  /** A product payment with what the payout needs of its product. */
  datatype Sale = Sale(
    buyer: UserId,
    seller: UserId,
    base: Paisa,
    amount: Paisa,
    succeeded: bool,
    sellerPaidAt: Option<Time>,
    payout: Option<Paisa>,
    percent: Option<nat>)

  datatype Books = Books(balances: map<UserId, Balance>, ledger: seq<Entry>, sales: map<RowId, Sale>)

  datatype RewardsError = SaleNotFound | SaleNotSucceeded | AlreadyPaidOut

  datatype Posting = Posted(books: Books) | Refused(error: RewardsError)

  // ---- What the two transactions do

  const NO_POINTS := Balance(0, 0, Bronze)

  function BalanceOf(b: Books, user: UserId): Balance {
    if user in b.balances then b.balances[user] else NO_POINTS
  }

  function Credit(r: Balance, kind: Kind, delta: int): Balance {
    match kind
    case BuyerPoints => r.(buyerPoints := r.buyerPoints + delta)
    case SellerPoints => r.(sellerPoints := r.sellerPoints + delta, tier := BandOf(r.sellerPoints + delta).tier)
  }

  /** One movement of points, with its ledger row. */
  function Post(b: Books, e: Entry): Books {
    b.(balances := b.balances[e.user := Credit(BalanceOf(b, e.user), e.kind, e.delta)], ledger := b.ledger + [e])
  }

  function MarkPaid(b: Books, id: RowId, now: Time): Posting {
    if id !in b.sales then Refused(SaleNotFound)
    else
      var sale := b.sales[id];
      if !sale.succeeded then Refused(SaleNotSucceeded)
      else if sale.sellerPaidAt.Some? then Refused(AlreadyPaidOut)
      else
        var points, standing := PointsEarned(sale.amount), BalanceOf(b, sale.seller).sellerPoints;
        var credited := Post(Post(b, Entry(sale.buyer, BuyerPoints, points, Some(id))),
                             Entry(sale.seller, SellerPoints, points, Some(id)));
        Posted(credited.(sales := b.sales[id := sale.(
          sellerPaidAt := Some(now),
          payout := Some(Payout(sale.base, sale.amount, standing)),
          percent := Some(BandOf(standing).percent))]))
  }

  // ---- Conservation

  /** The sum of a user's ledger rows of one kind. */
  function Total(ledger: seq<Entry>, user: UserId, kind: Kind): int {
    if ledger == [] then 0
    else
      var last := ledger[|ledger| - 1];
      Total(ledger[..|ledger| - 1], user, kind) + if last.user == user && last.kind == kind then last.delta else 0
  }

  /** How many ledger rows of one kind a sale has. */
  function Awards(ledger: seq<Entry>, id: RowId, kind: Kind): nat {
    if ledger == [] then 0
    else
      var last := ledger[|ledger| - 1];
      Awards(ledger[..|ledger| - 1], id, kind) + if last.reference == Some(id) && last.kind == kind then 1 else 0
  }

  /** The balance is the sum of the ledger and the tier that of the balance. */
  ghost predicate InBalance(b: Books, user: UserId) {
    var r := BalanceOf(b, user);
    && r.buyerPoints == Total(b.ledger, user, BuyerPoints)
    && r.sellerPoints == Total(b.ledger, user, SellerPoints)
    && r.tier == BandOf(r.sellerPoints).tier
  }

  /** A sale has one award of each kind if the seller was paid out, else none. */
  ghost predicate AwardedOnce(b: Books, id: RowId, kind: Kind) {
    Awards(b.ledger, id, kind) == if id in b.sales && b.sales[id].sellerPaidAt.Some? then 1 else 0
  }

  ghost predicate Sound(b: Books) {
    && (forall user: UserId :: InBalance(b, user))
    && (forall id: RowId, kind: Kind :: AwardedOnce(b, id, kind))
  }

  lemma LedgerGrows(ledger: seq<Entry>, e: Entry, user: UserId, id: RowId, kind: Kind)
    ensures Total(ledger + [e], user, kind) ==
            Total(ledger, user, kind) + if e.user == user && e.kind == kind then e.delta else 0
    ensures Awards(ledger + [e], id, kind) ==
            Awards(ledger, id, kind) + if e.reference == Some(id) && e.kind == kind then 1 else 0
  {
    assert (ledger + [e])[..|ledger|] == ledger;
  }

  lemma PostInBalance(b: Books, e: Entry, user: UserId)
    requires InBalance(b, user)
    ensures InBalance(Post(b, e), user)
  {
    hide BandOf;
    LedgerGrows(b.ledger, e, user, 0, BuyerPoints);
    LedgerGrows(b.ledger, e, user, 0, SellerPoints);
  }

  /** A manual adjustment keeps the books sound. */
  lemma AdjustmentIsSound(b: Books, user: UserId, kind: Kind, delta: int)
    requires Sound(b)
    ensures Sound(Post(b, Entry(user, kind, delta, None)))
  {
    hide BandOf, Total, Awards;
    var e := Entry(user, kind, delta, None);
    forall u: UserId ensures InBalance(Post(b, e), u) {
      assert InBalance(b, u);
      PostInBalance(b, e, u);
    }
    forall id: RowId, k: Kind ensures AwardedOnce(Post(b, e), id, k) {
      assert AwardedOnce(b, id, k);
      LedgerGrows(b.ledger, e, 0, id, k);
    }
  }

  /** So does paying a seller out: the points of buyer and seller appear in
      balance and ledger alike, and never again for the same sale. */
  lemma PayoutIsSound(b: Books, id: RowId, now: Time)
    requires Sound(b) && MarkPaid(b, id, now).Posted?
    ensures Sound(MarkPaid(b, id, now).books)
    ensures MarkPaid(MarkPaid(b, id, now).books, id, now) == Refused(AlreadyPaidOut)
  {
    hide BandOf, Total, Awards, PointsEarned, Payout;
    var b', sale := MarkPaid(b, id, now).books, b.sales[id];
    var points := PointsEarned(sale.amount);
    var x, y := Entry(sale.buyer, BuyerPoints, points, Some(id)), Entry(sale.seller, SellerPoints, points, Some(id));
    forall u: UserId ensures InBalance(b', u) {
      assert InBalance(b, u);
      PostInBalance(b, x, u);
      PostInBalance(Post(b, x), y, u);
      assert InBalance(Post(Post(b, x), y), u);
    }
    forall i: RowId, k: Kind ensures AwardedOnce(b', i, k) {
      assert AwardedOnce(b, i, k);
      LedgerGrows(b.ledger, x, 0, i, k);
      LedgerGrows(b.ledger + [x], y, 0, i, k);
    }
  }

  /** A payout is made for a sale that was paid for and not paid out; else it is
      refused, for the first of these reasons. */
  lemma PayoutDecided(b: Books, id: RowId, now: Time)
    ensures var posting := MarkPaid(b, id, now);
            if id !in b.sales then posting == Refused(SaleNotFound)
            else if !b.sales[id].succeeded then posting == Refused(SaleNotSucceeded)
            else if b.sales[id].sellerPaidAt != None then posting == Refused(AlreadyPaidOut)
            else posting.Posted?
  {
    hide BandOf, PointsEarned, Payout;
  }

  // ---- Any sequence of them

  datatype Action =
    | Sell(sale: RowId, terms: Sale)
    | PayOut(sale: RowId, at: Time)
    | Adjust(user: UserId, kind: Kind, delta: int)

  /** A refused transaction is rolled back; a sale is recorded once, unpaid. */
  function Do(b: Books, a: Action): Books {
    match a
    case Sell(id, terms) =>
      if id in b.sales then b else b.(sales := b.sales[id := terms.(sellerPaidAt := None)])
    case PayOut(id, at) =>
      if MarkPaid(b, id, at).Posted? then MarkPaid(b, id, at).books else b
    case Adjust(user, kind, delta) =>
      Post(b, Entry(user, kind, delta, None))
  }

  function DoAll(b: Books, actions: seq<Action>): Books {
    if actions == [] then b
    else Do(DoAll(b, actions[..|actions| - 1]), actions[|actions| - 1])
  }

  lemma DoIsSound(b: Books, a: Action)
    requires Sound(b)
    ensures Sound(Do(b, a))
  {
    match a
    case Sell(id, terms) =>
      var b' := Do(b, a);
      forall u: UserId ensures InBalance(b', u) {
        assert InBalance(b, u);
      }
      forall i: RowId, k: Kind ensures AwardedOnce(b', i, k) {
        assert AwardedOnce(b, i, k);
      }
    case PayOut(id, at) =>
      if MarkPaid(b, id, at).Posted? {
        PayoutIsSound(b, id, at);
      }
    case Adjust(user, kind, delta) =>
      AdjustmentIsSound(b, user, kind, delta);
  }

  /** Conservation: whatever is sold, paid out and adjusted, every balance is the
      sum of its ledger, every tier that of its balance, and every sale has
      earned its points at most once. */
  lemma {:induction false} BooksStaySound(actions: seq<Action>)
    ensures Sound(DoAll(Books(map[], [], map[]), actions))
  {
    var none := Books(map[], [], map[]);
    if actions == [] {
      LevelGoverns(COMMISSION_BANDS, 0, 0);
      assert Governs(COMMISSION_BANDS, 0, 0);
      forall u: UserId ensures InBalance(none, u) {}
    } else {
      BooksStaySound(actions[..|actions| - 1]);
      DoIsSound(DoAll(none, actions[..|actions| - 1]), actions[|actions| - 1]);
    }
  }

  // ---- What a payout was priced on

  /** Ledger rows `n` and `n + 1` are the points of a sale: one percent of its
      amount, for its buyer and for its seller. */
  ghost predicate PointsAt(b: Books, id: RowId, n: nat) {
    && id in b.sales && n + 1 < |b.ledger|
    && var sale, points := b.sales[id], b.ledger[n + 1].delta;
       && b.ledger[n] == Entry(sale.buyer, BuyerPoints, points, Some(id))
       && b.ledger[n + 1] == Entry(sale.seller, SellerPoints, points, Some(id))
       && 10000 * points - 5000 <= sale.amount < 10000 * points + 5000
  }

  /** The sale was priced by band `k`, the one that governs the points its seller
      had before those of ledger row `n` and all that came later. */
  ghost predicate PricedAt(b: Books, id: RowId, n: nat, k: nat) {
    && id in b.sales && n <= |b.ledger| && k < |COMMISSION_BANDS|
    && var sale, share := b.sales[id], COMMISSION_BANDS[k].percent;
       && Governs(COMMISSION_BANDS, Total(b.ledger[..n], sale.seller, SellerPoints), k)
       && sale.percent == Some(share) && sale.payout.Some?
       && PaysShare(sale.base, sale.amount, share, sale.payout.value)
       && (sale.base <= sale.amount ==> sale.base <= sale.payout.value <= sale.amount)
  }

  /** The payout followed these actions: one that recorded the sale on its terms,
      and one that paid its seller out at that time. */
  ghost predicate ComesFrom(b: Books, id: RowId, actions: seq<Action>) {
    && id in b.sales
    && var sale := b.sales[id];
       && (exists terms :: Sell(id, terms) in actions && SameTerms(sale, terms))
       && (sale.sellerPaidAt.Some? ==> sale.succeeded && PayOut(id, sale.sellerPaidAt.value) in actions)
  }

  predicate SameTerms(a: Sale, b: Sale) {
    a.buyer == b.buyer && a.seller == b.seller && a.base == b.base && a.amount == b.amount && a.succeeded == b.succeeded
  }

  /** A sale paid out stays priced as it was: later rows are added behind. */
  lemma PricingStays(b: Books, b': Books, id: RowId, n: nat, k: nat)
    requires PointsAt(b, id, n) && PricedAt(b, id, n, k)
    requires id in b'.sales && b'.sales[id] == b.sales[id] && b.ledger <= b'.ledger
    ensures PointsAt(b', id, n) && PricedAt(b', id, n, k)
  {
    hide Total, COMMISSION_BANDS;
    assert b'.ledger[..n] == b.ledger[..n];
  }

  /** A payout is priced on the points the seller has when it is made. */
  lemma PayoutPriced(b: Books, id: RowId, now: Time) returns (n: nat, k: nat)
    requires Sound(b) && MarkPaid(b, id, now).Posted?
    ensures PointsAt(MarkPaid(b, id, now).books, id, n) && PricedAt(MarkPaid(b, id, now).books, id, n, k)
  {
    hide Total, Awards, PointsEarned, Payout, Level;
    var b', sale := MarkPaid(b, id, now).books, b.sales[id];
    n := |b.ledger|;
    assert b'.ledger[..n] == b.ledger && InBalance(b, sale.seller);
    var standing := Total(b.ledger, sale.seller, SellerPoints);
    k := Level(COMMISSION_BANDS, standing);
    LevelGoverns(COMMISSION_BANDS, standing, k);
    PointsAreOnePercent(sale.amount);
    PayoutIsShare(sale.base, sale.amount, standing);
    if sale.base <= sale.amount {
      PayoutBounds(sale.base, sale.amount, standing, standing);
    }
  }

  function LedgerOf(actions: seq<Action>): Books {
    DoAll(Books(map[], [], map[]), actions)
  }

  /** However sales, payouts and adjustments follow one another: every sale that
      was paid out stands in the ledger with one percent of its amount for buyer
      and seller, and was priced on the points its seller had before them, never
      on its own. */
  lemma {:induction false} PaidAsStanding(actions: seq<Action>, id: RowId) returns (n: nat, k: nat)
    requires var b := LedgerOf(actions); id in b.sales && b.sales[id].sellerPaidAt.Some?
    ensures PointsAt(LedgerOf(actions), id, n) && PricedAt(LedgerOf(actions), id, n, k)
  {
    var m := |actions| - 1;
    var b, b', last := LedgerOf(actions[..m]), LedgerOf(actions), actions[m];
    BooksStaySound(actions[..m]);
    hide Sound, PointsAt, PricedAt;
    if id in b.sales && b.sales[id].sellerPaidAt.Some? {
      n, k := PaidAsStanding(actions[..m], id);
      PaidStays(b, last, id);
      PricingStays(b, b', id, n, k);
    } else {
      n, k := PayoutPriced(b, id, last.at);
    }
  }

  /** Nothing changes a sale that was paid out, or a ledger row. */
  lemma PaidStays(b: Books, a: Action, id: RowId)
    requires id in b.sales && b.sales[id].sellerPaidAt.Some?
    ensures b.ledger <= Do(b, a).ledger && id in Do(b, a).sales && Do(b, a).sales[id] == b.sales[id]
  {
    hide BandOf, PointsEarned, Payout;
  }

  /** Every sale is one that was recorded, and every payout one that was made. */
  lemma {:induction false} SalesComeFrom(actions: seq<Action>, id: RowId)
    requires id in LedgerOf(actions).sales
    ensures ComesFrom(LedgerOf(actions), id, actions)
  {
    hide BandOf, PointsEarned, Payout;
    var m := |actions| - 1;
    var b, last := LedgerOf(actions[..m]), actions[m];
    assert forall a :: a in actions[..m] ==> a in actions;
    assert last in actions;
    if id in b.sales {
      SalesComeFrom(actions[..m], id);
    }
  }
}
