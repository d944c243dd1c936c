/** The transactions on points as they are carried out: balance rows are locked,
    or created, changed in place and saved. */
module RewardsTables {
  import opened AuctionRows
  import opened Commission
  import opened RewardsLedger
  import RewardLocks

  /** Both movements of a sale, whether or not they are of one user. */
  lemma PostedBoth(b: Books, buyer: UserId, seller: UserId, points: int, reference: Option<RowId>,
                   balances: map<UserId, Balance>, ledger: seq<Entry>)
    requires var credited := Credit(BalanceOf(b, buyer), BuyerPoints, points);
             && (forall u :: u in balances <==> u in b.balances || u == buyer || u == seller)
             && (forall u :: u in b.balances && u != buyer && u != seller ==> balances[u] == b.balances[u])
             && (if buyer == seller then balances[buyer] == Credit(credited, SellerPoints, points)
                 else balances[buyer] == credited &&
                      balances[seller] == Credit(BalanceOf(b, seller), SellerPoints, points))
    requires ledger == b.ledger + [Entry(buyer, BuyerPoints, points, reference),
                                   Entry(seller, SellerPoints, points, reference)]
    ensures var posted := Post(Post(b, Entry(buyer, BuyerPoints, points, reference)),
                               Entry(seller, SellerPoints, points, reference));
            posted.balances == balances && posted.ledger == ledger
  {
    hide BandOf;
    var x, y := Entry(buyer, BuyerPoints, points, reference), Entry(seller, SellerPoints, points, reference);
    var posted := Post(Post(b, x), y);
    assert BalanceOf(Post(b, x), seller) ==
           if buyer == seller then Credit(BalanceOf(b, buyer), BuyerPoints, points) else BalanceOf(b, seller);
    assert forall u :: u in posted.balances <==> u in balances;
    assert forall u :: u in balances ==> posted.balances[u] == balances[u];
    assert posted.balances == balances;
    assert posted.ledger == ledger;
  }

  /** A balance row as one transaction has loaded it. */
  class Row {
    const user: UserId
    var buyerPoints: int
    var sellerPoints: int
    var tier: Tier

    constructor (user: UserId, r: Balance)
      ensures this.user == user && Columns() == r
    {
      this.user, buyerPoints, sellerPoints, tier := user, r.buyerPoints, r.sellerPoints, r.tier;
    }

    function Columns(): Balance
      reads this
    {
      Balance(buyerPoints, sellerPoints, tier)
    }
  }

  class Tables {
    var balances: map<UserId, Balance>
    var ledger: seq<Entry>
    var sales: map<RowId, Sale>
    /** The users whose rows transactions have locked, in the order they did. */
    ghost var locked: seq<UserId>

    ghost function View(): Books
      reads this
    {
      Books(balances, ledger, sales)
    }

    ghost predicate Valid()
      reads this
    {
      Sound(View())
    }

    constructor ()
      ensures Valid() && View() == Books(map[], [], map[])
    {
      balances, ledger, sales, locked := map[], [], map[], [];
      new;
      BooksStaySound([]);
    }

    method LockOrCreate(user: UserId) returns (row: Row)
      modifies this`balances, this`locked
      ensures locked == old(locked) + [user]
      ensures fresh(row) && row.user == user && row.Columns() == BalanceOf(old(View()), user)
      ensures balances == if user in old(balances) then old(balances) else old(balances)[user := NO_POINTS]
    {
      locked := locked + [user];
      if user in balances {
        row := new Row(user, balances[user]);
      } else {
        row := new Row(user, NO_POINTS);
        Save(row);
      }
    }

    method Save(row: Row)
      modifies this`balances
      ensures balances == old(balances)[row.user := row.Columns()]
    {
      balances := balances[row.user := row.Columns()];
    }

    /** Locks both rows in the order of their users.  If buyer and seller are
        the same user, both names stand for one loaded row. */
    method LockBoth(buyer: UserId, seller: UserId) returns (buyerRow: Row, sellerRow: Row)
      modifies this`balances, this`locked
      ensures locked == old(locked) + RewardLocks.Wants(RewardLocks.PayOut(buyer, seller))
      ensures fresh(buyerRow) && buyerRow.user == buyer && buyerRow.Columns() == BalanceOf(old(View()), buyer)
      ensures fresh(sellerRow) && sellerRow.user == seller && sellerRow.Columns() == BalanceOf(old(View()), seller)
      ensures buyerRow == sellerRow <==> buyer == seller
      ensures forall u :: u in balances <==> u in old(balances) || u == buyer || u == seller
      ensures forall u :: u in balances ==> balances[u] == BalanceOf(old(View()), u)
    {
      var first, second := buyer, seller;
      if second < first {
        first, second := second, first;
      }
      var firstRow := LockOrCreate(first);
      var secondRow := firstRow;
      if first != second {
        secondRow := LockOrCreate(second);
      }
      buyerRow := if first == buyer then firstRow else secondRow;
      sellerRow := if first == seller then firstRow else secondRow;
    }

    /** Adds the points to both rows and saves them; saving one row twice does no harm. */
    method CreditBoth(buyerRow: Row, sellerRow: Row, points: int)
      requires buyerRow == sellerRow <==> buyerRow.user == sellerRow.user
      modifies this`balances, buyerRow, sellerRow
      ensures var buyer := Credit(old(buyerRow.Columns()), BuyerPoints, points);
              if buyerRow == sellerRow
              then balances == old(balances)[buyerRow.user := Credit(buyer, SellerPoints, points)]
              else balances == old(balances)[buyerRow.user := buyer]
                                            [sellerRow.user := Credit(old(sellerRow.Columns()), SellerPoints, points)]
    {
      hide BandOf;
      buyerRow.buyerPoints := buyerRow.buyerPoints + points;
      sellerRow.sellerPoints := sellerRow.sellerPoints + points;
      var tier, _ := ResolveTierAndCommission(sellerRow.sellerPoints);
      sellerRow.tier := tier;
      Save(buyerRow);
      Save(sellerRow);
    }

    method MarkSellerPaid(id: RowId, now: Time) returns (error: Option<RewardsError>)
      requires Valid()
      modifies this
      ensures match MarkPaid(old(View()), id, now)
              case Posted(b) => error == None && View() == b
              case Refused(e) => error == Some(e) && View() == old(View())
      ensures error.None? ==>
                var sale := old(sales)[id];
                locked == old(locked) + RewardLocks.Wants(RewardLocks.PayOut(sale.buyer, sale.seller))
      ensures Valid()
    {
      hide Sound, BandOf, PointsEarned, Payout;
      ghost var b := View();
      if id !in sales {
        return Some(SaleNotFound);
      }
      var sale := sales[id];
      if !sale.succeeded {
        return Some(SaleNotSucceeded);
      }
      if sale.sellerPaidAt.Some? {
        return Some(AlreadyPaidOut);
      }
      PayoutIsSound(b, id, now);
      var buyerRow, sellerRow := LockBoth(sale.buyer, sale.seller);
      var standing := sellerRow.sellerPoints;
      var _, percent := ResolveTierAndCommission(standing);
      var points := PointsEarned(sale.amount);
      CreditBoth(buyerRow, sellerRow, points);
      ledger := ledger + [Entry(sale.buyer, BuyerPoints, points, Some(id)),
                          Entry(sale.seller, SellerPoints, points, Some(id))];
      sale := sale.(sellerPaidAt := Some(now));
      sale := sale.(payout := Some(Payout(sale.base, sale.amount, standing)));
      sale := sale.(percent := Some(percent));
      sales := sales[id := sale];
      PostedBoth(b, sale.buyer, sale.seller, points, Some(id), balances, ledger);
      return None;
    }

    method AdjustPoints(user: UserId, kind: Kind, delta: int)
      requires Valid()
      modifies this
      ensures View() == Post(old(View()), Entry(user, kind, delta, None))
      ensures locked == old(locked) + RewardLocks.Wants(RewardLocks.Adjust(user))
      ensures Valid()
    {
      hide Sound, BandOf;
      AdjustmentIsSound(View(), user, kind, delta);
      var row := LockOrCreate(user);
      if kind == BuyerPoints {
        row.buyerPoints := row.buyerPoints + delta;
      } else {
        row.sellerPoints := row.sellerPoints + delta;
        var tier, _ := ResolveTierAndCommission(row.sellerPoints);
        row.tier := tier;
      }
      Save(row);
      ledger := ledger + [Entry(user, kind, delta, None)];
    }
  }
}
