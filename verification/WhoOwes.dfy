/** What the invariant says about a lot at rest: everybody who looks at it sees
    the same debtor, no step can find its rows inconsistent, and the cached
    leader is the one the public sees. */
module WhoOwes {
  import opened Money
  import opened AuctionRows
  import opened AuctionQueries
  import opened AuctionSteps
  import opened Leaderboard
  import opened AuctionInvariant
  import opened BiddingProofs
  import opened HoldProofs
  import opened CascadeProofs
  import opened SettlementProofs

  // ---- Who owes the money

  /** The responsible bid is `i`, no other is, and it is in state `pay`. */
  ghost predicate OnlyResponsible(bids: seq<Bid>, i: nat, pay: BidPayment) {
    && i < |bids| && bids[i].payment == pay
    && forall l :: 0 <= l < |bids| ==> (bids[l].responsible <==> l == i)
  }

  /** Round `j` has this status, every other has expired. */
  ghost predicate OnlyRound(rounds: seq<Round>, j: nat, status: RoundStatus) {
    && j < |rounds| && rounds[j].status == status
    && forall l :: 0 <= l < |rounds| && l != j ==> rounds[l].status == RoundExpired
  }

  ghost predicate NobodyOwes(s: Lot) {
    && (forall l :: 0 <= l < |s.bids| ==>
          !s.bids[l].responsible && s.bids[l].payment != Pending && s.bids[l].payment != Confirmed)
    && (forall l :: 0 <= l < |s.rounds| ==> s.rounds[l].status == RoundExpired)
  }

  /** The round covers the bid. */
  ghost predicate Covers(s: Lot, j: nat, i: nat) {
    && i < |s.bids| && j < |s.rounds|
    && s.rounds[j].ticket == Ticket(s.bids[i].offer.id, s.bids[i].offer.bidder, s.bids[i].offer.amount, s.bids[i].rank)
    && s.bids[i].deadline == Some(s.rounds[j].deadline)
  }

  /** The four views of who owes the money agree in every stage: the status, the
      responsible bid, the open round and the winning bid. */
  ghost predicate ViewsAgree(s: Lot, i: nat, j: nat) {
    match s.product.status
    case AwaitingFirstBid => NobodyOwes(s) && s.product.winningBid == None
    case Active => NobodyOwes(s) && s.product.winningBid == None
    case AwaitingInstantBuy =>
      && OnlyResponsible(s.bids, i, Pending) && OnlyRound(s.rounds, j, PendingPayment) && Covers(s, j, i)
      && s.bids[i].offer.instant && s.product.winningBid == None
    case AwaitingPayment =>
      && OnlyResponsible(s.bids, i, Pending) && OnlyRound(s.rounds, j, PendingPayment) && Covers(s, j, i)
      && !s.bids[i].offer.instant && s.product.winningBid == Some(s.bids[i].offer.id)
    case Settled =>
      && OnlyResponsible(s.bids, i, Confirmed) && OnlyRound(s.rounds, j, RoundSettled) && Covers(s, j, i)
      && s.product.winningBid == Some(s.bids[i].offer.id)
      && s.product.settledAmount == Some(s.bids[i].offer.amount)
      && (forall l :: 0 <= l < |s.bids| && l != i ==> s.bids[l].payment == NotResponsible)
    case Abandoned =>
      && OnlyRound(s.rounds, j, RoundExpired) && Covers(s, j, i)
      && s.product.winningBid == Some(s.bids[i].offer.id) && s.product.settledAmount == None
      && (NobodyOwes(s) || OnlyResponsible(s.bids, i, Expired))
  }

  lemma FourViewsAgree(cfg: Config, s: Lot) returns (i: nat, j: nat)
    requires Inv(cfg, s)
    ensures ViewsAgree(s, i, j)
  {
    var os := Offers(s.bids);
    i, j := FourViewsAt(s, os, Reals(os), Ranking(os), Turns(s));
  }

  lemma FourViewsAt(s: Lot, os: seq<Offer>, rs: seq<Offer>, ls: seq<nat>, k: int) returns (i: nat, j: nat)
    requires os == Offers(s.bids) && ls == Ranking(os) && RoundsFollow(s.rounds, os, k) && Stage(s, ls, k)
    requires ProductRow(s.product, s.bids, rs, Latest(s.bids, ls, k))
    ensures ViewsAgree(s, i, j)
  {
    hide RoundsFollow, Covers, Offers, Ranking;
    if s.product.status == AwaitingFirstBid || s.product.status == Active {
      i, j := 0, 0;
    } else {
      LatestCovered(s, os, ls, k);
      i, j := Latest(s.bids, ls, k), |s.rounds| - 1;
    }
  }

  /** The newest round covers the bid whose turn it is or was. */
  lemma LatestCovered(s: Lot, os: seq<Offer>, ls: seq<nat>, k: int)
    requires os == Offers(s.bids) && ls == Ranking(os) && RoundsFollow(s.rounds, os, k) && 0 <= k <= |ls|
    requires LiveRound(s, Latest(s.bids, ls, k), k)
    ensures Covers(s, |s.rounds| - 1, Latest(s.bids, ls, k))
    ensures k > 0 ==> !s.bids[Latest(s.bids, ls, k)].offer.instant
  {
    var live := Latest(s.bids, ls, k);
    assert s.bids[live].offer == os[live];
    if k > 0 {
      SoldToRanked(s, os, ls, k);
      NewestRoundOfTurn(s.rounds, os, k);
    } else {
      NewestRoundOfHold(s.rounds, os);
    }
  }

  // ---- No inconsistency is ever found

  predicate Corrupt(outcome: Outcome) {
    outcome == Rejected(Inconsistent) || outcome == Rejected(MissingLeader)
  }

  /** No transaction ever finds the rows in disagreement, or an active lot
      without a leading amount. */
  lemma NoInconsistency(cfg: Config, s: Lot, step: Step, now: Time)
    requires Inv(cfg, s)
    ensures !Corrupt(Perform(cfg, s, step, now))
  {
    var os := Offers(s.bids);
    NoInconsistencyAt(cfg, s, step, now, os, Reals(os), Ranking(os), Turns(s));
  }

  lemma NoInconsistencyAt(cfg: Config, s: Lot, step: Step, now: Time,
                          os: seq<Offer>, rs: seq<Offer>, ls: seq<nat>, k: int)
    requires InvAt(cfg, s, os, rs, ls, k) && os == Offers(s.bids) && ls == Ranking(os)
    ensures !Corrupt(Perform(cfg, s, step, now))
  {
    hide Fresh, Ladder, RoundsFollow, DeadlinesRise, HoldPrice, Offers, Stage, PaymentRows, Cache, ProductRow;
    hide PlaceBid, StartHold, ConfirmManual, ConfirmCod, ConfirmGateway, RefuseCod;
    match step
    case StepPlaceBid(user, amount, openElsewhere) =>
      ActiveHasLeader(s.product, s.bids, rs, Latest(s.bids, ls, k), k);
      BidUncorrupt(cfg, s, user, amount, openElsewhere, now);
    case StepStartHold(buyer) => HoldUncorrupt(cfg, s, buyer, now, ls, k);
    case StepConfirmManual(addressOk) => ConfirmUncorrupt(s, addressOk, 0, None, now, os, ls, k);
    case StepConfirmCod(buyer, addressOk) => ConfirmUncorrupt(s, addressOk, buyer, None, now, os, ls, k);
    case StepConfirmGateway(expected) => ConfirmUncorrupt(s, false, 0, expected, now, os, ls, k);
    case StepRefuseCod(payment, parcel) => RefusalUncorrupt(s, payment, parcel, now, k);
    case _ =>
  }

  lemma ActiveHasLeader(p: Product, bids: seq<Bid>, rs: seq<Offer>, live: int, k: int)
    requires Cache(p, bids, rs, k) && ProductRow(p, bids, rs, live)
    ensures p.status == Active ==> p.highest.Some?
  {
  }

  lemma BidUncorrupt(cfg: Config, s: Lot, user: UserId, amount: Paisa, openElsewhere: nat, now: Time)
    requires s.product.status == Active ==> s.product.highest.Some?
    ensures !Corrupt(PlaceBid(cfg, s, user, amount, openElsewhere, now))
  {
  }

  lemma HoldUncorrupt(cfg: Config, s: Lot, buyer: UserId, now: Time, ls: seq<nat>, k: int)
    requires Stage(s, ls, k)
    ensures !Corrupt(StartHold(cfg, s, buyer, now))
  {
    NobodyResponsible(s, ls, k);
    hide Stage;
  }

  lemma ConfirmUncorrupt(s: Lot, addressOk: bool, buyer: UserId, expected: Option<RowId>, now: Time,
                         os: seq<Offer>, ls: seq<nat>, k: int)
    requires os == Offers(s.bids) && ls == Ranking(os) && RoundsFollow(s.rounds, os, k) && Stage(s, ls, k)
    ensures !Corrupt(ConfirmManual(s, addressOk, now))
    ensures !Corrupt(ConfirmCod(s, buyer, addressOk, now))
    ensures !Corrupt(ConfirmGateway(s, expected, now))
  {
    hide Stage, RoundsFollow, Offers, Ranking;
    if PaymentDue(s.product) {
      DueInForce(s, os, ls, k);
    }
  }

  lemma RefusalUncorrupt(s: Lot, paymentId: RowId, parcel: Parcel, now: Time, k: int)
    requires PaymentRows(s, k)
    ensures !Corrupt(RefuseCod(s, paymentId, parcel, now))
  {
  }

  /** While a lot is open nobody owes anything. */
  lemma NobodyResponsible(s: Lot, ls: seq<nat>, k: int)
    requires Stage(s, ls, k)
    ensures s.product.status == AwaitingFirstBid || s.product.status == Active ==> Responsible(s.bids) == None
  {
  }

  /** The auction closed at `now` to the cached leader, who has `paymentMs` to pay. */
  ghost predicate ClosedToLeader(cfg: Config, s: Lot, s': Lot, i: nat, now: Time) {
    && i < |s.bids|
    && var o, due := s.bids[i].offer, now + cfg.paymentMs;
       && s.product.highest == Some(o.amount) && s.product.leader == Some(o.bidder)
       && s'.product == s.product.(status := AwaitingPayment, closedAt := Some(now), winningBid := Some(o.id))
       && s'.bids == s.bids[i := s.bids[i].(originalWinner := true, rank := 0, responsible := true,
                                            payment := Pending, deadline := Some(due))]
       && s'.rounds == s.rounds + [Round(s.nextId, Ticket(o.id, o.bidder, o.amount, 0), PendingPayment, due, None)]
  }

  /** A lot that is due to close does close, to its cached leader: there is
      always a bid to close to. */
  lemma DueLotCloses(cfg: Config, s: Lot, now: Time) returns (i: nat)
    requires cfg.Valid() && Inv(cfg, s) && s.product.status == Active
    requires || (s.product.endsAt.Some? && s.product.endsAt.value <= now)
             || (s.product.highest.Some? && s.product.highest.value >= s.product.end)
    ensures CloseIfExpired(cfg, s, now).Done? && ClosedToLeader(cfg, s, CloseIfExpired(cfg, s, now).lot, i, now)
  {
    var os := Offers(s.bids);
    i := DueLotClosesAt(cfg, s, now, CloseIfExpired(cfg, s, now), os, Reals(os), Ranking(os), Turns(s));
  }

  lemma DueLotClosesAt(cfg: Config, s: Lot, now: Time, outcome: Outcome,
                       os: seq<Offer>, rs: seq<Offer>, ls: seq<nat>, k: int) returns (i: nat)
    requires cfg.Valid() && InvAt(cfg, s, os, rs, ls, k) && os == Offers(s.bids) && rs == Reals(os) && ls == Ranking(os)
    requires s.product.status == Active && ShouldClose(s.product, now) && outcome == CloseIfExpired(cfg, s, now)
    ensures outcome.Done? && ClosedToLeader(cfg, s, outcome.lot, i, now)
  {
    hide Ladder, Fresh, RoundsFollow, DeadlinesRise, PaymentRows, Stage, HoldPrice, ShouldClose, CloseIfExpired;
    ClosesToFirst(cfg, s, now, os, rs, ls);
    WinnerExists(cfg, s, os, rs, ls);
    i := ls[0];
    assert s.bids[i].offer == os[i];
  }

  // ---- One round for one bid

  ghost predicate IdsRise(os: seq<Offer>) {
    forall i, j :: 0 <= i < j < |os| ==> os[i].id < os[j].id
  }

  ghost predicate BidsApart(rounds: seq<Round>, i: nat, j: nat) {
    i < j < |rounds| ==> rounds[i].ticket.bidId != rounds[j].ticket.bidId
  }

  /** No bid ever has two settlement rounds. */
  lemma OneRoundPerBid(cfg: Config, s: Lot, i: nat, j: nat)
    requires Inv(cfg, s)
    ensures BidsApart(s.rounds, i, j)
  {
    var os := Offers(s.bids);
    OneRoundAt(s, os, Turns(s), i, j);
  }

  lemma OneRoundAt(s: Lot, os: seq<Offer>, k: int, i: nat, j: nat)
    requires os == Offers(s.bids) && Fresh(s) && RoundsFollow(s.rounds, os, k)
    ensures BidsApart(s.rounds, i, j)
  {
    forall m, n | 0 <= m < n < |os| ensures os[m].id < os[n].id {
      assert Before(BidIds(s.bids), m, n);
    }
    if i < j < |s.rounds| {
      var a := TicketSource(os, k, i);
      var b := TicketSource(os, k, j);
      TicketsApart(os, k, i, j);
      assert Tickets(s.rounds)[i] == s.rounds[i].ticket && Tickets(s.rounds)[j] == s.rounds[j].ticket;
    }
  }

  /** The offer a settlement round was opened for. */
  lemma TicketSource(os: seq<Offer>, k: int, j: nat) returns (i: nat)
    requires 0 <= k <= |LeaderTickets(os)| && j < |HoldTickets(os)| + k
    ensures i < |os| && (HoldTickets(os) + LeaderTickets(os)[..k])[j].bidId == os[i].id
    ensures os[i].instant <==> j < |HoldTickets(os)|
    ensures j >= |HoldTickets(os)| ==> i == Ranking(os)[j - |HoldTickets(os)|]
  {
    if j < |HoldTickets(os)| {
      i := HoldSource(os, j);
    } else {
      LeadersValid(os, {});
      i := Ranking(os)[j - |HoldTickets(os)|];
    }
  }

  lemma {:induction false} HoldSource(os: seq<Offer>, j: nat) returns (i: nat)
    requires j < |HoldTickets(os)|
    ensures i < |os| && os[i].instant && HoldTickets(os)[j].bidId == os[i].id
  {
    var n := |os| - 1;
    if os[n].instant && j == |HoldTickets(os[..n])| {
      i := n;
    } else {
      i := HoldSource(os[..n], j);
    }
  }

  lemma {:induction false} HoldTicketsRise(os: seq<Offer>, i: nat, j: nat)
    requires IdsRise(os) && i < j < |HoldTickets(os)|
    ensures HoldTickets(os)[i].bidId < HoldTickets(os)[j].bidId
  {
    var n := |os| - 1;
    if os[n].instant && j == |HoldTickets(os[..n])| {
      HoldTicketsBelow(os[..n], os[n].id);
    } else {
      HoldTicketsRise(os[..n], i, j);
    }
  }

  lemma TicketsApart(os: seq<Offer>, k: int, i: nat, j: nat)
    requires IdsRise(os) && 0 <= k <= |LeaderTickets(os)| && i < j < |HoldTickets(os)| + k
    ensures var ts := HoldTickets(os) + LeaderTickets(os)[..k]; ts[i].bidId != ts[j].bidId
  {
    var a := TicketSource(os, k, i);
    var b := TicketSource(os, k, j);
    if j < |HoldTickets(os)| {
      HoldTicketsRise(os, i, j);
    } else if i >= |HoldTickets(os)| {
      LeadersValid(os, {});
    }
  }

  // ---- The cached leader

  /** The cached leader is the largest bid the public may see, and no other
      visible bid is as large; without a visible bid the cache is empty. */
  ghost predicate CacheAgrees(s: Lot, i: nat) {
    if AnyVisible(s.product, s.bids) then
      && i < |s.bids| && Visible(s.product, s.bids[i])
      && s.product.highest == Some(s.bids[i].offer.amount)
      && s.product.leader == Some(s.bids[i].offer.bidder)
      && (forall j :: 0 <= j < |s.bids| && j != i && Visible(s.product, s.bids[j]) ==>
            s.bids[j].offer.amount < s.bids[i].offer.amount)
    else s.product.highest == None && s.product.leader == None
  }

  /** An Instant Buy bid is visible only once it has paid and settled the lot. */
  ghost predicate HoldsUnseen(s: Lot) {
    forall i :: 0 <= i < |s.bids| && s.bids[i].offer.instant && Visible(s.product, s.bids[i]) ==>
      && s.product.status == Settled && s.bids[i].payment == Confirmed
      && s.product.settledAmount == Some(s.bids[i].offer.amount)
  }

  lemma CachedLeader(cfg: Config, s: Lot) returns (i: nat)
    requires cfg.Valid() && Inv(cfg, s)
    ensures CacheAgrees(s, i) && HoldsUnseen(s)
  {
    var os := Offers(s.bids);
    InvRising(cfg, TermsOf(s.product), os, Reals(os));
    i := CachedLeaderAt(cfg, s, os, Reals(os), Ranking(os), Turns(s));
  }

  /** The only Instant Buy bid that can be visible is the one that bought the lot. */
  lemma VisibleHold(s: Lot, os: seq<Offer>, rs: seq<Offer>, ls: seq<nat>, k: int, j: nat)
    requires os == Offers(s.bids) && ls == Ranking(os) && Fresh(s) && RoundsFollow(s.rounds, os, k) && Stage(s, ls, k)
    requires ProductRow(s.product, s.bids, rs, Latest(s.bids, ls, k))
    requires j < |s.bids| && s.bids[j].offer.instant && Visible(s.product, s.bids[j])
    ensures BoughtInstantly(s.product, k) && j == |s.bids| - 1
  {
    var live := Latest(s.bids, ls, k);
    assert Before(BidIds(s.bids), j, live) && Before(BidIds(s.bids), live, j);
    if k > 0 {
      SoldToRanked(s, os, ls, k);
    }
  }

  lemma {:induction false} CachedLeaderAt(cfg: Config, s: Lot, os: seq<Offer>, rs: seq<Offer>, ls: seq<nat>, k: int)
    returns (i: nat)
    requires cfg.Valid() && InvAt(cfg, s, os, rs, ls, k) && os == Offers(s.bids) && rs == Reals(os) && ls == Ranking(os)
    requires Rising(os)
    requires if rs == [] then forall i :: 0 <= i < |os| ==> os[i].instant else RealsUpTo(os, rs[|rs| - 1].amount)
    ensures CacheAgrees(s, i) && HoldsUnseen(s)
  {
    hide Ladder, Fresh, RoundsFollow, DeadlinesRise, PaymentRows, RoundsAre, BidsAre;
    i := 0;
    if BoughtInstantly(s.product, k) {
      i := |s.bids| - 1;
    } else if rs != [] {
      WinnerExists(cfg, s, os, rs, ls);
      i := ls[0];
      assert os[i] == s.bids[i].offer;
    }
    forall j | 0 <= j < |s.bids| && s.bids[j].offer.instant && Visible(s.product, s.bids[j])
      ensures BoughtInstantly(s.product, k) && j == |s.bids| - 1
    {
      VisibleHold(s, os, rs, ls, k, j);
    }
    forall j | 0 <= j < |s.bids| && j != i && Visible(s.product, s.bids[j])
      ensures rs != [] && s.bids[j].offer.amount < s.bids[i].offer.amount
    {
      assert os[j] == s.bids[j].offer;
    }
  }
}
