# A verified model of the auction settlement backend

This project models, in Dafny, how the marketplace sells a lot: how it is
priced and bid on, how an auction closes and the win is passed on when nobody
pays, how an Instant Buy hold freezes and reopens bidding, how payments settle
the sale, and what the seller is paid. Three smaller protocols of the same
backend are modelled beside it: image reordering, relisting, and the files of
KYC submissions, one after another and at once. `dafny verify dfyconfig.toml` checks all of it.

## How it is laid out

| part | files |
|---|---|
| money, prices, bid range | `Money`, `Pricing`, `BidRange` |
| the rows of a lot, the queries over them, what each transaction does | `AuctionRows`, `AuctionQueries`, `AuctionSteps` |
| the transactions statement by statement, as a class | `AuctionTables` |
| the bids as a ladder and a leaderboard | `Leaderboard` |
| the invariant and why every transaction keeps it | `AuctionInvariant`, `BiddingProofs`, `HoldProofs`, `CascadeProofs`, `SettlementProofs` |
| runs, and what holds over them | `AuctionRuns`, `WhoOwes`, `FallbackCascade`, `StalePayments`, `HoldTransparency`, `BidLadder`, `BiddingTime`, `SaleOnce`, `SalePayments`, `ReachableLots` |
| which configurations keep what is said about bidding | `BidConfig` |
| the bid limit per user under concurrency | `SlotLimit` |
| commission, points, payouts and their locks | `Commission`, `RewardsLedger`, `RewardsTables`, `RewardLocks`, `SellerPayout` |
| smaller protocols | `ImageOrder`, `RelistRace`, `KycFiles`, `KycRace` |

A transaction holding the product row lock is one atomic step, except in
`SlotLimit`, `RewardLocks`, `RelistRace` and `KycRace`, which are about
interleavings. The time a transaction reads is a parameter that never runs back,
`Event.elapsed` being the time since the last transaction. Amounts are whole
paisa (Rs 5 is 500); percentages and increments are exact. Ids are handed out in
increasing order.

In `AuctionTables` each transaction is a method that loads rows, changes them
column by column and saves them. Its contract equates the new state with the
function of the same name in `AuctionSteps`, and its saves demand that the three
partial unique indexes still hold, so they hold after every single statement;
deletes, besides, that nothing refers to the deleted rows any more.
What the backend promises is then proved about those functions and about runs
of them (`AuctionRuns.IsRun`), by induction on the run.

Where the code and its own words disagree, the code is modelled:

- Instant Buy is said to be always above the start price. It is so exactly from
  a base price of Rs 47 on, and at ten smaller ones (`Pricing.PricesOrdered`); on
  the other lots it is never on offer (`HoldTransparency.HoldOfferedIff`).
- The published `stepAmount` is said to be the step of the valid amounts. It is
  the configured flat increment, while bids are checked against Rs 5; the claim
  holds on every lot the backend can get to if and only if that increment is Rs
  5 (`BidConfig.StepIsTrueIffFive`), and fails at Rs 10 on a fresh lot of Rs 1000
  (`BidRange.PublishedStepWrong`).
- An active lot below its ceiling can be left without a legal bid by its
  configuration. Exactly when is `BidRange.NextBidExists`, for any increments;
  that no lot ever is holds if and only if the flat increment is Rs 5, or less
  with a percentage of at least a quarter (`BidConfig.NoLotStallsIff`). With
  increments of Rs 3 and 5 percent a lot of base price Rs 50 is left so once Rs 60
  is bid on it (`BidConfig.NoAmountLeft`).
- The bid entity says an unpaid Instant Buy is abandoned. It reopens bidding
  (`HoldTransparency.HoldStep`).
- Ten open lots a user is not a limit once an Instant Buy hold ends in bidding
  going on: the reopened lot can be the eleventh (`SlotLimit.HoldBreaksLimit`),
  and further reopenings can add one each (`SlotLimit.BoundIsAttained`). It holds
  over a run if and only if every reopening finds a slot left for each bidder
  whose bid on the lot survives (`SlotLimit.LimitHoldsIff`).
- Nothing stops a bid or a hold after `biddingEndsAt` until the lot is closed, so
  no such claim is made.
- Reordering images does not reject a list that names one twice by itself; the
  unique constraint does, exactly where an image left out is in the way
  (`ImageOrder.Images.ReorderImages`, `ImageOrder.FitsIffDistinct`).
- A KYC record is never to point at files that no longer exist. Neither
  submissions nor reviews take a lock, and two that overlap can bring a deleted
  file back: two submissions (`KycRace.OverlapDangles`), or a submission and a
  review (`KycRace.ReviewDangles`). Over a run it never happens if and only if
  every save finds the files it takes over neither deleted nor about to be
  (`KycRace.SoundIffSavesSafe`).

## Model

| member | source | states |
|---|---|---|
| `Money.RoundUpToStep` | src/common/utils/rounding.util.ts:6-8 | the least multiple of Rs 5 not below the value |
| `Money.RoundDownToStep` | src/common/utils/rounding.util.ts:13-15 | the greatest multiple of Rs 5 not above the value |
| `Money.RoundUpIsSharp` | src/common/utils/rounding.util.ts:3-8 | rounding a minimum up never changes which multiples of Rs 5 reach it |
| `Money.RoundDownIsSharp` | src/common/utils/rounding.util.ts:10-15 | rounding a maximum down never changes which multiples of Rs 5 stay under it |
| `Pricing.PricesOnStepAboveBase` | src/modules/products/products.service.ts:1402-1431 | the three prices are multiples of Rs 5; Instant Buy price and ceiling are less than Rs 5 below 140 and 160 percent of the base price, and the start price is above it |
| `Pricing.StartPriceByBand` | src/modules/products/products.service.ts:1402-1415 | the start price is the first multiple of Rs 5 at or above 120, 118, 116, 114, 112 or 110 percent of the base price, by bands that end at Rs 10000, 20000, 30000, 40000 and 50000 |
| `Pricing.PricesOrdered` | src/modules/products/products.service.ts:1402-1431 | start below Instant Buy below the ceiling, if and only if the base price is at least Rs 47 or one of ten smaller ones |
| `Pricing.InstantBuyNotAlwaysAboveStart` | src/modules/products/products.service.ts:1417-1424 | a lot of base price Rs 1 starts at Rs 5, above its Instant Buy price of nothing |
| `BidRange.PublishedEqualsEnforced` | src/modules/bidding/services/bidding.service.ts:736-830 | the published range is open with two bounds iff the amounts a bid is accepted at are exactly the multiples of Rs 5 between them, and closed iff no amount is accepted |
| `BidRange.PublishedStepIsTrue` | src/modules/bidding/services/bidding.service.ts:67-80 | for one lot, the published step describes the valid amounts iff it is Rs 5, or it divides the only one left |
| `BidRange.PublishedStepWrong` | src/modules/bidding/services/bidding.service.ts:737-738 | a configuration and a lot where it does not |
| `BidConfig.StepIsTrueIffFive` | src/modules/bidding/services/bidding.service.ts:67-80 | it does on every reachable lot iff the flat increment is Rs 5 |
| `BidRange.NextBidExists` | src/modules/bidding/services/bidding.service.ts:685-713 | under any increments an active lot has a legal next amount iff the first multiple of Rs 5 at or above the leading amount plus the flat increment is under the ceiling and within the percentage increment, or exactly the flat one where that is larger |
| `BidRange.NextBidOnStep` | src/modules/bidding/services/bidding.service.ts:685-713 | for a flat increment on the step: iff one increment still fits under the ceiling |
| `BidConfig.NoLotStallsIff` | src/modules/bidding/services/bidding.service.ts:685-713 | every reachable active lot has a legal amount until its ceiling is reached iff the flat increment is Rs 5, or less and the percentage at least a quarter |
| `BidConfig.NoAmountLeft` | src/modules/bidding/services/bidding.service.ts:691-699 | a lot the backend can get to, and increments of which the flat one is not the larger, that leave nothing to bid |
| `BidRange.FlatIncrementIsExact` | src/modules/bidding/services/bidding.service.ts:685-713 | the legal amounts under any increments: the leading amount plus the flat increment to the paisa while that is the larger, otherwise the multiples of Rs 5 between the two, never past the ceiling |
| `BidRange.FirstBidIsExact` | src/modules/bidding/services/bidding.service.ts:663-682 | the legal first bids: the multiples of Rs 5 from the start price to the percentage above it, never past the ceiling |
| `BidRange.FirstBidExists` | src/modules/bidding/services/bidding.service.ts:663-682 | a first bid is possible iff the start price rounded up to Rs 5 fits under the ceiling and within the percentage, and then at that price; for a start price on the step only the ceiling matters |
| `BidRange.StartFitsUnderCeiling` | src/modules/products/products.service.ts:1402-1431 | the computed start price exceeds the computed ceiling at six base prices only |
| `ReachableLots.PublicLeaderboard` | src/modules/bidding/services/bidding.service.ts:427-450 | on every reachable lot the public query, over the bids its condition shows, has exactly one answer: the first five of their ranking; it is headed by the cached leader, and is the ranking the win is passed on by unless an Instant Buy bought the lot |
| `Leaderboard.RankingIsLeaderboard` | src/modules/bidding/services/bidding.service.ts:427-450 | scanning bids that rise newest first and keeping each bidder once gives the grouped and ordered query: best bid of every bidder, largest first |
| `Leaderboard.LeaderboardUnique` | src/modules/bidding/services/bidding.service.ts:427-450 | there is only one leaderboard |
| `AuctionQueries.Top` | src/modules/bidding/services/auction-lifecycle.service.ts:122-129 | the first row by amount, then by time: eligible, and of no smaller amount and, of those as large, no later than any eligible bid; or there is none |
| `CascadeProofs.HighestIsFirst` | src/modules/bidding/services/auction-lifecycle.service.ts:122-129 | the bid an auction closes to is the first on the leaderboard |
| `CascadeProofs.NextInRanking` | src/modules/bidding/services/auction-lifecycle.service.ts:691-715 | with the first k bidders lapsed, the fallback query returns entry k of the leaderboard, or nothing once it is used up |
| `CascadeProofs.ExpiryFollowsRanking` | src/modules/bidding/services/auction-lifecycle.service.ts:645-805 | an overdue window ends in the turn of the next ranked bidder, or in abandonment |
| `HoldProofs.ReleaseCases` | src/modules/bidding/services/auction-lifecycle.service.ts:493-571 | a release retires or deletes exactly the rows of the hold in force, or leaves all alone if the failed payment was for another round |
| `SettlementProofs.GatewaySettles` | src/modules/bidding/services/auction-lifecycle.service.ts:1725-1814 | a gateway confirmation settles the lot through the responsible bid and the newest round, or rejects a payment for another round |
| `SettlementProofs.ManualSettles` | src/modules/bidding/services/auction-lifecycle.service.ts:1063-1190 | a manual confirmation settles through the same bid and round, given a serviceable address |
| `SettlementProofs.CodSettles` | src/modules/bidding/services/auction-lifecycle.service.ts:1330-1454 | cash on delivery does so for the bidder whose turn it is, in time, and for nobody else |
| `SettlementProofs.RefusalUnwinds` | src/modules/bidding/services/auction-lifecycle.service.ts:1566-1637 | a refusal unwinds exactly the round and the bid that sold the lot, sends a parcel under way back and records a strike against the buyer |
| `AuctionRuns.StepKeepsInv` | src/modules/bidding/services/auction-lifecycle.service.ts:65-1814 | every transaction keeps the master invariant |
| `AuctionRuns.RunKeepsInv` | src/modules/bidding/services/auction-lifecycle.service.ts:65-1814 | every lot a run passes through satisfies it |
| `AuctionRuns.ReachableInv` | src/modules/bidding/services/auction-lifecycle.service.ts:65-1814 | so does every lot reachable from a listing |
| `ReachableLots.OneDebtor` | src/modules/bidding/entities/bid.entity.ts:18-21 | on every reachable lot status, the one responsible bid and its payment status, the one open round and the winning bid agree, whatever the stage |
| `WhoOwes.NoInconsistency` | src/modules/bidding/services/auction-lifecycle.service.ts:316-323 | no transaction ever reaches a "data inconsistency" error or misses a leading amount |
| `WhoOwes.DueLotCloses` | src/modules/bidding/services/auction-lifecycle.service.ts:101-168 | a lot past its end or at its ceiling does close, to its cached leader, whose window to pay begins; the branch for an active lot without bids is never taken |
| `BiddingTime.ClosesIff` | src/modules/bidding/services/auction-lifecycle.service.ts:91-116 | an active lot closes iff its end has come or its leading amount is the ceiling; else nothing happens to it |
| `BiddingTime.AuctionEnds` | src/modules/bidding/services/auction-lifecycle.service.ts:103-116 | over a run from the listing: iff the bidding time has passed since the first bid, the time on hold not counted, or the ceiling is reached |
| `BiddingTime.BiddingLasts` | src/modules/bidding/services/auction-lifecycle.service.ts:103-116 | and until then an active lot stays active, save for a hold |
| `WhoOwes.OneRoundPerBid` | src/modules/bidding/services/auction-lifecycle.service.ts:158-168 | no bid ever has two settlement rounds |
| `ReachableLots.CacheIsPublic` | src/modules/bidding/bid-visibility.ts:21-22 | on every reachable lot the cached amount and leader are those of the one largest publicly visible bid, or empty; an Instant Buy bid is visible only once it has settled the lot |
| `ReachableLots.RoundsAreBoard` | src/modules/bidding/services/auction-lifecycle.service.ts:664-790 | on every reachable lot, after the rounds of the holds, the rounds are the first entries of the leaderboard, ranks 0, 1, 2, amounts falling and deadlines rising |
| `FallbackCascade.OverdueTurn` | src/modules/bidding/services/auction-lifecycle.service.ts:645-805 | nothing before the deadline; after it the next entry's turn, and abandonment iff as many turns have been had as there are bidders, or three |
| `ReachableLots.ThreeTurnsAtMost` | src/modules/bidding/services/auction-lifecycle.service.ts:680-805 | on every reachable lot at most three bidders get a turn; an overdue turn ends in abandonment iff it was the third or the last bidder's, else the next leaderboard entry gets its own |
| `FallbackCascade.AbandonedAfterAll` | src/modules/bidding/services/auction-lifecycle.service.ts:801-805 | a lot nobody paid for was abandoned after exactly three expired rounds, or one for each bidder if they were fewer |
| `FallbackCascade.OneEntryPerBidder` | src/modules/bidding/services/bidding.service.ts:427-450 | a leaderboard has as many entries as there are bidders |
| `StalePayments.StepFollows` | src/modules/bidding/entities/product-settlement.entity.ts:10-20 | no transaction changes who pays what until when in a round, reopens one, or revives an expired one |
| `StalePayments.GatewayNeedsOpenRound` | src/modules/bidding/services/auction-lifecycle.service.ts:1725-1770 | a payment for a round is accepted iff the round is open, and rejected as already settled or stale otherwise |
| `StalePayments.LatePaymentIsSafe` | src/modules/bidding/services/auction-lifecycle.service.ts:1725-1814 | whatever a run does between creating a payment for a round and its confirmation, it is accepted iff that round is still open, and sells to that round's winner at its amount |
| `HoldTransparency.HoldStep` | src/modules/bidding/services/auction-lifecycle.service.ts:266-464 | each transaction on a lot on hold leaves it frozen or ends the hold in one of four ways, decided by the transaction; unless bought, status, leader and price are as before and exactly the bidding time that was left remains |
| `HoldTransparency.HoldIsTransparent` | src/modules/bidding/services/auction-lifecycle.service.ts:432-571 | the same over a whole run: frozen until the first transaction that ends the hold, then undone, retired or bought |
| `HoldTransparency.OneTimeoutEach` | src/modules/bidding/services/auction-lifecycle.service.ts:325-344 | in a run from the listing, a buyer lets at most one hold on the lot run out |
| `HoldTransparency.HoldOfferedIff` | src/modules/bidding/services/auction-lifecycle.service.ts:291-344 | on an open lot exactly those can start a hold who are not the owner and let none run out, while bidding is below the Instant Buy price; before the first bid that is a matter of the base price alone |
| `HoldTransparency.HoldRejectedBecause` | src/modules/bidding/services/auction-lifecycle.service.ts:286-343 | why a hold is refused: the first reason in the order of the checks |
| `HoldTransparency.HoldRecorded` | src/modules/bidding/services/auction-lifecycle.service.ts:346-395 | the bid and the round a hold leaves, at the Instant Buy price and due when it ends |
| `ReachableLots.BidsClimb` | src/modules/bidding/services/bidding.service.ts:656-726 | on every reachable lot the bids are multiples of Rs 5 from the start price to the ceiling, each within the increments over the one before and by another bidder, none by the owner, and rising |
| `BidLadder.LadderIsShort` | src/modules/bidding/services/bidding.service.ts:214-234 | they number at most the multiples of Rs 5 from the start price to the ceiling |
| `BidLadder.BidAcceptedIff` | src/modules/bidding/services/bidding.service.ts:148-234 | who may bid and at which amounts: not the owner or leader, who bid here before or on fewer than ten other open lots, and exactly the amounts of the published range |
| `BidLadder.BidRejectedBecause` | src/modules/bidding/services/bidding.service.ts:148-228 | why a bid is rejected: the first reason in the order of the checks |
| `BidLadder.BidStands` | src/modules/bidding/services/bidding.service.ts:249-272 | an accepted bid is recorded with its place on the ladder and the amount of the rung below, becomes the cached leader, and starts the clock iff it is the first; nothing else changes |
| `BidLadder.NeverStalls` | src/modules/bidding/services/auction-lifecycle.service.ts:103-116 | with the Rs 5 increment an active lot has a legal next amount iff it is below its ceiling, where it is due to close |
| `BidLadder.CanBeOpened` | src/modules/bidding/services/bidding.service.ts:663-682 | a listed lot has a legal first bid iff its base price is not one of six |
| `BidLadder.StepLadder` | src/modules/bidding/services/bidding.service.ts:247-274 | an accepted bid is added on top; nothing else ever adds, alters or removes one |
| `BidLadder.BiddingIsBounded` | src/modules/bidding/services/bidding.service.ts:214-234 | no run from a listing ever accepts more bids than that |
| `ReachableLots.OneSale` | src/modules/bidding/services/auction-lifecycle.service.ts:1108-1146 | a reachable lot is sold iff exactly one round is settled, of the sale amount and for the winning bid; and the sale is within its prices |
| `SaleOnce.SaleStands` | src/modules/bidding/services/auction-lifecycle.service.ts:1566-1632 | once sold a lot stays as it is, unless a refusal abandons it for good |
| `SaleOnce.SettlesAtMostOnce` | src/modules/bidding/services/auction-lifecycle.service.ts:1774-1814 | in a run at most one round is ever settled |
| `SaleOnce.SaleRecorded` | src/modules/bidding/services/auction-lifecycle.service.ts:1104-1190 | every confirmation sells to the one bid that owed, through the newest round and only open one, on that round's terms, and an Instant Buy closes the auction with it; no other bid is left to pay, and a manual or cash sale records one payment of that amount and method and expires the prepaid attempts in flight |
| `SaleOnce.ConfirmationDecided` | src/modules/bidding/services/auction-lifecycle.service.ts:1330-1410 | when each of the three confirmations is accepted, and why it is rejected otherwise |
| `SalePayments.CashStaysOpen` | src/modules/bidding/services/auction-lifecycle.service.ts:1573-1600 | whatever a run does after cash on delivery was chosen, the cash can be collected, or the parcel refused until delivered, up to the first time either happens |
| `SalePayments.ManualIsPaid` | src/modules/bidding/services/auction-lifecycle.service.ts:1573-1580 | the payment of a manual confirmation can be neither collected nor refused |
| `SalePayments.RefusalDecided` | src/modules/bidding/services/auction-lifecycle.service.ts:1566-1600 | when a refusal is accepted, and why it is rejected otherwise |
| `SalePayments.AttemptOpened` | src/modules/payments/entities/product-payment.entity.ts:13-20 | a prepaid attempt is of its round's winner and amount, and none is opened for a round while another is in flight |
| `SaleOnce.SaleWithinPrices` | src/modules/bidding/services/auction-lifecycle.service.ts:303-314 | a lot sells at or above its start price, above its base price, and at or below its ceiling |
| `SaleOnce.OneStrike` | src/modules/bidding/services/auction-lifecycle.service.ts:1616-1637 | in a run from the listing a lot is refused at the door at most once, and the one strike goes to the buyer it had been sold to |
| `AuctionTables.IndexesHold` | src/modules/bidding/entities/product-settlement.entity.ts:15-19 | at most one bid responsible, one round open and one payment of a round in flight, and none of the first two while bidding is open |
| `AuctionTables.Tables.SaveBid` | src/modules/bidding/entities/bid.entity.ts:17-21 | saves a bid row and demands the unique index of responsible bids |
| `AuctionTables.Tables.SaveRound` | src/modules/bidding/entities/product-settlement.entity.ts:15-19 | saves a round and demands the unique index of open rounds |
| `AuctionTables.Tables.ClearOtherBids` | src/modules/bidding/services/auction-lifecycle.service.ts:1123-1132 | the bulk update keeps the index of responsible bids |
| `AuctionTables.Tables.DeleteRoundsOf` | src/modules/bidding/services/auction-lifecycle.service.ts:557-561 | deletes rounds no payment refers to |
| `AuctionTables.Tables.DeleteBid` | src/modules/bidding/services/auction-lifecycle.service.ts:557-562 | deletes a bid no round covers |
| `AuctionTables.Tables.InsertPayment` | src/modules/payments/entities/product-payment.entity.ts:13-20 | inserts a payment row under the unique index of payments in flight |
| `AuctionTables.Tables.SavePayment` | src/modules/payments/entities/product-payment.entity.ts:13-20 | saves one under it |
| `AuctionTables.Tables.RetireAttempts` | src/modules/bidding/services/auction-lifecycle.service.ts:1174-1190 | the bulk update leaves no payment in flight |
| `AuctionTables.Tables.PlaceBid` | src/modules/bidding/services/bidding.service.ts:124-280 | placing a bid, statement by statement, does what its specification says and keeps the invariant |
| `AuctionTables.Tables.CloseIfExpired` | src/modules/bidding/services/auction-lifecycle.service.ts:65-169 | likewise closing the auction |
| `AuctionTables.Tables.StartHold` | src/modules/bidding/services/auction-lifecycle.service.ts:266-399 | likewise starting an Instant Buy hold |
| `AuctionTables.Tables.Revert` | src/modules/bidding/services/auction-lifecycle.service.ts:432-464 | reopens bidding as the real bids say, giving a running clock its time back |
| `AuctionTables.Tables.ReleaseHold` | src/modules/bidding/services/auction-lifecycle.service.ts:493-571 | likewise releasing a hold |
| `AuctionTables.Tables.PaymentExpiry` | src/modules/bidding/services/auction-lifecycle.service.ts:600-807 | likewise expiring a payment window |
| `AuctionTables.Tables.ConfirmManual` | src/modules/bidding/services/auction-lifecycle.service.ts:1042-1192 | likewise a manual confirmation |
| `AuctionTables.Tables.ConfirmCod` | src/modules/bidding/services/auction-lifecycle.service.ts:1310-1456 | likewise choosing cash on delivery |
| `AuctionTables.Tables.ConfirmGateway` | src/modules/bidding/services/auction-lifecycle.service.ts:1692-1816 | likewise a gateway confirmation |
| `AuctionTables.Tables.RefuseCod` | src/modules/bidding/services/auction-lifecycle.service.ts:1552-1640 | likewise a refusal at the door |
| `AuctionTables.Tables.Reprice` | src/modules/products/products.service.ts:357-362 | likewise a change of the base price |
| `ReachableLots.RepricedUntilFirstBid` | src/modules/products/products.service.ts:357-362 | on every reachable lot the prices follow a change of the base price until the first bid, but not during a hold |
| `SlotLimit.SlotsWithinLimit` | src/modules/bidding/services/bidding.service.ts:172-212 | over every interleaving of placeBid calls, a user has bids on at most ten open lots plus the number of holds reopened; ten without any |
| `SlotLimit.LimitHoldsIff` | src/modules/bidding/services/bidding.service.ts:172-212 | over any run no user passes ten, nor could by a commit, iff every reopened hold finds a slot left for each bidder whose bid on the lot survives |
| `SlotLimit.BoundIsAttained` | src/modules/bidding/services/bidding.service.ts:172-212 | for every number of reopenings a run ends with exactly so many lots beyond ten |
| `SlotLimit.HoldBreaksLimit` | src/modules/bidding/services/bidding.service.ts:172-212 | a run in which one reopened hold makes it eleven |
| `SlotLimit.NoWaitCycle` | src/modules/bidding/services/bidding.service.ts:139-192 | locking the product before the user never makes calls wait in a circle |
| `SlotLimit.SomebodyMoves` | src/modules/bidding/services/bidding.service.ts:139-192 | while a call is unfinished some call can go on |
| `Commission.ResolveBand` | src/modules/rewards/rewards.service.ts:64-74 | the loop finds the governing band of any sorted list |
| `Commission.LevelGoverns` | src/modules/rewards/rewards.service.ts:23-26 | there is exactly one: the last whose minimum is met, the first for balances below all |
| `Commission.ResolveTierAndCommission` | src/modules/rewards/rewards.service.ts:64-74 | tier and percentage of the governing commission band |
| `Commission.ShareTable` | src/modules/rewards/rewards.service.ts:27-46 | the fifteen bands of points, with tier and percentage |
| `Commission.SharesRise` | src/modules/rewards/rewards.service.ts:26-46 | more points never mean a smaller share, which lies between 20 and 100 percent |
| `Commission.PayoutBounds` | src/modules/rewards/rewards.service.ts:78-92 | a sale at or above the base price pays between base price and sale amount, and never less for more points |
| `Commission.PayoutExtremes` | src/modules/rewards/rewards.service.ts:78-92 | everything from 20000 points on, a fifth of the profit to half a paisa below 500 |
| `Commission.PayoutIsShare` | src/modules/rewards/rewards.service.ts:88-89 | the payout is the base price and the seller's percentage of the profit, to the nearest paisa |
| `Commission.PointsAreOnePercent` | src/modules/rewards/rewards.service.ts:157 | a sale earns one percent of its amount in points, to the nearest one |
| `RewardsLedger.PayoutIsSound` | src/modules/rewards/rewards.service.ts:138-194 | paying a seller out keeps balances equal to ledger sums, and a second payout of the sale is refused |
| `RewardsLedger.PayoutDecided` | src/modules/rewards/rewards.service.ts:108-121 | when a payout is made, and why it is refused otherwise |
| `RewardsLedger.AdjustmentIsSound` | src/modules/rewards/rewards.service.ts:228-262 | a manual adjustment keeps them equal |
| `RewardsLedger.BooksStaySound` | src/modules/rewards/rewards.service.ts:99-268 | over any sequence: balances are ledger sums, tiers those of the balances, each sale earns its points at most once |
| `RewardsLedger.PaidAsStanding` | src/modules/rewards/rewards.service.ts:76-92 | over any sequence: every sale paid out stands in the ledger with one percent for buyer and for seller, and was priced by the band of the points its seller had before them |
| `RewardsLedger.SalesComeFrom` | src/modules/rewards/rewards.service.ts:185-194 | over any sequence every sale keeps the terms it was recorded on, and every payout is one that was made, at that time |
| `RewardsTables.Tables.LockOrCreate` | src/modules/rewards/rewards.service.ts:366-385 | loads a balance row, or creates an empty one |
| `RewardsTables.Tables.LockBoth` | src/modules/rewards/rewards.service.ts:138-150 | locks the rows of buyer and seller in the order the lock protocol assumes, and loads one shared row if they are the same user |
| `RewardsTables.Tables.MarkSellerPaid` | src/modules/rewards/rewards.service.ts:99-194 | the payout as carried out does what its specification says |
| `RewardsTables.Tables.AdjustPoints` | src/modules/rewards/rewards.service.ts:228-262 | likewise the adjustment |
| `RewardLocks.RunIsExclusive` | src/modules/rewards/rewards.service.ts:366-385 | over any run of calls no two under way hold the row of one user |
| `RewardLocks.NoWaitCycle` | src/modules/rewards/rewards.service.ts:138-149 | calls taking rows in the order of their users never wait in a circle |
| `RewardLocks.RunNeverStuck` | src/modules/rewards/rewards.service.ts:138-149 | in any run, while a call is unfinished some call can take its next row or commit |
| `SellerPayout.PaymentIsSaleAmount` | src/modules/bidding/services/auction-lifecycle.service.ts:1148-1172 | a payment for the round that sold the lot is of the sale amount |
| `SellerPayout.PayoutEndToEnd` | src/modules/rewards/rewards.service.ts:78-92 | for every reachable lot the payout of its sale lies between base price and amount paid, and grows with the seller's points |
| `RelistRace.ClaimKeeps` | src/modules/products/products.repository.ts:339-348 | the conditional update lets one request through and keeps copies and requests consistent |
| `RelistRace.OneCopyRemains` | src/modules/products/products.service.ts:526-586 | over every interleaving, when all requests are through the undeleted copies are the one the lot points at, if any was made, and it alone has a product code |
| `RelistRace.LateRequestsRefused` | src/modules/products/products.service.ts:526-545 | a request that finds the lot relisted already is refused and never makes a copy |
| `ImageOrder.Images.Update` | src/database/migrations/1791448028981-InitialSchema.ts:66 | a row update is refused iff another image has the number, and keeps numbers unique |
| `ImageOrder.Images.Renumber` | src/modules/products/products.repository.ts:391-406 | both phases go through iff no image is in the way; the images then have their positions, or nothing changed |
| `ImageOrder.Images.ReorderImages` | src/modules/products/products.repository.ts:375-407 | the exact outcome of a reordering for every list, and its result |
| `ImageOrder.Images.SetPreviewImage` | src/modules/products/products.repository.ts:409-446 | the chosen image comes first, the others keep their order, numbered from 0 |
| `ImageOrder.FitsBelowTemporary` | src/modules/products/products.repository.ts:391-406 | with numbers below 1000 a list of every image always goes through |
| `ImageOrder.FitsIffDistinct` | src/modules/products/dto/reorder-images.dto.ts:11-15 | where numbers run without a gap, a full list goes through iff it names no image twice |
| `ImageOrder.NumberedInOrder` | src/modules/products/products.repository.ts:399-405 | the final numbers are 0 to n-1 in list order |
| `ImageOrder.OthersKeepOrder` | src/modules/products/products.repository.ts:424-427 | moving one image to the front leaves the others in order |
| `KycFiles.Storage.SubmitKyc` | src/modules/kyc/kyc.service.ts:81-274 | for requests that run one after another: the exact error or the exact new record and files, whichever write, save or delete fails; no record ever names a missing file, nor two accounts one document |
| `KycFiles.Storage.WriteAll` | src/modules/kyc/kyc.service.ts:182-200 | new files are written, or all written ones that can be are deleted again |
| `KycFiles.Storage.Resolve` | src/modules/kyc/kyc.service.ts:137-161 | sorts the required slots into kept, missing and to be written |
| `KycFiles.Storage.DeleteFile` | src/modules/kyc/kyc.service.ts:263-274 | deletes a file that no record names |
| `KycFiles.SubmittedFiles` | src/modules/kyc/kyc.service.ts:137-216 | exactly the sides of the document are filled, two of a citizenship and one of a passport or NID card, with the upload or the file kept, and exactly the old files no longer named are left behind |
| `KycFiles.RefusedBecause` | src/modules/kyc/kyc.service.ts:81-130 | why a submission is turned away: the first reason in the order of the checks |
| `KycFiles.MissingAre` | src/modules/kyc/kyc.service.ts:137-174 | the files it is turned away for: sides neither uploaded nor on file for the same kind of document |
| `KycRace.SaveSoundIff` | src/modules/kyc/kyc.service.ts:253-261 | of requests at once: after a save the record names a file that is gone or about to go, iff the save took that file over from the record it loaded |
| `KycRace.SoundIffSavesSafe` | src/modules/kyc/kyc.service.ts:81-274 | over any interleaving the record never does so, iff every save finds the files it takes over neither deleted nor about to be |
| `KycRace.DoomedBySave` | src/modules/kyc/kyc.service.ts:202-216 | a file once saved is put up for deletion only by the save of a submission that had loaded it and no longer names it |
| `KycRace.SoundMeans` | src/modules/kyc/kyc.service.ts:263-274 | not to name such a file is to name no missing one, now and after any one deletion |
| `KycRace.UnchangedSavesSound` | src/modules/kyc/kyc.service.ts:253-261 | it would do to refuse a save over a record whose files have changed since it was loaded |
| `KycRace.OverlapDangles` | src/modules/kyc/kyc.service.ts:81-274 | a run of two submissions after which the record names a deleted file |
| `KycRace.ReviewDangles` | src/modules/kyc/kyc.service.ts:549-586 | a run of a submission and a review after which an approved record does |

## Left out

- Mail, notifications, live updates, event emission and logging: they follow the commit and change no modelled row.
- Payment creation, gateway reports and courier reports are steps of the environment (`OpenPayment`, `GatewayReport`, `CollectCod`): the payments service that decides on refunds, the delivery service and the courier service are not part of this model.
- Delivery rows, of which only whether a parcel was sent, delivered or sent back is modelled, delivery charges, reference labels and bank details: columns and rows no other modelled step reads.
- Address validation and serviceability are one boolean that may reject; the check that a bidder has a phone number on file is left out.
- SQL, the object mapper and UUIDs: rows are values in sequences and maps with fresh ids; a lookup by id scans from the end.
- Decimal columns and floating point: amounts are whole paisa and percentages exact, so a float that is off by a rounding error is not captured.
- Lots without prices. Rows whose prices predate the rounding are covered by `BidRange`, where only what is said of a start price on the step assumes one; every other part takes prices as they are computed now.
- Withdrawing a listed lot, which takes no row lock either and after which every modelled transaction refuses the lot, and the statuses before a lot is listed.
- `AuctionTables.Tables.PlaceBid`: takes the number of the user's other open lots as an argument, because it concerns one lot; how that number is counted under concurrency is `SlotLimit`.
- `AuctionTables.Tables.Reprice`: the edit and its check run without the row lock in the source, so only a sequential change of price is modelled; the other columns an edit may change are left out.
- `RewardsLedger.PayoutIsSound`: the payment row is not locked in the source, so "paid out once" is claimed for transactions that run one after another.
- The batch jobs that close auctions and expire windows, one lot at a time, and the payment reminders: they call the modelled transactions in a loop.
- `KycFiles.Storage.SubmitKyc`: the columns of a submission other than its document and files and the re-encoding of uploads are left out, and so are requests of one account that overlap, which are `KycRace`.
- `KycRace.SaveSoundIff`: a save is one statement that writes every column, and one account is modelled; the mapper re-reads the row just before it writes those that differ.
- `RelistRace.OneCopyRemains`: requests that die between two statements are left out, and so are the copied columns and images.
- Lists, filters, favourites, ratings, categories, tokens, shipping defaults and boosts.
