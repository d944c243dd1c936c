/** Any number of placeBid transactions running at once, interleaved lock by lock
    and statement by statement: the limit on the lots a user bids on, and why
    the two kinds of lock cannot deadlock.

    A transaction locks the product row first, and an advisory lock keyed by a
    hash of the user only if this would be the user's first bid on the lot.  It
    counts committed bids; its own bid appears when it commits, which is also
    when it lets go of its locks.
 */
module SlotLimit {
  import opened AuctionRows
  import AuctionSteps

  type ProductId = int

  const LIMIT: nat := AuctionSteps.MAX_ACTIVE_BIDS_PER_USER

  /** How far a placeBid call has come. */
  datatype Phase =
    | WantsProduct             // about to lock the product row
    | Examines                 // holds it, about to look for a bid of this user's
    | WantsUser                // found none, about to take the advisory lock
    | Counts                   // holds that too, about to count
    | MayBid(newSlot: bool)    // passed, about to commit
    | Finished                 // committed or rolled back

  datatype Call = Call(user: UserId, product: ProductId, phase: Phase)

  /** `open` are the lots in AWAITING_FIRST_BID or ACTIVE; `held` those on an
      Instant Buy hold, with the buyer and whether they had bid before;
      `reopened` counts the holds that ended in bidding going on. */
  datatype World = World(
    open: set<ProductId>,
    held: map<ProductId, (UserId, bool)>,
    bids: set<(UserId, ProductId)>,
    calls: seq<Call>,
    reopened: nat)

  predicate HoldsProduct(c: Call) {
    c.phase.Examines? || c.phase.WantsUser? || c.phase.Counts? || c.phase.MayBid?
  }

  predicate HoldsUser(c: Call) {
    c.phase.Counts? || (c.phase.MayBid? && c.phase.newSlot)
  }

  ghost predicate ProductFree(w: World, p: ProductId) {
    forall i :: 0 <= i < |w.calls| && HoldsProduct(w.calls[i]) ==> w.calls[i].product != p
  }

  ghost predicate UserFree(hash: UserId -> int, w: World, user: UserId) {
    forall i :: 0 <= i < |w.calls| && HoldsUser(w.calls[i]) ==> hash(w.calls[i].user) != hash(user)
  }

  /** The open lots the user has a bid on. */
  ghost function Slots(w: World, user: UserId): set<ProductId> {
    set p | p in w.open && (user, p) in w.bids
  }

  datatype Move =
    | Arrive(user: UserId, product: ProductId)
    | LockProduct(i: nat)
    | Examine(i: nat)
    | LockUser(i: nat)
    | Count(i: nat)
    | Commit(i: nat)
    | Abort(i: nat)
    | List(product: ProductId)
    | Close(product: ProductId)
    | Hold(product: ProductId, buyer: UserId)
    | Reopen(product: ProductId, deleted: bool)

  function InPhase(w: World, i: nat, phase: Phase): World
    requires i < |w.calls|
  {
    w.(calls := w.calls[i := w.calls[i].(phase := phase)])
  }

  /** One move of one party.  The other transactions on a lot also run under its
      row lock, so they happen only while no call holds it. */
  ghost predicate Next(hash: UserId -> int, w: World, m: Move, w': World) {
    match m
    case Arrive(user, product) =>
      w' == w.(calls := w.calls + [Call(user, product, WantsProduct)])
    case LockProduct(i) =>
      && i < |w.calls| && w.calls[i].phase == WantsProduct && ProductFree(w, w.calls[i].product)
      && w' == InPhase(w, i, Examines)
    case Examine(i) =>
      && i < |w.calls| && w.calls[i].phase == Examines
      && w' == InPhase(w, i, if w.calls[i].product !in w.open then Finished
                             else if (w.calls[i].user, w.calls[i].product) in w.bids then MayBid(false)
                             else WantsUser)
    case LockUser(i) =>
      && i < |w.calls| && w.calls[i].phase == WantsUser && UserFree(hash, w, w.calls[i].user)
      && w' == InPhase(w, i, Counts)
    case Count(i) =>
      && i < |w.calls| && w.calls[i].phase == Counts
      && w' == InPhase(w, i, if |Slots(w, w.calls[i].user)| >= LIMIT then Finished else MayBid(true))
    case Commit(i) =>
      && i < |w.calls| && w.calls[i].phase.MayBid?
      && w' == InPhase(w, i, Finished).(bids := w.bids + {(w.calls[i].user, w.calls[i].product)})
    case Abort(i) =>
      i < |w.calls| && w' == InPhase(w, i, Finished)
    case List(p) =>
      && p !in w.open && p !in w.held && (forall u :: (u, p) !in w.bids) && ProductFree(w, p)
      && w' == w.(open := w.open + {p})
    case Close(p) =>
      ProductFree(w, p) && w' == w.(open := w.open - {p})
    case Hold(p, buyer) =>
      && p in w.open && ProductFree(w, p)
      && w' == w.(
           open := w.open - {p},
           held := w.held[p := (buyer, (buyer, p) in w.bids)],
           bids := w.bids + {(buyer, p)})
    case Reopen(p, deleted) =>
      && p in w.held && p !in w.open && ProductFree(w, p)
      && w' == w.(
           open := w.open + {p},
           held := w.held - {p},
           bids := if deleted && !w.held[p].1 then w.bids - {(w.held[p].0, p)} else w.bids,
           reopened := w.reopened + 1)
  }

  // ---- The invariant

  ghost predicate LocksApart(hash: UserId -> int, w: World, i: nat, j: nat) {
    i < j < |w.calls| ==>
      && (HoldsProduct(w.calls[i]) && HoldsProduct(w.calls[j]) ==> w.calls[i].product != w.calls[j].product)
      && (HoldsUser(w.calls[i]) && HoldsUser(w.calls[j]) ==> hash(w.calls[i].user) != hash(w.calls[j].user))
  }

  /** A call that may bid takes no slot, or one that is still free. */
  ghost predicate RoomFor(w: World, c: Call) {
    c.phase.MayBid? ==>
      if c.phase.newSlot then |Slots(w, c.user)| < LIMIT + w.reopened else (c.user, c.product) in w.bids
  }

  ghost predicate Within(w: World, user: UserId) {
    |Slots(w, user)| <= LIMIT + w.reopened
  }

  ghost predicate Safe(hash: UserId -> int, w: World) {
    && (forall i: nat, j: nat :: LocksApart(hash, w, i, j))
    && (forall i :: 0 <= i < |w.calls| ==> RoomFor(w, w.calls[i]))
    && (forall user: UserId :: Within(w, user))
  }

  lemma SlotsShrink(s: set<ProductId>, t: set<ProductId>)
    requires s <= t
    ensures |s| <= |t|
  {
    if s != t {
      assert t == s + (t - s);
    }
  }

  /** A move that leaves the calls alone changes nobody's slots by more than the
      reopenings allow. */
  lemma WorldMoves(hash: UserId -> int, w: World, w': World)
    requires Safe(hash, w) && w'.calls == w.calls
    requires forall user: UserId :: |Slots(w', user)| - w'.reopened <= |Slots(w, user)| - w.reopened
    requires forall i :: 0 <= i < |w.calls| && HoldsProduct(w.calls[i]) ==>
               ((w.calls[i].user, w.calls[i].product) in w.bids ==> (w.calls[i].user, w.calls[i].product) in w'.bids)
    ensures Safe(hash, w')
  {
    forall i: nat, j: nat ensures LocksApart(hash, w', i, j) {
      assert LocksApart(hash, w, i, j);
    }
    forall i | 0 <= i < |w'.calls| ensures RoomFor(w', w'.calls[i]) {
      assert RoomFor(w, w.calls[i]);
    }
    forall user: UserId ensures Within(w', user) {
      assert Within(w, user);
    }
  }

  lemma ListMoves(hash: UserId -> int, w: World, p: ProductId, w': World)
    requires Safe(hash, w) && Next(hash, w, List(p), w')
    ensures Safe(hash, w')
  {
    forall user: UserId ensures Slots(w', user) == Slots(w, user) {}
    WorldMoves(hash, w, w');
  }

  lemma CloseMoves(hash: UserId -> int, w: World, p: ProductId, w': World)
    requires Safe(hash, w) && Next(hash, w, Close(p), w')
    ensures Safe(hash, w')
  {
    forall user: UserId ensures |Slots(w', user)| <= |Slots(w, user)| {
      SlotsShrink(Slots(w', user), Slots(w, user));
    }
    WorldMoves(hash, w, w');
  }

  lemma HoldMoves(hash: UserId -> int, w: World, p: ProductId, buyer: UserId, w': World)
    requires Safe(hash, w) && Next(hash, w, Hold(p, buyer), w')
    ensures Safe(hash, w')
  {
    forall user: UserId ensures |Slots(w', user)| <= |Slots(w, user)| {
      SlotsShrink(Slots(w', user), Slots(w, user));
    }
    WorldMoves(hash, w, w');
  }

  lemma ReopenMoves(hash: UserId -> int, w: World, p: ProductId, deleted: bool, w': World)
    requires Safe(hash, w) && Next(hash, w, Reopen(p, deleted), w')
    ensures Safe(hash, w')
  {
    forall user: UserId ensures |Slots(w', user)| <= |Slots(w, user)| + 1 {
      SlotsShrink(Slots(w', user), Slots(w, user) + {p});
    }
    WorldMoves(hash, w, w');
  }

  /** A call that moves on by itself keeps the others' rights. */
  lemma CallMoves(hash: UserId -> int, w: World, i: nat, phase: Phase, w': World)
    requires Safe(hash, w) && i < |w.calls| && w' == InPhase(w, i, phase)
    requires HoldsProduct(w'.calls[i]) && !HoldsProduct(w.calls[i]) ==> ProductFree(w, w.calls[i].product)
    requires HoldsUser(w'.calls[i]) && !HoldsUser(w.calls[i]) ==> UserFree(hash, w, w.calls[i].user)
    requires RoomFor(w, w'.calls[i])
    ensures Safe(hash, w')
  {
    forall k: nat, l: nat ensures LocksApart(hash, w', k, l) {
      assert LocksApart(hash, w, k, l);
    }
    forall user: UserId ensures Slots(w', user) == Slots(w, user) && Within(w', user) {
      assert Within(w, user);
    }
    forall k | 0 <= k < |w'.calls| ensures RoomFor(w', w'.calls[k]) {
      assert Slots(w', w'.calls[k].user) == Slots(w, w'.calls[k].user);
      assert RoomFor(w, w.calls[k]);
    }
  }

  lemma ArriveMoves(hash: UserId -> int, w: World, user: UserId, p: ProductId, w': World)
    requires Safe(hash, w) && Next(hash, w, Arrive(user, p), w')
    ensures Safe(hash, w')
  {
    forall k: nat, l: nat ensures LocksApart(hash, w', k, l) {
      assert LocksApart(hash, w, k, l);
    }
    forall user: UserId ensures Slots(w', user) == Slots(w, user) && Within(w', user) {
      assert Within(w, user);
    }
    forall k | 0 <= k < |w'.calls| ensures RoomFor(w', w'.calls[k]) {
      assert Slots(w', w'.calls[k].user) == Slots(w, w'.calls[k].user);
      if k < |w.calls| {
        assert RoomFor(w, w.calls[k]);
      }
    }
  }

  /** A commit fills the slot its own call was promised: nobody else with a
      promise to the same user can exist, because of the advisory lock. */
  lemma CommitMoves(hash: UserId -> int, w: World, i: nat, w': World)
    requires Safe(hash, w) && Next(hash, w, Commit(i), w')
    ensures Safe(hash, w')
  {
    var c := w.calls[i];
    assert RoomFor(w, c);
    forall k: nat, l: nat ensures LocksApart(hash, w', k, l) {
      assert LocksApart(hash, w, k, l);
    }
    forall user: UserId
      ensures user != c.user || !c.phase.newSlot ==> Slots(w', user) == Slots(w, user)
      ensures Within(w', user)
    {
      assert Within(w, user);
      SlotsShrink(Slots(w', user), Slots(w, user) + {c.product});
    }
    forall k | 0 <= k < |w'.calls| ensures RoomFor(w', w'.calls[k]) {
      assert RoomFor(w, w.calls[k]);
      assert LocksApart(hash, w, i, k) && LocksApart(hash, w, k, i);
    }
  }

  lemma MoveIsSafe(hash: UserId -> int, w: World, m: Move, w': World)
    requires Safe(hash, w) && Next(hash, w, m, w')
    ensures Safe(hash, w')
  {
    hide Safe;
    match m
    case Arrive(user, p) => ArriveMoves(hash, w, user, p, w');
    case LockProduct(i) => CallMoves(hash, w, i, w'.calls[i].phase, w');
    case Examine(i) => CallMoves(hash, w, i, w'.calls[i].phase, w');
    case LockUser(i) => CallMoves(hash, w, i, w'.calls[i].phase, w');
    case Count(i) => CallMoves(hash, w, i, w'.calls[i].phase, w');
    case Commit(i) => CommitMoves(hash, w, i, w');
    case Abort(i) => CallMoves(hash, w, i, Finished, w');
    case List(p) => ListMoves(hash, w, p, w');
    case Close(p) => CloseMoves(hash, w, p, w');
    case Hold(p, buyer) => HoldMoves(hash, w, p, buyer, w');
    case Reopen(p, deleted) => ReopenMoves(hash, w, p, deleted, w');
  }

  // ---- Over a run

  ghost predicate Moves(hash: UserId -> int, ws: seq<World>, ms: seq<Move>, n: nat) {
    n < |ms| && n + 1 < |ws| && Next(hash, ws[n], ms[n], ws[n + 1])
  }

  /** A run from a marketplace where nobody has bid yet. */
  ghost predicate IsRun(hash: UserId -> int, ws: seq<World>, ms: seq<Move>) {
    && |ws| == |ms| + 1
    && ws[0].bids == {} && ws[0].calls == [] && ws[0].held == map[] && ws[0].reopened == 0
    && forall n :: 0 <= n < |ms| ==> Moves(hash, ws, ms, n)
  }

  lemma {:induction false} RunIsSafe(hash: UserId -> int, ws: seq<World>, ms: seq<Move>, n: nat)
    requires IsRun(hash, ws, ms) && n < |ws|
    ensures Safe(hash, ws[n])
  {
    if n == 0 {
      forall user: UserId ensures Within(ws[0], user) {
        assert Slots(ws[0], user) == {};
      }
    } else {
      RunIsSafe(hash, ws, ms, n - 1);
      assert Moves(hash, ws, ms, n - 1);
      MoveIsSafe(hash, ws[n - 1], ms[n - 1], ws[n]);
    }
  }

  /** However many calls interleave however they may, a user never has bids on
      more open lots than the limit plus the holds that were reopened; so with
      no Instant Buy hold, never on more than ten. */
  lemma SlotsWithinLimit(hash: UserId -> int, ws: seq<World>, ms: seq<Move>, user: UserId)
    requires IsRun(hash, ws, ms)
    ensures |Slots(ws[|ms|], user)| <= LIMIT + ws[|ms|].reopened
    ensures (forall n :: 0 <= n < |ms| ==> !ms[n].Reopen?) ==> |Slots(ws[|ms|], user)| <= LIMIT
  {
    RunIsSafe(hash, ws, ms, |ms|);
    assert Within(ws[|ms|], user);
    if forall n :: 0 <= n < |ms| ==> !ms[n].Reopen? {
      NeverReopened(hash, ws, ms, |ms|);
    }
  }

  lemma {:induction false} NeverReopened(hash: UserId -> int, ws: seq<World>, ms: seq<Move>, n: nat)
    requires IsRun(hash, ws, ms) && n < |ws| && forall k :: 0 <= k < n ==> !ms[k].Reopen?
    ensures ws[n].reopened == 0
  {
    if n > 0 {
      NeverReopened(hash, ws, ms, n - 1);
      assert Moves(hash, ws, ms, n - 1);
    }
  }

  // ---- Deadlock

  /** Call `i` waits for a lock that call `j` holds. */
  ghost predicate WaitsFor(hash: UserId -> int, w: World, i: nat, j: nat) {
    && i < |w.calls| && j < |w.calls| && i != j
    && var a, b := w.calls[i], w.calls[j];
       || (a.phase.WantsProduct? && HoldsProduct(b) && a.product == b.product)
       || (a.phase.WantsUser? && HoldsUser(b) && hash(a.user) == hash(b.user))
  }

  ghost predicate WaitPath(hash: UserId -> int, w: World, path: seq<nat>) {
    |path| > 1 && forall n :: 0 <= n < |path| - 1 ==> Edge(hash, w, path, n)
  }

  ghost predicate Edge(hash: UserId -> int, w: World, path: seq<nat>, n: nat) {
    n + 1 < |path| && WaitsFor(hash, w, path[n], path[n + 1])
  }

  function Rank(c: Call): nat {
    match c.phase
    case WantsProduct => 0
    case Examines => 1
    case WantsUser => 1
    case _ => 2
  }

  lemma {:induction false} RankRises(hash: UserId -> int, w: World, path: seq<nat>, n: nat)
    requires WaitPath(hash, w, path) && 0 < n < |path|
    ensures path[0] < |w.calls| && path[n] < |w.calls| && Rank(w.calls[path[0]]) < Rank(w.calls[path[n]])
  {
    assert Edge(hash, w, path, n - 1);
    if n > 1 {
      RankRises(hash, w, path, n - 1);
    }
  }

  /** Calls never wait in a circle, in any world at all: whoever holds a user's
      lock holds every lock it needs. */
  lemma NoWaitCycle(hash: UserId -> int, w: World, path: seq<nat>)
    requires WaitPath(hash, w, path)
    ensures path[0] != path[|path| - 1]
  {
    RankRises(hash, w, path, |path| - 1);
  }

  /** The move by which call `i` goes on. */
  predicate MoveOf(m: Move, i: nat) {
    match m
    case LockProduct(k) => k == i
    case Examine(k) => k == i
    case LockUser(k) => k == i
    case Count(k) => k == i
    case Commit(k) => k == i
    case _ => false
  }

  /** While a call is unfinished, some call can go on. */
  lemma SomebodyMoves(hash: UserId -> int, w: World, i: nat) returns (j: nat, m: Move, w': World)
    requires i < |w.calls| && !w.calls[i].phase.Finished?
    ensures MoveOf(m, j) && Next(hash, w, m, w')
    decreases 2 - Rank(w.calls[i])
  {
    if k :| WaitsFor(hash, w, i, k) {
      j, m, w' := SomebodyMoves(hash, w, k);
    } else {
      j := i;
      m, w' := Unhindered(hash, w, i);
    }
  }

  lemma Unhindered(hash: UserId -> int, w: World, i: nat) returns (m: Move, w': World)
    requires i < |w.calls| && !w.calls[i].phase.Finished? && forall k :: !WaitsFor(hash, w, i, k)
    ensures MoveOf(m, i) && Next(hash, w, m, w')
  {
    var c := w.calls[i];
    match c.phase
    case WantsProduct =>
      forall k | 0 <= k < |w.calls| && HoldsProduct(w.calls[k]) ensures w.calls[k].product != c.product {
        assert !WaitsFor(hash, w, i, k);
      }
      m, w' := LockProduct(i), InPhase(w, i, Examines);
    case Examines =>
      m := Examine(i);
      w' := InPhase(w, i, if c.product !in w.open then Finished
                          else if (c.user, c.product) in w.bids then MayBid(false)
                          else WantsUser);
    case WantsUser =>
      forall k | 0 <= k < |w.calls| && HoldsUser(w.calls[k]) ensures hash(w.calls[k].user) != hash(c.user) {
        assert !WaitsFor(hash, w, i, k);
      }
      m, w' := LockUser(i), InPhase(w, i, Counts);
    case Counts =>
      m, w' := Count(i), InPhase(w, i, if |Slots(w, c.user)| >= LIMIT then Finished else MayBid(true));
    case MayBid(_) =>
      m, w' := Commit(i), InPhase(w, i, Finished).(bids := w.bids + {(c.user, c.product)});
  }

  // ---- Exactly when the limit holds

  /** A call of this user's has been promised a slot. */
  ghost predicate Promised(w: World, user: UserId) {
    exists i :: 0 <= i < |w.calls| && w.calls[i].user == user && w.calls[i].phase == MayBid(true)
  }

  /** The user is within the limit, and still will be when the promise is kept. */
  ghost predicate HasRoom(w: World, user: UserId) {
    |Slots(w, user)| + (if Promised(w, user) then 1 else 0) <= LIMIT
  }

  ghost predicate LimitKept(w: World) {
    forall user: UserId :: HasRoom(w, user)
  }

  /** Everybody whose bid on the lot survives its reopening has a slot left for it. */
  ghost predicate RoomToReopen(w: World, p: ProductId, deleted: bool) {
    p in w.held && forall user: UserId :: BidSurvives(w, p, deleted, user) ==> RoomForOneMore(w, user)
  }

  predicate BidSurvives(w: World, p: ProductId, deleted: bool, user: UserId)
    requires p in w.held
  {
    (user, p) in w.bids && !(deleted && w.held[p] == (user, false))
  }

  ghost predicate RoomForOneMore(w: World, user: UserId) {
    |Slots(w, user)| + (if Promised(w, user) then 1 else 0) < LIMIT
  }

  /** The world as if no hold had ever been reopened. */
  function Recounted(w: World): World {
    w.(reopened := 0)
  }

  /** Keeping the limit is being safe without any allowance for reopenings. */
  lemma KeptIsSafe(hash: UserId -> int, w: World)
    requires Safe(hash, w)
    ensures LimitKept(w) <==> Safe(hash, Recounted(w))
  {
    var r := Recounted(w);
    assert forall user: UserId :: Slots(r, user) == Slots(w, user);
    forall i: nat, j: nat ensures LocksApart(hash, r, i, j) {
      assert LocksApart(hash, w, i, j);
    }
    if LimitKept(w) {
      forall i | 0 <= i < |r.calls| ensures RoomFor(r, r.calls[i]) {
        assert RoomFor(w, w.calls[i]) && HasRoom(w, w.calls[i].user);
      }
      forall user: UserId ensures Within(r, user) {
        assert HasRoom(w, user);
      }
    }
    if Safe(hash, r) {
      forall user: UserId ensures HasRoom(w, user) {
        assert Within(r, user);
        if Promised(w, user) {
          var i :| 0 <= i < |w.calls| && w.calls[i].user == user && w.calls[i].phase == MayBid(true);
          assert RoomFor(r, r.calls[i]);
        }
      }
    }
  }

  /** No other move ever breaks the limit. */
  lemma OthersKeepLimit(hash: UserId -> int, w: World, m: Move, w': World)
    requires Safe(hash, w) && Next(hash, w, m, w') && !m.Reopen? && LimitKept(w)
    ensures LimitKept(w')
  {
    hide Safe, LimitKept;
    KeptIsSafe(hash, w);
    MoveIsSafe(hash, w, m, w');
    RecountedMove(hash, w, m, w');
    MoveIsSafe(hash, Recounted(w), m, Recounted(w'));
    KeptIsSafe(hash, w');
  }

  lemma RecountedMove(hash: UserId -> int, w: World, m: Move, w': World)
    requires Next(hash, w, m, w') && !m.Reopen?
    ensures Next(hash, Recounted(w), m, Recounted(w'))
  {
    assert forall user: UserId :: Slots(Recounted(w), user) == Slots(w, user);
    assert forall p :: ProductFree(Recounted(w), p) <==> ProductFree(w, p);
    assert forall user: UserId :: UserFree(hash, Recounted(w), user) <==> UserFree(hash, w, user);
  }

  lemma ReopenedSlots(hash: UserId -> int, w: World, p: ProductId, deleted: bool, w': World, user: UserId)
    requires Next(hash, w, Reopen(p, deleted), w')
    ensures |Slots(w', user)| == |Slots(w, user)| + if BidSurvives(w, p, deleted, user) then 1 else 0
  {
    if BidSurvives(w, p, deleted, user) {
      assert Slots(w', user) == Slots(w, user) + {p};
    } else {
      assert Slots(w', user) == Slots(w, user);
    }
  }

  /** A reopening keeps the limit exactly if there is room for it. */
  lemma ReopeningKeepsLimitIff(hash: UserId -> int, w: World, p: ProductId, deleted: bool, w': World)
    requires Next(hash, w, Reopen(p, deleted), w') && LimitKept(w)
    ensures LimitKept(w') <==> RoomToReopen(w, p, deleted)
  {
    forall user: UserId
      ensures HasRoom(w', user) <==> (BidSurvives(w, p, deleted, user) ==> RoomForOneMore(w, user))
    {
      assert HasRoom(w, user);
      assert Promised(w', user) <==> Promised(w, user);
      ReopenedSlots(hash, w, p, deleted, w', user);
    }
  }

  ghost predicate ReopensWithRoom(ws: seq<World>, ms: seq<Move>, n: nat) {
    n < |ms| && n < |ws| && ms[n].Reopen? ==> RoomToReopen(ws[n], ms[n].product, ms[n].deleted)
  }

  lemma {:induction false} RoomKeepsLimit(hash: UserId -> int, ws: seq<World>, ms: seq<Move>, n: nat)
    requires IsRun(hash, ws, ms) && n < |ws| && forall k: nat :: k < n ==> ReopensWithRoom(ws, ms, k)
    ensures LimitKept(ws[n])
  {
    hide LimitKept;
    if n == 0 {
      StartKept(ws[0]);
    } else {
      RoomKeepsLimit(hash, ws, ms, n - 1);
      RunIsSafe(hash, ws, ms, n - 1);
      assert Moves(hash, ws, ms, n - 1) && ReopensWithRoom(ws, ms, n - 1);
      if ms[n - 1].Reopen? {
        ReopeningKeepsLimitIff(hash, ws[n - 1], ms[n - 1].product, ms[n - 1].deleted, ws[n]);
      } else {
        OthersKeepLimit(hash, ws[n - 1], ms[n - 1], ws[n]);
      }
    }
  }

  lemma StartKept(w: World)
    requires w.bids == {} && w.calls == []
    ensures LimitKept(w)
  {
    forall user: UserId ensures HasRoom(w, user) {
      assert Slots(w, user) == {};
    }
  }

  // A promise is a bid that only has to be committed: keeping the limit, promises
  // included, is the same as no commit being able to pass it.

  /** A call that was promised a slot found the lot open and no bid of the user's;
      its row lock keeps it so. */
  ghost predicate StillNew(w: World, c: Call) {
    c.phase.WantsUser? || c.phase.Counts? || c.phase == MayBid(true) ==>
      c.product in w.open && (c.user, c.product) !in w.bids
  }

  ghost predicate AllStillNew(w: World) {
    forall i :: 0 <= i < |w.calls| ==> StillNew(w, w.calls[i])
  }

  lemma StaysNew(hash: UserId -> int, w: World, m: Move, w': World)
    requires Safe(hash, w) && Next(hash, w, m, w') && AllStillNew(w)
    ensures AllStillNew(w')
  {
    forall k | 0 <= k < |w'.calls| ensures StillNew(w', w'.calls[k]) {
      if k < |w.calls| {
        assert StillNew(w, w.calls[k]);
        if m.Commit? && m.i != k {
          assert LocksApart(hash, w, m.i, k) && LocksApart(hash, w, k, m.i);
        }
      }
    }
  }

  lemma {:induction false} RunStaysNew(hash: UserId -> int, ws: seq<World>, ms: seq<Move>, n: nat)
    requires IsRun(hash, ws, ms) && n < |ws|
    ensures AllStillNew(ws[n])
  {
    if n > 0 {
      hide AllStillNew;
      RunStaysNew(hash, ws, ms, n - 1);
      RunIsSafe(hash, ws, ms, n - 1);
      assert Moves(hash, ws, ms, n - 1);
      StaysNew(hash, ws[n - 1], ms[n - 1], ws[n]);
    }
  }

  /** The user is within the limit now, and after any one commit. */
  ghost predicate CannotPass(hash: UserId -> int, w: World, user: UserId) {
    && |Slots(w, user)| <= LIMIT
    && forall i: nat, w': World :: Next(hash, w, Commit(i), w') ==> |Slots(w', user)| <= LIMIT
  }

  lemma RoomIsCannotPass(hash: UserId -> int, ws: seq<World>, ms: seq<Move>, n: nat, user: UserId)
    requires IsRun(hash, ws, ms) && n < |ws|
    ensures HasRoom(ws[n], user) <==> CannotPass(hash, ws[n], user)
  {
    RunIsSafe(hash, ws, ms, n);
    RunStaysNew(hash, ws, ms, n);
    var w := ws[n];
    if Promised(w, user) {
      var i :| 0 <= i < |w.calls| && w.calls[i].user == user && w.calls[i].phase == MayBid(true);
      assert StillNew(w, w.calls[i]);
      var w' := InPhase(w, i, Finished).(bids := w.bids + {(user, w.calls[i].product)});
      assert Next(hash, w, Commit(i), w');
      assert Slots(w', user) == Slots(w, user) + {w.calls[i].product};
    }
    forall i: nat, w': World | Next(hash, w, Commit(i), w')
      ensures |Slots(w', user)| <= |Slots(w, user)| + if Promised(w, user) then 1 else 0
    {
      CommitAdds(hash, w, i, w', user);
    }
  }

  lemma CommitAdds(hash: UserId -> int, w: World, i: nat, w': World, user: UserId)
    requires Safe(hash, w) && Next(hash, w, Commit(i), w')
    ensures |Slots(w', user)| <= |Slots(w, user)| + if Promised(w, user) then 1 else 0
  {
    var c := w.calls[i];
    assert RoomFor(w, c);
    if c.user == user && c.phase.newSlot {
      SlotsShrink(Slots(w', user), Slots(w, user) + {c.product});
    } else {
      assert Slots(w', user) == Slots(w, user);
    }
  }

  lemma LimitKeptIff(hash: UserId -> int, ws: seq<World>, ms: seq<Move>)
    requires IsRun(hash, ws, ms)
    ensures (forall n :: 0 <= n < |ws| ==> LimitKept(ws[n])) <==> (forall n: nat :: ReopensWithRoom(ws, ms, n))
  {
    hide LimitKept, RoomToReopen;
    if forall n: nat :: ReopensWithRoom(ws, ms, n) {
      forall n | 0 <= n < |ws| ensures LimitKept(ws[n]) {
        RoomKeepsLimit(hash, ws, ms, n);
      }
    }
    if forall n :: 0 <= n < |ws| ==> LimitKept(ws[n]) {
      forall n: nat ensures ReopensWithRoom(ws, ms, n) {
        if n < |ms| && ms[n].Reopen? {
          assert Moves(hash, ws, ms, n) && LimitKept(ws[n]) && LimitKept(ws[n + 1]);
          ReopeningKeepsLimitIff(hash, ws[n], ms[n].product, ms[n].deleted, ws[n + 1]);
        }
      }
    }
  }

  /** Over any run, no user ever passes ten open lots, nor could by any one
      commit, if and only if every hold that reopens finds room: a slot left for
      every bidder whose bid on the lot survives, beside the one promised. */
  lemma LimitHoldsIff(hash: UserId -> int, ws: seq<World>, ms: seq<Move>)
    requires IsRun(hash, ws, ms)
    ensures (forall n: nat, user: UserId :: n < |ws| ==> CannotPass(hash, ws[n], user)) <==>
            (forall n: nat :: ReopensWithRoom(ws, ms, n))
  {
    hide CannotPass, ReopensWithRoom, HasRoom, IsRun;
    LimitKeptIff(hash, ws, ms);
    forall n: nat, user: UserId | n < |ws| ensures HasRoom(ws[n], user) <==> CannotPass(hash, ws[n], user) {
      RoomIsCannotPass(hash, ws, ms, n, user);
    }
    if forall n: nat, user: UserId :: n < |ws| ==> CannotPass(hash, ws[n], user) {
      forall n | 0 <= n < |ws| ensures LimitKept(ws[n]) {
        forall user: UserId ensures HasRoom(ws[n], user) {
          assert CannotPass(hash, ws[n], user);
        }
      }
    }
  }

  // ---- The limit is passed by a hold that reopens

  ghost predicate Quiet(w: World) {
    forall i :: 0 <= i < |w.calls| ==> w.calls[i].phase.Finished?
  }

  lemma OneMoreMove(hash: UserId -> int, ws: seq<World>, ms: seq<Move>, m: Move, w': World)
    requires IsRun(hash, ws, ms) && Next(hash, ws[|ms|], m, w')
    ensures IsRun(hash, ws + [w'], ms + [m])
  {
    var ws', ms' := ws + [w'], ms + [m];
    forall n | 0 <= n < |ms'| ensures Moves(hash, ws', ms', n) {
      assert n < |ms| ==> Moves(hash, ws, ms, n);
    }
  }

  /** A call that meets nobody goes through, if the user has a slot left. */
  lemma BidAlone(hash: UserId -> int, ws: seq<World>, ms: seq<Move>, user: UserId, p: ProductId)
    returns (ws': seq<World>, ms': seq<Move>)
    requires IsRun(hash, ws, ms) && Quiet(ws[|ms|])
    requires p in ws[|ms|].open && (user, p) !in ws[|ms|].bids && |Slots(ws[|ms|], user)| < LIMIT
    ensures IsRun(hash, ws', ms')
    ensures var w, w' := ws[|ms|], ws'[|ms'|];
            w' == w.(bids := w.bids + {(user, p)}, calls := w.calls + [Call(user, p, Finished)])
    ensures Quiet(ws'[|ms'|])
  {
    var w := ws[|ms|];
    var i := |w.calls|;
    var w0 := w.(calls := w.calls + [Call(user, p, WantsProduct)]);
    var w1, w2, w3 := InPhase(w0, i, Examines), InPhase(w0, i, WantsUser), InPhase(w0, i, Counts);
    var w4 := InPhase(w0, i, MayBid(true));
    var w5 := InPhase(w0, i, Finished).(bids := w.bids + {(user, p)});
    assert Slots(w3, user) == Slots(w, user);
    OneMoreMove(hash, ws, ms, Arrive(user, p), w0);
    OneMoreMove(hash, ws + [w0], ms + [Arrive(user, p)], LockProduct(i), w1);
    ws', ms' := ws + [w0] + [w1], ms + [Arrive(user, p)] + [LockProduct(i)];
    OneMoreMove(hash, ws', ms', Examine(i), w2);
    ws', ms' := ws' + [w2], ms' + [Examine(i)];
    OneMoreMove(hash, ws', ms', LockUser(i), w3);
    ws', ms' := ws' + [w3], ms' + [LockUser(i)];
    OneMoreMove(hash, ws', ms', Count(i), w4);
    ws', ms' := ws' + [w4], ms' + [Count(i)];
    OneMoreMove(hash, ws', ms', Commit(i), w5);
    ws', ms' := ws' + [w5], ms' + [Commit(i)];
  }

  function Upto(n: nat): (s: set<ProductId>)
    ensures forall p :: p in s <==> 0 <= p < n
  {
    if n == 0 then {} else Upto(n - 1) + {n - 1}
  }

  lemma {:induction false} UptoSize(n: nat)
    ensures |Upto(n)| == n
  {
    if n > 0 {
      UptoSize(n - 1);
    }
  }

  /** Of lots 0 to `total - 1`, the user has bid on the first `n`; `k` holds have
      been reopened, and the lots from `k` to `i - 1` are on hold. */
  ghost predicate Arranged(w: World, user: UserId, buyer: UserId, total: nat, k: nat, i: nat, n: nat) {
    && k <= i <= n <= total && Quiet(w) && w.reopened == k
    && (forall p :: p in w.open <==> 0 <= p < total && !(k <= p < i))
    && (forall p :: p in w.held <==> k <= p < i)
    && (forall p :: p in w.held ==> w.held[p] == (buyer, false))
    && (forall p :: (user, p) in w.bids <==> 0 <= p < n)
    && (forall p :: i <= p ==> (buyer, p) !in w.bids)
  }

  lemma Apart(a: set<ProductId>, b: set<ProductId>, all: set<ProductId>)
    requires a !! b && all == a + b
    ensures |all| == |a| + |b|
  {
  }

  /** The user's slots are the first `n` lots but those on hold. */
  lemma ArrangedAre(w: World, user: UserId, buyer: UserId, total: nat, k: nat, i: nat, n: nat)
    requires Arranged(w, user, buyer, total, k, i, n)
    ensures k <= i && Upto(i) == Upto(k) + (Upto(i) - Upto(k))
    ensures Slots(w, user) !! (Upto(i) - Upto(k)) && Upto(n) == Slots(w, user) + (Upto(i) - Upto(k))
  {
    hide Upto;
  }

  lemma ArrangedSlots(w: World, user: UserId, buyer: UserId, total: nat, k: nat, i: nat, n: nat)
    requires Arranged(w, user, buyer, total, k, i, n)
    ensures |Slots(w, user)| == n - (i - k)
  {
    hide Upto, Slots, Arranged;
    var held := Upto(i) - Upto(k);
    ArrangedAre(w, user, buyer, total, k, i, n);
    Apart(Upto(k), held, Upto(i));
    Apart(Slots(w, user), held, Upto(n));
    UptoSize(n);
    UptoSize(i);
    UptoSize(k);
  }

  /** A user may fill the slots one lot after another. */
  lemma {:induction false} FillSlots(hash: UserId -> int, user: UserId, buyer: UserId, total: nat, n: nat)
    returns (ws: seq<World>, ms: seq<Move>)
    requires user != buyer && n <= LIMIT <= total
    ensures IsRun(hash, ws, ms) && Arranged(ws[|ms|], user, buyer, total, 0, 0, n)
  {
    hide Upto;
    if n == 0 {
      ws, ms := [World(Upto(total), map[], {}, [], 0)], [];
    } else {
      ws, ms := FillSlots(hash, user, buyer, total, n - 1);
      ArrangedSlots(ws[|ms|], user, buyer, total, 0, 0, n - 1);
      ws, ms := BidAlone(hash, ws, ms, user, n - 1);
    }
  }

  /** Lot `i` goes on hold, which frees a slot, and the user bids on another. */
  lemma HoldAndBid(hash: UserId -> int, ws: seq<World>, ms: seq<Move>, user: UserId, buyer: UserId, total: nat, i: nat)
    returns (ws': seq<World>, ms': seq<Move>)
    requires user != buyer && IsRun(hash, ws, ms) && LIMIT + i < total
    requires Arranged(ws[|ms|], user, buyer, total, 0, i, LIMIT + i)
    ensures IsRun(hash, ws', ms') && Arranged(ws'[|ms'|], user, buyer, total, 0, i + 1, LIMIT + i + 1)
  {
    var w := ws[|ms|];
    var held := w.(open := w.open - {i}, held := w.held[i := (buyer, false)], bids := w.bids + {(buyer, i)});
    OneMoreMove(hash, ws, ms, Hold(i, buyer), held);
    ArrangedSlots(held, user, buyer, total, 0, i + 1, LIMIT + i);
    ws', ms' := BidAlone(hash, ws + [held], ms + [Hold(i, buyer)], user, LIMIT + i);
  }

  lemma {:induction false} HoldMany(hash: UserId -> int, user: UserId, buyer: UserId, total: nat, i: nat)
    returns (ws: seq<World>, ms: seq<Move>)
    requires user != buyer && LIMIT + i <= total
    ensures IsRun(hash, ws, ms) && Arranged(ws[|ms|], user, buyer, total, 0, i, LIMIT + i)
  {
    hide Arranged;
    if i == 0 {
      ws, ms := FillSlots(hash, user, buyer, total, LIMIT);
    } else {
      ws, ms := HoldMany(hash, user, buyer, total, i - 1);
      ws, ms := HoldAndBid(hash, ws, ms, user, buyer, total, i - 1);
    }
  }

  lemma ReopenOne(hash: UserId -> int, ws: seq<World>, ms: seq<Move>, user: UserId, buyer: UserId, total: nat,
                  k: nat, i: nat, n: nat) returns (ws': seq<World>, ms': seq<Move>)
    requires IsRun(hash, ws, ms) && k < i && Arranged(ws[|ms|], user, buyer, total, k, i, n)
    ensures IsRun(hash, ws', ms') && Arranged(ws'[|ms'|], user, buyer, total, k + 1, i, n)
  {
    var w := ws[|ms|];
    var reopened := w.(open := w.open + {k}, held := w.held - {k}, reopened := k + 1);
    OneMoreMove(hash, ws, ms, Reopen(k, false), reopened);
    ws', ms' := ws + [reopened], ms + [Reopen(k, false)];
  }

  lemma {:induction false} ReopenMany(hash: UserId -> int, user: UserId, buyer: UserId, r: nat, k: nat)
    returns (ws: seq<World>, ms: seq<Move>)
    requires user != buyer && k <= r
    ensures IsRun(hash, ws, ms) && Arranged(ws[|ms|], user, buyer, LIMIT + r, k, r, LIMIT + r)
  {
    hide Arranged;
    if k == 0 {
      ws, ms := HoldMany(hash, user, buyer, LIMIT + r, r);
    } else {
      ws, ms := ReopenMany(hash, user, buyer, r, k - 1);
      ws, ms := ReopenOne(hash, ws, ms, user, buyer, LIMIT + r, k - 1, r, LIMIT + r);
    }
  }

  /** The allowance for reopenings is used up: for every number of them a run
      exists with that many and exactly so many lots beyond the limit. */
  lemma BoundIsAttained(hash: UserId -> int, user: UserId, buyer: UserId, r: nat)
    returns (ws: seq<World>, ms: seq<Move>)
    requires user != buyer
    ensures IsRun(hash, ws, ms) && ws[|ms|].reopened == r
    ensures |Slots(ws[|ms|], user)| == LIMIT + r
  {
    ws, ms := ReopenMany(hash, user, buyer, r, r);
    ArrangedSlots(ws[|ms|], user, buyer, LIMIT + r, r, r, LIMIT + r);
  }

  /** The least of them: with ten lots bid on, one goes on hold, the user bids on
      an eleventh, and the hold lapses. */
  lemma HoldBreaksLimit(hash: UserId -> int, user: UserId, buyer: UserId) returns (ws: seq<World>, ms: seq<Move>)
    requires user != buyer
    ensures IsRun(hash, ws, ms) && ws[|ms|].reopened == 1
    ensures |Slots(ws[|ms|], user)| == 11
  {
    ws, ms := BoundIsAttained(hash, user, buyer, 1);
  }
}
