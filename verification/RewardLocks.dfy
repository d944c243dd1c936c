/** Any number of markSellerPaid and adjustPoints transactions at once, as far as
    their locks on balance rows go.

    A row that does not exist yet is inserted instead of locked; the unique
    index makes a second inserter wait for the first just as a lock would, and
    fail if the first commits.  Both count here as holding the user's row.
 */
module RewardLocks {
  import opened AuctionRows

  datatype Request = PayOut(buyer: UserId, seller: UserId) | Adjust(user: UserId)

  /** The rows a request takes, in the order it takes them. */
  function Wants(r: Request): (users: seq<UserId>)
    ensures |users| > 0
    ensures forall i, j :: 0 <= i < j < |users| ==> users[i] < users[j]
    ensures r.PayOut? ==> r.buyer in users && r.seller in users
  {
    match r
    case PayOut(buyer, seller) =>
      if buyer == seller then [buyer] else if buyer < seller then [buyer, seller] else [seller, buyer]
    case Adjust(user) => [user]
  }

  /** A transaction that has taken the first `taken` of its rows. */
  datatype Call = Call(request: Request, taken: nat, finished: bool)

  predicate Holds(c: Call, user: UserId) {
    !c.finished && exists n :: 0 <= n < c.taken && n < |Wants(c.request)| && Wants(c.request)[n] == user
  }

  predicate Waiting(c: Call) {
    !c.finished && c.taken < |Wants(c.request)|
  }

  function Awaits(c: Call): UserId
    requires Waiting(c)
  {
    Wants(c.request)[c.taken]
  }

  ghost predicate Free(calls: seq<Call>, user: UserId) {
    forall i :: 0 <= i < |calls| ==> !Holds(calls[i], user)
  }

  datatype Move = Start(request: Request) | Take(i: nat) | Commit(i: nat) | Abort(i: nat)

  ghost predicate Next(calls: seq<Call>, m: Move, calls': seq<Call>) {
    match m
    case Start(request) => calls' == calls + [Call(request, 0, false)]
    case Take(i) =>
      && i < |calls| && Waiting(calls[i]) && Free(calls, Awaits(calls[i]))
      && calls' == calls[i := calls[i].(taken := calls[i].taken + 1)]
    case Commit(i) =>
      && i < |calls| && !calls[i].finished && calls[i].taken == |Wants(calls[i].request)|
      && calls' == calls[i := calls[i].(finished := true)]
    case Abort(i) =>
      i < |calls| && calls' == calls[i := calls[i].(finished := true)]
  }

  // ---- Exclusion

  ghost predicate Apart(calls: seq<Call>, i: nat, j: nat, user: UserId) {
    i < j < |calls| ==> !(Holds(calls[i], user) && Holds(calls[j], user))
  }

  ghost predicate Exclusive(calls: seq<Call>) {
    && (forall i :: 0 <= i < |calls| ==> calls[i].taken <= |Wants(calls[i].request)|)
    && (forall i: nat, j: nat, user: UserId :: Apart(calls, i, j, user))
  }

  lemma StaysExclusive(calls: seq<Call>, m: Move, calls': seq<Call>)
    requires Exclusive(calls) && Next(calls, m, calls')
    ensures Exclusive(calls')
  {
    forall i: nat, j: nat, user: UserId ensures Apart(calls', i, j, user) {
      assert Apart(calls, i, j, user);
      if m.Take? && (m.i == i || m.i == j) && m.i < |calls| {
        TakesOne(calls[m.i], user);
      }
    }
  }

  /** One more row taken is the row that was awaited. */
  lemma TakesOne(c: Call, user: UserId)
    requires Waiting(c)
    ensures Holds(c.(taken := c.taken + 1), user) <==> Holds(c, user) || user == Awaits(c)
  {
    var c' := c.(taken := c.taken + 1);
    if user == Awaits(c) {
      assert Wants(c'.request)[c.taken] == user;
    }
    if Holds(c, user) {
      var n :| 0 <= n < c.taken && n < |Wants(c.request)| && Wants(c.request)[n] == user;
      assert Wants(c'.request)[n] == user;
    }
  }

  // ---- Over a run

  ghost predicate Moves(states: seq<seq<Call>>, ms: seq<Move>, n: nat) {
    n < |ms| && n + 1 < |states| && Next(states[n], ms[n], states[n + 1])
  }

  /** A run from a time when no call is under way. */
  ghost predicate IsRun(states: seq<seq<Call>>, ms: seq<Move>) {
    |states| == |ms| + 1 && states[0] == [] && forall n :: 0 <= n < |ms| ==> Moves(states, ms, n)
  }

  /** However calls start, take rows, commit and abort, no two that are under way
      ever hold the row of one user. */
  lemma {:induction false} RunIsExclusive(states: seq<seq<Call>>, ms: seq<Move>, n: nat)
    requires IsRun(states, ms) && n < |states|
    ensures Exclusive(states[n])
  {
    if n > 0 {
      RunIsExclusive(states, ms, n - 1);
      assert Moves(states, ms, n - 1);
      StaysExclusive(states[n - 1], ms[n - 1], states[n]);
    }
  }

  /** So in every run, while a call is unfinished, some call can take its next
      row or commit. */
  lemma RunNeverStuck(states: seq<seq<Call>>, ms: seq<Move>, i: nat) returns (j: nat, m: Move, next: seq<Call>)
    requires IsRun(states, ms) && i < |states[|ms|]| && !states[|ms|][i].finished
    ensures MoveOf(m, j) && IsRun(states + [next], ms + [m])
  {
    RunIsExclusive(states, ms, |ms|);
    j, m, next := SomebodyMoves(states[|ms|], i);
    var states', ms' := states + [next], ms + [m];
    forall n | 0 <= n < |ms'| ensures Moves(states', ms', n) {
      assert n < |ms| ==> Moves(states, ms, n);
    }
  }

  // ---- No circle of waiting calls

  ghost predicate WaitsFor(calls: seq<Call>, i: nat, j: nat) {
    i < |calls| && j < |calls| && i != j && Waiting(calls[i]) && Holds(calls[j], Awaits(calls[i]))
  }

  /** Whoever holds an awaited row awaits a later one, if any. */
  lemma AwaitsLater(calls: seq<Call>, i: nat, j: nat)
    requires WaitsFor(calls, i, j) && Waiting(calls[j])
    ensures Awaits(calls[i]) < Awaits(calls[j])
  {
  }

  ghost predicate Edge(calls: seq<Call>, path: seq<nat>, n: nat) {
    n + 1 < |path| && WaitsFor(calls, path[n], path[n + 1])
  }

  ghost predicate WaitPath(calls: seq<Call>, path: seq<nat>) {
    |path| > 1 && forall n :: 0 <= n < |path| - 1 ==> Edge(calls, path, n)
  }

  lemma {:induction false} AwaitedRises(calls: seq<Call>, path: seq<nat>, n: nat)
    requires WaitPath(calls, path) && 0 < n < |path| && path[n] < |calls| && Waiting(calls[path[n]])
    ensures path[0] < |calls| && Waiting(calls[path[0]])
    ensures Awaits(calls[path[0]]) < Awaits(calls[path[n]])
  {
    assert Edge(calls, path, n - 1);
    AwaitsLater(calls, path[n - 1], path[n]);
    if n > 1 {
      AwaitedRises(calls, path, n - 1);
    }
  }

  /** Calls never wait in a circle, not even where buyer and seller of one sale
      are seller and buyer of another. */
  lemma NoWaitCycle(calls: seq<Call>, path: seq<nat>)
    requires WaitPath(calls, path)
    ensures path[0] != path[|path| - 1]
  {
    assert Edge(calls, path, 0);
    if path[0] == path[|path| - 1] {
      AwaitedRises(calls, path, |path| - 1);
    }
  }

  // ---- Somebody can always go on

  ghost function AwaitedAbove(calls: seq<Call>, user: UserId): set<UserId> {
    set i | 0 <= i < |calls| && Waiting(calls[i]) && user < Awaits(calls[i]) :: Awaits(calls[i])
  }

  predicate MoveOf(m: Move, i: nat) {
    (m.Take? && m.i == i) || (m.Commit? && m.i == i)
  }

  /** While a call is unfinished, some call can take its next row or commit. */
  lemma SomebodyMoves(calls: seq<Call>, i: nat) returns (j: nat, m: Move, calls': seq<Call>)
    requires Exclusive(calls) && i < |calls| && !calls[i].finished
    ensures MoveOf(m, j) && Next(calls, m, calls')
    decreases if Waiting(calls[i]) then 1 + |AwaitedAbove(calls, Awaits(calls[i]))| else 0
  {
    if !Waiting(calls[i]) {
      j, m, calls' := i, Commit(i), calls[i := calls[i].(finished := true)];
    } else if k :| 0 <= k < |calls| && Holds(calls[k], Awaits(calls[i])) {
      NotOwnRow(calls[i]);
      if Waiting(calls[k]) {
        AwaitsLater(calls, i, k);
        FewerAbove(calls, i, k);
      }
      j, m, calls' := SomebodyMoves(calls, k);
    } else {
      j, m, calls' := i, Take(i), calls[i := calls[i].(taken := calls[i].taken + 1)];
    }
  }

  lemma NotOwnRow(c: Call)
    requires Waiting(c)
    ensures !Holds(c, Awaits(c))
  {
  }

  lemma FewerAbove(calls: seq<Call>, i: nat, k: nat)
    requires i < |calls| && k < |calls| && Waiting(calls[i]) && Waiting(calls[k])
    requires Awaits(calls[i]) < Awaits(calls[k])
    ensures |AwaitedAbove(calls, Awaits(calls[k]))| < |AwaitedAbove(calls, Awaits(calls[i]))|
  {
    var low, high := AwaitedAbove(calls, Awaits(calls[i])), AwaitedAbove(calls, Awaits(calls[k]));
    assert Awaits(calls[k]) in low && Awaits(calls[k]) !in high;
    ProperSubset(high, low);
  }

  lemma ProperSubset(s: set<UserId>, t: set<UserId>)
    requires s < t
    ensures |s| < |t|
  {
    assert t == s + (t - s);
  }
}
