/** Any number of relistProduct requests at once on one abandoned lot,
    interleaved statement by statement: each reads the lot, creates a copy,
    tries to claim the lot for it with a conditional update, and then either
    numbers its copy or deletes it. */
module RelistRace {
  import opened AuctionRows

  type CopyId = nat

  datatype Copy = Copy(deleted: bool, code: Option<nat>)

  /** How far a request has come. */
  datatype Phase =
    | Reads
    | Creates
    | Claims(copy: CopyId)
    | Discards(copy: CopyId)   // lost the claim
    | Numbers(copy: CopyId)    // won it
    | Relisted(copy: CopyId)
    | Refused

  /** `relisted` is the abandoned row's relistedProductId; `codes` counts the
      product codes drawn. */
  datatype World = World(
    relisted: Option<CopyId>,
    copies: map<CopyId, Copy>,
    nextCopy: CopyId,
    codes: nat,
    requests: seq<Phase>)

  datatype Move =
    | Arrive
    | Read(i: nat)
    | Reject(i: nat)           // the seller may no longer sell
    | Create(i: nat)
    | Claim(i: nat)
    | Discard(i: nat)
    | Number(i: nat)

  function To(w: World, i: nat, phase: Phase): World
    requires i < |w.requests|
  {
    w.(requests := w.requests[i := phase])
  }

  ghost predicate Next(w: World, m: Move, w': World) {
    match m
    case Arrive => w' == w.(requests := w.requests + [Reads])
    case Read(i) =>
      && i < |w.requests| && w.requests[i] == Reads
      && w' == To(w, i, if w.relisted.Some? then Refused else Creates)
    case Reject(i) =>
      && i < |w.requests| && w.requests[i] == Creates && w' == To(w, i, Refused)
    case Create(i) =>
      && i < |w.requests| && w.requests[i] == Creates
      && w' == To(w, i, Claims(w.nextCopy)).(
           copies := w.copies[w.nextCopy := Copy(false, None)], nextCopy := w.nextCopy + 1)
    case Claim(i) =>
      && i < |w.requests| && w.requests[i].Claims?
      && var copy := w.requests[i].copy;
         w' == if w.relisted.None? then To(w, i, Numbers(copy)).(relisted := Some(copy)) else To(w, i, Discards(copy))
    case Discard(i) =>
      && i < |w.requests| && w.requests[i].Discards? && w.requests[i].copy in w.copies
      && var copy := w.requests[i].copy;
         w' == To(w, i, Refused).(copies := w.copies[copy := w.copies[copy].(deleted := true)])
    case Number(i) =>
      && i < |w.requests| && w.requests[i].Numbers? && w.requests[i].copy in w.copies
      && var copy := w.requests[i].copy;
         w' == To(w, i, Relisted(copy)).(
           copies := w.copies[copy := w.copies[copy].(code := Some(w.codes))], codes := w.codes + 1)
  }

  // ---- The invariant

  function CopyOf(p: Phase): Option<CopyId> {
    match p
    case Claims(c) => Some(c)
    case Discards(c) => Some(c)
    case Numbers(c) => Some(c)
    case Relisted(c) => Some(c)
    case _ => None
  }

  /** The request and the state of its copy agree. */
  ghost predicate RequestOk(w: World, p: Phase) {
    match p
    case Claims(c) => c in w.copies && w.copies[c] == Copy(false, None) && w.relisted != Some(c)
    case Discards(c) => c in w.copies && w.copies[c] == Copy(false, None) && w.relisted.Some? && w.relisted != Some(c)
    case Numbers(c) => c in w.copies && w.copies[c] == Copy(false, None) && w.relisted == Some(c) && w.codes == 0
    case Relisted(c) => c in w.copies && w.copies[c] == Copy(false, Some(0)) && w.relisted == Some(c) && w.codes == 1
    case _ => true
  }

  ghost predicate OwnCopies(w: World, i: nat, j: nat) {
    i < j < |w.requests| && CopyOf(w.requests[i]).Some? ==> CopyOf(w.requests[i]) != CopyOf(w.requests[j])
  }

  ghost predicate Owned(w: World, c: CopyId) {
    exists i :: 0 <= i < |w.requests| && CopyOf(w.requests[i]) == Some(c)
  }

  /** A copy in the shop belongs to a request; a deleted one lost to another. */
  ghost predicate CopyOk(w: World, c: CopyId) {
    c in w.copies ==>
      && c < w.nextCopy
      && if w.copies[c].deleted then w.copies[c].code == None && w.relisted.Some? && w.relisted != Some(c)
         else Owned(w, c)
  }

  ghost predicate Consistent(w: World) {
    && (forall i :: 0 <= i < |w.requests| ==> RequestOk(w, w.requests[i]))
    && (forall i: nat, j: nat :: OwnCopies(w, i, j))
    && (forall c: CopyId :: CopyOk(w, c))
    && (w.relisted.None? ==> w.codes == 0)
    && (w.relisted.Some? ==> w.relisted.value in w.copies && !w.copies[w.relisted.value].deleted)
  }

  /** Replacing one request's phase keeps its copy its own. */
  lemma PhaseMoves(w: World, i: nat, w': World)
    requires Consistent(w) && i < |w.requests| && |w'.requests| == |w.requests|
    requires w'.requests == w.requests[i := w'.requests[i]]
    requires CopyOf(w'.requests[i]) == CopyOf(w.requests[i]) || CopyOf(w'.requests[i]).None?
             || (CopyOf(w'.requests[i]) == Some(w.nextCopy))
    ensures forall k: nat, l: nat :: OwnCopies(w', k, l)
  {
    forall k: nat, l: nat ensures OwnCopies(w', k, l) {
      assert OwnCopies(w, k, l);
      if k < |w.requests| && l < |w.requests| {
        assert RequestOk(w, w.requests[k]) && RequestOk(w, w.requests[l]);
        if CopyOf(w.requests[k]).Some? { assert CopyOk(w, CopyOf(w.requests[k]).value); }
        if CopyOf(w.requests[l]).Some? { assert CopyOk(w, CopyOf(w.requests[l]).value); }
      }
    }
  }

  lemma StillOwned(w: World, i: nat, w': World, c: CopyId)
    requires i < |w.requests| == |w'.requests| && w'.requests == w.requests[i := w'.requests[i]]
    requires Owned(w, c) && (CopyOf(w.requests[i]) == Some(c) ==> CopyOf(w'.requests[i]) == Some(c))
    ensures Owned(w', c)
  {
    var k :| 0 <= k < |w.requests| && CopyOf(w.requests[k]) == Some(c);
    assert CopyOf(w'.requests[k]) == Some(c);
  }

  lemma ArriveKeeps(w: World, w': World)
    requires Consistent(w) && Next(w, Arrive, w')
    ensures Consistent(w')
  {
    forall i | 0 <= i < |w'.requests| ensures RequestOk(w', w'.requests[i]) {
      if i < |w.requests| {
        assert RequestOk(w, w.requests[i]);
      }
    }
    forall k: nat, l: nat ensures OwnCopies(w', k, l) {
      assert OwnCopies(w, k, l);
    }
    forall c: CopyId ensures CopyOk(w', c) {
      assert CopyOk(w, c);
      if Owned(w, c) {
        var k :| 0 <= k < |w.requests| && CopyOf(w.requests[k]) == Some(c);
        assert CopyOf(w'.requests[k]) == Some(c);
      }
    }
  }

  /** Reading, and being refused before a copy exists, change nothing else. */
  lemma EarlyKeeps(w: World, i: nat, phase: Phase, w': World)
    requires Consistent(w) && i < |w.requests| && (w.requests[i] == Reads || w.requests[i] == Creates)
    requires (phase == Creates || phase == Refused) && w' == To(w, i, phase)
    ensures Consistent(w')
  {
    PhaseMoves(w, i, w');
    forall k | 0 <= k < |w'.requests| ensures RequestOk(w', w'.requests[k]) {
      assert RequestOk(w, w.requests[k]);
    }
    forall c: CopyId ensures CopyOk(w', c) {
      assert CopyOk(w, c);
      if Owned(w, c) {
        StillOwned(w, i, w', c);
      }
    }
  }

  lemma CreateKeeps(w: World, i: nat, w': World)
    requires Consistent(w) && Next(w, Create(i), w')
    ensures Consistent(w')
  {
    PhaseMoves(w, i, w');
    assert CopyOk(w, w.nextCopy);
    forall k | 0 <= k < |w'.requests| ensures RequestOk(w', w'.requests[k]) {
      assert RequestOk(w, w.requests[k]);
      if w.relisted.Some? {
        assert CopyOk(w, w.relisted.value);
      }
    }
    forall c: CopyId ensures CopyOk(w', c) {
      assert CopyOk(w, c);
      if c == w.nextCopy {
        assert CopyOf(w'.requests[i]) == Some(c);
      } else if Owned(w, c) {
        StillOwned(w, i, w', c);
      }
    }
  }

  /** The conditional update lets exactly one request through. */
  lemma ClaimKeeps(w: World, i: nat, w': World)
    requires Consistent(w) && Next(w, Claim(i), w')
    ensures Consistent(w')
  {
    PhaseMoves(w, i, w');
    forall k | 0 <= k < |w'.requests| ensures RequestOk(w', w'.requests[k]) {
      assert RequestOk(w, w.requests[k]) && RequestOk(w, w.requests[i]);
      assert OwnCopies(w, k, i) && OwnCopies(w, i, k);
    }
    forall c: CopyId ensures CopyOk(w', c) {
      assert CopyOk(w, c) && RequestOk(w, w.requests[i]);
      if Owned(w, c) {
        StillOwned(w, i, w', c);
      }
    }
    assert RequestOk(w, w.requests[i]);
  }

  /** Deleting and numbering touch no other request's copy. */
  lemma OtherCopies(w: World, i: nat, k: nat, c: CopyId)
    requires Consistent(w) && i < |w.requests| && k < |w.requests| && i != k && CopyOf(w.requests[i]) == Some(c)
    ensures CopyOf(w.requests[k]) != Some(c)
  {
    assert OwnCopies(w, k, i) && OwnCopies(w, i, k);
  }

  lemma DiscardKeeps(w: World, i: nat, w': World)
    requires Consistent(w) && Next(w, Discard(i), w')
    ensures Consistent(w')
  {
    PhaseMoves(w, i, w');
    assert RequestOk(w, w.requests[i]);
    forall k | 0 <= k < |w'.requests| ensures RequestOk(w', w'.requests[k]) {
      assert RequestOk(w, w.requests[k]);
      if k != i {
        OtherCopies(w, i, k, w.requests[i].copy);
      }
    }
    forall c: CopyId ensures CopyOk(w', c) {
      assert CopyOk(w, c);
      if c != w.requests[i].copy && Owned(w, c) {
        StillOwned(w, i, w', c);
      }
    }
  }

  lemma NumberKeeps(w: World, i: nat, w': World)
    requires Consistent(w) && Next(w, Number(i), w')
    ensures Consistent(w')
  {
    PhaseMoves(w, i, w');
    assert RequestOk(w, w.requests[i]);
    forall k | 0 <= k < |w'.requests| ensures RequestOk(w', w'.requests[k]) {
      assert RequestOk(w, w.requests[k]);
      if k != i {
        OtherCopies(w, i, k, w.requests[i].copy);
      }
    }
    forall c: CopyId ensures CopyOk(w', c) {
      assert CopyOk(w, c);
      if Owned(w, c) {
        StillOwned(w, i, w', c);
      }
    }
  }

  lemma MoveKeeps(w: World, m: Move, w': World)
    requires Consistent(w) && Next(w, m, w')
    ensures Consistent(w')
  {
    hide Consistent;
    match m
    case Arrive => ArriveKeeps(w, w');
    case Read(i) => EarlyKeeps(w, i, w'.requests[i], w');
    case Reject(i) => EarlyKeeps(w, i, Refused, w');
    case Create(i) => CreateKeeps(w, i, w');
    case Claim(i) => ClaimKeeps(w, i, w');
    case Discard(i) => DiscardKeeps(w, i, w');
    case Number(i) => NumberKeeps(w, i, w');
  }

  // ---- Over a run

  ghost predicate Moves(ws: seq<World>, ms: seq<Move>, n: nat) {
    n < |ms| && n + 1 < |ws| && Next(ws[n], ms[n], ws[n + 1])
  }

  /** A run from the abandoned lot, not relisted yet. */
  ghost predicate IsRun(ws: seq<World>, ms: seq<Move>) {
    && |ws| == |ms| + 1 && ws[0] == World(None, map[], 0, 0, [])
    && forall n :: 0 <= n < |ms| ==> Moves(ws, ms, n)
  }

  lemma {:induction false} RunIsConsistent(ws: seq<World>, ms: seq<Move>, n: nat)
    requires IsRun(ws, ms) && n < |ws|
    ensures Consistent(ws[n])
  {
    if n > 0 {
      RunIsConsistent(ws, ms, n - 1);
      assert Moves(ws, ms, n - 1);
      MoveKeeps(ws[n - 1], ms[n - 1], ws[n]);
    }
  }

  /** A request that finds the lot relisted already never makes a copy. */
  ghost predicate ComesLate(w: World, i: nat) {
    w.relisted.Some? && i < |w.requests| && (w.requests[i] == Reads || w.requests[i] == Refused)
  }

  lemma {:induction false} LateRequestsRefused(ws: seq<World>, ms: seq<Move>, i: nat, m: nat, n: nat)
    requires IsRun(ws, ms) && m <= n < |ws| && ComesLate(ws[m], i)
    ensures ComesLate(ws[n], i)
  {
    if m < n {
      LateRequestsRefused(ws, ms, i, m, n - 1);
      assert Moves(ws, ms, n - 1);
    }
  }

  ghost predicate AllFinished(w: World) {
    forall i :: 0 <= i < |w.requests| ==> w.requests[i].Relisted? || w.requests[i].Refused?
  }

  /** When all requests are through, the copies left in the shop are the one the
      abandoned lot points at and no other; there is one if any was made, and it
      alone has a product code. */
  lemma OneCopyRemains(ws: seq<World>, ms: seq<Move>, c: CopyId)
    requires IsRun(ws, ms) && AllFinished(ws[|ms|])
    ensures var w := ws[|ms|];
            && (c in w.copies && !w.copies[c].deleted <==> w.relisted == Some(c))
            && (c in w.copies && w.copies[c].code.Some? <==> w.relisted == Some(c))
            && (w.copies != map[] <==> w.relisted.Some?)
            && w.codes == if w.relisted.Some? then 1 else 0
  {
    var w := ws[|ms|];
    RunIsConsistent(ws, ms, |ms|);
    if c in w.copies {
      CopyIsRelisted(w, c);
    }
    if w.relisted.Some? {
      CopyIsRelisted(w, w.relisted.value);
    }
    if w.copies != map[] {
      var d :| d in w.copies;
      CopyIsRelisted(w, d);
    }
  }

  lemma CopyIsRelisted(w: World, c: CopyId)
    requires Consistent(w) && AllFinished(w) && c in w.copies
    ensures w.relisted.Some? && (!w.copies[c].deleted <==> w.relisted == Some(c))
    ensures w.copies[c].code.Some? <==> w.relisted == Some(c)
    ensures w.relisted == Some(c) ==> w.codes == 1
  {
    assert CopyOk(w, c);
    if !w.copies[c].deleted {
      var i :| 0 <= i < |w.requests| && CopyOf(w.requests[i]) == Some(c);
      assert RequestOk(w, w.requests[i]);
    }
  }
}
