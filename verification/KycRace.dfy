/** Any number of submissions and reviews of one account's KYC record at once,
    interleaved statement by statement. Neither takes a lock: each loads the
    record, works on that copy and saves all of it back, whatever happened to the
    record in between. So a save can bring back a file that is gone. */
module KycRace {
  import opened AuctionRows
  import opened KycFiles

  datatype Form = Form(document: Document, documentId: string, uploaded: set<Slot>)

  /** How far a request has come. */
  datatype Request =
    | Reads(form: Form)
    | Writes(form: Form, existing: Option<Record>, todo: seq<Slot>, resolved: map<Slot, Path>)
    | Deletes(pending: set<Path>)   // in any order
    | Judges(read: Record)          // a review
    | Finished

  datatype World = World(record: Option<Record>, files: set<Path>, nextPath: Path, requests: seq<Request>)

  datatype Move =
    | Submit(form: Form)
    | Open                           // an admin loads the record to review it
    | Read(i: nat)
    | TurnAway(i: nat)               // refused for the applicant's account or document
    | Write(i: nat)
    | FailWrite(i: nat)
    | Save(i: nat)
    | FailSave(i: nat)
    | Delete(i: nat, path: Path)
    | KeepFile(i: nat, path: Path)   // the file cannot be deleted
    | Judge(i: nat, verdict: KycStatus)
    | FailJudge(i: nat)

  function PathsOf(r: Option<Record>): map<Slot, Path> {
    if r.Some? then r.value.paths else map[]
  }

  /** What the request has written itself. */
  function New(q: Request): set<Path>
    requires q.Writes?
  {
    set s | s in q.resolved && s in q.form.uploaded :: q.resolved[s]
  }

  /** What a submission does next, once it has loaded the record. */
  function Loaded(record: Option<Record>, form: Form): Request {
    var required, retained := RequiredSlots(form.document), Retained(record, form.document);
    if record.Some? && record.value.status != Rejected then Finished
    else if Missing(required, form.uploaded, retained) != [] then Finished
    else Writes(form, record, Uploads(required, form.uploaded), Kept(required, form.uploaded, retained))
  }

  /** The next upload is stored. */
  function Stored(q: Request, path: Path): Request
    requires q.Writes? && q.todo != []
  {
    q.(todo := q.todo[1..], resolved := q.resolved[q.todo[0] := path])
  }

  /** The files the new record leaves behind. */
  function Left(q: Request): set<Path>
    requires q.Writes?
  {
    set p | p in Superseded(COLUMNS, PathsOf(q.existing), q.resolved)
  }

  function To(w: World, i: nat, q: Request): World
    requires i < |w.requests|
  {
    w.(requests := w.requests[i := q])
  }

  function Saved(q: Request): Record
    requires q.Writes?
  {
    Record(q.form.document, q.form.documentId, q.resolved, UnderReview)
  }

  ghost predicate Next(w: World, m: Move, w': World) {
    match m
    case Submit(form) => w' == w.(requests := w.requests + [Reads(form)])
    case Open => w.record.Some? && w' == w.(requests := w.requests + [Judges(w.record.value)])
    case Read(i) => At(w, i).Reads? && w' == To(w, i, Loaded(w.record, At(w, i).form))
    case TurnAway(i) => At(w, i).Reads? && w' == To(w, i, Finished)
    case Write(i) =>
      && At(w, i).Writes? && At(w, i).todo != []
      && w' == To(w, i, Stored(At(w, i), w.nextPath)).(files := w.files + {w.nextPath}, nextPath := w.nextPath + 1)
    case FailWrite(i) => At(w, i).Writes? && At(w, i).todo != [] && w' == To(w, i, Deletes(New(At(w, i))))
    case Save(i) =>
      && At(w, i).Writes? && At(w, i).todo == []
      && (At(w, i).existing.None? ==> w.record.None?)   // one record an account
      && w' == To(w, i, Deletes(Left(At(w, i)))).(record := Some(Saved(At(w, i))))
    case FailSave(i) => At(w, i).Writes? && At(w, i).todo == [] && w' == To(w, i, Finished)
    case Delete(i, p) =>
      && Pending(At(w, i), p)
      && w' == To(w, i, Deletes(At(w, i).pending - {p})).(files := w.files - {p})
    case KeepFile(i, p) => Pending(At(w, i), p) && w' == To(w, i, Deletes(At(w, i).pending - {p}))
    case Judge(i, verdict) =>
      && At(w, i).Judges? && verdict != UnderReview
      && w' == To(w, i, Finished).(record := Some(At(w, i).read.(status := verdict)))
    case FailJudge(i) => At(w, i).Judges? && w' == To(w, i, Finished)
  }

  /** A request that is not there has nothing to do. */
  function At(w: World, i: nat): (q: Request)
    ensures !q.Finished? ==> i < |w.requests|
  {
    if i < |w.requests| then w.requests[i] else Finished
  }

  // ---- Files that are gone or about to go

  predicate Pending(q: Request, p: Path) {
    q.Deletes? && p in q.pending
  }

  ghost predicate Doomed(w: World, p: Path) {
    p !in w.files || exists i: nat :: Pending(At(w, i), p)
  }

  ghost predicate InRecord(w: World, p: Path) {
    w.record.Some? && Names(w.record.value, p)
  }

  /** The record names no file that is gone or that a request is about to delete. */
  ghost predicate Sound(w: World) {
    forall p :: InRecord(w, p) ==> !Doomed(w, p)
  }

  ghost predicate Dangles(w: World) {
    exists p :: InRecord(w, p) && p !in w.files
  }

  /** Being sound is naming no missing file, now and after any one deletion. */
  lemma SoundMeans(w: World)
    ensures Sound(w) <==> !Dangles(w) && forall i, p, w' :: Next(w, Delete(i, p), w') ==> !Dangles(w')
  {
    if Sound(w) {
      forall i, p, w' | Next(w, Delete(i, p), w') ensures !Dangles(w') {
        forall q | InRecord(w', q) ensures q in w'.files {
          assert InRecord(w, q) && !Doomed(w, q) && Pending(At(w, i), p);
        }
      }
    } else {
      var p :| InRecord(w, p) && Doomed(w, p);
      if p in w.files {
        var i: nat :| Pending(At(w, i), p);
        var w' := To(w, i, Deletes(At(w, i).pending - {p})).(files := w.files - {p});
        assert Next(w, Delete(i, p), w') && InRecord(w', p) && p !in w'.files;
        assert Dangles(w');
      }
    }
  }

  // ---- The guard

  /** The file is one the request takes over from the record it loaded. */
  ghost predicate Carried(q: Request, p: Path) {
    match q
    case Writes(form, _, _, resolved) => exists s :: s in resolved && s !in form.uploaded && resolved[s] == p
    case Judges(read) => Names(read, p)
    case _ => false
  }

  predicate Saves(m: Move) {
    m.Save? || m.Judge?
  }

  /** No file the save takes over has been deleted, or is about to be. */
  ghost predicate SaveIsSafe(w: World, m: Move)
    requires Saves(m)
  {
    forall p :: Carried(At(w, m.i), p) ==> !Doomed(w, p)
  }

  // ---- The invariant

  /** The request may still save or delete the file. */
  ghost predicate Mentions(q: Request, p: Path) {
    match q
    case Writes(_, existing, _, resolved) => p in PathsOf(existing).Values || p in resolved.Values
    case Deletes(pending) => p in pending
    case Judges(read) => Names(read, p)
    case _ => false
  }

  ghost predicate Wrote(q: Request, p: Path) {
    q.Writes? && p in New(q)
  }

  /** What is to be written was uploaded; what was not comes from the record loaded. */
  ghost predicate RequestOk(q: Request) {
    q.Writes? ==>
      && (forall k :: 0 <= k < |q.todo| ==> q.todo[k] in q.form.uploaded)
      && forall s :: s in q.resolved && s !in q.form.uploaded ==>
           s in PathsOf(q.existing) && PathsOf(q.existing)[s] == q.resolved[s]
  }

  /** A file is known to the request that wrote it alone until it is saved. */
  ghost predicate OwnFile(w: World, i: nat, p: Path) {
    Wrote(At(w, i), p) ==>
      p in w.files && !InRecord(w, p) && forall j: nat :: j != i ==> !Mentions(At(w, j), p)
  }

  ghost predicate Old(w: World, p: Path) {
    (p in w.files || InRecord(w, p) || exists i: nat :: Mentions(At(w, i), p)) ==> p < w.nextPath
  }

  ghost predicate Tidy(w: World) {
    && (forall p :: Old(w, p))
    && (forall i: nat :: RequestOk(At(w, i)))
    && forall i: nat, p :: OwnFile(w, i, p)
  }

  /** A move of one request that learns of no file but the record's and a new
      one, and deletes only what it was to delete. */
  lemma MoveIsTidy(w: World, i: nat, w': World)
    requires Tidy(w) && i < |w'.requests| && w.nextPath <= w'.nextPath
    requires forall j: nat :: j != i ==> At(w', j) == At(w, j)
    requires RequestOk(At(w', i))
    requires forall p: Path :: Mentions(At(w', i), p) ==>
               Mentions(At(w, i), p) || InRecord(w, p) || w.nextPath <= p < w'.nextPath
    requires forall p: Path :: Wrote(At(w', i), p) ==>
               p in w'.files && !InRecord(w', p) && (Wrote(At(w, i), p) || w.nextPath <= p)
    requires forall p :: InRecord(w', p) ==> InRecord(w, p) || Mentions(At(w, i), p)
    requires forall p :: p in w.files && p !in w'.files ==> Pending(At(w, i), p)
    requires forall p :: p in w'.files ==> p in w.files || p < w'.nextPath
    ensures Tidy(w')
  {
    hide Wrote, Mentions, InRecord, RequestOk;
    forall p ensures Old(w', p) {
      assert Old(w, p);
    }
    forall j: nat ensures RequestOk(At(w', j)) {
      assert RequestOk(At(w, j));
    }
    forall j: nat, p ensures OwnFile(w', j, p) {
      if Wrote(At(w', j), p) {
        assert OwnFile(w, j, p) && OwnFile(w, i, p) && Old(w, p);
        WroteMentions(At(w', j), p);
        PendingMentions(At(w, i), p);
      }
    }
  }

  lemma WroteMentions(q: Request, p: Path)
    ensures Wrote(q, p) ==> Mentions(q, p)
  {
  }

  lemma PendingMentions(q: Request, p: Path)
    ensures Pending(q, p) ==> Mentions(q, p)
  {
  }

  lemma StepIsTidy(w: World, m: Move, w': World)
    requires Tidy(w) && Next(w, m, w')
    ensures Tidy(w')
  {
    hide Loaded, Left, Stored, Saved, Tidy;
    match m
    case Submit(form) => MoveIsTidy(w, |w.requests|, w');
    case Open => MoveIsTidy(w, |w.requests|, w');
    case Read(i) => ReadIsTidy(w, i, w');
    case TurnAway(i) => MoveIsTidy(w, i, w');
    case Write(i) => WriteIsTidy(w, i, w');
    case FailWrite(i) => FailureIsTidy(w, i, w');
    case Save(i) => SaveIsTidy(w, i, w');
    case FailSave(i) => MoveIsTidy(w, i, w');
    case Delete(i, p) => MoveIsTidy(w, i, w');
    case KeepFile(i, p) => MoveIsTidy(w, i, w');
    case Judge(i, verdict) => VerdictIsTidy(w, i, verdict, w');
    case FailJudge(i) => MoveIsTidy(w, i, w');
  }

  lemma FailureIsTidy(w: World, i: nat, w': World)
    requires Tidy(w) && Next(w, FailWrite(i), w')
    ensures Tidy(w')
  {
    MoveIsTidy(w, i, w');
  }

  lemma VerdictIsTidy(w: World, i: nat, verdict: KycStatus, w': World)
    requires Tidy(w) && Next(w, Judge(i, verdict), w')
    ensures Tidy(w')
  {
    MoveIsTidy(w, i, w');
  }

  lemma ReadIsTidy(w: World, i: nat, w': World)
    requires Tidy(w) && Next(w, Read(i), w')
    ensures Tidy(w')
  {
    hide Uploads, Missing, RequiredSlots, Kept;
    MoveIsTidy(w, i, w');
  }

  lemma WriteIsTidy(w: World, i: nat, w': World)
    requires Tidy(w) && Next(w, Write(i), w')
    ensures Tidy(w')
  {
    var q, q' := At(w, i), At(w', i);
    assert RequestOk(q) && Old(w, w.nextPath) && q.todo[0] in q.form.uploaded;
    forall p ensures Wrote(q', p) ==> p in w'.files && !InRecord(w', p) && (Wrote(q, p) || w.nextPath <= p) {
      assert OwnFile(w, i, p);
    }
    MoveIsTidy(w, i, w');
  }

  lemma SaveIsTidy(w: World, i: nat, w': World)
    requires Tidy(w) && Next(w, Save(i), w')
    ensures Tidy(w')
  {
    MoveIsTidy(w, i, w');
  }

  // ---- When a save is safe

  /** A save names a file that is gone or about to go if and only if it took that
      file over. */
  lemma SaveSoundIff(w: World, m: Move, w': World)
    requires Tidy(w) && Saves(m) && Next(w, m, w')
    ensures Sound(w') <==> SaveIsSafe(w, m)
  {
    var q := At(w, m.i);
    forall p ensures InRecord(w', p) <==> Carried(q, p) || Wrote(q, p) {
    }
    forall p | InRecord(w', p) ensures Doomed(w', p) <==> Doomed(w, p) {
      DoomedAfterSave(w, m, w', p);
    }
    forall p | Wrote(q, p) ensures !Doomed(w, p) {
      OwnNotDoomed(w, m.i, p);
    }
  }

  lemma OwnNotDoomed(w: World, i: nat, p: Path)
    requires Tidy(w) && Wrote(At(w, i), p)
    ensures !Doomed(w, p)
  {
    assert OwnFile(w, i, p);
    forall j: nat ensures !Pending(At(w, j), p) {
      PendingMentions(At(w, j), p);
    }
  }

  lemma DoomedAfterSave(w: World, m: Move, w': World, p: Path)
    requires Saves(m) && Next(w, m, w') && InRecord(w', p)
    ensures Doomed(w', p) <==> Doomed(w, p)
  {
    forall j: nat ensures Pending(At(w', j), p) <==> Pending(At(w, j), p) {
    }
  }

  /** Nothing but a save endangers a file the record names. */
  lemma OthersKeepSound(w: World, m: Move, w': World)
    requires Tidy(w) && Sound(w) && !Saves(m) && Next(w, m, w')
    ensures Sound(w')
  {
    forall p | InRecord(w', p) ensures !Doomed(w', p) {
      assert InRecord(w, p) && !Doomed(w, p);
      NotDoomedHere(w, m, w', p);
    }
  }

  lemma NotDoomedHere(w: World, m: Move, w': World, p: Path)
    requires Tidy(w) && !Saves(m) && Next(w, m, w') && !Doomed(w, p) && InRecord(w, p)
    ensures !Doomed(w', p)
  {
    forall j: nat ensures !Pending(At(w', j), p) {
      assert !Pending(At(w, j), p) && OwnFile(w, j, p);
    }
    if m.Delete? {
      assert !Pending(At(w, m.i), p);
    }
  }

  /** A file in use is only ever put up for deletion by the save of a submission
      that had loaded it and does not name it any more. */
  lemma DoomedBySave(w: World, m: Move, w': World, p: Path)
    requires Tidy(w) && Next(w, m, w') && !Doomed(w, p) && Doomed(w', p)
    requires forall i: nat :: !Wrote(At(w, i), p)
    ensures m.Save? && p in PathsOf(At(w, m.i).existing).Values && p !in At(w, m.i).resolved.Values
  {
    assert p !in w'.files ==> m.Delete? && Pending(At(w, m.i), p);
    var j: nat :| Pending(At(w', j), p);
    assert !Pending(At(w, j), p) && !Wrote(At(w, j), p);
  }

  /** What the request loaded. */
  function LoadedBy(q: Request): Option<Record> {
    match q
    case Writes(_, existing, _, _) => existing
    case Judges(read) => Some(read)
    case _ => None
  }

  /** A save is safe while the record still names the files it was loaded with. */
  lemma UnchangedIsSafe(w: World, m: Move)
    requires Tidy(w) && Sound(w) && Saves(m)
    requires PathsOf(LoadedBy(At(w, m.i))) == PathsOf(w.record)
    ensures SaveIsSafe(w, m)
  {
    assert RequestOk(At(w, m.i));
    forall p | Carried(At(w, m.i), p) ensures !Doomed(w, p) {
      assert InRecord(w, p);
    }
  }

  // ---- Over a run

  ghost predicate Moves(ws: seq<World>, ms: seq<Move>, n: nat) {
    n < |ms| && n + 1 < |ws| && Next(ws[n], ms[n], ws[n + 1])
  }

  /** A run from a record whose files are there, or from none, and no requests. */
  ghost predicate IsRun(ws: seq<World>, ms: seq<Move>) {
    && |ws| == |ms| + 1 && ws[0].requests == []
    && (forall p :: InRecord(ws[0], p) ==> p in ws[0].files)
    && (forall p :: p in ws[0].files ==> p < ws[0].nextPath)
    && forall n :: 0 <= n < |ms| ==> Moves(ws, ms, n)
  }

  lemma {:induction false} RunIsTidy(ws: seq<World>, ms: seq<Move>, n: nat)
    requires IsRun(ws, ms) && n < |ws|
    ensures Tidy(ws[n])
  {
    if n == 0 {
      forall p ensures Old(ws[0], p) {
      }
    } else {
      RunIsTidy(ws, ms, n - 1);
      assert Moves(ws, ms, n - 1);
      StepIsTidy(ws[n - 1], ms[n - 1], ws[n]);
    }
  }

  ghost predicate SafeAt(ws: seq<World>, ms: seq<Move>, n: nat) {
    n < |ms| && n < |ws| && Saves(ms[n]) ==> SaveIsSafe(ws[n], ms[n])
  }

  /** Over a run the record never names a file that is gone or about to go, if
      and only if every save is safe. */
  lemma SoundIffSavesSafe(ws: seq<World>, ms: seq<Move>)
    requires IsRun(ws, ms)
    ensures (forall n :: 0 <= n < |ws| ==> Sound(ws[n])) <==> (forall n: nat :: SafeAt(ws, ms, n))
  {
    hide IsRun, Sound, SaveIsSafe;
    if forall n :: 0 <= n < |ws| ==> Sound(ws[n]) {
      forall n: nat ensures SafeAt(ws, ms, n) {
        if n < |ms| && n < |ws| && Saves(ms[n]) {
          RunMoves(ws, ms, n);
          SaveSoundIff(ws[n], ms[n], ws[n + 1]);
        }
      }
    }
    if forall n: nat :: SafeAt(ws, ms, n) {
      forall n | 0 <= n < |ws| ensures Sound(ws[n]) {
        SafeSavesSound(ws, ms, n);
      }
    }
  }

  lemma RunMoves(ws: seq<World>, ms: seq<Move>, n: nat)
    requires IsRun(ws, ms) && n < |ms|
    ensures Moves(ws, ms, n) && Tidy(ws[n])
  {
    RunIsTidy(ws, ms, n);
  }

  lemma {:induction false} SafeSavesSound(ws: seq<World>, ms: seq<Move>, n: nat)
    requires IsRun(ws, ms) && n < |ws| && forall k: nat :: SafeAt(ws, ms, k)
    ensures Sound(ws[n])
  {
    if n > 0 {
      SafeSavesSound(ws, ms, n - 1);
      RunMoves(ws, ms, n - 1);
      if Saves(ms[n - 1]) {
        assert SafeAt(ws, ms, n - 1);
        SaveSoundIff(ws[n - 1], ms[n - 1], ws[n]);
      } else {
        OthersKeepSound(ws[n - 1], ms[n - 1], ws[n]);
      }
    }
  }

  ghost predicate UnchangedAt(ws: seq<World>, ms: seq<Move>, n: nat) {
    n < |ms| && n < |ws| && Saves(ms[n]) ==> PathsOf(LoadedBy(At(ws[n], ms[n].i))) == PathsOf(ws[n].record)
  }

  /** So refusing to save over a record whose files have changed since it was
      loaded would be enough. */
  lemma {:induction false} UnchangedSavesSound(ws: seq<World>, ms: seq<Move>, n: nat)
    requires IsRun(ws, ms) && n < |ws| && forall k: nat :: UnchangedAt(ws, ms, k)
    ensures Sound(ws[n])
  {
    if n > 0 {
      UnchangedSavesSound(ws, ms, n - 1);
      RunMoves(ws, ms, n - 1);
      if Saves(ms[n - 1]) {
        assert UnchangedAt(ws, ms, n - 1);
        UnchangedIsSafe(ws[n - 1], ms[n - 1]);
        SaveSoundIff(ws[n - 1], ms[n - 1], ws[n]);
      } else {
        OthersKeepSound(ws[n - 1], ms[n - 1], ws[n]);
      }
    }
  }

  // ---- Two runs that end badly

  /** A rejected citizenship, its two sides in files 0 and 1. */
  const OLD := Record(Citizenship, "1", map[CitizenshipFront := 0, CitizenshipBack := 1], Rejected)

  const BOTH_SIDES := Form(Citizenship, "1", {CitizenshipFront, CitizenshipBack})

  const FRONT_ONLY := Form(Citizenship, "1", {CitizenshipFront})

  lemma OldLoaded()
    ensures Loaded(Some(OLD), BOTH_SIDES) == Writes(BOTH_SIDES, Some(OLD), [CitizenshipFront, CitizenshipBack], map[])
    ensures Loaded(Some(OLD), FRONT_ONLY) ==
              Writes(FRONT_ONLY, Some(OLD), [CitizenshipFront], map[CitizenshipBack := 1])
  {
    hide Missing, Uploads, Kept;
    BackResolved(BOTH_SIDES.uploaded);
    BackResolved(FRONT_ONLY.uploaded);
  }

  lemma FrontResolved(uploaded: set<Slot>)
    requires CitizenshipFront in uploaded
    ensures var slots := RequiredSlots(Citizenship)[..1];
            && Missing(slots, uploaded, OLD.paths) == [] && Uploads(slots, uploaded) == [CitizenshipFront]
            && Kept(slots, uploaded, OLD.paths) == map[]
  {
    hide Missing, Uploads, Kept;
    NothingResolved(RequiredSlots(Citizenship)[..0], OLD.paths, uploaded);
    ResolveNext(RequiredSlots(Citizenship), 0, OLD.paths, uploaded);
  }

  lemma BackResolved(uploaded: set<Slot>)
    requires CitizenshipFront in uploaded
    ensures var slots, back := RequiredSlots(Citizenship), CitizenshipBack in uploaded;
            && Missing(slots, uploaded, OLD.paths) == []
            && Uploads(slots, uploaded) == [CitizenshipFront] + (if back then [CitizenshipBack] else [])
            && Kept(slots, uploaded, OLD.paths) == if back then map[] else map[CitizenshipBack := 1]
  {
    hide Missing, Uploads, Kept;
    FrontResolved(uploaded);
    ResolveNext(RequiredSlots(Citizenship), 1, OLD.paths, uploaded);
    assert RequiredSlots(Citizenship)[..2] == RequiredSlots(Citizenship);
  }

  /** Of the old files a new record leaves behind those it does not name. */
  lemma OldLeft(q: Request)
    requires q.Writes? && q.existing == Some(OLD)
    ensures Left(q) == {0, 1} - q.resolved.Values
  {
    hide Superseded;
    EveryColumn(CitizenshipFront);
    EveryColumn(CitizenshipBack);
    assert OLD.paths[CitizenshipFront] == 0 && OLD.paths[CitizenshipBack] == 1;
  }

  lemma Extended(ws: seq<World>, ms: seq<Move>, m: Move, w': World)
    requires IsRun(ws, ms) && Next(ws[|ms|], m, w')
    ensures IsRun(ws + [w'], ms + [m])
  {
    hide Next;
    forall n | 0 <= n < |ms + [m]| ensures Moves(ws + [w'], ms + [m], n) {
      if n < |ms| {
        assert Moves(ws, ms, n);
      }
    }
  }

  /** The record once both sides are stored from `n` on. */
  function Replaced(n: Path): Record {
    OLD.(paths := map[CitizenshipFront := n, CitizenshipBack := n + 1], status := UnderReview)
  }

  /** A submission that has loaded the old record stores both sides and saves. */
  lemma BothSidesSaved(ws: seq<World>, ms: seq<Move>, i: nat, files: set<Path>)
    returns (ws': seq<World>, ms': seq<Move>)
    requires |ws| == |ms| + 1 && IsRun(ws, ms)
    requires 2 <= ws[|ms|].nextPath && ws[|ms|].record == Some(OLD) && ws[|ms|].files == files
    requires i < |ws[|ms|].requests| && At(ws[|ms|], i) == Loaded(Some(OLD), BOTH_SIDES)
    ensures IsRun(ws', ms') && |ws'| == |ms'| + 1 && ws'[0] == ws[0]
    ensures ms' == ms + [Write(i), Write(i), Save(i)]
    ensures var w, n := ws[|ms|], ws[|ms|].nextPath;
            ws'[|ms'|] == World(Some(Replaced(n)), files + {n} + {n + 1}, n + 2, w.requests[i := Deletes({0, 1})])
  {
    hide IsRun, Loaded, Left;
    OldLoaded();
    var w := ws[|ms|];
    var n := w.nextPath;
    var q1 := Stored(At(w, i), n);
    var q2 := Stored(q1, n + 1);
    assert q2.resolved == map[CitizenshipFront := n, CitizenshipBack := n + 1];
    var w1 := To(w, i, q1).(files := w.files + {n}, nextPath := n + 1);
    ws', ms' := Taken(ws, ms, Write(i), w1);
    var w2 := To(w1, i, q2).(files := w1.files + {n + 1}, nextPath := n + 2);
    ws', ms' := Taken(ws', ms', Write(i), w2);
    OldLeft(q2);
    assert {0, 1} - q2.resolved.Values == {0, 1};
    ws', ms' := Taken(ws', ms', Save(i), To(w2, i, Deletes({0, 1})).(record := Some(Replaced(n))));
  }

  lemma OldFilesDeleted(ws: seq<World>, ms: seq<Move>, i: nat) returns (ws': seq<World>, ms': seq<Move>)
    requires |ws| == |ms| + 1 && IsRun(ws, ms) && At(ws[|ms|], i) == Deletes({0, 1})
    ensures IsRun(ws', ms') && |ws'| == |ms'| + 1 && ws'[0] == ws[0]
    ensures ms' == ms + [Delete(i, 0), Delete(i, 1)]
    ensures var w := ws[|ms|]; ws'[|ms'|] == To(w, i, Deletes({})).(files := w.files - {0} - {1})
  {
    hide IsRun;
    var w := ws[|ms|];
    assert {0, 1} - {0} == {1} && {1} - {1} == {};
    var w1 := To(w, i, Deletes({1})).(files := w.files - {0});
    ws', ms' := Taken(ws, ms, Delete(i, 0), w1);
    ws', ms' := Taken(ws', ms', Delete(i, 1), To(w1, i, Deletes({})).(files := w1.files - {1}));
  }

  lemma Taken(ws: seq<World>, ms: seq<Move>, m: Move, w': World) returns (ws': seq<World>, ms': seq<Move>)
    requires IsRun(ws, ms) && Next(ws[|ms|], m, w')
    ensures IsRun(ws', ms') && ms' == ms + [m] && |ws'| == |ms'| + 1
    ensures ws'[0] == ws[0] && ws'[|ms'|] == w'
  {
    ws', ms' := ws + [w'], ms + [m];
    Extended(ws, ms, m, w');
  }

  const START := World(Some(OLD), {0, 1}, 2, [])

  lemma Started()
    ensures IsRun([START], [])
  {
  }

  /** Two submissions load the record; the second, which keeps the back of the
      document, stores its new front. */
  lemma BothLoaded() returns (ws: seq<World>, ms: seq<Move>)
    ensures IsRun(ws, ms) && |ws| == |ms| + 1 && ws[0] == START
    ensures ms == [Submit(BOTH_SIDES), Submit(FRONT_ONLY), Read(0), Read(1), Write(1)]
    ensures var first, second := Loaded(Some(OLD), BOTH_SIDES), Loaded(Some(OLD), FRONT_ONLY);
            && second.Writes? && second.todo != []
            && ws[|ms|] == World(Some(OLD), {0, 1, 2}, 3, [first, Stored(second, 2)])
  {
    hide IsRun, Loaded;
    Started();
    OldLoaded();
    var first, second := Loaded(Some(OLD), BOTH_SIDES), Loaded(Some(OLD), FRONT_ONLY);
    ws, ms := Taken([START], [], Submit(BOTH_SIDES), START.(requests := [Reads(BOTH_SIDES)]));
    ws, ms := Taken(ws, ms, Submit(FRONT_ONLY), START.(requests := [Reads(BOTH_SIDES), Reads(FRONT_ONLY)]));
    ws, ms := Taken(ws, ms, Read(0), START.(requests := [first, Reads(FRONT_ONLY)]));
    ws, ms := Taken(ws, ms, Read(1), START.(requests := [first, second]));
    ws, ms := Taken(ws, ms, Write(1), World(Some(OLD), {0, 1, 2}, 3, [first, Stored(second, 2)]));
  }

  /** Two submissions overlap: one replaces both sides, the other, which loaded
      the same record, keeps the back, deleted by then. */
  lemma OverlapDangles() returns (ws: seq<World>, ms: seq<Move>)
    ensures IsRun(ws, ms) && |ws| == |ms| + 1 && ws[0] == START && Dangles(ws[|ms|])
    ensures ms == [Submit(BOTH_SIDES), Submit(FRONT_ONLY), Read(0), Read(1), Write(1),
                   Write(0), Write(0), Save(0), Delete(0, 0), Delete(0, 1), Save(1)]
  {
    hide IsRun, Loaded, Left;
    OldLoaded();
    ws, ms := BothLoaded();
    ws, ms := BothSidesSaved(ws, ms, 0, {0, 1, 2});
    ws, ms := OldFilesDeleted(ws, ms, 0);
    var w := ws[|ms|];
    var q := At(w, 1);
    var w' := To(w, 1, Deletes(Left(q))).(record := Some(Saved(q)));
    ws, ms := Taken(ws, ms, Save(1), w');
    assert w'.record.value.paths[CitizenshipBack] == 1;
    assert InRecord(w', 1) && 1 !in w'.files;
  }

  /** An admin opens the record, then a submission loads it too. */
  lemma ReviewOpened() returns (ws: seq<World>, ms: seq<Move>)
    ensures IsRun(ws, ms) && |ws| == |ms| + 1 && ws[0] == START && ms == [Open, Submit(BOTH_SIDES), Read(1)]
    ensures ws[|ms|] == START.(requests := [Judges(OLD), Loaded(Some(OLD), BOTH_SIDES)])
  {
    hide IsRun, Loaded;
    Started();
    ws, ms := Taken([START], [], Open, START.(requests := [Judges(OLD)]));
    ws, ms := Taken(ws, ms, Submit(BOTH_SIDES), START.(requests := [Judges(OLD), Reads(BOTH_SIDES)]));
    ws, ms := Taken(ws, ms, Read(1), START.(requests := [Judges(OLD), Loaded(Some(OLD), BOTH_SIDES)]));
  }

  /** A review overlaps with a submission: the record approved is the one the
      admin loaded, whose files the submission has deleted. */
  lemma ReviewDangles() returns (ws: seq<World>, ms: seq<Move>)
    ensures IsRun(ws, ms) && |ws| == |ms| + 1 && ws[0] == START && Dangles(ws[|ms|])
    ensures ws[|ms|].record == Some(OLD.(status := Approved))
    ensures ms == [Open, Submit(BOTH_SIDES), Read(1), Write(1), Write(1), Save(1), Delete(1, 0), Delete(1, 1),
                   Judge(0, Approved)]
  {
    hide IsRun, Loaded, Left;
    OldLoaded();
    ws, ms := ReviewOpened();
    ws, ms := BothSidesSaved(ws, ms, 1, {0, 1});
    ws, ms := OldFilesDeleted(ws, ms, 1);
    var w' := To(ws[|ms|], 0, Finished).(record := Some(OLD.(status := Approved)));
    ws, ms := Taken(ws, ms, Judge(0, Approved), w');
    assert w'.record.value.paths[CitizenshipFront] == 0;
    assert InRecord(w', 0) && 0 !in w'.files;
  }
}
