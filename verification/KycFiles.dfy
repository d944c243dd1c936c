/** The document files of KYC submissions: new files are written before the
    record points at them, and old ones deleted after it no longer does. As long
    as the requests of an account run one after another, no record ever names
    a file that is not there; KycRace is about those that overlap. */
module KycFiles {
  import opened AuctionRows

  /** Where a stored file is; every write gets a name never used before. */
  type Path = nat

  datatype Document = Citizenship | PassportBook | NidCard

  datatype Slot = CitizenshipFront | CitizenshipBack | Passport | NidFront

  datatype KycStatus = UnderReview | Approved | Rejected

  /** `paths` holds the file columns that are not null. */
  datatype Record = Record(document: Document, documentId: string, paths: map<Slot, Path>, status: KycStatus)

  /** What the account says about the applicant. */
  datatype Applicant = Unknown | Known(phoneVerified: bool, named: bool)

  datatype KycError =
    | AlreadyUnderReview | AlreadyApproved | UserNotFound | PhoneUnverified | NameMissing
    | DocumentTaken | FilesMissing(slots: seq<Slot>) | StorageFailed | SaveFailed

  function RequiredSlots(d: Document): (slots: seq<Slot>)
    ensures forall i, j :: 0 <= i < j < |slots| ==> slots[i] != slots[j]
    ensures slots != []
  {
    match d
    case Citizenship => [CitizenshipFront, CitizenshipBack]
    case PassportBook => [Passport]
    case NidCard => [NidFront]
  }

  const COLUMNS: seq<Slot> := [CitizenshipFront, CitizenshipBack, Passport, NidFront]

  /** The files an omitted slot falls back on: those on file for the same kind of document. */
  function Retained(existing: Option<Record>, d: Document): map<Slot, Path> {
    if existing.Some? && existing.value.document == d then existing.value.paths else map[]
  }

  /** The required slots with neither an upload nor a file to fall back on. */
  function Missing(slots: seq<Slot>, uploaded: set<Slot>, retained: map<Slot, Path>): (r: seq<Slot>)
    ensures forall s :: s in r <==> s in slots && s !in uploaded && s !in retained
  {
    if slots == [] then []
    else
      var rest, last := Missing(slots[..|slots| - 1], uploaded, retained), slots[|slots| - 1];
      assert slots == slots[..|slots| - 1] + [last];
      if last in uploaded || last in retained then rest else rest + [last]
  }

  /** The required slots that come with a new file, in order. */
  function Uploads(slots: seq<Slot>, uploaded: set<Slot>): (r: seq<Slot>)
    ensures |r| <= |slots| && forall s :: s in r <==> s in slots && s in uploaded
  {
    if slots == [] then []
    else
      var rest, last := Uploads(slots[..|slots| - 1], uploaded), slots[|slots| - 1];
      assert slots == slots[..|slots| - 1] + [last];
      if last in uploaded then rest + [last] else rest
  }

  /** The slots that keep the file already there. */
  function Kept(slots: seq<Slot>, uploaded: set<Slot>, retained: map<Slot, Path>): (r: map<Slot, Path>)
    ensures forall s :: s in r <==> s in slots && s !in uploaded && s in retained
    ensures forall s :: s in r ==> r[s] == retained[s]
  {
    map s | s in slots && s !in uploaded && s in retained :: retained[s]
  }

  /** Old files the record no longer names. */
  function Superseded(columns: seq<Slot>, before: map<Slot, Path>, now: map<Slot, Path>): (r: seq<Path>)
    ensures forall p :: p in r <==> exists s :: s in columns && s in before && before[s] == p && p !in now.Values
  {
    if columns == [] then []
    else
      var rest, last := Superseded(columns[..|columns| - 1], before, now), columns[|columns| - 1];
      assert columns == columns[..|columns| - 1] + [last];
      if last in before && before[last] !in now.Values then rest + [before[last]] else rest
  }

  /** The paths of `n` writes. */
  ghost function Written(first: Path, n: nat): (r: set<Path>)
    ensures forall p :: p in r <==> first <= p < first + n
  {
    if n == 0 then {} else Written(first, n - 1) + {first + n - 1}
  }

  /** Deleting what was just written leaves the files from before and the undeletable. */
  lemma LeftOver(before: set<Path>, first: Path, written: seq<Path>, undeletable: set<Path>)
    requires forall p :: p in before ==> p < first
    requires forall i :: 0 <= i < |written| ==> written[i] == first + i
    ensures var all := Written(first, |written|);
            before + all - (set p | p in written && p !in undeletable) == before + all * undeletable
  {
    hide Written;
    forall p ensures p in written <==> p in Written(first, |written|) {
      if first <= p < first + |written| {
        assert written[p - first] == p;
      }
    }
  }

  ghost predicate Distinct(slots: seq<Slot>) {
    forall i, j :: 0 <= i < j < |slots| ==> slots[i] != slots[j]
  }

  lemma {:induction false} UploadsDistinct(slots: seq<Slot>, uploaded: set<Slot>)
    requires Distinct(slots)
    ensures Distinct(Uploads(slots, uploaded))
  {
    if slots != [] {
      UploadsDistinct(slots[..|slots| - 1], uploaded);
    }
  }

  function IndexOf(slots: seq<Slot>, s: Slot): (i: nat)
    requires s in slots
    ensures i < |slots| && slots[i] == s
  {
    if slots[0] == s then 0 else 1 + IndexOf(slots[1..], s)
  }

  /** The files of a submission whose uploads are stored from `first` on. */
  function Filed(kept: map<Slot, Path>, uploads: seq<Slot>, first: Path): (r: map<Slot, Path>)
    ensures forall s :: s in r <==> s in kept || s in uploads
    ensures forall s :: s in r ==> r[s] == if s in uploads then first + IndexOf(uploads, s) else kept[s]
  {
    map s | s in kept.Keys + (set u | u in uploads) :: if s in uploads then first + IndexOf(uploads, s) else kept[s]
  }

  lemma FiledNext(kept: map<Slot, Path>, uploads: seq<Slot>, first: Path, n: nat)
    requires Distinct(uploads) && n < |uploads|
    ensures Filed(kept, uploads[..n + 1], first) == Filed(kept, uploads[..n], first)[uploads[n] := first + n]
  {
    hide IndexOf;
    var now, next := uploads[..n], uploads[..n + 1];
    var filed, grown := Filed(kept, next, first), Filed(kept, now, first)[uploads[n] := first + n];
    assert next == now + [uploads[n]];
    forall s | s in filed ensures s in grown && filed[s] == grown[s] {
      SameIndex(uploads, n, s);
    }
    assert forall s :: s in grown ==> s in filed;
    assert filed == grown;
  }

  lemma NothingFiled(kept: map<Slot, Path>, none: seq<Slot>, first: Path)
    requires none == []
    ensures Filed(kept, none, first) == kept
  {
  }

  lemma SameIndex(uploads: seq<Slot>, n: nat, s: Slot)
    requires Distinct(uploads) && n < |uploads|
    ensures s == uploads[n] ==> s in uploads[..n + 1] && IndexOf(uploads[..n + 1], s) == n
    ensures s in uploads[..n] ==> s in uploads[..n + 1] && IndexOf(uploads[..n + 1], s) == IndexOf(uploads[..n], s)
  {
    hide IndexOf;
    var now, next := uploads[..n], uploads[..n + 1];
    if s == uploads[n] {
      assert next[n] == s;
    }
    if s in now {
      assert next[IndexOf(now, s)] == s;
    }
  }

  lemma ResolveNext(required: seq<Slot>, k: nat, retained: map<Slot, Path>, uploaded: set<Slot>)
    requires k < |required|
    ensures var now, next, slot := required[..k], required[..k + 1], required[k];
            && Kept(next, uploaded, retained) == (if slot !in uploaded && slot in retained
                 then Kept(now, uploaded, retained)[slot := retained[slot]] else Kept(now, uploaded, retained))
            && Missing(next, uploaded, retained) ==
                 Missing(now, uploaded, retained) + (if slot !in uploaded && slot !in retained then [slot] else [])
            && Uploads(next, uploaded) == Uploads(now, uploaded) + (if slot in uploaded then [slot] else [])
  {
    var now, next, slot := required[..k], required[..k + 1], required[k];
    assert next[..k] == now && next == now + [slot];
    KeptNext(now, slot, retained, uploaded);
  }

  lemma NothingResolved(none: seq<Slot>, retained: map<Slot, Path>, uploaded: set<Slot>)
    requires none == []
    ensures Kept(none, uploaded, retained) == map[]
    ensures Missing(none, uploaded, retained) == [] && Uploads(none, uploaded) == []
  {
  }

  lemma KeptNext(now: seq<Slot>, slot: Slot, retained: map<Slot, Path>, uploaded: set<Slot>)
    ensures Kept(now + [slot], uploaded, retained) == (if slot !in uploaded && slot in retained
              then Kept(now, uploaded, retained)[slot := retained[slot]] else Kept(now, uploaded, retained))
  {
  }

  // ---- A submission

  /** Why a submission is turned away before any file is written. */
  function Refusal(records: map<UserId, Record>, user: UserId, applicant: Applicant, d: Document, id: string,
                   uploaded: set<Slot>): Option<KycError>
  {
    var existing := if user in records then Some(records[user]) else None;
    var missing := Missing(RequiredSlots(d), uploaded, Retained(existing, d));
    if existing.Some? && existing.value.status == UnderReview then Some(AlreadyUnderReview)
    else if existing.Some? && existing.value.status == Approved then Some(AlreadyApproved)
    else if applicant.Unknown? then Some(UserNotFound)
    else if !applicant.phoneVerified then Some(PhoneUnverified)
    else if !applicant.named then Some(NameMissing)
    else if TakenByOther(records, user, d, id) then Some(DocumentTaken)
    else if missing != [] then Some(FilesMissing(missing))
    else None
  }

  /** The files of the new record, with uploads stored from `first` on. */
  function NewPaths(records: map<UserId, Record>, user: UserId, d: Document, uploaded: set<Slot>, first: Path):
    map<Slot, Path>
  {
    var existing := if user in records then Some(records[user]) else None;
    Filed(Kept(RequiredSlots(d), uploaded, Retained(existing, d)), Uploads(RequiredSlots(d), uploaded), first)
  }

  function OldPaths(records: map<UserId, Record>, user: UserId): map<Slot, Path> {
    if user in records then records[user].paths else map[]
  }

  /** Why a submission is turned away: the first of these that applies. */
  lemma RefusedBecause(records: map<UserId, Record>, user: UserId, applicant: Applicant, d: Document, id: string,
                       uploaded: set<Slot>)
    ensures var refusal := Refusal(records, user, applicant, d, id, uploaded);
            var open := user in records ==> records[user].status == Rejected;
            var known := open && applicant.Known?;
            var named := known && applicant.phoneVerified && applicant.named;
            var taken := exists u :: u in records && u != user && records[u].document == d
                                     && records[u].documentId == id;
            && (refusal == Some(AlreadyUnderReview) <==> user in records && records[user].status == UnderReview)
            && (refusal == Some(AlreadyApproved) <==> user in records && records[user].status == Approved)
            && (refusal == Some(UserNotFound) <==> open && applicant == Unknown)
            && (refusal == Some(PhoneUnverified) <==> known && !applicant.phoneVerified)
            && (refusal == Some(NameMissing) <==> known && applicant.phoneVerified && !applicant.named)
            && (refusal == Some(DocumentTaken) <==> named && taken)
            && (refusal.None? || refusal.value.FilesMissing? <==> named && !taken)
  {
    hide Missing;
  }

  /** The files it is turned away for are the sides needed and neither uploaded
      nor on file for the same kind of document. */
  lemma MissingAre(records: map<UserId, Record>, user: UserId, applicant: Applicant, d: Document, id: string,
                   uploaded: set<Slot>, s: Slot)
    requires var refusal := Refusal(records, user, applicant, d, id, uploaded);
             refusal.None? || refusal.value.FilesMissing?
    ensures var refusal := Refusal(records, user, applicant, d, id, uploaded);
            var onFile := user in records && records[user].document == d && s in records[user].paths;
            (refusal.Some? && s in refusal.value.slots) <==> s in SlotsOf(d) && s !in uploaded && !onFile
  {
    hide Missing, RequiredSlots, SlotsOf;
    RequiredAre(d);
  }

  /** The sides a citizenship, a passport and a NID card are photographed on. */
  function SlotsOf(d: Document): set<Slot> {
    match d
    case Citizenship => {CitizenshipFront, CitizenshipBack}
    case PassportBook => {Passport}
    case NidCard => {NidFront}
  }

  lemma RequiredAre(d: Document)
    ensures forall s :: s in RequiredSlots(d) <==> s in SlotsOf(d)
  {
  }

  /** What an accepted submission files: exactly the slots the document needs,
      each with its upload or else the file from before; and the old files it
      leaves behind are those the new record does not name. */
  lemma SubmittedFiles(records: map<UserId, Record>, user: UserId, applicant: Applicant, d: Document, id: string,
                       uploaded: set<Slot>, first: Path)
    requires Refusal(records, user, applicant, d, id, uploaded).None?
    ensures var paths, before := NewPaths(records, user, d, uploaded, first), OldPaths(records, user);
            && (forall s :: s in paths <==> s in SlotsOf(d))
            && (forall s :: s in paths ==> if s in uploaded then first <= paths[s]
                                          else s in before && paths[s] == before[s] && records[user].document == d)
            && (forall s, t :: s in paths && t in paths && s in uploaded && t in uploaded && s != t ==>
                  paths[s] != paths[t])
            && (forall p :: p in Superseded(COLUMNS, before, paths) <==> p in before.Values && p !in paths.Values)
  {
    var paths, before := NewPaths(records, user, d, uploaded, first), OldPaths(records, user);
    var existing := if user in records then Some(records[user]) else None;
    var required, retained := RequiredSlots(d), Retained(existing, d);
    hide Kept, Filed, Uploads, Missing, Superseded, RequiredSlots, SlotsOf;
    RequiredAre(d);
    forall s | s in required ensures s in uploaded || s in retained {
      assert s !in Missing(required, uploaded, retained);
    }
    forall s: Slot ensures s in COLUMNS {
      EveryColumn(s);
    }
  }

  lemma EveryColumn(s: Slot)
    ensures s in COLUMNS
  {
    match s
    case CitizenshipFront => assert COLUMNS[0] == s;
    case CitizenshipBack => assert COLUMNS[1] == s;
    case Passport => assert COLUMNS[2] == s;
    case NidFront => assert COLUMNS[3] == s;
  }

  // ---- The tables and the disk

  /** Every path the record names is a file. */
  ghost predicate Backed(r: Record, files: set<Path>) {
    forall s :: s in r.paths ==> r.paths[s] in files
  }

  ghost predicate Names(r: Record, path: Path) {
    exists s :: s in r.paths && r.paths[s] == path
  }

  /** No two accounts share a document or a file. */
  ghost predicate ApartFrom(a: Record, b: Record) {
    && !(a.document == b.document && a.documentId == b.documentId)
    && forall s, t :: s in a.paths && t in b.paths ==> a.paths[s] != b.paths[t]
  }

  /** An identity document belongs to another account. */
  predicate TakenByOther(records: map<UserId, Record>, user: UserId, d: Document, id: string) {
    exists u :: u in records && u != user && records[u].document == d && records[u].documentId == id
  }

  ghost predicate Consistent(records: map<UserId, Record>, files: set<Path>) {
    && (forall u :: u in records ==> Backed(records[u], files))
    && (forall u, v :: u in records && v in records && u != v ==> ApartFrom(records[u], records[v]))
  }

  /** The new record names files that exist and are nobody else's. */
  lemma NewRecordBacked(records: map<UserId, Record>, user: UserId, d: Document, id: string, uploaded: set<Slot>,
                        first: Path, before: set<Path>, files: set<Path>)
    requires Consistent(records, before) && !TakenByOther(records, user, d, id)
    requires forall p :: p in before ==> p < first
    requires files == before + Written(first, |Uploads(RequiredSlots(d), uploaded)|)
    ensures var r := Record(d, id, NewPaths(records, user, d, uploaded, first), UnderReview);
            && Backed(r, files)
            && forall u :: u in records && u != user ==> ApartFrom(r, records[u]) && ApartFrom(records[u], r)
  {
    hide Written, Uploads, Filed, Kept, IndexOf;
    var r := Record(d, id, NewPaths(records, user, d, uploaded, first), UnderReview);
    var named := OldPaths(records, user);
    forall s | s in r.paths
      ensures r.paths[s] in files && (r.paths[s] < first ==> s in named && r.paths[s] == named[s])
    {
      if user in records {
        assert Backed(records[user], before);
      }
    }
    forall u | u in records && u != user ensures ApartFrom(r, records[u]) && ApartFrom(records[u], r) {
      assert Backed(records[u], before);
      assert user in records ==> ApartFrom(records[user], records[u]);
    }
  }

  /** What the old record named and the new one does not, no record names. */
  lemma OldFilesUnnamed(records: map<UserId, Record>, user: UserId, r: Record, superseded: seq<Path>,
                        after: map<UserId, Record>)
    requires after == records[user := r]
    requires forall u, v :: u in records && v in records && u != v ==> ApartFrom(records[u], records[v])
    requires superseded == Superseded(COLUMNS, OldPaths(records, user), r.paths)
    ensures forall i, u :: 0 <= i < |superseded| && u in after ==> !Names(after[u], superseded[i])
  {
    forall i, u | 0 <= i < |superseded| && u in after ensures !Names(after[u], superseded[i]) {
      assert superseded[i] in superseded;
      if u != user {
        assert ApartFrom(records[user], records[u]);
      }
    }
  }

  /** No record names a file not written yet. */
  lemma UnusedUnnamed(records: map<UserId, Record>, files: set<Path>, first: Path)
    requires forall u :: u in records ==> Backed(records[u], files)
    requires forall p :: p in files ==> p < first
    ensures forall p, u :: first <= p && u in records ==> !Names(records[u], p)
  {
  }

  class Storage {
    var records: map<UserId, Record>
    var files: set<Path>
    var nextPath: Path

    constructor ()
      ensures Valid() && records == map[] && files == {}
    {
      records, files, nextPath := map[], {}, 0;
    }

    ghost predicate Valid()
      reads this
    {
      && (forall p :: p in files ==> p < nextPath)
      && (forall u :: u in records ==> Backed(records[u], files))
      && (forall u, v :: u in records && v in records && u != v ==> ApartFrom(records[u], records[v]))
    }

    /** No record names the file. */
    ghost predicate Unnamed(path: Path)
      reads this
    {
      forall u :: u in records ==> !Names(records[u], path)
    }

    /** Writes a file under a name of its own, or fails and writes nothing. */
    method WriteFile(fails: bool) returns (path: Option<Path>)
      requires Valid()
      modifies this`files, this`nextPath
      ensures Valid()
      ensures if fails then path == None && files == old(files)
              else path == Some(old(nextPath)) && files == old(files) + {old(nextPath)}
      ensures nextPath == if fails then old(nextPath) else old(nextPath) + 1
    {
      if fails {
        return None;
      }
      path := Some(nextPath);
      files := files + {nextPath};
      nextPath := nextPath + 1;
    }

    /** Deletes a file that no record names; a failure is ignored. */
    method DeleteFile(path: Path, fails: bool)
      requires Valid() && Unnamed(path)
      modifies this`files
      ensures Valid()
      ensures files == if fails then old(files) else old(files) - {path}
    {
      if !fails {
        files := files - {path};
        forall u | u in records ensures Backed(records[u], files) {
          assert !Names(records[u], path);
        }
      }
    }

    /** Saves a record whose files all exist and are nobody else's. */
    method SaveRecord(user: UserId, r: Record)
      requires Valid() && Backed(r, files)
      requires forall u :: u in records && u != user ==> ApartFrom(r, records[u]) && ApartFrom(records[u], r)
      modifies this`records
      ensures Valid()
      ensures records == old(records)[user := r]
    {
      records := records[user := r];
    }

    // ---- Submitting

    /** Sorts the required slots into those kept, missing and to be written. */
    method Resolve(required: seq<Slot>, retained: map<Slot, Path>, uploaded: set<Slot>)
      returns (resolved: map<Slot, Path>, missing: seq<Slot>, uploads: seq<Slot>)
      ensures resolved == Kept(required, uploaded, retained)
      ensures missing == Missing(required, uploaded, retained)
      ensures uploads == Uploads(required, uploaded)
    {
      hide Kept, Missing, Uploads;
      resolved, missing, uploads := map[], [], [];
      var k := 0;
      NothingResolved(required[..0], retained, uploaded);
      while k < |required|
        invariant 0 <= k <= |required|
        invariant resolved == Kept(required[..k], uploaded, retained)
        invariant missing == Missing(required[..k], uploaded, retained)
        invariant uploads == Uploads(required[..k], uploaded)
      {
        var slot := required[k];
        ResolveNext(required, k, retained, uploaded);
        if slot in uploaded {
          uploads := uploads + [slot];
        } else if slot in retained {
          resolved := resolved[slot := retained[slot]];
        } else {
          missing := missing + [slot];
        }
        k := k + 1;
      }
      assert required[..|required|] == required;
    }

    /** Writes the new files one after another; if one fails, those already
        written are deleted again. */
    method WriteAll(uploads: seq<Slot>, kept: map<Slot, Path>, failAt: Option<nat>, undeletable: set<Path>)
      returns (resolved: Option<map<Slot, Path>>)
      requires Valid() && Distinct(uploads)
      modifies this`files, this`nextPath
      ensures Valid()
      ensures resolved.None? <==> failAt.Some? && failAt.value < |uploads|
      ensures resolved.Some? ==>
                && resolved.value == Filed(kept, uploads, old(nextPath))
                && files == old(files) + Written(old(nextPath), |uploads|)
      ensures resolved.None? ==> files == old(files) + Written(old(nextPath), failAt.value) * undeletable
    {
      hide Filed, Written, Distinct, ApartFrom, Backed, Names;
      ghost var first := nextPath;
      UnusedUnnamed(records, files, first);
      var paths := kept;
      var written := [];
      var n := 0;
      NothingFiled(kept, uploads[..0], first);
      while n < |uploads|
        invariant 0 <= n <= |uploads| && Valid() && nextPath == first + n
        invariant failAt.Some? ==> n <= failAt.value
        invariant paths == Filed(kept, uploads[..n], first)
        invariant files == old(files) + Written(first, n)
        invariant |written| == n && forall i :: 0 <= i < n ==> written[i] == first + i
      {
        var path := WriteFile(failAt == Some(n));
        if path.None? {
          break;
        }
        FiledNext(kept, uploads, first, n);
        written := written + [path.value];
        paths := paths[uploads[n] := path.value];
        n := n + 1;
      }
      if n < |uploads| {
        LeftOver(old(files), first, written, undeletable);
        DeleteAll(written, undeletable);
        return None;
      }
      assert uploads[..n] == uploads;
      return Some(paths);
    }

    /** Deletes files one after another as far as that works. */
    method DeleteAll(paths: seq<Path>, undeletable: set<Path>)
      requires Valid() && forall i :: 0 <= i < |paths| ==> Unnamed(paths[i])
      modifies this`files
      ensures Valid()
      ensures files == old(files) - set p | p in paths && p !in undeletable
    {
      var k := 0;
      while k < |paths|
        invariant 0 <= k <= |paths| && Valid()
        invariant forall i :: 0 <= i < |paths| ==> Unnamed(paths[i])
        invariant files == old(files) - set p | p in paths[..k] && p !in undeletable
      {
        DeleteFile(paths[k], paths[k] in undeletable);
        assert paths[..k + 1] == paths[..k] + [paths[k]];
        k := k + 1;
      }
      assert paths[..|paths|] == paths;
    }

    /** `failAt` is the upload whose write fails, `saveFails` whether the record
        is refused by the database, `undeletable` the files that cannot be deleted. */
    method SubmitKyc(user: UserId, applicant: Applicant, d: Document, id: string, uploaded: set<Slot>,
                     failAt: Option<nat>, saveFails: bool, undeletable: set<Path>)
      returns (error: Option<KycError>)
      requires Valid()
      modifies this
      ensures Valid()
      ensures var refusal := Refusal(old(records), user, applicant, d, id, uploaded);
              var n := |Uploads(RequiredSlots(d), uploaded)|;
              error == if refusal.Some? then refusal
                       else if failAt.Some? && failAt.value < n then Some(StorageFailed)
                       else if saveFails then Some(SaveFailed)
                       else None
      ensures error.Some? ==> records == old(records)
      ensures error.Some? && !error.value.StorageFailed? && !error.value.SaveFailed? ==> files == old(files)
      ensures error == Some(StorageFailed) ==> files == old(files) + Written(old(nextPath), failAt.value) * undeletable
      ensures error == Some(SaveFailed) ==>
                files == old(files) + Written(old(nextPath), |Uploads(RequiredSlots(d), uploaded)|)
      ensures error.None? ==>
                var paths := NewPaths(old(records), user, d, uploaded, old(nextPath));
                && records == old(records)[user := Record(d, id, paths, UnderReview)]
                && files == old(files) + Written(old(nextPath), |Uploads(RequiredSlots(d), uploaded)|)
                            - set p | p in Superseded(COLUMNS, OldPaths(old(records), user), paths) && p !in undeletable
    {
      hide Written, Filed, Kept, Uploads, Missing, Superseded, Backed, ApartFrom, Names, RequiredSlots, IndexOf;
      var existing := if user in records then Some(records[user]) else None;
      if existing.Some? && existing.value.status == UnderReview {
        return Some(AlreadyUnderReview);
      }
      if existing.Some? && existing.value.status == Approved {
        return Some(AlreadyApproved);
      }
      if applicant.Unknown? {
        return Some(UserNotFound);
      }
      if !applicant.phoneVerified {
        return Some(PhoneUnverified);
      }
      if !applicant.named {
        return Some(NameMissing);
      }
      if TakenByOther(records, user, d, id) {
        return Some(DocumentTaken);
      }
      var required, retained := RequiredSlots(d), Retained(existing, d);
      var kept, missing, uploads := Resolve(required, retained, uploaded);
      if missing != [] {
        return Some(FilesMissing(missing));
      }
      UploadsDistinct(required, uploaded);
      ghost var first := nextPath;
      var resolved := WriteAll(uploads, kept, failAt, undeletable);
      if resolved.None? {
        return Some(StorageFailed);
      }
      var superseded := Superseded(COLUMNS, if existing.Some? then existing.value.paths else map[], resolved.value);
      if saveFails {
        return Some(SaveFailed);
      }
      var record := Record(d, id, resolved.value, UnderReview);
      NewRecordBacked(old(records), user, d, id, uploaded, first, old(files), files);
      SaveRecord(user, record);
      OldFilesUnnamed(old(records), user, record, superseded, records);
      DeleteAll(superseded, undeletable);
      return None;
    }
  }
}
