/**
  The vocabulary of the C03 fixture probe: identities, write requests, the answers a
  transport may give, the call budget, and the specification of a run.

  A transport is a pair of functions of the whole call history.  Quantifying over all such
  functions covers every adaptive transport: whatever it answers may depend on everything
  that was sent and answered before.
 */
module C03Model {
  import opened Wrappers
  import opened Decimals

  type Id = string

  const MAX_ID_LENGTH := 64
  const MAX_WRITE_CALLS := 10
  const MAX_LIST_CALLS := 15
  const MAX_LIST_PAGE_CALLS := 4
  const MAX_READ_CALLS := MAX_LIST_CALLS * MAX_LIST_PAGE_CALLS
  const MAX_TOTAL_CALLS := MAX_WRITE_CALLS + MAX_READ_CALLS

  // ---------------------------------------------------------------- identities

  /** An identity as it arrives: an integer, a text, or something else (a bool, null, ...). */
  datatype RawId = NumberId(number: int) | TextId(text: string) | OtherId

  /** Only a non-zero decimal identity is accepted; text is bounded, an integer is printed. */
  function NormalizeId(raw: RawId): (r: Option<Id>)
    ensures r.Some? ==> Stable(r.value)
  {
    match raw
    case NumberId(n) => if n <= 0 then None else Some(Decimal(n))
    case TextId(s) => if |s| <= MAX_ID_LENGTH && Stable(s) then Some(s) else None
    case OtherId => None
  }

  // ------------------------------------------------------- requests and answers

  datatype Operation = MkdirOp | MoveOp | RenameOp | RecycleOp

  datatype Request =
    | Mkdir(parent: Id, name: string)
    | Move(id: Id, target: Id)
    | Rename(id: Id, name: string)
    | Recycle(id: Id)
  {
    function Op(): Operation {
      match this
      case Mkdir(_, _) => MkdirOp
      case Move(_, _) => MoveOp
      case Rename(_, _) => RenameOp
      case Recycle(_) => RecycleOp
    }
  }

  datatype WriteStatus = Succeeded | Failed | Uncertain

  datatype Receipt = Receipt(status: WriteStatus, fileId: Option<RawId>)
  {
    /** The identity a receipt carries, when it carries an acceptable one. */
    function Identity(): Option<Id> {
      if fileId.None? then None else NormalizeId(fileId.value)
    }
  }

  /** What awaiting a write can end in: cancellation, a timeout, any other exception, a value of
      the wrong type, or a receipt. */
  datatype WriteAnswer = WriteCancelled | WriteTimedOut | WriteRaised | NotAReceipt | Received(receipt: Receipt)

  /** One element of a listing as it arrives; wrongly typed parts are None. */
  datatype RawEntry =
    | NotAnEntry
    | RawEntry(fileId: RawId, parentId: RawId, name: Option<string>, isDirectory: Option<bool>)

  datatype Entry = Entry(fileId: Id, parentId: Id, name: string, isDirectory: bool)

  /** The listing type refuses any other number of page calls when it is built. */
  type PageCalls = n: int | 1 <= n <= MAX_LIST_PAGE_CALLS witness 1

  datatype ListAnswer =
    | ListCancelled
    | ListTimedOut
    | ListRaised
    | NotAListing
    | Listing(entries: seq<RawEntry>, complete: bool, pageCalls: PageCalls)

  datatype Event = Wrote(request: Request, answer: WriteAnswer) | Listed(parent: Id, listing: ListAnswer)

  type History = seq<Event>

  /** Everything the run does not control: the two calls and whether the deadline has passed. */
  datatype Environment = Environment(
    execute: (History, Request) -> WriteAnswer,
    list: (History, Id) -> ListAnswer,
    expired: History -> bool)

  // ------------------------------------------------------------------ listings

  function NormalizeEntry(raw: RawEntry): Option<Entry> {
    if raw.NotAnEntry? || raw.name.None? || raw.isDirectory.None? then None
    else
      var id, parent := NormalizeId(raw.fileId), NormalizeId(raw.parentId);
      if id.None? || parent.None? then None
      else Some(Entry(id.value, parent.value, raw.name.value, raw.isDirectory.value))
  }

  ghost predicate Distinct<T>(s: seq<T>) {
    forall i, j | 0 <= i < j < |s| :: s[i] != s[j]
  }

  /** `entries` is what the raw listing of `parent` means: element by element, all under
      `parent`, none twice. */
  ghost predicate Reads(raw: seq<RawEntry>, parent: Id, entries: seq<Entry>) {
    && |entries| == |raw|
    && (forall i | 0 <= i < |raw| :: NormalizeEntry(raw[i]) == Some(entries[i]))
    && (forall i | 0 <= i < |entries| :: entries[i].parentId == parent)
    && Distinct(entries)
  }

  ghost predicate Readable(raw: seq<RawEntry>, parent: Id) {
    exists entries :: Reads(raw, parent, entries)
  }

  lemma ReadsIsUnique(raw: seq<RawEntry>, parent: Id, a: seq<Entry>, b: seq<Entry>)
    requires Reads(raw, parent, a) && Reads(raw, parent, b)
    ensures a == b
  {
    forall i | 0 <= i < |raw| ensures a[i] == b[i] {
      assert NormalizeEntry(raw[i]) == Some(a[i]);
    }
  }

  /** The set of entries a readable listing shows. */
  ghost function Shown(raw: seq<RawEntry>, parent: Id): set<Entry>
    requires Readable(raw, parent)
  {
    var entries :| Reads(raw, parent, entries);
    set e | e in entries
  }

  lemma ShownIs(raw: seq<RawEntry>, parent: Id, entries: seq<Entry>)
    requires Reads(raw, parent, entries)
    ensures Readable(raw, parent) && Shown(raw, parent) == set e | e in entries
  {
    var witnessed :| Reads(raw, parent, witnessed) && Shown(raw, parent) == set e | e in witnessed;
    ReadsIsUnique(raw, parent, entries, witnessed);
  }

  // -------------------------------------------------------------------- budget

  datatype Budget = Budget(
    maxWriteCalls: int,
    maxReadCalls: int,
    maxListCalls: int,
    maxListPageCalls: int,
    maxTotalCalls: int,
    maxConflictObservationCalls: int,
    maxBatchObservationCalls: int)
  {
    predicate Valid() {
      && 0 < maxWriteCalls <= MAX_WRITE_CALLS
      && 0 < maxReadCalls <= MAX_READ_CALLS
      && 0 < maxListCalls <= MAX_LIST_CALLS
      && 0 < maxListPageCalls <= MAX_LIST_PAGE_CALLS
      && 0 < maxTotalCalls <= MAX_TOTAL_CALLS
      && maxConflictObservationCalls == 0
      && maxBatchObservationCalls == 0
    }
  }

  const DEFAULT_BUDGET := Budget(
    MAX_WRITE_CALLS, MAX_READ_CALLS, MAX_LIST_CALLS, MAX_LIST_PAGE_CALLS, MAX_TOTAL_CALLS, 0, 0)

  /** The requests a history sent, in order. */
  function Writes(h: History): seq<Request> {
    if h == [] then []
    else
      var last := h[|h| - 1];
      Writes(h[..|h| - 1]) + (if last.Wrote? then [last.request] else [])
  }

  function ListCount(h: History): nat {
    if h == [] then 0
    else ListCount(h[..|h| - 1]) + (if h[|h| - 1].Listed? then 1 else 0)
  }

  /** Page calls a history is charged for: a listing that came back with no page count is
      charged the full reservation. */
  function PageCount(h: History): nat {
    if h == [] then 0
    else
      var last := h[|h| - 1];
      PageCount(h[..|h| - 1]) +
      (if last.Wrote? then 0 else if last.listing.Listing? then last.listing.pageCalls else MAX_LIST_PAGE_CALLS)
  }

  lemma {:induction false} PagesWithinReservation(h: History)
    ensures PageCount(h) <= MAX_LIST_PAGE_CALLS * ListCount(h)
  {
    if h != [] {
      PagesWithinReservation(h[..|h| - 1]);
    }
  }

  // --------------------------------------------- one call, and one verified edit

  predicate CanWrite(b: Budget, h: History) {
    && |Writes(h)| < b.maxWriteCalls
    && |Writes(h)| + PageCount(h) < b.maxTotalCalls
  }

  predicate CanList(b: Budget, h: History) {
    && ListCount(h) < b.maxListCalls
    && PageCount(h) + MAX_LIST_PAGE_CALLS <= b.maxReadCalls
    && |Writes(h)| + PageCount(h) + MAX_LIST_PAGE_CALLS <= b.maxTotalCalls
  }

  function AfterWrite(env: Environment, h: History, request: Request): History {
    h + [Wrote(request, env.execute(h, request))]
  }

  function AfterList(env: Environment, h: History, parent: Id): History {
    h + [Listed(parent, env.list(h, parent))]
  }

  lemma CountsAfter(env: Environment, h: History, request: Request, parent: Id)
    ensures Writes(AfterWrite(env, h, request)) == Writes(h) + [request]
    ensures ListCount(AfterWrite(env, h, request)) == ListCount(h)
    ensures PageCount(AfterWrite(env, h, request)) == PageCount(h)
    ensures Writes(AfterList(env, h, parent)) == Writes(h)
    ensures ListCount(AfterList(env, h, parent)) == ListCount(h) + 1
    ensures PageCount(AfterList(env, h, parent)) == PageCount(h) +
      (if env.list(h, parent).Listing? then env.list(h, parent).pageCalls else MAX_LIST_PAGE_CALLS)
  {
    assert AfterWrite(env, h, request)[..|h|] == h;
    assert AfterList(env, h, parent)[..|h|] == h;
  }

  /** Listing `parent` now yields a complete, readable listing within the budget. */
  ghost predicate ListOk(env: Environment, b: Budget, h: History, parent: Id) {
    && CanList(b, h)
    && !env.expired(h)
    && env.list(h, parent).Listing?
    && env.list(h, parent).pageCalls <= b.maxListPageCalls
    && env.list(h, parent).complete
  }

  ghost predicate SeesOk(env: Environment, b: Budget, h: History, entry: Entry) {
    && ListOk(env, b, h, entry.parentId)
    && Readable(env.list(h, entry.parentId).entries, entry.parentId)
    && entry in Shown(env.list(h, entry.parentId).entries, entry.parentId)
  }

  ghost predicate WriteOk(env: Environment, b: Budget, h: History, request: Request) {
    && CanWrite(b, h)
    && !env.expired(h)
    && env.execute(h, request).Received?
    && env.execute(h, request).receipt.status == Succeeded
  }

  /** One edit of the lifecycle and the directory entry that must be seen after it. */
  datatype Edit = Edit(request: Request, entry: Entry)

  ghost predicate EditOk(env: Environment, b: Budget, h: History, edit: Edit) {
    && WriteOk(env, b, h, edit.request)
    && (edit.request.Mkdir? ==> env.execute(h, edit.request).receipt.Identity() == Some(edit.entry.fileId))
    && SeesOk(env, b, AfterWrite(env, h, edit.request), edit.entry)
  }

  function AfterEdit(env: Environment, h: History, edit: Edit): History {
    AfterList(env, AfterWrite(env, h, edit.request), edit.entry.parentId)
  }

  // --------------------------------------------------------------- the lifecycle

  /** The directories of one fixture: where it lives and the identities its mkdirs returned. */
  datatype Fixture = Fixture(parent: Id, rootName: string, root: Id, source: Id, quarantine: Id, artifact: Id)

  function Folder(id: Id, parent: Id, name: string): Entry {
    Entry(id, parent, name, true)
  }

  const EDITS := 9

  /** The nine edits: four directories, then isolate, quarantine, mark, restore, unmark. */
  function EditAt(f: Fixture, k: nat): Edit
    requires k < EDITS
  {
    if k == 0 then Edit(Mkdir(f.parent, f.rootName), Folder(f.root, f.parent, f.rootName))
    else if k == 1 then Edit(Mkdir(f.root, "source"), Folder(f.source, f.root, "source"))
    else if k == 2 then Edit(Mkdir(f.root, "quarantine"), Folder(f.quarantine, f.root, "quarantine"))
    else if k == 3 then Edit(Mkdir(f.root, "artifact"), Folder(f.artifact, f.root, "artifact"))
    else if k == 4 then Edit(Rename(f.source, "source-isolated"), Folder(f.source, f.root, "source-isolated"))
    else if k == 5 then Edit(Move(f.source, f.quarantine), Folder(f.source, f.quarantine, "source-isolated"))
    else if k == 6 then Edit(Rename(f.source, "source-quarantined"), Folder(f.source, f.quarantine, "source-quarantined"))
    else if k == 7 then Edit(Move(f.source, f.root), Folder(f.source, f.root, "source-quarantined"))
    else Edit(Rename(f.source, "source"), Folder(f.source, f.root, "source"))
  }

  /** The first `k` requests of the write plan: the nine edits, then the recycle of the root. */
  function Plan(f: Fixture, k: nat): (plan: seq<Request>)
    requires k <= EDITS + 1
    ensures |plan| == k
  {
    if k == 0 then []
    else Plan(f, k - 1) + [if k <= EDITS then EditAt(f, k - 1).request else Recycle(f.root)]
  }

  /** The history once the first `k` edits were sent and looked at. */
  function EditHistory(env: Environment, f: Fixture, k: nat): History
    requires k <= EDITS
  {
    if k == 0 then [] else AfterEdit(env, EditHistory(env, f, k - 1), EditAt(f, k - 1))
  }

  /** The first `k` edits were all accepted and confirmed. */
  ghost predicate EditsOk(env: Environment, b: Budget, f: Fixture, k: nat)
    requires k <= EDITS
  {
    k == 0 || (EditsOk(env, b, f, k - 1) && EditOk(env, b, EditHistory(env, f, k - 1), EditAt(f, k - 1)))
  }

  function IdentityOf(answer: WriteAnswer): Id {
    if answer.Received? && answer.receipt.Identity().Some? then answer.receipt.Identity().value else ""
  }

  /** The fixture an environment leads to: each identity is the one its own mkdir returned. */
  function FixtureOf(env: Environment, parent: Id, rootName: string): Fixture {
    var h0: History := [];
    var mkRoot := Mkdir(parent, rootName);
    var root := IdentityOf(env.execute(h0, mkRoot));
    var h1 := AfterList(env, AfterWrite(env, h0, mkRoot), parent);
    var source := IdentityOf(env.execute(h1, Mkdir(root, "source")));
    var h2 := AfterList(env, AfterWrite(env, h1, Mkdir(root, "source")), root);
    var quarantine := IdentityOf(env.execute(h2, Mkdir(root, "quarantine")));
    var h3 := AfterList(env, AfterWrite(env, h2, Mkdir(root, "quarantine")), root);
    var artifact := IdentityOf(env.execute(h3, Mkdir(root, "artifact")));
    Fixture(parent, rootName, root, source, quarantine, artifact)
  }

  /** The edit a mkdir amounts to, given the identity its answer carries. */
  function MkdirEdit(env: Environment, h: History, parent: Id, name: string): Edit {
    Edit(Mkdir(parent, name), Folder(IdentityOf(env.execute(h, Mkdir(parent, name))), parent, name))
  }

  /** The identities of the fixture are the ones its mkdirs return where the plan sends them. */
  lemma FixtureEdits(env: Environment, parent: Id, rootName: string)
    ensures
      var f := FixtureOf(env, parent, rootName);
      && f.parent == parent && f.rootName == rootName
      && EditAt(f, 0) == MkdirEdit(env, EditHistory(env, f, 0), parent, rootName)
      && EditAt(f, 1) == MkdirEdit(env, EditHistory(env, f, 1), f.root, "source")
      && EditAt(f, 2) == MkdirEdit(env, EditHistory(env, f, 2), f.root, "quarantine")
      && EditAt(f, 3) == MkdirEdit(env, EditHistory(env, f, 3), f.root, "artifact")
      && EditAt(f, 0).entry.fileId == f.root && EditAt(f, 1).entry.fileId == f.source
      && EditAt(f, 2).entry.fileId == f.quarantine && EditAt(f, 3).entry.fileId == f.artifact
  {
    var f := FixtureOf(env, parent, rootName);
    assert EditHistory(env, f, 1) == AfterEdit(env, EditHistory(env, f, 0), EditAt(f, 0));
    assert EditHistory(env, f, 2) == AfterEdit(env, EditHistory(env, f, 1), EditAt(f, 1));
    assert EditHistory(env, f, 3) == AfterEdit(env, EditHistory(env, f, 2), EditAt(f, 2));
  }

  lemma {:induction false} WritesOfEdits(env: Environment, f: Fixture, k: nat)
    requires k <= EDITS
    ensures Writes(EditHistory(env, f, k)) == Plan(f, k)
    ensures ListCount(EditHistory(env, f, k)) == k
  {
    if k > 0 {
      WritesOfEdits(env, f, k - 1);
      var before, edit := EditHistory(env, f, k - 1), EditAt(f, k - 1);
      CountsAfter(env, before, edit.request, "");
      CountsAfter(env, AfterWrite(env, before, edit.request), edit.request, edit.entry.parentId);
    }
  }

  lemma {:induction false} EarlierEditsOk(env: Environment, b: Budget, f: Fixture, k: nat, n: nat)
    requires k <= n <= EDITS && EditsOk(env, b, f, n)
    ensures EditsOk(env, b, f, k)
    ensures k < n ==> EditOk(env, b, EditHistory(env, f, k), EditAt(f, k))
    decreases n
  {
    hide EditOk, AfterEdit, EditAt;
    if k < n - 1 {
      EarlierEditsOk(env, b, f, k, n - 1);
    }
  }

  // ------------------------------------------------------------ scope and cleanup

  /** The manifest the run keeps: identity to (parent, name), in insertion order. */
  datatype Manifest = Manifest(order: seq<Id>, at: map<Id, (Id, string)>)
  {
    ghost predicate Valid() {
      Distinct(order) && (forall id :: id in order <==> id in at)
    }

    /** Assigning a key keeps its place if it is there and appends it otherwise. */
    function Put(id: Id, parent: Id, name: string): (m: Manifest)
      requires Valid()
      ensures m.Valid() && m.at == at[id := (parent, name)]
    {
      Manifest(if id in at then order else order + [id], at[id := (parent, name)])
    }

    function Children(parent: Id): set<Entry> {
      set id | id in at && at[id].0 == parent :: Folder(id, at[id].0, at[id].1)
    }
  }

  function ManifestOf(f: Fixture): (m: Manifest)
    ensures m.Valid()
    ensures m.at == map[f.root := (f.parent, f.rootName)][f.source := (f.root, "source")]
                      [f.quarantine := (f.root, "quarantine")][f.artifact := (f.root, "artifact")]
  {
    Manifest([], map[])
      .Put(f.root, f.parent, f.rootName)
      .Put(f.source, f.root, "source")
      .Put(f.quarantine, f.root, "quarantine")
      .Put(f.artifact, f.root, "artifact")
  }

  function ScopeHistory(env: Environment, h: History, m: Manifest, i: nat): History
    requires i <= |m.order|
  {
    if i == 0 then h
    else
      var before := ScopeHistory(env, h, m, i - 1);
      AfterList(env, before, m.order[i - 1])
  }

  /** The listing of `id` now shows exactly the manifest's children of `id`. */
  ghost predicate ShowsExactly(env: Environment, b: Budget, h: History, m: Manifest, id: Id) {
    && ListOk(env, b, h, id)
    && Readable(env.list(h, id).entries, id)
    && Shown(env.list(h, id).entries, id) == m.Children(id)
  }

  /** The first `i` managed directories were listed and each showed exactly its manifest. */
  ghost predicate ScopeOk(env: Environment, b: Budget, h: History, m: Manifest, i: nat)
    requires i <= |m.order|
  {
    i == 0
    || (&& ScopeOk(env, b, h, m, i - 1)
        && ShowsExactly(env, b, ScopeHistory(env, h, m, i - 1), m, m.order[i - 1]))
  }

  lemma {:induction false} EarlierScopeOk(env: Environment, b: Budget, h: History, m: Manifest, i: nat, n: nat)
    requires i <= n <= |m.order| && ScopeOk(env, b, h, m, n)
    ensures ScopeOk(env, b, h, m, i)
    ensures i < n ==> ShowsExactly(env, b, ScopeHistory(env, h, m, i), m, m.order[i])
    decreases n
  {
    hide ShowsExactly, AfterList;
    if i < n - 1 {
      EarlierScopeOk(env, b, h, m, i, n - 1);
    }
  }

  lemma {:induction false} CountsOfScope(env: Environment, h: History, m: Manifest, i: nat)
    requires i <= |m.order|
    ensures Writes(ScopeHistory(env, h, m, i)) == Writes(h)
    ensures ListCount(ScopeHistory(env, h, m, i)) == ListCount(h) + i
  {
    if i > 0 {
      CountsOfScope(env, h, m, i - 1);
      CountsAfter(env, ScopeHistory(env, h, m, i - 1), Recycle(""), m.order[i - 1]);
    }
  }

  /** The history right after the root was looked at again, before the scope check. */
  function RootCheckHistory(env: Environment, f: Fixture): History {
    AfterList(env, EditHistory(env, f, EDITS), f.parent)
  }

  /** The history right before the recycle is sent. */
  function RecycleHistory(env: Environment, f: Fixture): History {
    var m := ManifestOf(f);
    ScopeHistory(env, RootCheckHistory(env, f), m, |m.order|)
  }

  /** All that must have been observed before the one destructive call may be sent. */
  ghost predicate Confirmed(env: Environment, b: Budget, f: Fixture) {
    var m := ManifestOf(f);
    && EditsOk(env, b, f, EDITS)
    && SeesOk(env, b, EditHistory(env, f, EDITS), Folder(f.root, f.parent, f.rootName))
    && ScopeOk(env, b, RootCheckHistory(env, f), m, |m.order|)
  }

  /** The root is gone from a complete listing of its parent. */
  ghost predicate GoneOk(env: Environment, b: Budget, h: History, parent: Id, root: Id) {
    && ListOk(env, b, h, parent)
    && Readable(env.list(h, parent).entries, parent)
    && forall e | e in Shown(env.list(h, parent).entries, parent) :: e.fileId != root
  }

  /** Every answer along the lifecycle is good. */
  ghost predicate RunOk(env: Environment, b: Budget, f: Fixture) {
    && Confirmed(env, b, f)
    && WriteOk(env, b, RecycleHistory(env, f), Recycle(f.root))
    && GoneOk(env, b, AfterWrite(env, RecycleHistory(env, f), Recycle(f.root)), f.parent, f.root)
  }

  function RunHistory(env: Environment, f: Fixture): History {
    AfterList(env, AfterWrite(env, RecycleHistory(env, f), Recycle(f.root)), f.parent)
  }
}
