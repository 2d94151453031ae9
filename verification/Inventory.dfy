/**
  The recursive read-only inventory: a breadth-first walk over paged directories through a
  gateway that only lists what it was given or has itself seen.  Any remote may answer
  anything; the walk ends, and it succeeds exactly when the remote can be covered.
 */
module Inventory {
  import opened Wrappers
  import opened Decimals
  import opened LibraryScan
  import opened Sets

  type Id = s: string | Stable(s) witness "1"

  function ObjectId(e: Entry): Option<string> {
    if e.isDirectory then e.directoryId else e.fileId
  }

  /** A record that is normalised at all has a stable id. */
  type Item = e: Entry | ObjectId(e).Some? && Stable(ObjectId(e).value)
    witness Entry(None, Some("1"), false, "")

  function IdOf(e: Item): Id {
    ObjectId(e).value
  }

  /** A record is normalised or refused; the numbers are there and integers, or not. */
  datatype Response =
    | CallFailed
    | Response(records: Option<seq<Option<Item>>>, offset: Option<int>, limit: Option<int>, count: Option<int>)

  /** Every directory and offset is asked for at most once. */
  type Remote = (Id, nat) -> Response

  datatype Refusal =
    | DirectoryIdUnverified | ScopeUnverified | PageInvalid | PageSizeUnverified
    | RequestFailed | PagesUnverified | EntryUnverified

  datatype Answer = Listed(page: DirectoryPage) | Refused(refusal: Refusal)

  const PAGE_SIZE := 1
  const MAX_PAGES := 100000

  function Parse(response: Response, page: nat): Answer
    requires page >= 1
  {
    if response.CallFailed? then Refused(RequestFailed)
    else
      var offset := page - 1;
      if || response.records.None? || response.offset != Some(offset) || response.limit != Some(PAGE_SIZE)
         || response.count.None? || response.count.value < offset + |response.records.value|
         || |response.records.value| > PAGE_SIZE
      then Refused(PagesUnverified)
      else if response.records.value == [] && response.count.value > offset then Refused(PagesUnverified)
      else if None in response.records.value then Refused(EntryUnverified)
      else
        var items := if response.records.value == [] then [] else [response.records.value[0].value];
        var total := response.count.value;
        var terminal := offset + |items| == total;
        Listed(PageFields(items, page, None, Some(total), if terminal then Some(true) else None, Complete, None,
                          Some(!terminal), if terminal then None else Some(page + 1), Some(terminal)))
  }

  // ------------------------------------------------------------- what the remote shows

  function At(remote: Remote, d: Id, p: nat): Answer
    requires p >= 1
  {
    Parse(remote(d, p - 1), p)
  }

  function ShownAt(remote: Remote, d: Id, p: nat): Option<Item>
    requires p >= 1
  {
    if At(remote, d, p).Refused? || At(remote, d, p).page.items == [] then None
    else remote(d, p - 1).records.value[0]
  }

  /** A page shows at most one entry, says truly whether more follow, and leads on only when it
      shows one. */
  lemma PagesAreSmall(remote: Remote, d: Id, p: nat)
    requires p >= 1 && At(remote, d, p).Listed?
    ensures
      var page := At(remote, d, p).page;
      var shown := ShownAt(remote, d, p);
      && page.items == (if shown.None? then [] else [shown.value]) && page.page == p && page.state.Complete?
      && page.pageCount.None? && page.terminal.Some? && page.hasMore == Some(!page.terminal.value)
      && page.scanComplete != Some(false)
      && (page.terminal == Some(false) ==> shown.Some?)
  {
  }

  predicate LeadsOn(remote: Remote, d: Id, p: nat)
    requires p >= 1
  {
    At(remote, d, p).Listed? && At(remote, d, p).page.terminal == Some(false)
  }

  predicate Ends(remote: Remote, d: Id, p: nat)
    requires p >= 1
  {
    At(remote, d, p).Listed? && At(remote, d, p).page.terminal == Some(true)
  }

  /** Pages 1 to k - 1 lead to page k. */
  predicate Reaches(remote: Remote, d: Id, k: nat) {
    k >= 1 && forall p | 1 <= p < k :: LeadsOn(remote, d, p)
  }

  /** The listing of d is its pages 1 to k. */
  predicate Reads(remote: Remote, d: Id, k: nat) {
    Reaches(remote, d, k) && Ends(remote, d, k)
  }

  predicate Shows(remote: Remote, d: Id, p: nat, id: Id)
    requires p >= 1
  {
    ShownAt(remote, d, p).Some? && IdOf(ShownAt(remote, d, p).value) == id
  }

  datatype Listing = Listing(directory: Id, pages: nat)

  function IdsIn(remote: Remote, d: Id, k: nat): set<Id> {
    if k == 0 then {}
    else IdsIn(remote, d, k - 1) + (if ShownAt(remote, d, k).Some? then {IdOf(ShownAt(remote, d, k).value)} else {})
  }

  function DirectoryIdsIn(remote: Remote, d: Id, k: nat): set<Id> {
    if k == 0 then {}
    else
      var shown := ShownAt(remote, d, k);
      DirectoryIdsIn(remote, d, k - 1) + (if shown.Some? && shown.value.isDirectory then {IdOf(shown.value)} else {})
  }

  function ObjectIds(remote: Remote, ls: seq<Listing>): set<Id> {
    if ls == [] then {}
    else var last := ls[|ls| - 1]; ObjectIds(remote, ls[..|ls| - 1]) + IdsIn(remote, last.directory, last.pages)
  }

  function DirectoryIds(remote: Remote, ls: seq<Listing>): set<Id> {
    if ls == [] then {}
    else var last := ls[|ls| - 1]; DirectoryIds(remote, ls[..|ls| - 1]) + DirectoryIdsIn(remote, last.directory, last.pages)
  }

  function PagesOf(ls: seq<Listing>): nat {
    if ls == [] then 0 else PagesOf(ls[..|ls| - 1]) + ls[|ls| - 1].pages
  }

  function Directories(ls: seq<Listing>): set<Id> {
    set l | l in ls :: l.directory
  }

  /** No id is shown at two places. */
  ghost predicate Apart(remote: Remote, ls: seq<Listing>) {
    forall i, j, p: nat, q: nat, id: Id |
      && 0 <= i < |ls| && 0 <= j < |ls| && 1 <= p <= ls[i].pages && 1 <= q <= ls[j].pages
      && Shows(remote, ls[i].directory, p, id) && Shows(remote, ls[j].directory, q, id) ::
      i == j && p == q
  }

  predicate Once(ls: seq<Listing>) {
    forall i, j | 0 <= i < j < |ls| :: ls[i].directory != ls[j].directory
  }

  /** The listings are whole, each directory's once, hold the root and every directory they
      show, show nothing twice, and fit the page limit. */
  ghost predicate Covers(remote: Remote, root: Id, ls: seq<Listing>) {
    && (forall l | l in ls :: Reads(remote, l.directory, l.pages))
    && Once(ls) && Apart(remote, ls)
    && root in Directories(ls) && DirectoryIds(remote, ls) <= Directories(ls)
    && PagesOf(ls) <= MAX_PAGES
  }

  /** `ds` holds the root and every directory shown on a page that can be reached from it. */
  ghost predicate Closed(remote: Remote, root: Id, ds: set<Id>) {
    && root in ds
    && forall d, p: nat | d in ds && Reaches(remote, d, p) && ShownAt(remote, d, p).Some? && ShownAt(remote, d, p).value.isDirectory ::
         IdOf(ShownAt(remote, d, p).value) in ds
  }

  /** Every closed set holds these directories: they are reachable. */
  ghost predicate Reachable(remote: Remote, root: Id, ds: set<Id>) {
    forall closed: set<Id> | Closed(remote, root, closed) :: ds <= closed
  }

  // ----------------------------------------------------------------- about listings

  lemma {:induction false} FindIn(remote: Remote, d: Id, k: nat, id: Id) returns (p: nat)
    requires id in IdsIn(remote, d, k)
    ensures 1 <= p <= k && Shows(remote, d, p, id)
  {
    if Shows(remote, d, k, id) {
      p := k;
    } else {
      p := FindIn(remote, d, k - 1, id);
    }
  }

  lemma {:induction false} Find(remote: Remote, ls: seq<Listing>, id: Id) returns (i: nat, p: nat)
    requires id in ObjectIds(remote, ls)
    ensures i < |ls| && 1 <= p <= ls[i].pages && Shows(remote, ls[i].directory, p, id)
  {
    var last := ls[|ls| - 1];
    if id in IdsIn(remote, last.directory, last.pages) {
      i := |ls| - 1;
      p := FindIn(remote, last.directory, last.pages, id);
    } else {
      i, p := Find(remote, ls[..|ls| - 1], id);
    }
  }

  lemma {:induction false} ShownIsIn(remote: Remote, d: Id, k: nat, p: nat)
    requires 1 <= p <= k && ShownAt(remote, d, p).Some?
    ensures IdOf(ShownAt(remote, d, p).value) in IdsIn(remote, d, k)
    ensures ShownAt(remote, d, p).value.isDirectory ==> IdOf(ShownAt(remote, d, p).value) in DirectoryIdsIn(remote, d, k)
  {
    if p < k {
      ShownIsIn(remote, d, k - 1, p);
    }
  }

  lemma {:induction false} ListedIsIn(remote: Remote, ls: seq<Listing>, i: nat)
    requires i < |ls|
    ensures IdsIn(remote, ls[i].directory, ls[i].pages) <= ObjectIds(remote, ls)
    ensures DirectoryIdsIn(remote, ls[i].directory, ls[i].pages) <= DirectoryIds(remote, ls)
  {
    if i < |ls| - 1 {
      ListedIsIn(remote, ls[..|ls| - 1], i);
    }
  }

  lemma WholeListingIsLongest(remote: Remote, d: Id, k: nat, n: nat)
    requires Reaches(remote, d, k) && Reads(remote, d, n)
    ensures k <= n
  {
    assert n < k ==> LeadsOn(remote, d, n);
  }

  lemma CoversAreClosed(remote: Remote, root: Id, cs: seq<Listing>)
    requires Covers(remote, root, cs)
    ensures Closed(remote, root, Directories(cs))
  {
    hide Apart, ShownAt, LeadsOn, Ends;
    forall d, p: nat | d in Directories(cs) && Reaches(remote, d, p) && ShownAt(remote, d, p).Some? && ShownAt(remote, d, p).value.isDirectory
      ensures IdOf(ShownAt(remote, d, p).value) in Directories(cs)
    {
      var i: nat :| i < |cs| && cs[i].directory == d;
      assert cs[i] in cs;
      WholeListingIsLongest(remote, d, p, cs[i].pages);
      ShownIsIn(remote, d, cs[i].pages, p);
      ListedIsIn(remote, cs, i);
    }
  }

  lemma {:induction false} PagesWithout(cs: seq<Listing>, i: nat)
    requires i < |cs|
    ensures PagesOf(cs) == PagesOf(cs[..i] + cs[i + 1..]) + cs[i].pages
  {
    var rest := cs[..i] + cs[i + 1..];
    if i == |cs| - 1 {
      assert rest == cs[..i];
    } else {
      PagesWithout(cs[..|cs| - 1], i);
      assert rest[..|rest| - 1] == cs[..|cs| - 1][..i] + cs[..|cs| - 1][i + 1..];
      assert rest[|rest| - 1] == cs[|cs| - 1];
    }
  }

  ghost predicate Within(ls: seq<Listing>, cs: seq<Listing>) {
    forall l | l in ls :: exists c :: c in cs && c.directory == l.directory && l.pages <= c.pages
  }

  /** Listings of different directories that are parts of `cs` have no more pages together. */
  lemma {:induction false} PartsHaveFewerPages(ls: seq<Listing>, cs: seq<Listing>)
    requires Once(ls) && Within(ls, cs)
    ensures PagesOf(ls) <= PagesOf(cs)
  {
    if ls != [] {
      var last := ls[|ls| - 1];
      assert last in ls;
      var i: nat :| i < |cs| && cs[i].directory == last.directory && last.pages <= cs[i].pages;
      var rest := cs[..i] + cs[i + 1..];
      forall l | l in ls[..|ls| - 1] ensures exists c :: c in rest && c.directory == l.directory && l.pages <= c.pages {
        assert l in ls;
        var j: nat :| j < |cs| && cs[j].directory == l.directory && l.pages <= cs[j].pages;
        assert cs[j] in rest by {
          assert j < i ==> rest[j] == cs[j];
          assert j > i ==> rest[j - 1] == cs[j];
        }
      }
      PartsHaveFewerPages(ls[..|ls| - 1], rest);
      PagesWithout(cs, i);
    }
  }

  // ------------------------------------------------------------------------ the gateway

  /** Lists the directories it was authorised for and those its own listings have shown. */
  class Gateway {
    const remote: Remote
    const authorized: set<Id>
    var observedDirectories: map<Id, Entry>
    var observedFiles: map<Id, Entry>
    ghost var asked: seq<(Id, nat)>

    constructor (remote: Remote, authorized: set<Id>)
      ensures this.remote == remote && this.authorized == authorized
      ensures observedDirectories == map[] && observedFiles == map[] && asked == []
    {
      this.remote, this.authorized := remote, authorized;
      observedDirectories, observedFiles, asked := map[], map[], [];
    }

    predicate InScope(id: Id)
      reads `observedDirectories
    {
      id in authorized || id in observedDirectories
    }

    /** The remote was only ever asked for directories in scope. */
    ghost predicate StayedInScope()
      reads `observedDirectories, `asked
    {
      forall call | call in asked :: InScope(call.0)
    }

    /** One page, or a refusal; the scope grows by exactly what the page shows. */
    method ListDirectory(directory: string, page: int, pageSize: int) returns (answer: Answer)
      requires StayedInScope()
      modifies this
      ensures StayedInScope()
      ensures old(observedDirectories.Keys) <= observedDirectories.Keys
      ensures !Stable(directory) ==> answer == Refused(DirectoryIdUnverified)
      ensures Stable(directory) && !old(InScope(directory)) ==> answer == Refused(ScopeUnverified)
      ensures Stable(directory) && old(InScope(directory)) && page < 1 ==> answer == Refused(PageInvalid)
      ensures Stable(directory) && old(InScope(directory)) && page >= 1 && pageSize != PAGE_SIZE ==>
        answer == Refused(PageSizeUnverified)
      ensures Stable(directory) && old(InScope(directory)) && page >= 1 && pageSize == PAGE_SIZE ==>
        && answer == At(remote, directory, page)
        && asked == old(asked) + [(directory, page - 1)]
        && var shown := ShownAt(remote, directory, page);
        && (shown.None? ==> observedDirectories == old(observedDirectories) && observedFiles == old(observedFiles))
        && (shown.Some? ==>
              var id := IdOf(shown.value);
              if shown.value.isDirectory
              then observedDirectories == old(observedDirectories)[id := shown.value] && observedFiles == old(observedFiles)
              else observedFiles == old(observedFiles)[id := shown.value] && observedDirectories == old(observedDirectories))
      ensures answer.Refused? ==> observedDirectories == old(observedDirectories) && observedFiles == old(observedFiles)
      ensures answer.Refused? && answer.refusal !in {RequestFailed, PagesUnverified, EntryUnverified} ==> asked == old(asked)
    {
      if !Stable(directory) {
        return Refused(DirectoryIdUnverified);
      }
      if !InScope(directory) {
        return Refused(ScopeUnverified);
      }
      if page < 1 {
        return Refused(PageInvalid);
      }
      if pageSize != PAGE_SIZE {
        return Refused(PageSizeUnverified);
      }
      asked := asked + [(directory, page - 1)];
      answer := Parse(remote(directory, page - 1), page);
      if answer.Listed? {
        PagesAreSmall(remote, directory, page);
        for i := 0 to |answer.page.items|
          invariant |answer.page.items| <= 1 && StayedInScope() && asked == old(asked) + [(directory, page - 1)]
          invariant old(observedDirectories.Keys) <= observedDirectories.Keys
          invariant i == 0 ==> observedDirectories == old(observedDirectories) && observedFiles == old(observedFiles)
          invariant i == 1 ==>
            var item: Item := ShownAt(remote, directory, page).value;
            if item.isDirectory
            then observedDirectories == old(observedDirectories)[IdOf(item) := item] && observedFiles == old(observedFiles)
            else observedFiles == old(observedFiles)[IdOf(item) := item] && observedDirectories == old(observedDirectories)
        {
          var entry := answer.page.items[i];
          if entry.isDirectory && entry.directoryId.Some? {
            observedDirectories := observedDirectories[entry.directoryId.value := entry];
          } else if entry.fileId.Some? {
            observedFiles := observedFiles[entry.fileId.value := entry];
          }
        }
      }
    }
  }

  // --------------------------------------------------------------------------- the walk

  datatype Failure = PaginationLimit | GatewayRefused(refusal: Refusal) | PaginationUnverified | IdentityUnverified

  datatype Outcome =
    | Inventory(directories: nat, files: nat, uniqueObjectIds: nat, directoriesScanned: nat, pagesRead: nat)
    | Aborted(failure: Failure)

  datatype Tally = Tally(queue: seq<Id>, objectIds: set<Id>, directories: nat, files: nat, pages: nat)

  /** The counters are those of the listings read so far, the last perhaps in part. */
  ghost predicate Counts(remote: Remote, ls: seq<Listing>, t: Tally) {
    && t.objectIds == ObjectIds(remote, ls)
    && t.directories == |DirectoryIds(remote, ls)|
    && t.directories + t.files == |t.objectIds|
    && t.pages == PagesOf(ls) <= MAX_PAGES
    && Apart(remote, ls)
  }

  /** Listed or waiting to be. */
  function Known(ls: seq<Listing>, t: Tally): set<Id> {
    Directories(ls) + set id | id in t.queue
  }

  ghost predicate Pursues(remote: Remote, root: Id, ls: seq<Listing>, t: Tally) {
    && root in Known(ls, t) && DirectoryIds(remote, ls) <= Known(ls, t)
    && Reachable(remote, root, Known(ls, t))
  }

  ghost predicate Walking(remote: Remote, root: Id, done: seq<Listing>, d: Id, k: nat) {
    && k >= 1 && (forall l | l in done :: Reads(remote, l.directory, l.pages))
    && Reaches(remote, d, k) && Once(done) && d !in Directories(done)
    && Reachable(remote, root, Directories(done) + {d})
  }

  /** Why the walk stops at page k of d. */
  ghost predicate Stuck(remote: Remote, root: Id, done: seq<Listing>, d: Id, k: nat, failure: Failure) {
    && Walking(remote, root, done, d, k)
    && match failure
       case PaginationLimit => PagesOf(done) + k > MAX_PAGES
       case GatewayRefused(refusal) => At(remote, d, k) == Refused(refusal)
       case IdentityUnverified =>
         ShownAt(remote, d, k).Some? && IdOf(ShownAt(remote, d, k).value) in ObjectIds(remote, done + [Listing(d, k - 1)])
       case PaginationUnverified => false
  }

  lemma LastListing(remote: Remote, done: seq<Listing>, l: Listing)
    ensures ObjectIds(remote, done + [l]) == ObjectIds(remote, done) + IdsIn(remote, l.directory, l.pages)
    ensures DirectoryIds(remote, done + [l]) == DirectoryIds(remote, done) + DirectoryIdsIn(remote, l.directory, l.pages)
    ensures PagesOf(done + [l]) == PagesOf(done) + l.pages
    ensures Directories(done + [l]) == Directories(done) + {l.directory}
  {
    assert (done + [l])[..|done|] == done;
    assert l in done + [l];
    forall id | id in Directories(done) ensures id in Directories(done + [l]) {
      var m :| m in done && m.directory == id;
      assert m in done + [l];
    }
  }

  lemma {:induction false} DirectoriesAreObjectsIn(remote: Remote, d: Id, k: nat)
    ensures DirectoryIdsIn(remote, d, k) <= IdsIn(remote, d, k)
  {
    if k > 0 {
      DirectoriesAreObjectsIn(remote, d, k - 1);
    }
  }

  lemma {:induction false} DirectoriesAreObjects(remote: Remote, ls: seq<Listing>)
    ensures DirectoryIds(remote, ls) <= ObjectIds(remote, ls)
  {
    if ls != [] {
      DirectoriesAreObjects(remote, ls[..|ls| - 1]);
      DirectoriesAreObjectsIn(remote, ls[|ls| - 1].directory, ls[|ls| - 1].pages);
    }
  }

  /** One more page keeps the ids apart when it shows nothing known. */
  lemma PageStaysApart(remote: Remote, done: seq<Listing>, d: Id, k: nat)
    requires k >= 1 && Apart(remote, done + [Listing(d, k - 1)])
    requires ShownAt(remote, d, k).Some? ==> IdOf(ShownAt(remote, d, k).value) !in ObjectIds(remote, done + [Listing(d, k - 1)])
    ensures Apart(remote, done + [Listing(d, k)])
  {
    hide ShownAt;
    var was, now := done + [Listing(d, k - 1)], done + [Listing(d, k)];
    forall i, j, p: nat, q: nat, id: Id |
      && 0 <= i < |now| && 0 <= j < |now| && 1 <= p <= now[i].pages && 1 <= q <= now[j].pages
      && Shows(remote, now[i].directory, p, id) && Shows(remote, now[j].directory, q, id)
      ensures i == j && p == q
    {
      assert was[i].directory == now[i].directory && was[j].directory == now[j].directory;
      if p <= was[i].pages && q <= was[j].pages {
      } else if p <= was[i].pages {
        ShownIsIn(remote, was[i].directory, was[i].pages, p);
        ListedIsIn(remote, was, i);
      } else if q <= was[j].pages {
        ShownIsIn(remote, was[j].directory, was[j].pages, q);
        ListedIsIn(remote, was, j);
      }
    }
  }

  /** What reading page k of d does to the counters. */
  function Noted(t: Tally, shown: Option<Item>): Tally {
    if shown.None? then t.(pages := t.pages + 1)
    else if shown.value.isDirectory then
      Tally(t.queue + [IdOf(shown.value)], t.objectIds + {IdOf(shown.value)}, t.directories + 1, t.files, t.pages + 1)
    else t.(objectIds := t.objectIds + {IdOf(shown.value)}, files := t.files + 1, pages := t.pages + 1)
  }

  lemma PageAdds(remote: Remote, done: seq<Listing>, d: Id, k: nat)
    requires k >= 1
    ensures
      var shown := ShownAt(remote, d, k);
      var was, now := done + [Listing(d, k - 1)], done + [Listing(d, k)];
      && ObjectIds(remote, now) == ObjectIds(remote, was) + (if shown.Some? then {IdOf(shown.value)} else {})
      && DirectoryIds(remote, now) ==
           DirectoryIds(remote, was) + (if shown.Some? && shown.value.isDirectory then {IdOf(shown.value)} else {})
      && PagesOf(now) == PagesOf(was) + 1
      && Directories(now) == Directories(was)
  {
    hide ShownAt;
    LastListing(remote, done, Listing(d, k - 1));
    LastListing(remote, done, Listing(d, k));
    hide ObjectIds, DirectoryIds, PagesOf, Directories;
  }

  lemma PageIsCounted(remote: Remote, done: seq<Listing>, d: Id, k: nat, t: Tally)
    requires k >= 1 && Counts(remote, done + [Listing(d, k - 1)], t) && t.pages < MAX_PAGES
    requires ShownAt(remote, d, k).Some? ==> IdOf(ShownAt(remote, d, k).value) !in t.objectIds
    ensures Counts(remote, done + [Listing(d, k)], Noted(t, ShownAt(remote, d, k)))
  {
    hide ShownAt, Apart, ObjectIds, DirectoryIds, PagesOf;
    PageAdds(remote, done, d, k);
    DirectoriesAreObjects(remote, done + [Listing(d, k - 1)]);
    PageStaysApart(remote, done, d, k);
  }

  lemma PageIsPursued(remote: Remote, root: Id, done: seq<Listing>, d: Id, k: nat, t: Tally)
    requires Walking(remote, root, done, d, k) && Pursues(remote, root, done + [Listing(d, k - 1)], t)
    ensures Pursues(remote, root, done + [Listing(d, k)], Noted(t, ShownAt(remote, d, k)))
  {
    hide ShownAt, LeadsOn, Reads, ObjectIds, Once;
    PageAdds(remote, done, d, k);
    LastListing(remote, done, Listing(d, k - 1));
    hide DirectoryIds, Directories;
    var t' := Noted(t, ShownAt(remote, d, k));
    var was, now := done + [Listing(d, k - 1)], done + [Listing(d, k)];
    assert Known(was, t) <= Known(now, t');
    forall closed: set<Id> | Closed(remote, root, closed) ensures Known(now, t') <= closed {
      assert Known(was, t) <= closed;
      assert d in Known(was, t);
    }
  }

  // ---------------------------------------------------------- when it cannot succeed

  lemma ListedInCover(remote: Remote, root: Id, ds: set<Id>, cs: seq<Listing>, d: Id, k: nat) returns (i: nat)
    requires Covers(remote, root, cs) && Reachable(remote, root, ds) && d in ds && Reaches(remote, d, k)
    ensures i < |cs| && cs[i].directory == d && k <= cs[i].pages && At(remote, d, k).Listed?
  {
    hide Apart, DirectoryIds, Once;
    CoversAreClosed(remote, root, cs);
    i :| i < |cs| && cs[i].directory == d;
    assert cs[i] in cs;
    WholeListingIsLongest(remote, d, k, cs[i].pages);
    assert k < cs[i].pages ==> LeadsOn(remote, d, k);
  }

  lemma ShownOnce(remote: Remote, cs: seq<Listing>, a: nat, p: nat, b: nat, q: nat, id: Id)
    requires Apart(remote, cs) && a < |cs| && b < |cs| && 1 <= p <= cs[a].pages && 1 <= q <= cs[b].pages
    requires Shows(remote, cs[a].directory, p, id) && Shows(remote, cs[b].directory, q, id)
    ensures a == b && p == q
  {
  }

  lemma TooLong(remote: Remote, root: Id, done: seq<Listing>, d: Id, k: nat, cs: seq<Listing>)
    requires Walking(remote, root, done, d, k) && Covers(remote, root, cs)
    ensures PagesOf(done) + k <= MAX_PAGES
  {
    hide Apart, DirectoryIds, Reachable, Reaches;
    var ls := done + [Listing(d, k)];
    forall l | l in ls ensures exists c :: c in cs && c.directory == l.directory && l.pages <= c.pages {
      var i := ListedInCover(remote, root, Directories(done) + {d}, cs, l.directory, l.pages);
      assert cs[i] in cs;
    }
    PartsHaveFewerPages(ls, cs);
    LastListing(remote, done, Listing(d, k));
  }

  lemma Repeats(remote: Remote, root: Id, done: seq<Listing>, d: Id, k: nat, cs: seq<Listing>)
    requires Walking(remote, root, done, d, k) && Covers(remote, root, cs)
    requires ShownAt(remote, d, k).Some?
    ensures IdOf(ShownAt(remote, d, k).value) !in ObjectIds(remote, done + [Listing(d, k - 1)])
  {
    hide DirectoryIds, Reachable, ShownAt, LeadsOn, Ends, PagesOf;
    var ls, id := done + [Listing(d, k - 1)], IdOf(ShownAt(remote, d, k).value);
    if id in ObjectIds(remote, ls) {
      var i, p := Find(remote, ls, id);
      var a := ListedInCover(remote, root, Directories(done) + {d}, cs, ls[i].directory, p);
      var b := ListedInCover(remote, root, Directories(done) + {d}, cs, d, k);
      ShownOnce(remote, cs, a, p, b, k, id);
    }
  }

  /** The walk's own page checks never fire, and the gateway never finds it out of scope. */
  predicate WithinScope(failure: Failure) {
    !failure.PaginationUnverified? && !(failure.GatewayRefused? && failure.refusal.ScopeUnverified?)
  }

  /** A walk that is stuck has nothing it could have covered. */
  lemma StuckIsUncovered(remote: Remote, root: Id, done: seq<Listing>, d: Id, k: nat, failure: Failure)
    requires Stuck(remote, root, done, d, k, failure)
    ensures forall cs :: !Covers(remote, root, cs)
    ensures WithinScope(failure)
  {
    hide Covers, ShownAt, ObjectIds, PagesOf, LeadsOn;
    forall cs ensures !Covers(remote, root, cs) {
      if Covers(remote, root, cs) {
        var i := ListedInCover(remote, root, Directories(done) + {d}, cs, d, k);
        TooLong(remote, root, done, d, k, cs);
        if ShownAt(remote, d, k).Some? {
          Repeats(remote, root, done, d, k, cs);
        }
        assert false;
      }
    }
  }

  // ------------------------------------------------------------------------ the methods

  /** Takes in the entries of one page. */
  method Note(page: DirectoryPage, t: Tally, ghost remote: Remote, ghost d: Id, ghost k: nat)
      returns (t': Tally, verified: bool)
    requires k >= 1 && At(remote, d, k) == Listed(page)
    ensures verified <==> !(ShownAt(remote, d, k).Some? && IdOf(ShownAt(remote, d, k).value) in t.objectIds)
    ensures verified ==> t' == Noted(t, ShownAt(remote, d, k)).(pages := t.pages)
  {
    PagesAreSmall(remote, d, k);
    hide ShownAt;
    t' := t;
    for i := 0 to |page.items|
      invariant t' == if i == 0 then t else Noted(t, ShownAt(remote, d, k)).(pages := t.pages)
      invariant i > 0 ==> IdOf(ShownAt(remote, d, k).value) !in t.objectIds
    {
      var item := page.items[i];
      var objectId := ObjectId(item);
      if objectId.None? || objectId.value in t'.objectIds {
        return t', false;
      }
      t' := t'.(objectIds := t'.objectIds + {objectId.value});
      if item.isDirectory {
        t' := t'.(directories := t'.directories + 1, queue := t'.queue + [objectId.value]);
      } else {
        t' := t'.(files := t'.files + 1);
      }
    }
    return t', true;
  }

  /** k pages of d are read and counted, and led on so far. */
  ghost predicate Midway(remote: Remote, root: Id, done: seq<Listing>, d: Id, k: nat, t: Tally) {
    && Walking(remote, root, done, d, k + 1)
    && Counts(remote, done + [Listing(d, k)], t) && Pursues(remote, root, done + [Listing(d, k)], t)
  }

  lemma MidwayPages(remote: Remote, root: Id, done: seq<Listing>, d: Id, k: nat, t: Tally)
    requires Midway(remote, root, done, d, k, t)
    ensures t.pages == PagesOf(done) + k <= MAX_PAGES
    ensures t.pages >= MAX_PAGES ==> Stuck(remote, root, done, d, k + 1, PaginationLimit)
  {
    hide Walking, Apart, ObjectIds, DirectoryIds, Pursues;
    LastListing(remote, done, Listing(d, k));
  }

  lemma RefusedIsStuck(remote: Remote, root: Id, done: seq<Listing>, d: Id, k: nat, t: Tally)
    requires Midway(remote, root, done, d, k, t)
    ensures At(remote, d, k + 1).Refused? ==>
      Stuck(remote, root, done, d, k + 1, GatewayRefused(At(remote, d, k + 1).refusal))
    ensures ShownAt(remote, d, k + 1).Some? && IdOf(ShownAt(remote, d, k + 1).value) in t.objectIds ==>
      Stuck(remote, root, done, d, k + 1, IdentityUnverified)
  {
    hide Walking, Apart, ObjectIds, DirectoryIds, Pursues, ShownAt, PagesOf;
  }

  lemma MidwayNext(remote: Remote, root: Id, done: seq<Listing>, d: Id, k: nat, t: Tally, t': Tally)
    requires Midway(remote, root, done, d, k, t) && t.pages < MAX_PAGES
    requires ShownAt(remote, d, k + 1).Some? ==> IdOf(ShownAt(remote, d, k + 1).value) !in t.objectIds
    requires t' == Noted(t, ShownAt(remote, d, k + 1))
    ensures Ends(remote, d, k + 1) ==> ReadAndCounted(remote, root, done, d, k + 1, t')
    ensures LeadsOn(remote, d, k + 1) ==> Midway(remote, root, done, d, k + 1, t')
  {
    hide Counts, Pursues, Walking, Reads, ShownAt, Noted, LeadsOn, Ends;
    assert t.pages < MAX_PAGES;
    PageIsCounted(remote, done, d, k + 1, t);
    PageIsPursued(remote, root, done, d, k + 1, t);
    WalkOn(remote, root, done, d, k + 1);
  }

  lemma WalkOn(remote: Remote, root: Id, done: seq<Listing>, d: Id, k: nat)
    requires Walking(remote, root, done, d, k)
    ensures Ends(remote, d, k) ==> Reads(remote, d, k)
    ensures LeadsOn(remote, d, k) ==> Walking(remote, root, done, d, k + 1)
  {
    hide LeadsOn, Ends;
  }

  /** The k pages of d are all of them. */
  ghost predicate ReadAndCounted(remote: Remote, root: Id, done: seq<Listing>, d: Id, k: nat, t: Tally) {
    && Reads(remote, d, k)
    && Counts(remote, done + [Listing(d, k)], t) && Pursues(remote, root, done + [Listing(d, k)], t)
  }

  /** The gateway serves this remote, and will list what is waiting in the queue. */
  ghost predicate Fit(gateway: Gateway, remote: Remote, d: Id, t: Tally)
    reads gateway
  {
    && gateway.remote == remote && gateway.StayedInScope() && gateway.InScope(d)
    && forall id | id in t.queue :: gateway.InScope(id)
  }

  /** The walk's own doubts about a page; pages of this gateway never raise them. */
  predicate Malformed(page: DirectoryPage, n: int) {
    || page.page != n || !page.state.Complete? || page.scanComplete == Some(false)
    || (page.pageCount.Some? && n > page.pageCount.value)
  }

  /** Reads one directory page by page. */
  method ReadDirectory(gateway: Gateway, d: Id, t: Tally, ghost remote: Remote, ghost root: Id, ghost done: seq<Listing>)
      returns (t': Tally, failure: Option<Failure>, ghost k: nat)
    requires Midway(remote, root, done, d, 0, t) && Fit(gateway, remote, d, t)
    modifies gateway
    ensures gateway.StayedInScope()
    ensures failure.Some? ==> Stuck(remote, root, done, d, k, failure.value)
    ensures failure.None? ==> ReadAndCounted(remote, root, done, d, k, t')
    ensures failure.None? ==> t.pages < t'.pages <= MAX_PAGES && Fit(gateway, remote, d, t')
  {
    hide Midway, ReadAndCounted, ShownAt;
    t', k := t, 0;
    var page := 1;
    while true
      invariant page == k + 1 && t.pages <= t'.pages
      invariant Midway(remote, root, done, d, k, t') && Fit(gateway, remote, d, t')
      decreases MAX_PAGES - t'.pages
    {
      MidwayPages(remote, root, done, d, k, t');
      RefusedIsStuck(remote, root, done, d, k, t');
      if t'.pages >= MAX_PAGES {
        return t', Some(PaginationLimit), k + 1;
      }
      var answer := gateway.ListDirectory(d, page, PAGE_SIZE);
      if answer.Refused? {
        return t', Some(GatewayRefused(answer.refusal)), k + 1;
      }
      var listed := answer.page;
      PagesAreSmall(remote, d, page);
      if Malformed(listed, page) {
        assert false;
      }
      ghost var before := t';
      var verified;
      t', verified := Note(listed, t', remote, d, page);
      if !verified {
        return t', Some(IdentityUnverified), k + 1;
      }
      t' := t'.(pages := t'.pages + 1);
      MidwayNext(remote, root, done, d, k, before, t');
      k := k + 1;
      if listed.terminal == Some(true) || listed.hasMore == Some(false) || listed.pageCount == Some(page) {
        return t', None, k;
      }
      if listed.terminal == Some(false) || listed.hasMore == Some(true) {
        page := page + 1;
      } else {
        assert false;
      }
    }
  }

  /** Between directories: `done` are read whole, and the counters are theirs. */
  ghost predicate Between(remote: Remote, root: Id, done: seq<Listing>, t: Tally) {
    && (forall l | l in done :: Reads(remote, l.directory, l.pages)) && Once(done)
    && Counts(remote, done, t) && Pursues(remote, root, done, t)
  }

  lemma NothingReadYet(remote: Remote, root: Id)
    ensures Between(remote, root, [], Tally([root], {}, 0, 0, 0))
  {
    hide Closed;
    forall closed: set<Id> | Closed(remote, root, closed) ensures Known([], Tally([root], {}, 0, 0, 0)) <= closed {
      assert root in closed by {
        RootIsIn(remote, root, closed);
      }
    }
  }

  lemma RootIsIn(remote: Remote, root: Id, closed: set<Id>)
    requires Closed(remote, root, closed)
    ensures root in closed
  {
  }

  lemma TakenFromQueue(done: seq<Listing>, t: Tally)
    requires t.queue != []
    ensures Known(done, t) == Known(done, t.(queue := t.queue[1..])) + {t.queue[0]}
  {
    assert t.queue == [t.queue[0]] + t.queue[1..];
  }

  lemma SkipSeen(remote: Remote, root: Id, done: seq<Listing>, t: Tally)
    requires Between(remote, root, done, t) && t.queue != [] && t.queue[0] in Directories(done)
    ensures Between(remote, root, done, t.(queue := t.queue[1..]))
  {
    hide Directories, Reads, Once, Apart, ObjectIds, DirectoryIds, PagesOf;
    TakenFromQueue(done, t);
  }

  lemma NothingShownYet(remote: Remote, done: seq<Listing>, d: Id)
    requires Apart(remote, done)
    ensures Apart(remote, done + [Listing(d, 0)])
  {
    hide Shows;
  }

  lemma EnterKeepsCounts(remote: Remote, done: seq<Listing>, d: Id, t: Tally, t': Tally)
    requires Counts(remote, done, t) && t' == t.(queue := t'.queue)
    ensures Counts(remote, done + [Listing(d, 0)], t')
  {
    NothingShownYet(remote, done, d);
    LastListing(remote, done, Listing(d, 0));
    hide Apart, ObjectIds, DirectoryIds, PagesOf;
  }

  lemma EnterKeepsPursuit(remote: Remote, root: Id, done: seq<Listing>, t: Tally)
    requires Pursues(remote, root, done, t) && t.queue != []
    ensures Pursues(remote, root, done + [Listing(t.queue[0], 0)], t.(queue := t.queue[1..]))
    ensures Reachable(remote, root, Directories(done) + {t.queue[0]})
  {
    var d, t' := t.queue[0], t.(queue := t.queue[1..]);
    TakenFromQueue(done, t);
    LastListing(remote, done, Listing(d, 0));
    hide Closed, Directories, DirectoryIds;
    assert Known(done + [Listing(d, 0)], t') == Known(done, t);
    assert Directories(done) + {d} <= Known(done, t);
  }

  lemma EnterDirectory(remote: Remote, root: Id, done: seq<Listing>, t: Tally)
    requires Between(remote, root, done, t) && t.queue != [] && t.queue[0] !in Directories(done)
    ensures Midway(remote, root, done, t.queue[0], 0, t.(queue := t.queue[1..]))
  {
    EnterKeepsCounts(remote, done, t.queue[0], t, t.(queue := t.queue[1..]));
    EnterKeepsPursuit(remote, root, done, t);
    hide Counts, Pursues, Reads, Once, Reachable, Directories;
  }

  lemma LeaveDirectory(remote: Remote, root: Id, done: seq<Listing>, d: Id, k: nat, t: Tally)
    requires ReadAndCounted(remote, root, done, d, k, t)
    requires (forall l | l in done :: Reads(remote, l.directory, l.pages)) && Once(done) && d !in Directories(done)
    ensures Between(remote, root, done + [Listing(d, k)], t)
    ensures Directories(done + [Listing(d, k)]) == Directories(done) + {d}
  {
    hide Reads, Counts, Pursues;
    LastListing(remote, done, Listing(d, k));
  }

  lemma {:induction false} OnceCounts(ls: seq<Listing>)
    requires Once(ls)
    ensures |Directories(ls)| == |ls|
  {
    if ls != [] {
      var init, last := ls[..|ls| - 1], ls[|ls| - 1];
      OnceCounts(init);
      assert ls == init + [last];
      assert Directories(ls) == Directories(init) + {last.directory};
    }
  }

  /** The report of a walk over these listings. */
  ghost predicate Totals(outcome: Outcome, remote: Remote, ls: seq<Listing>) {
    && outcome.Inventory?
    && outcome.uniqueObjectIds == |ObjectIds(remote, ls)|
    && outcome.directories == |DirectoryIds(remote, ls)|
    && outcome.directories + outcome.files == outcome.uniqueObjectIds
    && outcome.directoriesScanned == |ls|
    && outcome.pagesRead == PagesOf(ls)
  }

  lemma NothingWaits(done: seq<Listing>, t: Tally)
    requires t.queue == []
    ensures Known(done, t) == Directories(done)
  {
  }

  lemma WalkIsCover(remote: Remote, root: Id, done: seq<Listing>, t: Tally)
    requires Between(remote, root, done, t) && t.queue == []
    ensures Covers(remote, root, done) && Reachable(remote, root, Directories(done))
    ensures Directories(done) == {root} + DirectoryIds(remote, done)
    ensures Totals(Inventory(t.directories, t.files, |t.objectIds|, |Directories(done)|, t.pages), remote, done)
  {
    hide Apart, Reads, ObjectIds, PagesOf, DirectoryIds, Directories, Closed, Known;
    OnceCounts(done);
    hide Once;
    NothingWaits(done, t);
    OnlyShownDirectories(remote, root, done);
  }

  /** Nothing is walked but the root and what was shown. */
  lemma OnlyShownDirectories(remote: Remote, root: Id, done: seq<Listing>)
    requires (forall l | l in done :: Reads(remote, l.directory, l.pages)) && Reachable(remote, root, Directories(done))
    requires DirectoryIds(remote, done) <= Directories(done) && root in Directories(done)
    ensures Directories(done) <= {root} + DirectoryIds(remote, done)
  {
    var shown := {root} + DirectoryIds(remote, done);
    forall d, p: nat | d in shown && Reaches(remote, d, p) && ShownAt(remote, d, p).Some? && ShownAt(remote, d, p).value.isDirectory
      ensures IdOf(ShownAt(remote, d, p).value) in shown
    {
      hide ShownAt, LeadsOn, Ends, DirectoryIds;
      var i: nat :| i < |done| && done[i].directory == d;
      assert done[i] in done;
      WholeListingIsLongest(remote, d, p, done[i].pages);
      ShownIsIn(remote, d, done[i].pages, p);
      ListedIsIn(remote, done, i);
    }
    assert Closed(remote, root, shown);
  }

  /**
    The inventory of whatever the remote shows under the root.  It always ends.  It succeeds
    exactly when the remote can be covered within the page limit; then it has walked the
    reachable directories, each once, counted every object once, and never asked for a
    directory out of scope.
   */
  method Scan(remote: Remote, root: Id) returns (outcome: Outcome)
    ensures outcome.Inventory? <==> exists ls :: Covers(remote, root, ls)
    ensures outcome.Inventory? ==> exists ls ::
      && Covers(remote, root, ls) && Reachable(remote, root, Directories(ls))
      && Directories(ls) == {root} + DirectoryIds(remote, ls) && Totals(outcome, remote, ls)
    ensures outcome.Aborted? ==> exists done, d, k: nat :: Stuck(remote, root, done, d, k, outcome.failure)
    ensures outcome.Aborted? ==> WithinScope(outcome.failure)
  {
    var gateway := new Gateway(remote, {root});
    var t := Tally([root], {}, 0, 0, 0);
    var visited: set<Id> := {};
    ghost var done: seq<Listing> := [];
    NothingReadYet(remote, root);
    while t.queue != []
      invariant fresh(gateway) && gateway.remote == remote && gateway.StayedInScope()
      invariant forall id | id in t.queue :: gateway.InScope(id)
      invariant visited == Directories(done) && Between(remote, root, done, t) && t.pages <= MAX_PAGES
      decreases MAX_PAGES - t.pages, |t.queue|
    {
      hide Directories, Midway, Stuck, ReadAndCounted, Counts, Pursues, Reads, Once, Covers, WithinScope;
      var d := t.queue[0];
      if d in visited {
        SkipSeen(remote, root, done, t);
        t := t.(queue := t.queue[1..]);
        continue;
      }
      visited := visited + {d};
      EnterDirectory(remote, root, done, t);
      t := t.(queue := t.queue[1..]);
      var failure;
      ghost var k;
      t, failure, k := ReadDirectory(gateway, d, t, remote, root, done);
      if failure.Some? {
        StuckIsUncovered(remote, root, done, d, k, failure.value);
        return Aborted(failure.value);
      }
      LeaveDirectory(remote, root, done, d, k, t);
      done := done + [Listing(d, k)];
    }
    WalkIsCover(remote, root, done, t);
    hide Covers, Reachable, Totals, DirectoryIds, Directories;
    return Inventory(t.directories, t.files, |t.objectIds|, |visited|, t.pages);
  }

  // ------------------------------------------------------------------- one report only

  lemma {:induction false} SameListings(remote: Remote, ls: seq<Listing>, cs: seq<Listing>)
    requires forall l | l in ls :: l in cs
    ensures ObjectIds(remote, ls) <= ObjectIds(remote, cs) && DirectoryIds(remote, ls) <= DirectoryIds(remote, cs)
  {
    if ls != [] {
      var last := ls[|ls| - 1];
      assert last in ls;
      var j: nat :| j < |cs| && cs[j] == last;
      ListedIsIn(remote, cs, j);
      SameListings(remote, ls[..|ls| - 1], cs);
    }
  }

  lemma PartOfCover(remote: Remote, root: Id, ls: seq<Listing>, cs: seq<Listing>)
    requires Covers(remote, root, ls) && Covers(remote, root, cs) && Directories(ls) <= Directories(cs)
    ensures ObjectIds(remote, ls) <= ObjectIds(remote, cs) && DirectoryIds(remote, ls) <= DirectoryIds(remote, cs)
    ensures |ls| <= |cs| && PagesOf(ls) <= PagesOf(cs)
  {
    hide Apart, ShownAt, LeadsOn, Ends;
    forall l | l in ls ensures l in cs {
      assert l.directory in Directories(cs);
      var c :| c in cs && c.directory == l.directory;
      WholeListingIsLongest(remote, l.directory, l.pages, c.pages);
      WholeListingIsLongest(remote, l.directory, c.pages, l.pages);
    }
    PartsHaveFewerPages(ls, cs);
    SameListings(remote, ls, cs);
    hide Reaches, Reads, ObjectIds, DirectoryIds, PagesOf;
    OnceCounts(ls);
    OnceCounts(cs);
    SubsetSize(Directories(ls), Directories(cs));
  }

  lemma SameReach(remote: Remote, root: Id, ls: seq<Listing>, cs: seq<Listing>)
    requires Reachable(remote, root, Directories(ls)) && Covers(remote, root, cs)
    ensures Directories(ls) <= Directories(cs)
  {
    CoversAreClosed(remote, root, cs);
  }

  /** What is reachable does not depend on how it is walked: all covers of it give one report. */
  lemma OneReport(remote: Remote, root: Id, ls: seq<Listing>, cs: seq<Listing>, outcome: Outcome)
    requires Covers(remote, root, ls) && Reachable(remote, root, Directories(ls))
    requires Covers(remote, root, cs) && Reachable(remote, root, Directories(cs))
    requires Totals(outcome, remote, ls)
    ensures Totals(outcome, remote, cs)
  {
    hide *;
    SameReach(remote, root, ls, cs);
    SameReach(remote, root, cs, ls);
    PartOfCover(remote, root, ls, cs);
    PartOfCover(remote, root, cs, ls);
    SameTotals(remote, ls, cs, outcome);
  }

  lemma SameTotals(remote: Remote, ls: seq<Listing>, cs: seq<Listing>, outcome: Outcome)
    requires Totals(outcome, remote, ls) && |ls| == |cs| && PagesOf(ls) == PagesOf(cs)
    requires ObjectIds(remote, ls) == ObjectIds(remote, cs) && DirectoryIds(remote, ls) == DirectoryIds(remote, cs)
    ensures Totals(outcome, remote, cs)
  {
    hide PagesOf, ObjectIds, DirectoryIds;
  }

  // ---------------------------------------------------------------------- a fixed tree

  datatype Branch = Branch(directory: Id, children: seq<Item>)

  /** The remote shows the children one by one, saying truly how many there are. */
  ghost predicate ShowsTruly(remote: Remote, b: Branch) {
    var n := |b.children|;
    && (n == 0 ==> remote(b.directory, 0) == Response(Some([]), Some(0), Some(1), Some(0)))
    && forall o: nat | o < n :: remote(b.directory, o) == Response(Some([Some(b.children[o])]), Some(o), Some(1), Some(n))
  }

  function ListingOf(b: Branch): Listing {
    Listing(b.directory, if b.children == [] then 1 else |b.children|)
  }

  function ListingsOf(bs: seq<Branch>): seq<Listing> {
    seq(|bs|, i requires 0 <= i < |bs| => ListingOf(bs[i]))
  }

  /** A tree, parents before children: no object is at two places, every directory but the root
      is a child of an earlier one, and every child directory has its branch. */
  ghost predicate Tree(root: Id, bs: seq<Branch>) {
    && bs != [] && bs[0].directory == root
    && (forall i, j | 0 <= i < j < |bs| :: bs[i].directory != bs[j].directory)
    && (forall i, j, p, q | 0 <= i < |bs| && 0 <= j < |bs| && 0 <= p < |bs[i].children| && 0 <= q < |bs[j].children| ::
          IdOf(bs[i].children[p]) == IdOf(bs[j].children[q]) ==> i == j && p == q)
    && (forall i | 0 < i < |bs| :: HasParent(bs, i))
    && (forall i, p | 0 <= i < |bs| && 0 <= p < |bs[i].children| && bs[i].children[p].isDirectory ::
          IdOf(bs[i].children[p]) in Directories(ListingsOf(bs)))
  }

  ghost predicate HasParent(bs: seq<Branch>, i: nat)
    requires i < |bs|
  {
    exists j, p | 0 <= j < i && 0 <= p < |bs[j].children| ::
      bs[j].children[p].isDirectory && IdOf(bs[j].children[p]) == bs[i].directory
  }

  lemma BranchIsRead(remote: Remote, b: Branch)
    requires ShowsTruly(remote, b)
    ensures Reads(remote, b.directory, ListingOf(b).pages)
    ensures forall p: nat | 1 <= p <= ListingOf(b).pages ::
      ShownAt(remote, b.directory, p) == if p <= |b.children| then Some(b.children[p - 1]) else None
  {
    var d, n := b.directory, |b.children|;
    forall p: nat | 1 <= p <= ListingOf(b).pages
      ensures ShownAt(remote, d, p) == if p <= n then Some(b.children[p - 1]) else None
      ensures if p == ListingOf(b).pages then Ends(remote, d, p) else LeadsOn(remote, d, p)
    {
      PageIsTrue(remote, b, p);
    }
  }

  lemma PageIsTrue(remote: Remote, b: Branch, p: nat)
    requires ShowsTruly(remote, b) && 1 <= p <= ListingOf(b).pages
    ensures ShownAt(remote, b.directory, p) == if p <= |b.children| then Some(b.children[p - 1]) else None
    ensures if p == ListingOf(b).pages then Ends(remote, b.directory, p) else LeadsOn(remote, b.directory, p)
  {
    var n, o := |b.children|, p - 1;
    if n > 0 {
      assert remote(b.directory, o) == Response(Some([Some(b.children[o])]), Some(o), Some(1), Some(n));
    }
  }

  ghost predicate TreeShown(remote: Remote, root: Id, bs: seq<Branch>) {
    Tree(root, bs) && forall b | b in bs :: ShowsTruly(remote, b)
  }

  lemma TreeIsApart(remote: Remote, root: Id, bs: seq<Branch>)
    requires TreeShown(remote, root, bs)
    ensures Apart(remote, ListingsOf(bs))
  {
    hide ShowsTruly, ShownAt, HasParent, Directories;
    var ls := ListingsOf(bs);
    forall i, j, p: nat, q: nat, id: Id |
      && 0 <= i < |ls| && 0 <= j < |ls| && 1 <= p <= ls[i].pages && 1 <= q <= ls[j].pages
      && Shows(remote, ls[i].directory, p, id) && Shows(remote, ls[j].directory, q, id)
      ensures i == j && p == q
    {
      BranchIsRead(remote, bs[i]);
      BranchIsRead(remote, bs[j]);
      assert IdOf(bs[i].children[p - 1]) == IdOf(bs[j].children[q - 1]);
    }
  }

  lemma {:induction false} TreeClosed(remote: Remote, root: Id, bs: seq<Branch>, k: nat)
    requires TreeShown(remote, root, bs) && k <= |bs|
    ensures DirectoryIds(remote, ListingsOf(bs)[..k]) <= Directories(ListingsOf(bs))
  {
    if k > 0 {
      TreeClosed(remote, root, bs, k - 1);
      var ls := ListingsOf(bs);
      assert ls[..k][..k - 1] == ls[..k - 1];
      BranchIsRead(remote, bs[k - 1]);
      DirectoriesOfBranch(remote, bs[k - 1], ls[k - 1].pages);
    }
  }

  lemma {:induction false} DirectoriesOfBranch(remote: Remote, b: Branch, k: nat)
    requires ShowsTruly(remote, b) && k <= ListingOf(b).pages
    ensures forall id | id in DirectoryIdsIn(remote, b.directory, k) ::
      exists p | 0 <= p < |b.children| :: b.children[p].isDirectory && IdOf(b.children[p]) == id
  {
    if k > 0 {
      PageIsTrue(remote, b, k);
      DirectoriesOfBranch(remote, b, k - 1);
      hide ShowsTruly, ShownAt;
    }
  }

  lemma {:induction false} BranchesReachable(remote: Remote, root: Id, bs: seq<Branch>, closed: set<Id>, i: nat)
    requires TreeShown(remote, root, bs) && Closed(remote, root, closed) && i < |bs|
    ensures bs[i].directory in closed
    decreases i
  {
    if i > 0 {
      assert HasParent(bs, i);
      hide Tree, ShowsTruly, Closed;
      var j, p :| 0 <= j < i && 0 <= p < |bs[j].children| && bs[j].children[p].isDirectory && IdOf(bs[j].children[p]) == bs[i].directory;
      assert bs[j] in bs;
      BranchesReachable(remote, root, bs, closed, j);
      ChildReached(remote, root, bs[j], closed, p);
    }
  }

  lemma ChildReached(remote: Remote, root: Id, b: Branch, closed: set<Id>, p: nat)
    requires ShowsTruly(remote, b) && Closed(remote, root, closed) && b.directory in closed
    requires p < |b.children| && b.children[p].isDirectory
    ensures IdOf(b.children[p]) in closed
  {
    BranchIsRead(remote, b);
    hide ShowsTruly, ShownAt, LeadsOn, Ends;
    assert Reaches(remote, b.directory, p + 1);
  }

  lemma TreeIsRead(remote: Remote, root: Id, bs: seq<Branch>)
    requires TreeShown(remote, root, bs)
    ensures forall l | l in ListingsOf(bs) :: Reads(remote, l.directory, l.pages)
    ensures root in Directories(ListingsOf(bs))
  {
    var ls := ListingsOf(bs);
    assert ls[0] in ls;
    hide Reads, ShowsTruly, HasParent;
    forall l | l in ls ensures Reads(remote, l.directory, l.pages) {
      var i: nat :| i < |ls| && ls[i] == l;
      BranchIsRead(remote, bs[i]);
    }
  }

  lemma TreeIsReachable(remote: Remote, root: Id, bs: seq<Branch>)
    requires TreeShown(remote, root, bs)
    ensures Reachable(remote, root, Directories(ListingsOf(bs)))
  {
    hide Tree, ShowsTruly, Closed;
    var ls := ListingsOf(bs);
    forall closed: set<Id> | Closed(remote, root, closed) ensures Directories(ls) <= closed {
      forall d | d in Directories(ls) ensures d in closed {
        var i: nat :| i < |ls| && ls[i].directory == d;
        BranchesReachable(remote, root, bs, closed, i);
      }
    }
  }

  /** A tree that fits the page limit is covered by its own branches: the inventory succeeds and
      its report is the tree's. */
  lemma TreeIsCovered(remote: Remote, root: Id, bs: seq<Branch>)
    requires TreeShown(remote, root, bs) && PagesOf(ListingsOf(bs)) <= MAX_PAGES
    ensures Covers(remote, root, ListingsOf(bs))
    ensures Reachable(remote, root, Directories(ListingsOf(bs)))
  {
    var ls := ListingsOf(bs);
    assert ls[..|bs|] == ls;
    assert Once(ls) by {
      assert Tree(root, bs);
    }
    hide Tree, ShowsTruly, Apart, DirectoryIds, Directories, Reachable, Reads, Once, PagesOf;
    TreeIsApart(remote, root, bs);
    TreeClosed(remote, root, bs, |bs|);
    TreeIsRead(remote, root, bs);
    TreeIsReachable(remote, root, bs);
  }

  // ------------------------------------------------------------ every object is counted once

  function EntriesIn(remote: Remote, d: Id, k: nat): nat {
    if k == 0 then 0 else EntriesIn(remote, d, k - 1) + if ShownAt(remote, d, k).Some? then 1 else 0
  }

  function EntriesOf(remote: Remote, ls: seq<Listing>): nat {
    if ls == [] then 0
    else var last := ls[|ls| - 1]; EntriesOf(remote, ls[..|ls| - 1]) + EntriesIn(remote, last.directory, last.pages)
  }

  lemma EarlierStaysApart(remote: Remote, done: seq<Listing>, d: Id, k: nat)
    requires k >= 1 && Apart(remote, done + [Listing(d, k)])
    ensures Apart(remote, done + [Listing(d, k - 1)]) && Apart(remote, done)
    ensures ShownAt(remote, d, k).Some? ==> IdOf(ShownAt(remote, d, k).value) !in ObjectIds(remote, done + [Listing(d, k - 1)])
  {
    hide ShownAt;
    var now, was := done + [Listing(d, k)], done + [Listing(d, k - 1)];
    forall i, j, p: nat, q: nat, id: Id |
      && 0 <= i < |was| && 0 <= j < |was| && 1 <= p <= was[i].pages && 1 <= q <= was[j].pages
      && Shows(remote, was[i].directory, p, id) && Shows(remote, was[j].directory, q, id)
      ensures i == j && p == q
    {
      ShownOnce(remote, now, i, p, j, q, id);
    }
    if ShownAt(remote, d, k).Some? && IdOf(ShownAt(remote, d, k).value) in ObjectIds(remote, was) {
      var i, p := Find(remote, was, IdOf(ShownAt(remote, d, k).value));
      ShownOnce(remote, now, i, p, |done|, k, IdOf(ShownAt(remote, d, k).value));
    }
  }

  /** The number of ids is the number of entries shown. */
  lemma {:induction false} EveryObjectOnce(remote: Remote, ls: seq<Listing>)
    requires Apart(remote, ls)
    ensures |ObjectIds(remote, ls)| == EntriesOf(remote, ls)
    decreases |ls|, if ls == [] then 0 else ls[|ls| - 1].pages
  {
    if ls != [] {
      hide Apart, ShownAt, ObjectIds, DirectoryIds, EntriesOf, PagesOf, Directories;
      var done, d, k := ls[..|ls| - 1], ls[|ls| - 1].directory, ls[|ls| - 1].pages;
      assert ls == done + [Listing(d, k)];
      EntriesGrow(remote, done, d, k);
      if k == 0 {
        NothingWasShown(remote, done, d);
        EveryObjectOnce(remote, done);
        LastListing(remote, done, Listing(d, 0));
      } else {
        EarlierStaysApart(remote, done, d, k);
        EveryObjectOnce(remote, done + [Listing(d, k - 1)]);
        PageAdds(remote, done, d, k);
      }
    }
  }

  lemma EntriesGrow(remote: Remote, done: seq<Listing>, d: Id, k: nat)
    ensures k == 0 ==> EntriesOf(remote, done + [Listing(d, k)]) == EntriesOf(remote, done)
    ensures k > 0 ==>
      EntriesOf(remote, done + [Listing(d, k)]) ==
      EntriesOf(remote, done + [Listing(d, k - 1)]) + if ShownAt(remote, d, k).Some? then 1 else 0
  {
    hide ShownAt;
    assert (done + [Listing(d, k)])[..|done|] == done;
    if k > 0 {
      assert (done + [Listing(d, k - 1)])[..|done|] == done;
    }
  }

  lemma NothingWasShown(remote: Remote, done: seq<Listing>, d: Id)
    requires Apart(remote, done + [Listing(d, 0)])
    ensures Apart(remote, done)
  {
    hide Shows;
    var now := done + [Listing(d, 0)];
    assert forall i | 0 <= i < |done| :: now[i] == done[i];
  }

  function Children(bs: seq<Branch>): nat {
    if bs == [] then 0 else Children(bs[..|bs| - 1]) + |bs[|bs| - 1].children|
  }

  lemma {:induction false} BranchEntries(remote: Remote, b: Branch, k: nat)
    requires ShowsTruly(remote, b) && k <= ListingOf(b).pages
    ensures EntriesIn(remote, b.directory, k) == if k <= |b.children| then k else |b.children|
  {
    if k > 0 {
      BranchEntries(remote, b, k - 1);
      PageIsTrue(remote, b, k);
    }
  }

  lemma {:induction false} TreeEntries(remote: Remote, bs: seq<Branch>)
    requires forall b | b in bs :: ShowsTruly(remote, b)
    ensures EntriesOf(remote, ListingsOf(bs)) == Children(bs)
  {
    if bs != [] {
      var init, last := bs[..|bs| - 1], bs[|bs| - 1];
      assert last in bs;
      TreeEntries(remote, init);
      BranchEntries(remote, last, ListingOf(last).pages);
      assert ListingsOf(bs)[..|bs| - 1] == ListingsOf(init);
    }
  }

  /** On a tree the report counts every node below the root once. */
  lemma TreeReport(remote: Remote, root: Id, bs: seq<Branch>, outcome: Outcome, ls: seq<Listing>)
    requires TreeShown(remote, root, bs) && PagesOf(ListingsOf(bs)) <= MAX_PAGES
    requires Covers(remote, root, ls) && Reachable(remote, root, Directories(ls)) && Totals(outcome, remote, ls)
    ensures outcome.directories + outcome.files == outcome.uniqueObjectIds == Children(bs)
    ensures outcome.directoriesScanned == |bs|
  {
    TreeIsCovered(remote, root, bs);
    OneReport(remote, root, ls, ListingsOf(bs), outcome);
    TreeIsApart(remote, root, bs);
    EveryObjectOnce(remote, ListingsOf(bs));
    TreeEntries(remote, bs);
    hide Tree, ShowsTruly, Covers, Reachable, Apart, PagesOf, ObjectIds, DirectoryIds, EntriesOf, Children;
  }
}
