/**
  The live transport's bounded listing: one entry per page and at most four pages, so a
  directory with more than four entries is never listed completely.
 */
module C03Live {
  import opened Wrappers
  import opened Sets
  import opened C03Model
  import opened C03Tree

  const VERIFIED_FS_FILES_PAGE_SIZE := 1

  /** One page call as the client answers it.  A record that does not normalize is None. */
  datatype PageAnswer =
    | PageCancelled
    | PageRaised
    | Refused
    | Response(offset: Option<int>, limit: Option<int>, count: Option<int>, records: Option<seq<Option<Entry>>>)

  /** A record is an entry of the directory that was asked for. */
  predicate GoodRecord(record: Option<Entry>, parent: Id) {
    record.Some? && record.value.parentId == parent
  }

  /** The page echoes the request, and carries exactly the records its own count leaves. */
  predicate GoodPage(page: PageAnswer, parent: Id, offset: nat) {
    && page.Response?
    && page.offset == Some(offset)
    && page.limit == Some(VERIFIED_FS_FILES_PAGE_SIZE)
    && page.count.Some? && page.records.Some?
    && offset <= page.count.value
    && |page.records.value| == (if page.count.value - offset < VERIFIED_FS_FILES_PAGE_SIZE then page.count.value - offset
                                else VERIFIED_FS_FILES_PAGE_SIZE)
    && forall i | 0 <= i < |page.records.value| :: GoodRecord(page.records.value[i], parent)
  }

  /** What a directory listing call ends in; a listing with no page call cannot be built. */
  datatype LiveAnswer =
    | LiveCancelled
    | LiveInvalid
    | LiveListing(entries: seq<Entry>, complete: bool, pageCalls: nat)

  /** Pages 0..n-1 were read in time, each good and each with one new entry. */
  ghost predicate PagesRead(client: nat -> PageAnswer, late: nat -> bool, parent: Id, entries: seq<Entry>) {
    && (forall i | 0 <= i < |entries| ::
          && !late(i) && GoodPage(client(i), parent, i)
          && client(i).records.value == [Some(entries[i])])
    && (forall i, j | 0 <= i < j < |entries| :: entries[i].fileId != entries[j].fileId)
  }

  /** The pages read so far did not end the directory. */
  ghost predicate Unfinished(client: nat -> PageAnswer, late: nat -> bool, parent: Id, entries: seq<Entry>) {
    && PagesRead(client, late, parent, entries)
    && forall i | 0 <= i < |entries| :: client(i).count.value > i + 1
  }

  /** The directory said that these entries are all: by the count of the last entry's page, or,
      when that count promised more, by an empty page after it. */
  ghost predicate WholeDirectory(client: nat -> PageAnswer, late: nat -> bool, parent: Id, entries: seq<Entry>) {
    var n := |entries|;
    && PagesRead(client, late, parent, entries)
    && (n > 0 ==> Unfinished(client, late, parent, entries[..n - 1]))
    && if n > 0 && client(n - 1).count == Some(n) then true
       else && Unfinished(client, late, parent, entries)
            && !late(n) && GoodPage(client(n), parent, n) && client(n).count == Some(n)
  }

  /** How many page calls it takes to know that `entries` is the whole directory. */
  ghost function Calls(client: nat -> PageAnswer, entries: seq<Entry>): nat {
    var n := |entries|;
    if n > 0 && client(n - 1).Response? && client(n - 1).count == Some(n) then n else n + 1
  }

  lemma PrefixOfWhole(client: nat -> PageAnswer, late: nat -> bool, parent: Id, entries: seq<Entry>, whole: seq<Entry>)
    requires Unfinished(client, late, parent, entries) && WholeDirectory(client, late, parent, whole)
    ensures |entries| < Calls(client, whole)
    ensures |entries| <= |whole| && entries == whole[..|entries|]
  {
    var n := |whole|;
    forall i | 0 <= i < |entries| && i < n ensures entries[i] == whole[i] {
      assert client(i).records.value == [Some(entries[i])];
    }
  }

  /** The next page of an unfinished directory that some listing covers: in time, good, and the
      next entry of that listing or its end. */
  lemma NextPage(client: nat -> PageAnswer, late: nat -> bool, parent: Id, entries: seq<Entry>, whole: seq<Entry>)
    requires Unfinished(client, late, parent, entries) && WholeDirectory(client, late, parent, whole)
    ensures
      var k := |entries|;
      && !late(k) && GoodPage(client(k), parent, k)
      && (client(k).records.value == [] ==> whole == entries)
      && (client(k).records.value != [] ==>
            && k < |whole| && client(k).records.value == [Some(whole[k])]
            && (forall i | 0 <= i < k :: entries[i].fileId != whole[k].fileId)
            && (client(k).count == Some(k + 1) ==> whole == entries + [whole[k]]))
  {
    var k := |entries|;
    PrefixOfWhole(client, late, parent, entries, whole);
    if k < |whole| {
      assert client(k).records.value == [Some(whole[k])];
      forall i | 0 <= i < k ensures entries[i].fileId != whole[k].fileId {
        assert entries[i] == whole[i];
      }
    }
  }

  /** The next page is bad, or repeats an entry. */
  ghost predicate Unusable(client: nat -> PageAnswer, parent: Id, entries: seq<Entry>) {
    var k := |entries|;
    || !GoodPage(client(k), parent, k)
    || (client(k).records.value != [] && exists e | e in entries :: e.fileId == client(k).records.value[0].value.fileId)
  }

  /** An incomplete listing has used up its pages, or the next page is late, or cannot be used. */
  ghost predicate CutOff(client: nat -> PageAnswer, late: nat -> bool, parent: Id, entries: seq<Entry>, pageCalls: nat) {
    && Unfinished(client, late, parent, entries)
    && (|| |entries| == pageCalls == MAX_LIST_PAGE_CALLS
        || (late(|entries|) && pageCalls == |entries|)
        || (!late(|entries|) && Unusable(client, parent, entries) && pageCalls == |entries| + 1))
  }

  /** Nothing covers a directory whose next page is late, bad or repeats an entry. */
  lemma Breaks(client: nat -> PageAnswer, late: nat -> bool, parent: Id, entries: seq<Entry>)
    requires Unfinished(client, late, parent, entries)
    requires late(|entries|) || Unusable(client, parent, entries)
    ensures forall whole :: !WholeDirectory(client, late, parent, whole)
    ensures CutOff(client, late, parent, entries, if late(|entries|) then |entries| else |entries| + 1)
  {
    forall whole | WholeDirectory(client, late, parent, whole) ensures false {
      NextPage(client, late, parent, entries, whole);
    }
  }

  /** After a page that ends the directory there is one listing that covers it. */
  lemma Ends(client: nat -> PageAnswer, late: nat -> bool, parent: Id, entries: seq<Entry>, all: seq<Entry>)
    requires Unfinished(client, late, parent, entries) && PagesRead(client, late, parent, all)
    requires !late(|entries|) && GoodPage(client(|entries|), parent, |entries|)
    requires
      || (all == entries && client(|entries|).records.value == [])
      || (all != [] && entries == all[..|all| - 1] && client(|all| - 1).count == Some(|all|))
    ensures WholeDirectory(client, late, parent, all) && Calls(client, all) == |entries| + 1
    ensures forall whole | WholeDirectory(client, late, parent, whole) :: whole == all
  {
    forall whole | WholeDirectory(client, late, parent, whole) ensures whole == all {
      NextPage(client, late, parent, entries, whole);
    }
  }

  lemma ReadsOneMore(client: nat -> PageAnswer, late: nat -> bool, parent: Id, entries: seq<Entry>, entry: Entry)
    requires PagesRead(client, late, parent, entries)
    requires !late(|entries|) && GoodPage(client(|entries|), parent, |entries|)
    requires |client(|entries|).records.value| == 1 && client(|entries|).records.value[0] == Some(entry)
    requires forall e | e in entries :: e.fileId != entry.fileId
    ensures PagesRead(client, late, parent, entries + [entry])
    ensures Unfinished(client, late, parent, entries) && client(|entries|).count.value > |entries| + 1 ==>
      Unfinished(client, late, parent, entries + [entry])
  {
    assert client(|entries|).records.value == [Some(entry)];
  }

  /**
    The listing loop.  Its verdict is exact for every client: complete if and only if at most
    four page calls, all in time, cover the whole directory by the client's own counts.
   */
  method ListChildren(client: nat -> PageAnswer, late: nat -> bool, parent: Id) returns (r: LiveAnswer)
    ensures r.LiveListing? ==> 1 <= r.pageCalls <= MAX_LIST_PAGE_CALLS && PagesRead(client, late, parent, r.entries)
    ensures r.LiveListing? && r.complete ==>
      WholeDirectory(client, late, parent, r.entries) && r.pageCalls == Calls(client, r.entries)
    ensures forall whole | WholeDirectory(client, late, parent, whole) && Calls(client, whole) <= MAX_LIST_PAGE_CALLS ::
      r == LiveListing(whole, true, Calls(client, whole))
    ensures r.LiveListing? && !r.complete ==> CutOff(client, late, parent, r.entries, r.pageCalls)
    ensures r.LiveInvalid? <==> late(0)
    ensures r.LiveCancelled? ==> exists k: nat :: client(k).PageCancelled?
  {
    hide PagesRead, WholeDirectory, Calls, CutOff, Unfinished;
    var entries: seq<Entry> := [];
    NothingRead(client, late, parent);
    var offset := 0;
    for pageCall := 1 to MAX_LIST_PAGE_CALLS + 1
      invariant offset == |entries| == pageCall - 1
      invariant Unfinished(client, late, parent, entries) && PagesRead(client, late, parent, entries)
      invariant late(0) ==> pageCall == 1
    {
      if late(pageCall - 1) {
        Breaks(client, late, parent, entries);
        if pageCall == 1 {
          return LiveInvalid;
        }
        return LiveListing(entries, false, pageCall - 1);
      }
      var response := client(offset);
      if response.PageCancelled? {
        Breaks(client, late, parent, entries);
        return LiveCancelled;
      }
      if !GoodPage(response, parent, offset) {
        Breaks(client, late, parent, entries);
        return LiveListing(entries, false, pageCall);
      }
      var records, total := response.records.value, response.count.value;
      if |records| == 0 {
        Ends(client, late, parent, entries, entries);
        return LiveListing(entries, true, pageCall);
      }
      var entry := records[0].value;
      if exists e | e in entries :: e.fileId == entry.fileId {
        Breaks(client, late, parent, entries);
        return LiveListing(entries, false, pageCall);
      }
      ReadsOneMore(client, late, parent, entries, entry);
      ghost var before := entries;
      entries := entries + [entry];
      assert entries[..offset] == before;
      if offset + 1 == total {
        Ends(client, late, parent, before, entries);
        return LiveListing(entries, true, pageCall);
      }
      offset := offset + 1;
    }
    PagesUsedUp(client, late, parent, entries);
    return LiveListing(entries, false, MAX_LIST_PAGE_CALLS);
  }

  lemma PagesUsedUp(client: nat -> PageAnswer, late: nat -> bool, parent: Id, entries: seq<Entry>)
    requires Unfinished(client, late, parent, entries) && |entries| == MAX_LIST_PAGE_CALLS
    ensures CutOff(client, late, parent, entries, MAX_LIST_PAGE_CALLS)
    ensures forall whole | WholeDirectory(client, late, parent, whole) :: Calls(client, whole) > MAX_LIST_PAGE_CALLS
  {
    forall whole | WholeDirectory(client, late, parent, whole) ensures Calls(client, whole) > MAX_LIST_PAGE_CALLS {
      PrefixOfWhole(client, late, parent, entries, whole);
    }
  }

  lemma NothingRead(client: nat -> PageAnswer, late: nat -> bool, parent: Id)
    ensures Unfinished(client, late, parent, []) && PagesRead(client, late, parent, [])
  {
  }

  // ------------------------------------------------------- an honest directory, live

  /** The pages of a directory that holds exactly `s`, in that order. */
  function HonestPage(s: seq<Entry>, offset: nat): PageAnswer {
    Response(Some(offset), Some(VERIFIED_FS_FILES_PAGE_SIZE), Some(|s|),
             Some(if offset < |s| then [Some(s[offset])] else []))
  }

  predicate LiveFits(n: nat) {
    n <= MAX_LIST_PAGE_CALLS
  }

  /** The listing type of the probe, built from what the live loop returns. */
  function ToListing(r: LiveAnswer): ListAnswer {
    match r
    case LiveCancelled => ListCancelled
    case LiveInvalid => ListRaised
    case LiveListing(entries, complete, pages) =>
      if 1 <= pages <= MAX_LIST_PAGE_CALLS then
        Listing(seq(|entries|, i requires 0 <= i < |entries| =>
          RawEntry(TextId(entries[i].fileId), TextId(entries[i].parentId), Some(entries[i].name), Some(entries[i].isDirectory))),
          complete, pages)
      else ListRaised
  }

  ghost predicate ShortIds(s: seq<Entry>) {
    forall e | e in s :: NormalizeId(TextId(e.fileId)) == Some(e.fileId) && NormalizeId(TextId(e.parentId)) == Some(e.parentId)
  }

  /** The entries of `parent` in some order, with ids that survive being written as text. */
  ghost predicate Lists(s: seq<Entry>, t: Tree, parent: Id) {
    && (set e | e in s) == EntriesUnder(t, parent)
    && (forall e | e in s :: e.parentId == parent) && ShortIds(s)
    && forall i, j | 0 <= i < j < |s| :: s[i].fileId != s[j].fileId
  }

  /** What the live loop makes of an honest directory: all of it up to four entries, and of a
      longer one the first four. */
  function LiveList(s: seq<Entry>): ListAnswer {
    ToListing(if |s| <= MAX_LIST_PAGE_CALLS then LiveListing(s, true, if s == [] then 1 else |s|)
              else LiveListing(s[..MAX_LIST_PAGE_CALLS], false, MAX_LIST_PAGE_CALLS))
  }

  /** Read in time, an honest directory lists as the probe's honest remote demands, with room
      for four entries and no more. */
  method ListHonestDirectory(s: seq<Entry>, parent: Id, t: Tree) returns (listing: ListAnswer)
    requires Lists(s, t, parent)
    ensures listing == LiveList(s)
    ensures ListsHonestly(t, parent, listing, LiveFits)
    ensures listing.Listing? && listing.complete ==> listing.pageCalls == if s == [] then 1 else |s|
  {
    var client, late := (k: nat) => HonestPage(s, k), (k: nat) => false;
    HonestIsWhole(s, parent, client, late);
    var r := ListChildren(client, late, parent);
    if |s| > MAX_LIST_PAGE_CALLS {
      HonestPrefix(s, parent, client, late, r.entries);
    }
    LiveListIsHonest(s, parent, t);
    listing := ToListing(r);
  }

  /** Of an honest directory an unfinished listing is a beginning, and the next page can be used. */
  lemma HonestPrefix(s: seq<Entry>, parent: Id, client: nat -> PageAnswer, late: nat -> bool, entries: seq<Entry>)
    requires forall k: nat :: client(k) == HonestPage(s, k) && !late(k)
    requires forall e | e in s :: e.parentId == parent
    requires forall i, j | 0 <= i < j < |s| :: s[i].fileId != s[j].fileId
    requires PagesRead(client, late, parent, entries)
    ensures |entries| <= |s| && entries == s[..|entries|]
    ensures |entries| < |s| ==> !Unusable(client, parent, entries)
  {
    forall i | 0 <= i < |entries| ensures i < |s| && entries[i] == s[i] {
      assert client(i).records.value == [Some(entries[i])];
    }
    assert entries != [] ==> entries[|entries| - 1] in s;
  }

  lemma LiveListIsHonest(s: seq<Entry>, parent: Id, t: Tree)
    requires Lists(s, t, parent)
    ensures ListsHonestly(t, parent, LiveList(s), LiveFits)
  {
    DistinctSize(s);
    if |s| <= MAX_LIST_PAGE_CALLS {
      ReadsBack(s, parent, LiveListing(s, true, if s == [] then 1 else |s|));
    }
  }

  lemma ReadsBack(s: seq<Entry>, parent: Id, r: LiveAnswer)
    requires (forall e | e in s :: e.parentId == parent) && ShortIds(s)
    requires forall i, j | 0 <= i < j < |s| :: s[i].fileId != s[j].fileId
    requires r.LiveListing? && r.entries == s && 1 <= r.pageCalls <= MAX_LIST_PAGE_CALLS
    ensures Readable(ToListing(r).entries, parent) && Shown(ToListing(r).entries, parent) == set e | e in s
  {
    var raw := ToListing(r).entries;
    forall i | 0 <= i < |s| ensures NormalizeEntry(raw[i]) == Some(s[i]) {
      assert s[i] in s;
    }
    assert Reads(raw, parent, s);
    ShownIs(raw, parent, s);
  }

  lemma HonestIsWhole(s: seq<Entry>, parent: Id, client: nat -> PageAnswer, late: nat -> bool)
    requires forall k: nat :: client(k) == HonestPage(s, k) && !late(k)
    requires forall e | e in s :: e.parentId == parent
    requires forall i, j | 0 <= i < j < |s| :: s[i].fileId != s[j].fileId
    ensures WholeDirectory(client, late, parent, s) && Calls(client, s) == if s == [] then 1 else |s|
    ensures forall other | WholeDirectory(client, late, parent, other) :: other == s
  {
    assert PagesRead(client, late, parent, s);
    if s == [] {
      NothingRead(client, late, parent);
      Ends(client, late, parent, [], []);
    } else {
      Ends(client, late, parent, s[..|s| - 1], s);
    }
  }
}
