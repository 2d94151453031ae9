/**
  Reading a whole directory from a pager that says in many ways whether more pages follow.  A
  scan that is reported complete read every page of a consistent run, and a consistent run is
  always reported complete.
 */
module LibraryScan {
  import opened Wrappers
  import opened Sets

  /** Name, path and the like are presentation; the two ids are the identity. */
  datatype Entry = Entry(directoryId: Option<string>, fileId: Option<string>, isDirectory: bool, name: string) {
    function Identity(): (Option<string>, Option<string>) {
      (directoryId, fileId)
    }
  }

  type Identity = (Option<string>, Option<string>)

  datatype ScanState = Complete | Partial | Cancelled

  datatype PageFields = PageFields(
    items: seq<Entry>,
    page: int,
    pageCount: Option<int>,
    total: Option<int>,
    scanComplete: Option<bool>,
    state: ScanState,
    errorCode: Option<string>,
    hasMore: Option<bool>,
    nextPage: Option<int>,
    terminal: Option<bool>)

  /** What the constructor of a page insists on. */
  predicate Constructible(p: PageFields) {
    && p.page >= 1
    && (p.pageCount.Some? ==> p.pageCount.value >= 1)
    && (p.total.Some? ==> p.total.value >= 0)
    && (p.state.Complete? ==> p.scanComplete != Some(false))
    && (!p.state.Complete? ==> p.scanComplete != Some(true))
    && (p.nextPage.Some? ==> p.nextPage.value >= 1)
  }

  type DirectoryPage = p: PageFields | Constructible(p)
    witness PageFields([], 1, None, None, None, Complete, None, None, None, None)

  /** A request is answered with a page, fails, or is cancelled. */
  datatype Answer = Page(page: DirectoryPage) | Failed | Interrupted

  /** No page is asked for twice, so a function of the page number is as good as any gateway. */
  type Gateway = int -> Answer

  datatype ScanError =
    | GatewayError | RepeatedPage | PageCountChanged | TotalChanged | PartialPage | FromPage(code: string)
    | PaginationUnverified | EmptyPage | RepeatedEntry | TotalMismatch

  datatype ScanResult = ScanResult(
    items: seq<Entry>,
    pagesRead: nat,
    pageCount: Option<int>,
    total: Option<int>,
    scanComplete: bool,
    state: ScanState,
    error: Option<ScanError>)

  datatype Outcome = Scanned(result: ScanResult) | InvalidPageSize | ScanCancelled

  // --------------------------------------------------------------------- what a run is

  /** Something on the page says that it is the last. */
  predicate SaysLast(p: DirectoryPage, n: int) {
    p.terminal == Some(true) || p.hasMore == Some(false) || p.pageCount == Some(n)
  }

  /** Something says that it is not. */
  predicate SaysMore(p: DirectoryPage, n: int) {
    || p.terminal == Some(false) || p.hasMore == Some(true) || p.nextPage.Some?
    || (p.pageCount.Some? && n < p.pageCount.value)
  }

  /** A bare "not terminal" does not lead anywhere. */
  predicate LeadsOn(p: DirectoryPage, n: int) {
    p.hasMore == Some(true) || p.nextPage.Some? || (p.pageCount.Some? && n < p.pageCount.value)
  }

  predicate Coherent(p: DirectoryPage, n: int) {
    && !(SaysLast(p, n) && SaysMore(p, n))
    && (p.nextPage.Some? ==> p.nextPage.value == n + 1)
    && (p.pageCount.Some? ==> n <= p.pageCount.value)
  }

  /** Only a last page may be empty, and a page count alone does not explain an empty last page
      of a directory that has something in it. */
  predicate EmptyExplained(p: DirectoryPage, n: int) {
    || p.terminal == Some(true) || p.hasMore == Some(false)
    || (p.pageCount == Some(n) && (p.total.None? || p.total == Some(0)))
  }

  predicate Acceptable(g: Gateway, n: int) {
    && g(1).Page? && g(n).Page?
    && var p := g(n).page;
    && p.page == n && p.state.Complete?
    && p.pageCount == g(1).page.pageCount && p.total == g(1).page.total
    && Coherent(p, n)
    && (p.items == [] ==> EmptyExplained(p, n))
    && (SaysLast(p, n) || LeadsOn(p, n))
  }

  /** Everything on pages 1 to n, in order. */
  function Upto(g: Gateway, n: nat): seq<Entry> {
    if n == 0 then [] else Upto(g, n - 1) + (if g(n).Page? then g(n).page.items else [])
  }

  predicate Distinct(items: seq<Entry>) {
    forall i, j | 0 <= i < j < |items| :: items[i].Identity() != items[j].Identity()
  }

  /** Pages 1 to n lead from each to the next. */
  ghost predicate Chain(g: Gateway, n: nat) {
    (forall k | 1 <= k <= n :: Acceptable(g, k) && LeadsOn(g(k).page, k)) && Distinct(Upto(g, n))
  }

  /** Pages 1 to n are a whole directory. */
  ghost predicate Whole(g: Gateway, n: nat) {
    && n >= 1 && Chain(g, n - 1)
    && Acceptable(g, n) && SaysLast(g(n).page, n)
    && Distinct(Upto(g, n))
    && (g(n).page.total.Some? ==> g(n).page.total.value == |Upto(g, n)|)
  }

  /** The run breaks at page n. */
  ghost predicate Breaks(g: Gateway, n: nat) {
    && n >= 1 && Chain(g, n - 1)
    && (|| !Acceptable(g, n)
        || !Distinct(Upto(g, n))
        || (SaysLast(g(n).page, n) && g(n).page.total.Some? && g(n).page.total.value != |Upto(g, n)|))
  }

  lemma LastDoesNotLeadOn(g: Gateway, n: int)
    requires Acceptable(g, n)
    ensures SaysLast(g(n).page, n) <==> !LeadsOn(g(n).page, n)
  {
  }

  lemma {:induction false} UptoIsPrefix(g: Gateway, m: nat, n: nat)
    requires m <= n
    ensures |Upto(g, m)| <= |Upto(g, n)| && Upto(g, n)[..|Upto(g, m)|] == Upto(g, m)
  {
    if m < n {
      UptoIsPrefix(g, m, n - 1);
    }
  }

  /** A directory is read in one way at most, and a broken run has no whole directory. */
  lemma BrokenIsNotWhole(g: Gateway, m: nat, n: nat)
    requires Breaks(g, m)
    ensures !Whole(g, n)
  {
    if Whole(g, n) {
      if n < m {
        LastDoesNotLeadOn(g, n);
        assert false;
      } else {
        UptoIsPrefix(g, m, n);
        if m < n {
          LastDoesNotLeadOn(g, m);
        }
        assert false;
      }
    }
  }

  lemma WholeIsUnique(g: Gateway, m: nat, n: nat)
    requires Whole(g, m) && Whole(g, n)
    ensures m == n
  {
    if m < n {
      LastDoesNotLeadOn(g, m);
      assert false;
    } else if n < m {
      LastDoesNotLeadOn(g, n);
      assert false;
    }
  }

  // ------------------------------------------------------------------------- the scan

  /** The signals the scan refuses, listed as it lists them. */
  predicate SignalConflict(p: DirectoryPage, n: int) {
    var atCount := p.pageCount == Some(n);
    var beforeCount := p.pageCount.Some? && n < p.pageCount.value;
    || (p.terminal == Some(true) && p.hasMore == Some(true))
    || (p.terminal == Some(true) && p.nextPage.Some?)
    || (p.hasMore == Some(false) && p.nextPage.Some?)
    || (p.terminal == Some(false) && p.hasMore == Some(false))
    || (p.nextPage.Some? && p.nextPage.value != n + 1)
    || (atCount && (p.terminal == Some(false) || p.hasMore == Some(true) || p.nextPage.Some?))
    || (beforeCount && (p.terminal == Some(true) || p.hasMore == Some(false)))
    || (p.pageCount.Some? && p.pageCount.value < n)
  }

  predicate EmptyRefused(p: DirectoryPage, n: int) {
    && p.items == []
    && (p.pageCount.None? || n < p.pageCount.value || (p.total.Some? && p.total.value != 0))
    && p.terminal != Some(true) && p.hasMore != Some(false)
  }

  /** The eight refusals are exactly the contradictions between "last" and "more", a next page
      that is not the next, and a page beyond the count. */
  lemma ConflictsAreContradictions(p: DirectoryPage, n: int)
    ensures SignalConflict(p, n) <==> !Coherent(p, n)
    ensures Coherent(p, n) ==> (EmptyRefused(p, n) <==> p.items == [] && !EmptyExplained(p, n))
    ensures Coherent(p, n) && !EmptyRefused(p, n) && p.items == [] ==> SaysLast(p, n)
  {
  }

  function Identities(items: seq<Entry>): set<Identity> {
    set e | e in items :: e.Identity()
  }

  /** Takes in one page's entries, up to the first that was seen before. */
  method Collect(page: seq<Entry>, before: seq<Entry>, seenBefore: set<Identity>)
      returns (items: seq<Entry>, seen: set<Identity>, repeated: bool)
    requires seenBefore == Identities(before) && Distinct(before)
    ensures before <= items <= before + page && Distinct(items) && seen == Identities(items)
    ensures !repeated ==> items == before + page
    ensures repeated ==> !Distinct(before + page)
  {
    items, seen, repeated := before, seenBefore, false;
    for i := 0 to |page|
      invariant items == before + page[..i]
      invariant seen == Identities(items) && Distinct(items)
    {
      var identity := page[i].Identity();
      if identity in seen {
        ghost var j :| 0 <= j < |items| && items[j].Identity() == identity;
        assert (before + page)[j] == items[j] && (before + page)[|before| + i] == page[i];
        return items, seen, true;
      }
      seen := seen + {identity};
      items := items + [page[i]];
    }
  }

  lemma {:induction false} DistinctIdentities(items: seq<Entry>)
    requires Distinct(items)
    ensures |Identities(items)| == |items|
  {
    if items == [] {
      assert Identities(items) == {};
    } else {
      var init, last := items[..|items| - 1], items[|items| - 1];
      assert items == init + [last];
      DistinctIdentities(init);
      assert Identities(items) == Identities(init) + {last.Identity()};
      assert last.Identity() !in Identities(init);
    }
  }

  /** The gateway only ever shows entries with identities in `known`. */
  ghost predicate ShowsOnly(g: Gateway, known: set<Identity>) {
    forall n | g(n).Page? :: Identities(g(n).page.items) <= known
  }

  function Partially(items: seq<Entry>, pages: nat, pageCount: Option<int>, total: Option<int>, error: ScanError): ScanResult {
    ScanResult(items, pages, pageCount, total, false, Partial, Some(error))
  }

  /** The checks of one page before its entries are taken in; none means that it passed. */
  method Examine(g: Gateway, page: DirectoryPage, n: nat, items: seq<Entry>, pageCount: Option<int>, total: Option<int>)
      returns (bad: Option<ScanResult>)
    requires n >= 1 && g(1).Page? && g(n) == Page(page) && page.page == n
    requires pageCount == g(1).page.pageCount && total == g(1).page.total
    ensures bad.None? ==> page.state.Complete? && Coherent(page, n) && (page.items == [] ==> EmptyExplained(page, n))
    ensures bad.None? ==> page.pageCount == pageCount && page.total == total
    ensures bad.Some? ==> !Acceptable(g, n) && bad.value.items == items && bad.value.pagesRead == n
    ensures bad.Some? ==> !bad.value.scanComplete && !bad.value.state.Complete? && bad.value.error.Some?
    ensures bad.Some? ==> Details(g, bad.value, n)
    ensures bad.Some? ==> Reason(g, n, bad.value.error.value) && bad.value.error.value !in {GatewayError, RepeatedPage}
  {
    ConflictsAreContradictions(page, n);
    if page.pageCount != pageCount {
      return Some(Partially(items, n, page.pageCount, page.total, PageCountChanged));
    }
    if page.total != total {
      return Some(Partially(items, n, pageCount, page.total, TotalChanged));
    }
    if !page.state.Complete? || page.scanComplete == Some(false) {
      var code := if page.errorCode.None? || page.errorCode == Some("") then PartialPage else FromPage(page.errorCode.value);
      return Some(ScanResult(items, n, pageCount, total, false, page.state, Some(code)));
    }
    if SignalConflict(page, n) {
      return Some(Partially(items, n, pageCount, total, PaginationUnverified));
    }
    if EmptyRefused(page, n) {
      var silent := pageCount.None? && page.hasMore.None? && page.nextPage.None? && page.terminal.None?;
      return Some(Partially(items, n, pageCount, total, if silent then PaginationUnverified else EmptyPage));
    }
    return None;
  }

  /** What each error code says about page n. */
  ghost predicate Reason(g: Gateway, n: nat, error: ScanError) {
    match error
    case GatewayError => g(n).Failed?
    case RepeatedPage => g(n).Page? && g(n).page.page != n
    case PageCountChanged => g(1).Page? && g(n).Page? && g(n).page.pageCount != g(1).page.pageCount
    case TotalChanged => g(1).Page? && g(n).Page? && g(n).page.total != g(1).page.total
    case PartialPage => g(n).Page? && !g(n).page.state.Complete?
    case FromPage(code) => g(n).Page? && !g(n).page.state.Complete? && g(n).page.errorCode == Some(code)
    case EmptyPage => g(n).Page? && g(n).page.items == [] && !EmptyExplained(g(n).page, n)
    case PaginationUnverified =>
      g(n).Page? && (!Coherent(g(n).page, n) || (!SaysLast(g(n).page, n) && !LeadsOn(g(n).page, n)))
    case RepeatedEntry => !Distinct(Upto(g, n))
    case TotalMismatch =>
      g(n).Page? && SaysLast(g(n).page, n) && g(n).page.total.Some? && g(n).page.total.value != |Upto(g, n)|
  }

  /** Page count and total are the first page's, or those of a page that contradicts it; a page
      that is itself incomplete passes on its state. */
  ghost predicate Details(g: Gateway, r: ScanResult, n: nat) {
    var changed := r.error in {Some(PageCountChanged), Some(TotalChanged)};
    var own := r.error.Some? && (r.error.value.PartialPage? || r.error.value.FromPage?);
    var source := if changed then n else 1;
    && (r.pagesRead > 0 ==> g(source).Page? && r.pageCount == g(source).page.pageCount && r.total == g(source).page.total)
    && (r.pagesRead == 0 ==> r.pageCount.None? && r.total.None?)
    && (own ==> g(n).Page? && r.state == g(n).page.state)
    && (r.error.Some? && !own ==> r.state.Partial?)
  }

  /** What a scan that read to page n, or failed there, may answer. */
  ghost predicate Reports(g: Gateway, r: ScanResult, n: nat) {
    && n >= 1
    && (r.scanComplete ==> r.pagesRead == n && r.items == Upto(g, n) && r.error.None? && Whole(g, n))
    && (!r.scanComplete ==> r.error.Some? && Breaks(g, n) && Upto(g, n - 1) <= r.items <= Upto(g, n) && Distinct(r.items))
    && (r.scanComplete <==> r.state.Complete?)
    && (r.pagesRead == n || (r.pagesRead == n - 1 && r.error in {Some(GatewayError), Some(RepeatedPage)}))
    && (r.error.Some? ==> Reason(g, n, r.error.value))
    && Details(g, r, n)
  }

  lemma BrokenIsNowhereWhole(g: Gateway, n: nat)
    requires Breaks(g, n)
    ensures forall m: nat :: !Whole(g, m)
  {
    hide Breaks, Whole;
    forall m: nat ensures !Whole(g, m) {
      BrokenIsNotWhole(g, n, m);
    }
  }

  /** A scan reports completion exactly when there is a whole directory to report, and then it
      reports that directory. */
  lemma ReportsAreExact(g: Gateway, r: ScanResult, n: nat)
    requires Reports(g, r, n)
    ensures r.scanComplete <==> exists m: nat :: Whole(g, m)
    ensures forall m: nat | Whole(g, m) :: r.items == Upto(g, m) && r.pagesRead == m
  {
    hide Whole, Breaks, Upto;
    if r.scanComplete {
      forall m: nat | Whole(g, m) ensures m == n {
        WholeIsUnique(g, m, n);
      }
    } else {
      BrokenIsNowhereWhole(g, n);
    }
  }

  /** How a scan came to its end at page n. */
  ghost predicate EndsAt(g: Gateway, outcome: Outcome, n: nat) {
    match outcome
    case InvalidPageSize => false
    case ScanCancelled => n >= 1 && Chain(g, n - 1) && g(n).Interrupted?
    case Scanned(r) => Reports(g, r, n)
  }

  /** The last checks, once the entries of page n are in. */
  method Conclude(g: Gateway, page: DirectoryPage, n: nat, items: seq<Entry>, pageCount: Option<int>, total: Option<int>)
      returns (end: Option<ScanResult>)
    requires n >= 1 && Chain(g, n - 1) && g(1).Page? && g(n) == Page(page) && page.page == n
    requires pageCount == g(1).page.pageCount == page.pageCount && total == g(1).page.total == page.total
    requires page.state.Complete? && Coherent(page, n) && (page.items == [] ==> EmptyExplained(page, n))
    requires items == Upto(g, n) && Distinct(items)
    ensures end.None? ==> Acceptable(g, n) && LeadsOn(page, n)
    ensures end.Some? ==> Reports(g, end.value, n)
  {
    hide Distinct, EmptyExplained;
    UptoIsPrefix(g, n - 1, n);
    if SaysLast(page, n) {
      if total.Some? && |items| != total.value {
        return Some(Partially(items, n, pageCount, total, TotalMismatch));
      }
      return Some(ScanResult(items, n, pageCount, total, true, Complete, None));
    }
    if !LeadsOn(page, n) {
      return Some(Partially(items, n, pageCount, total, PaginationUnverified));
    }
    return None;
  }

  /** All that is done with one page: none means that the scan goes on to the next. */
  method ReadPage(g: Gateway, page: DirectoryPage, n: nat, before: seq<Entry>, seenBefore: set<Identity>,
                  pageCount: Option<int>, total: Option<int>)
      returns (items: seq<Entry>, seen: set<Identity>, end: Option<ScanResult>)
    requires n >= 1 && Chain(g, n - 1) && g(1).Page? && g(n) == Page(page) && page.page == n
    requires pageCount == g(1).page.pageCount && total == g(1).page.total
    requires before == Upto(g, n - 1) && seenBefore == Identities(before)
    ensures end.Some? ==> Reports(g, end.value, n)
    ensures end.None? ==> Chain(g, n) && (page.nextPage.Some? ==> page.nextPage.value == n + 1)
    ensures end.None? ==> items == before + page.items == Upto(g, n) && seen == Identities(items) && |before| < |items|
    ensures end.None? ==> Distinct(items)
  {
    items, seen := before, seenBefore;
    end := Examine(g, page, n, items, pageCount, total);
    if end.Some? {
      return;
    }
    var repeated;
    items, seen, repeated := Collect(page.items, before, seenBefore);
    hide Distinct, SaysLast, EmptyExplained, Identities;
    if repeated {
      return items, seen, Some(Partially(items, n, pageCount, total, RepeatedEntry));
    }
    end := Conclude(g, page, n, items, pageCount, total);
    if end.None? {
      LastDoesNotLeadOn(g, n);
      if page.items == [] {
        EmptyIsLast(g, n);
      }
    }
  }

  lemma EmptyIsLast(g: Gateway, n: int)
    requires Acceptable(g, n) && g(n).page.items == []
    ensures SaysLast(g(n).page, n)
  {
  }

  /** A page that could not be had, or that is another page, ends the scan before it is read. */
  lemma NotReadIsReported(g: Gateway, n: nat, items: seq<Entry>, pageCount: Option<int>, total: Option<int>, error: ScanError)
    requires n >= 1 && Chain(g, n - 1) && items == Upto(g, n - 1)
    requires n > 1 ==> g(1).Page? && pageCount == g(1).page.pageCount && total == g(1).page.total
    requires n == 1 ==> pageCount.None? && total.None?
    requires (error.GatewayError? && g(n).Failed?) || (error.RepeatedPage? && g(n).Page? && g(n).page.page != n)
    ensures Reports(g, Partially(items, n - 1, pageCount, total, error), n)
  {
    hide Distinct, Coherent, SaysLast, LeadsOn, EmptyExplained;
  }

  lemma NothingScanned(g: Gateway, known: set<Identity>)
    ensures Upto(g, 0) == [] && Identities([]) == {} && Distinct([]) && Chain(g, 0)
  {
  }

  /** The loop over the pages.  It ends when there are finitely many identities to show: every
      page that leads on shows a new one. */
  method ScanPages(g: Gateway, ghost known: set<Identity>) returns (outcome: Outcome, ghost end: nat)
    requires ShowsOnly(g, known)
    ensures EndsAt(g, outcome, end)
  {
    NothingScanned(g, known);
    hide Identities, Distinct, Acceptable, Reports, Chain, Upto, ShowsOnly;
    var items: seq<Entry> := [];
    var seenPages: set<int> := {};
    var seenEntries: set<Identity> := {};
    var pageCount: Option<int> := None;
    var pageCountSeen := false;
    var total: Option<int> := None;
    var totalSeen := false;
    var pagesRead := 0;
    var n := 1;
    while true
      invariant n == pagesRead + 1 && forall k :: k in seenPages <==> 1 <= k < n
      invariant pageCountSeen == totalSeen == (n > 1)
      invariant n > 1 ==> g(1).Page? && pageCount == g(1).page.pageCount && total == g(1).page.total
      invariant n == 1 ==> pageCount.None? && total.None?
      invariant items == Upto(g, n - 1) && seenEntries == Identities(items) && Distinct(items)
      invariant seenEntries <= known && Chain(g, n - 1)
      decreases |known| - |items|
    {
      var answer := g(n);
      if answer.Interrupted? {
        return ScanCancelled, n;
      }
      if answer.Failed? {
        NotReadIsReported(g, n, items, pageCount, total, GatewayError);
        return Scanned(Partially(items, pagesRead, pageCount, total, GatewayError)), n;
      }
      var page := answer.page;
      if page.page != n || page.page in seenPages {
        NotReadIsReported(g, n, items, pageCount, total, RepeatedPage);
        return Scanned(Partially(items, pagesRead, pageCount, total, RepeatedPage)), n;
      }
      seenPages := seenPages + {page.page};
      pagesRead := pagesRead + 1;
      if !pageCountSeen {
        pageCount, pageCountSeen := page.pageCount, true;
      }
      if !totalSeen {
        total, totalSeen := page.total, true;
      }
      ghost var before := items;
      var last;
      items, seenEntries, last := ReadPage(g, page, n, items, seenEntries, pageCount, total);
      if last.Some? {
        return Scanned(last.value), n;
      }
      var next := if page.nextPage.Some? then page.nextPage.value else n + 1;
      if next <= n || next in seenPages {
        assert false;
      }
      GrowsWithin(g, before, items, page.items, n, known);
      n := next;
    }
  }

  /** A scan reports a complete directory exactly when there is one, and then reports that one. */
  method ScanDirectory(g: Gateway, pageSize: int, ghost known: set<Identity>) returns (outcome: Outcome)
    requires ShowsOnly(g, known)
    ensures outcome.InvalidPageSize? <==> !(1 <= pageSize <= 1000)
    ensures !outcome.InvalidPageSize? ==> exists n: nat :: EndsAt(g, outcome, n)
    ensures outcome.Scanned? && outcome.result.scanComplete ==> exists n: nat :: Whole(g, n)
    ensures !outcome.InvalidPageSize? ==> forall n: nat | Whole(g, n) ::
      && outcome.Scanned? && outcome.result.scanComplete
      && outcome.result.items == Upto(g, n) && outcome.result.pagesRead == n
  {
    hide Whole, Reports, Chain, Breaks, Acceptable;
    if !(1 <= pageSize <= 1000) {
      return InvalidPageSize;
    }
    ghost var end;
    outcome, end := ScanPages(g, known);
    if outcome.Scanned? {
      ReportsAreExact(g, outcome.result, end);
    } else {
      InterruptedBreaks(g, end);
    }
  }

  lemma InterruptedBreaks(g: Gateway, n: nat)
    requires n >= 1 && Chain(g, n - 1) && g(n).Interrupted?
    ensures forall m: nat :: !Whole(g, m)
  {
    assert Breaks(g, n);
    BrokenIsNowhereWhole(g, n);
  }

  lemma GrowsWithin(g: Gateway, before: seq<Entry>, items: seq<Entry>, page: seq<Entry>, n: int, known: set<Identity>)
    requires ShowsOnly(g, known) && g(n).Page? && g(n).page.items == page && page != []
    requires items == before + page && Distinct(items) && Identities(before) <= known
    ensures Identities(items) <= known && |before| < |items| <= |known|
  {
    assert Identities(items) == Identities(before) + Identities(page);
    DistinctIdentities(items);
    SubsetSize(Identities(items), known);
  }

  // ------------------------------------------------------------------ an honest pager

  function Flat(chunks: seq<seq<Entry>>): seq<Entry> {
    if chunks == [] then [] else Flat(chunks[..|chunks| - 1]) + chunks[|chunks| - 1]
  }

  /** Page k of n shows the k-th chunk; every signal it gives is true, and it gives enough. */
  ghost predicate HonestPage(p: DirectoryPage, k: nat, chunks: seq<seq<Entry>>)
    requires 1 <= k <= |chunks|
  {
    var n := |chunks|;
    && p.page == k && p.items == chunks[k - 1] && p.state.Complete?
    && (p.total.None? || p.total == Some(|Flat(chunks)|))
    && (p.pageCount.None? || p.pageCount == Some(n))
    && (p.terminal.Some? ==> p.terminal.value == (k == n))
    && (p.hasMore.Some? ==> p.hasMore.value == (k < n))
    && (p.nextPage.Some? ==> k < n && p.nextPage.value == k + 1)
    && (k < n ==> p.pageCount.Some? || p.hasMore.Some? || p.nextPage.Some?)
    && (k == n ==> p.pageCount.Some? || p.hasMore.Some? || p.terminal.Some?)
  }

  /** Only the last page may be empty, and then it explains why. */
  ghost predicate SplitsUp(g: Gateway, chunks: seq<seq<Entry>>) {
    && |chunks| >= 1
    && (forall k: nat | 1 <= k <= |chunks| :: g(k).Page? && HonestPage(g(k).page, k, chunks))
    && (forall k: nat | 1 <= k <= |chunks| ::
          g(k).page.pageCount == g(1).page.pageCount && g(k).page.total == g(1).page.total)
    && (forall k: nat | 1 <= k <= |chunks| && chunks[k - 1] == [] :: k == |chunks| && EmptyExplained(g(k).page, k))
  }

  lemma {:induction false} UptoIsFlat(g: Gateway, chunks: seq<seq<Entry>>, k: nat)
    requires SplitsUp(g, chunks) && k <= |chunks|
    ensures Upto(g, k) == Flat(chunks[..k])
  {
    if k > 0 {
      UptoIsFlat(g, chunks, k - 1);
      assert chunks[..k][..k - 1] == chunks[..k - 1];
      assert g(k).Page? && HonestPage(g(k).page, k, chunks);
    }
  }

  lemma HonestIsAcceptable(g: Gateway, chunks: seq<seq<Entry>>, k: nat)
    requires SplitsUp(g, chunks) && 1 <= k <= |chunks|
    ensures g(k).Page? && Acceptable(g, k)
    ensures k < |chunks| ==> LeadsOn(g(k).page, k)
    ensures k == |chunks| ==> SaysLast(g(k).page, k)
    ensures g(k).page.total.Some? ==> g(k).page.total.value == |Flat(chunks)|
  {
    assert HonestPage(g(k).page, k, chunks);
  }

  /** Any list of distinct entries, split up in any way by a pager that says enough and nothing
      false, makes a whole directory: the scan returns the list. */
  lemma HonestIsWhole(g: Gateway, chunks: seq<seq<Entry>>)
    requires SplitsUp(g, chunks) && Distinct(Flat(chunks))
    ensures Whole(g, |chunks|) && Upto(g, |chunks|) == Flat(chunks)
  {
    HonestChain(g, chunks);
    HonestIsAcceptable(g, chunks, |chunks|);
    UptoIsFlat(g, chunks, |chunks|);
    assert chunks[..|chunks|] == chunks;
    hide Acceptable, SaysLast, SplitsUp, Flat, Upto, Chain, Distinct;
  }

  /** Every page but the last leads on to the next. */
  lemma HonestChain(g: Gateway, chunks: seq<seq<Entry>>)
    requires SplitsUp(g, chunks) && Distinct(Flat(chunks))
    ensures |chunks| >= 1 && Chain(g, |chunks| - 1)
  {
    var n := |chunks|;
    assert chunks[..n] == chunks;
    UptoIsFlat(g, chunks, n);
    hide Acceptable, LeadsOn, SaysLast, Distinct, Flat, Upto;
    PrefixIsDistinct(g, n - 1, n);
    forall k: nat | 1 <= k < n ensures Acceptable(g, k) && LeadsOn(g(k).page, k) {
      HonestIsAcceptable(g, chunks, k);
    }
  }

  lemma PrefixIsDistinct(g: Gateway, m: nat, n: nat)
    requires m <= n && Distinct(Upto(g, n))
    ensures Distinct(Upto(g, m))
  {
    UptoIsPrefix(g, m, n);
  }
}
