/**
  The routes of the front end: printing a catalog or media route as a path and reading it back.
  `Number` and `String` of JavaScript are parameters, fixed only on safe natural numbers.
 */
module Router {
  import opened Wrappers
  import opened Decimals
  import opened FormCodec

  // ------------------------------------------------------------------- numbers, text

  /** A JavaScript number: a safe integer, or anything else with what the code asks of it. */
  datatype Num = Whole(n: int) | Infinite | Other(aboveOne: bool)

  const MAX_SAFE: nat := 9007199254740991

  /** The conversions, which agree with decimal notation on safe integers. */
  datatype Js = Js(number: string -> Num, text: Num -> string)

  ghost predicate Decimal10(js: Js) {
    && (forall s | s != "" && AllDigits(s) && ValueOf(s) <= MAX_SAFE :: js.number(s) == Whole(ValueOf(s)))
    && (forall n: nat | n <= MAX_SAFE :: js.text(Whole(n)) == Decimal(n))
    && (forall n: int | n < 0 :: !AllDigits(js.text(Whole(n))))
  }

  predicate IsSpace(c: char) {
    var n := c as int;
    || 0x9 <= n <= 0xD || n == 0x20 || n == 0xA0 || n == 0x1680 || 0x2000 <= n <= 0x200A
    || n == 0x2028 || n == 0x2029 || n == 0x202F || n == 0x205F || n == 0x3000 || n == 0xFEFF
  }

  function Trim(s: string): (r: string)
    ensures r != "" ==> !IsSpace(r[0]) && !IsSpace(r[|r| - 1])
    decreases |s|
  {
    if s == "" then "" else if IsSpace(s[0]) then Trim(s[1..]) else if IsSpace(s[|s| - 1]) then Trim(s[..|s| - 1]) else s
  }

  lemma TrimTwice(s: string)
    ensures Trim(Trim(s)) == Trim(s)
  {
  }

  /** The first two of the pieces between question marks. */
  function SplitQuery(path: string): (string, string) {
    var k := Find(path, '?');
    if k == |path| then (path, "")
    else var rest := path[k + 1..]; (path[..k], rest[..Find(rest, '?')])
  }

  lemma SplitPrinted(pathname: string, query: string)
    requires '?' !in pathname && '?' !in query
    ensures SplitQuery(if query == "" then pathname else pathname + "?" + query) == (pathname, query)
  {
    if query == "" {
      FindNone(pathname, '?');
      assert pathname[..|pathname|] == pathname;
    } else {
      var path := pathname + "?" + query;
      assert path == pathname + ['?'] + query;
      FindAfter(pathname, '?', query);
      FindNone(query, '?');
      assert path[..|pathname|] == pathname && path[|pathname| + 1..] == query && query[..|query|] == query;
    }
  }

  /** `params.set` on a new name. */
  function With(ps: Params, name: string, value: string, wanted: bool): Params {
    if wanted then ps + [(name, value)] else ps
  }

  lemma {:induction false} GetWith(ps: Params, name: string, value: string, wanted: bool, asked: string)
    requires Get(ps, name).None?
    ensures Get(With(ps, name, value, wanted), asked) == if asked == name && wanted then Some(value) else Get(ps, asked)
  {
    if wanted && ps != [] {
      assert (ps + [(name, value)])[1..] == ps[1..] + [(name, value)];
      GetWith(ps[1..], name, value, wanted, asked);
    }
  }

  // ---------------------------------------------------------------------- the catalog

  datatype View = Home | Movies | Tv | Popular | Favorites | History | Search | Settings
                | OrganizationPlans | Workflows | Notifications

  type CatalogView = v: View | v in {Movies, Tv, Popular, Search} witness Movies

  datatype Sort = ByPopularity | ByRating | ByRelease

  datatype CatalogRoute = CatalogRoute(view: CatalogView, query: string, page: Num, genreId: Option<Num>, year: Option<Num>, sort: Sort)

  const MAX_CATALOG_PAGES := 500

  function ClampPage(page: Num): (n: int)
    ensures 1 <= n <= MAX_CATALOG_PAGES
    ensures page.Whole? && 1 <= page.n <= MAX_CATALOG_PAGES ==> n == page.n
  {
    var n := if page.Whole? then page.n else 1;
    if n < 1 then 1 else if n > MAX_CATALOG_PAGES then MAX_CATALOG_PAGES else n
  }

  predicate AboveOne(page: Num) {
    match page
    case Whole(n) => n > 1
    case Infinite => true
    case Other(above) => above
  }

  function ViewOf(path: string): View {
    var pathname := path[..Find(path, '?')];
    if pathname == "/movies" then Movies
    else if pathname == "/tv" then Tv
    else if pathname == "/popular" then Popular
    else if pathname == "/favorites" then Favorites
    else if pathname == "/history" then History
    else if pathname == "/search" then Search
    else if pathname == "/settings" then Settings
    else if pathname == "/organization-plans" then OrganizationPlans
    else if pathname == "/workflows" then Workflows
    else if pathname == "/notifications" then Notifications
    else Home
  }

  function PathOf(view: CatalogView): string {
    match view
    case Movies => "/movies"
    case Tv => "/tv"
    case Popular => "/popular"
    case _ => "/search"
  }

  function SortName(sort: Sort): string {
    match sort
    case ByPopularity => "popular"
    case ByRating => "rating"
    case ByRelease => "release"
  }

  function OrElse(a: Option<string>, b: string): string {
    if a.Some? then a.value else b
  }

  function ReadGenre(js: Js, raw: Option<string>): Option<Num> {
    if raw.None? || raw.value == "" || !AllDigits(raw.value) then None
    else
      var n := js.number(raw.value);
      if (n.Whole? && n.n >= 1) || n.Infinite? || (n.Other? && n.aboveOne) then Some(n) else None
  }

  function ReadYear(js: Js, raw: Option<string>): Option<Num> {
    if raw.None? || |raw.value| != 4 || !AllDigits(raw.value) then None
    else var n := js.number(raw.value); if n.Whole? && 1900 <= n.n <= 2100 then Some(n) else None
  }

  function ReadSort(raw: Option<string>): Sort {
    if raw == Some("rating") then ByRating else if raw == Some("release") then ByRelease else ByPopularity
  }

  function ReadCatalog(js: Js, view: CatalogView, ps: Params): CatalogRoute {
    CatalogRoute(
      view,
      Trim(if Get(ps, "query").Some? then Get(ps, "query").value else OrElse(Get(ps, "q"), "")),
      Whole(ClampPage(js.number(OrElse(Get(ps, "page"), "1")))),
      ReadGenre(js, Get(ps, "genre")),
      ReadYear(js, Get(ps, "year")),
      ReadSort(Get(ps, "sort")))
  }

  function ParseCatalogRoute(js: Js, path: string): Option<CatalogRoute> {
    var (pathname, query) := SplitQuery(path);
    var view := ViewOf(pathname);
    if view !in {Movies, Tv, Popular, Search} then None else Some(ReadCatalog(js, view, Parse(query)))
  }

  function CatalogParams(js: Js, r: CatalogRoute): Params {
    var query := Trim(r.query);
    var ps := With([], "page", js.text(Whole(ClampPage(r.page))), AboveOne(r.page));
    var ps := With(ps, "query", query, query != "");
    var ps := With(ps, "genre", if r.genreId.Some? then js.text(r.genreId.value) else "", r.genreId.Some?);
    var ps := With(ps, "year", if r.year.Some? then js.text(r.year.value) else "", r.year.Some?);
    With(ps, "sort", SortName(r.sort), !r.sort.ByPopularity?)
  }

  function CatalogRoutePath(js: Js, r: CatalogRoute): string {
    var query := Serialize(CatalogParams(js, r));
    if query == "" then PathOf(r.view) else PathOf(r.view) + "?" + query
  }

  /** What a route means: page within bounds, no outer white space, a genre from 1, a year from
      1900 to 2100. */
  function NormalRoute(r: CatalogRoute): CatalogRoute {
    r.(query := Trim(r.query), page := Whole(ClampPage(r.page)),
       genreId := if r.genreId.Some? && r.genreId.value.Whole? && r.genreId.value.n >= 1 then r.genreId else None,
       year := if r.year.Some? && r.year.value.Whole? && 1900 <= r.year.value.n <= 2100 then r.year else None)
  }

  /** Genre and year are absent or safe integers. */
  predicate Safe(n: Option<Num>) {
    n.None? || (n.value.Whole? && n.value.n <= MAX_SAFE)
  }

  lemma CatalogParamsRead(js: Js, r: CatalogRoute)
    ensures
      var ps := CatalogParams(js, r);
      && Get(ps, "page") == (if AboveOne(r.page) then Some(js.text(Whole(ClampPage(r.page)))) else None)
      && Get(ps, "query") == (if Trim(r.query) != "" then Some(Trim(r.query)) else None)
      && Get(ps, "q").None?
      && Get(ps, "genre") == (if r.genreId.Some? then Some(js.text(r.genreId.value)) else None)
      && Get(ps, "year") == (if r.year.Some? then Some(js.text(r.year.value)) else None)
      && Get(ps, "sort") == (if r.sort.ByPopularity? then None else Some(SortName(r.sort)))
  {
    hide Trim, ClampPage, AboveOne, SortName, With;
    var ps0: Params := [];
    var query := Trim(r.query);
    var genre := if r.genreId.Some? then js.text(r.genreId.value) else "";
    var year := if r.year.Some? then js.text(r.year.value) else "";
    var ps1 := With(ps0, "page", js.text(Whole(ClampPage(r.page))), AboveOne(r.page));
    var ps2 := With(ps1, "query", query, query != "");
    var ps3 := With(ps2, "genre", genre, r.genreId.Some?);
    var ps4 := With(ps3, "year", year, r.year.Some?);
    forall name ensures Get(ps1, name) == if name == "page" && AboveOne(r.page) then Some(js.text(Whole(ClampPage(r.page)))) else None {
      GetWith(ps0, "page", js.text(Whole(ClampPage(r.page))), AboveOne(r.page), name);
    }
    forall name ensures Get(ps2, name) == if name == "query" && query != "" then Some(query) else Get(ps1, name) {
      GetWith(ps1, "query", query, query != "", name);
    }
    forall name ensures Get(ps3, name) == if name == "genre" && r.genreId.Some? then Some(genre) else Get(ps2, name) {
      GetWith(ps2, "genre", genre, r.genreId.Some?, name);
    }
    forall name ensures Get(ps4, name) == if name == "year" && r.year.Some? then Some(year) else Get(ps3, name) {
      GetWith(ps3, "year", year, r.year.Some?, name);
    }
    forall name ensures Get(CatalogParams(js, r), name) == if name == "sort" && !r.sort.ByPopularity? then Some(SortName(r.sort)) else Get(ps4, name) {
      GetWith(ps4, "sort", SortName(r.sort), !r.sort.ByPopularity?, name);
    }
  }

  /** What the printers do to their parameters. */
  method SetIf(ps: Params, name: string, value: string, wanted: bool) returns (out: Params)
    requires Get(ps, name).None?
    ensures out == With(ps, name, value, wanted)
    ensures forall asked :: Get(out, asked) == if asked == name && wanted then Some(value) else Get(ps, asked)
  {
    GetAfter(ps, name, value, wanted);
    out := ps;
    if wanted {
      SetNew(ps, name, value);
      out := Set(ps, name, value);
    }
  }

  /** Prints a catalog route by setting one parameter after the other. */
  method PrintCatalogRoute(js: Js, r: CatalogRoute) returns (path: string)
    ensures path == CatalogRoutePath(js, r)
  {
    hide With, Get;
    var none: Params := [];
    NothingSet();
    var params := SetIf(none, "page", js.text(Whole(ClampPage(r.page))), AboveOne(r.page));
    params := SetIf(params, "query", Trim(r.query), Trim(r.query) != "");
    params := SetIf(params, "genre", if r.genreId.Some? then js.text(r.genreId.value) else "", r.genreId.Some?);
    params := SetIf(params, "year", if r.year.Some? then js.text(r.year.value) else "", r.year.Some?);
    params := SetIf(params, "sort", SortName(r.sort), !r.sort.ByPopularity?);
    hide Serialize;
    var query := Serialize(params);
    return if query == "" then PathOf(r.view) else PathOf(r.view) + "?" + query;
  }

  lemma NothingSet()
    ensures forall name :: Get([], name).None?
  {
  }

  lemma TextIsRead(js: Js, n: int)
    requires Decimal10(js) && n <= MAX_SAFE
    ensures n >= 0 ==> js.text(Whole(n)) != "" && AllDigits(js.text(Whole(n))) && js.number(js.text(Whole(n))) == Whole(n)
    ensures n < 0 ==> !AllDigits(js.text(Whole(n)))
  {
    if n >= 0 {
      ValueOfDecimal(n);
    }
  }

  lemma GenreIsRead(js: Js, genre: Option<Num>)
    requires Decimal10(js) && Safe(genre)
    ensures ReadGenre(js, if genre.Some? then Some(js.text(genre.value)) else None)
         == if genre.Some? && genre.value.n >= 1 then genre else None
  {
    if genre.Some? {
      TextIsRead(js, genre.value.n);
    }
  }

  lemma YearIsRead(js: Js, year: Option<Num>)
    requires Decimal10(js) && Safe(year)
    ensures ReadYear(js, if year.Some? then Some(js.text(year.value)) else None)
         == if year.Some? && 1900 <= year.value.n <= 2100 then year else None
  {
    if year.Some? {
      TextIsRead(js, year.value.n);
      if year.value.n >= 0 {
        DecimalLength(year.value.n);
      }
    }
  }

  lemma PageIsRead(js: Js, page: Num)
    requires Decimal10(js)
    ensures ClampPage(js.number(if AboveOne(page) then js.text(Whole(ClampPage(page))) else "1")) == ClampPage(page)
  {
    TextIsRead(js, ClampPage(page));
    assert Decimal(1) == "1";
    TextIsRead(js, 1);
  }

  lemma ViewIsRead(view: CatalogView)
    ensures ViewOf(PathOf(view)) == view && '?' !in PathOf(view)
  {
    var path := PathOf(view);
    FindNone(path, '?');
    assert path[..|path|] == path;
  }

  lemma SortIsRead(sort: Sort)
    ensures ReadSort(if sort.ByPopularity? then None else Some(SortName(sort))) == sort
  {
    assert "rating"[1] != "release"[1];
  }

  /** The last step: each part is read from what was printed for it. */
  lemma CatalogPartsAreRead(js: Js, r: CatalogRoute, ps: Params)
    requires Get(ps, "page") == if AboveOne(r.page) then Some(js.text(Whole(ClampPage(r.page)))) else None
    requires Get(ps, "query") == if Trim(r.query) != "" then Some(Trim(r.query)) else None
    requires Get(ps, "q").None?
    requires ClampPage(js.number(if AboveOne(r.page) then js.text(Whole(ClampPage(r.page))) else "1")) == ClampPage(r.page)
    requires ReadGenre(js, Get(ps, "genre")) == NormalRoute(r).genreId
    requires ReadYear(js, Get(ps, "year")) == NormalRoute(r).year
    requires ReadSort(Get(ps, "sort")) == r.sort
    ensures ReadCatalog(js, r.view, ps) == NormalRoute(r)
  {
    TrimTwice(r.query);
    assert Trim("") == "";
    hide Get, Trim, ReadGenre, ReadYear, ReadSort, ClampPage, AboveOne;
  }

  lemma CatalogPathIsRead(js: Js, r: CatalogRoute)
    ensures ParseCatalogRoute(js, CatalogRoutePath(js, r)) == Some(ReadCatalog(js, r.view, CatalogParams(js, r)))
  {
    hide Serialize, Parse, CatalogParams, SplitQuery, ViewOf, PathOf, ReadCatalog;
    var ps := CatalogParams(js, r);
    ParseSerialized(ps);
    ViewIsRead(r.view);
    SplitPrinted(PathOf(r.view), Serialize(ps));
  }

  /** Reading undoes printing, up to the normal form; on routes in normal form it is exact. */
  lemma CatalogRoundTrip(js: Js, r: CatalogRoute)
    requires Decimal10(js) && Safe(r.genreId) && Safe(r.year)
    ensures ParseCatalogRoute(js, CatalogRoutePath(js, r)) == Some(NormalRoute(r))
  {
    hide CatalogParams, CatalogRoutePath, ParseCatalogRoute, Get, Trim, ReadGenre, ReadYear, ReadSort, SortName, ClampPage, AboveOne, Decimal10, ReadCatalog;
    CatalogPathIsRead(js, r);
    CatalogParamsRead(js, r);
    GenreIsRead(js, r.genreId);
    YearIsRead(js, r.year);
    PageIsRead(js, r.page);
    SortIsRead(r.sort);
    CatalogPartsAreRead(js, r, CatalogParams(js, r));
  }

  // -------------------------------------------------------------------- media routes

  datatype MediaType = Movie | Series

  datatype Kind = AnyKind | Magnet | Share115

  datatype Quality = AnyQuality | Q4K | Q1080 | Q720 | Subtitled

  datatype ResourceSort = Comprehensive | Relevance | Completeness | Size | Seeders

  datatype PageSize = P25 | P50 | P100

  datatype Resources = Resources(page: Num, kind: Kind, quality: Quality, query: string, sort: ResourceSort, pageSize: PageSize)

  datatype MediaRoute = MediaRoute(mediaType: MediaType, tmdbId: Num, season: Option<Num>, resources: Option<Resources>)

  function TypeName(t: MediaType): string {
    if t.Movie? then "movie" else "tv"
  }

  function KindName(k: Kind): string {
    match k
    case AnyKind => "all"
    case Magnet => "magnet"
    case Share115 => "115_share"
  }

  function QualityName(q: Quality): string {
    match q
    case AnyQuality => "all"
    case Q4K => "4k"
    case Q1080 => "1080p"
    case Q720 => "720p"
    case Subtitled => "subtitle"
  }

  function ResourceSortName(s: ResourceSort): string {
    match s
    case Comprehensive => "comprehensive"
    case Relevance => "relevance"
    case Completeness => "completeness"
    case Size => "size"
    case Seeders => "seeders"
  }

  function SizeOf(p: PageSize): int {
    match p
    case P25 => 25
    case P50 => 50
    case P100 => 100
  }

  /** The digits a text starts with. */
  function Digits(s: string): (k: nat)
    ensures k <= |s| && AllDigits(s[..k]) && (k < |s| ==> !IsDigit(s[k]))
  {
    if s == "" || !IsDigit(s[0]) then 0
    else
      var k := Digits(s[1..]) + 1;
      assert s[..k] == [s[0]] + s[1..][..k - 1];
      k
  }

  /** The id after the type's prefix: digits, and then the end, a hyphen or a slash. */
  function ReadId(js: Js, rest: string): Option<Num> {
    var k := Digits(rest);
    if k > 0 && (k == |rest| || rest[k] == '-' || rest[k] == '/') then Some(js.number(rest[..k])) else None
  }

  function ReadSeason(js: Js, raw: Option<string>): Option<Num> {
    if raw.None? || raw.value == "" || !AllDigits(raw.value) then None
    else var n := js.number(raw.value); if n.Whole? && n.n >= 0 then Some(n) else None
  }

  function ReadResourcePage(n: Num): Num {
    if n.Whole? && 1 <= n.n <= 500 then n else Whole(1)
  }

  function ReadPageSize(n: Num): PageSize {
    if n == Whole(50) then P50 else if n == Whole(100) then P100 else P25
  }

  function ReadKind(raw: Option<string>): Kind {
    if raw == Some("magnet") then Magnet else if raw == Some("115_share") then Share115 else AnyKind
  }

  function ReadQuality(raw: Option<string>): Quality {
    if raw == Some("4k") then Q4K else if raw == Some("1080p") then Q1080 else if raw == Some("720p") then Q720
    else if raw == Some("subtitle") then Subtitled else AnyQuality
  }

  function ReadResourceSort(raw: Option<string>): ResourceSort {
    if raw == Some("relevance") then Relevance else if raw == Some("completeness") then Completeness
    else if raw == Some("size") then Size else if raw == Some("seeders") then Seeders else Comprehensive
  }

  function ReadResources(js: Js, ps: Params): Option<Resources> {
    if Get(ps, "resource_page").None? && Get(ps, "resource_kind").None? && Get(ps, "resource_quality").None?
       && Get(ps, "resource_query").None? && Get(ps, "resource_sort").None? && Get(ps, "resource_page_size").None?
    then None
    else Some(Resources(
      ReadResourcePage(js.number(OrElse(Get(ps, "resource_page"), "1"))),
      ReadKind(Get(ps, "resource_kind")),
      ReadQuality(Get(ps, "resource_quality")),
      Trim(OrElse(Get(ps, "resource_query"), "")),
      ReadResourceSort(Get(ps, "resource_sort")),
      ReadPageSize(js.number(OrElse(Get(ps, "resource_page_size"), "25")))))
  }

  function ReadMedia(js: Js, t: MediaType, id: Num, ps: Params): MediaRoute {
    MediaRoute(t, id, if t.Series? then ReadSeason(js, Get(ps, "season")) else None, ReadResources(js, ps))
  }

  function ExtractMediaRoute(js: Js, path: string): Option<MediaRoute> {
    var (pathname, query) := SplitQuery(path);
    if "/movie/" <= pathname then
      var id := ReadId(js, pathname[7..]);
      if id.None? then None else Some(ReadMedia(js, Movie, id.value, Parse(query)))
    else if "/tv/" <= pathname then
      var id := ReadId(js, pathname[4..]);
      if id.None? then None else Some(ReadMedia(js, Series, id.value, Parse(query)))
    else None
  }

  function MediaPathname(js: Js, m: MediaRoute): string {
    "/" + TypeName(m.mediaType) + "/" + js.text(m.tmdbId)
  }

  function ResourceParams(js: Js, ps: Params, r: Resources): Params {
    var query := Trim(r.query);
    var ps := With(ps, "resource_page", js.text(r.page), AboveOne(r.page));
    var ps := With(ps, "resource_kind", KindName(r.kind), !r.kind.AnyKind?);
    var ps := With(ps, "resource_quality", QualityName(r.quality), !r.quality.AnyQuality?);
    var ps := With(ps, "resource_query", query, query != "");
    var ps := With(ps, "resource_sort", ResourceSortName(r.sort), !r.sort.Comprehensive?);
    With(ps, "resource_page_size", js.text(Whole(SizeOf(r.pageSize))), !r.pageSize.P25?)
  }

  function MediaParams(js: Js, m: MediaRoute): Params {
    var ps := With([], "season", if m.season.Some? then js.text(m.season.value) else "", m.mediaType.Series? && m.season.Some?);
    if m.resources.Some? then ResourceParams(js, ps, m.resources.value) else ps
  }

  function MediaRoutePath(js: Js, m: MediaRoute): string {
    var query := Serialize(MediaParams(js, m));
    if query == "" then MediaPathname(js, m) else MediaPathname(js, m) + "?" + query
  }

  /** Everything at its default is left out of the path. */
  predicate AllDefault(r: Resources) {
    && !AboveOne(r.page) && r.kind.AnyKind? && r.quality.AnyQuality? && Trim(r.query) == ""
    && r.sort.Comprehensive? && r.pageSize.P25?
  }

  function NormalMedia(m: MediaRoute): MediaRoute {
    m.(season := if m.mediaType.Series? && m.season.Some? && m.season.value.Whole? && m.season.value.n >= 0 then m.season else None,
       resources := if m.resources.None? || AllDefault(m.resources.value) then None
                    else Some(m.resources.value.(page := ReadResourcePage(m.resources.value.page), query := Trim(m.resources.value.query))))
  }

  /** The id is a safe natural number, the season absent or a safe integer, the resource page a
      safe integer. */
  predicate SafeMedia(m: MediaRoute) {
    && m.tmdbId.Whole? && 0 <= m.tmdbId.n <= MAX_SAFE && Safe(m.season)
    && (m.resources.Some? ==> Safe(Some(m.resources.value.page)))
  }

  lemma GetAfter(ps: Params, name: string, value: string, wanted: bool)
    requires Get(ps, name).None?
    ensures forall asked :: Get(With(ps, name, value, wanted), asked) == if asked == name && wanted then Some(value) else Get(ps, asked)
  {
    forall asked ensures Get(With(ps, name, value, wanted), asked) == if asked == name && wanted then Some(value) else Get(ps, asked) {
      GetWith(ps, name, value, wanted, asked);
    }
  }

  ghost predicate OnlySeason(ps: Params) {
    forall name | name != "season" :: Get(ps, name).None?
  }

  lemma ResourceParamsRead(js: Js, ps: Params, r: Resources)
    requires OnlySeason(ps)
    ensures
      var all := ResourceParams(js, ps, r);
      && Get(all, "season") == Get(ps, "season")
      && Get(all, "resource_page") == (if AboveOne(r.page) then Some(js.text(r.page)) else None)
      && Get(all, "resource_kind") == (if r.kind.AnyKind? then None else Some(KindName(r.kind)))
      && Get(all, "resource_quality") == (if r.quality.AnyQuality? then None else Some(QualityName(r.quality)))
      && Get(all, "resource_query") == (if Trim(r.query) == "" then None else Some(Trim(r.query)))
      && Get(all, "resource_sort") == (if r.sort.Comprehensive? then None else Some(ResourceSortName(r.sort)))
      && Get(all, "resource_page_size") == (if r.pageSize.P25? then None else Some(js.text(Whole(SizeOf(r.pageSize)))))
  {
    hide Trim, AboveOne, KindName, QualityName, ResourceSortName, SizeOf, With, Get;
    var query := Trim(r.query);
    var ps1 := With(ps, "resource_page", js.text(r.page), AboveOne(r.page));
    var ps2 := With(ps1, "resource_kind", KindName(r.kind), !r.kind.AnyKind?);
    var ps3 := With(ps2, "resource_quality", QualityName(r.quality), !r.quality.AnyQuality?);
    var ps4 := With(ps3, "resource_query", query, query != "");
    var ps5 := With(ps4, "resource_sort", ResourceSortName(r.sort), !r.sort.Comprehensive?);
    GetAfter(ps, "resource_page", js.text(r.page), AboveOne(r.page));
    GetAfter(ps1, "resource_kind", KindName(r.kind), !r.kind.AnyKind?);
    GetAfter(ps2, "resource_quality", QualityName(r.quality), !r.quality.AnyQuality?);
    GetAfter(ps3, "resource_query", query, query != "");
    GetAfter(ps4, "resource_sort", ResourceSortName(r.sort), !r.sort.Comprehensive?);
    GetAfter(ps5, "resource_page_size", js.text(Whole(SizeOf(r.pageSize))), !r.pageSize.P25?);
  }

  lemma NamesAreRead(r: Resources)
    ensures ReadKind(if r.kind.AnyKind? then None else Some(KindName(r.kind))) == r.kind
    ensures ReadQuality(if r.quality.AnyQuality? then None else Some(QualityName(r.quality))) == r.quality
    ensures ReadResourceSort(if r.sort.Comprehensive? then None else Some(ResourceSortName(r.sort))) == r.sort
  {
    assert "magnet"[0] != "115_share"[0];
    assert "4k"[0] != "1080p"[0] && "720p"[0] != "4k"[0] && "720p"[0] != "1080p"[0];
    assert "subtitle"[0] != "4k"[0] && "subtitle"[0] != "1080p"[0] && "subtitle"[0] != "720p"[0];
    assert "relevance"[0] != "completeness"[0] && "size"[0] != "relevance"[0] && "size"[0] != "completeness"[0];
    assert "seeders"[1] != "size"[1] && "seeders"[0] != "relevance"[0] && "seeders"[0] != "completeness"[0];
  }

  lemma SizeIsRead(js: Js, p: PageSize)
    requires Decimal10(js)
    ensures ReadPageSize(js.number(if p.P25? then "25" else js.text(Whole(SizeOf(p))))) == p
  {
    TextIsRead(js, SizeOf(p));
    assert Decimal(25) == Decimal(2) + "5" && Decimal(2) == "2";
    assert "2" + "5" == "25";
  }

  lemma ResourcePageIsRead(js: Js, page: Num)
    requires Decimal10(js) && Safe(Some(page))
    ensures ReadResourcePage(js.number(if AboveOne(page) then js.text(page) else "1")) == ReadResourcePage(page)
  {
    TextIsRead(js, page.n);
    assert Decimal(1) == "1";
    TextIsRead(js, 1);
  }

  lemma ResourcesAreRead(js: Js, ps: Params, r: Resources)
    requires Decimal10(js) && OnlySeason(ps) && Safe(Some(r.page))
    ensures ReadResources(js, ResourceParams(js, ps, r)) ==
      if AllDefault(r) then None else Some(r.(page := ReadResourcePage(r.page), query := Trim(r.query)))
    ensures Get(ResourceParams(js, ps, r), "season") == Get(ps, "season")
  {
    ResourceParamsRead(js, ps, r);
    NamesAreRead(r);
    SizeIsRead(js, r.pageSize);
    ResourcePageIsRead(js, r.page);
    TrimTwice(r.query);
    assert Trim("") == "";
    hide ResourceParams, Get, Trim, ReadKind, ReadQuality, ReadResourceSort, ReadPageSize, ReadResourcePage, AboveOne, Decimal10, OnlySeason;
    hide KindName, QualityName, ResourceSortName, SizeOf;
  }

  lemma SeasonIsRead(js: Js, season: Option<Num>)
    requires Decimal10(js) && Safe(season)
    ensures ReadSeason(js, if season.Some? then Some(js.text(season.value)) else None)
         == if season.Some? && season.value.n >= 0 then season else None
  {
    if season.Some? {
      TextIsRead(js, season.value.n);
    }
  }

  lemma {:induction false} AllOfDigits(s: string)
    requires AllDigits(s)
    ensures Digits(s) == |s|
  {
    if s != "" {
      assert s[0] in s;
      AllOfDigits(s[1..]);
    }
  }

  lemma IdIsRead(js: Js, id: Num)
    requires Decimal10(js) && id.Whole? && 0 <= id.n <= MAX_SAFE
    ensures ReadId(js, js.text(id)) == Some(id) && '?' !in js.text(id)
  {
    var text := js.text(id);
    TextIsRead(js, id.n);
    AllOfDigits(text);
    assert text[..|text|] == text;
  }

  lemma MediaPathIsRead(js: Js, m: MediaRoute)
    requires Decimal10(js) && m.tmdbId.Whole? && 0 <= m.tmdbId.n <= MAX_SAFE
    ensures ExtractMediaRoute(js, MediaRoutePath(js, m)) == Some(ReadMedia(js, m.mediaType, m.tmdbId, MediaParams(js, m)))
  {
    hide Serialize, Parse, MediaParams, SplitQuery, ReadMedia, ReadId, Decimal10;
    var ps := MediaParams(js, m);
    var pathname := MediaPathname(js, m);
    IdIsRead(js, m.tmdbId);
    ParseSerialized(ps);
    SplitPrinted(pathname, Serialize(ps));
    if m.mediaType.Movie? {
      assert pathname == "/movie/" + js.text(m.tmdbId) && pathname[7..] == js.text(m.tmdbId);
    } else {
      assert pathname == "/tv/" + js.text(m.tmdbId) && pathname[4..] == js.text(m.tmdbId);
      assert pathname[1] != "/movie/"[1];
    }
  }

  lemma SeasonParams(js: Js, m: MediaRoute) returns (ps: Params)
    ensures OnlySeason(ps)
    ensures Get(ps, "season") == if m.mediaType.Series? && m.season.Some? then Some(js.text(m.season.value)) else None
    ensures MediaParams(js, m) == if m.resources.Some? then ResourceParams(js, ps, m.resources.value) else ps
  {
    hide ResourceParams;
    var none: Params := [];
    var text := if m.season.Some? then js.text(m.season.value) else "";
    ps := With(none, "season", text, m.mediaType.Series? && m.season.Some?);
    GetAfter(none, "season", text, m.mediaType.Series? && m.season.Some?);
  }

  lemma NoResourcesAreRead(js: Js, ps: Params)
    requires OnlySeason(ps)
    ensures ReadResources(js, ps).None?
  {
    hide Get;
  }

  /** What the parameters of a route are read as. */
  lemma MediaParamsAreRead(js: Js, m: MediaRoute)
    requires Decimal10(js) && SafeMedia(m)
    ensures ReadResources(js, MediaParams(js, m)) == NormalMedia(m).resources
    ensures Get(MediaParams(js, m), "season") == if m.mediaType.Series? && m.season.Some? then Some(js.text(m.season.value)) else None
  {
    var ps := SeasonParams(js, m);
    hide MediaParams, ResourceParams, Get, ReadResources, AllDefault, Decimal10, OnlySeason, ReadResourcePage, Trim;
    if m.resources.Some? {
      ResourcesAreRead(js, ps, m.resources.value);
    } else {
      NoResourcesAreRead(js, ps);
    }
  }

  /** Reading undoes printing, up to what a default leaves out. */
  lemma MediaRoundTrip(js: Js, m: MediaRoute)
    requires Decimal10(js) && SafeMedia(m)
    ensures ExtractMediaRoute(js, MediaRoutePath(js, m)) == Some(NormalMedia(m))
  {
    hide MediaParams, MediaRoutePath, ExtractMediaRoute, Get, ReadResources, AllDefault, Decimal10, ReadResourcePage, Trim, ReadSeason;
    MediaPathIsRead(js, m);
    MediaParamsAreRead(js, m);
    SeasonIsRead(js, m.season);
    assert ReadMedia(js, m.mediaType, m.tmdbId, MediaParams(js, m)).season == NormalMedia(m).season;
  }

  method SetResources(js: Js, ps: Params, r: Resources) returns (out: Params)
    requires OnlySeason(ps)
    ensures out == ResourceParams(js, ps, r)
  {
    hide With, Get, KindName, QualityName, ResourceSortName, SizeOf, Trim, AboveOne;
    out := SetIf(ps, "resource_page", js.text(r.page), AboveOne(r.page));
    out := SetIf(out, "resource_kind", KindName(r.kind), !r.kind.AnyKind?);
    out := SetIf(out, "resource_quality", QualityName(r.quality), !r.quality.AnyQuality?);
    out := SetIf(out, "resource_query", Trim(r.query), Trim(r.query) != "");
    out := SetIf(out, "resource_sort", ResourceSortName(r.sort), !r.sort.Comprehensive?);
    out := SetIf(out, "resource_page_size", js.text(Whole(SizeOf(r.pageSize))), !r.pageSize.P25?);
  }

  /** Prints a media route by setting one parameter after the other. */
  method PrintMediaRoute(js: Js, m: MediaRoute) returns (path: string)
    ensures path == MediaRoutePath(js, m)
  {
    hide With, Get, ResourceParams;
    var none: Params := [];
    NothingSet();
    var params := SetIf(none, "season", if m.season.Some? then js.text(m.season.value) else "", m.mediaType.Series? && m.season.Some?);
    if m.resources.Some? {
      params := SetResources(js, params, m.resources.value);
    }
    hide Serialize;
    var query := Serialize(params);
    return if query == "" then MediaPathname(js, m) else MediaPathname(js, m) + "?" + query;
  }

  function SomeNumber(s: string): Num {
    if s != "" && AllDigits(s) && ValueOf(s) <= MAX_SAFE then Whole(ValueOf(s)) else Other(false)
  }

  function SomeText(n: Num): string {
    if n.Whole? && n.n >= 0 then Decimal(n.n) else "-"
  }

  /** The conversions of JavaScript exist in this sense. */
  lemma JsExists()
    ensures exists js :: Decimal10(js)
  {
    hide Decimal, ValueOf;
    var js := Js(SomeNumber, SomeText);
    forall n: int | n < 0 ensures !AllDigits(js.text(Whole(n))) {
      assert js.text(Whole(n)) == "-" && !IsDigit("-"[0]);
    }
    forall s | s != "" && AllDigits(s) && ValueOf(s) <= MAX_SAFE ensures js.number(s) == Whole(ValueOf(s)) {
      assert js.number(s) == SomeNumber(s);
    }
    forall n: nat | n <= MAX_SAFE ensures js.text(Whole(n)) == Decimal(n) {
      assert js.text(Whole(n)) == SomeText(Whole(n));
    }
    assert Decimal10(js);
  }
}
