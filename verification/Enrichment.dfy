/**
  Filling in sizes and seeders of magnet items from the plugin results that name the same
  infohash: an index by hash does what a scan of all results would.
 */
module Enrichment {
  import opened Wrappers

  type Hash = string

  datatype Plugin = Nyaa | ThePirateBay

  /** What a plugin's text yields for each field, if anything. */
  datatype Parsed = Parsed(size: Option<nat>, seeders: Option<nat>)

  /** A result, with the infohashes of its links where they have one, and what either plugin's
      reading of its text yields. */
  datatype Result = NoResult | Result(links: Option<seq<Option<Hash>>>, nyaa: Parsed, pirateBay: Parsed)
  {
    function Text(plugin: Plugin): Parsed
      requires Result?
    {
      if plugin.Nyaa? then nyaa else pirateBay
    }
  }

  /** A field is structured or not; what was written over is then gone. */
  datatype Field = Structured(n: nat) | Unstructured(raw: string)

  datatype Item =
    | NoItem
    | Item(plugin: Option<Plugin>, hash: Option<Hash>, size: Field, seeders: Field,
           sizeSource: Option<string>, seedersSource: Option<string>, observedAt: Option<string>)

  // --------------------------------------------------------------------- a plain scan

  predicate Names(r: Result, h: Hash) {
    r.Result? && r.links.Some? && Some(h) in r.links.value
  }

  /** The first result naming `h` that has a size. */
  function FirstSize(results: seq<Result>, h: Hash, plugin: Plugin): Option<nat> {
    if results == [] then None
    else if Names(results[0], h) && results[0].Text(plugin).size.Some? then results[0].Text(plugin).size
    else FirstSize(results[1..], h, plugin)
  }

  function FirstSeeders(results: seq<Result>, h: Hash, plugin: Plugin): Option<nat> {
    if results == [] then None
    else if Names(results[0], h) && results[0].Text(plugin).seeders.Some? then results[0].Text(plugin).seeders
    else FirstSeeders(results[1..], h, plugin)
  }

  /** What an item becomes: missing fields filled from the first result that has them. */
  function Enriched(item: Item, results: seq<Result>, observedAt: string): Item {
    if item.NoItem? || item.plugin.None? || item.hash.None? then item
    else
      var size := FirstSize(results, item.hash.value, item.plugin.value);
      var seeders := FirstSeeders(results, item.hash.value, item.plugin.value);
      var sized := if item.size.Unstructured? && size.Some?
                   then item.(size := Structured(size.value), sizeSource := Some("pansou")) else item;
      if item.seeders.Unstructured? && seeders.Some?
      then sized.(seeders := Structured(seeders.value), seedersSource := Some("pansou"), observedAt := Some(observedAt))
      else sized
  }

  function EnrichedAll(items: seq<Item>, results: seq<Result>, observedAt: string): (out: seq<Item>)
    ensures |out| == |items| && forall i | 0 <= i < |items| :: out[i] == Enriched(items[i], results, observedAt)
  {
    if items == [] then [] else [Enriched(items[0], results, observedAt)] + EnrichedAll(items[1..], results, observedAt)
  }

  /** Structured values and everything of other plugins stay as they are. */
  lemma StructuredStays(item: Item, results: seq<Result>, observedAt: string)
    ensures
      var out := Enriched(item, results, observedAt);
      && (item.NoItem? || item.plugin.None? || item.hash.None? ==> out == item)
      && (item.Item? ==>
            && out.Item? && out.plugin == item.plugin && out.hash == item.hash
            && (item.size.Structured? ==> out.size == item.size && out.sizeSource == item.sizeSource)
            && (item.seeders.Structured? ==> out.seeders == item.seeders && out.seedersSource == item.seedersSource && out.observedAt == item.observedAt))
  {
  }

  /** A second pass, at any time, changes nothing. */
  lemma Idempotent(items: seq<Item>, results: seq<Result>, first: string, second: string)
    ensures EnrichedAll(EnrichedAll(items, results, first), results, second) == EnrichedAll(items, results, first)
  {
    var once := EnrichedAll(items, results, first);
    var twice := EnrichedAll(once, results, second);
    assert forall i | 0 <= i < |items| :: twice[i] == once[i];
  }

  // ------------------------------------------------------------------------ the index

  /** What the index holds for `h`: each result once for every link that names it. */
  function Filed(results: seq<Result>, h: Hash): seq<Result> {
    if results == [] then []
    else Filed(results[..|results| - 1], h) + Copies(results[|results| - 1], Links(results[|results| - 1]), h)
  }

  function Links(r: Result): seq<Option<Hash>> {
    if r.Result? && r.links.Some? then r.links.value else []
  }

  function Copies(r: Result, links: seq<Option<Hash>>, h: Hash): seq<Result> {
    if links == [] then [] else Copies(r, links[..|links| - 1], h) + if links[|links| - 1] == Some(h) then [r] else []
  }

  type Index = map<Hash, seq<Result>>

  function At(index: Index, h: Hash): seq<Result> {
    if h in index then index[h] else []
  }

  lemma OneMoreLink(r: Result, links: seq<Option<Hash>>, j: nat, h: Hash)
    requires j < |links|
    ensures Copies(r, links[..j + 1], h) == Copies(r, links[..j], h) + if links[j] == Some(h) then [r] else []
  {
    assert links[..j + 1][..j] == links[..j];
  }

  /** Files one result under each of its links. */
  method File(before: Index, r: Result) returns (index: Index)
    ensures forall h :: At(index, h) == At(before, h) + Copies(r, Links(r), h)
  {
    index := before;
    var links := Links(r);
    for j := 0 to |links|
      invariant forall h :: At(index, h) == At(before, h) + Copies(r, links[..j], h)
    {
      ghost var filed := index;
      if links[j].Some? {
        var h := links[j].value;
        index := index[h := At(index, h) + [r]];
      }
      forall h ensures At(index, h) == At(before, h) + Copies(r, links[..j + 1], h) {
        OneMoreLink(r, links, j, h);
        assert At(before, h) + (Copies(r, links[..j], h) + if links[j] == Some(h) then [r] else [])
            == At(filed, h) + if links[j] == Some(h) then [r] else [];
      }
    }
    assert links[..|links|] == links;
  }

  method BuildIndex(results: seq<Result>) returns (index: Index)
    ensures forall h :: At(index, h) == Filed(results, h)
  {
    index := map[];
    for i := 0 to |results|
      invariant forall h :: At(index, h) == Filed(results[..i], h)
    {
      hide At, Copies, Links;
      index := File(index, results[i]);
      assert results[..i + 1][..i] == results[..i];
    }
    assert results[..|results|] == results;
  }

  /** The first value of each field among the results of one hash. */
  method FirstValues(filed: seq<Result>, plugin: Plugin) returns (values: Parsed)
    requires forall r | r in filed :: r.Result?
    ensures values.size == FirstOf(filed, plugin).size && values.seeders == FirstOf(filed, plugin).seeders
  {
    values := Parsed(None, None);
    for i := 0 to |filed|
      invariant values == FirstOf(filed[..i], plugin)
    {
      assert filed[..i + 1][..i] == filed[..i];
      var parsed := filed[i].Text(plugin);
      values := Parsed(if values.size.Some? then values.size else parsed.size,
                       if values.seeders.Some? then values.seeders else parsed.seeders);
    }
    assert filed[..|filed|] == filed;
  }

  function FirstOf(filed: seq<Result>, plugin: Plugin): Parsed
    requires forall r | r in filed :: r.Result?
  {
    if filed == [] then Parsed(None, None)
    else
      var before, last := FirstOf(filed[..|filed| - 1], plugin), filed[|filed| - 1].Text(plugin);
      Parsed(if before.size.Some? then before.size else last.size, if before.seeders.Some? then before.seeders else last.seeders)
  }

  lemma {:induction false} CopiesAre(r: Result, links: seq<Option<Hash>>, h: Hash)
    ensures Copies(r, links, h) == [] <==> Some(h) !in links
    ensures forall k | 0 <= k < |Copies(r, links, h)| :: Copies(r, links, h)[k] == r
  {
    if links != [] {
      var rest, last := links[..|links| - 1], links[|links| - 1];
      CopiesAre(r, rest, h);
      assert Copies(r, links, h) == Copies(r, rest, h) + if last == Some(h) then [r] else [];
      assert links == rest + [last];
      hide Copies;
    }
  }

  lemma {:induction false} FiledAreResults(results: seq<Result>, h: Hash)
    ensures forall r | r in Filed(results, h) :: r.Result?
  {
    if results != [] {
      var last := results[|results| - 1];
      FiledAreResults(results[..|results| - 1], h);
      CopiesAre(last, Links(last), h);
    }
  }

  lemma {:induction false} FirstOfConcat(a: seq<Result>, b: seq<Result>, plugin: Plugin)
    requires (forall r | r in a :: r.Result?) && (forall r | r in b :: r.Result?)
    ensures forall r | r in a + b :: r.Result?
    ensures
      var all, x, y := FirstOf(a + b, plugin), FirstOf(a, plugin), FirstOf(b, plugin);
      && all.size == (if x.size.Some? then x.size else y.size)
      && all.seeders == (if x.seeders.Some? then x.seeders else y.seeders)
  {
    if b == [] {
      assert a + b == a;
    } else {
      assert (a + b)[..|a + b| - 1] == a + b[..|b| - 1];
      FirstOfConcat(a, b[..|b| - 1], plugin);
    }
  }

  lemma {:induction false} FirstOfCopies(r: Result, copies: seq<Result>, plugin: Plugin)
    requires r.Result? && copies != [] && forall k | 0 <= k < |copies| :: copies[k] == r
    ensures FirstOf(copies, plugin) == r.Text(plugin)
  {
    if |copies| > 1 {
      FirstOfCopies(r, copies[..|copies| - 1], plugin);
    } else {
      assert copies[..0] == [];
    }
  }

  lemma {:induction false} ScanConcat(a: seq<Result>, b: seq<Result>, h: Hash, plugin: Plugin)
    ensures
      var size, seeders := FirstSize(a, h, plugin), FirstSeeders(a, h, plugin);
      && FirstSize(a + b, h, plugin) == (if size.Some? then size else FirstSize(b, h, plugin))
      && FirstSeeders(a + b, h, plugin) == (if seeders.Some? then seeders else FirstSeeders(b, h, plugin))
  {
    if a == [] {
      assert a + b == b;
    } else {
      assert (a + b)[1..] == a[1..] + b;
      ScanConcat(a[1..], b, h, plugin);
    }
  }

  lemma OneResult(r: Result, h: Hash, plugin: Plugin)
    ensures forall c | c in Copies(r, Links(r), h) :: c.Result?
    ensures FirstOf(Copies(r, Links(r), h), plugin) == Parsed(FirstSize([r], h, plugin), FirstSeeders([r], h, plugin))
  {
    var copies := Copies(r, Links(r), h);
    CopiesAre(r, Links(r), h);
    assert [r][1..] == [];
    if copies != [] {
      FirstOfCopies(r, copies, plugin);
    }
  }

  /** The index finds what a scan of all results finds. */
  lemma {:induction false} IndexIsScan(results: seq<Result>, h: Hash, plugin: Plugin)
    ensures forall r | r in Filed(results, h) :: r.Result?
    ensures FirstOf(Filed(results, h), plugin) == Parsed(FirstSize(results, h, plugin), FirstSeeders(results, h, plugin))
  {
    FiledAreResults(results, h);
    if results != [] {
      var init, last := results[..|results| - 1], results[|results| - 1];
      assert results == init + [last];
      assert Filed(results, h) == Filed(init, h) + Copies(last, Links(last), h);
      hide FirstOf, FirstSize, FirstSeeders, Copies, Links, Filed, Names;
      IndexIsScan(init, h, plugin);
      OneResult(last, h, plugin);
      FirstOfConcat(Filed(init, h), Copies(last, Links(last), h), plugin);
      ScanConcat(init, [last], h, plugin);
    }
  }

  /** Enriches through the index; the result is the plain scan's, item by item. */
  method EnrichMagnets(items: seq<Item>, results: seq<Result>, observedAt: string) returns (out: seq<Item>)
    ensures out == EnrichedAll(items, results, observedAt)
  {
    var index := BuildIndex(results);
    out := [];
    for i := 0 to |items|
      invariant |out| == i && forall k | 0 <= k < i :: out[k] == Enriched(items[k], results, observedAt)
    {
      var item := items[i];
      if item.Item? && item.plugin.Some? && item.hash.Some? {
        IndexIsScan(results, item.hash.value, item.plugin.value);
        var values := FirstValues(At(index, item.hash.value), item.plugin.value);
        if item.size.Unstructured? && values.size.Some? {
          item := item.(size := Structured(values.size.value), sizeSource := Some("pansou"));
        }
        if item.seeders.Unstructured? && values.seeders.Some? {
          item := item.(seeders := Structured(values.seeders.value), seedersSource := Some("pansou"), observedAt := Some(observedAt));
        }
      }
      out := out + [item];
    }
  }
}
