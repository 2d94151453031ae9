/**
  A remote that behaves as a directory tree, and what a C03 run does to it: success exactly
  when the parent's listing still fits once the root is in it, no cycle at any moment, and the
  tree that was there before at the end.
 */
module C03Tree {
  import opened Wrappers
  import opened Decimals
  import opened C03Model
  import opened C03Safety

  datatype Node = Node(parent: Id, name: string, isDirectory: bool)

  type Tree = map<Id, Node>

  // ---------------------------------------------------------------- shape of a tree

  ghost predicate Ranked(t: Tree, rank: map<Id, nat>) {
    forall id | id in t :: id in rank && (t[id].parent in t ==> t[id].parent in rank && rank[t[id].parent] < rank[id])
  }

  /** No identity is its own ancestor. */
  ghost predicate Acyclic(t: Tree) {
    exists rank :: Ranked(t, rank)
  }

  ghost predicate Childless(t: Tree, id: Id) {
    forall k | k in t :: t[k].parent != id
  }

  /** Putting a childless node anywhere but under itself keeps the tree acyclic. */
  lemma AcyclicPut(t: Tree, id: Id, node: Node)
    requires Acyclic(t) && Childless(t, id) && node.parent != id
    ensures Acyclic(t[id := node])
  {
    var rank :| Ranked(t, rank);
    var height := if node.parent in rank then rank[node.parent] + 1 else 0;
    assert Ranked(t[id := node], rank[id := height]);
  }

  /** `id` hangs below `root` by a chain of at most `n` parents that are all in the tree. */
  ghost predicate Below(t: Tree, id: Id, root: Id, n: nat)
    decreases n
  {
    && n > 0 && id in t && t[id].parent in t
    && (t[id].parent == root || Below(t, t[id].parent, root, n - 1))
  }

  ghost predicate Descends(t: Tree, id: Id, root: Id) {
    exists n: nat :: Below(t, id, root, n)
  }

  // ------------------------------------------------------------- what writes do to it

  ghost function AfterRequest(t: Tree, request: Request, answer: WriteAnswer): Tree {
    match request
    case Mkdir(parent, name) =>
      if IdentityOf(answer) == "" then t else t[IdentityOf(answer) := Node(parent, name, true)]
    case Move(id, target) => if id in t then t[id := t[id].(parent := target)] else t
    case Rename(id, name) => if id in t then t[id := t[id].(name := name)] else t
    case Recycle(root) => map id | id in t && id != root && !Descends(t, id, root) :: t[id]
  }

  ghost function TreeAfter(t: Tree, h: History): Tree {
    if h == [] then t
    else
      var last, before := h[|h| - 1], TreeAfter(t, h[..|h| - 1]);
      if last.Wrote? then AfterRequest(before, last.request, last.answer) else before
  }

  lemma TreeAfterCalls(env: Environment, t: Tree, h: History, request: Request, parent: Id)
    ensures TreeAfter(t, AfterWrite(env, h, request)) == AfterRequest(TreeAfter(t, h), request, env.execute(h, request))
    ensures TreeAfter(t, AfterList(env, h, parent)) == TreeAfter(t, h)
  {
    assert AfterWrite(env, h, request)[..|h|] == h;
    assert AfterList(env, h, parent)[..|h|] == h;
  }

  // --------------------------------------------------------------- an honest remote

  /** Some incoming spelling normalizes to `id`. */
  ghost predicate IsId(id: Id) {
    exists raw :: NormalizeId(raw) == Some(id)
  }

  ghost function EntriesUnder(t: Tree, parent: Id): set<Entry> {
    set id | id in t && t[id].parent == parent :: Entry(id, parent, t[id].name, t[id].isDirectory)
  }

  ghost predicate Fresh(t: Tree, id: Id) {
    id !in t && Childless(t, id)
  }

  ghost predicate ExecutesHonestly(t: Tree, request: Request, answer: WriteAnswer) {
    && (request.Mkdir? ==>
          && answer.Received? && answer.receipt.status == Succeeded
          && answer.receipt.Identity().Some?
          && Fresh(t, answer.receipt.Identity().value)
          && answer.receipt.Identity().value != request.parent)
    && (!request.Mkdir? && request.id in t ==> answer.Received? && answer.receipt.status == Succeeded)
  }

  /** A listing is complete exactly when its length fits, and then it shows what is there. */
  ghost predicate ListsHonestly(t: Tree, parent: Id, listing: ListAnswer, fits: nat -> bool) {
    && listing.Listing?
    && (listing.complete <==> fits(|EntriesUnder(t, parent)|))
    && (listing.complete ==>
          Readable(listing.entries, parent) && Shown(listing.entries, parent) == EntriesUnder(t, parent))
  }

  ghost predicate Honest(env: Environment, t: Tree, fits: nat -> bool) {
    && (forall h, request :: ExecutesHonestly(TreeAfter(t, h), request, env.execute(h, request)))
    && (forall h, parent | IsId(parent) :: ListsHonestly(TreeAfter(t, h), parent, env.list(h, parent), fits))
    && (forall h :: !env.expired(h))
  }

  /** Shorter listings fit when longer ones do, and three entries fit. */
  ghost predicate Capacity(fits: nat -> bool) {
    && fits(3)
    && (forall m: nat, n: nat | m <= n && fits(n) :: fits(m))
  }

  // ------------------------------------------------------------ the fixture in the tree

  ghost function Built(f: Fixture, source: Node): Tree {
    map[f.root := Node(f.parent, f.rootName, true), f.source := source,
        f.quarantine := Node(f.root, "quarantine", true), f.artifact := Node(f.root, "artifact", true)]
  }

  /** The nodes of the fixture after `k` edits; from the fifth on only the source changes. */
  ghost function FixtureNodes(f: Fixture, k: nat): Tree
    requires k <= EDITS
  {
    var root := Node(f.parent, f.rootName, true);
    var source := Node(f.root, "source", true);
    if k == 0 then map[]
    else if k == 1 then map[f.root := root]
    else if k == 2 then map[f.root := root, f.source := source]
    else if k == 3 then map[f.root := root, f.source := source, f.quarantine := Node(f.root, "quarantine", true)]
    else if k == 4 then Built(f, source)
    else Built(f, Node(EditAt(f, k - 1).entry.parentId, EditAt(f, k - 1).entry.name, true))
  }

  /** New to the tree, to its parents and to the fixture's own parent. */
  ghost predicate New(t: Tree, f: Fixture, id: Id) {
    Fresh(t, id) && id != f.parent && IsId(id)
  }

  /** The identities the first `k` edits brought in are new, and different from each other. */
  ghost predicate FreshFixture(t: Tree, f: Fixture, k: nat) {
    && (k >= 1 ==> New(t, f, f.root))
    && (k >= 2 ==> New(t, f, f.source) && f.source != f.root)
    && (k >= 3 ==> New(t, f, f.quarantine) && f.quarantine != f.root && f.quarantine != f.source)
    && (k >= 4 ==> New(t, f, f.artifact) && f.artifact != f.root && f.artifact != f.source && f.artifact != f.quarantine)
  }

  /** After `k` edits the remote is the old tree with the fixture's nodes added. */
  ghost predicate Stands(env: Environment, t: Tree, f: Fixture, k: nat)
    requires k <= EDITS
  {
    && FreshFixture(t, f, k)
    && TreeAfter(t, EditHistory(env, f, k)) == t + FixtureNodes(f, k)
    && Acyclic(t + FixtureNodes(f, k))
  }

  /** Each edit puts one node, childless at that moment, in one place. */
  lemma FixtureGrows(f: Fixture, k: nat)
    requires k < EDITS && FreshFixture(map[], f, if k < 4 then k + 1 else 4)
    ensures
      var entry := EditAt(f, k).entry;
      && FixtureNodes(f, k + 1) == FixtureNodes(f, k)[entry.fileId := Node(entry.parentId, entry.name, true)]
      && Childless(FixtureNodes(f, k), entry.fileId) && entry.parentId != entry.fileId
      && (k < 4 <==> EditAt(f, k).request.Mkdir?)
  {
    if k >= 4 {
      var before, after := FixtureNodes(f, k)[f.source], FixtureNodes(f, k + 1)[f.source];
      assert FixtureNodes(f, k) == Built(f, before) && FixtureNodes(f, k + 1) == Built(f, after) by {
        hide EditAt;
      }
      SourceChanges(f, before, after);
    }
  }

  lemma SourceChanges(f: Fixture, before: Node, after: Node)
    requires FreshFixture(map[], f, 4) && before.parent != f.source
    ensures Built(f, before)[f.source := after] == Built(f, after)
    ensures Childless(Built(f, before), f.source)
  {
  }

  lemma FreshNext(t: Tree, f: Fixture, k: nat)
    requires k < 4 && FreshFixture(t, f, k)
    requires Fresh(t + FixtureNodes(f, k), EditAt(f, k).entry.fileId) && IsId(EditAt(f, k).entry.fileId)
    requires EditAt(f, k).entry.fileId != EditAt(f, k).entry.parentId
    ensures FreshFixture(t, f, k + 1)
  {
    var id, nodes := EditAt(f, k).entry.fileId, t + FixtureNodes(f, k);
    forall other | other in t ensures t[other].parent != id {
      assert other in nodes && nodes[other] == t[other];
    }
    if k > 0 {
      assert f.root in nodes && nodes[f.root].parent == f.parent;
    }
  }

  lemma FreshIsLocal(t: Tree, f: Fixture, k: nat)
    requires FreshFixture(t, f, k)
    ensures FreshFixture(map[], f, if k < 4 then k else 4)
  {
  }

  /** The request of edit `k` does to an honest tree what the edit is meant to do. */
  lemma EditPutsNode(before: Tree, f: Fixture, k: nat, answer: WriteAnswer)
    requires k < EDITS && ExecutesHonestly(before, EditAt(f, k).request, answer)
    requires k < 4 ==> IdentityOf(answer) == EditAt(f, k).entry.fileId
    requires k >= 4 ==> f.source in before && before[f.source].isDirectory
    requires 4 <= k && k % 2 == 0 ==> before[f.source].parent == EditAt(f, k).entry.parentId
    requires 4 <= k && k % 2 == 1 ==> before[f.source].name == EditAt(f, k).entry.name
    ensures answer.Received? && answer.receipt.status == Succeeded
    ensures k < 4 ==> answer.receipt.Identity() == Some(EditAt(f, k).entry.fileId)
    ensures
      var entry := EditAt(f, k).entry;
      AfterRequest(before, EditAt(f, k).request, answer) == before[entry.fileId := Node(entry.parentId, entry.name, true)]
  {
  }

  lemma StandsNext(env: Environment, t: Tree, f: Fixture, fits: nat -> bool, parent: Id, rootName: string, k: nat)
    requires Honest(env, t, fits) && k < EDITS
    requires f == FixtureOf(env, parent, rootName) && Stands(env, t, f, k)
    ensures Stands(env, t, f, k + 1)
    ensures
      var answer := env.execute(EditHistory(env, f, k), EditAt(f, k).request);
      && answer.Received? && answer.receipt.status == Succeeded
      && (k < 4 ==> answer.receipt.Identity() == Some(EditAt(f, k).entry.fileId))
  {
    hide FixtureOf, EditHistory, Acyclic, FixtureNodes, Honest, FreshFixture, AfterRequest, Childless, Fresh;
    var h, edit := EditHistory(env, f, k), EditAt(f, k);
    var answer := env.execute(h, edit.request);
    var before := t + FixtureNodes(f, k);
    HonestAt(env, t, fits, h, edit.request);
    FixtureEdits(env, parent, rootName);
    FreshAnswer(t, f, k, before, answer);
    FreshIsLocal(t, f, k + 1);
    FixtureGrows(f, k);
    StandingSource(t, f, k);
    EditPutsNode(before, f, k, answer);
    NextHistory(env, t, f, k);
    StandsByPut(env, t, f, k);
  }

  lemma FreshAnswer(t: Tree, f: Fixture, k: nat, before: Tree, answer: WriteAnswer)
    requires k < EDITS && FreshFixture(t, f, k) && before == t + FixtureNodes(f, k)
    requires ExecutesHonestly(before, EditAt(f, k).request, answer)
    requires k < 4 ==> IdentityOf(answer) == EditAt(f, k).entry.fileId && EditAt(f, k).request.Mkdir?
    requires k < 4 ==> EditAt(f, k).request.parent == EditAt(f, k).entry.parentId
    ensures FreshFixture(t, f, k + 1)
  {
    hide FixtureNodes;
    if k < 4 {
      FreshNext(t, f, k);
    }
  }

  /** Where the source directory is before each edit that concerns it. */
  lemma StandingSource(t: Tree, f: Fixture, k: nat)
    requires 4 <= k < EDITS ==> FreshFixture(t, f, k)
    ensures 4 <= k < EDITS ==>
      var before := t + FixtureNodes(f, k);
      && f.source in before && before[f.source].isDirectory
      && (k % 2 == 0 ==> before[f.source].parent == EditAt(f, k).entry.parentId)
      && (k % 2 == 1 ==> before[f.source].name == EditAt(f, k).entry.name)
  {
  }

  lemma StandsByPut(env: Environment, t: Tree, f: Fixture, k: nat)
    requires k < EDITS && Stands(env, t, f, k) && FreshFixture(t, f, k + 1)
    requires
      var entry := EditAt(f, k).entry;
      var node := Node(entry.parentId, entry.name, true);
      && TreeAfter(t, EditHistory(env, f, k + 1)) == (t + FixtureNodes(f, k))[entry.fileId := node]
      && FixtureNodes(f, k + 1) == FixtureNodes(f, k)[entry.fileId := node]
      && Childless(FixtureNodes(f, k), entry.fileId) && entry.parentId != entry.fileId
    ensures Stands(env, t, f, k + 1)
  {
    hide EditHistory, Acyclic, FixtureNodes, IsId;
    var entry := EditAt(f, k).entry;
    var before := t + FixtureNodes(f, k);
    assert Childless(before, entry.fileId) by {
      assert Childless(t, entry.fileId);
    }
    AcyclicPut(before, entry.fileId, Node(entry.parentId, entry.name, true));
    assert t + FixtureNodes(f, k + 1) == before[entry.fileId := Node(entry.parentId, entry.name, true)];
  }

  lemma HonestAt(env: Environment, t: Tree, fits: nat -> bool, h: History, request: Request)
    requires Honest(env, t, fits)
    ensures ExecutesHonestly(TreeAfter(t, h), request, env.execute(h, request)) && !env.expired(h)
  {
  }

  lemma NextHistory(env: Environment, t: Tree, f: Fixture, k: nat)
    requires k < EDITS
    ensures TreeAfter(t, EditHistory(env, f, k + 1)) ==
      AfterRequest(TreeAfter(t, EditHistory(env, f, k)), EditAt(f, k).request,
                   env.execute(EditHistory(env, f, k), EditAt(f, k).request))
  {
    hide EditAt, AfterRequest;
    var h, edit := EditHistory(env, f, k), EditAt(f, k);
    TreeAfterCalls(env, t, h, edit.request, "");
    TreeAfterCalls(env, t, AfterWrite(env, h, edit.request), edit.request, edit.entry.parentId);
  }

  // ------------------------------------------------------------ the run, call by call

  /** With the default budget no limit is met before ten writes and fifteen listings. */
  lemma DefaultBudgetSuffices(h: History)
    requires |Writes(h)| <= MAX_WRITE_CALLS && ListCount(h) < MAX_LIST_CALLS
    ensures CanList(DEFAULT_BUDGET, h)
    ensures |Writes(h)| < MAX_WRITE_CALLS ==> CanWrite(DEFAULT_BUDGET, h)
  {
    PagesWithinReservation(h);
  }

  lemma ListsAt(env: Environment, t: Tree, fits: nat -> bool, h: History, parent: Id)
    requires Honest(env, t, fits) && IsId(parent)
    requires |Writes(h)| <= MAX_WRITE_CALLS && ListCount(h) < MAX_LIST_CALLS
    ensures ListOk(env, DEFAULT_BUDGET, h, parent) <==> fits(|EntriesUnder(TreeAfter(t, h), parent)|)
    ensures fits(|EntriesUnder(TreeAfter(t, h), parent)|) ==>
      && Readable(env.list(h, parent).entries, parent)
      && Shown(env.list(h, parent).entries, parent) == EntriesUnder(TreeAfter(t, h), parent)
  {
    DefaultBudgetSuffices(h);
    assert ListsHonestly(TreeAfter(t, h), parent, env.list(h, parent), fits);
    assert !env.expired(h);
  }

  lemma UnderSplit(t: Tree, nodes: Tree, parent: Id)
    requires forall id | id in nodes :: id !in t
    ensures EntriesUnder(t + nodes, parent) == EntriesUnder(t, parent) + EntriesUnder(nodes, parent)
    ensures Childless(t, parent) ==> EntriesUnder(t, parent) == {}
  {
    var all := t + nodes;
    forall e | e in EntriesUnder(t, parent) + EntriesUnder(nodes, parent) ensures e in EntriesUnder(all, parent) {
      assert all[e.fileId] == if e.fileId in nodes then nodes[e.fileId] else t[e.fileId];
    }
  }

  lemma FewEntries(s: set<Entry>, a: Entry, b: Entry, c: Entry)
    requires s <= {a, b, c}
    ensures |s| <= 3
  {
    var rest := {a, b, c} - s;
    assert s + rest == {a, b, c};
  }

  /** What the fixture's nodes look like at any moment. */
  lemma NodesShape(f: Fixture, k: nat, id: Id)
    requires k <= EDITS && id in FixtureNodes(f, k) && FreshFixture(map[], f, if k < 4 then k else 4)
    ensures
      var node := FixtureNodes(f, k)[id];
      && node.isDirectory
      && (|| (id == f.root && node == Node(f.parent, f.rootName, true))
          || (k >= 2 && id == f.source && id != f.root && (node.parent == f.root || (k >= 3 && node.parent == f.quarantine)))
          || (k >= 3 && id == f.quarantine && id != f.root && node == Node(f.root, "quarantine", true))
          || (k >= 4 && id == f.artifact && id != f.root && node == Node(f.root, "artifact", true)))
  {
  }

  /** In the parent the fixture adds one entry, its root. */
  lemma UnderParent(t: Tree, f: Fixture, k: nat)
    requires 1 <= k <= EDITS && FreshFixture(t, f, k)
    ensures EntriesUnder(t + FixtureNodes(f, k), f.parent) == EntriesUnder(t, f.parent) + {Folder(f.root, f.parent, f.rootName)}
    ensures |EntriesUnder(t + FixtureNodes(f, k), f.parent)| == |EntriesUnder(t, f.parent)| + 1
  {
    var nodes := FixtureNodes(f, k);
    assert f.root in nodes;
    FreshIsLocal(t, f, k);
    hide FixtureNodes, IsId;
    forall id | id in nodes ensures id !in t && (nodes[id].parent == f.parent <==> id == f.root) {
      NodesShape(f, k, id);
    }
    NodesShape(f, k, f.root);
    UnderSplit(t, nodes, f.parent);
    assert EntriesUnder(nodes, f.parent) == {Folder(f.root, f.parent, f.rootName)};
    assert Folder(f.root, f.parent, f.rootName) !in EntriesUnder(t, f.parent);
  }

  /** Below the root there is the fixture only, at most three entries in any directory. */
  lemma UnderRoot(t: Tree, f: Fixture, k: nat, parent: Id)
    requires 2 <= k <= EDITS && FreshFixture(t, f, k) && New(t, f, parent)
    ensures EntriesUnder(t + FixtureNodes(f, k), parent) == EntriesUnder(FixtureNodes(f, k), parent)
    ensures |EntriesUnder(t + FixtureNodes(f, k), parent)| <= 3
  {
    var nodes := FixtureNodes(f, k);
    assert f.source in nodes;
    FreshIsLocal(t, f, k);
    hide FixtureNodes, IsId;
    forall id | id in nodes ensures id !in t && (nodes[id].parent == parent ==> id != f.root) {
      NodesShape(f, k, id);
    }
    UnderSplit(t, nodes, parent);
    var s := EntriesUnder(nodes, parent);
    var source := Entry(f.source, parent, nodes[f.source].name, true);
    var quarantine, artifact := Entry(f.quarantine, parent, "quarantine", true), Entry(f.artifact, parent, "artifact", true);
    forall e | e in s ensures e in {source, quarantine, artifact} {
      NodesShape(f, k, e.fileId);
    }
    FewEntries(s, source, quarantine, artifact);
  }

  /** The look after edit `k` shows the edit's entry once the listing fits. */
  lemma LookAfterEdit(env: Environment, t: Tree, f: Fixture, fits: nat -> bool, k: nat, after: History)
    requires Honest(env, t, fits) && Capacity(fits) && IsId(f.parent)
    requires k < EDITS && FreshFixture(t, f, k + 1)
    requires TreeAfter(t, after) == t + FixtureNodes(f, k + 1)
    requires |Writes(after)| == k + 1 && ListCount(after) == k
    ensures SeesOk(env, DEFAULT_BUDGET, after, EditAt(f, k).entry) <==>
      k > 0 || fits(|EntriesUnder(t, f.parent)| + 1)
  {
    hide FixtureNodes, Honest, ListOk, EntriesUnder, EditAt;
    var parent := EditAt(f, k).entry.parentId;
    assert k > 0 ==> (parent == f.root || (parent == f.quarantine && k >= 2)) by {
      EditParents(f, k);
    }
    EditParents(f, k);
    ListsAt(env, t, fits, after, parent);
    if k == 0 {
      UnderParent(t, f, 1);
    } else {
      UnderRoot(t, f, k + 1, parent);
      PlacedByEdit(t, f, k);
    }
  }

  lemma EditParents(f: Fixture, k: nat)
    requires k < EDITS
    ensures k > 0 ==> EditAt(f, k).entry.parentId == f.root || (k >= 2 && EditAt(f, k).entry.parentId == f.quarantine)
    ensures k == 0 ==> EditAt(f, k).entry == Folder(f.root, f.parent, f.rootName)
    ensures k < 4 <==> EditAt(f, k).request.Mkdir?
  {
  }

  lemma PlacedByEdit(t: Tree, f: Fixture, k: nat)
    requires k < EDITS && FreshFixture(t, f, k + 1)
    ensures EditAt(f, k).entry in EntriesUnder(FixtureNodes(f, k + 1), EditAt(f, k).entry.parentId)
  {
    FreshIsLocal(t, f, k + 1);
    FixtureGrows(f, k);
    var nodes, entry := FixtureNodes(f, k + 1), EditAt(f, k).entry;
    assert nodes[entry.fileId] == Node(entry.parentId, entry.name, true);
    assert entry.isDirectory;
  }

  /** Edit `k` passes; only the first one depends on whether its listing fits. */
  lemma HonestEdit(env: Environment, t: Tree, f: Fixture, fits: nat -> bool, k: nat)
    requires Honest(env, t, fits) && Capacity(fits) && IsId(f.parent)
    requires k < EDITS && Stands(env, t, f, k + 1)
    requires
      var answer := env.execute(EditHistory(env, f, k), EditAt(f, k).request);
      && answer.Received? && answer.receipt.status == Succeeded
      && (k < 4 ==> answer.receipt.Identity() == Some(EditAt(f, k).entry.fileId))
    ensures EditOk(env, DEFAULT_BUDGET, EditHistory(env, f, k), EditAt(f, k)) <==>
      k > 0 || fits(|EntriesUnder(t, f.parent)| + 1)
  {
    var h, edit := EditHistory(env, f, k), EditAt(f, k);
    var after := AfterWrite(env, h, edit.request);
    assert EditHistory(env, f, k + 1) == AfterList(env, after, edit.entry.parentId);
    assert k < 4 <==> edit.request.Mkdir? by {
      EditParents(f, k);
    }
    hide EditHistory, EditAt, FixtureNodes, Honest, Acyclic, SeesOk, EntriesUnder, CanWrite, AfterWrite, AfterList, FreshFixture;
    WritesOfEdits(env, f, k);
    CountsAfter(env, h, edit.request, "");
    DefaultBudgetSuffices(h);
    HonestAt(env, t, fits, h, edit.request);
    TreeAfterCalls(env, t, after, edit.request, edit.entry.parentId);
    LookAfterEdit(env, t, f, fits, k, after);
  }
}
