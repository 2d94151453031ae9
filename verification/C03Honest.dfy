/**
  The C03 run against an honest directory tree, from the first mkdir to the last listing.
 */
module C03Honest {
  import opened Wrappers
  import opened C03Model
  import opened C03Safety
  import opened C03Tree
  import opened C03Live
  import opened C03Probe

  /** The tree has no cycle after any of the calls of `h`. */
  ghost predicate AcyclicThroughout(t: Tree, h: History) {
    && Acyclic(TreeAfter(t, h))
    && (h != [] ==> AcyclicThroughout(t, h[..|h| - 1]))
  }

  lemma {:induction false} AcyclicAtEveryPrefix(t: Tree, h: History, k: nat)
    requires AcyclicThroughout(t, h) && k <= |h|
    ensures Acyclic(TreeAfter(t, h[..k]))
  {
    if k < |h| {
      AcyclicAtEveryPrefix(t, h[..|h| - 1], k);
      assert h[..|h| - 1][..k] == h[..k];
    } else {
      assert h[..k] == h;
    }
  }

  lemma AcyclicCalls(env: Environment, t: Tree, h: History, request: Request, parent: Id)
    requires AcyclicThroughout(t, h)
    ensures AcyclicThroughout(t, AfterList(env, h, parent))
    ensures Acyclic(TreeAfter(t, AfterWrite(env, h, request))) ==> AcyclicThroughout(t, AfterWrite(env, h, request))
  {
    hide Acyclic;
    TreeAfterCalls(env, t, h, request, parent);
    assert AfterList(env, h, parent)[..|h|] == h;
    assert AfterWrite(env, h, request)[..|h|] == h;
  }

  /** The nine edits stand, whatever their listings show; they pass exactly when the first
      listing fits. */
  lemma {:induction false} EditsStand(env: Environment, t: Tree, fits: nat -> bool, parent: Id, rootName: string, k: nat)
    requires Honest(env, t, fits) && Acyclic(t) && Capacity(fits) && IsId(parent) && k <= EDITS
    ensures
      var f := FixtureOf(env, parent, rootName);
      && f.parent == parent
      && Stands(env, t, f, k)
      && AcyclicThroughout(t, EditHistory(env, f, k))
      && (EditsOk(env, DEFAULT_BUDGET, f, k) <==> k == 0 || fits(|EntriesUnder(t, parent)| + 1))
  {
    hide FixtureOf, Honest, Acyclic, AcyclicThroughout, EditOk, EditAt, EditHistory, Capacity, Stands, EntriesUnder;
    var f := FixtureOf(env, parent, rootName);
    FixtureEdits(env, parent, rootName);
    if k == 0 {
      StandsAtFirst(env, t, f);
    } else {
      EditsStand(env, t, fits, parent, rootName, k - 1);
      StandsNext(env, t, f, fits, parent, rootName, k - 1);
      HonestEdit(env, t, f, fits, k - 1);
      AcyclicEdit(env, t, f, k - 1);
    }
  }

  lemma StandsAtFirst(env: Environment, t: Tree, f: Fixture)
    requires Acyclic(t)
    ensures Stands(env, t, f, 0) && AcyclicThroughout(t, EditHistory(env, f, 0))
  {
    assert t + FixtureNodes(f, 0) == t;
  }

  lemma AcyclicEdit(env: Environment, t: Tree, f: Fixture, k: nat)
    requires k < EDITS && Stands(env, t, f, k + 1) && AcyclicThroughout(t, EditHistory(env, f, k))
    ensures AcyclicThroughout(t, EditHistory(env, f, k + 1))
  {
    var h, edit := EditHistory(env, f, k), EditAt(f, k);
    assert EditHistory(env, f, k + 1) == AfterEdit(env, h, edit);
    hide Acyclic, AcyclicThroughout, FixtureNodes, FreshFixture, EditHistory, EditAt, TreeAfter, AfterList, AfterWrite;
    TreeAfterCalls(env, t, AfterWrite(env, h, edit.request), edit.request, edit.entry.parentId);
    AcyclicCalls(env, t, h, edit.request, "");
    AcyclicCalls(env, t, AfterWrite(env, h, edit.request), edit.request, edit.entry.parentId);
  }

  lemma StandingIsDifferent(t: Tree, f: Fixture)
    requires FreshFixture(t, f, EDITS)
    ensures AllDifferent(f) && forall id | id in Created(f) :: New(t, f, id)
  {
    hide IsId, Fresh;
  }

  /** The manifest, never updated by a rename or a move, is the tree again once the source is
      back under its first name. */
  lemma ManifestIsTree(t: Tree, f: Fixture, id: Id)
    requires FreshFixture(t, f, EDITS) && id in Created(f)
    ensures EntriesUnder(t + FixtureNodes(f, EDITS), id) == ManifestOf(f).Children(id)
    ensures |EntriesUnder(t + FixtureNodes(f, EDITS), id)| <= 3
  {
    hide IsId, Fresh, ManifestOf, FixtureNodes, EntriesUnder, Manifest.Children, FreshFixture;
    StandingIsDifferent(t, f);
    UnderRoot(t, f, EDITS, id);
    ManifestChildren(f, id);
    BuiltChildren(f, id);
  }

  lemma BuiltChildren(f: Fixture, id: Id)
    requires AllDifferent(f) && id in Created(f) && f.parent !in Created(f)
    ensures FixtureNodes(f, EDITS) == Built(f, Node(f.root, "source", true))
    ensures EntriesUnder(FixtureNodes(f, EDITS), id) ==
      if id == f.root then { Folder(f.source, f.root, "source"), Folder(f.quarantine, f.root, "quarantine"),
                             Folder(f.artifact, f.root, "artifact") } else {}
  {
    var nodes := Built(f, Node(f.root, "source", true));
    assert FixtureNodes(f, EDITS) == nodes;
    assert nodes[f.source] == Node(f.root, "source", true) && nodes[f.quarantine] == Node(f.root, "quarantine", true);
    assert nodes[f.artifact] == Node(f.root, "artifact", true) && nodes[f.root] == Node(f.parent, f.rootName, true);
    hide FixtureNodes;
    forall e | e in EntriesUnder(nodes, id)
      ensures id == f.root && e in { Folder(f.source, f.root, "source"), Folder(f.quarantine, f.root, "quarantine"),
                                     Folder(f.artifact, f.root, "artifact") }
    {
    }
  }

  lemma {:induction false} ScopeAgrees(env: Environment, t: Tree, fits: nat -> bool, f: Fixture, h: History, i: nat)
    requires Honest(env, t, fits) && Capacity(fits) && FreshFixture(t, f, EDITS) && i <= 4
    requires ManifestOf(f).order == [f.root, f.source, f.quarantine, f.artifact]
    requires TreeAfter(t, h) == t + FixtureNodes(f, EDITS) && AcyclicThroughout(t, h)
    requires |Writes(h)| == EDITS && ListCount(h) == EDITS + 1
    ensures ScopeOk(env, DEFAULT_BUDGET, h, ManifestOf(f), i)
    ensures TreeAfter(t, ScopeHistory(env, h, ManifestOf(f), i)) == t + FixtureNodes(f, EDITS)
    ensures AcyclicThroughout(t, ScopeHistory(env, h, ManifestOf(f), i))
  {
    hide Honest, ListOk, EntriesUnder, FixtureNodes, ManifestOf, TreeAfter, AcyclicThroughout, AfterList, Writes, ListCount;
    if i > 0 {
      var m := ManifestOf(f);
      ScopeAgrees(env, t, fits, f, h, i - 1);
      var before, id := ScopeHistory(env, h, m, i - 1), m.order[i - 1];
      CountsOfScope(env, h, m, i - 1);
      StandingIsDifferent(t, f);
      ManifestIsTree(t, f, id);
      ListsAt(env, t, fits, before, id);
      TreeAfterCalls(env, t, before, Recycle(id), id);
      AcyclicCalls(env, t, before, Recycle(id), id);
    }
  }

  /** What was there before the run does not hang below the run's root. */
  lemma {:induction false} OldIsNotBelow(t: Tree, f: Fixture, id: Id, n: nat)
    requires FreshFixture(t, f, EDITS) && id in t
    ensures !Below(t + FixtureNodes(f, EDITS), id, f.root, n)
    decreases n
  {
    var all := t + FixtureNodes(f, EDITS);
    assert FixtureNodes(f, EDITS).Keys == Created(f);
    hide FixtureNodes, IsId;
    assert all[id] == t[id];
    if n > 0 && t[id].parent in t {
      OldIsNotBelow(t, f, t[id].parent, n - 1);
    }
  }

  lemma FixtureDescends(t: Tree, f: Fixture)
    requires FreshFixture(t, f, EDITS)
    ensures
      var all := t + FixtureNodes(f, EDITS);
      && FixtureNodes(f, EDITS).Keys == {f.root, f.source, f.quarantine, f.artifact}
      && forall id | id in {f.source, f.quarantine, f.artifact} :: Descends(all, id, f.root)
  {
    var all := t + FixtureNodes(f, EDITS);
    assert FixtureNodes(f, EDITS) == Built(f, Node(f.root, "source", true));
    StandingIsDifferent(t, f);
    hide FixtureNodes, IsId;
    forall id | id in {f.source, f.quarantine, f.artifact} ensures Descends(all, id, f.root) {
      assert all[id].parent == f.root && f.root in all;
      assert Below(all, id, f.root, 1);
    }
  }

  lemma OldDoesNotDescend(t: Tree, f: Fixture)
    requires FreshFixture(t, f, EDITS)
    ensures forall id | id in t :: !Descends(t + FixtureNodes(f, EDITS), id, f.root)
    ensures FixtureNodes(f, EDITS).Keys !! t.Keys
  {
    var all := t + FixtureNodes(f, EDITS);
    StandingIsDifferent(t, f);
    assert FixtureNodes(f, EDITS) == Built(f, Node(f.root, "source", true));
    hide FixtureNodes, IsId;
    forall id, n: nat | id in t ensures !Below(all, id, f.root, n) {
      OldIsNotBelow(t, f, id, n);
    }
  }

  /** Recycling the root takes exactly the fixture away. */
  lemma RecycleRestores(t: Tree, f: Fixture, answer: WriteAnswer)
    requires FreshFixture(t, f, EDITS)
    ensures AfterRequest(t + FixtureNodes(f, EDITS), Recycle(f.root), answer) == t
  {
    hide FreshFixture, FixtureNodes, Descends;
    FixtureDescends(t, f);
    OldDoesNotDescend(t, f);
    assert AfterRequest(t + FixtureNodes(f, EDITS), Recycle(f.root), answer) == t;
  }

  /** Everything up to the recycle is observed as the manifest says. */
  lemma ConfirmsHonestly(env: Environment, t: Tree, fits: nat -> bool, f: Fixture)
    requires Honest(env, t, fits) && Capacity(fits) && IsId(f.parent)
    requires Stands(env, t, f, EDITS) && EditsOk(env, DEFAULT_BUDGET, f, EDITS)
    requires AcyclicThroughout(t, EditHistory(env, f, EDITS))
    requires fits(|EntriesUnder(t, f.parent)| + 1)
    ensures Confirmed(env, DEFAULT_BUDGET, f)
    ensures TreeAfter(t, RecycleHistory(env, f)) == t + FixtureNodes(f, EDITS)
    ensures AcyclicThroughout(t, RecycleHistory(env, f))
    ensures |Writes(RecycleHistory(env, f))| == EDITS && ListCount(RecycleHistory(env, f)) == EDITS + 5
  {
    hide Honest, EditHistory, FixtureNodes, EntriesUnder, ManifestOf, TreeAfter, AcyclicThroughout, AfterList, EditsOk, ListOk, Acyclic, New, Writes, ListCount;
    var h := EditHistory(env, f, EDITS);
    WritesOfEdits(env, f, EDITS);
    StandingIsDifferent(t, f);
    FourDirectories(f);
    UnderParent(t, f, EDITS);
    ListsAt(env, t, fits, h, f.parent);
    TreeAfterCalls(env, t, h, Recycle(f.root), f.parent);
    AcyclicCalls(env, t, h, Recycle(f.root), f.parent);
    CountsAfter(env, h, Recycle(f.root), f.parent);
    ScopeAgrees(env, t, fits, f, RootCheckHistory(env, f), 4);
    CountsOfScope(env, RootCheckHistory(env, f), ManifestOf(f), 4);
  }

  /**
    The whole lifecycle on an honest tree.  It succeeds if and only if the parent's listing
    still fits with the root in it; then the tree never has a cycle and ends as it began.
   */
  lemma HonestLifecycle(env: Environment, t: Tree, fits: nat -> bool, parent: Id, rootName: string)
    requires Honest(env, t, fits) && Acyclic(t) && Capacity(fits) && IsId(parent)
    ensures
      var f := FixtureOf(env, parent, rootName);
      && AllDifferent(f)
      && (RunOk(env, DEFAULT_BUDGET, f) <==> fits(|EntriesUnder(t, parent)| + 1))
      && (fits(|EntriesUnder(t, parent)| + 1) ==>
            && TreeAfter(t, RunHistory(env, f)) == t
            && AcyclicThroughout(t, RunHistory(env, f)))
      && (!fits(|EntriesUnder(t, parent)| + 1) ==> !EditsOk(env, DEFAULT_BUDGET, f, 1))
  {
    hide Honest, FixtureOf, EditHistory, FixtureNodes, EntriesUnder, TreeAfter, AcyclicThroughout, Acyclic, AfterList, EditsOk, New, Writes, ListCount, AfterRequest, Confirmed, RecycleHistory;
    var f := FixtureOf(env, parent, rootName);
    EditsStand(env, t, fits, parent, rootName, EDITS);
    EditsStand(env, t, fits, parent, rootName, 1);
    StandingIsDifferent(t, f);
    if fits(|EntriesUnder(t, parent)| + 1) {
      ConfirmsHonestly(env, t, fits, f);
      RecyclesHonestly(env, t, fits, f);
    } else {
      ConfirmedMeansEdits(env, DEFAULT_BUDGET, f);
    }
  }

  lemma ConfirmedMeansEdits(env: Environment, b: Budget, f: Fixture)
    ensures Confirmed(env, b, f) ==> EditsOk(env, b, f, EDITS)
  {
  }

  lemma RecyclesHonestly(env: Environment, t: Tree, fits: nat -> bool, f: Fixture)
    requires Honest(env, t, fits) && Capacity(fits) && IsId(f.parent) && Acyclic(t)
    requires FreshFixture(t, f, EDITS) && Confirmed(env, DEFAULT_BUDGET, f)
    requires TreeAfter(t, RecycleHistory(env, f)) == t + FixtureNodes(f, EDITS)
    requires AcyclicThroughout(t, RecycleHistory(env, f))
    requires |Writes(RecycleHistory(env, f))| == EDITS && ListCount(RecycleHistory(env, f)) == EDITS + 5
    requires fits(|EntriesUnder(t, f.parent)| + 1)
    ensures RunOk(env, DEFAULT_BUDGET, f)
    ensures TreeAfter(t, RunHistory(env, f)) == t
    ensures AcyclicThroughout(t, RunHistory(env, f))
  {
    var h := RecycleHistory(env, f);
    var after := AfterWrite(env, h, Recycle(f.root));
    assert RunHistory(env, f) == AfterList(env, after, f.parent);
    RootStands(t, f);
    hide Honest, FixtureNodes, EntriesUnder, TreeAfter, AcyclicThroughout, Acyclic, AfterList, AfterWrite, FreshFixture, Writes, ListCount, AfterRequest, Confirmed, RecycleHistory, RunHistory, IsId;
    HonestAt(env, t, fits, h, Recycle(f.root));
    DefaultBudgetSuffices(h);
    CountsAfter(env, h, Recycle(f.root), "");
    TreeAfterCalls(env, t, h, Recycle(f.root), "");
    RecycleRestores(t, f, env.execute(h, Recycle(f.root)));
    AcyclicCalls(env, t, h, Recycle(f.root), "");
    LooksHonestly(env, t, fits, f, after);
  }

  lemma RootStands(t: Tree, f: Fixture)
    requires FreshFixture(t, f, EDITS)
    ensures f.root in t + FixtureNodes(f, EDITS)
    ensures forall e | e in EntriesUnder(t, f.parent) :: e.fileId != f.root
  {
  }

  /** The last look: the tree is back, and the root is not in it. */
  lemma LooksHonestly(env: Environment, t: Tree, fits: nat -> bool, f: Fixture, after: History)
    requires Honest(env, t, fits) && Capacity(fits) && IsId(f.parent)
    requires TreeAfter(t, after) == t && AcyclicThroughout(t, after)
    requires |Writes(after)| == EDITS + 1 && ListCount(after) == EDITS + 5
    requires fits(|EntriesUnder(t, f.parent)| + 1)
    requires forall e | e in EntriesUnder(t, f.parent) :: e.fileId != f.root
    ensures GoneOk(env, DEFAULT_BUDGET, after, f.parent, f.root)
    ensures TreeAfter(t, AfterList(env, after, f.parent)) == t
    ensures AcyclicThroughout(t, AfterList(env, after, f.parent))
  {
    hide Honest, EntriesUnder, TreeAfter, AcyclicThroughout, Acyclic, AfterList, Writes, ListCount, IsId, ListOk;
    ListsAt(env, t, fits, after, f.parent);
    TreeAfterCalls(env, t, after, Recycle(f.root), f.parent);
    AcyclicCalls(env, t, after, Recycle(f.root), f.parent);
  }

  /**
    The probe on an honest tree with the default budget: the report says success exactly when
    the parent's listing fits, and then the remote is left as it was found.  When it does not
    fit the run stops short of any cleanup and says so.
   */
  method RunOnHonestTree(env: Environment, ghost t: Tree, ghost fits: nat -> bool, parentId: RawId, gates: Gates,
                         timeoutSeconds: Option<real>, rootName: string)
    returns (report: Report, trace: History)
    requires Honest(env, t, fits) && Acyclic(t) && Capacity(fits)
    requires Admitted(parentId, gates, DEFAULT_BUDGET, timeoutSeconds)
    ensures
      var room := fits(|EntriesUnder(t, NormalizeId(parentId).value)| + 1);
      && (report.status.Success? <==> room)
      && (room ==>
            && TreeAfter(t, trace) == t
            && AcyclicThroughout(t, trace)
            && report.cleanup.Complete?
            && report.writeCalls == MAX_WRITE_CALLS && report.listCalls == MAX_LIST_CALLS)
      && (!room ==> report.cleanup.NotAttemptedUncertain?)
  {
    hide Honest, Acyclic, Capacity, EntriesUnder, TreeAfter, AcyclicThroughout, RunOk, Confirmed, RunHistory, FixtureOf, EditsOk;
    var parent := NormalizeId(parentId).value;
    assert IsId(parent);
    hide IsId;
    HonestLifecycle(env, t, fits, parent, rootName);
    ghost var f := FixtureOf(env, parent, rootName);
    var probe := new Probe(env, DEFAULT_BUDGET);
    report := probe.Run(parentId, gates, timeoutSeconds, rootName);
    trace := probe.trace;
    if RunOk(env, DEFAULT_BUDGET, f) {
      BudgetIsExactlyEnough(env, DEFAULT_BUDGET, f);
    } else if Confirmed(env, DEFAULT_BUDGET, f) {
      ConfirmedMeansEdits(env, DEFAULT_BUDGET, f);
      EarlierEditsOk(env, DEFAULT_BUDGET, f, 1, EDITS);
    }
  }

  lemma LiveCapacity()
    ensures Capacity(LiveFits)
  {
  }

  /** Over the live transport's four one-entry pages the lifecycle succeeds if and only if the
      parent has at most three entries beforehand. */
  lemma LiveLifecycle(env: Environment, t: Tree, parent: Id, rootName: string)
    requires Honest(env, t, LiveFits) && Acyclic(t) && IsId(parent)
    ensures RunOk(env, DEFAULT_BUDGET, FixtureOf(env, parent, rootName)) <==> |EntriesUnder(t, parent)| <= 3
  {
    hide FixtureOf, RunOk, Honest, Acyclic;
    LiveCapacity();
    HonestLifecycle(env, t, LiveFits, parent, rootName);
  }
}
