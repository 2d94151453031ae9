/**
  What the contract of a C03 run means: at most one destructive call, always last, always of
  the run's own root, and only after the subtree below that root was seen to be exactly the
  set of directories the run created.
 */
module C03Safety {
  import opened Wrappers
  import opened Sets
  import opened C03Model

  /** Any initial part of the plan recycles at most once, last, and only the root. */
  lemma {:induction false} RecycleIsLastAndOwn(f: Fixture, k: nat, i: nat)
    requires i < k <= EDITS + 1
    ensures Plan(f, k)[i].Recycle? <==> i == EDITS
    ensures Plan(f, k)[i].Recycle? ==> i == k - 1 && Plan(f, k)[i].id == f.root
  {
    if i < k - 1 {
      RecycleIsLastAndOwn(f, k - 1, i);
    }
  }

  /** The root is the identity the run's very first answer carried. */
  lemma RootIsFirstAnswer(env: Environment, b: Budget, parent: Id, rootName: string)
    requires EditsOk(env, b, FixtureOf(env, parent, rootName), EDITS)
    ensures
      var f := FixtureOf(env, parent, rootName);
      var first := env.execute([], Mkdir(parent, rootName));
      && first.Received? && first.receipt.status == Succeeded
      && first.receipt.Identity() == Some(f.root)
  {
    hide SeesOk;
    var f := FixtureOf(env, parent, rootName);
    EarlierEditsOk(env, b, f, 0, EDITS);
    FixtureEdits(env, parent, rootName);
  }

  /** Event `i` of `h` is a complete listing of `parent` that shows `entry`. */
  ghost predicate ShowsAt(h: History, i: nat, entry: Entry) {
    && i < |h| && h[i].Listed? && h[i].parent == entry.parentId
    && h[i].listing.Listing? && h[i].listing.complete
    && Readable(h[i].listing.entries, entry.parentId)
    && entry in Shown(h[i].listing.entries, entry.parentId)
  }

  ghost predicate AcceptedAt(h: History, i: nat, request: Request) {
    && i < |h| && h[i].Wrote? && h[i].request == request
    && h[i].answer.Received? && h[i].answer.receipt.status == Succeeded
  }

  /** What one edit adds to a history, when it was accepted and confirmed. */
  lemma EditIsOnRecord(env: Environment, b: Budget, h: History, edit: Edit)
    requires EditOk(env, b, h, edit)
    ensures |AfterEdit(env, h, edit)| == |h| + 2 && h <= AfterEdit(env, h, edit)
    ensures AcceptedAt(AfterEdit(env, h, edit), |h|, edit.request)
    ensures ShowsAt(AfterEdit(env, h, edit), |h| + 1, edit.entry)
  {
    hide CanWrite, CanList;
  }

  lemma RecordStays(h: History, longer: History, i: nat, request: Request, entry: Entry)
    requires h <= longer
    ensures AcceptedAt(h, i, request) ==> AcceptedAt(longer, i, request)
    ensures ShowsAt(h, i + 1, entry) ==> ShowsAt(longer, i + 1, entry)
  {
    hide Readable, Shown;
  }

  /** Every edit is in the history, accepted, and its effect was seen right after it. */
  lemma {:induction false} EveryEditWasConfirmed(env: Environment, b: Budget, f: Fixture, n: nat, k: nat)
    requires k < n <= EDITS && EditsOk(env, b, f, n)
    ensures |EditHistory(env, f, n)| == 2 * n
    ensures AcceptedAt(EditHistory(env, f, n), 2 * k, EditAt(f, k).request)
    ensures ShowsAt(EditHistory(env, f, n), 2 * k + 1, EditAt(f, k).entry)
  {
    hide EditAt, EditOk, AfterEdit, AcceptedAt, ShowsAt;
    var h := EditHistory(env, f, n - 1);
    EditHistoryLength(env, f, n - 1);
    EditIsOnRecord(env, b, h, EditAt(f, n - 1));
    if k < n - 1 {
      EveryEditWasConfirmed(env, b, f, n - 1, k);
      RecordStays(h, EditHistory(env, f, n), 2 * k, EditAt(f, k).request, EditAt(f, k).entry);
    }
  }

  lemma {:induction false} EditHistoryLength(env: Environment, f: Fixture, n: nat)
    requires n <= EDITS
    ensures |EditHistory(env, f, n)| == 2 * n
  {
    hide EditAt;
    if n > 0 {
      EditHistoryLength(env, f, n - 1);
    }
  }

  lemma {:induction false} ScopeListings(env: Environment, b: Budget, h: History, m: Manifest, n: nat, i: nat)
    requires i < n <= |m.order| && ScopeOk(env, b, h, m, n)
    ensures |ScopeHistory(env, h, m, n)| == |h| + n
    ensures h <= ScopeHistory(env, h, m, n)
    ensures
      var event := ScopeHistory(env, h, m, n)[|h| + i];
      && event.Listed? && event.parent == m.order[i]
      && event.listing.Listing? && event.listing.complete
      && Readable(event.listing.entries, m.order[i])
      && Shown(event.listing.entries, m.order[i]) == m.Children(m.order[i])
    decreases n
  {
    hide CanList;
    ScopeHistoryLength(env, h, m, n - 1);
    if i < n - 1 {
      ScopeListings(env, b, h, m, n - 1, i);
    }
  }

  lemma {:induction false} ScopeHistoryLength(env: Environment, h: History, m: Manifest, n: nat)
    requires n <= |m.order|
    ensures |ScopeHistory(env, h, m, n)| == |h| + n
    ensures h <= ScopeHistory(env, h, m, n)
  {
    if n > 0 {
      ScopeHistoryLength(env, h, m, n - 1);
    }
  }

  // --------------------------------------------------- the subtree that was observed

  const SCOPE_START := 2 * EDITS + 1

  /** The scope check saw `child` directly under `parent`. */
  ghost predicate Saw(h: History, parent: Id, child: Entry) {
    exists i | SCOPE_START <= i < |h| :: child.parentId == parent && ShowsAt(h, i, child)
  }

  /** A path of directory entries the scope check saw, going down from `root`. */
  ghost predicate ObservedPath(h: History, root: Id, path: seq<Entry>) {
    path == []
    || (var n := |path| - 1;
        && ObservedPath(h, root, path[..n])
        && Saw(h, if n == 0 then root else path[n - 1].fileId, path[n]))
  }

  ghost function Created(f: Fixture): set<Id> {
    {f.root, f.source, f.quarantine, f.artifact}
  }

  lemma ScopeShowsManifest(env: Environment, b: Budget, f: Fixture, i: nat)
    requires Confirmed(env, b, f)
    ensures |RecycleHistory(env, f)| == SCOPE_START + |ManifestOf(f).order|
    ensures i < |ManifestOf(f).order| ==>
      var id := ManifestOf(f).order[i];
      var event := RecycleHistory(env, f)[SCOPE_START + i];
      && event.Listed? && event.parent == id
      && event.listing.Listing? && event.listing.complete
      && Readable(event.listing.entries, id)
      && Shown(event.listing.entries, id) == ManifestOf(f).Children(id)
  {
    hide EditsOk, SeesOk, ScopeOk, ManifestOf;
    var h, m := RootCheckHistory(env, f), ManifestOf(f);
    EditHistoryLength(env, f, EDITS);
    ScopeHistoryLength(env, h, m, |m.order|);
    if i < |m.order| {
      ScopeListings(env, b, h, m, |m.order|, i);
    }
  }

  /** What the scope check saw is exactly what the manifest says. */
  lemma SeenIsManaged(env: Environment, b: Budget, f: Fixture, parent: Id, child: Entry)
    requires Confirmed(env, b, f)
    ensures Saw(RecycleHistory(env, f), parent, child) <==>
      parent in Created(f) && child in ManifestOf(f).Children(parent)
  {
    hide Confirmed, RecycleHistory, ManifestOf;
    var h, m := RecycleHistory(env, f), ManifestOf(f);
    if Saw(h, parent, child) {
      var i :| SCOPE_START <= i < |h| && child.parentId == parent && ShowsAt(h, i, child);
      ScopeShowsManifest(env, b, f, i - SCOPE_START);
      assert m.order[i - SCOPE_START] in m.order;
    }
    if parent in Created(f) && child in m.Children(parent) {
      assert parent in m.order;
      var i :| 0 <= i < |m.order| && m.order[i] == parent;
      ScopeShowsManifest(env, b, f, i);
      assert ShowsAt(h, SCOPE_START + i, child);
    }
  }

  /** By induction on paths, everything observed below the root is a directory of the run. */
  lemma {:induction false} ObservedSubtreeIsCreated(env: Environment, b: Budget, f: Fixture, path: seq<Entry>)
    requires Confirmed(env, b, f) && ObservedPath(RecycleHistory(env, f), f.root, path)
    ensures forall j | 0 <= j < |path| :: path[j].isDirectory && path[j].fileId in Created(f)
  {
    hide Confirmed, RecycleHistory, ManifestOf, Saw;
    if path != [] {
      var n := |path| - 1;
      var parent := if n == 0 then f.root else path[n - 1].fileId;
      SeenIsManaged(env, b, f, parent, path[n]);
      ObservedSubtreeIsCreated(env, b, f, path[..n]);
    }
  }

  /** Some path the scope check saw leads from the root down to this identity. */
  ghost predicate Observed(h: History, root: Id, id: Id) {
    exists path: seq<Entry> :: path != [] && ObservedPath(h, root, path) && path[|path| - 1].fileId == id
  }

  /** What was observed below the root is exactly what the run created there, whatever identities
      the transport handed out; the root itself is seen again only if the run was sent below one
      of its own directories. */
  lemma ObservedIsCreated(env: Environment, b: Budget, f: Fixture, id: Id)
    requires Confirmed(env, b, f)
    ensures Observed(RecycleHistory(env, f), f.root, id) <==>
      id in {f.source, f.quarantine, f.artifact} || (id == f.root && f.parent in Created(f))
  {
    hide Confirmed, RecycleHistory, Saw;
    var h := RecycleHistory(env, f);
    if Observed(h, f.root, id) {
      var path: seq<Entry> :| path != [] && ObservedPath(h, f.root, path) && path[|path| - 1].fileId == id;
      var n := |path| - 1;
      LastStepIsManaged(env, b, f, if n == 0 then f.root else path[n - 1].fileId, path[n]);
    }
    if id in {f.source, f.quarantine, f.artifact} {
      ChildIsObserved(env, b, f, id);
    }
    if id == f.root && f.parent in Created(f) && id !in {f.source, f.quarantine, f.artifact} {
      RootIsObserved(env, b, f);
    }
  }

  lemma LastStepIsManaged(env: Environment, b: Budget, f: Fixture, parent: Id, child: Entry)
    requires Confirmed(env, b, f) && Saw(RecycleHistory(env, f), parent, child)
    ensures parent in Created(f)
    ensures child.fileId in {f.source, f.quarantine, f.artifact} || (child.fileId == f.root && parent == f.parent)
  {
    hide Confirmed, RecycleHistory, ManifestOf, Saw;
    SeenIsManaged(env, b, f, parent, child);
    ManifestChildren(f, parent);
  }

  lemma ChildIsObserved(env: Environment, b: Budget, f: Fixture, id: Id)
    requires Confirmed(env, b, f) && id in {f.source, f.quarantine, f.artifact}
    ensures exists child: Entry :: child.fileId == id && ObservedPath(RecycleHistory(env, f), f.root, [child])
    ensures Observed(RecycleHistory(env, f), f.root, id)
  {
    hide Confirmed, RecycleHistory, ManifestOf, Saw;
    ManifestChildren(f, f.root);
    var child :| child in ManifestOf(f).Children(f.root) && child.fileId == id;
    SeenIsManaged(env, b, f, f.root, child);
    assert [child][..0] == [];
    assert ObservedPath(RecycleHistory(env, f), f.root, [child]);
  }

  lemma RootIsObserved(env: Environment, b: Budget, f: Fixture)
    requires Confirmed(env, b, f) && f.parent in Created(f) && f.root !in {f.source, f.quarantine, f.artifact}
    ensures Observed(RecycleHistory(env, f), f.root, f.root)
  {
    hide Confirmed, RecycleHistory, ManifestOf, Saw;
    var h, seen := RecycleHistory(env, f), Folder(f.root, f.parent, f.rootName);
    ManifestChildren(f, f.parent);
    SeenIsManaged(env, b, f, f.parent, seen);
    if f.parent == f.root {
      assert [seen][..0] == [];
      assert ObservedPath(h, f.root, [seen]);
    } else {
      ChildIsObserved(env, b, f, f.parent);
      var child: Entry :| child.fileId == f.parent && ObservedPath(h, f.root, [child]);
      assert [child, seen][..1] == [child];
      assert ObservedPath(h, f.root, [child, seen]);
    }
  }

  ghost predicate AllDifferent(f: Fixture) {
    && f.root !in {f.source, f.quarantine, f.artifact, f.parent}
    && f.source != f.quarantine && f.source != f.artifact && f.quarantine != f.artifact
  }

  /** Where the run believes its directories to be.  Of two that got one identity, the later
      stands. */
  ghost function Standing(f: Fixture, parent: Id): set<Entry> {
    (if parent == f.root
     then { Folder(f.artifact, f.root, "artifact") }
          + (if f.quarantine != f.artifact then { Folder(f.quarantine, f.root, "quarantine") } else {})
          + (if f.source !in {f.quarantine, f.artifact} then { Folder(f.source, f.root, "source") } else {})
     else {})
    + (if parent == f.parent && f.root !in {f.source, f.quarantine, f.artifact}
       then { Folder(f.root, f.parent, f.rootName) } else {})
  }

  /** The run's directories were all observed where it believes them to be, and nothing else was:
      with four different identities, three empty directories directly under the root. */
  lemma FixtureStandsAsBuilt(env: Environment, b: Budget, f: Fixture, parent: Id, child: Entry)
    requires Confirmed(env, b, f) && parent in Created(f)
    ensures Saw(RecycleHistory(env, f), parent, child) <==> child in Standing(f, parent)
    ensures AllDifferent(f) && f.parent !in Created(f) ==>
      (Saw(RecycleHistory(env, f), parent, child) <==>
        parent == f.root && child in { Folder(f.source, f.root, "source"), Folder(f.quarantine, f.root, "quarantine"),
                                       Folder(f.artifact, f.root, "artifact") })
  {
    hide Confirmed, RecycleHistory, ManifestOf, Saw;
    SeenIsManaged(env, b, f, parent, child);
    ManifestChildren(f, parent);
  }

  lemma ManifestChildren(f: Fixture, parent: Id)
    ensures ManifestOf(f).Children(parent) == Standing(f, parent)
  {
    hide ManifestOf, Manifest.Valid;
    var m := ManifestOf(f);
    assert m.at[f.artifact] == (f.root, "artifact");
    assert f.quarantine != f.artifact ==> m.at[f.quarantine] == (f.root, "quarantine");
    assert f.source !in {f.quarantine, f.artifact} ==> m.at[f.source] == (f.root, "source");
    assert f.root !in {f.source, f.quarantine, f.artifact} ==> m.at[f.root] == (f.parent, f.rootName);
    forall id | id in m.at ensures id in Created(f) {}
  }

  // --------------------------------------------------------------- the call budget

  /** A run that succeeds makes ten writes, and one listing for each edit, each directory with an
      id of its own, and the root before and after: with four different directories it spends the
      whole budget, so that no smaller one can see it through. */
  lemma BudgetIsExactlyEnough(env: Environment, b: Budget, f: Fixture)
    requires b.Valid() && RunOk(env, b, f)
    ensures |Writes(RunHistory(env, f))| == MAX_WRITE_CALLS == b.maxWriteCalls
    ensures ListCount(RunHistory(env, f)) == EDITS + |Created(f)| + 2 <= b.maxListCalls
    ensures AllDifferent(f) ==> ListCount(RunHistory(env, f)) == MAX_LIST_CALLS == b.maxListCalls
  {
    hide Confirmed, RecycleHistory, AllDifferent, Created, Writes, ListCount, PageCount;
    OneListingEach(f);
    CountsBeforeRecycle(env, f);
    var h := RecycleHistory(env, f);
    CountsAfter(env, h, Recycle(f.root), f.parent);
    CountsAfter(env, AfterWrite(env, h, Recycle(f.root)), Recycle(f.root), f.parent);
  }

  lemma CountsBeforeRecycle(env: Environment, f: Fixture)
    ensures |Writes(RecycleHistory(env, f))| == EDITS
    ensures ListCount(RecycleHistory(env, f)) == EDITS + 1 + |Created(f)|
  {
    hide ManifestOf, EditHistory, Created;
    OneListingEach(f);
    WritesOfEdits(env, f, EDITS);
    CountsAfter(env, EditHistory(env, f, EDITS), Recycle(f.root), f.parent);
    CountsOfScope(env, RootCheckHistory(env, f), ManifestOf(f), |ManifestOf(f).order|);
  }

  lemma OneListingEach(f: Fixture)
    ensures |ManifestOf(f).order| == |Created(f)|
    ensures AllDifferent(f) ==> |Created(f)| == 4
  {
    hide ManifestOf;
    var order := ManifestOf(f).order;
    DistinctSize(order);
    assert (set id | id in order) == Created(f);
    if AllDifferent(f) {
      FourDirectories(f);
    }
  }

  lemma FourDirectories(f: Fixture)
    requires AllDifferent(f)
    ensures ManifestOf(f).order == [f.root, f.source, f.quarantine, f.artifact]
  {
    var m := Manifest([], map[]);
    assert m.Valid();
    m := m.Put(f.root, f.parent, f.rootName);
    assert m.order == [f.root];
    m := m.Put(f.source, f.root, "source");
    assert m.order == [f.root, f.source];
    m := m.Put(f.quarantine, f.root, "quarantine");
    assert m.order == [f.root, f.source, f.quarantine];
  }
}
