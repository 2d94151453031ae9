# Watch Assistant, modelled and proved

This project models the parts of the repository that drive remote stores which are not trusted:
the 115 cloud drive, a qBittorrent sidecar and the PanSou search service, and a few
self-contained cores beside them. It proves what those parts promise. `dafny verify dfyconfig.toml` checks
everything. Paths below are paths in the repository.

## What is modelled

**The C03 fixture lifecycle** (`C03*.dfy`). A probe creates four directories, renames and moves
one of them, puts it in quarantine and back (nine edits, each confirmed by a complete listing),
checks that every directory it made shows exactly what it put there, and recycles the root it
made, under a call budget that is reserved before a call is made.
`C03Probe` is the probe, as a class whose methods update counters, steps and manifest. Its
transport is an `Environment`: functions of the whole history so far, so that every adaptive
transport, deadline and cancellation is covered. `C03Safety` says what is true against any such
transport. `C03Tree`, `C03Honest` and `C03Witness` say what happens against one that keeps a
directory tree, and that there are such; `C03Fake` is the in-memory transport of the repository,
which is one; `C03Live` is the paged listing of the live transport below it.

**The qBittorrent client** (`Qbittorrent*.dfy`). Batches of inspections over a shared table of
reference-counted locks and a shared torrent server, as a step system: a step is what
happens between two awaits, other tasks run in between, at most as many work as the semaphore
lets in, any request may fail, take effect or not, at once or long after the client gave up on
it, and a batch may be cancelled at any moment. `QbittorrentLocks` and `QbittorrentSlots` are about
the locks and the semaphore, `QbittorrentTorrents` about the torrents; `QbittorrentRuns` and
`QbittorrentLeak` build runs that leave a torrent behind, and `QbittorrentCondition` says, in terms of
what is known before a batch is sent, exactly when there are none.

**Paged reading** (`LibraryScan`, `Inventory`, `ShareListing`, and `C03Live` above). Four loops
over pagers that may say anything. The results say exactly what is returned for what the pager shows.

**Moving, renaming and undoing** (`Organization`, `Runners`). The offline organization transport,
and the three runners that rename one remote file behind an authorization that can be used once.

**Smaller cores.** `Router` over `FormCodec` (routes and the form encoding), `RateLimit`,
`TaskWorker`, `Infohash`, `Enrichment`, `AnimeMapping`. `Decimals`, `Sets` and `Wrappers` serve the others.

## What the proofs found

- A cancelled batch can leave a torrent behind (`QbittorrentLeak.CancelledBatchMayLeak`): the
  gather of a cancelled batch ends with its first cancelled child, so the batch's marker is
  dropped while another child's shielded add is under way, and the cleanup of that child then
  finds no torrent with its tag. This happens exactly to batches of at most thirty magnets that
  name at least two infohashes, one of them missing on the server, on a client with a concurrency
  of at least two; whatever else is
  sent and cancelled, the torrents are always restored if and only if no such batch is planned
  (`QbittorrentCondition.RestoredExactlyWhenSafe`).
- An add that takes effect after the client gave up on it stays, without any cancellation
  (`QbittorrentLeak.LateAddStays`). With such adds the torrents are always restored if and only
  if no batch that is not refused names a missing infohash (`QbittorrentCondition.RestoredWhateverComesExactly`).
- Against an honest drive, the C03 probe with its default budget succeeds through the live
  transport if and only if its parent directory has at most three entries beforehand
  (`C03Honest.LiveLifecycle`): listings are read one entry a page, and four pages are the most.
- When the deadline passes inside a listing, the code reports the listing as failed and not the
  timeout, because the timeout is raised inside the block that catches everything.
- A share of a server that tells the truth is refused as malformed when some page hinted at the
  next one but the last page says neither how many items there are nor whether more follow
  (`ShareListing.ShareFileIds`, through `Conclusive`): the empty page that then ends the listing is
  held against the hint. And a later page without records whose total is 0 makes the listing empty, whatever was read before (`Collected`).
- The eight signal conflicts that the directory scan lists are exactly the contradictions between
  "last" and "more" (`LibraryScan.ConflictsAreContradictions`), and its final check of the next
  page can never fire. Nor can the page checks of the inventory script
  (`Inventory.StuckIsUncovered`).
- The adapters find different infohashes in some links, and `Infohash.AdaptersAgree` says exactly in
  which: those with a key and a host or a fragment, and those where the drive's reader, which looks
  only at pairs spelled "xt" in small letters, meets another key first, or none, or a value it
  cannot decode. Such values have a dotless or dotted Turkish I, a long s or a Kelvin sign,
  which a pattern that ignores case takes for letters of base32 (`Infohash.LookalikeHidesKey`).
- `write_started` is true in some reports of runs that wrote nothing; it is never false in a
  report of a run that wrote (`Runners.NothingDenied`).

## Model

| member | source | states |
|---|---|---|
| C03Probe.NormalizeListing | src/watch_assistant/adapters/p115_c03_fixture_probe.py:819-837 | a listing is accepted exactly when every element is an entry of that parent and none occurs twice, and then its entries are returned in order |
| C03Model.ReadsIsUnique | src/watch_assistant/adapters/p115_c03_fixture_probe.py:819-837 | a raw listing has at most one reading |
| C03Model.PagesWithinReservation | src/watch_assistant/adapters/p115_c03_fixture_probe.py:748-791 | over any history the pages read stay within what was reserved for the listings |
| C03Probe.Probe.ListChildren | src/watch_assistant/adapters/p115_c03_fixture_probe.py:748-791 | a listing is made only within the budget, and it succeeds exactly when the call was allowed in time and answered with a complete, acceptable listing |
| C03Probe.Probe.Verify | src/watch_assistant/adapters/p115_c03_fixture_probe.py:703-736 | an edit is confirmed exactly when its parent can be listed completely and acceptably and shows the expected entry; nothing is written |
| C03Probe.Probe.Write | src/watch_assistant/adapters/p115_c03_fixture_probe.py:612-677 | a write is sent only within the budget, is counted before it is sent, and succeeds exactly when it was answered with a success |
| C03Probe.Probe.BestEffortVerify | src/watch_assistant/adapters/p115_c03_fixture_probe.py:680-700 | looking again after a doubtful write never writes and never exceeds the budget |
| C03Probe.Probe.MakeDirectory | src/watch_assistant/adapters/p115_c03_fixture_probe.py:514-545 | sends at most its own mkdir, and succeeds exactly when that edit was accepted and confirmed |
| C03Probe.Probe.RenameAndVerify | src/watch_assistant/adapters/p115_c03_fixture_probe.py:548-577 | sends at most its own rename, and succeeds exactly when that edit was accepted and confirmed |
| C03Probe.Probe.MoveAndVerify | src/watch_assistant/adapters/p115_c03_fixture_probe.py:580-609 | sends at most its own move, and succeeds exactly when that edit was accepted and confirmed |
| C03Probe.Probe.PerformEdits | src/watch_assistant/adapters/p115_c03_fixture_probe.py:383-483 | whatever the transport does, the writes so far are a prefix of the plan, and the nine edits are done exactly when each was accepted and confirmed |
| C03Probe.Probe.VerifyManagedScope | src/watch_assistant/adapters/p115_c03_fixture_probe.py:794-816 | succeeds exactly when every managed directory is completely listed and shows exactly its children in the manifest; writes nothing |
| C03Probe.Probe.CleanUp | src/watch_assistant/adapters/p115_c03_fixture_probe.py:840-894 | the recycle is sent exactly when the verdict says that it was attempted, and only for the root after the scope was verified |
| C03Probe.Probe.Run | src/watch_assistant/adapters/p115_c03_fixture_probe.py:326-511 | against any transport: blocked exactly when a gate is closed, and then nothing is called; otherwise the writes are a prefix of the plan, the report's counters are the calls made (and, if the deadline stopped a call that had been counted, that one more), success is reported exactly for a run in which everything was confirmed, and the cleanup verdict tells whether the recycle was sent |
| C03Safety.RecycleIsLastAndOwn | src/watch_assistant/adapters/p115_c03_fixture_probe.py:840-894 | in every prefix of the plan there is at most one recycle; it is the tenth and last write and names the fixture's root |
| C03Safety.RootIsFirstAnswer | src/watch_assistant/adapters/p115_c03_fixture_probe.py:383-399 | that root is the id in the answer to the run's first mkdir |
| C03Safety.EveryEditWasConfirmed | src/watch_assistant/adapters/p115_c03_fixture_probe.py:383-483 | each of the nine edits is in the history, accepted, and followed by a complete listing that shows its effect |
| C03Safety.ScopeShowsManifest | src/watch_assistant/adapters/p115_c03_fixture_probe.py:794-816 | before the recycle there is for every managed directory a complete listing that shows exactly the manifest |
| C03Safety.SeenIsManaged | src/watch_assistant/adapters/p115_c03_fixture_probe.py:794-816 | the listings before the recycle show a child under a managed directory exactly when the manifest has it there |
| C03Safety.ObservedSubtreeIsCreated | src/watch_assistant/adapters/p115_c03_fixture_probe.py:794-816 | by induction on paths: everything observed below the root before the recycle is a directory with an id that this run created |
| C03Safety.ObservedIsCreated | src/watch_assistant/adapters/p115_c03_fixture_probe.py:794-816 | and whatever ids the transport handed out, equal or not, the ids observed below the root are exactly those of the three directories created there (and the root itself only if the run was sent below one of its own directories) |
| C03Safety.FixtureStandsAsBuilt | src/watch_assistant/adapters/p115_c03_fixture_probe.py:475-483 | for any ids, what the listings show under the created directories is the fixture as it was built, the later of two with one id; with different ids three directories under the root and nothing under those |
| C03Safety.ManifestChildren | src/watch_assistant/adapters/p115_c03_fixture_probe.py:399-475 | the manifest, never updated by renames and moves, still says where everything is at the end |
| C03Safety.BudgetIsExactlyEnough | src/watch_assistant/adapters/p115_c03_fixture_probe.py:40-47 | a successful run makes exactly ten writes and eleven listings and one more for each different directory it made, hence fifteen for four, and needs at least those caps |
| C03Tree.AcyclicPut | src/watch_assistant/adapters/p115_c03_fixture_probe.py:923-976 | placing a node under a directory that is not below it keeps the tree acyclic |
| C03Tree.FixtureGrows | src/watch_assistant/adapters/p115_c03_fixture_probe.py:383-483 | each edit of the plan turns the fixture of one step into that of the next |
| C03Tree.ListsAt | src/watch_assistant/adapters/p115_c03_fixture_probe.py:748-791 | against an honest tree a listing succeeds exactly when its entries fit the pages, and shows what is there |
| C03Tree.HonestEdit | src/watch_assistant/adapters/p115_c03_fixture_probe.py:514-609 | against an honest tree an edit is confirmed exactly when the listing of its parent fits |
| C03Honest.AcyclicAtEveryPrefix | src/watch_assistant/adapters/p115_c03_fixture_probe.py:923-1025 | acyclic throughout means: after every prefix of the calls |
| C03Honest.EditsStand | src/watch_assistant/adapters/p115_c03_fixture_probe.py:383-483 | while the edits succeed, the remote is the initial tree plus the fixture so far, and the tree stays acyclic |
| C03Honest.ScopeAgrees | src/watch_assistant/adapters/p115_c03_fixture_probe.py:794-816 | at cleanup the manifest agrees with the remote for every managed directory |
| C03Honest.OldIsNotBelow | src/watch_assistant/adapters/p115_c03_fixture_probe.py:1019-1025 | nothing that was there before is below the fixture's root |
| C03Honest.RecycleRestores | src/watch_assistant/adapters/p115_c03_fixture_probe.py:962-976 | recycling the root takes away exactly the fixture |
| C03Honest.HonestLifecycle | src/watch_assistant/adapters/p115_c03_fixture_probe.py:326-511 | for every acyclic tree and fresh ids the run succeeds if and only if the parent's listing still fits with one entry more; then the final tree is the initial one, and it was acyclic throughout |
| C03Honest.RunOnHonestTree | src/watch_assistant/adapters/p115_c03_fixture_probe.py:326-511 | the same of the run itself: its report is a success under that condition, and the tree is restored |
| C03Honest.LiveLifecycle | src/watch_assistant/adapters/p115_c03_live_transport.py:113-170 | through the live transport that condition is: at most three entries in the parent |
| C03Live.ListChildren | src/watch_assistant/adapters/p115_c03_live_transport.py:113-170 | for any client: a listing called complete is the whole directory the client shows; any other is a true prefix, cut off exactly where the pages are used up or the next is late, bad or repeats an entry; and the page calls are counted |
| C03Live.ListHonestDirectory | src/watch_assistant/adapters/p115_c03_live_transport.py:113-170 | an honest client of at most four entries is listed completely and unchanged; of more the first four, called incomplete |
| C03Live.HonestIsWhole | src/watch_assistant/adapters/p115_c03_live_transport.py:355-383 | the whole directory that an honest client shows is its list, and no other |
| C03Witness.HonestRemoteExists | src/watch_assistant/adapters/p115_c03_fixture_probe.py:897-1025 | for every tree and capacity there is a transport that is honest in this sense |
| C03Witness.LiveRemoteExists | src/watch_assistant/adapters/p115_c03_live_transport.py:113-170 | the transport whose listings are what that loop makes of an honest client (wherever ids fit the length of a textual id) is honest with room for four entries, for every tree, so the condition above speaks of it |
| C03Fake.FakeTransport.IsDescendant | src/watch_assistant/adapters/p115_c03_fixture_probe.py:1019-1025 | the upward walk answers exactly whether one entry is below another |
| C03Fake.FakeTransport.Execute | src/watch_assistant/adapters/p115_c03_fixture_probe.py:923-976 | the in-memory transport answers honestly and changes its entries exactly as the request says |
| QbittorrentLocks.StepKeepsLocks | src/watch_assistant/adapters/qbittorrent.py:423-454 | every step of every task keeps the lock invariant |
| QbittorrentLocks.LocksInEveryRun | src/watch_assistant/adapters/qbittorrent.py:423-454 | so does every run |
| QbittorrentLocks.GuardTheorem | src/watch_assistant/adapters/qbittorrent.py:423-454 | in every interleaving at most one task is inside the guarded section of a hash, an entry's users are the tasks registered and not yet released on it, and every lock with users is the one in the table |
| QbittorrentLocks.TableAtRest | src/watch_assistant/adapters/qbittorrent.py:437-454 | when no task is active the table is empty |
| QbittorrentLocks.RegisterCounts | src/watch_assistant/adapters/qbittorrent.py:424-428 | registering adds the task to the users of the entry it finds or makes |
| QbittorrentLocks.ReleaseHoldsTable | src/watch_assistant/adapters/qbittorrent.py:450-454 | the last release takes the entry out, and nobody else's |
| QbittorrentLocks.CancelKeeps | src/watch_assistant/adapters/qbittorrent.py:437-448 | a cancellation at any await keeps the locks in order |
| QbittorrentSlots.NeverMoreThanCapacity | src/watch_assistant/adapters/qbittorrent.py:92-103 | in every run the tasks that work and the marker cleanups together are at most as many as the concurrency |
| QbittorrentTorrents.StepKeepsTorrents | src/watch_assistant/adapters/qbittorrent.py:242-366 | every step keeps the torrent invariant |
| QbittorrentTorrents.AddKeepsAnswers | src/watch_assistant/adapters/qbittorrent.py:482-511 | an add, answered or not, applied, lost or still to come, makes only a torrent that its own task answers for |
| QbittorrentTorrents.DeleteKeepsAnswers | src/watch_assistant/adapters/qbittorrent.py:552-565 | a delete takes only a torrent that this batch put there |
| QbittorrentTorrents.BatchMovesKeep | src/watch_assistant/adapters/qbittorrent.py:567-582 | dropping a marker that no torrent carries changes no torrent |
| QbittorrentTorrents.TorrentsInEveryRun | src/watch_assistant/adapters/qbittorrent.py:165-198 | the invariants hold in every run of any number of batches |
| QbittorrentTorrents.TorrentTheorem | src/watch_assistant/adapters/qbittorrent.py:242-366 | over every interleaving and for every concurrency: a torrent present beforehand stays untouched; a new one belongs to a task still removing it, to a cleanup reported as failed, to an add that took effect after its own failure, or to a cancelled batch of several infohashes with a concurrency of at least two; every add was followed by its cleanup inside the guard |
| QbittorrentCondition.ServerIsRestored | src/watch_assistant/adapters/qbittorrent.py:105-198 | after a run of safe batches, cancelled or not, at whose end all is through, no cleanup failed and no add came late, the torrents are the initial ones; safe is a concurrency of one, more than thirty magnets sent, at most one infohash among them, or only torrents that are there |
| QbittorrentLeak.CancelledBatchMayLeak | src/watch_assistant/adapters/qbittorrent.py:105-198 | for every other batch of magnets, invalid and repeated ones included, every other concurrency and every server: a run of that batch alone, cancelled, which ends with every cleanup reported done, no add late and a torrent left behind |
| QbittorrentLeak.LateAddStays | src/watch_assistant/adapters/qbittorrent.py:482-511 | for every batch of at most thirty magnets that names a missing infohash: a run without cancellation in which an add takes effect after its own timeout and cleanup, and stays |
| QbittorrentCondition.RestoredExactlyWhenSafe | src/watch_assistant/adapters/qbittorrent.py:105-198 | the torrents are the initial ones after every such run of a plan of batches if and only if every batch of it is safe |
| QbittorrentCondition.RestoredWhateverComesExactly | src/watch_assistant/adapters/qbittorrent.py:105-198 | with adds that may take effect late: if and only if every batch of the plan is refused for its length or names no infohash that is missing on the server |
| LibraryScan.ConflictsAreContradictions | src/watch_assistant/adapters/p115_library.py:444-498 | the listed signal conflicts are exactly the pages that say both "last" and "more", name a wrong next page or lie beyond the count; an empty page that leads on is always refused |
| LibraryScan.Collect | src/watch_assistant/adapters/p115_library.py:499-512 | entries are taken in order up to the first identity seen before, and none is seen before exactly when all are distinct |
| LibraryScan.Examine | src/watch_assistant/adapters/p115_library.py:401-498 | a page is refused only when it is not acceptable, with the code, page count, total and state that say why |
| LibraryScan.ScanPages | src/watch_assistant/adapters/p115_library.py:350-556 | the loop ends for identities from a finite set; pages read is the page number; the last check never fires; a complete result is the concatenation of the pages, a partial one a prefix of it with a true reason |
| LibraryScan.ScanDirectory | src/watch_assistant/adapters/p115_library.py:350-556 | a scan is complete exactly when the gateway shows a whole directory, and then it returns that directory |
| LibraryScan.BrokenIsNotWhole | src/watch_assistant/adapters/p115_library.py:350-556 | where a run of pages breaks, there is no whole directory of any length |
| LibraryScan.WholeIsUnique | src/watch_assistant/adapters/p115_library.py:513-538 | a gateway shows at most one whole directory |
| LibraryScan.ReportsAreExact | src/watch_assistant/adapters/p115_library.py:350-556 | a report says complete if and only if there is a whole directory |
| LibraryScan.HonestIsWhole | src/watch_assistant/adapters/p115_library.py:350-556 | every list of distinct entries, split into pages with true and sufficient signals (none empty but the last, which then says that it is the last), is a whole directory, so the scan returns it unchanged |
| Inventory.Gateway.ListDirectory | src/watch_assistant/adapters/p115_library_gateway.py:91-132 | the remote is asked only for directories authorized or seen before, and the scope grows by exactly what a page shows |
| Inventory.PagesAreSmall | src/watch_assistant/adapters/p115_library_gateway.py:244-281 | a parsed page has at most one entry, says truly whether more follow, and leads on only when it shows one |
| Inventory.ReadDirectory | scripts/p115_production_inventory.py:46-79 | one directory is read to its end and counted, or the walk is stuck for the reason given |
| Inventory.Scan | scripts/p115_production_inventory.py:33-92 | the walk always ends, and it succeeds if and only if the remote can be covered within the page limit; then it has walked exactly the reachable directories, files and directories add up to the distinct ids, and it was never out of scope |
| Inventory.StuckIsUncovered | scripts/p115_production_inventory.py:46-79 | an aborted walk had nothing it could have covered, and was never out of scope |
| Inventory.OnlyShownDirectories | scripts/p115_production_inventory.py:42-79 | the directories walked are the root and every reported directory |
| Inventory.EveryObjectOnce | scripts/p115_production_inventory.py:57-67 | the number of distinct ids is the number of entries shown |
| Inventory.OneReport | scripts/p115_production_inventory.py:80-92 | every way to cover what is reachable gives the same report |
| Inventory.TreeIsCovered | scripts/p115_production_inventory.py:33-92 | a fixed tree within the page limit is covered |
| Inventory.TreeReport | scripts/p115_production_inventory.py:33-92 | and the report counts every node below the root once |
| ShareListing.PageInfo | src/watch_assistant/adapters/p115.py:673-727 | the hints of a response are accepted exactly when they are well-formed, within bounds and consistent, and then say what they say |
| ShareListing.HeardSays | src/watch_assistant/adapters/p115.py:683-727 | hint by hint, what was heard is consistent exactly as far as it was accepted |
| ShareListing.Take | src/watch_assistant/adapters/p115.py:382-391 | ids are kept in the order first seen |
| ShareListing.ShareFileIds | src/watch_assistant/adapters/p115.py:334-422 | the listing ends; a returned list has at most a thousand distinct ids, first seen first, from a trail of pages; every failure has its reason on the page asked for last; a truthful server of distinct items, on pages of any size and with any hints on each, gives exactly its items up to a thousand, too large above, and malformed when some page hinted at the next but the last does not say that it is the last |
| ShareListing.HonestDecision | src/watch_assistant/adapters/p115.py:392-420 | what is decided on each page of a truthful server, whatever its size and hints: to stop only on a last page that says so, to go on at the next offset, or to fail only with more than a thousand items |
| Organization.WhereverTheyEnd | src/watch_assistant/adapters/p115_organization_transport.py:198-245 | after any calls in any order an object is at its target parent exactly if it was moved and has its target name exactly if it was renamed there; ids are kept and nothing else changes |
| Organization.AnyOrderArrives | src/watch_assistant/adapters/p115_organization_transport.py:198-245 | any interleaving with each object's move before its rename reaches one state, with every object at its own target |
| Organization.BackIsValid | src/watch_assistant/adapters/p115_organization_transport.py:94-142 | the reversed intents are accepted if and only if the sources are distinct |
| Organization.ThereAndBack | src/watch_assistant/adapters/p115_organization_transport.py:94-142 | then carrying them out restores the starting state exactly |
| Organization.OfflineTransport.Move | src/watch_assistant/adapters/p115_organization_transport.py:198-220 | succeeds exactly for an approved object at its source, and refused or doubtful calls change nothing |
| Organization.OfflineTransport.Rename | src/watch_assistant/adapters/p115_organization_transport.py:222-245 | succeeds exactly for an approved object at its target parent, and refused or doubtful calls change nothing |
| Organization.OfflineTransport.ReadObject | src/watch_assistant/adapters/p115_organization_transport.py:156-168 | shows the object only where its intent allows it to be |
| Organization.OfflineTransport.ReadTarget | src/watch_assistant/adapters/p115_organization_transport.py:170-196 | shows the one object at an approved target, none, or refuses when there are several |
| Runners.Run.OrganizationProbe | scripts/p115_organization_live_runner.py:145-212 | against any remote the run follows its script up to the first unexpected answer; it reports success exactly when there was none, and otherwise what belongs to that step and answer |
| Runners.Run.WriteProbe | scripts/p115_production_write_probe.py:222-284 | the same of the production write probe with its outermost handlers |
| Runners.Run.RestoreProbe | scripts/p115_production_probe_restore.py:259-345 | the same of the restore |
| Runners.NothingDenied | scripts/p115_production_probe_restore.py:404-426 | in none of the three runners does a report say that no write was started when one was sent; the restore always ends in a report |
| Runners.SuccessIsRestored | scripts/p115_organization_live_runner.py:190-212 | a successful run last saw the state it first saw, or the recorded name, and counts its receipts |
| Runners.WritesAreGated | scripts/p115_organization_live_runner.py:164-166 | every write comes after the authorization was granted and concerns only the run's object and its two names |
| Runners.OneWriter | scripts/p115_c03_live_runner.py:279-293 | over any interleaving of any number of runs that share one authorization at most one ever writes |
| Runners.ScriptedRunsHaveOneWriter | scripts/p115_c03_live_runner.py:279-293 | so of any number of runs that follow the scripts above, whatever they are answered and however they interleave, at most one ever writes |
| Runners.HonestRunSucceeds | scripts/p115_organization_live_runner.py:145-212 | against an honest remote every run succeeds and leaves the original name |
| Runners.HonestWorldExists | scripts/p115_organization_live_runner.py:145-212 | there is an honest remote for every script |
| FormCodec.DecodeEncoded | frontend/src/router.ts:62-75 | UTF-8 decoding undoes encoding |
| FormCodec.UnescapeEscaped | frontend/src/router.ts:62-75 | percent-decoding undoes percent-encoding |
| FormCodec.ParseSerialized | frontend/src/router.ts:62-75 | every list of pairs printed as a query is read back as it was |
| Router.CatalogRoundTrip | frontend/src/router.ts:131-164 | reading a printed catalog route gives its normal form, hence the route itself when it is in normal form |
| Router.PrintCatalogRoute | frontend/src/router.ts:155-164 | the printer that sets one parameter after the other prints that path |
| Router.MediaRoundTrip | frontend/src/router.ts:22-75 | reading a printed media route gives the route back, up to defaults that are left out |
| Router.PrintMediaRoute | frontend/src/router.ts:62-75 | the printer that sets one parameter after the other prints that path |
| Router.ResourcesAreRead | frontend/src/router.ts:34-49 | resource parameters are read back as they were, or as absent when all are default |
| Router.YearIsRead | frontend/src/router.ts:139-143 | a year is read back exactly when it is between 1900 and 2100 |
| Router.JsExists | frontend/src/router.ts:135-164 | there are number conversions as the routes assume them of JavaScript |
| RateLimit.Limiter.Check | src/watch_assistant/security.py:359-385 | with a clock that does not go back a request is refused exactly when as many as the limit were accepted in the last minute, and the deque is those |
| RateLimit.NoMinuteHoldsMore | src/watch_assistant/security.py:380-385 | no minute, wherever it starts, holds more accepted requests than the limit |
| RateLimit.NeverTooMany | src/watch_assistant/security.py:359-385 | so in every run, for every identity and bucket |
| TaskWorker.Worker.ClaimOne | src/watch_assistant/worker.py:202-222 | a claim takes the oldest ready task, adds one attempt and a lease, and there is none exactly when no task is ready |
| TaskWorker.Worker.Create | src/watch_assistant/services/tasks.py:122-131 | a new task is queued once and was never claimed |
| TaskWorker.Worker.Retry | src/watch_assistant/services/tasks.py:58-71 | a manual retry queues a task that failed, needs authorization or is uncertain, and no other |
| TaskWorker.Worker.Submit | src/watch_assistant/worker.py:94-102 | a submission belongs to its own claim, which has no other |
| TaskWorker.Worker.WorkThrough | src/watch_assistant/worker.py:54-138 | nothing is submitted unless the task is an offline download and every check before it passes; then exactly once, and an adapter that raises leaves the task uncertain |
| TaskWorker.Worker.RecoverExpired | src/watch_assistant/worker.py:140-192 | recovery changes only expired leases: what is no offline download fails, the others end in what the remote says of their reference, or uncertain; nothing is queued |
| TaskWorker.NeverSubmittedTwice | src/watch_assistant/worker.py:54-138 | in every run: submissions at most claims, claims at most times queued, one attempt a claim |
| Infohash.KeyIsValue | src/watch_assistant/adapters/qbittorrent.py:585-605 | the key of a spelling is forty lower-case digits of the number it stands for |
| Infohash.KeysAreFaithful | src/watch_assistant/adapters/qbittorrent.py:585-605 | two spellings have one key exactly when they stand for one number |
| Infohash.ExtractInfohash | src/watch_assistant/adapters/pansou.py:351-371 | the loop returns the key of the first pair that has one |
| Infohash.AdaptersAgree | src/watch_assistant/adapters/p115.py:436-461 | the three adapters find the same in a link if and only if the torrent server's reading finds nothing, or there is no host and no fragment and that key comes first among the pairs spelled "xt", before anything undecodable |
| Infohash.AdaptersMayDiffer | src/watch_assistant/adapters/p115.py:436-461 | so with a host or a fragment they differ on every link in which the torrent server's reading finds a key |
| Infohash.LookalikeHidesKey | src/watch_assistant/adapters/p115.py:449-461 | each of the four characters that ignore-case patterns take for a letter hides a later key from the drive's reader alone |
| Enrichment.IndexIsScan | src/watch_assistant/adapters/pansou.py:165-241 | the index by hash finds the first value of each field that a scan of all results finds |
| Enrichment.EnrichMagnets | src/watch_assistant/adapters/pansou.py:165-241 | enrichment through the index is the plain scan, item by item, in order |
| Enrichment.StructuredStays | src/watch_assistant/adapters/pansou.py:201-224 | structured values and other plugins' items stay as they are |
| Enrichment.Idempotent | src/watch_assistant/adapters/pansou.py:165-225 | enriching again changes nothing |
| AnimeMapping.OrderDoesNotMatter | src/watch_assistant/services/anime_mapping.py:160-195 | resolution does not depend on the order of the ranges, whatever they are |
| AnimeMapping.ResolvesExactly | src/watch_assistant/services/anime_mapping.py:179-195 | a conflict exactly where two ranges overlap, a review exactly where none reaches |
| AnimeMapping.EveryEpisodeIsReached | src/watch_assistant/services/anime_mapping.py:55-69 | with disjoint ranges, start + episode - 1 resolves to that season and episode |
| AnimeMapping.ResolutionIsInjective | src/watch_assistant/services/anime_mapping.py:160-195 | with disjoint ranges and distinct seasons no two numbers share an episode |

## Left out

- C03Honest.HonestLifecycle: asks for an acyclic tree with decimal ids and answers in time; late answers belong to the results against any transport.
- LibraryScan.ScanDirectory: asks for identities from a finite set, without which a pager can lead on for ever.
- Router.CatalogRoundTrip: genre and year are absent or safe integers; JavaScript prints other numbers in other ways.
- Router.MediaRoundTrip: strings are sequences of Unicode scalar values, as in Dafny; a query with a lone surrogate, which does not come back, is not modelled. The same holds of Router.CatalogRoundTrip.
- C03Probe.Probe.Run: the timeout is a real number; a NaN, which passes both of its bounds in the source, is not modelled.
- TaskWorker.Worker.ClaimOne: a claim is one step, as with a single worker process.
- QbittorrentCondition.RestoredExactlyWhenSafe: is about what the scheduler may do and not about how likely it is; order and fairness of the semaphore and the locks are not modelled.
- Inventory.Gateway.ListDirectory: an id is made of ASCII digits; the source asks `str.isdigit()`, which lets other digits of Unicode pass as well. The same holds of the ids in Organization and the runners, and of the numeric hints in ShareListing.PageInfo; the ids of the C03 probe are ASCII in the source too.
- The qBittorrent client is modelled on values as a step system and not as a class, because its methods interleave at every await; aliasing of its lock objects is modelled by lock numbers.
- Reading existing torrents, login, version check and the summary of files in the qBittorrent client: they do not touch locks or torrents.
- Response sniffing (which field holds an id, a name or a marker, error number tables): abstracted to an entry that is normalised or refused.
- The repetition of a physical call after a 405 or a busy answer, which happens below the call that the budget counts.
- Injected failures of the in-memory C03 transport; the results against any transport cover them.
- Environment gates, cookie files, client versions, digests and random names: parameters or fresh values.
- The discovery walks of the two production runners, and the gates before them.
- Detail reads of the library gateway, and PanSou's link checks and plugin text patterns.
- Parsing of anime file names; the modules behind workflows and the organization executor are not part of this model.
- Browser history, wall-clock time beyond a clock that does not go back, HTTP, storage and cryptography.
