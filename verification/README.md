# Verified model of an IT-asset service

A Dafny model of the state machines behind a multi-tenant IT-asset service, with proofs about every input, every run
and every interleaving. `dafny verify dfyconfig.toml` checks all of it.

What is modelled, and the main result of each part:

- **Backup** (`Store`, `Ordering`, `Wipe`, `Loading`, `Attaching`, `Archive`, `Remap`, `Importing`, `Restoring`,
  `RoundTrip`): export, wipe, id remap and import over ten collections. `RoundTrip.ExportThenImport`: a full import of
  a tenant's own export rebuilds all ten. `Wipe.WipeExactly`: a wipe of a listing runs through exactly when no store
  call fails and from every category and location listed the chain of parents leaves the tree, or meets a row listed
  earlier or an ancestor of one, within 65 steps; `Wipe.EveryListingWipes`: every listing does exactly when none has
  more than 64 ancestors. `Restoring.ImportAgainExactly`: repeating a skip-mode import imports nothing exactly when
  consumables and licenses carry ids, which `Validate` does not ask for. `Restoring.ImportStores`: what an import
  stores, in either mode. `Remap.RemapRewrites` and `Remap.RemapIsReversible`: the remap is one injective renaming of
  every id and reference.
- **Inventory sync** (`InvSync`, `SyncRun`, `Convergence`, `SyncFilter`): `Convergence.SyncConverges`: after one run
  without errors the next comparison is entirely unchanged and the next run writes nothing. `InvSync.DiffExactly`:
  which asset each host is compared with.
- **Event hub** (`Hub`, `HubBooks`, `HubComplete`, `HubDelivery`, `HubGenuine`, `HubProgress`, `HubReplay`,
  `HubServer`, `Addressing`, `StreamIds`, `StreamStore`): a step relation whose atomic steps are the lock regions.
  `HubComplete.NoGap`: a connection opened without a replay id receives every entry meant for it, until the first that
  does not fit, as long as its own stream has rising ids and is not trimmed ahead of its reader;
  `HubDelivery.OnlyInOrder`: never where ids do not rise; `HubProgress.CatchesUp`: its reader can always catch up;
  `HubReplay.ReplaySends`: what a replay sends. `HubGenuine.NothingForeign`, `HubDelivery.AlwaysInOrder`,
  `HubBooks.Accounts`, `HubBooks.ShutdownIsFinal`, `HubDelivery.SupersededIsSilent`: isolation, order, quotas,
  shutdown and superseded readers over every run.
- **Documents and their migration** (`Migration`, `Documents`, `Draining`): any number of migrators, uploads and
  deletes, interleaved, failing and crashing anywhere. `Migration.SafeExactly`: a row reads the same after every run
  in which its own writes are answered truthfully exactly when it cannot be moved or fits the window it is read
  through, whatever else is stored and answered; `Migration.SafeAnyhowExactly`: after every run at all exactly when it
  cannot be moved; `Migration.UploadsStay`: uploads whose insert is answered truthfully stay.
  `Draining.Service.Drain`: a pass ends under any failures, and exactly what it leaves behind.
- **Services** (`Forest`, `Services`, `Lifecycle`, `Registry`): tree building, the category, location and asset
  services. `Forest.EveryIdThere` and `Forest.EveryRowOnce`: the tree is complete for any rows, and holds rows with
  ids of their own once each. `Registry.AlwaysSound`: trees stay forests and references resolve over every run.
  `Registry.AgreesExactly` and `Registry.HistoryTells`: assets and their history agree exactly when no write fails
  after the asset was saved.
- **Scheduler** (`Scheduler`): `Scheduler.AtMostTwice`: over every run of sweeps, with edits between and failures
  anywhere but in the reads of its record, a row whose end stays the same is alerted at most once as ending soon and
  once as expired. `Scheduler.RepeatIsSilent`: exactly when a repeated sweep is silent.
- **Ids, search, depreciation** (`NewId`, `Like`, `Deprec`): texts of minted ids increase over every run under any
  clock; LIKE escaping preserves meaning; the depreciation loop is its closed form.

The clock, `NewID`, the random bytes, failing calls and the order of listings are inputs of the model, so each theorem
holds for all of them. Updates in place are classes whose methods are proved against functions on values, and the
theorems are about those functions and about all runs of them.

Where the code falls short of what one would expect of it, the model keeps the code and states the exact condition:

- `orderCategories`/`orderLocations` follow at most 64 ancestors, so their output is parents first exactly when every
  chain leaves the tree or meets what is already ordered by then (`Ordering.OrderExactly`).
- a repeated skip-mode import imports rows without ids again (`Restoring.ImportAgainExactly`,
  `Loading.LoadWithoutId`).
- `migrateOne` reads at most four times the upload limit and one byte, so a longer document without a checksum is cut
  short (`Migration.SafeExactly`); a recorded checksum guards against that (`Migration.ChecksumGuards`).
- `migrateOne` removes the paperless copy when the row update reports an error; if that update had taken effect after
  all, the row points at nothing. Every movable document can be lost so, and no other (`Migration.SafeAnyhowExactly`).
- an upload removes its paperless copy when the insert of its row reports an error; if the insert had taken effect,
  the row points at nothing (`Migration.FalseInsertLoses`, `Migration.UploadLost`); nothing else loses an upload
  (`Migration.UploadsStay`).
- an entry whose id is not above one already sent is passed over, which happens when the clock goes back
  (`HubDelivery.OnlyInOrder`, `HubComplete.NoGap`).
- a pass of the migration stops when a whole batch of a hundred cannot be moved (`Draining.DrainsExactly`).
- `shouldNotify` takes a record it cannot read for a changed one, so a state already alerted is alerted again
  (`Scheduler.UnreadRepeats`).
- `Assign` and `Unassign` save the asset first, so a later failing write leaves asset and history in disagreement
  (`Registry.AgreesExactly`).
- an event published for a user called `*` alone goes to everyone (`Addressing.ReachesExactly`).
- an id from before 1970 does not survive its text (`StreamIds.IdRoundTrip`); the ids of the in-process stream store
  increase exactly while the clock does not go back (`StreamStore.AppendKeepsOrder`).
- a schedule for a negative cost rises (`Deprec.NeverRisesExactly`).

## Model

| member | source | states |
|---|---|---|
| Store.Mem.Remove | internal/memstore/memstore.go:576-605 | a delete is refused for a missing row or a tree node in use; otherwise the row goes, with its cascades and the foreign keys set to empty |
| Store.DeletesExactly | internal/memstore/memstore.go:576-605 | a delete answers not found exactly for a row that is not the tenant's, not empty exactly for a category or location with children or assets; otherwise the row goes |
| Store.DeleteNulls | internal/memstore/memstore.go:698-728 | with a supplier, category or location exactly the tenant's foreign keys that name it are emptied, and nothing else changes |
| Store.DeleteCascades | internal/memstore/memstore.go:247-275 | with an asset go exactly its assignments, documents and links; with a policy its links; with a license or consumable its documents |
| Ordering.OrderRows | internal/backup/backup.go:644-668 | the recursive emission with its done set and depth limit, as a function of the rows |
| Ordering.EveryIdOnce | internal/backup/backup.go:644-668 | any rows (duplicates, orphans, cycles): every id is emitted exactly once, each with one of the given rows |
| Ordering.OrderExactly | internal/backup/backup.go:644-694 | for every listing without repeated ids, cycles included: parents come first if and only if from each row the chain of parents leaves the tree, or meets an earlier row or an ancestor of one, within 65 steps |
| Ordering.OrderIsParentsFirst | internal/backup/backup.go:670-694 | so parents come first when no row has more than 64 ancestors, in any listing |
| Ordering.OrderNotParentsFirst | internal/backup/backup.go:644-668 | and a listing that begins with a row of more than 64 ancestors comes out in the wrong order |
| Ordering.ReverseRows | internal/backup/backup.go:635-642 | the reversed list |
| Wipe.DeleteEachExactly | internal/backup/backup.go:494-567 | deleting rows one by one succeeds exactly when none is blocked in its turn, and then equals dropping them together |
| Wipe.WipeExactly | internal/backup/backup.go:494-567 | a wipe of a listing runs through if and only if no store call fails and both trees are followable as listed, a condition on the rows and their order; it then counts every row |
| Wipe.EveryListingWipes | internal/backup/backup.go:494-567 | every listing of a tenant wipes through if and only if no category and no location has more than 64 ancestors |
| Wipe.SmoothWipes | internal/backup/backup.go:494-567 | a listing or a delete that fails in the store ends the wipe there with an error; without one it is the plain wipe |
| Wipe.WipeEmpties | internal/backup/backup.go:494-567 | without a store failure, with closed references and at most 64 ancestors, every record of the tenant goes, the count is the number deleted, and nothing else changed |
| Wipe.WipeLeavesOthers | internal/backup/backup.go:494-567 | wherever a wipe stops, store failures included, other tenants' rows are untouched |
| Wipe.CategoriesGo | internal/memstore/memstore.go:576-605 | the non-empty guard on categories is never tripped exactly when the order puts parents first |
| Wipe.LocationsGo | internal/memstore/memstore.go:832-861 | the same for locations |
| Wipe.WipeTenant | internal/backup/backup.go:494-567 | the wipe on the store is the specified one, whichever listing or delete fails: count, error and contents |
| Loading.LoadTable | internal/backup/backup.go:289-306 | the import loop over one collection is the specified fold: counters, error and table |
| Loading.LoadStores | internal/backup/backup.go:289-306 | after a load without error, in either mode, what is stored under each id the rows carry: skipping, the row that was there or else the first; overwriting, the last, under the creation time of the row that was there or of the first; with defaults and times |
| Loading.LoadGrows | internal/backup/backup.go:284-486 | in skip mode no row that was there changes, even when the load fails half way |
| Loading.LoadCounts | internal/backup/backup.go:284-486 | every row is imported or skipped |
| Loading.LoadCountsExactly | internal/backup/backup.go:289-306 | overwriting skips none; skipping imports as many rows as the table grows by |
| Loading.LoadLeavesOthers | internal/backup/backup.go:284-486 | a load into one tenant leaves the others' rows alone, in either mode |
| Loading.LoadAgain | internal/backup/backup.go:284-486 | loading the same rows again imports nothing and changes nothing when every row carries an id |
| Loading.LoadWithoutId | internal/backup/backup.go:211-248 | a row without an id is imported again every time, or its minted id collides |
| Loading.LoadFresh | internal/backup/backup.go:284-486 | rows loaded where the tenant has nothing arrive unchanged but for the update time |
| Attaching.InsertTable | internal/backup/backup.go:445-486 | the loop over assignments, links and documents is the specified fold |
| Attaching.InsertAdmits | internal/backup/backup.go:445-486 | every attachment that is new is one of the rows admitted, under the target, with its defaults |
| Attaching.InsertAgain | internal/backup/backup.go:445-486 | inserting the same attachments again inserts nothing |
| Attaching.InsertFresh | internal/backup/backup.go:445-486 | insertable attachments all go in, unchanged |
| Remap.RemapBackup | internal/backup/backup.go:570-633 | the rewriting through the memo, collection by collection, is one renaming of every id and foreign key |
| Remap.RemapRewrites | internal/backup/backup.go:570-633 | column by column: every id and foreign key has a name, different for different ids and not in use before, and is replaced by it, so references still resolve; nothing else changes |
| Remap.FieldsRenamed | internal/backup/backup.go:570-633 | each id and foreign key of the renamed document is the name of the one in its place |
| Remap.RemapIsInjective | internal/backup/backup.go:570-633 | two fields of the result are equal exactly when they were before, over all collections; empty fields stay empty, all others get ids not in use before |
| Remap.RemapIsReversible | internal/backup/backup.go:570-633 | renaming back gives the original document |
| Importing.ImportInto | internal/backup/backup.go:251-491 | the import on the store: checks, remap, wipe and ten loads, with every early return, store failures in the wipe included |
| Importing.DeniedExactly | internal/backup/backup.go:251-272 | an import is denied exactly when the caller has no tenant, or wants a wipe or another tenant without being a platform administrator; nothing is then changed |
| Importing.BadExactly | internal/backup/backup.go:211-248 | a document is refused exactly when it is of another version, has too many rows, or a record lacks its id or unique column |
| Restoring.ImportStores | internal/backup/backup.go:251-444 | after an import without fault, in either mode, all seven record collections hold what the document prescribes, under fresh ids if it is another tenant's, and every other row is as the wipe left it or as it was |
| Restoring.ImportAdmits | internal/backup/backup.go:445-486 | documents come in only where their bytes already are, history only for assets this import created, links only from the document |
| Restoring.ImportScrubs | internal/backup/backup.go:284-330 | no contact of a supplier or location comes in |
| Restoring.ImportKeeps | internal/backup/backup.go:251-491 | any import, wherever it stops, leaves every other tenant alone; without a wipe and in skip mode it changes no row at all |
| Restoring.ImportCounts | internal/backup/backup.go:284-486 | after a success every row is counted once as imported or skipped; in the trees, every distinct id |
| Restoring.ImportAgain | internal/backup/backup.go:284-486 | after one success the same document imports nothing and changes nothing |
| Restoring.ImportAgainExactly | internal/backup/backup.go:211-248 | that holds exactly when consumables and licenses carry ids |
| RoundTrip.Export | internal/backup/backup.go:101-181 | a backup lists the tenant's rows of ten collections exactly, contacts scrubbed |
| RoundTrip.ExportThenImport | internal/backup/backup.go:251-491 | a full import of the tenant's own export whose store calls answer succeeds, deletes every record, skips none and rebuilds all ten collections |
| InvSync.DiffIsWhatApplyChanges | internal/invsync/diff.go:131-148 | the comparison is empty exactly when applying would change nothing |
| InvSync.DiffTells | internal/invsync/diff.go:131-148 | the comparison names for each column its value and the one applying would give it, exactly where they differ |
| InvSync.ApplyExactly | internal/invsync/diff.go:183-197 | applying sets the name, and the serial number, model and tags the host has values for; nothing else of the asset changes |
| InvSync.DesiredTagsExactly | internal/invsync/diff.go:51-78 | the tags asked for are the host id and the trimmed manufacturer and operating system, where not empty |
| InvSync.BuildIndex | internal/invsync/diff.go:87-108 | the three first-wins indexes are those of the rows |
| InvSync.IndexAgrees | internal/invsync/diff.go:87-129 | a lookup in an index finds what a scan of the rows finds first |
| InvSync.MatchExactly | internal/invsync/diff.go:110-129 | the asset of a host is the first row with its id; if there is none, the first with its serial number; if there is none, the first with its hostname; else none |
| InvSync.DiffHosts | internal/invsync/diff.go:152-180 | the classification with its claim set, sorted by hostname |
| InvSync.DiffExactly | internal/invsync/diff.go:152-180 | one change for each host: it names the asset of the host, unless there is none or an earlier host claimed it, which makes it a creation; unchanged exactly when applying changes nothing; sorted by hostname |
| InvSync.SortIsStableSort | internal/invsync/diff.go:152-180 | the sort orders by hostname, keeps every change once and keeps ties in order |
| SyncRun.Execute | internal/invsync/invsync.go:165-235 | the loop over the planned changes is the specified fold: table, all counters and the list of reported changes, a creation with its new id and tag |
| SyncRun.RunAccounts | internal/invsync/invsync.go:165-235 | every change let through by the selection is counted exactly once, and what was selected or excluded is reported unless it failed |
| SyncRun.CountsExactly | internal/invsync/invsync.go:165-235 | created is the number of assets there are more; excluded and skipped count the selected changes of excluded hosts, and those unchanged or switched off |
| SyncRun.RunTells | internal/invsync/invsync.go:191-211 | every creation reported names an asset the tenant has after the run, under the tag reported |
| SyncRun.RunSpares | internal/invsync/invsync.go:165-235 | a row changes only through an applied update that names it; none is deleted |
| SyncRun.OptionsHold | internal/invsync/invsync.go:165-235 | without the option to create nothing is added; without the option to update, or of hosts not selected, nothing is changed |
| SyncRun.RunLeavesOthers | internal/invsync/invsync.go:165-235 | another tenant's row is not changed even by an update that names it |
| SyncRun.ClassifyApart | internal/invsync/diff.go:152-180 | one run claims no asset twice |
| Convergence.RunSettles | internal/invsync/invsync.go:165-235 | a run without errors leaves each host an asset of its own that is in step with it |
| Convergence.SyncConverges | internal/invsync/invsync.go:165-235 | the next comparison is entirely unchanged and the next run writes nothing |
| SyncFilter.ApplyFilter | internal/invsync/filter.go:149-157 | marks exactly the changes of excluded hosts |
| SyncFilter.ExcludedExactly | internal/invsync/filter.go:125-147 | a host is left out exactly when some rule that is switched on holds of it, and the reason given is one that does |
| SyncFilter.NoFilterKeepsAll | internal/invsync/filter.go:125-147 | without a filter the plan is the plain comparison |
| SyncFilter.ExcludedIsUntouched | internal/invsync/filter.go:149-157 | an asset only excluded hosts would have updated is not touched |
| HubBooks.BooksAlways | internal/stream/hub.go:211-248 | in every reachable state tenants, groups, connection sets, counters and quotas agree |
| HubBooks.Accounts | internal/stream/hub.go:211-248 | a tenant has an entry exactly when it has open connections; each counter is the user's open connections; neither quota is exceeded |
| HubBooks.CloseKeeps | internal/stream/hub.go:358-379 | closing, in any reachable state, keeps the books right |
| HubBooks.ShutdownRun | internal/stream/hub.go:125-139 | once cancelled, what is open was open before and has not been closed since |
| HubBooks.ShutdownIsFinal | internal/stream/hub.go:125-139 | after the connections found open are closed nothing is open, no tenant is left, and nothing opens again, whatever happens between |
| HubDelivery.AlwaysInOrder | internal/stream/hub.go:337-352 | every connection, replay included, is sent strictly rising ids, whatever ids the stream has, and at most a buffer of events waits |
| HubDelivery.OnlyInOrder | internal/stream/hub.go:337-352 | no connection is sent all that is meant for it over a stretch of the stream unless those ids rise |
| HubDelivery.SupersededIsSilent | internal/stream/hub.go:284-331 | a reader whose group is no longer current changes no connection |
| HubGenuine.NothingForeign | internal/stream/hub.go:251-331 | whatever happens, replay included, each event sent to a connection is an entry of its own tenant's stream addressed to its user |
| HubReplay.ReplaySends | internal/stream/hub.go:251-268 | in any reachable state a replay by itself sends, in order, exactly those of the first n entries retained after the id that are meant for the user and above what was sent, as many as there is room for, where the stream's ids rise; and changes nothing else |
| HubReplay.ResetSends | internal/stream/hub.go:251-262 | a reset queues exactly one reset event if there is room |
| Addressing.SplitUndoesJoin | internal/stream/hub.go:196-206 | taking the written recipients apart gives the list that was written |
| Addressing.ReachesExactly | internal/stream/hub.go:270-280 | an accepted event reaches exactly the users it names, or everyone; the one exception is a user called * named alone |
| HubComplete.AfterIsRest | internal/stream/client.go:106-117 | reading the entries after the reader's id is reading from its position |
| HubComplete.BaseAlways | internal/stream/hub.go:284-331 | in every run, whatever is published and trimmed, each reader pushes only to its own connections that the entry is meant for; where the ids of a stream rise its readers' batches are the stretches of the stream at their positions |
| HubComplete.RunFed | internal/stream/hub.go:284-331 | a connection that has been sent exactly what is meant for it up to its reader stays so over every run that does not trim its own stream ahead of that reader, if the ids of that stream rise; other tenants do not matter |
| HubComplete.NoGap | internal/stream/hub.go:211-248 | what Subscribe opens without a replay id, in any reachable state, gets every targeted entry published since, in order, with no gap, if the ids of its stream rise: up to the entry being dispatched while open, up to the very entry that did not fit when stalled, up to where its reader had served it when closed; only later trims of its own stream matter |
| HubComplete.CaughtUp | internal/stream/hub.go:211-331 | after such a run an open connection whose reader has caught up has been sent everything targeted since Subscribe |
| HubProgress.CatchesUp | internal/stream/hub.go:284-331 | from any reachable state a reader whose stream has rising ids has steps of its own after which it has dispatched every entry |
| HubComplete.StallsWhenFull | internal/stream/hub.go:337-352 | a connection stalls only when a whole buffer of events waits |
| HubServer.RefusedExactly | internal/stream/hub.go:211-248 | Subscribe is refused exactly when the hub is closed, a quota of open connections is reached, or the stream store fails on a tenant's first connection |
| HubServer.Server.Subscribe | internal/stream/hub.go:211-248 | the update of the hub's fields is the machine's step |
| HubServer.Server.Replay | internal/stream/hub.go:251-268 | the replay from the text of an id is a run of the machine: a reset if the text is no id, the id lies before the window or the store fails, else what was missed |
| HubServer.Server.Close | internal/stream/hub.go:358-379 | the same for closing a connection |
| HubServer.Server.FanOut | internal/stream/hub.go:315-331 | the loop that pushes an entry and closes stalled connections is a run of the machine that leaves nothing to push |
| HubServer.Server.Shutdown | internal/stream/hub.go:125-139 | closing the hub is a run of the machine that leaves no connection open and no tenant |
| StreamIds.IdRoundTrip | internal/stream/client.go:58-71 | an id parses back from its text exactly when its time is not negative |
| StreamIds.TextOrder | internal/stream/client.go:74-81 | texts compare as the ids do |
| StreamStore.Memory.XAdd | internal/stream/client.go:83-104 | the entry is appended under the clock and the next number, and the list cut to its length |
| StreamStore.Memory.After | internal/stream/client.go:106-117 | the first entries after an id, or from the start without one, at most so many |
| StreamStore.Memory.XTrimMinID | internal/stream/client.go:173-187 | exactly the entries below the id are dropped |
| StreamStore.AppendKeepsOrder | internal/stream/client.go:83-104 | ids stay increasing exactly when the clock has not gone back behind the last entry |
| StreamStore.CutDropsFront | internal/stream/client.go:83-104 | cutting to a length drops a first part of the stream |
| StreamStore.TrimDropsFront | internal/stream/client.go:173-187 | with increasing ids trimming drops a first part of the stream, exactly the entries below the id |
| Migration.KeyOfOneTenant | internal/documents/documents.go:87-102 | a key that passes the check belongs to one tenant only |
| Migration.NeverLoses | internal/documents/paperless.go:241-273 | over every run of migrators, uploads and deletes, with failures and crashes anywhere, a readable row that fits the window, if it can be moved at all, that nobody began to delete, and no update of which took effect and was answered with an error, reads the same, whatever other rows are like and whatever is answered about them |
| Migration.UploadsStay | internal/documents/paperless.go:117-138 | every row uploaded meanwhile, not being deleted, reads as its checksum says, unless its own insert took effect and was answered with an error |
| Migration.SafeExactly | internal/documents/paperless.go:241-273 | row by row: it reads the same after every run with truthful answers about this row if and only if it cannot be moved or fits the window |
| Migration.EraseKeeps | internal/documents/paperless.go:141-155 | removing the bytes of a row being deleted harms no other row, wherever they live by then |
| Migration.RemoveKeeps | internal/documents/documents.go:345-361 | a delete may begin at any moment of a migration: what it read is no other row's and no worker's |
| Documents.DeleteErases | internal/documents/paperless.go:141-155 | in any reachable state an accepted delete removes the bytes of the row as read, in paperless or the object store, then the row, and nothing else; if the bytes cannot be removed and it does not go on, the row stays |
| Documents.DeleteRuns | internal/documents/documents.go:345-361 | the same from any state, for every answer of the calls, and for the delete that goes on after an error |
| Documents.DeleteRefused | internal/documents/paperless.go:151-153 | a row of the object store whose key is not its tenant's is not deleted |
| Documents.MigrationMoves | internal/documents/paperless.go:241-273 | a migration of a movable document files the bytes read under a new id, points the row at it, removes the object, and changes nothing else |
| Documents.MigrationReverts | internal/documents/paperless.go:267-270 | one whose row cannot be switched leaves rows and bytes as they were |
| Documents.UploadAdds | internal/documents/paperless.go:117-138 | an upload within the limit adds a row with the checksum of its bytes, which can then be read |
| Documents.UploadReverts | internal/documents/paperless.go:133-135 | one whose row cannot be inserted leaves rows and bytes as they were |
| Documents.UploadRefused | internal/documents/paperless.go:122-124 | an upload beyond the limit changes nothing |
| Migration.ChecksumGuards | internal/documents/paperless.go:254-258 | so a row whose recorded checksum its bytes match is safe in every such run |
| Migration.PreservesExactly | internal/documents/paperless.go:241-273 | every row is safe in this sense exactly when every document that can be moved fits |
| Migration.SafeAnyhowExactly | internal/documents/paperless.go:241-273 | over all runs, false answers included, a row reads the same if and only if it cannot be moved |
| Migration.FalseInsertLoses | internal/documents/paperless.go:117-138 | whenever an upload is about to insert its row, an insert that takes effect and is answered with an error leaves a row that cannot be read |
| Migration.UploadLost | internal/documents/paperless.go:117-138 | so from any start every upload that can be made can be lost by one false answer |
| Draining.MoveOneIsRun | internal/documents/paperless.go:241-273 | what the program does to one document is a run of the machine |
| Draining.MoveOneAlone | internal/memstore/documents_paperless.go:56-69 | a document moves exactly when all calls answer and it can be copied; all others are as they were |
| Draining.Service.MigrateOne | internal/documents/paperless.go:241-273 | the calls in order, with every early return, are that function |
| Draining.Service.ListUnmigrated | internal/memstore/documents_paperless.go:33-53 | the first waiting rows in id order, as many as asked for |
| Draining.Service.Migrate | internal/documents/paperless.go:216-239 | one batch moves exactly the documents of it that can be moved, and counts them |
| Draining.Service.Drain | internal/app/migrate.go:25-48 | whatever fails, and however that changes from batch to batch, the loop ends within one batch more than documents wait; unless the listing failed or the context was cancelled, what is left is what the last batch could not move and what has a hundred of those before it; if failing calls keep failing and nothing is cancelled, what could not be moved to begin with |
| Draining.DrainsExactly | internal/app/migrate.go:25-48 | so it ends with exactly what cannot be moved if and only if nothing movable has a hundred of those before it |
| Forest.IsAncestor | internal/categories/categories.go:169-183 | terminates on any parents, cycles and an empty id included, and answers exactly whether the id is an ancestor on the way up to an empty id |
| Forest.AcyclicExactlyWithoutCycles | internal/categories/categories.go:169-183 | a parent map is acyclic exactly when no id is its own ancestor, and then no chain is longer than the map |
| Forest.BuildTree | internal/categories/categories.go:151-166 | for any rows, repeated and empty ids included: the nodes, children and roots it links are those of the rows that hang, in row order |
| Forest.RootsExactly | internal/locations/locations.go:233-248 | for any rows: an id is a root exactly when a row of it names an absent parent or lies on a cycle |
| Forest.EveryIdThere | internal/categories/categories.go:149-166 | for any rows, every id is found below a root, so the tree is complete |
| Forest.EveryRowOnce | internal/locations/locations.go:233-248 | rows with ids of their own occur exactly once in the returned forest, and nothing else does |
| Services.EditNode | internal/categories/categories.go:187-224 | the update with its walk up from the new parent is the specified one |
| Services.CreatesExactly | internal/categories/categories.go:90-110 | a node is created exactly when its name is valid, its parent exists, and id and unique columns are free; it is stored as given |
| Services.UpdatesExactly | internal/categories/categories.go:187-224 | a node is updated exactly when its name is valid, it exists, its new parent exists and is neither itself nor below it, and its unique columns are free; it is stored as given |
| Services.CreateKeepsForests | internal/categories/categories.go:90-110 | creating a node keeps every tenant's parent relation acyclic and closed |
| Services.UpdateKeepsForests | internal/locations/locations.go:268-308 | so does an update |
| Services.RefusedWouldCycle | internal/categories/categories.go:187-224 | a parent that exists and is refused would have made a cycle |
| Services.RemoveKeepsForests | internal/categories/categories.go:227-249 | so does a delete of a node without children |
| Services.AssetCreated | internal/assets/assets.go:210-262 | an asset is created exactly when it is valid, not assigned, its references exist and a tag is free; it is stored as given, with nobody and its defaults |
| Services.AssetUpdated | internal/assets/assets.go:295-339 | an update succeeds exactly then too, and keeps status, user and location of an assigned asset; all else is stored as given |
| Lifecycle.AssignAsset | internal/assets/assets.go:373-415 | the calls of an assignment, with every early return |
| Lifecycle.AssignExactly | internal/assets/assets.go:373-415 | an asset is assigned exactly when it is deployable, the user is named and known and the writes succeed; it then has the user, no location and one open history row more |
| Lifecycle.UnassignAsset | internal/assets/assets.go:420-464 | the calls of a return, with every early return |
| Lifecycle.UnassignExactly | internal/assets/assets.go:420-464 | an asset is returned exactly when it is assigned, the location is empty or exists and the writes succeed |
| Lifecycle.UnassignReturns | internal/assets/assets.go:420-464 | it is then deployable, with nobody, at the location; its open rows are closed and the return is the next row |
| Lifecycle.CloseRows | internal/memstore/memstore.go:365-382 | exactly the open rows of the asset are closed |
| Lifecycle.TakenOut | internal/assets/assets.go:373-415 | an assignment row keeps the history alternating and makes its user the holder |
| Lifecycle.BroughtBack | internal/assets/assets.go:420-464 | closing the open row and adding a return does too, and leaves nobody the holder |
| Lifecycle.OneOpenRow | internal/memstore/memstore.go:343-382 | assigned exactly when one row is open, and that row is the asset's user's |
| Registry.AlwaysSound | internal/assets/assets.go:170-187 | over every run of category, location and asset calls, failures included, trees stay forests and every asset's category and location resolves |
| Registry.AgreesExactly | internal/assets/assets.go:295-464 | a call keeps assets and history in agreement exactly when no write fails after the asset was saved |
| Registry.AlwaysTold | internal/assets/assets.go:210-464 | over every run without such a failure they agree |
| Registry.HistoryTells | internal/assets/assets.go:210-464 | from an empty store: assigned iff a user iff one open row, of that user; then no location; the history alternates and folds to the user |
| Scheduler.KeysApart | internal/scheduler/scheduler.go:143-259 | conditions of different rows or kinds never share a key |
| Scheduler.PublishesTheChanges | internal/scheduler/scheduler.go:120-130 | over any checks what is published for a condition is exactly its changes to something other than ok, and the states whose record could not be read |
| Scheduler.AtMostTwice | internal/scheduler/scheduler.go:117-237 | over every run of sweeps of any tenants under a clock that does not go back, with any edits between, listings and writes failing, a row with the same end throughout and its record read is alerted at most once as soon and then once as expired |
| Scheduler.SweepPublishes | internal/scheduler/scheduler.go:120-259 | a sweep publishes a due row, whose record can be written, exactly when its state is news, and records it |
| Scheduler.LicenseNoted | internal/scheduler/scheduler.go:169-202 | after a sweep the record of a license in use is expired iff its end is past, soon iff it is within the window, else ok; it is alerted iff that is not ok and not what was on record |
| Scheduler.PolicyNoted | internal/scheduler/scheduler.go:204-237 | the same for an insurance policy that is not cancelled |
| Scheduler.WarrantyNoted | internal/scheduler/scheduler.go:143-167 | the same for an asset with a warranty that is not archived |
| Scheduler.StockNoted | internal/scheduler/scheduler.go:239-259 | a consumable with a minimum is on record as low, with its amount, iff the amount is at most the minimum, else as ok |
| Scheduler.OthersUnnoted | internal/scheduler/scheduler.go:143-259 | nothing is recorded or alerted of rows out of use, without an end or minimum, or of other tenants |
| Scheduler.LapsesExactly | internal/scheduler/scheduler.go:169-237 | a sweep marks as expired exactly the licenses and policies in use whose end is past and whose update succeeds |
| Scheduler.UnreadRepeats | internal/scheduler/scheduler.go:120-130 | a row whose record cannot be read but can be written is alerted again, so the bound needs the reads |
| Scheduler.ComesBack | internal/scheduler/scheduler.go:120-130 | a row that one sweep found in order and that is due in another state after any run of sweeps and edits in which its record stayed ok is published once, and nothing of it before |
| Scheduler.RepeatIsSilent | internal/scheduler/scheduler.go:133-141 | after a fully recorded sweep another of the tenant at the same instant, over any listing, publishes nothing and changes no record, exactly when no record to alert can be written but not read |
| Scheduler.Worker.ShouldNotify | internal/scheduler/scheduler.go:120-130 | records a changed or unreadable state and says whether to alert |
| Scheduler.Worker.SweepDated | internal/scheduler/scheduler.go:169-202 | exactly the rows due are checked, each once in its state now, unless the listing fails; lapsed rows become expired |
| Scheduler.Worker.SweepStock | internal/scheduler/scheduler.go:239-259 | exactly the consumables with a minimum are checked, each once |
| Scheduler.Worker.Sweep | internal/scheduler/scheduler.go:133-141 | the four sweeps together make exactly the checks that are due, each once, and mark exactly the lapsed rows |
| NewId.Minter.NewID | internal/store/ids.go:19-45 | the state moves on by one tick and the bytes are filled with the layout of RFC 9562 |
| NewId.NextIsLater | internal/store/ids.go:24-37 | whatever the clock, the next tick is later and its sequence below 4096 |
| NewId.NextTime | internal/store/ids.go:24-37 | the time of an id is the clock's whenever the clock has advanced, else the last one counted on |
| NewId.LayoutReadsBack | internal/store/ids.go:38-45 | the bytes read back as the time, the version, the sequence, the variant and the random rest |
| NewId.TextShape | internal/store/ids.go:38-45 | 36 characters with the dashes, the version 7 and the variant 10 in their places |
| NewId.TextOrder | internal/store/ids.go:38-45 | a later tick has a greater text, whatever the random bytes, while the time fits 48 bits |
| NewId.TextsIncrease | internal/store/ids.go:19-45 | over every run of calls under any clock the texts strictly increase, so none repeats |
| Like.EscapingIsLiteral | internal/repo/repodb/lists.go:62-85 | a text matches the built pattern exactly when it contains the query, cut to 200 characters, literally |
| Deprec.AnnualSchedule | internal/deprec/deprec.go:61-85 | the clamped loop yields the closed form: the declined cost no lower than the floor, and the floor in the last year |
| Deprec.NeverRisesExactly | internal/deprec/deprec.go:61-97 | the schedule never rises exactly when the cost is not negative or the life is one year |
| Deprec.StaysBetween | internal/deprec/deprec.go:61-97 | it starts at the cost, ends at the floor and stays between them |
| Deprec.BookValueIsSchedule | internal/deprec/deprec.go:32-56 | at whole years the book value is the schedule's value |
| Deprec.BookValueBetween | internal/deprec/deprec.go:32-56 | the book value lies between the floor and the cost |
| Deprec.FloorExactly | internal/deprec/deprec.go:32-56 | the floor is the salvage value where that lies between zero and the cost, else the nearer end |
| Deprec.RateExactly | internal/deprec/deprec.go:32-56 | a rate above one counts as one, none as the default |
| Deprec.BookValueFalls | internal/deprec/deprec.go:32-56 | the book value never rises with time, is the cost at first and the floor from the end of the life on |

## Left out

- gRPC, HTTP, OpenAPI and generated code, the web interface: mapping and transport.
- SQL execution, MinIO, Valkey and the mesh clients: calls that may fail; the in-memory stores are the reference.
- Authorization, audit events, publishing payloads, user names and the report counters of the scheduler: single-branch facts beside the state modelled.
- Computed columns (book value in rows, asset and child counts), and columns that every operation copies: the latter are one field, `details`.
- Field checks other than name, tag, status and rate (contacts, numbers of tags, costs): each only adds a refusal that changes nothing.
- Trimming, lower-casing and glob matching: parameters of the model. String lengths count characters, not bytes.
- Materialised location paths: an update recomputes only the edited row, so there is no tree-wide property.
- Blank asset tags filled in by the store itself (the service always supplies one).
- Wipe.WipeTenant takes its seven listings together, which is the same because no deletion adds rows.
- Concurrent calls on one asset: the services read, then write, without a transaction; calls are modelled one after the other.
- Replay without a gap: the hub does not provide it, since a replayed event that does not fit is dropped and a live one can overtake it.
- Hub.Run models goroutines as interleaved steps on values; heap aliasing between them is not modelled. Blocking reads and retries are steps that change nothing.
- Migration.NeverLoses promises nothing of a row whose delete was begun: the bytes go before the row on purpose.
- Hub.DoTrim drops a first part of a stream, which is what trimming by id does where ids rise; with ids out of order the store may drop entries from the middle.
- Forest.EveryRowOnce is about rows with distinct ids, as the store lists them; for others `Forest.EveryIdThere` holds.
- Photos, presigned links, full-text search and paperless categories: no state that the migration depends on.
- Supplier, consumable, license and insurance services, statistics, rate limits: single-branch operations.
- Floating point: depreciation is over the reals, with the power function a parameter that agrees at whole years.
- Timestamps beyond 48 bits: NewId.Minter.NewID promises the layout only below that.
