# BDL synchronization core, modelled in Dafny

BDL keeps a local directory in step with a remote collection of items. The
directory holds the downloaded files and a `.bdl` directory with two things:
a JSON configuration file and an SQLite index. Each index row records one
item: its position, URL, filename, extension, storename, hash and metadata.
An engine module handles the remote. The engine is chosen by name, or by the
first URL rule registered for the URL's network location. It counts the
remote items and yields them one at a time. The repository stores each item
it receives in the index, names its file from a storename template, and
writes the file.

This project models that core, one Dafny module per source component:

- `ItemIndex` (bdl/index.py) covers the index store. The `Index` class holds
  the open tables, the position counter and the template. It models storing,
  querying and the bulk rename.
- `Schema` (bdl/index.py) covers the schema check and the two-step migration.
- `Storenames` (bdl/index.py) covers storename templating.
- `Repositories` (bdl/repository.py) covers the orchestrator. The
  `Repository` class models loading, connecting, the missing-file scan, the
  update loop and the rename.
- `Progresses` (bdl/progress.py) covers the progress tracker.
- `Items` (bdl/item.py) covers the item.
- `Engines` (bdl/engine.py) covers the engine registry and the URL resolver.
- `Configs` (bdl/config.py) covers the configuration template validation.
- `Errors` (bdl/exceptions.py) covers the exception taxonomy and its messages.
- `Disk`, `Strings` and `Wrappers` are shared helpers. `Disk` is the file
  system as maps from path to content.

Parts of the code that change state in place are Dafny classes. Their
methods carry `modifies` clauses and are proved against specification
functions. The pure parts are functions and lemmas.

### Where the model follows the code over its comments

- `x is not None and x or "<unknow>"` sends the empty name to "<unknow>" as
  well as `None`.
- `progress.py:65-68` pushes the previous entry's 0-based index. `__mark`
  uses 1-based positions. Both are kept as written; see
  `FirstEntryFinishedQuirk`.
- `stash` and `checkout` both take the all-items branch, because
  `up_existing` overrides the other flags.
- The legacy table rename in `Index.update` runs unconditionally. A database
  without a `files` table fails the migration before any column is added.
- On an empty table, `get_queried` yields `(None, 0)`. `rename` then fails
  on that `None` item.
- `store(None)` fails on reading `item.url` before the `None` guard.

## Model

| member | source | states |
|---|---|---|
| `ItemIndex.FindUrl` | bdl/index.py:221-226 | The lookup finds nothing exactly when no row has the URL; otherwise it returns the position of a row with that URL. |
| `ItemIndex.UpdateByUrl` | bdl/index.py:57-62 | Every row with the URL gets the new filename, extension, storename and metadata. Its position, URL and hash are kept, and every other row is unchanged. |
| `ItemIndex.Queried` | bdl/index.py:248-269 | An empty table yields the single pair (None, 0). Otherwise each row yields its item and its position, in row order. |
| `ItemIndex.Last` | bdl/index.py:289-305 | `get_last` gives (None, 0) on an empty table, else the item and position of the highest-positioned row. |
| `ItemIndex.First` | bdl/index.py:271-287 | `get_first` gives (None, 0) on an empty table, else the item and position of the lowest-positioned row. |
| `ItemIndex.SeedCounter` | bdl/index.py:189-191 | The seeded counter is never negative, and equals the last row's position when that is non-negative. |
| `ItemIndex.SeedCounterIsMax` | bdl/index.py:189-191 | After `load`, no row lies beyond the counter. The counter is 0 on an empty table, and is the position of a stored row when the last position is non-negative. |
| `ItemIndex.StoreInserts` | bdl/index.py:373-385 | Storing an unindexed URL appends exactly one row at counter+1. The row carries the item's URL and hash, its storename is built from that new position, and the counter moves up by exactly one. |
| `ItemIndex.StoreIgnores` | bdl/index.py:355-360 | Storing an already indexed URL without `update` returns no storename and leaves the rows and the counter unchanged. |
| `ItemIndex.StoreUpdatesInPlace` | bdl/index.py:362-371 | Storing an indexed URL with `update` rebuilds the storename from the row's existing position, and fails with the template's error when that fails. On success the row takes the item's filename, extension, metadata and the new storename; the counter, every position, URL and hash are kept, and the rows of other URLs are unchanged. |
| `ItemIndex.StorePreserves` | bdl/index.py:355-385 | Every successful store keeps the rows in position order and under the counter. It keeps each URL indexed at most once when that held before. |
| `ItemIndex.InsertedRowsAt` | bdl/index.py:376-385 | In a run of fresh items, the k-th is inserted as the row for position counter+k+1. |
| `ItemIndex.StoreAllFresh` | bdl/index.py:373-385 | Fresh items with distinct URLs stored in order occupy positions counter+1 to counter+n, each named from its own position, and the counter ends at counter+n. |
| `ItemIndex.DefaultNamesFollowPositions` | bdl/index.py:376-378 | With the default template, the k-th fresh item is named "<counter+k+1>.<extension>" unless its metadata overrides `position` or `extension`. |
| `ItemIndex.DefaultFreshName` | bdl/index.py:376-377 | A fresh item at a position is named "<position>.<extension>" by the default template. |
| `ItemIndex.WritePayload` | bdl/index.py:387-394 | The intended payload write. With a tempfile, the file is moved to the storename, and a missing tempfile is an error. Without one, the content (or empty bytes) is written there and no other path changes. |
| `ItemIndex.TempfileGuard` | bdl/index.py:390-394 | As written, an item without a tempfile always fails to be written, while the intended write succeeds. For items with a tempfile the two agree. |
| `ItemIndex.WriteFile` | bdl/index.py:387-394 | The disk after the payload write is the one `WritePayload` gives. On error the disk is unchanged. |
| `ItemIndex.StepKeepsKeys` | bdl/index.py:411-415 | One rename step changes no position, URL or hash. |
| `ItemIndex.RenameKeepsKeys` | bdl/index.py:405-427 | A whole rename run changes no position, URL or hash. |
| `ItemIndex.RenameCompletes` | bdl/index.py:405-427 | With a well-formed template, distinct URLs and every row named, the rename never fails, whatever files are missing. Every row ends with the storename built from its own position. The file effect of each step is stated by `RenameMovesFile` and `MissingFileSkipped`. |
| `ItemIndex.MissingFileSkipped` | bdl/index.py:421-425 | A rename step whose old file is absent still succeeds and leaves the files untouched. |
| `ItemIndex.RenameMovesFile` | bdl/index.py:421-423 | A rename step whose old file exists succeeds and moves that file from the old storename to the new one under the same directory, leaving every other file alone. |
| `ItemIndex.Index.constructor` | bdl/index.py:139-152 | A new index is unconnected, has counter 0 and the default template "{position}.{extension}". |
| `ItemIndex.Index.SetTemplate` | bdl/index.py:158-161 | The template setter ignores `None` and otherwise replaces the template. |
| `ItemIndex.Index.Create` | bdl/index.py:163-171 | An existing database file is left alone. Otherwise a database with an empty `bdlitems` table of the reference schema is created. |
| `ItemIndex.CheckSchema` | bdl/index.py:178-188 | A success leaves `bdlitems` with a compatible schema and rows in position order. A compatible database passes untouched. An outdated legacy `files` table whose columns are a non-empty prefix of the reference passes after migration: the table becomes `bdlitems`, with the reference schema and the legacy rows. |
| `ItemIndex.Index.Load` | bdl/index.py:173-192 | A successful load leaves a ready index with a compatible schema, and the counter seeded from the last row. A compatible file loads unchanged. An outdated file with a legacy `files` table whose columns are a non-empty prefix of the reference schema loads too. It becomes `bdlitems` with the reference schema and the legacy rows, and the migrated database is written back. A failed load leaves the index unloaded. |
| `ItemIndex.Index.Commit` | bdl/index.py:203-208 | Committing a loaded index writes its tables to the database file. An unloaded index writes nothing. |
| `ItemIndex.Index.HasItem` | bdl/index.py:210-226 | The flag is true exactly when some row has the URL. When true, the position is that row's; otherwise it is -1. |
| `ItemIndex.Index.Count` | bdl/index.py:233-241 | The count is the number of rows. |
| `ItemIndex.Index.StoreRow` | bdl/index.py:355-385 | The rows and the counter after the database half of `store` are those `StoreRows` gives, and the index stays ready. An error changes nothing. |
| `ItemIndex.Index.Store` | bdl/index.py:337-396 | A `None` item fails and changes nothing. Otherwise the table moves as `StoreRows` says. An ignored item returns no storename and writes no file. A stored item's payload is written to root/storename and the storename is returned, or the write error is. |
| `ItemIndex.Index.Rename` | bdl/index.py:398-427 | An empty table fails and changes nothing. Otherwise the rows and files are those of the rename run over every row, with the given template, or the current one when none or an empty one is given. The run's failure is the result. |
| `ItemIndex.Index.RenameAll` | bdl/index.py:406-427 | The loop leaves the rows, files and failure of the rename run over the queried rows. |
| `ItemIndex.Index.RenameOne` | bdl/index.py:407-427 | One loop iteration leaves the rows, files and failure of one rename step. |
| `Schema.DecodeMetadata` | bdl/index.py:264-267 | Stored metadata that decodes gives its mapping. Anything else gives the empty mapping. |
| `Schema.ReferenceShape` | bdl/index.py:13-20 | The reference schema has 7 columns, with cid i at index i. Only `position` is a primary key. |
| `Schema.Validate` | bdl/index.py:67-100 | The check passes exactly on a compatible live schema. A failure is an IndexDBSchemaError listing the missing and the invalid reference columns in order. |
| `Schema.MissingEmpty` | bdl/index.py:92-94 | No column is missing exactly when the live schema is at least as long as the part of the reference checked. |
| `Schema.InvalidEmpty` | bdl/index.py:95-96 | No column is invalid exactly when the live columns equal the reference ones index by index. |
| `Schema.CompatibleIff` | bdl/index.py:92-100 | The schema check passes exactly when the live schema starts with the whole reference schema. Extra trailing live columns are accepted. |
| `Schema.RenameLegacy` | bdl/index.py:111-113 | Renaming `files` to `bdlitems` fails when `files` is absent or `bdlitems` exists. Otherwise the table moves under the new name. |
| `Schema.AddColumn` | bdl/index.py:126-129 | Adding a reference column succeeds exactly when it is not a primary key and its name is new. It is then appended with the next cid. |
| `Schema.AddColumnsCompletes` | bdl/index.py:115-129 | On a non-empty prefix of the reference schema, adding columns from the live length onwards yields exactly the reference schema. On an empty one, it fails at the primary key. |
| `Schema.AddColumns` | bdl/index.py:115-129 | The table after the add-columns loop holds the columns added up to the first failure. The failure is reported exactly when a statement failed. |
| `Schema.Migrate` | bdl/index.py:102-137 | Without a legacy `files` table, or with `bdlitems` present, nothing changes and the rename's error is raised as an IndexDBError. Otherwise the renamed table gets the columns the add-column steps added, those before a failed step included. The migration succeeds exactly when every step does. A failed step's SQLite message is raised as an IndexDBError naming the file. On success the rows are the legacy rows. |
| `Schema.LegacyMigrates` | bdl/index.py:102-137 | A legacy table whose columns are a non-empty prefix of the reference fails the schema check. It migrates to exactly the reference schema, which passes the check, and keeps the other tables. |
| `Schema.LegacyRenamed` | bdl/index.py:111-113 | A database without `bdlitems` fails the schema check. Renaming its legacy table and completing the columns keeps the legacy rows and every other table. |
| `Storenames.ParsePrint` | bdl/index.py:335 | Every segment list with plain field keys prints to a template that parses back to it. |
| `Storenames.Format` | bdl/index.py:335 | Formatting fails exactly when the template does not parse. Only plain `{key}` fields are modelled (see Left out). |
| `Storenames.AttributesLookup` | bdl/index.py:331-334 | The attributes hold position, filename, extension and the metadata keys. A metadata value overrides a built-in one, and otherwise the built-ins are the item's. |
| `Storenames.BuildParsed` | bdl/index.py:323-335 | Building a storename fails exactly when the template is malformed. |
| `Storenames.DefaultTemplatePrinted` | bdl/index.py:150 | The default template is the printed form of the segments position, '.', extension. |
| `Storenames.DefaultTemplateParses` | bdl/index.py:150 | The default template parses to those segments. |
| `Storenames.FormatParsed` | bdl/index.py:335 | A template that parses formats to the rendering of its segments. |
| `Storenames.DefaultStorename` | bdl/index.py:323-335 | With the default template and no overriding metadata, the storename is "<position>.<extension>". |
| `Storenames.MetadataOverrides` | bdl/index.py:331-335 | A field whose key is in the metadata renders the metadata value, also for position, filename and extension. |
| `Storenames.UnknownKeyIsEmpty` | bdl/index.py:331-335 | A field whose key the attributes lack renders as "". |
| `Repositories.ModuleOutcome` | bdl/repository.py:74-81 | Nothing to load passes. Otherwise the step passes exactly when the module loads and validates. An engine error becomes a RepoError "Cannot load engine module: ..." and any other error propagates unchanged. |
| `Repositories.LookupFailures` | bdl/repository.py:64-81 | A failed engine lookup surfaces as a RepoError, except an InvalidURLError from the lookup by URL. |
| `Repositories.RepositoryPath` | bdl/repository.py:86-97 | A given path is joined under the root. Otherwise the remote's name, free of '/', is joined under the root. With neither a path nor an engine module the computation fails with an error outside the BDL hierarchy (the AttributeError that `except (EngineError, TypeError)` does not catch). |
| `Repositories.NamedAfterRemote` | bdl/repository.py:90-98 | A repository named after its remote has that name as its basename. |
| `Repositories.ConfigDocument` | bdl/repository.py:116-134 | The document `__save_config` writes reads back as the URL, template and engine settings it was written from. |
| `Repositories.ConfigFailure` | bdl/repository.py:140-143 | A missing key becomes a RepoConfigError naming it. Any other error propagates unchanged. |
| `Repositories.SelectMode` | bdl/repository.py:255-278 | `up_existing` selects all items. Otherwise `up_missing` selects the missing items, else `up_new` the new items. No mode is selected exactly when no flag is set. |
| `Repositories.UrlsOf` | bdl/repository.py:268-270 | The URLs handed to `update_selection` are those of the missing items, in order. |
| `Repositories.PlanResult` | bdl/repository.py:255-278 | The plan fails exactly in the missing-items mode when the missing scan fails, with its error. Otherwise it updates in place exactly when the mode is not new-items. |
| `Repositories.PublicPlans` | bdl/repository.py:337-355 | `update` counts and fetches new items without updating. `stash` and `checkout` both take the all-items plan with update. `reset` takes the missing-items plan, counting the missing items, with update. |
| `Repositories.Gate` | bdl/repository.py:249-251 | An unreachable remote is a RepoUpdateError "Repository is not reachable". The gate passes exactly when the remote is reachable and `pre_update` passes. |
| `Repositories.MissingFailsExactly` | bdl/repository.py:232-237 | The missing scan fails exactly when some queried item has no storename. |
| `Repositories.MissingReportsExactly` | bdl/repository.py:232-237 | A successful scan reports exactly the (storename, url) pairs of the non-`None` items whose file is absent. |
| `Repositories.ConsumeStoresPresent` | bdl/repository.py:288-298 | A loop run without failure leaves the table as storing the non-`None` received items, in order, with the mode's update flag. |
| `Repositories.FreshFeedAppends` | bdl/repository.py:288-298 | Received fresh items with distinct URLs, all stored, take positions counter+1 onwards in the order received. |
| `Repositories.Limit` | bdl/repository.py:288-292 | Never more items than received get through. A flag already set lets none through, and a flag first seen at iteration k < n lets exactly k through. |
| `Repositories.ZeroCountStoresNothing` | bdl/repository.py:284-288 | A count of exactly 0 stores nothing and raises nothing, whatever the updater holds. |
| `Repositories.StopStoresNothing` | bdl/repository.py:288-292 | With the stop flag set, a non-empty run stores nothing and ends stopped, without raising. |
| `Repositories.StopAtKeepsPrefix` | bdl/repository.py:288-298 | A stop found at iteration k leaves the table as storing exactly the first k received items. |
| `Repositories.Caught` | bdl/repository.py:299-304 | A RepoStopError or no exception passes. Any other exception becomes a RepoUpdateError carrying its text. |
| `Repositories.ConnectChecks` | bdl/repository.py:196-208 | The intended guards raise RepoConnectError "Missing URL", "Missing path" or "Missing engine module" in that order, else "Repository already exists" exactly when `.bdl` exists. |
| `Repositories.ConnectGuardFinding` | bdl/repository.py:196-208 | The as-written and the intended guards refuse the same connections. Only the intended one raises a RepoError subclass. |
| `Repositories.Repository.constructor` | bdl/repository.py:33-51 | The attributes are set as given, with the root defaulting to ".". The name is the path's basename, or None. There is no engine, module or index, the engine config is {}, and the stop flag is off over a fresh empty progress tracker. |
| `Repositories.Repository.InitEngineModule` | bdl/repository.py:64-81 | The outcome is `ModuleOutcome` of the loader chosen by engine name, then URL. A loaded module is kept even when validation fails. |
| `Repositories.Repository.InitPaths` | bdl/repository.py:83-101 | On success, the path, name and `.bdl`, config and index paths derive from `RepositoryPath`. On failure, path and name are unchanged. |
| `Repositories.Repository.Initialize` | bdl/repository.py:49-50 | An engine-module failure is raised before the paths are touched. On success, the name is the path's basename and the `.bdl` paths follow it. |
| `Repositories.Repository.Saving` | bdl/repository.py:112-122 | Saving succeeds exactly when `.bdl` exists and the engine config is a dictionary. A saved file reads back as the repository's settings, and no other document path is added or removed. |
| `Repositories.Repository.SaveConfig` | bdl/repository.py:112-122 | The documents and outcome after the save are those `Saving` gives. |
| `Repositories.Repository.LoadConfig` | bdl/repository.py:124-147 | A missing file or an undecodable text raises RepoConfigError and changes nothing. A missing key raises RepoConfigError naming it. Otherwise the URL, template and engine settings are those read. |
| `Repositories.Repository.LoadIndex` | bdl/repository.py:149-155 | Without an index, or when forced, a fresh index over the index path is kept, and the result passes exactly when it loaded. Otherwise nothing changes. |
| `Repositories.Repository.LoadEngine` | bdl/repository.py:157-168 | A pass leaves an engine. Existing module and engine are kept when not forced. A new engine is an instance of the module's Engine class. |
| `Repositories.Repository.LoadComponents` | bdl/repository.py:180-190 | An empty or absent path raises RepoLoadError "Missing path", and a path that is not a directory raises "Repository does not exists", both before anything loads. A pass leaves a loaded index and an engine. |
| `Repositories.Repository.LoadAll` | bdl/repository.py:188-190 | A pass leaves an index and an engine. An index loaded here is ready and fresh, and an existing one is kept when not forced. |
| `Repositories.Repository.Stop` | bdl/repository.py:174-178 | The stop flag is set, then RepoStopError "Stopped" is raised. |
| `Repositories.Repository.Connect` | bdl/repository.py:192-215 | A failed guard raises its RepoConnectError and changes nothing. Past the guards, the repository and `.bdl` directories are created. A pass leaves a connected repository whose config reads back and whose index file exists. |
| `Repositories.Repository.Provision` | bdl/repository.py:209-215 | A pass leaves the repository connected with a fresh index. A failure keeps the index and the database files. |
| `Repositories.Repository.MissingLoaded` | bdl/repository.py:232-237 | The loop returns the missing scan of the loaded index's rows. |
| `Repositories.Repository.Missing` | bdl/repository.py:228-237 | A missing path raises RepoLoadError. A success is the missing scan of the loaded index. |
| `Repositories.Repository.Status` | bdl/repository.py:217-226 | A missing path raises RepoLoadError. A success reports the module engine class's reachability for the URL read from the config, the index count, the engine's `count_new` of the last indexed item, and the number of missing items. |
| `Repositories.Repository.StoreNext` | bdl/repository.py:294-298 | One loop iteration skips `None` and stores any other item, as the loop step `Next` says. |
| `Repositories.Repository.StoreItems` | bdl/repository.py:288-298 | The loop over the items reached leaves the table, counter, files and failure that `Consume` gives. |
| `Repositories.Repository.Pump` | bdl/repository.py:288-298 | Exactly the items before the stop limit are consumed. The loop reports stopped exactly when it broke on the flag, and the flag stays set once set. |
| `Repositories.Repository.RunPlan` | bdl/repository.py:280-298 | The index template is set (ignoring `None`) and the progress count is set to the plan's count. The table, files, stop flag and failure are those of the drained plan. |
| `Repositories.Repository.Attempt` | bdl/repository.py:280-307 | Whatever the loop does, the index is committed and the config saved. The outcome is the save's failure, else the caught outcome of the loop. |
| `Repositories.Repository.Sync` | bdl/repository.py:248-307 | A failed gate or a failed plan raises before anything is stored, committed or saved. Otherwise the attempt runs with the mode's plan. |
| `Repositories.Repository.SyncPlanned` | bdl/repository.py:252-307 | A failed missing-items plan raises and changes nothing. Otherwise the attempt runs with the plan. |
| `Repositories.Repository.Prepare` | bdl/repository.py:252-278 | The plan is the mode's plan over the last indexed item and the missing scan. |
| `Repositories.Repository.UpdateWith` | bdl/repository.py:239-307 | A missing path raises RepoLoadError "Missing path", and the repository stays valid. |
| `Repositories.Repository.Update` | bdl/repository.py:337-340 | `update()` raises RepoLoadError on a missing path and keeps the repository valid. |
| `Repositories.Repository.Stash` | bdl/repository.py:342-345 | `stash()` raises RepoLoadError on a missing path and keeps the repository valid. |
| `Repositories.Repository.Reset` | bdl/repository.py:347-350 | `reset()` raises RepoLoadError on a missing path and keeps the repository valid. |
| `Repositories.Repository.Checkout` | bdl/repository.py:352-355 | `checkout()` raises RepoLoadError on a missing path and keeps the repository valid. |
| `Repositories.Repository.Clone` | bdl/repository.py:330-335 | `clone()` keeps the repository valid. |
| `Repositories.Repository.Rename` | bdl/repository.py:309-319 | A missing path raises RepoLoadError. A successful rename keeps the new template and saves a config that reads back with it. |
| `Repositories.Repository.RenameLoaded` | bdl/repository.py:316-319 | The new template is kept. An unloaded index or an empty table fails and changes neither rows nor files nor the database. Otherwise the rows and files are those of the rename run over every row. A failed run is the result and commits nothing; a successful one commits the index and, when the save passes, leaves a config that reads back with the new template. |
| `Repositories.Repository.RenameCommitted` | bdl/repository.py:317-318 | The index's rows and files become those of the rename run. The index is committed exactly when the run has no failure. An empty table fails and changes nothing. |
| `Progresses.PositionsSound` | bdl/progress.py:86-89 | Every position `__mark` counts is a 1-based index of an entry with the URL. |
| `Progresses.PositionsComplete` | bdl/progress.py:86-89 | Every entry with the URL has its 1-based position counted. |
| `Progresses.PositionsOfUnknown` | bdl/progress.py:86-89 | An unknown URL has no positions. |
| `Progresses.RemoveFirst` | bdl/progress.py:92-95 | Removing an absent value keeps the list. Removing a present one drops exactly one occurrence. |
| `Progresses.RemoveAllShrinks` | bdl/progress.py:91-95 | Marking only removes from the in-flight list, never adds. |
| `Progresses.MoveToConserves` | bdl/progress.py:91-96 | Moving a position loses nothing. A position that was in flight is transferred to the target list, so the three lists together hold the same positions. One that was not in flight is added to the target list anyway, so the lists together gain it. |
| `Progresses.UnknownUrlMovesNothing` | bdl/progress.py:85-99 | Marking an unknown URL changes none of the lists. |
| `Progresses.PyIndex` | bdl/progress.py:146 | Indexing succeeds exactly for -len to len-1, and a non-negative index reads that entry. |
| `Progresses.Selected` | bdl/progress.py:143-147 | Selection succeeds exactly when every index is in range, and then yields one entry per index. |
| `Progresses.SelectedReads` | bdl/progress.py:145-146 | Non-negative in-range indices read the entries they name, in container order. |
| `Progresses.FirstEntryFinishedQuirk` | bdl/progress.py:65-96 | After adding one URL and marking it finished, index 0 stays in flight and 1 is finished, so reading the finished entries raises IndexError. |
| `Progresses.Progress.constructor` | bdl/progress.py:13-24 | A new tracker has empty lists and the given count and name. |
| `Progresses.Progress.Reset` | bdl/progress.py:26-35 | All four lists are emptied, the count is 0 and the name is None. |
| `Progresses.Progress.SetCount` | bdl/progress.py:42-45 | The count getter reads back the value set. |
| `Progresses.Progress.SetName` | bdl/progress.py:52-55 | The name is the value set. |
| `Progresses.Progress.Add` | bdl/progress.py:57-75 | Exactly one entry with the URL and percentage is appended, and exactly one in-flight index. |
| `Progresses.Progress.Mark` | bdl/progress.py:77-99 | The entry count never changes and entries with the URL take the percentage. With a target, the URL's positions leave the in-flight list and are appended to the target list; the other list is unchanged. |
| `Progresses.Progress.MarkOne` | bdl/progress.py:87-99 | One entry's iteration retags it, and moves its position when the URL matches. |
| `Progresses.Progress.Update` | bdl/progress.py:101-108 | Every entry with the URL takes the percentage. No list changes. |
| `Progresses.Progress.MarkFinished` | bdl/progress.py:110-116 | The URL's positions leave the in-flight list and are appended to the finished list. Entries and the failed list are unchanged. |
| `Progresses.Progress.MarkFailed` | bdl/progress.py:118-124 | The URL's positions leave the in-flight list and are appended to the failed list. Entries and the finished list are unchanged. |
| `Progresses.Progress.Total` | bdl/progress.py:126-138 | The state reports the count and the finished and failed lengths. The percentage is 100*len(entries)/count when count > 0, else 0. |
| `Progresses.Progress.GetContainer` | bdl/progress.py:140-147 | The loop returns the entries the indices select, or IndexError. |
| `Progresses.Progress.Currents` | bdl/progress.py:149-151 | The in-flight entries are those the in-flight indices select. |
| `Progresses.Progress.Finished` | bdl/progress.py:153-155 | The finished entries are those the finished indices select. |
| `Progresses.Progress.Failed` | bdl/progress.py:157-159 | The failed entries are those the failed indices select. |
| `Items.BasenameIsLast` | bdl/item.py:27 | The basename is the longest suffix of the path without '/': it holds no '/', whatever precedes it ends in '/', and a path without '/' is its own basename. |
| `Items.ItemFilename` | bdl/item.py:30 | A non-empty given filename wins. An absent or empty one falls back to the filename derived from the basename. |
| `Items.FilenameReference` | bdl/item.py:30 | Without a dot, the derived filename is the basename. Otherwise it is the text before the last dot with dots removed, or the whole basename when that is empty. |
| `Items.ItemExtension` | bdl/item.py:31 | A non-empty given extension wins. An absent or empty one falls back to the extension derived from the basename. |
| `Items.ExtensionReference` | bdl/item.py:31 | The derived extension is the text after the last dot, or "" when there is no dot. |
| `Items.HashOf` | bdl/item.py:61-70 | A supplied hash is returned unchanged. Otherwise it is the SHA-256 hex digest of the content, or the empty bytes when there is no content. |
| `Items.MakeItem` | bdl/item.py:13-40 | The item keeps URL, metadata, storename, content and tempfile. Its filename and extension are derived from the URL path's basename, and its hash is `HashOf` the supplied hash and the content. |
| `Items.Item.constructor` | bdl/item.py:13-40 | The object's value is `MakeItem` of the arguments and the supplied hash is held. |
| `Items.Item.Content` | bdl/item.py:54-59 | The content is the held bytes, or empty bytes when none are held. |
| `Items.Item.Hashed` | bdl/item.py:61-70 | The hash is computed once and cached, and a cached or supplied one is returned unchanged. Without content it is the empty bytes, and the item value is unchanged. |
| `Items.Item.SetMetadata` | bdl/item.py:88-94 | The metadata is merged, with the new values overriding and the other keys kept. |
| `Items.Item.SetStorename` | bdl/item.py:80-82 | The storename is the value set. |
| `Items.Item.SetTempfile` | bdl/item.py:113-124 | The tempfile is the path set, and `has_tempfile()` holds exactly when it is not None. |
| `Engines.InstanceName` | bdl/engine.py:69 | An engine's name exists exactly when its module name has a third dotted component, which holds no dot. |
| `Engines.BaseEngineDefaults` | bdl/engine.py:27-132 | The base engine reports no repository name, an unreachable remote and counts of 0. Each of its updaters yields a single `None`. |
| `Engines.BaseEngineNotInstantiable` | bdl/engine.py:67-71 | Instantiating the base class itself fails, since `bdl.engine` has no third component. |
| `Engines.EngineInstanceNamed` | bdl/engine.py:57-69 | An engine class in `a.b.name` is named `name`. |
| `Engines.Validate` | bdl/engine.py:241-262 | A module passes exactly when it is a module with an Engine class. Each other case raises its own EngineStructureError. |
| `Engines.Rules` | bdl/engine.py:173-176 | One netloc entry contributes one rule per regex, in order, tagged with the engine name. |
| `Engines.AddSiteLookup` | bdl/engine.py:170-176 | Registering one netloc entry appends its rules to that netloc's and leaves the others alone. |
| `Engines.AddSitesAppends` | bdl/engine.py:170-176 | Registering an engine appends, for every netloc, its rules after those already there. |
| `Engines.AddSitesKeys` | bdl/engine.py:170-172 | A netloc is registered afterwards exactly when it was before or the engine's file names it. |
| `Engines.RegistrationOrder` | bdl/engine.py:165-176 | A later engine's rules for a netloc come after every earlier engine's. |
| `Engines.RegisteredNames` | bdl/engine.py:165-166 | A name is registered exactly when some discovered engine has it. |
| `Engines.LastRegistrationWins` | bdl/engine.py:165-166 | Re-registering a name overwrites it: the last registration's module wins. |
| `Engines.FirstMatch` | bdl/engine.py:230-232 | The chosen rule matches and no earlier rule does. Nothing is chosen exactly when no rule matches. |
| `Engines.FirstMatchIs` | bdl/engine.py:230-232 | A matching rule with no matching rule before it is the one chosen. |
| `Engines.Registry.constructor` | bdl/engine.py:18-19 | Both registries start empty. |
| `Engines.Registry.Preload` | bdl/engine.py:161-182 | Both registries are cleared and refilled. A pass happens exactly when every sites file reads, and leaves the tables of all engines in order. Otherwise the first unreadable file's error is raised, with its engine's name already registered. |
| `Engines.Registry.RegisterSites` | bdl/engine.py:170-176 | The netloc loop leaves the table `AddSites` gives. |
| `Engines.Registry.AppendRules` | bdl/engine.py:173-176 | The regex loop appends the netloc's rules in order and changes no other key. |
| `Engines.Registry.LoadByName` | bdl/engine.py:187-208 | Loading succeeds exactly for a registered name whose import succeeds. An unregistered name raises EngineLoadError "Engine does not exists", and an import failure is wrapped in EngineLoadError. |
| `Engines.Registry.ResolveUrl` | bdl/engine.py:211-238 | Every failure is an EngineLoadError, except an InvalidURLError for an empty netloc. |
| `Engines.Registry.LoadByUrl` | bdl/engine.py:224-238 | The loop's result is the resolver's: an empty netloc, an unknown site or an unmatched URL raise their errors, and otherwise the first matching rule's engine is loaded. |
| `Configs.EmptyOf` | bdl/config.py:53 | Calling a type without arguments gives a value of that type. |
| `Configs.ConfigTemplateWellFormed` | bdl/config.py:13-24 | Every rule of `configtemplate` has a first type, its default already has that type, and no key repeats. |
| `Configs.Copy` | bdl/config.py:46-56 | A rule copies to a value of its first type, and a nested template to a dictionary. |
| `Configs.CopyConforms` | bdl/config.py:46-56 | The copy of a template conforms to it. |
| `Configs.DefaultConfigIsCopy` | bdl/config.py:58-59 | Copying `configtemplate` gives empty name and URL, the default storename template and an empty engine section. |
| `Configs.CopyValidates` | bdl/config.py:58-60 | A freshly copied configuration passes validation. |
| `Configs.ValidateIff` | bdl/config.py:84-101 | Validation passes exactly when every template key is present in a dictionary, every rule's value has one of its types exactly, and nested values conform recursively. |
| `Configs.ExtraKeysIgnored` | bdl/config.py:85-101 | Keys the template does not name never affect validation. |
| `Configs.ContentErrorsOnly` | bdl/config.py:87-99 | On a dictionary-shaped configuration, every validation failure is a ConfigContentError. |
| `Configs.Config.constructor` | bdl/config.py:29-38 | A new object holds its path and no configuration. |
| `Configs.Config.Validate` | bdl/config.py:78-104 | Without a configuration validation fails. Otherwise it passes exactly when the configuration conforms to `configtemplate`. |
| `Configs.Config.Commit` | bdl/config.py:111-120 | A missing parent directory raises ConfigError. A failed validation is raised without writing. Otherwise the configuration is written. |
| `Configs.Config.Create` | bdl/config.py:40-60 | An existing file is left alone. Otherwise the default configuration is held and committed, or ConfigError is raised when the directory is missing. |
| `Configs.Config.Load` | bdl/config.py:62-76 | A missing file raises `open`'s FileNotFoundError "[Errno 2] No such file or directory: '<path>'", and an undecodable one ConfigContentError "Configuration format error". A decoded one is held and passes exactly when it conforms. |
| `Configs.Config.RepoSection` | bdl/config.py:126-128 | The `repo` section, when present, is the dictionary under "repo". |
| `Configs.Config.SetRepoKey` | bdl/config.py:138-157 | Assigning a repo key succeeds exactly when the repo section exists, and sets that key only. |
| `Configs.Config.SetName` | bdl/config.py:138-140 | The setter succeeds exactly when the repo section exists. It then overwrites the section's `name`; every other key of the section and every other section, `engine` included, is kept. A failure changes nothing. |
| `Configs.Config.SetUrl` | bdl/config.py:146-148 | The setter succeeds exactly when the repo section exists. It then overwrites the section's `url`; every other key of the section and every other section, `engine` included, is kept. A failure changes nothing. |
| `Configs.Config.SetTemplate` | bdl/config.py:154-157 | The setter ignores `None`. Otherwise it succeeds exactly when the repo section exists, overwrites the section's `template`, and keeps every other key and section. A failure changes nothing. |
| `Errors.EveryKindIsBdl` | bdl/exceptions.py:5-147 | Every exception class derives from BDLError. |
| `Errors.RepoErrorsAreRepo` | bdl/exceptions.py:34-51 | RepoConfigError, RepoLoadError, RepoUpdateError and RepoStopError are RepoError subclasses. |
| `Errors.Hierarchy` | bdl/exceptions.py:11-147 | DownloadTimeoutError is an EngineError, not a DownloadError. IndexDBSchemaError is an IndexDBError and ConfigContentError a ConfigError. InvalidURLError is not an EngineError. |
| `Errors.NormalizeName` | bdl/exceptions.py:28-31 | The name is never empty. It is "<unknow>" exactly for None, "" or "<unknow>" itself, and any other name is kept. |
| `Errors.LastComponent` | bdl/exceptions.py:103 | The last dotted component is the dot-free suffix after the last dot, and the whole name when there is no dot. |
| `Errors.LastPartIsSuffix` | bdl/exceptions.py:103 | The last part of a split on '.' is the text after the last dot. |
| `Errors.EngineName` | bdl/exceptions.py:100-103 | A None or empty engine name is "<unknow>". Otherwise it is the longest dot-free suffix of the name, that is, its last dotted component. |
| `Errors.Named` | bdl/exceptions.py:27-31 | The repository, config and index errors keep their kind and read "name: message" with a non-empty normalised name. |
| `Errors.RepoMessageFormat` | bdl/exceptions.py:27-31 | Every RepoError reads "<name>: <message>", where the name is the given one or "<unknow>" when it is None or empty. |
| `Errors.ConfigContentError` | bdl/exceptions.py:65-68 | The message is "path: Configuration content error: message". |
| `Errors.IndexDBSchemaError` | bdl/exceptions.py:83-89 | Both lists are kept and the message reads "path: Missing columns: a,b; Invalid columns: c". |
| `Errors.EngineFamily` | bdl/exceptions.py:96-105 | Engine errors keep a dot-free name and read "name: message". |
| `Disk.PathJoin` | bdl/index.py:388 | An absolute second part replaces the first. Otherwise an empty first part, or one ending in '/', is simply followed by the second, and any other first part is joined to the second by a single '/'. |
| `Disk.Moved` | bdl/index.py:422-423 | After a move, the destination holds the source's bytes, and the source is gone unless it is the destination. Every other path is unchanged. |
| `Disk.FileSystem.Move` | bdl/index.py:391 | Moving an existing file gives `Moved`. An absent source raises FileNotFoundError and changes nothing. |
| `Disk.FileSystem.Write` | bdl/index.py:393-394 | Writing sets exactly that path's bytes. |
| `Strings.Split` | bdl/item.py:30 | A split is never empty, no part holds the separator, and a text without it splits to itself. |
| `Strings.JoinSplit` | bdl/item.py:30 | Joining a split with its separator gives back the text. |
| `Strings.LastIndexOf` | bdl/item.py:31 | `rfind` gives -1 exactly when the character is absent, else its last index. |
| `Strings.IntToString` | bdl/index.py:331 | The decimal rendering of a position is non-empty and starts with '-' exactly for negatives. |
| `Strings.NatToStringValue` | bdl/index.py:331 | The decimal rendering of a natural number reads back as that number. |

## Left out

- SQLite is not modelled as SQL. The table is a sequence of rows in position order, and `pragma table_info` gives abstract column tuples. The column-definition text slicing at index.py:124 is not modelled. `AddColumn` appends the reference column directly.
- ItemIndex.Index.Load requires a database file whose rows are in position order (the `ORDER BY position` of every query). The model does not derive that order from SQL.
- ItemIndex.Index.Store, `StoreRow` and `Rename` require a loaded index. On an unloaded one, the source raises AttributeError from `self.db` being None; that error path is not modelled. `UpdateWith` returns an OperationalError in that case instead of raising from the loop.
- ItemIndex.Index.Store does not write the storename back into the `Item` object. No modelled caller reads it afterwards.
- JSON encoding and decoding of metadata and of the configuration file are oracles. A document is parsed or carries its decode error, and metadata is `Encoded`, `Corrupt` or `Null`.
- SHA-256 is symbolic: a digest is named by the bytes it is computed from. The str-to-UTF-8 branch of `hashed` is folded into the bytes case.
- urlparse, `os.path.basename` of a URL, `re.match` and `importlib.import_module` are parameters: a pre-parsed `Url`, a `matches` predicate and an importer. Engine discovery through entry points and local packages (engine.py:135-158) is a given sequence of discovered engines.
- os.path.abspath and `os.path.normpath` are not applied to repository paths. `os.makedirs` adds the repository and `.bdl` directories but not their ancestors.
- The SIGINT handler (repository.py:54) and threads are out. The stop flag set from outside is the `stopAt` parameter: the loop iteration at which the flag is first seen set.
- In the missing-items mode the source runs `_missing` twice (repository.py:268 and 270), reloading the components each time. The model scans once; both scans see the same state.
- self.status at repository.py:135 reads the method without calling it and has no effect. It is not modelled.
- A configuration value other than a string for the URL or template is kept as None by the repository.
- Storenames.Format: only plain `{key}` fields with `{{`/`}}` escapes are modelled. In `str.format_map`, a format spec (`{position:03d}`) pads, a conversion (`{filename!r}`) quotes, and an attribute or index field (`{a.b}`, `{a[0]}`) looks up inside the value or raises. The model instead reads the whole text between the braces as a key, which renders "" when absent. It also rejects a nested spec such as `{a:{b}}`, which Python accepts, and metadata values are strings only, where Python would format numbers too.
- The `test` lambdas of the configuration rules are never called and are not modelled.
- Configs.Dirname is a simplified `os.path.dirname`: no normalisation of repeated slashes.
- Logging, the `threading.Lock` of the progress tracker, and `time.time()` (a parameter `now`) are out. Percentages are reals, not floats.
- The engines' `pre_connect`/`pre_update` are given outcomes. Their own work is not modelled, and neither are the downloaders.
- The index's `unload`, `__contains__`, `__len__`, the plain getters of `Item`, `Config` and `Progress`, and the public `connect`, `status` and `diff` wrappers add nothing over the members they call. They are not modelled separately.
- Repositories.Repository.UpdateWith: states only the missing-path error and that the repository stays valid. What an update stores is stated by `Sync`, `SyncPlanned`, `Attempt` and the loop lemmas, not carried up through loading.
- Repositories.Repository.Update: states only the missing-path error and validity, for the same reason. Its plan is stated by `PublicPlans`.
- Repositories.Repository.Stash: states only the missing-path error and validity; its plan is stated by `PublicPlans`.
- Repositories.Repository.Reset: states only the missing-path error and validity; its plan is stated by `PublicPlans`.
- Repositories.Repository.Checkout: states only the missing-path error and validity; its plan is stated by `PublicPlans`.
- Repositories.Repository.Clone: states only that the repository stays valid. Its steps are stated by `Connect`, `LoadComponents` and `UpdateWith`.
- Repositories.Repository.Rename: states the missing-path error and the saved template. The renaming itself is stated by `ItemIndex.Index.Rename`.
- The context files (bdl/__main__.py, bdl/downloaders.py, bdl/logging.py, setup.py and the tests) are not part of this model.

## Findings

| source | as written | input that shows it | evidently intended | confidence | as-written member | corrected member |
|---|---|---|---|---|---|---|
| bdl/index.py:390 | `if item.has_tempfile:` tests the bound method, which is always true, so every item is moved from its tempfile | any item without a tempfile, such as the items test/tests/test_index.py:53-55 stores (no content, no tempfile): `shutil.move(None, fullpath)` raises TypeError | call `item.has_tempfile()` and write the content when there is no tempfile | not executed | `ItemIndex.WritePayloadAsWritten` (shown by `ItemIndex.TempfileGuard`) | `ItemIndex.WritePayload` |
| bdl/repository.py:196-208 | the guards of `_connect` raise `RepoConnectError`, which bdl/exceptions.py does not define | `Repository(url=None, path="p")._connect()`: the name lookup raises NameError, not a repository error | raise a RepoError subclass naming the missing attribute or the existing repository | not executed | `Repositories.ConnectChecksAsWritten` (shown by `Repositories.ConnectGuardFinding`) | `Repositories.ConnectChecks` |
