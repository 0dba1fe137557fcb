# The experiment index: a verification model

The experiment index keeps what a fleet of runs logged as one queryable table. It is a
cache: writers append logs and metric streams to shared storage, a refresh reads only what
grew, folds it, saves it to tables that other processes follow, and publishes immutable
snapshots. Almost every part has a fast incremental form and a simple one from scratch.
This project models those parts and proves that the two agree, over every run.

Each `.dfy` file is a module for one component.

- `index_store.dfy`: the persisted tables, their generations, tombstones and horizon, and a
  follower polling them.
- `index_pending.dfy`: saves in chunks, any of which may fail, and what stays pending.
- `journal_mark.dfy`, `journal_progress.dfy`: hints, listings, refreshes, saves and crashes as
  one state machine, and the journal position persisted with the records: never ahead of them,
  and catching up.
- `derive.dfy`: derivers racing saves after an upgrade.
- `lean_tree.dfy`: the column of topmost ancestors, repaired locally.
- `fold.dfy`, `fold_sums.dfy`: what log entries and metric points fold to, rewinds included,
  and the three ways of folding points.
- `record_fold.dfy`, `block_fold.dfy`: the same for a whole record: log entries and points of
  streams together, in any order, from blocks of many keys, headers and sums.
- `jsonl_tail.dfy`, `record_logs.dfy`, `merged_refold.dfy`: reading growing files and keeping a
  record's fold current with its logs, and what a refold from merged logs gets wrong.
- `record_metrics.dfy`, `metric_state.dfy`, `record_update.dfy`: one writer's metric stream, all
  of a record's, and the record's logs and metrics kept current together, roll-ups, compactions
  and late rewinds included.
- `adoption.dfy`: compaction with rewinds applied, and what adopting its file by counts is worth.
- `stream_names.dfy`: object names and which of them a listing shows.
- `goal_counts.dfy`, `snapshot_rows.dfy`, `index_publish.dfy`: the incremental counts, rows,
  maps and order behind a published snapshot.
- `lineage_index.dfy`, `lineage_walk.dfy`: the lineage maps moved along with the rows, and the
  walk over them.
- `journal_reader.dfy`: the reader of the change journal and its window.
- `metric_blocks.dfy`, `metric_series.dfy`, `metric_reader.dfy`: framing and packing of metric
  streams, the min/max pyramid, and thinned range reads.
- `forest.dfy`: the best split of a regression tree node.

Where the code updates objects or loops, the model has classes and methods with the same
fields and steps, proved against functions and predicates about which the lemmas speak.
Reals stand for floats and sums are exact.

## Where the code does less than it says

Each of these is a lemma about the code as it is, and beside it one with the exact condition
under which the promise holds.

- A timestamp on a whole second has no fraction in its ISO string, which then sorts after every
  fraction of that second: a header folds to what its points do exactly when its ends are so in
  string order (`FoldSums.HeaderIsPoints`).
- A rewind on a whole second can hide a point of a block folded without looking
  (`FoldSums.WholeSecondHides`); no other can (`FoldSums.HiddenMayBeRewound`,
  `RecordMetrics.OnlyWholeSeconds`).
- A rolled-up file is adopted by its counts, which compaction with rewinds applied can make tell
  by chance (`Adoption.AdoptedMistaken`): they tell exactly when of each key as many points were
  dropped as were unread (`Adoption.CountsTellWhen`), rightly when those are the same points
  (`Adoption.HoldsSameWhen`), as when the footer's `rewinds_applied` is false or nothing was
  unread (`Adoption.NotMistaken`). Otherwise the unread points are lost, and the fold with them
  as far as they are visible (`Adoption.AdoptedFold`).
- Compaction compares times, the fold strings: a point on the whole second a rewind falls in is
  dropped though the fold shows it, and no other (`Adoption.DroppedIsHidden`).
- A file in order of steps hides its rewinds from the header check when a lower step was redone
  after them (`RecordFold.RedoneLowerMissed`), exactly when its first point is later than the
  rewind (`RecordFold.NoticedWhen`).
- After a refold from merged logs positions start over (`MergedRefold.MergedForgetsPlaces`): a
  field stays right exactly when its latest write is not overtaken, or its earliest not undercut
  (`MergedRefold.MergedTag` and those after it), rewinds hide what they should exactly when none
  is freed or caught (`MergedRefold.SameHiddenWhen`), and all of the fold is right without ties
  (`MergedRefold.NoTiesNoHarm`). What was read past the listed sizes is folded twice
  (`MergedRefold.ReadTwice`, both ways).
- A cold start whose listing gave up on a chunk puts a journal mark ahead of the store
  (`JournalMarks.RefusedChunkLeavesMarkAhead`): a put covers everything exactly when what was
  given back was committed all the same (`JournalMarks.PutCoversExactly`), as it is when nothing is given back
  (`JournalMarks.NothingGivenBack`).
- Merging pending changes can misjudge a run state (`IndexPending.OldStateOutlives`), exactly
  when a key is `Misjudged` (`IndexPending.MergeKeepsStates`), which calls can avoid
  (`IndexPending.NoneMisjudgedIfBrought`).
- A save that both changes and removes a key strands exactly the followers that held it
  (`IndexStore.OverlapStrandsFollower`).
- A run state saved alone between a deriver's read and its write leaves a stale status
  (`Derive.StaleStatus`): exactly when that write is the last step to touch the row
  (`Derive.RightUnlessLastStale`).
- A journal reader's look-back counts from the present tick, so keys can be cut off for good
  (`JournalReading.CutOffLoses`, `JournalReading.CutOffStays`), and only those are missed
  (`JournalReading.NothingMissed`); a resumed reader repeats exactly the keys in the window
  before its cursor (`JournalReading.ResumeRepeats`).
- The scan over bins by mean skips cuts that leave too few rows, and may then miss the best
  subset (`Forest.SkippedCutLoses`): exactly when a skipped cut gains more
  (`Forest.ScanFindsBestSubset`).
- A forced level without a full bucket in range drops points, but for the positions named
  (`MetricReader.SingleEdgeStops`, both ways).

## Model

| member | source | states |
|---|---|---|
| IndexStore.FollowerIsExact | packages/vmn-exp-sdk/src/vmn_exp/core/index_follower.py:8-21 | After any saves (changes and removals disjoint), tombstone trims under any clock and earlier polls, one more poll leaves the follower with exactly the store's records and run states, at its generation |
| IndexStore.SavedKeyByKey | packages/vmn-exp-sdk/src/vmn_exp/core/index_store.py:222-270 | After a committed save a removed key is gone with its run state, a changed one has the new content, each run state given is stored, and every other key is as before |
| IndexStore.RunHoldsLast | packages/vmn-exp-sdk/src/vmn_exp/core/index_store.py:222-270 | After any run the store holds of each key the content and run state its last save gave, nothing once removed |
| IndexStore.FollowerHoldsLast | packages/vmn-exp-sdk/src/vmn_exp/core/index_follower.py:8-21 | and so does the follower after a poll |
| IndexStore.DeltaIsWhatWasSaved | packages/vmn-exp-sdk/src/vmn_exp/core/index_store.py:154-177 | A delta that is no full load names only keys that some save since named |
| IndexStore.RecentFollowerIsPatched | packages/vmn-exp-sdk/src/vmn_exp/core/index_store.py:272-285 | A follower that polled no longer ago than tombstones are kept is never sent everything |
| IndexStore.DeltaIsExact | packages/vmn-exp-sdk/src/vmn_exp/core/index_store.py:149-177 | From any generation once held, or one of a file since rebuilt, the delta since it patches the held records to the store's, whether it is a full load or rows and tombstones |
| IndexStore.SaveKeepsCatchUp | packages/vmn-exp-sdk/src/vmn_exp/core/index_store.py:222-236 | A save of disjoint changes and removals, tombstones trimmed with it, leaves every generation from the horizon on able to catch up; a save of run states alone counts too |
| IndexStore.OverlapStrandsFollower | packages/vmn-exp-sdk/src/vmn_exp/core/index_store.py:262-270 | A follower with no full load due stays exact after a save just when it held no key the save both changed and removed: the code's assumption of disjoint sets is needed, and nothing more |
| IndexStore.ToldIsExact | packages/vmn-exp-sdk/src/vmn_exp/core/index_store.py:154-177 | A delta is right about one key if and only if the rows and tombstones newer than the follower's generation tell what became of it |
| IndexStore.ToldAfterWrite | packages/vmn-exp-sdk/src/vmn_exp/core/index_store.py:222-270 | After a save every older generation is told about a key, unless the save both changed and removed a key held then; no key has both a record and a tombstone |
| IndexStore.TrimKeepsCatchUp | packages/vmn-exp-sdk/src/vmn_exp/core/index_store.py:272-285 | Trimming old tombstones and moving the horizon strands no follower: those it would strand load everything |
| IndexStore.NewestSeqIsMax | packages/vmn-exp-sdk/src/vmn_exp/core/index_store.py:272-285 | The horizon moves to the greatest generation among the tombstones trimmed |
| IndexStore.TrimmedExactly | packages/vmn-exp-sdk/src/vmn_exp/core/index_store.py:272-285 | Just the tombstones past their time go, and the horizon is the least that is no less than before and than any of them |
| IndexStore.RunKeepsUp | packages/vmn-exp-sdk/src/vmn_exp/core/index_store.py:149-285 | In every run of saves, trims and polls the tables can catch up and the follower holds what the store held at the generation it stands at |
| IndexStore.SqliteStore.Save | packages/vmn-exp-sdk/src/vmn_exp/core/index_store.py:197-220 | One transaction saves records, run states, tombstones, the trim and the key-value puts, or leaves all of it as it was; saving nothing always succeeds, and puts alone do not move the generation |
| IndexStore.SqliteStore.Write | packages/vmn-exp-sdk/src/vmn_exp/core/index_store.py:222-236 | The tables after a save's rows, at a new generation whatever they are: a save of run states alone moves it too |
| IndexStore.SqliteStore.TrimTombstones | packages/vmn-exp-sdk/src/vmn_exp/core/index_store.py:272-285 | Tombstones past their time go and the horizon rises to the newest of them |
| IndexStore.Follower.ApplyDelta | packages/vmn-exp-sdk/src/vmn_exp/core/index_follower.py:8-21 | Whichever delta came, the follower ends with the store's records and generation; it names every key that differs and exactly the held ones that went |
| IndexPending.RunOverlays | packages/vmn-exp-sdk/src/vmn_exp/core/index_pending.py:29-49 | After any calls whose chunks may be refused or raise anywhere, the store overlaid with what is pending holds the records of every call in full in order, and the run states too if of the keys removed before the calls give one to just those they add again; after a call that answers true the store alone does |
| IndexPending.MergeKeepsRecords | packages/vmn-exp-sdk/src/vmn_exp/core/index_pending.py:56-76 | Changes merged with pending ones store the records that saving one after the other would |
| IndexPending.MergeKeepsStates | packages/vmn-exp-sdk/src/vmn_exp/core/index_pending.py:56-76 | Merged run states come out the same if and only if no key is misjudged: re-added over a pending removal without a run state while an old one is stored, or given one alone while its removal is pending |
| IndexPending.PartAhead | packages/vmn-exp-sdk/src/vmn_exp/core/index_pending.py:29-49 | A part saved ahead of the rest, even twice because its answer was lost, changes nothing of what everything saved comes to |
| IndexPending.RunKeepsRecords | packages/vmn-exp-sdk/src/vmn_exp/core/index_pending.py:29-49 | Over any run of calls the store and what is pending keep every record the calls would have stored |
| IndexPending.LastCallDecides | packages/vmn-exp-sdk/src/vmn_exp/core/index_pending.py:56-76 | Calls in full leave each record and run state as the last call that named its key did: given, removed, or as before |
| IndexPending.LastCallHolds | packages/vmn-exp-sdk/src/vmn_exp/core/index_pending.py:29-49 | So, whatever failed, does the store overlaid with what is pending, and after a call that answers true the store alone |
| IndexPending.NoneMisjudgedIfBrought | packages/vmn-exp-sdk/src/vmn_exp/core/index_pending.py:56-76 | When of the keys removed before the calls give a run state to just those they add again, no merge misjudges one, whatever failed |
| IndexPending.PendingIsGone | packages/vmn-exp-sdk/src/vmn_exp/core/index_pending.py:56-76 | Only keys that some call removed are ever pending removal |
| IndexPending.OldStateOutlives | packages/vmn-exp-sdk/src/vmn_exp/core/index_pending.py:56-76 | The condition is needed: for any record, a key added again over its pending removal without a run state keeps the old one |
| IndexPending.PendingSave.Parts | packages/vmn-exp-sdk/src/vmn_exp/core/index_pending.py:64-66 | The keys a chunk at a time: every key in some part, no part too large, one empty part when there are none |
| IndexPending.PendingSave.PartSaved | packages/vmn-exp-sdk/src/vmn_exp/core/index_pending.py:29-49 | Saving one part, once or twice, keeps the progress towards the call's full result, and the last part reaches it |
| IndexPending.PendingSave.Keep | packages/vmn-exp-sdk/src/vmn_exp/core/index_pending.py:51-54 | What is kept pending is the part of the batch whose chunks are not known to be saved |
| IndexPending.PendingSave.Save | packages/vmn-exp-sdk/src/vmn_exp/core/index_pending.py:29-49 | One call against a store that may refuse or raise: the overlay becomes the call applied in full, true only when nothing is left pending, and key-value puts only with the last chunk |
| IndexPending.FaultyStore.Save | packages/vmn-exp-sdk/src/vmn_exp/core/index_store.py:197-220 | A transaction that is saved, refused, or raises before or after it committed |
| JournalMarks.MarkNeverRunsAhead | packages/vmn-exp-sdk/src/vmn_exp/core/index_sweep_behind.py:44-94 | In every interleaving of writes, announcements, hints, limited takes, listings behind serving, refused chunks, partly failed saves, failed refreshes and crashes, the store is at least as new as every announcement up to the persisted mark that the process putting it was given |
| JournalMarks.CleanMarkCoversAll | packages/vmn-exp-sdk/src/vmn_exp/core/index_sweep_behind.py:62-69 | The same for every announcement up to the mark, those before the process began included, in every sequence of actions that puts no mark while keys a listing or refresh gave back await listing |
| JournalMarks.CleanExactly | packages/vmn-exp-sdk/src/vmn_exp/core/index_sweep_behind.py:62-69 | The model's record of whether marks were put that way says just what the actions say |
| JournalMarks.NothingGivenBack | packages/vmn-exp-sdk/src/vmn_exp/core/index_sweep_behind.py:171-192 | Without a refused chunk or a failed refresh every mark is put that way |
| JournalMarks.PutCoversExactly | packages/vmn-exp-sdk/src/vmn_exp/core/index_sweep_behind.py:62-69 | After the action that puts a mark, all before having been put with nothing given back: it covers every announcement up to it if and only if each version announced before the process began, of a key that some action gave back and none listed since, was committed by some action |
| JournalMarks.LeftIsGivenBack | packages/vmn-exp-sdk/src/vmn_exp/core/index_sweep_behind.py:62-69 | A key waits to be listed again exactly when a failed refresh or a refused chunk gave it back and no action listed it since |
| JournalMarks.StoredIsSaved | packages/vmn-exp-sdk/src/vmn_exp/core/index_pending.py:29-49 | The store has a version of a key exactly when some action committed it or a newer one |
| JournalProgress.PositionKnown | packages/vmn-exp-sdk/src/vmn_exp/core/index_sweep_behind.py:44-48 | The position a sweep stands ready to take is the last one it was told since its process began |
| JournalProgress.BeginTakesPosition | packages/vmn-exp-sdk/src/vmn_exp/core/index_sweep_behind.py:75-95 | A refresh that leaves no hint waiting takes the last position told as its mark |
| JournalProgress.CanPut | packages/vmn-exp-sdk/src/vmn_exp/core/index_sweep_behind.py:62-69 | Once everything was listed, no replay awaited and no listing running, a refresh that saved all it listed can put the mark it took, and leaves nothing pending |
| JournalProgress.ReadAllHolds | packages/vmn-exp-sdk/src/vmn_exp/core/index_sweep_behind.py:62-69 | Then memory and store hold what was listed |
| JournalProgress.RequestIsListed | packages/vmn-exp-sdk/src/vmn_exp/core/index_sweep.py:160-164 | Asked for a full listing, the next refresh lists everything, itself or by the listing behind serving |
| JournalProgress.PositionIsPut | packages/vmn-exp-sdk/src/vmn_exp/core/index_sweep_behind.py:62-95 | and that is the last position told before the refresh began, whatever was written, announced, delivered, listed or read meanwhile |
| JournalProgress.CatchesUp | packages/vmn-exp-sdk/src/vmn_exp/core/index_sweep_behind.py:62-95 | From any reachable state with no refresh under way and few enough hints, one refresh puts the mark at the journal's position, the listing behind serving included |
| JournalProgress.RefreshEnds | packages/vmn-exp-sdk/src/vmn_exp/core/index_sweep_failed.py:20-26 | A refresh that read all it listed ends, nothing it took waiting any more |
| JournalProgress.RefreshFails | packages/vmn-exp-sdk/src/vmn_exp/core/index_sweep_failed.py:28-42 | One given up on hands back all it took with its mark, and owes again the full listing it made itself; the listing behind serving goes if that failed |
| JournalProgress.WorldIsWritten | packages/vmn-exp-sdk/src/vmn_exp/core/journal_reader.py:1-20 | Whatever the index does, a record has as many versions as it was written, and the journal is what was announced, each with the version there was then |
| JournalMarks.RefusedChunkLeavesMarkAhead | packages/vmn-exp-sdk/src/vmn_exp/core/index_sweep_behind.py:171-192 | That proviso is needed: a run in which a cold start's listing gives up on a chunk and the mark is put past a change that is not in the store |
| JournalMarks.RunKeeps | packages/vmn-exp-sdk/src/vmn_exp/core/index_sweep_behind.py:37-192 | The invariant behind both, in every run: hints delivered wait, are listed, or are stored up to the mark |
| JournalMarks.StepKeeps | packages/vmn-exp-sdk/src/vmn_exp/core/index_sweep_behind.py:37-192 | Every single action keeps the invariant |
| JournalMarks.HaveAfterRead | packages/vmn-exp-sdk/src/vmn_exp/core/index.py:794-815 | Reading, applying and saving a chunk, however much of it was saved, leaves the index with the versions read and the store no older; saved in full, store and index agree |
| JournalMarks.ReadEntries | packages/vmn-exp-sdk/src/vmn_exp/core/index.py:638-651 | A refresh part keeps every mark right, the put mark with it |
| JournalMarks.ReadRelisting | packages/vmn-exp-sdk/src/vmn_exp/core/index_sweep_behind.py:171-192 | Reading a chunk loses nothing a listing behind serving has to account for |
| JournalMarks.BeginHints | packages/vmn-exp-sdk/src/vmn_exp/core/index_sweep_behind.py:84-94 | Whatever a refresh lists besides, the hints it took are listed after they were given, so that the mark it takes is right |
| JournalMarks.BeginKeeps | packages/vmn-exp-sdk/src/vmn_exp/core/index_sweep_behind.py:96-108 | Beginning a refresh, by hints, live records or a full listing, keeps the invariant |
| JournalMarks.TakeListsBase | packages/vmn-exp-sdk/src/vmn_exp/core/index_sweep_behind.py:171-192 | Once a listing behind serving is finished, everything announced before the process began is listed or back among the hints |
| JournalMarks.TakeKeeps | packages/vmn-exp-sdk/src/vmn_exp/core/index_sweep_behind.py:171-192 | Taking what was listed behind serving, refused chunks handed back as hints, keeps the invariant |
| JournalMarks.EndKeeps | packages/vmn-exp-sdk/src/vmn_exp/core/index_sweep_failed.py:23-43 | Ending a refresh and giving up on one, its keys and mark handed back, both keep the invariant |
| JournalMarks.RestartKeeps | packages/vmn-exp-sdk/src/vmn_exp/core/index_sweep_behind.py:50-53 | A crash and a restart, resumed from the mark or cold, keeps it |
| JournalMarks.OutsideKeeps | packages/vmn-exp-sdk/src/vmn_exp/core/index_sweep.py:155-162 | Writes, announcements, hints and positions arriving at any moment keep it |
| JournalMarks.Sweep.TakeHints | packages/vmn-exp-sdk/src/vmn_exp/core/index_sweep_behind.py:84-94 | At most a limited batch is taken, and the mark only with the last of the hints |
| JournalMarks.Sweep.Applied | packages/vmn-exp-sdk/src/vmn_exp/core/index_sweep_failed.py:23-25 | What was taken is settled, with the mark it took |
| JournalMarks.Sweep.Failed | packages/vmn-exp-sdk/src/vmn_exp/core/index_sweep_failed.py:31-43 | What was taken waits again, the mark goes back to what it was, a full listing is owed again |
| Derive.DerivedWhenDone | packages/vmn-exp-sdk/src/vmn_exp/core/index_derive.py:62-108 | With any number of derivers reading and writing at any moments between saves and removals, once the marker is gone every run's row is what its current record gives, its status aside, and no other key has a row |
| Derive.RecordsAreLastSaved | packages/vmn-exp-sdk/src/vmn_exp/core/index_store.py:222-251 | Through any run, whoever derives, the records are what was last saved of each: content, run state, or gone |
| Derive.RightUnlessLastStale | packages/vmn-exp-sdk/src/vmn_exp/core/index_derive.py:62-108 | In every interleaving, once the marker is gone a run's row is right, status included, if and only if the last step that touched it was not a write of a run state changed since it was read |
| Derive.StatusFollows | packages/vmn-exp-sdk/src/vmn_exp/core/index_derive.py:62-108 | At any moment of a run the status is right just when the last step to touch the row left it so |
| Derive.StatusAfter | packages/vmn-exp-sdk/src/vmn_exp/core/index_derive.py:62-108 | What one step does to a status: right after it unless it writes a stale one; steps that do not touch the row change nothing |
| Derive.StatusesWhenDone | packages/vmn-exp-sdk/src/vmn_exp/core/index_derive.py:62-108 | The status is right too when no run state was saved alone while a deriver held its record |
| Derive.StaleStatus | packages/vmn-exp-sdk/src/vmn_exp/core/index_derive.py:62-81 | That condition is needed: a run state saved alone between a deriver's read and its write leaves a stale status once deriving is done |
| Derive.StepKeeps | packages/vmn-exp-sdk/src/vmn_exp/core/index_derive.py:62-108 | Each step of a deriver or a save keeps tables and derivers right |
| Derive.RunKeeps | packages/vmn-exp-sdk/src/vmn_exp/core/index_derive.py:62-108 | So does every run from an upgraded file |
| Derive.DerivedTables.DecodedChunk | packages/vmn-exp-sdk/src/vmn_exp/core/index_derive.py:51-59 | The first records past the marker in key order, as they are stored: as many as asked for, or all that are left |
| Derive.DerivedTables.WriteChunk | packages/vmn-exp-sdk/src/vmn_exp/core/index_derive.py:62-81 | The rows of a chunk in one transaction: nothing if the marker moved, and no record saved again since it was read |
| Derive.DerivedTables.DeriveChunk | packages/vmn-exp-sdk/src/vmn_exp/core/index_derive.py:62-81 | A step of the loop keeps the tables right and leaves fewer records to derive; it takes a whole chunk or all that are left, and taking none means the marker is gone |
| Derive.DerivedTables.Derive | packages/vmn-exp-sdk/src/vmn_exp/core/index_derive.py:159-175 | Alone, deriving ends with every row, status included, as its record gives it |
| LeanTree.FixedIsRight | packages/vmn-exp-sdk/src/vmn_exp/core/index_lean_tree.py:16-29 | Roots right before a save are all right after it once those at or below the changed runs are derived again: nothing else needs visiting, missing parents and cycles allowed |
| LeanTree.LocalIsBulk | packages/vmn-exp-sdk/src/vmn_exp/core/index_lean_tree.py:32-43 | The local repair leaves exactly the rows the scan of all rows leaves |
| LeanTree.UntouchedRoot | packages/vmn-exp-sdk/src/vmn_exp/core/index_lean_tree.py:73-87 | A run with no change at or above it has the root it had |
| LeanTree.MovedIsEnough | packages/vmn-exp-sdk/src/vmn_exp/core/index_lean_store.py:68-90 | The runs whose parent link appeared, moved or went are all a save can change |
| LeanTree.RootIsTop | packages/vmn-exp-sdk/src/vmn_exp/core/tree.py:77-85 | A root is reached by parent links and nothing new is above it; no root means no parent, or a run its own parent |
| LeanTree.AncestorsAreAbove | packages/vmn-exp-sdk/src/vmn_exp/core/tree.py:77-85 | The chain climbed is exactly the runs reachable by parent links, once each, cycles ending it |
| LeanTree.ClosedHoldsUnder | packages/vmn-exp-sdk/src/vmn_exp/core/index_lean_tree.py:73-87 | A walk down that leaves no child out holds every run under where it began |
| LeanTree.Below | packages/vmn-exp-sdk/src/vmn_exp/core/index_lean_tree.py:73-87 | The walk finds exactly the present runs at or under the given ones, each once |
| LeanTree.Chain | packages/vmn-exp-sdk/src/vmn_exp/core/tree.py:77-85 | The loop climbing parent links gives the ancestors |
| LeanTree.LeanRows.WriteLean | packages/vmn-exp-sdk/src/vmn_exp/core/index_lean_store.py:68-90 | After a save's upserts and removals every stored root is right |
| LeanTree.LeanRows.FixRoots | packages/vmn-exp-sdk/src/vmn_exp/core/index_lean_tree.py:16-29 | Few or many changed runs, every stored root is right and no other column changes |
| LeanTree.LeanRows.FixAll | packages/vmn-exp-sdk/src/vmn_exp/core/index_lean_tree.py:32-43 | The bulk scan derives every root anew |
| LeanTree.LeanRows.Fix | packages/vmn-exp-sdk/src/vmn_exp/core/index_lean_tree.py:16-29 | Just the given rows get their root |
| LeanTree.FixedJustThose | packages/vmn-exp-sdk/src/vmn_exp/core/index_lean_tree.py:16-29 | Just the rows given get another root, their topmost ancestor, and no row another column |
| Forest.BestSubset | packages/vmn-exp-sdk/src/vmn_exp/core/forest.py:7-9 | Breiman's theorem for the squared error: if the bins with the lowest and the highest mean hold MIN_LEAF rows, what no legal cut in mean order beats, no subset of the bins does |
| Forest.SubsetsGainNoMore | packages/vmn-exp-sdk/src/vmn_exp/core/forest.py:76-103 | For any subset of the bins some cut of them sorted by mean gains at least as much, or the subset gains nothing |
| Forest.ScanFindsBestSubset | packages/vmn-exp-sdk/src/vmn_exp/core/forest.py:76-103 | What no legal cut in mean order beats is the optimum over all subsets of the bins if and only if no cut skipped for a side too small gains more; with wide ends none is skipped |
| Forest.SkippedCutLoses | packages/vmn-exp-sdk/src/vmn_exp/core/forest.py:76-103 | Such skipped cuts exist: bins where every legal cut gains less than a legal subset |
| Forest.BestThreshold | packages/vmn-exp-sdk/src/vmn_exp/core/forest.py:76-103 | On an ordered column no threshold leaving MIN_LEAF rows on both sides gains more |
| Forest.ThresholdCut | packages/vmn-exp-sdk/src/vmn_exp/core/forest.py:76-103 | Every threshold's left side is a cut of the bins in bin order, with the same gain and size |
| Forest.DropIs | packages/vmn-exp-sdk/src/vmn_exp/core/forest.py:76-103 | The reduction in squared error, SSE(parent) - SSE(left) - SSE(right), is what the sides' sums and sizes explain beyond the whole's, the expression the scan maximises |
| Forest.SSEIs | packages/vmn-exp-sdk/src/vmn_exp/core/forest.py:76-103 | The squared error about the mean is the sum of squares less what the mean explains |
| Forest.SubsetGainIsDrop | packages/vmn-exp-sdk/src/vmn_exp/core/forest.py:67-73 | The gain computed from the histogram is the reduction in squared error of the rows themselves |
| Forest.CutIsDrop | packages/vmn-exp-sdk/src/vmn_exp/core/forest.py:76-103 | So is a cut's, and its size is the number of rows it takes |
| Forest.PartedAtSize | packages/vmn-exp-sdk/src/vmn_exp/core/forest.py:45-64 | The rows a split carries are the node's, its left ones first and `size` of them, and its gain is SSE(parent) - SSE(left) - SSE(right) |
| Forest.HistogramSums | packages/vmn-exp-sdk/src/vmn_exp/core/forest.py:67-73 | Over any parting of the bins the histogram counts and sums what the rows do |
| Forest.SortRowsSorts | packages/vmn-exp-sdk/src/vmn_exp/core/forest.py:76-103 | Rows sorted by bin, none lost |
| Forest.SortBinsSorts | packages/vmn-exp-sdk/src/vmn_exp/core/forest.py:76-103 | Bins sorted by mean, none lost |
| Forest.SortedDropsSame | packages/vmn-exp-sdk/src/vmn_exp/core/forest.py:76-103 | Sorting the rows changes no reduction in error |
| Forest.HistogramOf | packages/vmn-exp-sdk/src/vmn_exp/core/forest.py:67-73 | The loop over sorted rows builds that histogram |
| Forest.BestCut | packages/vmn-exp-sdk/src/vmn_exp/core/forest.py:76-103 | One scan with running left sums finds a legal cut no legal cut beats, its gain and size; none when none gains |
| Forest.BestSplit | packages/vmn-exp-sdk/src/vmn_exp/core/forest.py:76-103 | The split returned is a legal cut's, no legal cut gains more, and on an unordered column no subset does if and only if no skipped cut does, as with wide ends |
| Fold.FoldIgnoresOrder | packages/vmn-exp-sdk/src/vmn_exp/core/fold.py:230-262 | With the rewinds known, entries of distinct keys fold to the same in any order |
| Fold.FoldIgnoresChunks | packages/vmn-exp-sdk/src/vmn_exp/core/fold.py:265-270 | However the writers' logs are cut into chunks and interleaved, they fold to the same |
| Fold.UpdatedIsScratch | packages/vmn-exp-sdk/src/vmn_exp/core/fold.py:77-95 | Folding on from what was known, then refolding once if stale, is folding from scratch; the one refold is never stale |
| Fold.RewindsLearned | packages/vmn-exp-sdk/src/vmn_exp/core/fold.py:89-95 | A fold ends with every rewind it started with or met, and is stale just when it met one it did not know |
| Fold.KeyedOnce | packages/vmn-exp-sdk/src/vmn_exp/core/fold.py:265-270 | An entry is keyed once, at its writer's position, whatever the chunks |
| Fold.HiddenExactly | packages/vmn-exp-sdk/src/vmn_exp/core/rewind.py:36-47 | Hidden are just the entries with a step that a rewind to a lower one follows in the merged order |
| Fold.TagIsLatest | packages/vmn-exp-sdk/src/vmn_exp/core/fold.py:133-139 | A tag holds the write of greatest key that no rewind hides, a removal included |
| Fold.TagShown | packages/vmn-exp-sdk/src/vmn_exp/core/fold.py:336-342 | A tag is shown with the value that the latest visible entry naming it set, and not at all when that entry removed it or none names it |
| Fold.ParamIsLatest | packages/vmn-exp-sdk/src/vmn_exp/core/fold.py:121-130 | A param holds the greatest-key value no rewind hides |
| Fold.SlotIsLatest | packages/vmn-exp-sdk/src/vmn_exp/core/fold.py:142-184 | So do inputs, outputs, definitions and the intent |
| Fold.MetricSumsUp | packages/vmn-exp-sdk/src/vmn_exp/core/fold.py:202-216 | A metric's cell has the last, first, least, greatest, count and sum of the logged values no rewind hides, a same-named param's number only when none was logged |
| Fold.FeaturesAreHighest | packages/vmn-exp-sdk/src/vmn_exp/core/fold.py:172-177 | Features come from the highest version, then the greatest key |
| Fold.CreateIsFirst | packages/vmn-exp-sdk/src/vmn_exp/core/fold.py:186-194 | The create note is the least-key one |
| Fold.LastMetricIsLatest | packages/vmn-exp-sdk/src/vmn_exp/core/fold.py:257-260 | The last metric is the greatest key of the visible entries with logged values |
| Fold.LogOfHolds | packages/vmn-exp-sdk/src/vmn_exp/core/index_logs.py:66-90 | A writer's log, which its positions count along, is all that arrived of it and nothing of another |
| Fold.NumberGivesWay | packages/vmn-exp-sdk/src/vmn_exp/core/fold.py:202-207 | A param and a logged value of one name fold to the same in either order: the logged value wins |
| Fold.FoldedCommutes | packages/vmn-exp-sdk/src/vmn_exp/core/fold.py:230-262 | Two entries of different keys fold to the same in either order, field by field |
| Fold.LogFold.LearnRewind | packages/vmn-exp-sdk/src/vmn_exp/core/fold.py:89-95 | A new marker is learned and makes the fold stale |
| Fold.LogFold.Apply | packages/vmn-exp-sdk/src/vmn_exp/core/fold.py:230-262 | One entry's effect on every field of the fold: hidden ones and rewinds change nothing else |
| Fold.LogFold.ApplyEntries | packages/vmn-exp-sdk/src/vmn_exp/core/fold.py:265-270 | A writer's entries fold one by one at consecutive positions |
| Fold.KeepEach | packages/vmn-exp-sdk/src/vmn_exp/core/fold.py:121-130 | Each name written keeps the later of what it held and what is written |
| Fold.LogEach | packages/vmn-exp-sdk/src/vmn_exp/core/fold.py:210-216 | Each metric logged takes its value in |
| FoldSums.SumsReplayHeaders | packages/vmn-exp-sdk/src/vmn_exp/core/fold_blocks.py:52-57 | Replaying a writer's accumulated sums folds to what its block headers fold to one at a time |
| FoldSums.HeaderIsPoints | packages/vmn-exp-sdk/src/vmn_exp/core/fold_blocks.py:45-67 | A header folds to what its points fold to one by one if and only if its first and last points are first and last in the order of their timestamps as strings; with increasing timestamps this fails only around whole seconds |
| FoldSums.SumsCoverBlocks | packages/vmn-exp-sdk/src/vmn_exp/core/fold_blocks.py:32-42 | If the sums' bounds show that no rewind can hide a point, none of the blocks' do |
| FoldSums.HiddenMayBeRewound | packages/vmn-exp-sdk/src/vmn_exp/core/fold_blocks.py:32-42 | A rewind that hides a point of a block is noticed by the bounds check, unless it fell on a whole second |
| FoldSums.WholeSecondHides | packages/vmn-exp-sdk/src/vmn_exp/core/metric_time.py:24-27 | On a whole second it is not: the string of a whole second sorts after its fractions, and such a rewind hides a point the block is folded without looking at |
| FoldSums.RankFollowsTime | packages/vmn-exp-sdk/src/vmn_exp/core/metric_time.py:24-27 | Otherwise string order follows time |
| FoldSums.CombinedFoldsBoth | packages/vmn-exp-sdk/src/vmn_exp/core/fold_sums.py:45-73 | Two key entries combined fold to what folding one after the other does |
| FoldSums.SinglesAddUp | packages/vmn-exp-sdk/src/vmn_exp/core/fold_sums.py:32-73 | Single points combined have their count, finite summary and first and last points by key |
| FoldSums.SumsBound | packages/vmn-exp-sdk/src/vmn_exp/core/fold_sums.py:56-59 | The sums' time and step bounds take in each block's |
| RecordFold.SameShown | packages/vmn-exp-sdk/src/vmn_exp/core/fold.py:230-262 | Folds of the same log entries and the same stream points, in any order and at any positions, are the same but for the positions in keys of metric values, if no point ties with a rewind or with anything of its metric |
| RecordFold.LogsAlone | packages/vmn-exp-sdk/src/vmn_exp/core/fold.py:230-262 | Points change metric cells and the last metric only; all else is the log entries' alone |
| RecordFold.HeaderFoldsPoints | packages/vmn-exp-sdk/src/vmn_exp/core/fold_blocks.py:45-87 | A header's key folds into a record to what its points do one by one, base key, cell and last metric, if none is hidden and its ends are so in string order |
| RecordFold.SumsFoldPoints | packages/vmn-exp-sdk/src/vmn_exp/core/fold_blocks.py:52-57 | A key of a writer's sums folds into a record to what all the points of its blocks do one by one |
| RecordFold.NoneHidden | packages/vmn-exp-sdk/src/vmn_exp/core/fold_blocks.py:32-42 | A block whose header the check clears has no point that a rewind hides, if rewinds that hide one are noticed |
| RecordFold.OffSecondsNoticed | packages/vmn-exp-sdk/src/vmn_exp/core/fold_blocks.py:32-42 | Rewinds off whole seconds are noticed in every block whose first point is earliest and whose last has the greatest step |
| RecordFold.NoticedWhen | packages/vmn-exp-sdk/src/vmn_exp/core/fold_blocks.py:32-42 | In a file in order of step a rewind that hides a point is noticed exactly when the first of that order is no later than the rewind |
| RecordFold.RedoneLowerMissed | packages/vmn-exp-sdk/src/vmn_exp/core/metric_index_file.py:26-30 | So one redone at a lower step than any before it is not: a rewound point stays folded |
| RecordFold.TiesTell | packages/vmn-exp-sdk/src/vmn_exp/core/metric_index_file.py:26-30 | Ties are excluded for a reason: two points of one key at one timestamp fold to other last values in the two orders that a stream and its file by steps may have them in |
| RecordFold.UsReadBack | packages/vmn-exp-sdk/src/vmn_exp/core/metric_time.py:24-27 | The time of a timestamp's string is read back |
| RecordFold.BaseKeyReadBack | packages/vmn-exp-sdk/src/vmn_exp/core/metric_stream.py:21-39 | A metric's stream keys, its step-less twin's and what a fork copied of both record that metric |
| BlockFold.HeaderIsBlock | packages/vmn-exp-sdk/src/vmn_exp/core/fold_blocks.py:45-67 | A block of many keys folded by its header is its points folded one by one, sorted by time, but for places |
| BlockFold.RolledUpFoldsAlike | packages/vmn-exp-sdk/src/vmn_exp/core/index_metric_adopt.py:3-12 | Blocks of the same points per key, cut and placed in whatever ways, fold to the same but for places: so do folded segments and the file they are rolled up to, whatever their timestamps as long as each block's ends are so in string order |
| BlockFold.BlockFoldsPoints | packages/vmn-exp-sdk/src/vmn_exp/core/index_metrics.py:192-207 | By its header or point by point, a block folds to what its points do, and the cells stay well formed |
| BlockFold.BlockStreamsHold | packages/vmn-exp-sdk/src/vmn_exp/core/fold_blocks.py:60-72 | Either way just the block's points are folded, each once |
| BlockFold.ByTimeSorts | packages/vmn-exp-sdk/src/vmn_exp/core/fold_blocks.py:60-67 | Point by point means in order of time |
| BlockFold.ByTimeKeeps | packages/vmn-exp-sdk/src/vmn_exp/core/fold_blocks.py:60-67 | and no point of a key is lost |
| BlockFold.PlacesTaken | packages/vmn-exp-sdk/src/vmn_exp/core/fold_blocks.py:27-29 | Point by point, a block's points take the places from its base on, one each, as many as the block is counted for |
| BlockFold.PartsFoldPoints | packages/vmn-exp-sdk/src/vmn_exp/core/index_metrics.py:171-207 | Blocks one after the other fold to all their points |
| BlockFold.WithBlockRight | packages/vmn-exp-sdk/src/vmn_exp/core/fold_sums.py:18-24 | Sums widened by a block's header are the sums of its blocks so far and this one, key by key |
| BlockFold.SumCounts | packages/vmn-exp-sdk/src/vmn_exp/core/fold_sums.py:27-29 | A sum counts the points of all its blocks |
| BlockFold.SumsShown | packages/vmn-exp-sdk/src/vmn_exp/core/fold_blocks.py:32-42 | Sums the check clears have no hidden point in any block |
| BlockFold.OneSumFolds | packages/vmn-exp-sdk/src/vmn_exp/core/fold_blocks.py:52-57 | One stream key's sum folds to its points, twins sharing the base key's cell |
| BlockFold.ApplySums | packages/vmn-exp-sdk/src/vmn_exp/core/fold_blocks.py:52-57 | A writer's sums, whatever order their keys come in, fold to what all points of its blocks do |
| BlockFold.FoldInto | packages/vmn-exp-sdk/src/vmn_exp/core/index_metrics.py:202-206 | A block is folded by its header, or point by point when a known rewind may hide some |
| BlockFold.ApplyBlockPoints | packages/vmn-exp-sdk/src/vmn_exp/core/fold_blocks.py:60-67 | Point by point, each at the next place, rewinds applied |
| BlockFold.ApplyHeader | packages/vmn-exp-sdk/src/vmn_exp/core/fold_blocks.py:45-49 | Every key of the header is folded under its base key |
| BlockFold.AddBlock | packages/vmn-exp-sdk/src/vmn_exp/core/fold_sums.py:18-24 | The loop widens the sums by every key of the block |
| JsonlTail.PiecesReadAll | packages/vmn-exp-sdk/src/vmn_exp/core/jsonl_tail.py:34-46 | Reading a growing file in pieces, each from where the last stopped, gives the entries of reading it once, an unterminated last entry neither lost nor doubled |
| JsonlTail.ReadsToStop | packages/vmn-exp-sdk/src/vmn_exp/core/jsonl_tail.py:34-46 | One piece read from a stop ends at a stop and gives exactly the entries between |
| JsonlTail.StopSplits | packages/vmn-exp-sdk/src/vmn_exp/core/jsonl_tail.py:34-46 | At a stop the entries before and after are those of the whole |
| JsonlTail.SplitJoined | packages/vmn-exp-sdk/src/vmn_exp/core/jsonl_tail.py:34-46 | Two texts joined: the last line of one goes on in the first of the other |
| JsonlTail.EntriesJoined | packages/vmn-exp-sdk/src/vmn_exp/core/jsonl_tail.py:34-46 | Joined texts have the entries of both when the line between them does |
| JsonlTail.Read | packages/vmn-exp-sdk/src/vmn_exp/core/jsonl_tail.py:34-46 | The loop over complete lines gives the entries and how much was consumed |
| RecordLogs.Record.UpdateLogs | packages/vmn-exp-sdk/src/vmn_exp/core/index_logs.py:115-127 | Of a record of logs alone: whatever happened between two listings (files grown, segments added, logs compacted, rewritten or deleted, rewinds arriving late), its fold is the one of the listed files from scratch; it changes only when a signature did |
| RecordLogs.Record.BringLogs | packages/vmn-exp-sdk/src/vmn_exp/core/index_logs.py:170-191 | What was appended is folded, or the logs are folded again just when names and signatures show anything else; either way the fold holds the listed entries, and whatever points it held stay when nothing was folded again |
| RecordLogs.CompactionIsFair | packages/vmn-exp-sdk/src/vmn_exp/core/index_logs.py:39-47 | Compacted logs, a file being gone, are folded again, and nothing is assumed of their content |
| RecordLogs.RewriteIsFair | packages/vmn-exp-sdk/src/vmn_exp/core/index_logs.py:50-64 | So are rewritten files, and ones that grew before a later one that did not change |
| RecordLogs.LooksAppendedExactly | packages/vmn-exp-sdk/src/vmn_exp/core/index_logs.py:48-64 | Nothing is refolded exactly when no file is gone, each that moved is larger and of the same identity, and after a new or moved one no file of its writer is as it was |
| RecordLogs.Record.SameSigsExactly | packages/vmn-exp-sdk/src/vmn_exp/core/index_logs.py:170-191 | Nothing is read exactly when the same files are listed, unmoved |
| RecordLogs.TailsComplete | packages/vmn-exp-sdk/src/vmn_exp/core/index_logs.py:67-89 | For each writer what was folded and then the unread tails are what is listed |
| RecordLogs.AppendedIsListed | packages/vmn-exp-sdk/src/vmn_exp/core/index_logs.py:50-89 | When the check says only appends happened, the log folded so far and the tails make the listed log |
| RecordLogs.GrewFits | packages/vmn-exp-sdk/src/vmn_exp/core/index_logs.py:50-64 | What the signature check has to establish for that, it does |
| RecordLogs.KnowingIsScratch | packages/vmn-exp-sdk/src/vmn_exp/core/index_logs.py:170-191 | A fold that is not stale is the one from scratch, however the logs were cut |
| RecordLogs.KeyedOn | packages/vmn-exp-sdk/src/vmn_exp/core/index_logs.py:67-89 | Entries keyed on from where the writer's count ends are keyed as if all were read at once |
| RecordLogs.Record.Take | packages/vmn-exp-sdk/src/vmn_exp/core/index_logs.py:67-89 | A writer's next entries are folded at its next positions |
| RecordLogs.Record.ReadTail | packages/vmn-exp-sdk/src/vmn_exp/core/index_logs.py:67-89 | Just the unread part of a changed file is folded |
| RecordLogs.Record.ReadTails | packages/vmn-exp-sdk/src/vmn_exp/core/index_logs.py:67-89 | So for every listed file, in order |
| RecordLogs.Record.Refold | packages/vmn-exp-sdk/src/vmn_exp/core/index_logs.py:92-100 | A refold reads everything anew, knowing the rewinds |
| RecordLogs.Record.RewindsAre | packages/vmn-exp-sdk/src/vmn_exp/core/index_logs.py:130-138 | A record's fold knows just the rewinds listed, and is not stale exactly when it started with all of them |
| RecordLogs.Record.UpToDate | packages/vmn-exp-sdk/src/vmn_exp/core/index_logs.py:115-127 | An up-to-date record's fold is the one from scratch |
| MergedRefold.NoTiesNoHarm | packages/vmn-exp-sdk/src/vmn_exp/core/index_logs.py:103-112 | After a refold from merged logs, entries appended later start at their writer's first place; if none has a timestamp its writer had before, the fold is the right one, rewinds, cells and all, but that those places are the writer's count too low |
| MergedRefold.MergedTag | packages/vmn-exp-sdk/src/vmn_exp/core/index_logs.py:103-112 | Ties or not, a tag is right after such a refold if and only if no write of it folded before, by the writer and at the timestamp of the right one, has a later place than that one was given |
| MergedRefold.MergedParam | packages/vmn-exp-sdk/src/vmn_exp/core/index_logs.py:103-112 | So is a param |
| MergedRefold.MergedSlot | packages/vmn-exp-sdk/src/vmn_exp/core/index_logs.py:103-112 | So are inputs, outputs, definitions and the intent |
| MergedRefold.MergedLastMetric | packages/vmn-exp-sdk/src/vmn_exp/core/index_logs.py:103-112 | So is the last metric's key, by the entries with metrics |
| MergedRefold.MergedFeatures | packages/vmn-exp-sdk/src/vmn_exp/core/index_logs.py:103-112 | So are features, their version always, by those of that version |
| MergedRefold.MergedLatest | packages/vmn-exp-sdk/src/vmn_exp/core/index_logs.py:103-112 | So is a metric's last value, a param's number while nothing was logged |
| MergedRefold.MergedCreate | packages/vmn-exp-sdk/src/vmn_exp/core/index_logs.py:103-112 | The create note is right if and only if none appended since was given an earlier place than it, of its writer and timestamp |
| MergedRefold.MergedFirst | packages/vmn-exp-sdk/src/vmn_exp/core/index_logs.py:103-112 | So is a metric's first value |
| MergedRefold.MergedSeen | packages/vmn-exp-sdk/src/vmn_exp/core/index_logs.py:103-112 | A metric's bounds, count and sum are always right |
| MergedRefold.SameHiddenWhen | packages/vmn-exp-sdk/src/vmn_exp/core/rewind.py:36-47 | What these ask, that rewinds hide the same entries either way, holds if and only if no entry is hidden only by rewinds appended since that were given no later place, and none by a rewind from before that has a later place than it was given, all of one writer and timestamp |
| MergedRefold.ApartSameHidden | packages/vmn-exp-sdk/src/vmn_exp/core/rewind.py:36-47 | So it does where no rewind and entry, one of them appended since, share timestamp and writer |
| MergedRefold.NoRewindsSameHidden | packages/vmn-exp-sdk/src/vmn_exp/core/index_logs.py:103-112 | and where there are no rewinds |
| MergedRefold.MergedForgetsPlaces | packages/vmn-exp-sdk/src/vmn_exp/core/index_logs.py:103-112 | Such ties occur: an entry appended later loses to one of the same timestamp folded before |
| MergedRefold.ReadTwice | packages/vmn-exp-sdk/src/vmn_exp/core/index_logs.py:103-112 | The listed size is taken for what was read: a writer's entries are folded once each by the next update if and only if its files were read as listed |
| MergedRefold.FoldedSize | packages/vmn-exp-sdk/src/vmn_exp/core/index_logs.py:103-112 | Otherwise there are more, as many as were read past the listing |
| MergedRefold.AllMoved | packages/vmn-exp-sdk/src/vmn_exp/core/fold.py:230-262 | Moving places by timestamp and writer commutes with folding, every field and rewind |
| RecordMetrics.MissingBlockShows | packages/vmn-exp-sdk/src/vmn_exp/core/index_metric_adopt.py:43-67 | A missing block lowers the count of some key |
| RecordMetrics.Compared | packages/vmn-exp-sdk/src/vmn_exp/core/index_metric_adopt.py:43-67 | The footer's counts equal the expected ones exactly when the file has as many points of each key as were folded |
| RecordMetrics.FooterRight | packages/vmn-exp-sdk/src/vmn_exp/core/fold_blocks.py:20-24 | A footer's counts are those of the file's points, none zero |
| RecordMetrics.NotedKeepsTails | packages/vmn-exp-sdk/src/vmn_exp/core/index_metric_adopt.py:30-40 | Noting what a segment grew by keeps the counts of the segments past the latest rolled-up one right |
| RecordMetrics.Replacing | packages/vmn-exp-sdk/src/vmn_exp/core/index_metric_adopt.py:43-67 | The rolled-up file in the place of what it supersedes keeps objects and tail counts right |
| RecordMetrics.SumsCount | packages/vmn-exp-sdk/src/vmn_exp/core/fold_sums.py:27-29 | A writer's sums count the points of the blocks it folded |
| RecordMetrics.CaughtUp | packages/vmn-exp-sdk/src/vmn_exp/core/index_metrics.py:94-107 | Objects that only grew: each segment folded is a first part of the listed one, all of it where a rolled-up file covers it |
| RecordMetrics.GrewOnlyExactly | packages/vmn-exp-sdk/src/vmn_exp/core/index_metrics.py:94-101 | Nothing is refolded exactly when every folded object is listed, a segment no smaller, a rolled-up file the same, and no segment was folded where a new rolled-up file is listed |
| RecordMetrics.PartsFit | packages/vmn-exp-sdk/src/vmn_exp/core/index_metrics.py:135-152 | What was folded of a stream whose points fit may be folded again from its sums, the rewinds it was folded under being known still |
| RecordMetrics.OnlyWholeSeconds | packages/vmn-exp-sdk/src/vmn_exp/core/metric_time.py:24-27 | A rewind hides a point that is later than it only within its own, whole, second |
| RecordMetrics.WriterState.Adopted | packages/vmn-exp-sdk/src/vmn_exp/core/index_metric_adopt.py:43-67 | True exactly when sums are kept, the tail reaches far enough and the file counts as many points of each key as were folded of what it covers; otherwise nothing changes |
| RecordMetrics.WriterState.NoteTail | packages/vmn-exp-sdk/src/vmn_exp/core/index_metric_adopt.py:30-40 | The counts of the latest segments are kept, those of the segment widened |
| RecordMetrics.WriterState.Expected | packages/vmn-exp-sdk/src/vmn_exp/core/index_metric_adopt.py:43-67 | The sums' counts less the later segments' are the counts of the covered ones |
| RecordMetrics.WriterState.Seqs | packages/vmn-exp-sdk/src/vmn_exp/core/index_metric_adopt.py:74-79 | The segment numbers the objects hold or cover, all of them |
| RecordMetrics.WriterState.FoldBlock | packages/vmn-exp-sdk/src/vmn_exp/core/index_metrics.py:192-207 | A block's visible points are in the record's fold, by its header or one by one; the writer's sums are those of its blocks and this one, kept from its first point on; its positions go on |
| RecordMetrics.WriterState.FoldBlocks | packages/vmn-exp-sdk/src/vmn_exp/core/index_metrics.py:171-186 | Block after block the fold takes in just their points, and they are counted |
| RecordMetrics.WriterState.FoldSegment | packages/vmn-exp-sdk/src/vmn_exp/core/index_metrics.py:171-189 | A segment's unread blocks are folded and counted into the tail |
| RecordMetrics.WriterState.FoldIndexed | packages/vmn-exp-sdk/src/vmn_exp/core/index_metrics.py:210-213 | A rolled-up file is folded from its footer alone: just the points it holds |
| RecordMetrics.WriterState.FoldUnread | packages/vmn-exp-sdk/src/vmn_exp/core/index_metrics.py:123-128 | After folding what is unread the listed stream is folded, the points that were missing and no other |
| RecordMetrics.WriterState.FoldListed | packages/vmn-exp-sdk/src/vmn_exp/core/index_metrics.py:123-132 | From objects that only grew to the whole listed stream; a writer down to its rolled-up file keeps no sums |
| RecordMetrics.WriterState.TakeOver | packages/vmn-exp-sdk/src/vmn_exp/core/index_metrics.py:110-116 | A new rolled-up file, whatever points it holds, takes the place of folded segments if and only if sums and tail allow it and it counts as many points of each key as were folded; no point comes or goes, and if it holds what was folded, what it covers is the listed stream's |
| RecordMetrics.SpreadIsListed | packages/vmn-exp-sdk/src/vmn_exp/core/metric_files.py:72-90 | Whatever points a rolled-up file holds, those that compaction left or all, there is a stream that a listing with it is of |
| RecordMetrics.WriterState.Replay | packages/vmn-exp-sdk/src/vmn_exp/core/index_metrics.py:135-152 | Into a fresh fold, a writer's sums fold to all points it had folded, when its objects only grew and no rewind may hide one; else nothing is folded and it starts anew |
| Adoption.CountingArgument | packages/vmn-exp-sdk/src/vmn_exp/core/index_metric_adopt.py:43-67 | A first part of each segment folded: the per-key counts agree with the whole segments' if and only if no block is missing |
| Adoption.UnappliedTells | packages/vmn-exp-sdk/src/vmn_exp/core/index_metric_adopt.py:43-67 | Of a file compacted with no rewind applied the counts tell exactly when no block was unread |
| Adoption.CountsTellWhen | packages/vmn-exp-sdk/src/vmn_exp/core/index_metric_adopt.py:54-66 | Of any compacted file they tell exactly when of each key as many points were dropped as were unread |
| Adoption.HoldsSameWhen | packages/vmn-exp-sdk/src/vmn_exp/core/metric_compact.py:44-52 | It holds what was folded exactly when the points dropped are those unread |
| Adoption.NotMistaken | packages/vmn-exp-sdk/src/vmn_exp/core/metric_compact.py:103-115 | With no rewind applied, or nothing unread, counts that tell are right |
| Adoption.AdoptedMistaken | packages/vmn-exp-sdk/src/vmn_exp/core/index_metric_adopt.py:54-66 | Otherwise they may not be: a segment folded whole, a rewind hiding its second point, one point more, then compacted: adopted, the last point never read though no rewind hides it |
| Adoption.AdoptedFold | packages/vmn-exp-sdk/src/vmn_exp/core/index_metric_adopt.py:43-67 | Adopted, the fold is the one of the listed objects if every unread point is hidden, and is not if one with a finite value is visible, as long as what compaction dropped is hidden |
| Adoption.CompactedFoldsAlike | packages/vmn-exp-sdk/src/vmn_exp/core/metric_compact.py:1-15 | All of it read, a compacted file folds as the segments it took the place of, as long as what was dropped is hidden |
| Adoption.DroppedIsHidden | packages/vmn-exp-sdk/src/vmn_exp/core/series_reader.py:148-149 | What compaction drops by time the fold hides by string order, exactly unless the point is on the whole second the rewind falls in |
| Adoption.HiddenIsDropped | packages/vmn-exp-sdk/src/vmn_exp/core/series_reader.py:148-149 | What the fold hides compaction drops, exactly unless the point has the rewind's time or is later within its whole second |
| Adoption.SeenDecides | packages/vmn-exp-sdk/src/vmn_exp/core/fold.py:230-262 | Folds of the same log entries and the same visible points are the same but for places, whatever hidden points are among them |
| Adoption.LostDecides | packages/vmn-exp-sdk/src/vmn_exp/core/fold.py:230-262 | A fold that lacks some points is another if one of them is visible and finite, the same if all are hidden |
| MetricState.Metrics.FoldGrowth | packages/vmn-exp-sdk/src/vmn_exp/core/index_metrics.py:110-120 | Of all writers: the listed streams are folded, just the points that were missing, or the fold is untouched and a refold asked for; never when objects just grew |
| MetricState.Metrics.Refold | packages/vmn-exp-sdk/src/vmn_exp/core/index_metrics.py:70-80 | Into a fresh fold, from sums and objects: the listed streams are folded, each point once |
| MetricState.Metrics.FoldUnread | packages/vmn-exp-sdk/src/vmn_exp/core/index_metrics.py:123-132 | What the listed objects hold past what is folded, writer by writer |
| MetricState.Metrics.TakeAll | packages/vmn-exp-sdk/src/vmn_exp/core/index_metrics.py:110-116 | New rolled-up files take over where their counts tell, up to the first that may not; no point comes or goes |
| MetricState.Metrics.ReplayOne | packages/vmn-exp-sdk/src/vmn_exp/core/index_metrics.py:135-152 | One writer begun anew: its sums, or nothing yet |
| MetricState.GainsOn | packages/vmn-exp-sdk/src/vmn_exp/core/index_metrics.py:123-128 | Points gained in two steps are those gained in both |
| MetricState.AllCurrent | packages/vmn-exp-sdk/src/vmn_exp/core/index_metrics.py:94-101 | Once the listed writers are brought up to date nothing is left of the unlisted ones |
| RecordUpdate.Record.Update | packages/vmn-exp-sdk/src/vmn_exp/core/index_logs.py:115-138 | After any update (logs appended to, compacted or rewritten, metric objects grown, rolled up, rolled up further, with rewound points dropped or not, gone or rewritten, rewinds logged late) the record is up to date with both listings: its fold is, but for places, the one from scratch of the listed log entries and of the listed metric objects point by point, as long as no new rolled-up file counts what was folded and holds something else; unchanged signatures change nothing; the next update may follow |
| RecordUpdate.Record.UpToDate | packages/vmn-exp-sdk/src/vmn_exp/core/index_logs.py:130-138 | The same of any up to date record, whatever its history |
| RecordUpdate.AgreesWithScratch | packages/vmn-exp-sdk/src/vmn_exp/core/fold.py:230-262 | A fold of the listed entries and points, in whatever order and ways they came, is the fold from scratch but for places |
| RecordUpdate.Record.UpdateLogs | packages/vmn-exp-sdk/src/vmn_exp/core/index_logs.py:170-191 | Logs are brought up to date; a refold for their sake folds the metric objects again |
| RecordUpdate.Record.UpdateMetrics | packages/vmn-exp-sdk/src/vmn_exp/core/index_metrics.py:60-67 | Metric growth is folded unless the signatures are those folded; the record is folded again when it cannot be |
| RecordUpdate.Record.RefoldAll | packages/vmn-exp-sdk/src/vmn_exp/core/index_logs.py:154-157 | Logs and metrics folded again, knowing the rewinds given; knowing all of them the fold is not stale |
| RecordUpdate.Record.RefoldMetrics | packages/vmn-exp-sdk/src/vmn_exp/core/index_metrics.py:70-80 | Into a fold of logs alone come just the points of the listed objects |
| RecordUpdate.Record.GrowMetrics | packages/vmn-exp-sdk/src/vmn_exp/core/index_metrics.py:110-120 | Metric growth is folded on top, or a refold asked for |
| RecordUpdate.VisiblePoints | packages/vmn-exp-sdk/src/vmn_exp/core/metric_files.py:72-90 | The objects a listing shows of a writer hold the points of its stream |
| RecordUpdate.CourseOn | packages/vmn-exp-sdk/src/vmn_exp/core/index_metrics.py:94-107 | What was folded at one listing is on course for the next, as far as names, sizes and counts tell |
| StreamNames.NameReadBack | packages/vmn-exp-sdk/src/vmn_exp/core/logfiles.py:33-42 | A log object's name reads back as its writer and the segments it holds, single or compacted |
| StreamNames.SegmentReadBack | packages/vmn-exp-sdk/src/vmn_exp/core/logfiles.py:83-84 | A segment's stem reads back, the first one's being the writer alone, for any writer without the separator |
| StreamNames.MergedReadBack | packages/vmn-exp-sdk/src/vmn_exp/core/logfiles.py:87-89 | A compacted object's stem reads back as all segments up to its last |
| StreamNames.RunShowsAll | packages/vmn-exp-sdk/src/vmn_exp/core/logfiles.py:92-110 | Whatever a writer's log went through (segments added, merged wider, superseded ones deleted in any order or left behind), the names shown hold each segment exactly once and in order |
| StreamNames.ShownHoldsAll | packages/vmn-exp-sdk/src/vmn_exp/core/logfiles.py:92-99 | So for every sound listing |
| StreamNames.ShownIsDue | packages/vmn-exp-sdk/src/vmn_exp/core/logfiles.py:92-99 | What is shown is the widest merged log and the segments after it |
| StreamNames.AppendsCounted | packages/vmn-exp-sdk/src/vmn_exp/core/logfiles.py:83-89 | A stream has as many segments as were appended to it |
| StreamNames.PaddedWidth | packages/vmn-exp-sdk/src/vmn_exp/core/logfiles.py:83-89 | Numbers in names have six characters at least, zeros before the digits |
| StreamNames.SpansOfHolds | packages/vmn-exp-sdk/src/vmn_exp/core/logfiles.py:102-110 | A writer's group is made of the spans of its names and no other's, each as often |
| StreamNames.ObjectsOfHolds | packages/vmn-exp-sdk/src/vmn_exp/core/metric_files.py:72-90 | and so for its metric objects |
| StreamNames.RunShowsAllMetrics | packages/vmn-exp-sdk/src/vmn_exp/core/metric_files.py:72-90 | The same for metric objects, whose rolled-up file may cover a single segment |
| StreamNames.MetricsHoldAll | packages/vmn-exp-sdk/src/vmn_exp/core/metric_files.py:72-90 | So for every sound listing |
| StreamNames.SupersededIsHidden | packages/vmn-exp-sdk/src/vmn_exp/core/metric_files.py:93-105 | `superseded` names exactly the objects the widest rolled-up file keeps from being shown |
| StreamNames.TilesHoldOnce | packages/vmn-exp-sdk/src/vmn_exp/core/logfiles.py:102-110 | Names that tile the stream hold each segment in exactly one object, later ones later |
| StreamNames.RunKeeps | packages/vmn-exp-sdk/src/vmn_exp/core/logfiles.py:83-110 | In every run of appends, merges and deletions no segment is without an object |
| StreamNames.StepKeeps | packages/vmn-exp-sdk/src/vmn_exp/core/logfiles.py:83-110 | Each step keeps that |
| StreamNames.GroupLogNames | packages/vmn-exp-sdk/src/vmn_exp/core/logfiles.py:102-110 | Names grouped by writer, each writer's visible ones in order |
| StreamNames.GroupMetricNames | packages/vmn-exp-sdk/src/vmn_exp/core/metric_files.py:72-90 | The same for metric objects |
| StreamNames.DigitsValue | packages/vmn-exp-sdk/src/vmn_exp/core/logfiles.py:33-42 | A number written in digits reads back |
| LineageIndex.LineageIndex.Moved | packages/vmn-exp-sdk/src/vmn_exp/core/lineage_index.py:81-103 | The index moved along with joined and left rows is the one built from the new rows: the same groups and entries in row order, no empty group; the index moved from is unchanged |
| LineageIndex.LineageIndex.constructor | packages/vmn-exp-sdk/src/vmn_exp/core/lineage_index.py:48-58 | Built from rows, each group holds the entries of every row in row order |
| LineageIndex.LineageIndex.Regroups | packages/vmn-exp-sdk/src/vmn_exp/core/lineage_index.py:81-103 | Every group a moved row is in is brought to the new rows; the others already are |
| LineageIndex.LineageIndex.Regroup | packages/vmn-exp-sdk/src/vmn_exp/core/lineage_index.py:105-121 | A group's parts swapped for others, row order kept, an emptied group dropped, no other group touched |
| LineageIndex.LineageIndex.AddRow | packages/vmn-exp-sdk/src/vmn_exp/core/lineage_index.py:48-58 | One more row's entries go to their groups |
| LineageIndex.MovedGroup | packages/vmn-exp-sdk/src/vmn_exp/core/lineage_index.py:81-121 | A group whose runs were swapped and that is in row order is the new rows' group |
| LineageIndex.SwappedIsNew | packages/vmn-exp-sdk/src/vmn_exp/core/lineage_index.py:139-142 | A run's entries after the swap are what the new rows say, for rows that stay, leave, join or change |
| LineageIndex.SameByRun | packages/vmn-exp-sdk/src/vmn_exp/core/lineage_index.py:105-136 | Row order and each run's own entries determine a group |
| LineageIndex.GroupSorted | packages/vmn-exp-sdk/src/vmn_exp/core/lineage_index.py:48-58 | Built groups are in row order |
| LineageIndex.OfGroup | packages/vmn-exp-sdk/src/vmn_exp/core/lineage_index.py:48-58 | A row adds its entries to a group once, and only its own |
| LineageIndex.GroupHolds | packages/vmn-exp-sdk/src/vmn_exp/core/lineage_index.py:63-79 | A group holds an entry just when some row says so |
| LineageIndex.EntriesSay | packages/vmn-exp-sdk/src/vmn_exp/core/lineage_index.py:63-79 | A row says so just when one of its inputs or outputs does |
| LineageIndex.MovedTable | packages/vmn-exp-sdk/src/vmn_exp/core/lineage_index.py:81-103 | The table of rows moved along is the new rows' table |
| LineageIndex.After | packages/vmn-exp-sdk/src/vmn_exp/core/lineage_index.py:126-136 | The bisect finds the first entry of a row past a place |
| LineageIndex.Insert | packages/vmn-exp-sdk/src/vmn_exp/core/lineage_index.py:105-121 | Entries put in row order among others in row order, each run's own kept in order |
| LineageIndex.Swap | packages/vmn-exp-sdk/src/vmn_exp/core/lineage_index.py:105-121 | A group's list with some runs' parts swapped for others |
| LineageIndex.InPlaceOrder | packages/vmn-exp-sdk/src/vmn_exp/core/lineage_index.py:105-121 | The parts in the order of their rows |
| LineageIndex.Grouped | packages/vmn-exp-sdk/src/vmn_exp/core/lineage_index.py:145-152 | Rows' entries by group and row |
| LineageWalk.Walk.Run | packages/vmn-exp-sdk/src/vmn_exp/core/lineage.py:101-171 | Untruncated, the walk's nodes are exactly the runs within `depth` of the start in the plain edge graph, each at its shortest distance with every link from the previous level and no other, although groups walked before are skipped; truncated, it holds the limit's number of them, all right, and one more was to be reached |
| LineageWalk.Walk.Expand | packages/vmn-exp-sdk/src/vmn_exp/core/lineage.py:129-149 | One level: the runs first reached, all links into them, or a stop at the first past the limit |
| LineageWalk.Walk.ExpandRun | packages/vmn-exp-sdk/src/vmn_exp/core/lineage.py:129-149 | Every edge of one run is covered, skipped groups included |
| LineageWalk.Walk.WalkBatch | packages/vmn-exp-sdk/src/vmn_exp/core/lineage.py:129-149 | A batch's edges, each covered, until the limit |
| LineageWalk.Walk.Take | packages/vmn-exp-sdk/src/vmn_exp/core/lineage.py:162-170 | A link is attached once to a run of this level, a new run added within the limit, one of an earlier level left alone |
| LineageWalk.Walk.Skips | packages/vmn-exp-sdk/src/vmn_exp/core/lineage.py:151-160 | A batch is skipped when its group was walked at an earlier level, or at this one in the same context |
| LineageWalk.WalkedAddsNothing | packages/vmn-exp-sdk/src/vmn_exp/core/lineage.py:151-160 | A batch walked is skipped the next time at its level, and what was skipped before still is |
| LineageWalk.GroupsNextLevel | packages/vmn-exp-sdk/src/vmn_exp/core/lineage.py:151-160 | Groups walked by one level lead nowhere new from the next |
| LineageWalk.LevelFound | packages/vmn-exp-sdk/src/vmn_exp/core/lineage.py:129-149 | With every edge of the frontier covered, the level is exactly what is at that distance |
| LineageWalk.NewIsSound | packages/vmn-exp-sdk/src/vmn_exp/core/lineage.py:162-170 | A run added at a level is at that distance, its links from the level before |
| LineageWalk.LastLevelLeads | packages/vmn-exp-sdk/src/vmn_exp/core/lineage.py:121-127 | What is first within n + 1 hangs on something at distance n |
| LineageWalk.NothingFurther | packages/vmn-exp-sdk/src/vmn_exp/core/lineage.py:121-127 | An empty level ends the graph: stopping early loses nothing |
| LineageWalk.UpstreamAgrees | packages/vmn-exp-sdk/src/vmn_exp/core/lineage.py:41-56 | One app's upstream batches meet what skipping groups needs |
| LineageWalk.DownstreamAgrees | packages/vmn-exp-sdk/src/vmn_exp/core/lineage.py:59-71 | So do its downstream ones |
| LineageWalk.UpstreamIsJoin | packages/vmn-exp-sdk/src/vmn_exp/core/lineage.py:41-56 | Edges up from a run are the join over the rows: an input and what made it |
| LineageWalk.DownstreamIsJoin | packages/vmn-exp-sdk/src/vmn_exp/core/lineage.py:59-71 | Edges down from a run are the join over the rows: what took it by name, or one of its outputs by digest |
| LineageWalk.OutputIsJoin | packages/vmn-exp-sdk/src/vmn_exp/core/lineage.py:59-71 | Output by output |
| LineageWalk.NamedIsJoin | packages/vmn-exp-sdk/src/vmn_exp/core/lineage.py:59-71 | and by name |
| LineageWalk.BatchIsJoin | packages/vmn-exp-sdk/src/vmn_exp/core/lineage.py:41-56 | Input by input, registry inputs aside |
| LineageWalk.Resolve | packages/vmn-exp-sdk/src/vmn_exp/core/lineage.py:173-207 | None just when there is no such run, else the walks both ways, of at least one level |
| GoalCounting.GoalCounts.Move | packages/vmn-exp-sdk/src/vmn_exp/core/goal_counts.py:19-29 | Kept counts stay exactly the recount over all runs when one run's declaration moves from anything to anything |
| GoalCounting.GoalCounts.Add | packages/vmn-exp-sdk/src/vmn_exp/core/goal_counts.py:31-39 | One count moves by one, zero counts and names without counts left out, no other count touched |
| GoalCounting.GoalCounts.Share | packages/vmn-exp-sdk/src/vmn_exp/core/goal_counts.py:41-45 | What is handed out is the counts as of now |
| GoalCounting.CountMoves | packages/vmn-exp-sdk/src/vmn_exp/core/metric_schema.py:89-100 | How a move changes the number of runs declaring a goal |
| GoalCounting.RecountIsOne | packages/vmn-exp-sdk/src/vmn_exp/core/metric_schema.py:94-100 | Two recounts of the same declarations are equal |
| SnapshotRows.RowCache.TakeSnapshot | packages/vmn-exp-sdk/src/vmn_exp/core/index_snapshot.py:327-342 | Whether rows were patched, appended or rebuilt, the snapshot is, field by field, that of the records in order: a row's idx its place, its metadata and body the record's, so note, edge, run state and observation time, every sparse side table as the log folded, goals a recount; nothing is built anew exactly when the order only grew and no run's verstr moved |
| SnapshotRows.SnapshotIsOne | packages/vmn-exp-sdk/src/vmn_exp/core/index_snapshot.py:327-342 | There is one snapshot of given records in a given order |
| SnapshotRows.PutKeepsMaps | packages/vmn-exp-sdk/src/vmn_exp/core/index_snapshot_maps.py:29-45 | A run put over itself or appended keeps every map what the rows say |
| SnapshotRows.RowCache.Bring | packages/vmn-exp-sdk/src/vmn_exp/core/index_snapshot.py:327-342 | Patched when the order only grew, else rebuilt; the same list and maps either way |
| SnapshotRows.RowCache.Patch | packages/vmn-exp-sdk/src/vmn_exp/core/index_snapshot.py:344-354 | The touched rows are swapped in place, or it says that a verstr moved |
| SnapshotRows.RowCache.Rebuild | packages/vmn-exp-sdk/src/vmn_exp/core/index_snapshot.py:356-362 | Every record put anew |
| SnapshotRows.RowCache.Put | packages/vmn-exp-sdk/src/vmn_exp/core/index_snapshot.py:364-374 | One record's row and maps at its place |
| SnapshotRows.RowCache.Row | packages/vmn-exp-sdk/src/vmn_exp/core/index_snapshot.py:313-319 | The cached row, renumbered or folded, is the record's row at that place |
| SnapshotRows.SnapshotMaps.Put | packages/vmn-exp-sdk/src/vmn_exp/core/index_snapshot_maps.py:29-45 | A run's values in the pending changes: empty side values take their entry out, counts move with the declaration |
| SnapshotRows.SnapshotMaps.Shared | packages/vmn-exp-sdk/src/vmn_exp/core/index_snapshot_maps.py:53-64 | Changes folded into the maps handed out leave the same view, the counts a recount of it |
| SnapshotRows.SnapshotMaps.Current | packages/vmn-exp-sdk/src/vmn_exp/core/index_snapshot_maps.py:47-51 | A run's declarations with pending changes and removals |
| IndexPublish.Index.Apply | packages/vmn-exp-sdk/src/vmn_exp/core/index.py:653-677 | A refresh's new, changed, re-described and removed records are in; held back, the published snapshot stays; otherwise it is the snapshot of all records in storage order |
| IndexPublish.Index.PublishPending | packages/vmn-exp-sdk/src/vmn_exp/core/index.py:694-704 | Whatever refreshes were held back, what is published is the snapshot of all records, sorted by timestamp and key |
| IndexPublish.Index.SortedKeys | packages/vmn-exp-sdk/src/vmn_exp/core/index.py:897-918 | New keys bisected in, or all sorted: the keys in order of timestamp and key |
| IndexPublish.Index.ApplyOne | packages/vmn-exp-sdk/src/vmn_exp/core/index.py:653-677 | One result's part in what has to be published: new, re-described, touched |
| IndexPublish.Index.Reorder | packages/vmn-exp-sdk/src/vmn_exp/core/index.py:694-704 | The order kept unless keys came or went or a timestamp moved |
| IndexPublish.ResultKeeps | packages/vmn-exp-sdk/src/vmn_exp/core/index.py:653-677 | Holding one more result back keeps the account of what differs from the published order and rows |
| IndexPublish.LastResultHolds | packages/vmn-exp-sdk/src/vmn_exp/core/index.py:653-677 | After a refresh each key has the record of the last result that brought one for it, else what it had |
| IndexPublish.RemovalKeeps | packages/vmn-exp-sdk/src/vmn_exp/core/index.py:653-677 | So does a removal, after which everything is sorted and nothing is patched |
| IndexPublish.InsertedRises | packages/vmn-exp-sdk/src/vmn_exp/core/index.py:897-918 | A stamp bisected into place keeps the order and adds just itself |
| IndexPublish.OrderRuns | packages/vmn-exp-sdk/src/vmn_exp/core/index.py:897-918 | Sorted stamps are an order of all runs, each once |
| IndexPublish.SnapshotStays | packages/vmn-exp-sdk/src/vmn_exp/core/index.py:694-704 | A snapshot of records that did not change is still theirs |
| IndexPublish.InsertNew | packages/vmn-exp-sdk/src/vmn_exp/core/index.py:897-918 | New records bisected in one at a time give the sorted keys |
| IndexPublish.BisectRight | packages/vmn-exp-sdk/src/vmn_exp/core/index.py:897-918 | The place after every stamp not above |
| IndexPublish.BulkPublish.Add | packages/vmn-exp-sdk/src/vmn_exp/core/index_bulk.py:34-38 | What is held back accumulates: keys, touched ones, whether to sort, whether a record went |
| IndexPublish.BulkPublish.Take | packages/vmn-exp-sdk/src/vmn_exp/core/index_bulk.py:51-56 | All of it is handed over once; touched keys only while no record went |
| JournalReading.NothingTwice | packages/vmn-exp-sdk/src/vmn_exp/core/journal_reader.py:72-99 | With a clock that does not go back no key is reported by two ticks, although seen keys are forgotten and most ticks list only the last minutes |
| JournalReading.NothingMissed | packages/vmn-exp-sdk/src/vmn_exp/core/journal_reader.py:72-99 | A key listable within the window less the rescan time of its timestamp is reported by the first rescan after that if and only if the look-back did not cut it off; so on the first tick, a resumed reader's replay, for what was listable from a rescan time before the reading it was resumed from on |
| JournalReading.RecentIsReported | packages/vmn-exp-sdk/src/vmn_exp/core/journal_reader.py:82-99 | A key of the last minute that can be listed at a tick, rescan or not, and is within its window, is reported by it unless it was before |
| JournalReading.OnlyRecent | packages/vmn-exp-sdk/src/vmn_exp/core/journal_reader.py:82-99 | and a tick that is no rescan reports nothing older |
| JournalReading.ReplayReports | packages/vmn-exp-sdk/src/vmn_exp/core/journal_reader.py:66-80 | The first tick of a resumed reader reports, of the keys listed, exactly those not handed over that lie within the skew window before the cursor and are not cut off |
| JournalReading.CutOffLoses | packages/vmn-exp-sdk/src/vmn_exp/core/journal_reader.py:43-59 | With every look-back some key is lost: listable right after its timestamp, and the next tick comes later than the look-back reaches |
| JournalReading.CutOffStays | packages/vmn-exp-sdk/src/vmn_exp/core/journal_reader.py:43-59 | A key the look-back cuts off is never reported: the look-back counts from the present tick, so a long gap between ticks loses keys |
| JournalReading.ResumeRepeats | packages/vmn-exp-sdk/src/vmn_exp/core/journal_reader.py:66-70 | A reader resumed from its cursor reports again just the window's keys before the cursor's time, though the code's comment says its window starts there |
| JournalReading.StartsRise | packages/vmn-exp-sdk/src/vmn_exp/core/journal_reader.py:72-80 | The window's start does not go back |
| JournalReading.ReportedIsRemembered | packages/vmn-exp-sdk/src/vmn_exp/core/journal_reader.py:119-120 | A reported key is remembered until the window left it |
| JournalReading.LastRescan | packages/vmn-exp-sdk/src/vmn_exp/core/journal_reader.py:82-89 | The last rescan was this tick or less than a rescan time ago |
| JournalReading.RescansApart | packages/vmn-exp-sdk/src/vmn_exp/core/journal_reader.py:82-89 | Two rescans are at least the rescan time apart |
| JournalReading.JournalReader.Tick | packages/vmn-exp-sdk/src/vmn_exp/core/journal_reader.py:72-80 | A tick reports the listed keys not seen, oldest first and once, grouped by scope with overflow marked |
| JournalReading.JournalReader.ListFrom | packages/vmn-exp-sdk/src/vmn_exp/core/journal_reader.py:82-89 | The whole window when a rescan is due, else the last two minutes |
| JournalReading.JournalReader.NewKeys | packages/vmn-exp-sdk/src/vmn_exp/core/journal_reader.py:91-117 | The keys in the window not seen are noted and returned in time order |
| JournalReading.Group | packages/vmn-exp-sdk/src/vmn_exp/core/journal_reader.py:122-129 | Each scope has its keys in order, or is marked overflowed when there are too many |
| MetricBlocks.StreamFrames | packages/vmn-exp-sdk/src/vmn_exp/core/metric_block.py:62-80 | A stream of encoded blocks and any strict prefix of one more decodes to exactly those blocks |
| MetricBlocks.TruncateAndAppend | packages/vmn-exp-sdk/src/vmn_exp/core/metric_block.py:129-135 | Truncated at the intact length and a block appended, it decodes to the blocks and the new one |
| MetricBlocks.HeadersWalked | packages/vmn-exp-sdk/src/vmn_exp/core/metric_block.py:102-119 | Walking the headers visits the same blocks, torn end or not |
| MetricBlocks.WalkSkipsChecksums | packages/vmn-exp-sdk/src/vmn_exp/core/metric_block.py:102-119 | A corrupt block ends decoding but not the walk |
| MetricBlocks.WalkAgrees | packages/vmn-exp-sdk/src/vmn_exp/core/metric_block.py:102-119 | Over any bytes the walk visits the decoded blocks' headers and possibly more; just those if and only if no block it passes has a bad checksum |
| MetricBlocks.PrefixReadBack | packages/vmn-exp-sdk/src/vmn_exp/core/metric_block.py:43-54 | A block's prefix reads back as its lengths and checksum |
| MetricBlocks.FrameIsEncoded | packages/vmn-exp-sdk/src/vmn_exp/core/metric_block.py:60-110 | Only what was encoded is read as a block: bytes begin with a block if and only if they begin with its encoding, magic, version, lengths and checksum included |
| MetricBlocks.WordWrittenBack | packages/vmn-exp-sdk/src/vmn_exp/core/metric_columns.py:20-60 | Every eight bytes are an int64 that is written back as they are |
| MetricBlocks.DeltasReadBack | packages/vmn-exp-sdk/src/vmn_exp/core/metric_columns.py:49-57 | Delta packing round-trips if and only if the numbers and their differences fit int64 |
| MetricBlocks.KeysReadBack | packages/vmn-exp-sdk/src/vmn_exp/core/metric_block.py:138-152 | A block's body unpacks by its header to the keys packed, steps or none |
| MetricBlocks.FloatsReadBack | packages/vmn-exp-sdk/src/vmn_exp/core/metric_columns.py:60-65 | Value columns read back bit for bit |
| MetricBlocks.LittleReadBack | packages/vmn-exp-sdk/src/vmn_exp/core/metric_columns.py:35-46 | A number written little-endian reads back |
| MetricBlocks.ReadFrames | packages/vmn-exp-sdk/src/vmn_exp/core/metric_block.py:122-135 | The reading loop gives the blocks of the stream and where they end |
| MetricBlocks.ReadFrame | packages/vmn-exp-sdk/src/vmn_exp/core/metric_block.py:62-80 | One step reads the block at the reader's place, or none for a short read, another magic or a bad checksum |
| MetricBlocks.Reader.Read | packages/vmn-exp-sdk/src/vmn_exp/core/metric_block.py:83-93 | The next bytes, fewer only at the end |
| MetricSeries.MergedIsSummary | packages/vmn-exp-sdk/src/vmn_exp/core/metric_lod.py:58-66 | Buckets of two adjacent stretches merge to the bucket of both: first least and first greatest of equals, buckets without finite values included |
| MetricSeries.BestIs | packages/vmn-exp-sdk/src/vmn_exp/core/metric_lod.py:35-55 | The extreme kept is the first among the finite values none beats, and there is one unless none is finite |
| MetricSeries.Summarize | packages/vmn-exp-sdk/src/vmn_exp/core/metric_lod.py:35-55 | The loop gives a stretch's bucket |
| MetricSeries.LevelBuckets | packages/vmn-exp-sdk/src/vmn_exp/core/metric_lod.py:69-82 | A level merged from a finer one is the level summarized from the points |
| MetricSeries.MergeGroup | packages/vmn-exp-sdk/src/vmn_exp/core/metric_lod.py:69-82 | So is each of its buckets |
| MetricSeries.WriteLod | packages/vmn-exp-sdk/src/vmn_exp/core/metric_index_file.py:58-68 | The file's levels are the first sizes with two buckets or more, each exactly what its points give |
| MetricSeries.MergeTo | packages/vmn-exp-sdk/src/vmn_exp/core/metric_index_reader.py:229-234 | Halved until few enough: buckets of joined stretches over the same range, in order, no more merging than asked for; a limit of zero merges nothing |
| MetricSeries.PairedTiles | packages/vmn-exp-sdk/src/vmn_exp/core/metric_index_reader.py:229-234 | Buckets merged two by two are those of the stretches joined two by two, an odd last one kept |
| MetricSeries.EmitKeeps | packages/vmn-exp-sdk/src/vmn_exp/core/metric_lod.py:100-109 | A bucket's points are its extremes; the greatest is lost just when it has the least's step and timestamp |
| MetricSeries.ThinnedIsFaithful | packages/vmn-exp-sdk/src/vmn_exp/core/metric_index_reader.py:159-185 | Points thinned to the extremes of stretches that tile a range: none made up, the range's finite extremes kept when steps and timestamps are distinct, series order kept |
| MetricSeries.EndsKept | packages/vmn-exp-sdk/src/vmn_exp/core/metric_index_reader.py:159-185 | With the ends in stretches of their own the first and last points are kept, and there are at most two points a stretch besides |
| MetricSeries.SameExtreme | packages/vmn-exp-sdk/src/vmn_exp/core/metric_index_reader.py:159-185 | Picked points that reach as far as all have the same extremes |
| MetricReader.Reader.Series | packages/vmn-exp-sdk/src/vmn_exp/core/metric_index_reader.py:60-72 | The range's points when few enough, else its first and last, at most max_points + 4 and more than a quarter as many from four asked for on, the extremes of stretches that hold each position of the filter once; with fewer asked for and no level, first and last alone |
| MetricReader.Reader.PointsOf | packages/vmn-exp-sdk/src/vmn_exp/core/metric_index_reader.py:53-58 | Raw points of a range are what filtering the sorted points gives |
| MetricReader.Reader.RangeOf | packages/vmn-exp-sdk/src/vmn_exp/core/metric_index_reader.py:74-82 | The positions found hold exactly the points in range, either bound missing or not |
| MetricReader.Reader.Locate | packages/vmn-exp-sdk/src/vmn_exp/core/metric_index_reader.py:84-95 | The search over chunk bounds and one chunk gives the place over the whole axis, left or right |
| MetricReader.PlaceInChunk | packages/vmn-exp-sdk/src/vmn_exp/core/metric_index_reader.py:84-95 | The chunk the bounds point to settles every position outside it |
| MetricReader.Reader.Columns | packages/vmn-exp-sdk/src/vmn_exp/core/metric_index_reader.py:116-123 | Chunk by chunk, the positions asked for and no other |
| MetricReader.Reader.ChunkAt | packages/vmn-exp-sdk/src/vmn_exp/core/metric_index_reader.py:97-114 | The chunk of the file, kept or read; the kept ones stay right, few, and the one unused longest goes |
| MetricReader.Reader.ThinLod | packages/vmn-exp-sdk/src/vmn_exp/core/metric_index_reader.py:159-175 | Ends, edges and merged full buckets tile the range; where a forced level has no full bucket, what the code reads instead |
| MetricReader.Reader.ThinRaw | packages/vmn-exp-sdk/src/vmn_exp/core/metric_index_reader.py:177-185 | Ends and stretches of one size tile the range, the size the first power of two that makes them few enough for the points asked for; under four, the ends alone |
| MetricReader.HalvedIsFine | packages/vmn-exp-sdk/src/vmn_exp/core/metric_index_reader.py:177-185 | Such stretches are more than half of those asked for |
| MetricReader.FullExactly | packages/vmn-exp-sdk/src/vmn_exp/core/metric_index_reader.py:213-219 | The full buckets of a range are exactly those inside it, its ends left out |
| MetricReader.FineExactly | packages/vmn-exp-sdk/src/vmn_exp/core/metric_index_reader.py:218-226 | A level is fine enough exactly when twice its buckets inside the range are no fewer than the points asked for |
| MetricReader.Reader.PickLevel | packages/vmn-exp-sdk/src/vmn_exp/core/metric_index_reader.py:219-226 | The coarsest level with half as many full buckets in range as points asked for |
| MetricReader.FullInside | packages/vmn-exp-sdk/src/vmn_exp/core/metric_index_reader.py:214-216 | The full buckets of a range lie strictly inside it and in the level |
| MetricReader.SingleEdgeStops | packages/vmn-exp-sdk/src/vmn_exp/core/metric_index_reader.py:166-169 | A forced level without a full bucket leaves points out, unless the last point stands right after a bucket's end or the first point |
| MetricReader.FewAskedForMany | packages/vmn-exp-sdk/src/vmn_exp/core/metric_index_reader.py:229-234 | Under four points asked for a level's buckets stay unmerged: a point or more for each is returned |
| MetricReader.SpanIsWithin | packages/vmn-exp-sdk/src/vmn_exp/core/metric_index_reader.py:53-58 | Positions that hold exactly what is in range are the filter's result |
| MetricReader.WithinHolds | packages/vmn-exp-sdk/src/vmn_exp/core/metric_index_reader.py:60-72 | The filter keeps just the points whose step, or timestamp without one, is in the range, each as often as it is there |
| MetricReader.SummaryShifts | packages/vmn-exp-sdk/src/vmn_exp/core/metric_index_reader.py:155-157 | A bucket of columns read from a position is the bucket of those positions |
| MetricReader.ThinnedSays | packages/vmn-exp-sdk/src/vmn_exp/core/metric_index_reader.py:159-185 | What any range thinned that way is good for: its ends, its size, its faithfulness |

## Left out

- Storage, SQLite, threads, locks and the clock: tables are maps, transactions are atomic steps, listings and times are inputs; each load of the store is read atomically.
- Encodings: JSON, zlib, CRC and the text of journal keys are functions given by the caller, or not modelled; records, notes and values are opaque.
- Floats: values are reals with explicit non-finite cases, bucket fields keep integers exactly, and sums are exact, so `exact_parts` and `fsum` have no counterpart.
- Timestamps, writers and keys: their ranks in string order stand for the strings, except where ISO formatting matters in `fold_sums.dfy`.
- IndexStore.FollowerIsExact: a store file that cannot be opened, and opening a rebuilt one while polling, are not modelled; a generation ahead of the store's stands for a rebuilt file.
- IndexPending.RunOverlays: pending and saved records are values, so a record changed in memory while it is pending is not modelled.
- JournalMarks.MarkNeverRunsAhead: contents are version numbers; the names-only change check, records set aside as unreadable, rows published before their records are read in full, and how often a mark is put are not modelled.
- Derive.DerivedWhenDone: numbering rows when deriving finishes, the tables of similar runs, and a marker set again by a later upgrade are not modelled.
- LeanTree.LeanRows.WriteLean: columns other than parent and root, the memo of parent lookups, and keys that change their verstr are not modelled; neither is renumbering `idx` (`_renumber`, `_number_on`).
- Fold.UpdatedIsScratch: note signatures and their eviction, hypotheses, and the `status` column, which depends on the clock, are not modelled.
- RecordFold.SameShown: points that tie with an entry or a point of their metric, or with a rewind, are not covered; which of them wins depends on places (`RecordFold.TiesTell`).
- Adoption.AdoptedFold: unread points that are visible but not finite are not decided: they change the fold when they are the last of their metric, say; moving step-less points to a twin key while compacting (`_split_twins`) is not modelled.
- BlockFold.ApplyBlockPoints: points of one timestamp and step are logged together by the code and take one place; here each takes its own.
- JsonlTail.Read: lines end at newlines only, where the code's `splitlines` knows other separators too; JSON as written escapes those.
- RecordLogs.Record.UpdateLogs: sizes are counted in entries; the refold from merged logs is `merged_refold.dfy`'s, and reading ahead to probe for vanished files is not modelled.
- RecordMetrics.WriterState.FoldListed: sizes of stream objects are counted in blocks, so a torn block at an end is not there yet; reading whole or by parts is one.
- RecordUpdate.Record.Update: objects that vanish while they are read (`_refold_relisted`) are not modelled beyond `merged_refold.dfy`; an adoption by counts that are right by chance (`RecordMetrics.Mistaken`) is excluded, and is `adoption.dfy`'s; rewinds that hide a point later than them within a whole second, blocks that a rewind may hide points of unnoticed, and blocks folded by a header whose ends are not so in string order are excluded (`RecordMetrics.Clears`, `RecordMetrics.Tame`), for then the code folds something else; so is a refold after the rewinds that disordered blocks were folded under have gone from the logs (`MetricState.Metrics.Knew`).
- StreamNames.RunShowsAll: one compactor at a time, whose merges begin at the first segment; reading names of other shapes is not modelled.
- Forest.BestSplit: choosing columns, the recursion over nodes and the averaging of trees are not modelled; MIN_LEAF's counterexample uses the constant as it is.
- LineageIndex.LineageIndex.Moved: parsing URIs and normalizing digests are not modelled: inputs and outputs come with their group and kind.
- LineageWalk.Walk.Run: walks that cross apps, the order of links, inputs sorted by name, and `annotate_versions` are not modelled.
- IndexPublish.Index.Apply: when a bulk publish is due is a parameter, for it depends on the clock; rows seeded at a warm start and reading records lazily are not modelled.
- SnapshotRows.RowCache.TakeSnapshot: `SharedMap`'s levels and the cache of observation times are not modelled; maps that change together are one map of entries.
- JournalReading.JournalReader.Tick: partitions listed concurrently, and keys that do not parse, are not modelled.
- MetricReader.Reader.Series: a level forced by the caller reaches only `MetricReader.Reader.ThinLod`; a range without points is not given to it. The three columns are read together as points, sorted beforehand; byte offsets, prefetching and the footer are not modelled.
- The web pages, command line, pipelines, settings, environment capture, identity, media and histograms: glue, or nothing comparably strong to say.
