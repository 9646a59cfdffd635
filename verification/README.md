# Canon Systems: verified models of the stateful core

A Dafny 4.11 model of the parts of the repository that hold state, merge, parse or schedule, with proofs of what
they guarantee. Check everything with `dafny verify dfyconfig.toml`.

| files | component |
|---|---|
| `TaskEvents`, `TaskHistory`, `TaskMeaning`, `TaskMerge`, `TaskMaking`, `TaskForms`, `TaskOrder`, `TaskListing` | the event-sourced task plane: fold, what a task shows of its lines, union by id, event construction, listing order |
| `LedgerSync`, `LedgerIdentity`, `LedgerConvergence`, `LedgerServer`, `LedgerObject`, `TaskSync` | task sync between machines, an object store and a server, as a step system: what is never lost, when ids stay unambiguous, when machines converge, what the shared object loses |
| `LaneScheduler`, `LaneSnapshot`, `LaneLists`, `LaneThreads`, `LaneRuns`, `ResumeEngine` | the multilane scheduler, what its lists hold, its whole runs, and `canon resume` |
| `QaItem`, `QaGrammar`, `QaLaws`, `QaValidate`, `QaReading`, `QaCoverage` | the QA packet parser against a block grammar, the gate built on it, and what each written line comes to |
| `VaultTree`, `VaultSync`, `VaultMirror`, `VaultReading` | the vault mirror on a file and directory tree, its counters and its loop |
| `MetricsRollup`, `MetricsLaws`, `MetricsMeaning` | the metrics rollup, its laws and what each figure sums |
| `LivePlanIds`, `LivePlan`, `LivePlanMeaning`, `LivePlanLaws` | the live-plan session machine, event by event, and its invariants |
| `StoreKeys`, `ArchiveKeys`, `KeyReading`, `LedgerRecord`, `LedgerStored`, `LedgerLaws` | database and archive keys, run-ledger validation and what it stores |
| `ReleasePublish` | the release publisher |
| `Text`, `Sorting`, `Folds`, `FirstWins`, `MapAlgebra`, `Delimited` | Python strings, sorting, folds, first-wins unions, mergeable tables, join and split |

Objects the program mutates are classes or methods with loops (`TaskTable`, `Workstation`, `VaultDir`, `Session`,
`StateDir`, the three parser loops, the rollup loops, the normaliser loops); each is proved equal to a function, and
the properties are proved about the functions. Pure code is functions and lemmas. The sync protocol is a step system
over all machines, so its results hold for every interleaving. The modules named Meaning, Forms, Listing, Lists,
Reading and Stored say in terms of inputs and outputs alone what each operation computes.

## What the proofs found

- `materialize` is documented never to abort a ledger, but a task whose earliest valid event is an update or comment
  carrying an unusable `scope` makes it raise (`TaskHistory.MaterializeRaisesIff`, `TaskMaking.StrayScopeRaises`).
  Ledgers written by `make_event` cannot (`TaskMaking.RecordedLedgersMaterialize`).
- The event union ignores the order of the lines exactly when equal ids mean equal events
  (`TaskMerge.DedupeOrderIff`); in general it holds exactly the first-read event of each id
  (`FirstWins.UnionHoldsFirsts`).
- A ledger line without a company, which `canon task sync` backfills as it pushes, breaks this: its stored copy has the
  same id and other contents, so a machine that fetches the copy and the one that holds the original never agree again
  (`TaskSync.BackfilledCopyNeverConverges`). Ids keep determining events over all runs exactly when every recorded event
  names a company, or is given the one the backfill fills in (`TaskSync.NamedCompaniesIff`), and then machines converge
  through the object (`TaskSync.NamedRunsConverge`) and through the server (`TaskSync.NamedServerRoundsConverge`).
- The shared object can lose events that ledgers still hold. A put keeps them exactly when each one in the object then
  was in the machine's ledger at its merge, or was read by a get that succeeded and met no other event with its id in
  that ledger (`LedgerObject.PutKeepsIff`, over whole runs `LedgerObject.OnlyGrowsIff`). So there are three ways to lose
  one: a failed get (`LedgerObject.FailedGetDropsAnEvent`), overlapping syncs
  (`LedgerObject.OverlappingPutsDropAnEvent`), and two events under one id (`LedgerObject.ClashDropsAnEvent`), which a
  backfilled copy makes (`LedgerObject.StampedCopyDropsOriginal`). In runs of syncs one at a time whose gets succeed the
  object only grows exactly when no put meets such a clash (`LedgerObject.SerialRunGrowsIff`). No ledger ever loses an
  event (`LedgerSync.NothingIsLost`).
- The `next_phase is None` skip of the scheduler is dead code (`LaneSnapshot.NoNextMeansComplete`), and
  `resume_available` is just "there is a target" (`ResumeEngine.BuildEnvelope`).
- A QA packet whose heading is marked up, such as `# GATE_RESULTS`, has the block the command asks for but no gate
  region, so it is never faulted for its evidence, whatever criteria it holds (`QaValidate.MarkedPacketNeverFaulted`).
- With a region and no parse or structure error, the criteria the gate covers are exactly the `- criterion:` lines two
  columns deeper than the `acceptance_criteria:` open there (`QaCoverage.CleanPacketCoversIff`). One at another depth,
  after a list, has no evidence and the packet passes (`QaCoverage.DeepCriterionPasses`).
- A `covering_tests:` list swallows a criterion line of that depth exactly when its key is one column deeper than the
  section and no line in between ends the list (`QaLaws.HeadSwallowedIff`); the swallowed line is always a parse error
  (`QaItem.CriterionItemIsBad`).
- A vault run whose pages are readable clashes exactly when the remote is not prefix-free or a remote page sits at or
  above a local directory without files (`VaultMirror.SyncOnce`).
- The vault loop does not ride out every outage: at the 1025th failure in a row its backoff overflows and the loop ends,
  and a clash ends it at once (`VaultMirror.RunLoop`, `VaultMirror.SurvivedIff`).
- In a live-plan session a second hand linked to an item outlives the item's confirmation
  (`LivePlanLaws.LinkedRaiseOutlivesConfirmation`). A pending hand keeps pointing at an item awaiting read-back exactly
  under one guard (`LivePlanLaws.ApplyPointingIff`), which a verdict breaks when the item has a second pending hand;
  staying so after every verdict is having at most one (`LivePlanLaws.LinkedIffVerdictsPoint`), and
  `LivePlanLaws.ApplyLinkedIff` gives the exact guard for that.
- The task plane's keys are documented as disjoint from checkpoint keys; they coincide exactly for repository `tasks`
  and task `evt` (`StoreKeys.TaskKeyMeetsCheckpointIff`).
- Validating a ledger record twice differs from once exactly when an evidence or outcome text is only white space
  (`LedgerLaws.ValidatedTwiceIff`), and the second validation rejects the record exactly when some evidence reference has
  no other text (`LedgerLaws.KeysAgreeIff`).
- A release name shares its file with no other exactly when it has only safe characters and no underscore
  (`ReleasePublish.AloneIffPlain`). Any other release has a look-alike whose publish makes it be skipped although it was
  never published (`ReleasePublish.LookalikeReleaseIsSkipped`).
- Plan ids are path text: `p` and `p/` name one directory, so publishing for one makes the release be skipped for the
  other (`ReleasePublish.RespelledPlanIsSkipped`); ids of one component never do (`ReleasePublish.NamedPlanSkippedIff`).

## Model

| member | source | states |
|---|---|---|
| `TaskEvents.AbsorbInto` | src/canon_systems/tasks.py:207-256 | The in-place update of one task by one event computes the functional step. |
| `TaskEvents.TaskTable.Fold` | src/canon_systems/tasks.py:231-256 | Folding an event into the mutable table gives the specified next table, and raises exactly when there is none, leaving the table alone. |
| `TaskEvents.Materialize` | src/canon_systems/tasks.py:259-268 | The sort, skip and fold loop computes the materialised state, or raises, as specified. |
| `TaskHistory.TaskStreamContents` | src/canon_systems/tasks.py:174-177 | A task's stream is its valid events, all of them, in (timestamp, id) order. |
| `TaskHistory.FoldLocality` | src/canon_systems/tasks.py:231-268 | One task's folded state over the whole ledger is the fold of its own events; other tasks never affect it. |
| `TaskHistory.MaterializeRaisesIff` | src/canon_systems/tasks.py:180-268 | Materialising raises exactly when some task's earliest valid event has an unusable scope. |
| `TaskHistory.MaterializedTask` | src/canon_systems/tasks.py:231-268 | A task exists exactly when it has valid events, and is its first event's task with all of them absorbed in order. |
| `TaskHistory.MaterializedMeetsSpec` | src/canon_systems/tasks.py:207-256 | Each field holds its latest assignment or default, comments are the commented events in order, `updated_at` is the maximum timestamp, and the history has one line for each write of the stream that changes a tracked field, with its event's time and actor. |
| `TaskMeaning.MaterializedReads` | src/canon_systems/tasks.py:174-268 | A ref has a task exactly when the ledger has a well-formed line for it. Company, repository, author, creation time and scope are those of its first line, each field, comment, history line and the update time what its lines say. |
| `TaskMeaning.StreamReads` | src/canon_systems/tasks.py:174-268 | A task's lines are the well-formed ones naming its ref, each as often as in the ledger, by timestamp and then event id. |
| `TaskMeaning.RaisesReads` | src/canon_systems/tasks.py:180-268 | Materialising raises exactly when the first line of some ref has a scope text that names none of the three scopes. |
| `TaskMerge.DedupeEvents` | src/canon_systems/tasks.py:271-279 | The dictionary loop over streams computes the first-wins union sorted by id. |
| `TaskMerge.DedupeReads` | src/canon_systems/tasks.py:271-279 | The union is exactly the first line of each non-blank trimmed id, strictly ascending by that id. |
| `TaskMerge.MaterializeCanonical` | src/canon_systems/tasks.py:259-279 | Where ids determine events, union and state depend on the event set only: not on stream order, order inside streams, repetition or grouping. |
| `TaskMerge.MaterializeIgnoresOrder` | src/canon_systems/tasks.py:174-177 | Any permutation of a list of events with unique ids folds to the same state. |
| `TaskMerge.DedupeOrderIff` | src/canon_systems/tasks.py:271-279 | All reorderings of the same lines have the same union if and only if equal ids mean equal events. |
| `TaskMerge.DedupeCanonicalIff` | src/canon_systems/tasks.py:271-279 | All lists with the same set of events, repeated or not, have the same union under the same condition. |
| `TaskMerge.DedupeRegroups` | src/canon_systems/tasks.py:271-279 | Where ids determine events the union is associative and idempotent. |
| `FirstWins.UnionHoldsFirsts` | src/canon_systems/tasks.py:271-279 | For any streams, the union holds exactly the first-read record of each non-blank id. |
| `FirstWins.UnionMembers` | src/canon_systems/tasks.py:271-279 | Where ids determine records, the union holds every record with a non-blank id and nothing else. |
| `FirstWins.UnionKeepsFirst` | src/canon_systems/tasks.py:271-279 | For any streams, of the records with one id the one read first gets in and no other does. |
| `FirstWins.UnionIgnoresOrderIff` | src/canon_systems/tasks.py:271-279 | The union ignores the order of records exactly when ids determine them. |
| `FirstWins.UnionLoop` | src/canon_systems/tasks.py:271-279 | The two nested loops and the final sort compute the union. |
| `TaskMaking.MadeEventLaws` | src/canon_systems/tasks.py:113-157 | An event `make_event` accepts is valid, names a scope exactly when it creates, has a trimmed id, and never makes the fold raise. |
| `TaskMaking.ScopeNameNormalizes` | src/canon_systems/tasks.py:60-66 | Scope names survive their own normalisation. |
| `TaskMaking.RecordedLedgersMaterialize` | src/canon_systems/tasks.py:113-268 | A ledger of recorded events always materialises. |
| `TaskMaking.StrayScopeRaises` | src/canon_systems/tasks.py:180-268 | A valid update or comment with an unusable scope, alone in a ledger, makes it raise. |
| `TaskMaking.NormalizedFieldsKnown` | src/canon_systems/tasks.py:160-171 | Normalised fields are settable ones, with a known status and priority. |
| `TaskForms.MadeEventAccepted` | src/canon_systems/tasks.py:113-171 | An event is recorded exactly when its type is known, a created one names a scope, the id, ref, timestamp and actor are not blank and every field is a known one with an acceptable value. |
| `TaskForms.MadeEventReads` | src/canon_systems/tasks.py:113-171 | A recorded event holds each trimmed text under its own name, the scope asked for with the repository or repositories that go with it, and the fields with status and priority by name and lists trimmed, without blanks and repeats, ascending. |
| `TaskOrder.InvertOrder` | src/canon_systems/tasks.py:340-342 | The complement reverses order exactly where two strings differ before either ends. |
| `TaskOrder.StampOrder` | src/canon_systems/tasks.py:328-342 | Complemented stamps below U+10FFFF ascend newest first, except that a stamp comes before its own extensions, and are equal only for equal stamps. |
| `TaskOrder.NewestFirst` | src/canon_systems/tasks.py:328-342 | So stamps of equal length sort newest first. |
| `TaskOrder.SortedTasksInOrder` | src/canon_systems/tasks.py:328-337 | The listing is always a permutation of the tasks, and in the order terminal last, priority, newest first, ref unless a stamp holds U+10FFFF. |
| `TaskOrder.FilterAndSort` | src/canon_systems/tasks.py:345-349 | The filter loop and sort compute the selection, raising when a reached filter does not normalise. |
| `TaskListing.SelectedReads` | src/canon_systems/tasks.py:282-349 | The listing raises exactly when some task reaches a filter that names nothing; otherwise it holds exactly the tasks the filters want, as often as given, unfinished work first, then by priority, newest first and ref. |
| `TaskOrder.SelectionIgnoresOrder` | src/canon_systems/tasks.py:282-349 | With unique refs the listing does not depend on the input order. |
| `TaskOrder.NextIsLeast` | src/canon_systems/tasks_cli.py:462-490 | The task `canon task next` shows is one that matches the filters, and comes before every other match in that order. |
| `TaskOrder.NextIffMatch` | src/canon_systems/tasks_cli.py:462-490 | It shows a task exactly when one matches. |
| `LedgerSync.StepSound` | src/canon_systems/tasks_cli.py:651-756 | Every protocol step (append, get, local merge-write, put, push with backfill, fetch, failed or not) keeps each company ledger and the object without repeated ids and everything in the object or on its way there in some company ledger, and removes nothing from any ledger or from the server. |
| `LedgerSync.RunSound` | src/canon_systems/tasks_cli.py:651-756 | So does every finite interleaving of steps. |
| `LedgerSync.NothingIsLost` | src/canon_systems/tasks_cli.py:201-212 | An event recorded at any point of any run stays in the ledger it was appended to. |
| `LedgerIdentity.StepInvIff` | src/canon_systems/tasks_cli.py:672-692 | A step keeps ids determining events, across all ledgers and the server, exactly when it does not store an event on the server that the backfill changes. |
| `LedgerIdentity.RunInvIff` | src/canon_systems/tasks_cli.py:672-692 | A run does exactly when none of its steps stores such an event. |
| `LedgerIdentity.NamedEventsIff` | src/canon_systems/tasks_cli.py:672-692 | All runs recording only events of a kind do exactly when the backfill changes no event of that kind. |
| `LedgerConvergence.FullSyncEffect` | src/canon_systems/tasks_cli.py:728-750 | One undisturbed sync makes ledger and object equal to their union. |
| `LedgerConvergence.TwoRoundsConverge` | src/canon_systems/tasks_cli.py:718-756 | From any quiet world reached with ids telling company events apart, two rounds of full syncs in any order leave all company ledgers and the object with the same list, the union of all ledgers. |
| `LedgerConvergence.RoundsConvergeIff` | src/canon_systems/tasks_cli.py:718-756 | Two rounds make all company ledgers the same exactly when ids tell the events in them apart. |
| `LedgerConvergence.ClashNeverHeals` | src/canon_systems/tasks_cli.py:651-756 | Ledgers with different events under one id never become the same, whatever is run. |
| `LedgerConvergence.StampedCopyNeverConverges` | src/canon_systems/tasks_cli.py:672-692 | An event whose stored copy differs, once fetched by a second machine, leaves the two ledgers different after every further run. |
| `LedgerServer.ServerRoundsConvergeIff` | src/canon_systems/tasks_cli.py:660-701 | Two rounds in which every machine pushes everything and fetches everything, all accepted, make every company ledger hold all company events, rows and pushed copies exactly when ids tell these apart; the ledgers are then the same list, the union of it all. |
| `LedgerObject.PutKeepsIff` | src/canon_systems/tasks_cli.py:726-750 | The put that ends a machine's sync keeps everything in the object exactly when each event in it then was in the machine's ledger at the merge, or was in the object at a get that succeeded and no event with its id was in that ledger, whatever ran in between. |
| `LedgerObject.UndisturbedPutKeepsIff` | src/canon_systems/tasks_cli.py:726-750 | If no other put falls inside the window: exactly when the get succeeded and object and ledger agree on every id they share, or the get failed and the machine held the whole object. |
| `LedgerObject.OnlyGrowsIff` | src/canon_systems/tasks_cli.py:726-750 | Over any run from a quiet world the object only grows exactly when that condition, on the get, the object read and the ledger at the merge of each machine, holds at every put. |
| `LedgerObject.SerialRunGrowsIff` | src/canon_systems/tasks_cli.py:726-750 | Over a run whose sync windows do not overlap and whose gets succeed: exactly when at every put the object agrees with the ledger at the merge on every id they share. |
| `LedgerObject.SerialRunOnlyGrows` | src/canon_systems/tasks_cli.py:726-750 | So it does if in the end ids tell the events of all company ledgers apart. |
| `LedgerObject.ClashDropsAnEvent` | src/canon_systems/tasks_cli.py:726-750 | One undisturbed sync with every step succeeding erases an event whose id the ledger holds for another one. |
| `LedgerObject.StampedCopyDropsOriginal` | src/canon_systems/tasks_cli.py:672-750 | A line without a company, pushed, fetched by a second machine and then stored by a sync of the first, is erased from the object by a sync of the second. |
| `LedgerObject.FailedGetDropsAnEvent` | src/canon_systems/tasks_cli.py:727-742 | A sync with nothing beside it whose get fails erases another machine's event from the object. |
| `LedgerObject.OverlappingPutsDropAnEvent` | src/canon_systems/tasks_cli.py:726-750 | With all gets succeeding, two overlapping syncs erase the first machine's event from the object. |
| `TaskSync.PushAll` | src/canon_systems/tasks_cli.py:672-681 | The push loop sends every event once; accepted plus failed is their number. |
| `TaskSync.RecordedEventIsSeen` | src/canon_systems/tasks_cli.py:201-212 | An event recorded with a new id is in what the next reader combines, and hides nothing that was there. |
| `TaskSync.Workstation.SyncObject` | src/canon_systems/tasks_cli.py:728-750 | The ledger becomes the union with what the get returned (nothing when it failed), and exactly that is put unless pulling only. |
| `TaskSync.Workstation.SyncServer` | src/canon_systems/tasks_cli.py:660-692 | Every distinct local event is pushed, with the company filled in, and the ledger becomes its union with the fetched rows, or stays when the fetch failed. |
| `TaskSync.BackfillKeepsNamed` | src/canon_systems/tasks_cli.py:675-676 | The backfill gives the sync's company to an event that names none and changes nothing else. |
| `TaskSync.CombinedStateReadsInOrder` | src/canon_systems/tasks_cli.py:153-173 | The repository ledger is read first, then the company ledger, then the server: a line under an id already read is never seen. |
| `TaskSync.CombinedStateIgnoresPlacement` | src/canon_systems/tasks_cli.py:153-173 | What a reader sees depends on the union of ledgers and server stream, not on which holds what. |
| `TaskSync.CompanyStatesConvergeIff` | src/canon_systems/tasks_cli.py:651-756 | After any run gone quiet, two rounds of syncs bring all ledgers to one list exactly when ids tell their events apart; list and materialised state are then those of the union of all ledgers. |
| `TaskSync.NamedCompaniesIff` | src/canon_systems/tasks_cli.py:672-692 | Ids determine events after every run that records only events of a kind exactly when each of them names a company or is given the one the backfill fills in. |
| `TaskSync.NamedRunsConverge` | src/canon_systems/tasks_cli.py:651-756 | So machines recording only such events converge to the state of everything recorded on a company ledger. |
| `TaskSync.NamedServerRoundsConverge` | src/canon_systems/tasks_cli.py:660-701 | And with a server and no push failing, two rounds of server syncs bring all company ledgers to the union of all company and repository ledgers. |
| `TaskSync.BackfilledCopyNeverConverges` | src/canon_systems/tasks_cli.py:672-692 | One other event, pushed and fetched, leaves two machines different after whatever follows. |
| `LaneScheduler.DepsSatisfied` | src/canon_systems/task_thread_scheduler.py:33-43 | The dependency loop succeeds exactly when all dependencies are known and complete, and otherwise lists the missing ones sorted. |
| `LaneScheduler.ComputeLaneState` | src/canon_systems/task_thread_scheduler.py:46-143 | The classification loops compute the specified sorted lists, or reject lists of different lengths. |
| `LaneScheduler.ComputeThreads` | src/canon_systems/task_thread_scheduler.py:122-136 | The grouping loop computes the specified threads. |
| `LaneThreads.ThreadsHoldGroups` | src/canon_systems/task_thread_scheduler.py:122-136 | The threads are the groups that occur, each once, the blank one first and the others by name; each holds exactly the tasks of its group, sorted by id and workstream. |
| `LaneThreads.ThreadsKeepEveryTask` | src/canon_systems/task_thread_scheduler.py:122-136 | Together the threads list every task exactly as often as the input does. |
| `LaneSnapshot.NoNextMeansComplete` | src/canon_systems/task_thread_scheduler.py:88-93 | A row without a next phase was already found complete, so the skip is dead code. |
| `LaneSnapshot.CompleteMeansNoNextIff` | src/canon_systems/task_thread_scheduler.py:8-30 | A complete row has no next phase exactly when the last phase does not occur earlier in the order. |
| `LaneSnapshot.NeverSkipped` | src/canon_systems/task_thread_scheduler.py:61-112 | No row is skipped, and a runnable row has all its dependencies complete. |
| `LaneSnapshot.RowsPartition` | src/canon_systems/task_thread_scheduler.py:61-112 | Every row counts in exactly one of runnable, active, blocked and complete. |
| `LaneSnapshot.SnapshotPartition` | src/canon_systems/task_thread_scheduler.py:61-143 | The returned lists are sorted, hold exactly the rows of their lanes and together account for every row. |
| `LaneLists.RowReads` | src/canon_systems/task_thread_scheduler.py:46-120 | A row is transport-blocked exactly when its scan degraded, complete exactly when its scan stands at the top of the order, active exactly when it is neither and in progress, whatever its dependencies, blocked exactly when it is none of these and a dependency is unknown or incomplete, with exactly those named, and runnable otherwise; active and runnable rows carry the phase their scan puts next. |
| `LaneLists.ActiveRead` | src/canon_systems/task_thread_scheduler.py:98-103 | The active list holds exactly the rows in progress and not at the top, with the phase to work on. |
| `LaneLists.RunnableRead` | src/canon_systems/task_thread_scheduler.py:95-112 | The runnable list holds exactly the rows that are neither degraded, at the top nor in progress and whose dependencies are all known and complete. |
| `LaneLists.BlockedRead` | src/canon_systems/task_thread_scheduler.py:68-109 | The blocked list holds exactly the degraded rows, each with its detail, and the waiting rows with an unmet dependency, each with all of them, sorted. |
| `LaneLists.ListsInOrder` | src/canon_systems/task_thread_scheduler.py:114-143 | Active and runnable rows ascend by task id, workstream and phase, blocked ones by task id, workstream, reason (dependencies first) and detail. |
| `LaneSnapshot.SnapshotProgress` | src/canon_systems/task_thread_scheduler.py:61-112 | With nothing degraded, known dependencies and no cycle, something is runnable or active unless everything is complete. |
| `LaneRuns.MoveInv` | src/canon_systems/task_thread_scheduler.py:58-112 | Starting a runnable phase or finishing an active one keeps the run invariant, keeps complete and begun rows, and raises the progress measure by exactly one. |
| `LaneRuns.BegunMeansDepsComplete` | src/canon_systems/task_thread_scheduler.py:58-112 | At every point of every run a begun task has all its dependencies complete, and runs are bounded. |
| `LaneRuns.CompleteSetGrows` | src/canon_systems/task_thread_scheduler.py:62-66 | Along every run the complete set only grows. |
| `LaneRuns.MaximalRunsFinish` | src/canon_systems/task_thread_scheduler.py:58-112 | On an acyclic graph with known dependencies every maximal run completes all n tasks in exactly 2 times phases times n moves. |
| `LaneRuns.MaximalRunsFinishIff` | src/canon_systems/task_thread_scheduler.py:58-112 | Those graphs are exactly the ones on which all maximal runs finish. |
| `ResumeEngine.ComputeResumeTarget` | src/canon_systems/resume_engine.py:173-187 | The early-return scan finds the first row that answered and has an incomplete phase, or nothing when there is none. |
| `ResumeEngine.CountCompleted` | src/canon_systems/resume_engine.py:201-205 | `tasks_completed` is the number of rows whose undegraded scan stands at the top of the order. |
| `ResumeEngine.BuildEnvelope` | src/canon_systems/resume_engine.py:190-217 | Target, counters and degraded rows are as specified, and resuming is available exactly when there is a target. |
| `ResumeEngine.TargetReads` | src/canon_systems/resume_engine.py:173-187 | The target is the first row that answered and has a phase left, with that phase; there is none exactly when no row is so. |
| `ResumeEngine.DegradedRead` | src/canon_systems/resume_engine.py:190-205 | A row is listed as degraded, with its reason, exactly when its scan degraded. |
| `ResumeEngine.DegradedInOrder` | src/canon_systems/resume_engine.py:190-205 | The list names the degraded rows once each, in the order of the rows. |
| `ResumeEngine.ResumeAgreesWithLanes` | src/canon_systems/resume_engine.py:122-224 | No target exactly when every row that answered is complete; otherwise the target's row is runnable or active with that phase, or blocked on a dependency, and all earlier rows are degraded or complete. |
| `ResumeEngine.PhasesDistinct` | src/canon_systems/resume_engine.py:28-34 | The five phases are distinct. |
| `ResumeEngine.CanonicalToDo` | src/canon_systems/resume_engine.py:28-34 | In the canonical order a row of no known phase starts with the scoper, each completed phase hands over to the next by name, any other is taken up again, and the last one is release-orchestrator. |
| `QaItem.EntryKindsAllowed` | src/canon_systems/qa_validate.py:57-122 | Parsing an item yields only the four known kinds. |
| `QaItem.ItemRoundTrip` | src/canon_systems/qa_validate.py:57-122 | A written `- kind::text` item is read back as that kind and text, at any indentation. |
| `QaItem.CriterionItemIsBad` | src/canon_systems/qa_validate.py:57-122 | A criterion line read as an item is always a parse error. |
| `QaReading.ParseBodyReads` | src/canon_systems/qa_validate.py:57-122 | Form by form what a body is: `kind::text` of a known kind gives that kind and text, `kind: value` with a known kind in any case gives the kind and the bare value, a text without `::` or with a path before the first one is a pytest reference as it stands, and any other label, head or empty text is an error. |
| `QaReading.ItemReads` | src/canon_systems/qa_validate.py:57-122 | So for an item written at any depth. |
| `QaGrammar.ParseList` | src/canon_systems/qa_validate.py:217-242 | The innermost loop takes exactly the grammar's list and splits its lines into entries and errors. |
| `QaGrammar.FinalizeBlock` | src/canon_systems/qa_validate.py:125-144 | A block's structure errors are those its lists deserve. |
| `QaGrammar.ParseBlock` | src/canon_systems/qa_validate.py:181-256 | The middle loop reads exactly one block of the grammar and finalises it once. |
| `QaGrammar.ExtractEntries` | src/canon_systems/qa_validate.py:147-260 | The three nested loops over one index terminate and compute what the block grammar says. |
| `QaLaws.ItemsSplit` | src/canon_systems/qa_validate.py:223-241 | Each item line becomes one entry or one parse error, never both. |
| `QaLaws.NonBlankComplete` | src/canon_systems/qa_validate.py:223-241 | A list's items are exactly the non-blank lines of its range. |
| `QaLaws.ListTakes` | src/canon_systems/qa_validate.py:223-231 | A list runs to the first non-blank line that is not deeper than its key. |
| `QaLaws.AllItemsSpan` | src/canon_systems/qa_validate.py:147-260 | Over the whole region no line is read as an item twice. |
| `QaLaws.CleanMeansCovered` | src/canon_systems/qa_validate.py:125-260 | Without parse and structure errors every recognised criterion contributed an entry. |
| `QaLaws.HeadSwallowedIff` | src/canon_systems/qa_validate.py:181-244 | A list swallows a later `- criterion:` line two columns deeper than its section exactly when its key is one column deeper than the section and no line strictly between them ends the list. |
| `QaLaws.CriterionBeginsBlock` | src/canon_systems/qa_validate.py:147-260 | Every `- criterion:` line two columns deeper than the section open there begins a block of its own or is read as an item of another. |
| `QaLaws.BlockBeginsAtCriterion` | src/canon_systems/qa_validate.py:147-260 | And only such lines begin blocks. |
| `QaValidate.Region` | src/canon_systems/qa_validate.py:270-287 | The gate region runs from the first line that starts one to the first line from there on that ends one, and is missing only when there is no such pair. |
| `QaValidate.CheckEvidence` | src/canon_systems/qa_validate.py:326-347 | The loop over entries, branch by branch, reports what the entries lack. |
| `QaValidate.EvidenceReportedIff` | src/canon_systems/qa_validate.py:326-347 | An entry is reported exactly when its description is blank, or its reference names no path or a missing one, at most once and at its own line. |
| `QaValidate.CollectErrors` | src/canon_systems/qa_validate.py:297-359 | The gate's report is the one the packet deserves, source by source. |
| `QaReading.ReportReads` | src/canon_systems/qa_validate.py:297-359 | Each part of the report in terms of the packet: the required tokens that do not occur, a verdict that is not PASS when asked for, the bad items with their lines, the blocks without key or items, and a region with nothing in it. |
| `QaReading.ReferenceReads` | src/canon_systems/qa_validate.py:57-122 | An item that is a plain file path, alone or with `::` after it, is a pytest entry with the whole text. |
| `QaReading.MissingFileIsReported` | src/canon_systems/qa_validate.py:297-359 | A packet with such an item for a missing file is not evidence-clean: its line and path are reported. |
| `QaReading.MissingEntryIsReported` | src/canon_systems/qa_validate.py:326-347 | So is a packet in which any item of a block comes to such a pytest entry. |
| `QaReading.ErrorReads` | src/canon_systems/qa_validate.py:326-347 | An entry of the other kinds with a blank text is reported for its text, a pytest one for its reference. |
| `QaValidate.EvidenceCleanIff` | src/canon_systems/qa_validate.py:263-359 | Evidence is reported clean exactly when everything parsed, there is a criterion, every criterion has an entry and every entry has its evidence, or when no region was recognised. |
| `QaCoverage.LineCoveredIff` | src/canon_systems/qa_validate.py:125-260 | In lines without parse and structure errors, a line begins a recognised block that has an entry exactly when it is such a criterion line. |
| `QaCoverage.CleanPacketCoversIff` | src/canon_systems/qa_validate.py:263-359 | So in the region of a packet with no such error. |
| `QaCoverage.DeepCriterionPasses` | src/canon_systems/qa_validate.py:181-256 | A `- criterion:` line after a list, at any depth between section and list key but two columns below the section, gets no block, and the packet has no evidence error. |
| `QaValidate.MarkedPacketNeverFaulted` | src/canon_systems/qa_validate.py:16-21 | A packet between `# GATE_RESULTS` and `END_GATE_RESULTS` has a gate block, yet is never faulted for its evidence, whatever lines it holds as long as none starts a region. |
| `VaultTree.VaultDir.PruneAfterDelete` | src/canon_systems/vault_sync.py:114-130 | The upward walk removes exactly the directories only the deleted file kept alive. |
| `VaultTree.VaultDir.MakeParents` | src/canon_systems/vault_sync.py:211-211 | Making parents succeeds exactly when no ancestor is a file, and adds exactly the ancestors. |
| `VaultTree.VaultDir.Write` | src/canon_systems/vault_sync.py:212-212 | Writing fails exactly on a directory. |
| `VaultSync.DeleteStale` | src/canon_systems/vault_sync.py:153-177 | The delete loop removes exactly the files the remote lacks, with pruning, and counts them. |
| `VaultSync.PullOne` | src/canon_systems/vault_sync.py:181-214 | One page is skipped on an equal hash, otherwise written; a clash happens only when the remote does not fit the tree. |
| `VaultSync.PullAll` | src/canon_systems/vault_sync.py:181-214 | The pull loop's files and counters are the specified ones. |
| `VaultMirror.SyncOnce` | src/canon_systems/vault_sync.py:143-221 | A run ends in a mirror with the predicted counters exactly when pages are readable and the remote fits; whatever happens, the tree stays fit for the next run. |
| `VaultReading.MirrorReads` | src/canon_systems/vault_sync.py:143-221 | Being such a mirror is holding exactly the listed pages, all with known metadata: the file as it was where the hashes agree, the page's body elsewhere. |
| `VaultReading.OrderReads` | src/canon_systems/vault_sync.py:179-181 | A run takes the listed pages once each, in the order of their path texts. |
| `VaultReading.PartialReads` | src/canon_systems/vault_sync.py:143-221 | A run that fails has removed the unlisted files, mirrored every page before the one it failed at and left the others as they were. |
| `VaultReading.CountsRead` | src/canon_systems/vault_sync.py:153-221 | The counters are the number of files the remote does not list, of pages whose hashes agree, of the other pages with a body, and the sum of the lengths of these bodies. |
| `VaultMirror.MirrorIsRemote` | src/canon_systems/vault_sync.py:143-221 | With truthful hash metadata a finished run leaves exactly the remote's names and contents. |
| `VaultMirror.HollowFreeFits` | src/canon_systems/vault_sync.py:114-130 | On a tree without hollow directories a remote fits exactly when it is prefix-free. |
| `VaultMirror.StaysHollowFree` | src/canon_systems/vault_sync.py:114-221 | A run that finishes, fails to read a page or clashes keeps a hollow-free tree hollow-free. |
| `VaultMirror.SecondRunIsQuiet` | src/canon_systems/vault_sync.py:163-221 | A second run deletes nothing and pulls exactly the pages without hash metadata. |
| `VaultMirror.CountsCoverRemote` | src/canon_systems/vault_sync.py:181-221 | Pulled plus skipped is the number of remote pages. |
| `VaultMirror.DryRun` | src/canon_systems/vault_sync.py:163-221 | A dry run returns the counters a real run of the same trees returns. |
| `VaultMirror.RunLoop` | src/canon_systems/vault_sync.py:663-687 | Each tick ends in the mirror of its remote, or failed because the listing did (leaving the tree alone) or a page was unreadable, or clashed on a remote that is not prefix-free; the loop waits the interval after a success and the capped doubling backoff after a failure, and ends exactly at a clash or at the 1025th failure in a row. |
| `VaultReading.LoopWaits` | src/canon_systems/vault_sync.py:671-687 | After every tick but one that ended it the loop waits: the interval after a success, one second after a first failure, twice the last wait after each further one, up to a minute. |
| `VaultReading.LoopEndReads` | src/canon_systems/vault_sync.py:671-687 | It goes on until the first clash or the first time 1025 ticks in a row have failed. |
| `VaultMirror.FitRemotesKeepLooping` | src/canon_systems/vault_sync.py:663-687 | With prefix-free remotes no tick clashes, and with every listing and page readable besides every tick succeeds and the loop never ends. |
| `VaultMirror.SurvivedIff` | src/canon_systems/vault_sync.py:671-687 | Clash-free ticks are survived exactly when no 1025 in a row fail. |
| `MetricsRollup.AddSources` | src/canon_systems/metrics_rollup.py:296-302 | The per-source loop merges the event's source table. |
| `MetricsRollup.RecordTask` | src/canon_systems/metrics_rollup.py:255-265 | Time and run accumulators merge the event's contribution. |
| `MetricsRollup.RecordTokens` | src/canon_systems/metrics_rollup.py:276-302 | Token tables merge the event's contribution. |
| `MetricsRollup.RecordBucket` | src/canon_systems/metrics_rollup.py:276-330 | Comparison buckets merge the event's contribution. |
| `MetricsRollup.Aggregate` | src/canon_systems/metrics_rollup.py:206-330 | The filter loop and the accumulation loop compute the fold of the kept events' contributions. |
| `MetricsMeaning.CountersRead` | src/canon_systems/metrics_rollup.py:206-330 | Over exactly the events that meet every filter the query names: how many there are, how many stalls and notifications, and the sum of the retrieval totals. |
| `MetricsMeaning.PublishesRead` | src/canon_systems/metrics_rollup.py:304-311 | How many of them are publishes that went through, and how many that failed. |
| `MetricsMeaning.IncidentsRead` | src/canon_systems/metrics_rollup.py:267-274 | A stage or task is listed exactly when a selected event fails there or stalls it, with how often. |
| `MetricsMeaning.AgentsRead` | src/canon_systems/metrics_rollup.py:276-285 | Each agent is listed exactly when it has a selected retrieval with totals, with their sums. |
| `MetricsMeaning.PhasesRead` | src/canon_systems/metrics_rollup.py:283-288 | So is each of the five phases, and no other agent. |
| `MetricsMeaning.SourcesRead` | src/canon_systems/metrics_rollup.py:296-302 | Each source is listed exactly when a selected retrieval lists it, with the sums of what they list under it. |
| `MetricsMeaning.BucketTokens` | src/canon_systems/metrics_rollup.py:289-295 | A bucket has the name of a selected retrieval or outcome, and its tokens are those of the retrievals so named. |
| `MetricsMeaning.BucketOutcomes` | src/canon_systems/metrics_rollup.py:313-322 | How many outcomes so named there are, and how many finished. |
| `MetricsMeaning.BucketGates` | src/canon_systems/metrics_rollup.py:322-326 | How many of them passed the gate and how many failed it. |
| `MetricsMeaning.BucketSums` | src/canon_systems/metrics_rollup.py:327-330 | The sums of their seconds, retries, reopens and reworks. |
| `MetricsMeaning.RunsRead` | src/canon_systems/metrics_rollup.py:262-265 | A run id is recorded under a task and phase exactly when a selected event with an id is a run of it. |
| `MetricsMeaning.LeadReads` | src/canon_systems/metrics_rollup.py:255-260 | A task's lead time runs from one to another instant of its selected events and covers them all. |
| `MetricsMeaning.StampsRead` | src/canon_systems/metrics_rollup.py:262-263 | A phase's instants on a task are recorded as often as its selected events have them. |
| `MetricsLaws.AggregateMerges` | src/canon_systems/metrics_rollup.py:206-330 | The accumulators of two streams, merged by sum, minimum and maximum, and set union, are those of their concatenation. |
| `MetricsLaws.AggregateIgnoresOrder` | src/canon_systems/metrics_rollup.py:206-330 | The rollup depends only on the multiset of events. |
| `MetricsLaws.RollupsFormMonoid` | src/canon_systems/metrics_rollup.py:226-243 | Merging rollups is associative and commutative with the empty rollup as unit. |
| `MetricsLaws.RunsAreDistinctIds` | src/canon_systems/metrics_rollup.py:262-265 | A task and phase's runs are exactly its distinct run ids. |
| `MetricsLaws.LeadSpansTask` | src/canon_systems/metrics_rollup.py:255-260 | Lead time spans the least to the greatest usable timestamp of the task. |
| `MetricsLaws.AgentTokensAreTheirOwn` | src/canon_systems/metrics_rollup.py:276-285 | Each agent's tokens are those of exactly its own events. |
| `MetricsLaws.PhasesAreAgents` | src/canon_systems/metrics_rollup.py:283-288 | The phase table is the agent table restricted to the five phases. |
| `MetricsLaws.BucketsConserveTokens` | src/canon_systems/metrics_rollup.py:276-295 | Comparison buckets split the token totals without loss. |
| `MetricsLaws.BucketsConserveOutcomes` | src/canon_systems/metrics_rollup.py:313-330 | Each task outcome is counted in exactly one bucket. |
| `MetricsLaws.IncidentsConserved` | src/canon_systems/metrics_rollup.py:267-274 | DoR causes sum to the DoR failures, per-task stalls to the stalls naming a task, and the event total is the number kept. |
| `MetricsLaws.FinalizeRetries` | src/canon_systems/metrics_rollup.py:359-369 | The retry table holds runs minus one where positive and sums to the total. |
| `MetricsLaws.RetriesCountRepeatedRuns` | src/canon_systems/metrics_rollup.py:262-369 | End to end, retries of a task and phase are its distinct run ids minus one. |
| `MetricsLaws.AverageIsNearest` | src/canon_systems/metrics_rollup.py:128-135 | The average elapsed time times n is within half of n of the sum. |
| `LivePlanIds.FindNextId` | src/canon_systems/live_plan.py:225-235 | The search loop terminates on any list with an id not in it, the first free number past the length. |
| `LivePlanIds.NextIdReads` | src/canon_systems/live_plan.py:225-235 | The next id has the least number above the length of the list whose id is not in it. |
| `LivePlanIds.IdReads` | src/canon_systems/live_plan.py:225-235 | An id is the prefix, a hyphen and the decimal digits of its number, at least three. |
| `LivePlanIds.IdsDiffer` | src/canon_systems/live_plan.py:232-235 | Zero-padded decimal ids of different numbers differ. |
| `LivePlanIds.UsedBounded` | src/canon_systems/live_plan.py:233-234 | A list can only use up as many numbers as it has ids, which bounds the search. |
| `LivePlanIds.NumberedListContinues` | src/canon_systems/live_plan.py:225-235 | On a list only ever numbered here the next id is the next number. |
| `LivePlan.Session.ProposeItem` | src/canon_systems/live_plan.py:553-621 | Proposing appends the item and, when it needs read-back, one pending hand linked to it. |
| `LivePlan.Session.ConfirmItem` | src/canon_systems/live_plan.py:1764-1777 | Confirming updates the first item with the id and settles its first pending hand, or fails changing nothing. |
| `LivePlan.Session.ResolveHand` | src/canon_systems/live_plan.py:624-630 | Resolving settles the first hand with the id, or fails changing nothing. |
| `LivePlan.Session.Ingest` | src/canon_systems/live_plan.py:1725-1798 | Ingesting an event performs the operation it stands for; a failed event leaves the session as it was. |
| `LivePlanMeaning.SegmentReads` | src/canon_systems/live_plan.py:1730-1738 | A segment event appends one segment with the payload's trimmed texts or their defaults, stamped now when the payload gives no time, and changes nothing else. |
| `LivePlanMeaning.ReferenceReads` | src/canon_systems/live_plan.py:1739-1750 | So does a reference event, with its flag. |
| `LivePlanMeaning.ItemReads` | src/canon_systems/live_plan.py:1751-1763 | A proposal appends an item with its texts and trimmed evidence, and a pending hand that asks to read it back unless the payload waives it. |
| `LivePlanMeaning.VerdictReads` | src/canon_systems/live_plan.py:1764-1777 | A verdict gives the first item with the id its status, the texts that are not blank and the time if it is confirmed or amended, approves or else dismisses the first hand waiting on it, and changes nothing else. |
| `LivePlanMeaning.VerdictMisses` | src/canon_systems/live_plan.py:579-596 | It fails when no item has the id. |
| `LivePlanMeaning.RaiseReads` | src/canon_systems/live_plan.py:1778-1784 | A raise appends one pending hand with the given reason and item. |
| `LivePlanMeaning.ResolveReads` | src/canon_systems/live_plan.py:624-630 | A resolution gives the first hand with the id its status and the time, pending or not. |
| `LivePlanMeaning.ModeReads` | src/canon_systems/live_plan.py:1792-1797 | A mode event sets the mode and nothing else. |
| `LivePlanMeaning.UnsupportedReads` | src/canon_systems/live_plan.py:1725-1798 | An event without a payload object or of no known type fails as such. |
| `LivePlan.IngestBatch` | src/canon_systems/live_plan.py:1825-1839 | A batch is stored only when every event succeeds. |
| `LivePlanMeaning.BatchReads` | src/canon_systems/live_plan.py:1825-1839 | A batch goes through the states its events lead to one after the other, to the end or to the first event that fails, whose error it gives. |
| `LivePlanLaws.ApplyKeepsUniqueIds` | src/canon_systems/live_plan.py:502-639 | Every operation keeps segment, reference, item and hand ids unique. |
| `LivePlanLaws.ApplyKeepsStamps` | src/canon_systems/live_plan.py:579-596 | An item has a verification time exactly when it is confirmed or amended. |
| `LivePlanLaws.ApplyExtends` | src/canon_systems/live_plan.py:502-639 | Transcript and references only grow; items and hands keep their ids and order. |
| `LivePlanLaws.ApplyLinkedIff` | src/canon_systems/live_plan.py:579-639 | That every pending linked hand points at an item awaiting read-back and is its only pending one survives an operation exactly when a raise or reopening meets a guard the caller can check. |
| `LivePlanLaws.ApplyPointingIff` | src/canon_systems/live_plan.py:579-639 | Pointing alone survives exactly when a raised or reopened hand points well and a verdict falls on an item without a second pending hand. |
| `LivePlanLaws.LinkedIffVerdictsPoint` | src/canon_systems/live_plan.py:1764-1777 | The first invariant is pointing, now and after a confirmation of any item. |
| `LivePlanLaws.RunKeepsSound` | src/canon_systems/live_plan.py:502-639 | All of this over every sequence of operations with the command line's statuses and unlinked raises. |
| `LivePlanLaws.BatchKeepsSound` | src/canon_systems/live_plan.py:1825-1839 | And over every event batch that goes through. |
| `LivePlanLaws.LinkedRaiseOutlivesConfirmation` | src/canon_systems/live_plan.py:1764-1784 | A linked second hand stays pending on a confirmed item. |
| `StoreKeys.LedgerKeyInjective` | backend/shared/canon_backend_shared/run_ledger.py:87-114 | A ledger key determines every trimmed field. |
| `KeyReading.LedgerKeyReads` | backend/shared/canon_backend_shared/run_ledger.py:87-114 | A ledger row lies at `company#repository#run_ledger` and `plan#task#workstream#run`, trimmed, and has a key exactly when all six are safe: not blank, at most 256 characters, without separators and steps up the tree. |
| `KeyReading.LedgerKeyRejects` | backend/shared/canon_backend_shared/run_ledger.py:87-114 | Otherwise the error names the first unsafe field, in the order of the key, and what is wrong with it. |
| `StoreKeys.LedgerKeysDisjoint` | backend/shared/canon_backend_shared/run_ledger.py:95-114 | Ledger partition keys are never checkpoint partition keys. |
| `StoreKeys.LedgerKeysNotTaskKeys` | backend/shared/canon_backend_shared/run_ledger.py:95-114 | Nor task partition keys. |
| `StoreKeys.TaskKeyInjective` | backend/shared/canon_backend_shared/tasks.py:55-73 | A task event's key determines company, ref and event id. |
| `KeyReading.TaskKeyReads` | backend/shared/canon_backend_shared/tasks.py:55-78 | A task event lies at `company#tasks` and `ref#evt#id`, trimmed, its task's prefix is `ref#evt#`, and it has a key exactly when none is blank or holds a separator. |
| `KeyReading.TaskKeyRejects` | backend/shared/canon_backend_shared/tasks.py:55-78 | Otherwise the error names the first such field and whether it is blank. |
| `StoreKeys.PrefixSelectsTask` | backend/shared/canon_backend_shared/tasks.py:70-78 | A row matches a task's prefix exactly when it is the task's. |
| `StoreKeys.TaskKeyMeetsCheckpointIff` | backend/shared/canon_backend_shared/tasks.py:14-17 | A task key equals a checkpoint key exactly for repository `tasks` and task `evt`. |
| `Delimited.SplitJoin` | backend/shared/canon_backend_shared/packet_archive.py:113-124 | Delimiter-free parts survive joining and splitting. |
| `ArchiveKeys.NormalizeArchivePrefix` | backend/shared/canon_backend_shared/packet_archive.py:113-124 | The loop over prefix pieces computes the specified prefix or error. |
| `ArchiveKeys.PrefixNormalForm` | backend/shared/canon_backend_shared/packet_archive.py:113-124 | A normalised prefix is a fixed point. |
| `KeyReading.PrefixReads` | backend/shared/canon_backend_shared/packet_archive.py:113-124 | A prefix is accepted exactly when each piece between slashes is blank or safe, and is then its trimmed pieces that are not blank, joined again, wherever spaces and slashes stand. |
| `KeyReading.PrefixRejects` | backend/shared/canon_backend_shared/packet_archive.py:113-124 | Otherwise the error says what is wrong with its first unsafe piece. |
| `ArchiveKeys.ArchiveKeyInjective` | backend/shared/canon_backend_shared/packet_archive.py:127-161 | Under one prefix an object key determines all fields, the digest, and the subtype whether present or not. |
| `KeyReading.ArchiveKeyReads` | backend/shared/canon_backend_shared/packet_archive.py:127-161 | An object lies at its prefix, `v1`, the eight trimmed scope fields in order, the subtype if it has one and the digest in lower case; it has a key exactly when prefix and fields are safe and the digest is 64 hexadecimal digits. |
| `KeyReading.ArchiveKeyRejects` | backend/shared/canon_backend_shared/packet_archive.py:127-161 | Otherwise the error is the prefix's, else the digest's, else that of the first unsafe field in the order of the key. |
| `LedgerRecord.NormalizeEach` | backend/shared/canon_backend_shared/run_ledger.py:191-210 | The list loops normalise every element in order or reject. |
| `LedgerRecord.FillTexts` | backend/shared/canon_backend_shared/run_ledger.py:325-339 | The loop over copied keys keeps exactly the present texts, normalised, or rejects. |
| `LedgerRecord.MapArchiveRecord` | backend/shared/canon_backend_shared/run_ledger.py:136-156 | The loop over a record's items keeps exactly the allowed non-null ones, the digest normalised, or rejects. |
| `LedgerRecord.ValidateEvidence` | backend/shared/canon_backend_shared/run_ledger.py:325-339 | Evidence is rejected with a body field or when nothing remains. |
| `LedgerRecord.ValidateOutcomes` | backend/shared/canon_backend_shared/run_ledger.py:266-300 | The loop over the six slots keeps exactly the non-empty ones, normalised, or rejects. |
| `LedgerStored.ValidatedReads` | backend/shared/canon_backend_shared/run_ledger.py:358-440 | Which records are accepted, and what is stored: each single-valued text is the trimmed text of the input field of that name or nothing, and lists and objects hold the stored forms of their own elements, in order. |
| `LedgerStored.EvidenceReads` | backend/shared/canon_backend_shared/run_ledger.py:325-339 | Which evidence is accepted, and that it stores exactly its texts under their own keys, trimmed, the digest in lower case. |
| `LedgerStored.ArchiveReads` | backend/shared/canon_backend_shared/run_ledger.py:136-156 | The same for an archive reference. |
| `LedgerStored.OutcomesRead` | backend/shared/canon_backend_shared/run_ledger.py:266-300 | The same for outcomes: the known slots that are filled, each from its own input. |
| `LedgerStored.DeploymentReads` | backend/shared/canon_backend_shared/run_ledger.py:240-263 | The same for a deployment. |
| `LedgerRecord.MergeSnapshots` | src/canon_systems/run_ledger.py:129-139 | The loop appends one reference per snapshot and validates the result. |
| `LedgerLaws.EvidenceFixedIff` | backend/shared/canon_backend_shared/run_ledger.py:325-339 | A normalised evidence reference is accepted unchanged exactly when no text was only white space. |
| `LedgerLaws.OutcomesFixedIff` | backend/shared/canon_backend_shared/run_ledger.py:266-300 | The same for validation outcomes. |
| `LedgerLaws.ArchiveFixed` | backend/shared/canon_backend_shared/run_ledger.py:136-156 | A stored archive reference maps to itself. |
| `LedgerLaws.ValidatedTwiceIff` | backend/shared/canon_backend_shared/run_ledger.py:358-440 | Validating an accepted record again changes nothing exactly when none of its evidence and outcome texts was only white space. |
| `LedgerLaws.KeysAgreeIff` | backend/shared/canon_backend_shared/run_ledger.py:443-453 | A record's keys are those of its normal form exactly when every evidence reference has a copied text that is not only white space; otherwise the normal form is rejected. |
| `LedgerLaws.MergeAppends` | src/canon_systems/run_ledger.py:129-139 | Merging appends exactly the snapshots' normalised references and is accepted exactly when record, snapshots and their number are. |
| `ReleasePublish.ShouldPublish` | src/canon_systems/release_publish.py:171-176 | All three gates pass, or the first that does not is named. |
| `ReleasePublish.GatesRead` | src/canon_systems/release_publish.py:171-176 | All gates pass exactly when each status is the word pass in any case. |
| `ReleasePublish.InvokePublish` | src/canon_systems/release_publish.py:231-257 | The retry loop stops at the first run that exits 0 or at the clamped limit, returns that run's code, and sleeps the capped doubling delay after each earlier one. |
| `ReleasePublish.DelaysGrowToCap` | src/canon_systems/release_publish.py:254-254 | Delays never shrink and never exceed the cap. |
| `ReleasePublish.DelayReads` | src/canon_systems/release_publish.py:254-254 | The first pause is the base and each next one twice the last, within the cap. |
| `ReleasePublish.StateDir.Run` | src/canon_systems/release_publish.py:413-537 | The report and the sentinels are as specified, and the attempts reported are the subprocesses run. |
| `ReleasePublish.ReportReads` | src/canon_systems/release_publish.py:413-537 | What is reported and written, from the invocation alone: a passing, configured one without a sentinel is published exactly when a run within the clamped limit exits 0, at the first such run, and writes a sentinel unless it is a dry run; otherwise it failed with the last run's code and the limit. |
| `ReleasePublish.SkippedIffPublishedBefore` | src/canon_systems/release_publish.py:476-484 | Over any sequence of invocations a passing one is skipped exactly when its sentinel was there at the start or was written by an earlier real success. |
| `ReleasePublish.AtMostOnePublish` | src/canon_systems/release_publish.py:476-522 | Of all invocations sharing a sentinel at most one real publish succeeds. |
| `ReleasePublish.SameSentinelIff` | src/canon_systems/release_publish.py:191-193 | Two invocations share a sentinel path exactly when their plan ids name one directory and their releases have one safe form. |
| `ReleasePublish.SentinelReads` | src/canon_systems/release_publish.py:191-193 | The sentinel is the safe form of the release, with `.json`, under the steps of the plan id, below the state directory unless the id is absolute. |
| `ReleasePublish.SafeFormReads` | src/canon_systems/release_publish.py:191-193 | The safe form keeps ASCII letters, digits, dots, hyphens and underscores and puts one underscore for each run of other characters. |
| `ReleasePublish.PlainSentinel` | src/canon_systems/release_publish.py:191-193 | A plainly named release of a single-component plan has the sentinel `<state dir>/<plan>/<release>.json`. |
| `ReleasePublish.SafeNamesApart` | src/canon_systems/release_publish.py:191-193 | Names of safe characters only never have the same safe form. |
| `ReleasePublish.AloneIffPlain` | src/canon_systems/release_publish.py:191-193 | A release name shares its safe form with no other exactly when all its characters are safe and none is an underscore. |
| `ReleasePublish.PlainReleaseSkippedIff` | src/canon_systems/release_publish.py:476-484 | From a fresh state such a release is skipped exactly when that same release was really published before for a plan id naming the same directory. |
| `ReleasePublish.NamedPlanSkippedIff` | src/canon_systems/release_publish.py:476-484 | Where all plan ids are single path components and the state directory is one: for the same plan id. |
| `ReleasePublish.RespelledPlanIsSkipped` | src/canon_systems/release_publish.py:191-193 | A publish for a plan id with a slash added makes the release of the plan itself be skipped. |
| `ReleasePublish.LookalikeReleaseIsSkipped` | src/canon_systems/release_publish.py:191-197 | Every other release has a look-alike whose publish makes it be skipped although it was never published. |

## Left out

- Clocks, id generation, HTTP, object storage, subprocesses and JSON text: timestamps, fresh ids, responses, exit codes
  and parsed values are parameters or step choices; hashes are an abstract function that tells the contents in play apart.
- The server's row limit on a fetch: a fetch returns any rows the server holds. The push made while recording is the sync's
  push: its event always names a company. The ledgers a sync scans under a work directory
  are in `TaskSync.Workstation.SyncServer` and not in the step system.
- What the server changes in a row beyond the company: it fills a missing `schema_version` and drops `pk` and `sk`
  (backend/shared/canon_backend_shared/tasks.py:91-101), which the model's events do not have. The generic results hold
  for any such rewriting; those about naming a company are for lines with a schema version and without these keys.
- Same-machine races between a ledger append and a sync rewrite; a local read, merge and write is one step per machine.
- Text forms of history lines: a change is recorded as field, before and after.
- Field values that are neither text nor a list of texts, and `str()` of lists.
- Case mapping is modelled on the characters that map to ASCII letters; other digits than ASCII in timestamps are rejected.
- Code points that Python's `_invert` would turn into surrogates are handled as numbers.
- The verdict regular expression of the QA validator: the verdict is a parameter. Packet lines are split at newlines only.
- VaultMirror.StaysHollowFree: does not cover a failed write or a kill between making directories and writing the file
  (src/canon_systems/vault_sync.py:211-212) or between deleting a file and pruning; either leaves a hollow directory.
- ReleasePublish.PlainReleaseSkippedIff: compares plan directories by their path components, so `..` components and
  symbolic links that make two of them one directory, and a plan directory that is itself a sentinel file, are not covered.
- Symbolic links and path names with `.` or `..` components in the vault, and the tick limit of its run loop; its
  interval is a whole number.
- Cycle times (rounded averages of spans per phase) and timestamp rendering in the metrics: the stamps they are computed
  from are modelled and order-independent. Timestamps are instants, so offsets that render differently are equal.
- Participants, documents, manifests and Google Meet commands of live plan; they do not change the four lists.
- ReleasePublish.StateDir.Run: the notifier call and the emitted events are not modelled; a crash between
  a publish and its sentinel is outside sequential runs.
- Error message texts; `LedgerRecord` only tells accepted from rejected records, and its UUID parsing is a parameter
  whose canonical form is assumed to be stable.
- Values of the wrong JSON type in ledger records: fields are texts or null, counts are numbers or not numbers.
- Lease and checkpoint endpoints are not part of this model.
