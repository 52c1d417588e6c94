# Verification of the run console

The console drives one installation run at a time against a Kubernetes cluster: it discovers the
cluster, builds and applies a recipe, proves the result with a reference workload, and can reset
what it installed. This project models that machinery in Dafny and proves what it promises over
every interleaving, every failing call, every crash point and every input.

`dafny verify dfyconfig.toml` checks all of it.

## How it is organised

| files | what they model |
|---|---|
| `Wrappers`, `Run`, `Ordering` | options and error codes, the run record, byte order and the stable sort |
| `EngineSpec`, `Engine` | each hold of the engine mutex as a function, and the engine object whose methods do exactly that in place |
| `Process` | the threads around the engine object: any schedule performed in place, through the engine's methods, ends where the machine's run does |
| `Machine` | the holds interleaved: API calls and goroutines are threads with a program counter and a captured epoch, Store and cluster calls are separate steps that may fail |
| `Structure`, `Tracking`, `Decisions`, `Books`, `Attribution` | the invariants of that machine, each preserved by every event |
| `Safety`, `Restart` | the main results about whole runs of the engine, and what they need of the record a process boots on |
| `Proving` | the Prove step and its cleanup, and its agreement with the machine's five calls |
| `Recovery`, `Envelope`, `Records`, `Stores` | restart and reconciliation, the persisted projection, what every schedule saves, the file store against the memory store |
| `Effects` | each call and hold read off the run's own fields: what is open, what is answered, what is left |
| `Ownership`, `Teardown`, `Undo`, `Deploy` | the snapshot Apply takes, what Reset removes on it, and that inside the engine, over whole schedules, the two undo each other |
| `ObserverSpec`, `ObserverRuns`, `Observer` | the observer's tracked conditions, their invariants over all deliveries and scopes, and the object |
| `BusSpec`, `Bus`, `Client` | the event ring and its subscribers, and the browser's end of the stream |
| `Timestamps`, `Folding`, `Conditions` | instants and their RFC 3339 text, and the precedence rule implemented twice |
| `Scope`, `Tolerations` | the cached run-scope accessor; the derivation, printing and parsing of GPU tolerations |

An event of the machine names the thread that moves and how the outside world answers it, so a
sequence of events is an arbitrary schedule with arbitrary failures. The history fields are written
by every event and read by none.

## What turned out false, and what holds instead

* A failed Reset checkpoint drops the guard over a running workload: it lands in plain Failed with
  the residue wiped, even from Active. `Safety.FailedResetExactly` and `GuardDroppedExactly` say
  when; `WorkloadGuarded` holds of every other run's workload.
* "Apply only ever runs on a bundle this process built" fails for a record recovered as Done or
  Active part-way through the pipeline: Recover rewinds only Failed runs, and a Reset that cannot save
  its checkpoint turns such a run into Failed without rewinding, for Retry to run on. It fails over
  all schedules exactly for such records that a Reset takes on (`Restart.RecoveredBundleExactly`);
  `LostBundleApplied` gives the schedule.
* The sticky cleanup mark on a run that ended Done does not hold Discard back
  (`Recovery.CrashKeepsDiscardGuard`).
* Zero ownership evidence is documented as removing nothing (internal/engine/run.go:355-358); the
  code uninstalls every row with a namespace (`Teardowns.NoEvidenceStillRemoves`).
* The refusal to install over a previous install is the first attempt's alone: a Retry goes through
  (`Undo.RefusedOnlyOnce`).
* With an empty run ID the file store and the memory store part ways (`Stores.EmptyIdDiverges`).
* A snapshot delivered over a condition already narrated takes its narrated mark away, and the
  deletion that follows leaves the condition standing (`ObserverRuns.LateSnapshotBreaks`). Exactly
  which deliveries break the promise is `StrandsExactly`, over whole runs `OpenIsTrackedExactly`.
* Comparing timestamps as plain text would rank a whole second above its own fractions
  (`Timestamps.PlainOrderMisranks`); the browser's split comparison does not.

## Model

| member | source | states |
|---|---|---|
| Safety.SoleDriver | internal/engine/engine.go:346-507 | in every interleaving, with any Save failing, at most one thread drives; it carries the current epoch; the run is live iff it exists; no nil run is dereferenced and no done channel closed twice |
| Safety.WorkloadGuarded | internal/engine/engine.go:368-394 | a workload in the cluster belongs to the current run and both Start and Discard are refused, excepting only a run whose own guard a failed Reset checkpoint dropped |
| Safety.FailedResetExactly | internal/engine/reset.go:155-194 | what a Reset whose checkpoint Save fails leaves: Retry open, Discard refused iff the sticky flag was set, Start iff it was or the recovered gate holds |
| Safety.GuardDroppedExactly | internal/engine/reset.go:155-194 | a Discard can then take the record and leave the workload behind iff the workload is there and the sticky flag was not set |
| Safety.StaleChangesNothing | internal/engine/engine.go:507 | a goroutine of a superseded epoch moves without changing the run, the cursor, a channel or the epoch |
| Safety.ReleasedForGood | internal/engine/engine.go:525-543 | once CancelAndWait has returned nil no driver exists, the run is not live, and this stays so whatever happens next |
| Safety.StepHasItsKeys | internal/engine/engine.go:761-809 | a goroutine past its gate holds every key its step requires, each accepted by a Decide at a gate and each already in a completed Save |
| Safety.AcceptedWhileParked | internal/engine/engine.go:559-613 | a key becomes accepted only by a Decide on the run awaiting it, with that key pending and every pending key answered |
| Safety.ParkedIsAsking | internal/engine/engine.go:761-809 | a parked goroutine waits either on a run asking for all its step still needs, or on a wake-up already sent or about to be |
| Safety.WakeUpDelivered | internal/engine/engine.go:641-653 | in every reachable state of a process not shutting down, a Decide about to return nil finds the one-slot buffer empty and its wake-up lands in the channel the parked goroutine waits on |
| Safety.WokenBegins | internal/engine/engine.go:761-827 | a goroutine with a wake-up waiting reaches the start of its step in two moves |
| Safety.StepsInOrderOnce | internal/engine/engine.go:1003-1060 | across failures and Retries a run's completed steps are consecutive from where it began and end at its step index |
| Safety.ApplyHasItsBundle | internal/engine/recover.go:290-298 | past the Bundle step the run, and the copy its step works on, hold the bundle path this process's own Bundle wrote |
| Safety.RecipeWrittenOnce | internal/engine/engine.go:1003-1014 | once a run has a recipe, every later state reads the same one |
| Safety.SuccessIsMerged | internal/engine/engine.go:1003-1060 | over every schedule, a step that succeeded leaves the run with every artifact of its copy and those it had, its inventory, ownership snapshot, agent namespace, workload and verdict, one step on |
| Safety.FailureIsKept | internal/engine/engine.go:914-945 | over every schedule, a step that failed leaves the run its rows, snapshot and agent namespace, nothing else of its copy, and the cleanup mark moved only by evidence |
| Safety.Always | internal/engine/engine.go:346-1497 | the structural invariant (epoch ownership, one driver, gate tokens, calls in flight) holds of every reachable state |
| Safety.AlwaysTracked | internal/engine/engine.go:914-945 | the workload invariant holds of every reachable state when Prove is the last step |
| Safety.AlwaysVouched | internal/engine/engine.go:559-653 | the decision invariant holds of every reachable state |
| Safety.AlwaysBooked | internal/engine/engine.go:1003-1060 | the step, bundle and recipe books balance in every reachable state |
| Structure.NextKeeps | internal/engine/engine.go:346-1497 | every single event, of whatever thread and answered however, preserves the structural invariant |
| Structure.OneDriver | internal/engine/engine.go:495-507 | a driver is the owner of the current epoch, and its run is live |
| Tracking.NextTracks | internal/engine/engine.go:1273-1298 | every event keeps each workload behind a live, Active or guarded current run, Stop racing Retry, Reset and Discard included |
| Decisions.NextVouches | internal/engine/engine.go:559-653 | every event keeps the run's decisions accepted and, when it is driven past a gate, durable; a rolled-back Decide leaves none behind |
| Books.NextBooks | internal/engine/engine.go:725-756 | every event keeps completed steps consecutive, the bundle path this process's own past its step, and the recipe single |
| Books.RecipeStays | internal/engine/engine.go:1003-1014 | one event leaves a run's recipe as it is |
| Books.BundledByBundle | internal/steps/bundle.go:97 | a run's recorded bundle path comes only out of a merging Bundle step and is what that step wrote |
| Attributions.NextPoints | internal/engine/attribution.go:131-183 | the cursor names an action only while the live run's own goroutine is inside its Apply step |
| Machine.NextRemembers | internal/engine/engine.go:559-613 | only Start uses up an ID, only an accepted Decide adds accepted keys, only a merge a recipe or bundle path, and a release is never taken back |
| Effects.OpenByState | internal/engine/engine.go:346-394 | which of Start, Retry, Reset, Discard and Stop are open in each state of the run, and what holds each back |
| Effects.OpenOnNone | internal/engine/engine.go:346-394 | with no run only Start is open, unless a recovered record waits |
| Effects.RefusedWith | internal/engine/reset.go:104-150 | which error each refused call is answered, draining first, then a run that is not there, then a foreign cluster |
| Effects.AnswerTakenExactly | internal/engine/engine.go:559-594 | an answer is taken iff the run named is asking and the keys are the ones asked for |
| Effects.StartLeaves | internal/engine/engine.go:395-432 | a started run has its ID, its cluster and toolchain, the time and the first phase, and nothing of any run before it |
| Effects.RetryLeaves | internal/engine/engine.go:1137-1188 | a retried run is as it was but Running, without its error, the gate open, under a new epoch |
| Effects.DecideLeaves | internal/engine/engine.go:596-613 | each answer is among the decisions, over an earlier one for its key, and every other decision stands |
| Effects.CancelLeaves | internal/engine/engine.go:525-543 | CancelAndWait drains, cancels the epoch launched last and waits for it, and a goroutine parked under it gives up |
| Effects.GateAsks | internal/engine/engine.go:761-786 | a gate asks for exactly the keys its step still lacks, under its step's phase, and asks nothing if it lacks none |
| Effects.LoopGoesOn | internal/engine/engine.go:725-756 | with steps left the goroutine goes to the run's next one, with none it ends Active or Done as the last step asks |
| Effects.TeardownLeaves | internal/engine/reset.go:245-290 | a teardown is incomplete iff it was canceled or an item failed, its report is put on the run, and the run ends Failed or Done by it |
| Effects.StopLeaves | internal/engine/engine.go:1455-1497 | a stopped run names its workload, has no cleanup mark, is Done without an error, and opens the gate |
| EngineSpec.MissingExact | internal/engine/engine.go:768-773 | the missing keys are exactly the required ones without a decision |
| Restart.RecoveredBoots | internal/engine/recover.go:215-324 | every record Recover installs, and no record, boots into a state the theorems start from |
| Restart.BootBooksExactly | internal/engine/engine.go:1009-1014 | the recipe books balance at boot iff the record has no recipe from before its Recommend step |
| Restart.RecoveredBundleExactly | internal/engine/recover.go:290-298 | over all schedules of a process booted on a valid record, every step past Bundle works with this process's bundle path iff the record is not Done or Active between Bundle and the end with components and a cluster a Reset accepts |
| Restart.LostBundleApplied | internal/engine/reset.go:155-194 | for every such record, Done or Active, of this or of an unnamed cluster, keys missing or not: a schedule after which a goroutine is inside a later step without a bundle path of this process |
| Engines.Engine.constructor | internal/engine/engine.go:239-246 | a new engine has no run, epoch 0 and an empty cursor |
| Engines.Engine.Start | internal/engine/engine.go:346-432 | in place: the refusals in order, else a fresh run, epoch, resume channel and handles |
| Engines.StartRollsBack | internal/engine/engine.go:434-459 | a Start whose Save fails leaves run and gate as they were, only the epoch moved on |
| Engines.StaleHoldsAreNothing | internal/engine/engine.go:434-507 | a rollback, record or wake-up of a superseded epoch, or about a run no longer current, changes nothing |
| Engines.StaleGoroutineGetsNothing | internal/engine/engine.go:507 | a goroutine of a superseded epoch passes none of its holds, merges nothing, moves no cursor and opens no gate |
| Engines.ResetEnds | internal/engine/reset.go:262-311 | after a Reset an incomplete residue refuses Start, Retry and Discard and leaves another Reset open; a clean one leaves the console free |
| Engines.StopEnds | internal/engine/engine.go:1455-1497 | after an accepted Stop it may be repeated, and Start and Discard are open iff no teardown is incomplete |
| Engines.FinishGuards | internal/engine/engine.go:1062-1088 | what the state a run finishes in means to Discard and Retry |
| Engines.UntouchedStepMergesBack | internal/engine/engine.go:811-827 | a step that leaves its copy as it got it only moves the run on by one, and changes nothing if it fails |
| Engines.SignalThenReceive | internal/engine/engine.go:797-800 | signalling twice is signalling once, and receiving takes it back |
| Engines.CursorComesBack | internal/engine/attribution.go:131-166 | clearing takes back what a marker set, at a later generation; a superseded epoch's marker never shows |
| Engines.DrainRefusesAll | internal/engine/engine.go:525-535 | once draining, Start, Retry, Reset, Discard and Stop are all refused |
| Engines.Engine.Retry | internal/engine/engine.go:1137-1188 | only a Failed run without an incomplete teardown restarts; its error and the recovered gate are cleared |
| Engines.RetryRollsBack | internal/engine/engine.go:1190-1220 | a Retry whose Save fails restores state, error text and gate |
| Engines.Engine.Reset | internal/engine/reset.go:104-171 | the refusals in order, else Resetting under a new epoch with the residue cleared |
| Engines.Engine.Decide | internal/engine/engine.go:559-613 | answers for exactly the pending keys join the decisions; a foreign or missing key changes nothing |
| Engines.AnswersExactly | internal/engine/engine.go:580-594 | the answers are for exactly the requested keys |
| Engines.Overlay | internal/engine/engine.go:1009-1014 | writing the entries of one map over another in any order gives their merge |
| Engines.DecideRollsBack | internal/engine/engine.go:615-639 | a Decide whose Save fails on a live run leaves no trace |
| Engines.Engine.Signal | internal/engine/engine.go:641-653 | the wake-up goes into the current channel, at most once, at that epoch only |
| Engines.Engine.Discard | internal/engine/engine.go:1234-1304 | a live, Active, unconfirmed or half-torn-down run is refused; else the run goes and the gate opens |
| Engines.DiscardRollsBack | internal/engine/engine.go:1309-1334 | a Discard whose Delete fails leaves no trace |
| Engines.DiscardUndoNeedsTheSlot | internal/engine/engine.go:1309-1334 | a discarded run only ever comes back into the slot it left empty |
| Engines.Engine.Stop | internal/engine/engine.go:1390-1422 | accepted exactly for an Active run, a Done one with a workload, or an unconfirmed failure |
| Engines.Engine.AwaitDecisions | internal/engine/engine.go:761-786 | the gate opens iff nothing is missing, else the run parks asking for exactly the missing keys in order |
| Engines.Engine.MergeStepFailure | internal/engine/engine.go:914-945 | components and evidence are kept on failure; the sticky flag moves only on evidence about the cleanup |
| Engines.Engine.MergeStepSuccess | internal/engine/engine.go:1003-1060 | artifacts and decisions merge, the step index advances by one |
| Engines.Engine.Recover | internal/engine/recover.go:215-324 | what is installed, reported or left untouched for every load outcome; nothing else changes |
| Engines.Engine.ReconcileWorkloads | internal/engine/reconcile.go:95-175 | an Active run without its workload ends, an empty slot adopts the least adoptable workload, any record is otherwise left alone, in whatever order the list came |
| Engines.Engine.Adopt | internal/engine/reconcile.go:188-250 | whatever was decided before, a record in place is not adopted over |
| Processes.Process.constructor | internal/engine/engine.go:239-246 | a process begins in a state the theorems about runs start from |
| Processes.Process.Perform | internal/engine/engine.go:346-1497 | one event, performed in place through the engine object, is the machine's step, and keeps its invariant |
| Processes.Process.Serve | internal/engine/engine.go:346-1497 | after any schedule with fresh run IDs the object's state is the machine's, so every result about runs holds of it |
| Recovery.RecoveredIsQuiet | internal/engine/recover.go:215-324 | a record is in place after a restart, not live and with nothing pending, and Start is refused, iff it is valid and of this cluster |
| Recovery.WhatRecoverFinds | internal/engine/recover.go:74-135 | which record is sound, foreign or unreadable, field by field, and that only a missing one is a cold start |
| Recovery.InstalledAs | internal/engine/recover.go:270-324 | what an installed record changes: an interrupted run has failed and says by what, a torn Reset is incomplete, nothing else |
| Recovery.CrashKeepsDiscardGuard | internal/engine/recover.go:215-324 | through Recover's own checks, Discard after a restart is refused iff the record was Active, Resetting, incompletely torn down, or unconfirmed and not Done |
| Recovery.CrashKeepsRetryGuard | internal/engine/recover.go:215-324 | through Recover's own checks, Retry after a restart is refused iff the record was Active, Done, Resetting or incompletely torn down |
| Recovery.GuardsOutliveProcess | internal/engine/recover.go:215-324 | what refused Discard before the crash refuses it after, and the evidence about the cluster is carried over whole |
| Recovery.RewindsToBundle | internal/engine/recover.go:290-298 | a failed or interrupted run resumes at min(StepIndex, Bundle), any other where it stood |
| Recovery.ReconcileKeepsRecord | internal/engine/reconcile.go:95-250 | reconciliation never replaces a record, whatever its ID, nor opens the gate; it only ends an Active run whose workload is gone |
| Recovery.PresentExactly | internal/engine/reconcile.go:95-152 | a workload is a run's iff it carries its label or the name made of its ID |
| Recovery.ReconcileAdoptsLeast | internal/engine/reconcile.go:154-175 | with no record something is adopted iff something is adoptable, and then the one with the least name |
| Recovery.AdoptedIsStoppable | internal/engine/reconcile.go:188-250 | Stop accepts an adopted run and addresses that workload, Start is refused, and the next restart installs the record as it is |
| Recovery.BundleStepIndex | internal/engine/recover.go:48-68 | finds b iff b is the one Bundle step |
| Recovery.LoadCurrentWithRetry | internal/engine/recover.go:169-201 | at most three loads, another one only after a retryable answer and a full wait |
| Provings.AwaitGang | internal/steps/prove.go:176-217 | ends at the first look that finds two distinct members, fails, or spends the budget; each member seen up to then is announced once |
| Provings.MembersExactly | internal/steps/prove.go:176-217 | the members seen are those some look had, each on the node it was first seen on |
| Provings.PlacedExactly | internal/steps/prove.go:176-217 | the gang is placed iff two members have been seen before the budget is spent or a look fails |
| Provings.FailedLookEnds | internal/steps/prove.go:176-217 | a failed look counts as timed out iff the budget is spent |
| Provings.Cleanup | internal/steps/prove.go:307-319 | confirmed iff the delete and the wait for absence both succeeded |
| Provings.RunProve | internal/steps/prove.go:123-163 | the failure is plain iff no create was attempted, confirmed iff the cleanup saw the workload gone, unconfirmed in every other failing case |
| Provings.MovesAlong | internal/steps/prove.go:123-163 | one move of a goroutine inside Prove is one call of the step, and only the create can add the workload |
| Provings.WalkEnds | internal/engine/engine.go:914-945 | the machine's calls end at the merge the step's own outcome calls for |
| Envelopes.LargestArtifact | internal/engine/envelope.go:264-276 | the longest artifact, the smaller key on a tie, whatever the map's order |
| Envelopes.EncodeRun | internal/engine/envelope.go:194-258 | terminates with the first envelope of the shedding that fits, or an error |
| Envelopes.ShedsShortestPrefix | internal/engine/envelope.go:239-256 | exactly the shortest prefix of the order (length descending, key ascending) that makes the record fit is dropped, and it fails only when dropping all does not |
| Envelopes.OrderDeterminesPrefix | internal/engine/envelope.go:264-276 | the order leaves one such prefix of each length |
| Envelopes.LongestGoFirst | internal/engine/envelope.go:264-276 | the artifacts go longest first, then by key, and none kept comes before one that went |
| Envelopes.RoundTrip | internal/engine/envelope.go:304-351 | decoding gives the run less ephemeral and shed artifacts with Truncated extended by the shed ones, and fails iff the record inflates past the bound |
| Envelopes.ReadsExactly | internal/engine/envelope.go:304-318 | a file is read iff it is a record of version 1 that inflates to at most eleven times the ceiling |
| Envelopes.ReencodesToItself | internal/engine/envelope.go:194-258 | a decoded record re-encodes to the same envelope: nothing is shed twice |
| Envelopes.SavedGuardsHold | internal/engine/envelope.go:194-351 | encoded, crashed, decoded, validated and recovered, a recoverable run is in place again iff its record can be read back, and its guards read as its own fields said |
| Records.NextFine | internal/engine/recover.go:112-135 | every event keeps every run in the engine and in every call one that Recover takes |
| Records.AlwaysFine | internal/engine/recover.go:112-135 | so does every schedule |
| Records.SavedIsRecoverable | internal/engine/recover.go:74-135 | every snapshot any schedule hands to any Save passes Recover's validation and is of this cluster; those of runs started here name this cluster and the toolchain |
| Records.CrashLosesNoGuard | internal/engine/recover.go:215-324 | so whatever a schedule last saved, the next process has that run in place with every guard its fields called for, if its record can be read back |
| Records.BootsFine | internal/engine/reconcile.go:188-250 | a recovered record and an adopted run are ones the next Recover takes too |
| Stores.FileStore.constructor | internal/engine/filestore.go:57-65 | a new file store is empty |
| Stores.FileStore.Save | internal/engine/filestore.go:107-121 | both files or an error; a fault between them leaves the run file written and the pointer as it was |
| Stores.FileStore.Load | internal/engine/filestore.go:123-143 | NotFound iff there is no such file; an unreadable one is Internal |
| Stores.FileStore.LoadCurrent | internal/engine/filestore.go:154-174 | NotFound iff there is no pointer or an empty one, however the reads go |
| Stores.FileStore.Delete | internal/engine/filestore.go:176-193 | run file, then pointer; what a fault between them leaves |
| Stores.MemoryStore.constructor | internal/engine/store.go:30-32 | a new memory store is empty |
| Stores.MemoryStore.Save | internal/engine/store.go:34-40 | the run is stored under its ID and is current |
| Stores.MemoryStore.Load | internal/engine/store.go:42-50 | the run stored under the ID, or NotFound |
| Stores.MemoryStore.LoadCurrent | internal/engine/store.go:52-63 | the current run, or NotFound |
| Stores.MemoryStore.Delete | internal/engine/store.go:65-71 | the current run goes and nothing is current |
| Stores.StepRefines | internal/engine/filestore.go:107-193 | one operation keeps the two stores in step and is answered alike, up to the encoding's projection |
| Stores.FileStoreRefines | internal/engine/filestore.go:107-193 | after any operation sequence the file store answers the next one as the memory store does |
| Stores.EmptyIdDiverges | internal/engine/store.go:65-71 | with an empty run ID a second Delete makes the two stores answer differently |
| Stores.SaveCrashIsAtomic | internal/engine/filestore.go:107-121 | a crash anywhere in Save leaves the current record as before or as after, never dangling, and touches no other run |
| Stores.DeleteCrashNeverLooksAbsent | internal/engine/filestore.go:154-193 | a crash inside Delete may dangle the pointer, which reads as Internal and never as NotFound, and a second Delete completes it |
| Stores.SmallIsKeptWhole | internal/engine/filestore.go:107-143 | a record that packs into 64 MiB comes back whole, but for its bundle path |
| Ownerships.SnapshotOwnership | internal/steps/ownership.go:46-103 | the snapshot loop over sorted distinct namespaces, every probe failure recorded |
| Ownerships.SnapshotNamesSorted | internal/steps/ownership.go:46-65 | each namespace asked about is snapshotted once, in order |
| Ownerships.SnapshotIsEvidence | internal/steps/ownership.go:72-103 | a snapshot of an honest cluster lists exactly the releases of the namespaces it could read, and marks the others |
| Ownerships.UpsertComponent | internal/steps/apply.go:144-169 | the marker's row is updated in place or appended |
| Ownerships.UpsertKeepsRows | internal/steps/apply.go:144-169 | one row per component, the header's values carried forward, every other row as it was |
| Ownerships.HeaderIsCarried | internal/steps/apply.go:127-169 | after a status marker a component's row has the place and namespace its header gave and the latest status |
| Ownerships.AlreadyInstalled | internal/steps/ownership.go:268-276 | exactly the recipe's hazardous releases that were there before |
| Teardowns.Purge | internal/teardown/purge.go:123-141 | objects are attempted in order up to the first cancellation seen |
| Teardowns.Releases | internal/teardown/teardown.go:81-180 | the loop over every row, greatest index first, with its cluster, outcomes and cancellation |
| Teardowns.TearsBackwards | internal/teardown/teardown.go:84-92 | the rows are torn down greatest index first, rows of one index in their given order, each once |
| Teardowns.TearRemovesExactly | internal/teardown/teardown.go:81-135 | what leaves the cluster is exactly the releases whose uninstall was tried and went through, or removed them anyway |
| Teardowns.FirstReasonApplies | internal/teardown/teardown.go:94-117 | which reason a row is skipped for, an unseen namespace before an entry already there |
| Teardowns.LeftoversTried | internal/teardown/purge.go:40-141 | the four objects kai-scheduler leaves behind are tried in order, each reported as it went |
| Teardowns.InventoryTells | internal/teardown/adapter.go:65-104 | every release and every object tried is listed, and called removed iff it was removed without an error |
| Teardowns.RemovesOnlyProvable | internal/teardown/teardown.go:81-135 | nothing is removed that the evidence does not prove this run's, failing or canceled or not |
| Teardowns.CleanRemovesAllProvable | internal/teardown/teardown.go:81-135 | a clean teardown removes every release the evidence proves this run's |
| Teardowns.OutcomeOfRow | internal/teardown/teardown.go:81-135 | one outcome per row, skipped for the first reason that applies, objects only after a confirmed uninstall |
| Teardowns.StoppedStaysPut | internal/teardown/teardown.go:94-135 | once a cancellation is seen every later row is skipped and the cluster stays as it is |
| Teardowns.NoEvidenceStillRemoves | internal/engine/run.go:355-358 | with no ownership evidence every row with a namespace is uninstalled unless a cancellation came first, and a clean teardown leaves none of them, against what the type's comment says |
| Teardowns.NamespaceResidue | internal/engine/reset.go:370-406 | every namespace the run knows of is reported, none as removed, and the added ones once |
| Undo.BeginApply | internal/steps/apply.go:57-87 | without a bundle nothing is touched; else the snapshot is taken on the first attempt only, and the install refused iff a hazardous release of the recipe's own was there |
| Undo.RefusedOnlyOnce | internal/steps/apply.go:74-87 | with the snapshot a refusal left behind, the next attempt is not refused and works on that same snapshot |
| Undo.RefusedOverKai | internal/steps/ownership.go:268-276 | the install is refused iff a kai-scheduler of the recipe's own was there before |
| Deployments.AlwaysSited | internal/steps/apply.go:57-111 | over any schedule of the engine with Applies and teardowns going on in it, the evidence in force, that of an open copy, of a step about to be merged or of the run, is true of the cluster the run found and covers all it installed |
| Deployments.OriginalsSurvive | internal/teardown/teardown.go:81-135 | at every point of every schedule every release there when the current run was started is still there |
| Deployments.TeardownSparesOriginals | internal/engine/reset.go:226-262 | the run the engine hands to a teardown is the current one, evidence and inventory, and however its commands go nothing is removed that was there when it was started |
| Deployments.CleanResetRestores | internal/engine/reset.go:245-290 | a Reset that comes out clean leaves the original cluster plus exactly the installs whose namespace was unnamed or unreadable |
| Deployments.DoneMeansRestored | internal/engine/reset.go:263-290 | whenever a Reset is about to end Done nothing else is left in the cluster |
| Undo.InventoryShowsFailures | internal/teardown/adapter.go:65-104 | the inventory shows an error iff some command failed |
| Undo.CleanIfNothingFailed | internal/engine/reset.go:263-274 | a Reset that ends Done had a clean teardown |
| Observers.FindTrouble | internal/observer/pods.go:151-179 | unschedulable first, else the first container of the worst severity, init containers before regular ones |
| ObserverSpec.TroubleExactly | internal/observer/pods.go:105-179 | a pod's trouble is that it cannot be scheduled, else its first crash-looping container, else the first that cannot pull its image, under one name |
| Observers.Observer.constructor | internal/observer/observer.go:161-185 | a new observer watches and tracks nothing |
| Observers.Observer.SeedPodBaseline | internal/observer/pods.go:246-260 | a live namespace's pre-existing trouble is recorded without being narrated |
| Observers.Observer.OnPodChange | internal/observer/pods.go:321-391 | trouble is narrated once per reason and container; recovery resolves the pod, its Warnings and its controller's; a dead namespace is left alone |
| Observers.Observer.OnPodAdd | internal/observer/pods.go:424-434 | an initial delivery only seeds, except after a restart |
| Observers.Observer.OnPodDelete | internal/observer/handlers.go:162-209 | exactly what was narrated is resolved, and everything tracked for the pod goes |
| Observers.Observer.SeedEventBaseline | internal/observer/events.go:330-345 | as for pods, for Warnings |
| Observers.Observer.OnEventChange | internal/observer/events.go:241-268 | a Warning is narrated once per object and reason while its namespace is live |
| Observers.Observer.Corroborate | internal/observer/events.go:287-303 | a Warning is taken back at once if the cached pod is healthy, and not if it is unknown |
| Observers.Observer.OnEventAdd | internal/observer/events.go:366-376 | an initial delivery only seeds, except after a restart |
| Observers.Observer.OnEventDelete | internal/observer/handlers.go:210-249 | an expired Event's entry goes and nothing is published |
| Observers.Observer.ResolveEvents | internal/observer/events.go:462-510 | every recorded reason of the key is dropped, and returned if narrated or if all are asked for |
| Observers.Observer.ClearNamespacePods | internal/observer/observer.go:202-210 | exactly the namespace's pod entries go |
| Observers.Observer.ClearNamespaceEvents | internal/observer/observer.go:251-259 | exactly the namespace's Event entries go, keyed by the Event's own namespace |
| Observers.Observer.StopNamespace | internal/observer/scoped.go:373-380 | the namespace is unwatched, marked torn down and its state dropped in one hold |
| Observers.Observer.StopEach | internal/observer/scoped.go:385-389 | stopping a set of namespaces, in any order |
| Observers.Observer.Reconcile | internal/observer/scoped.go:249-280 | what a change of scope makes of the observer, order of starts left open |
| Observers.Observer.StartMissing | internal/observer/scoped.go:274-279 | every wanted namespace without informers gets a fresh pair, the others keep theirs |
| Observers.Observer.Stop | internal/observer/scoped.go:496-501 | everything is stopped and dropped |
| ObserverRuns.TakeKeeps | internal/observer/scoped.go:428-434 | every delivery, stale ones included, and every change of scope keeps the observer's invariants |
| ObserverRuns.AlwaysGood | internal/observer/scoped.go:249-452 | they hold after every sequence of deliveries and scopes |
| ObserverRuns.NothingStranded | internal/observer/observer.go:202-259 | every tracked pod and Event key names a namespace being watched, Warnings about cluster-scoped objects included |
| ObserverRuns.OpenIsTracked | internal/observer/pods.go:321-391 | without Event expiry and late snapshots, what is published and unresolved is always among what is tracked |
| ObserverRuns.StrandsExactly | internal/observer/handlers.go:162-249 | one delivery leaves a condition open and tracked nowhere iff its Event expires with the pod map not holding it, or its pod is deleted with neither map having it as narrated |
| ObserverRuns.OpenIsTrackedExactly | internal/observer/pods.go:321-391 | what is open is tracked at every point of a run iff none of its deliveries is one of those two |
| ObserverRuns.ForgottenExactly | internal/observer/handlers.go:162-249 | a condition ends a run forgotten iff some delivery forgot it and its namespace was not restarted since |
| ObserverRuns.HealthyClearsAll | internal/observer/events.go:462-510 | a healthy delivery leaves nothing unresolved for the pod, for Warnings about it or about its controller, unless it was forgotten before |
| ObserverRuns.DeletionForgetsUnnarrated | internal/observer/handlers.go:162-209 | a deletion leaves a condition open iff neither map has it as narrated |
| ObserverRuns.LateSnapshotStrands | internal/observer/pods.go:246-260 | a snapshot over a narrated condition followed by a deletion leaves it open for good |
| ObserverRuns.LateSnapshotBreaks | internal/observer/pods.go:424-434 | a run from the start that does so, for every pod in trouble |
| ObserverRuns.ScopeIsExact | internal/observer/scoped.go:249-280 | exactly the latest scope is watched, nothing without a run or once it is over; unchanged namespaces keep their informers and records, under another run none do |
| ObserverRuns.RestartIsExact | internal/observer/scoped.go:448-452 | a namespace counts as restarted iff informers started for it under the attributed run were torn down |
| ObserverRuns.MarksFollowTheRun | internal/observer/scoped.go:249-280 | a different run inherits no restart mark, a Retry of the same run keeps its own |
| ObserverRuns.NarratedIsOpen | internal/observer/events.go:241-268 | nothing becomes narrated without being published: whatever a step records as narrated is open after it |
| ObserverRuns.ArisesOnce | internal/observer/pods.go:355-391 | only a reason not recorded, or recorded for another container of the pod, is published |
| ObserverRuns.WarningOpens | internal/observer/events.go:241-268 | over runs, a Warning in a watched namespace whose reason is not recorded ends recorded as narrated and open |
| ObserverRuns.TroubleOpens | internal/observer/pods.go:321-391 | so does a pod's trouble not recorded for its container |
| ObserverRuns.ListingIsNotNews | internal/observer/pods.go:246-260 | a first listing is recorded as not narrated and publishes nothing |
| ObserverRuns.UnwatchedIsIgnored | internal/observer/events.go:241-268 | a delivery from a namespace nobody watches, and an Event that is no Warning, changes nothing |
| ObserverRuns.TakenBackIsCleared | internal/observer/pods.go:321-391 | what a delivery takes back was tracked and no longer is |
| ObserverRuns.OverIsOver | internal/observer/scoped.go:249-256 | once a run is over or there is none, nothing is watched, recorded or open |
| ObserverSpec.ControllerKeyMatches | internal/observer/events.go:57-89 | a Warning about a pod's controller, from the pod's namespace, lands on the key its recovery clears |
| Buses.Bus.constructor | internal/bus/bus.go:31-42 | an empty ring of at least one slot |
| Buses.Bus.Publish | internal/bus/bus.go:70-91 | the next ID, the defaults filled in, the event retained and offered to every subscriber |
| Buses.Bus.Retain | internal/bus/bus.go:95-103 | in the array: the ring goes on holding the last capacity events, the oldest evicted |
| Buses.Bus.FanOut | internal/bus/bus.go:84-89 | each subscriber with room gets the event, none is waited for |
| Buses.Bus.Replay | internal/bus/bus.go:112-132 | exactly the retained events after the cursor, in order; an impossible cursor counts as none |
| Buses.Bus.Subscribe | internal/bus/bus.go:150-173 | the replay and the live channel join without a gap |
| Buses.Bus.Unsubscribe | internal/bus/bus.go:150-173 | the subscriber goes, as often as it is called |
| Buses.Bus.Receive | internal/bus/bus.go:150-173 | the oldest unread event is read |
| BusSpec.Ran | internal/bus/bus.go:70-173 | every sequence of operations keeps IDs consecutive and every subscriber's deliveries in order |
| BusSpec.HistoryIsPublished | internal/bus/bus.go:70-91 | what was published is exactly what was asked for, in order and numbered from one, each with its message, level and time |
| BusSpec.RoomForTheNext | internal/bus/bus.go:84-89 | a subscriber with fewer than 256 events unread gets the next one |
| BusSpec.RetainsItsCapacity | internal/bus/bus.go:31-42 | the ring holds the last of what was published, as many as its capacity |
| BusSpec.LeavesTheOthers | internal/bus/bus.go:150-173 | leaving is nothing to the other subscribers |
| BusSpec.GoneForGood | internal/bus/bus.go:150-173 | who has left is never subscribed again |
| BusSpec.LosslessUntilFirstDrop | internal/bus/bus.go:70-91 | a subscriber gets everything from its replay on, without a gap, up to its first drop, and only later events after it |
| BusSpec.RetainedIsLast | internal/bus/bus.go:95-124 | the ring is the last capacity events with consecutive IDs |
| BusSpec.ReconnectContinues | internal/bus/bus.go:112-124 | a cursor still covered replays from the very next event |
| BusSpec.ReconnectFallsBack | internal/bus/bus.go:112-124 | one no longer covered, or never issued, replays from the oldest retained |
| Clients.MergeEvents | web/src/useEvents.ts:27-34 | append, ignore or insert in order |
| Clients.MergeKeepsOrder | web/src/useEvents.ts:27-34 | the timeline stays strictly sorted, loses nothing and takes the event iff its ID is new |
| Clients.EventStream.HandleMessage | web/src/useEvents.ts:165-198 | a gap is refused for a reconnect up to three times, then taken with its hole counted |
| Clients.EventStream.HandleEpoch | web/src/useEvents.ts:132-164 | a changed epoch clears everything and reconnects, the first one only names it |
| Clients.MessageCounts | web/src/useEvents.ts:165-198 | a message past the cursor is refused, or appended with timeline and losses still adding up |
| Clients.Ran | web/src/useEvents.ts:82-220 | every run of publishing, slow reading, gaps, reconnects and restarts keeps client and server consistent |
| Clients.LosslessOrCounted | web/src/useEvents.ts:82-220 | the timeline is strictly sorted and genuine, and its length plus eventsLost is lastId - firstId + 1 |
| Clients.CoveredReconnectHasNoGap | internal/api/events.go:14-83 | with the same server a covered reconnect starts at lastId + 1, never taken for a gap |
| Clients.GapsAreBounded | web/src/useEvents.ts:45-62 | a gap is refused iff fewer than three attempts were spent on it |
| Clients.FourthTimeIsCounted | web/src/useEvents.ts:165-198 | one gap met again and again is refused three times and counted the fourth |
| Clients.GapIsRefilled | web/src/useEvents.ts:165-198 | a refused gap closes its source, and a covered reconnect begins with the very event that was missing |
| Clients.SeenBeforeIsNothing | web/src/useEvents.ts:27-34 | a message seen before changes nothing but to end the attempts |
| Clients.NewServerStartsOver | web/src/useEvents.ts:132-164 | another server's first frame clears all that was known, the same one's nothing |
| Timestamps.CompareAtAgrees | web/src/pipeline.ts:191-200 | on the text Go writes, compareAt has the sign of the true difference, for all instants of the years 0 to 9999 |
| Timestamps.MatchReadsText | web/src/pipeline.ts:137 | the pattern reads back the second and the fraction of everything Go writes |
| Timestamps.TrimExact | web/src/pipeline.ts:137 | exactly the trailing zeros of a fraction are trimmed |
| Timestamps.PlainOrderMisranks | web/src/pipeline.ts:191-200 | plain text order puts a whole second after its own fractions |
| Conditions.RulesAgree | internal/bus/cluster.go:101-112 | the browser's rule over text decides as the server's over instants |
| Conditions.StrictPerCondition | internal/bus/cluster.go:101-112 | per UID and reason the rule is a strict order, tied only on equal instant, resolution and severity |
| Conditions.KeysTell | web/src/pipeline.ts:126-128 | two conditions share a key only if they are the same condition |
| Conditions.FoldEvents | web/src/pipeline.ts:300-307 | the fold loop, condition by condition |
| Conditions.FoldKeeps | web/src/pipeline.ts:300-307 | the browser's fold over text keeps what the server's rule keeps over instants |
| Conditions.FoldShowsLatest | web/src/pipeline.ts:222-228 | each condition is shown as its latest report, at one instant as a resolution if there is one, else as the most severe |
| Conditions.FoldKeepsWinner | web/src/pipeline.ts:300-307 | it ends, for each condition, with a report no other report supersedes |
| Conditions.FoldIgnoresOrder | web/src/pipeline.ts:300-307 | every permutation of the reports ends with the same conditions, instants, resolutions and severities |
| Conditions.PlacementSticks | web/src/pipeline.ts:300-307 | a condition never leaves the row it was first given |
| Conditions.PlacementIsReported | web/src/pipeline.ts:300-307 | a condition is on a row one of its reports named, and on none only if the report it shows names none |
| Conditions.ActiveCondition | web/src/pipeline.ts:329-336 | the first of the unresolved conditions than which none is more severe, nor as severe and later; none if all are resolved |
| Folding.KeepWins | web/src/pipeline.ts:300-307 | keeping what beats the kept one leaves, per key, an item nothing beats |
| Folding.KeepIgnoresOrder | web/src/pipeline.ts:300-307 | for every order of the items the kept ones are equal in precedence |
| Scopes.ScopeAccessor.Scope | internal/console/console.go:183-287 | the cache, the recipe read and the attribution composed, nothing if they are of different runs |
| Scopes.ScopeIsConsistent | internal/console/console.go:183-287 | with any events between its reads, the namespaces are none or those of the returned run's one recipe, and the rest is of one instant |
| Scopes.ScopeIsRecomputed | internal/console/console.go:183-207 | while nothing moves it is what recomputing would give |
| Scopes.CacheLasts | internal/console/console.go:183-207 | no engine event spoils the cache |
| Scopes.FoundOnce | internal/console/console.go:183-207 | once a recipe was found for a run later answers need no other reading |
| Scopes.AttributionTells | internal/engine/attribution.go:102-112 | the attribution is the current run's, terminal iff that run is Done or Failed |
| Scopes.OverIsUnwatched | internal/observer/scoped.go:249-256 | with no run, or one Done or Failed, the observer's next reconcile leaves nothing watched, recorded or open |
| Scopes.UnderWayIsWatched | internal/console/console.go:183-287 | with a run in any other state exactly its recipe's namespaces are watched |
| Scopes.ComponentMeansApply | internal/engine/attribution.go:102-112 | a component is named only while the run's own goroutine is inside Apply, and never with a terminal run |
| Tolerations.UntoleratedTaints | internal/console/nodes.go:292-303 | exactly the node's lasting taints nothing tolerates |
| Tolerations.UntoleratedGpuPoolTaints | internal/console/nodes.go:256-272 | the taints in the agent's way on real GPU nodes, once each |
| Tolerations.NoPoolLeftBlocked | internal/console/connect.go:416-424 | with the derived tolerations added no real GPU node keeps an untolerated lasting taint |
| Tolerations.NoneToleratesKwok | internal/console/nodes.go:256-288 | no derived toleration tolerates the taint of a simulated node |
| Tolerations.BuiltInExactly | internal/console/connect.go:408-424 | with nothing added the agent tolerates the GPU taint, whatever its value and effect, and no other |
| Tolerations.DerivedIsNarrowest | internal/console/nodes.go:256-288 | what is derived for a taint tolerates that taint and no other |
| Tolerations.MomentaryNeverBlocks | internal/console/nodes.go:59-75 | the taints of a moment never keep the agent off a node |
| Tolerations.FormatTells | internal/console/nodes.go:339-351 | two valid taints print alike only if they are alike |
| Tolerations.PrintedListReadsBack | internal/console/console.go:951-984 | the printed list reads back as tolerations of every taint, equal to the derived ones where the taint has a value |
| Tolerations.ReadTolerations | internal/console/console.go:951-984 | the parser's loop, entries without a key skipped |
| Tolerations.EntriesRead | internal/console/console.go:951-984 | an entry without a value matches any, one without a key is skipped |
| Tolerations.PaddingIsIgnored | internal/console/console.go:951-984 | space around an entry is nothing to it |
| Tolerations.Compose | internal/console/nodes.go:155-206 | the counts and GPU sums, and a remedy that is empty iff no node is blocked |
| Tolerations.FoldGroups | internal/console/nodes.go:155-206 | one group per shape that occurs, counting exactly its nodes and carrying the first one's verdict |
| Tolerations.SameShape | internal/console/nodes.go:155-188 | nodes share a group iff they agree on instance type, accelerator and lasting taints |
| Tolerations.ShownAreLasting | internal/console/nodes.go:155-188 | a group shows exactly the lasting taints of its nodes |
| Tolerations.BlockedShownFirst | internal/console/nodes.go:189-203 | the cap of eight never hides a blocked group behind one that is not, nor a larger one behind a smaller of its kind, and what it hides is counted |

## Left out

- HTTP routing, session tokens, same-origin checks, log streaming, browser launch, kubeconfig handling and the React rendering: input, output and presentation.
- AICR, helm, kubectl and client-go themselves: a step is any change of its scratch copy that leaves decisions alone, helm a set of releases, a cluster call an answer.
- Publishing: message texts, summaries and the order of publishes across the two informer goroutines. The observer's results are at the granularity of one handler hold, with the debouncer taken as disabled.
- Liveness: nothing is said about a goroutine eventually being scheduled. `WokenBegins` says what its next two moves do.
- Object identity: a run is a value, so Clone's deep copy and the aliasing it prevents are not modelled. A channel is named by the epoch that made it.
- Run IDs: a Start is given an ID not used before in this process; the random generator is a parameter.
- The store's record against the engine's: finish saves, and runReset deletes, after releasing the mutex, so either may land after a newer Start. Only what each operation does to a store is stated.
- JSON and gzip: an injective encoding with arbitrary packed and raw sizes. Path separators in run IDs, fsync and permissions of the files are not modelled.
- Timeouts: the gang budget and the retry pause are answers saying whether they ran out; poll intervals and back-off delays are not modelled.
- DaemonSet, Deployment and Node narration, and the Event text: they add no state the two tracked maps do not already have.
- Node selectors and the gap report: parsing of the same kind, and text.
- The cursor header of a reconnect: parsing Last-Event-ID is left out, its result is the cursor.
- Safety.WorkloadGuarded: excepts a run whose own guard a failed Reset checkpoint dropped; GuardDroppedExactly says exactly when that happens. It supposes Prove is the last step and the only one of its phase.
- Safety.ApplyHasItsBundle: starts from a record whose books balance; RecoveredBundleExactly says exactly for which recovered records the promise holds.
- Records.SavedIsRecoverable: supposes hexadecimal run IDs, clocks past Go's zero time, steps that name their phase, and a process that booted on nothing, a recovered record or an adopted run. What a Save that failed did not write is not claimed to survive.
- ObserverRuns.OpenIsTracked: supposes no Event object expires and no snapshot lands on a condition already narrated; OpenIsTrackedExactly has the exact condition.
- ObserverRuns.HealthyClearsAll: supposes a pod's controller is not itself a Pod, which Kubernetes never makes it.
- Stores.FileStoreRefines: covers runs with a non-empty ID whose record can be encoded and decoded; EmptyIdDiverges shows the first is needed.
- Scopes.ScopeIsConsistent: supposes a non-empty run ID and a boot record with no recipe before Recommend is done.
- Deployments.CleanResetRestores: covers one process; a crash during Apply loses the evidence its scratch copy held. It supposes every named component namespace is snapshotted, a header marker precedes each install, and nobody else changes the releases.
- Conditions.ActiveCondition: supposes every condition carries an instant as the server writes it; on other text compareAt answers 0.
- Tolerations.FoldGroups: the blocked flag of a group is its first node's, since the group's key leaves the GPU count out, so it is not claimed for every member.
