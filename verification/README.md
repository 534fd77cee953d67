# A verified model of omp-fabric

omp-fabric runs agents and actors beside a host session. This project models its small state machines and
byte-level algorithms in Dafny and proves what they keep. It covers the shared actor registry with its
fenced adoption, the actor mailbox and its drain loop, the execution trace recorder with its sanitizer and
validator, the two chunked line readers, the input queues and usage accounting of a Claude child, and the
smaller machines around them: compaction control, the semaphore, the activity index, the artifact sweep,
the selective clone and the activation of the host state.

`dafny verify dfyconfig.toml` checks everything.

## How it is built

Objects the repository updates in place are classes. Each method is proved against a specification: a
function of the old state, given beside the class as a value state machine (`Enabled`, `Apply`) or as a
function of the inputs. What the repository promises is then proved about that specification, over every
run where it is about runs. Every await is a step boundary, so a run is any interleaving of the segments
between awaits. Algorithms that only compute (the trimming loops, the line readers, the sweep, the clone)
are methods with loops that refine a recursive definition written independently of them.

| module | what it models |
|---|---|
| `Common` | options, minimum and maximum |
| `Json` | JSON values and their serialized size: UTF-16 text, UTF-8 lengths (section 3 of RFC 3629), string escapes (section 7 of RFC 8259) |
| `Serialized` | what is written of a value: its text, the UTF-8 encoding of that text, and a reader for both |
| `Truncate`, `Sanitize`, `Tallies` | bounded text; the sanitizer over object graphs; what it counts |
| `Trace`, `Trimming`, `Validator` | the trace, its trimming to a byte budget, and the validator that reads it back |
| `Recorder`, `Details` | recording and sealing; the details persisted with an execution |
| `Recordings`, `Reports` | whole runs of calls; what a sealed trace says of each of them, and what it never says |
| `Registry`, `RegistryHost`, `RegistryRuns` | many hosts sharing one registry under a lock; one host's side of it; runs in which adoption goes wrong |
| `Mailbox` | an actor's queue and drain loop |
| `Lines`, `Tailer`, `LogTail` | line splitting; the steer file tailer; the backward pager |
| `ClaudeInput`, `Usage` | the input queues of a Claude child; usage deltas and the budget ledger |
| `Compaction`, `Semaphore`, `Activation`, `Activity`, `Sweep`, `Clone` | the smaller machines |

## Where the code does not do what it says

Each of these is a lemma with the exact condition; where the failure begins in the middle of a run, another
lemma gives a run that gets there.

- A failing registry write inside an adoption leaves the roster with the new root although the comment
  says the state is untouched; the next adopter then becomes a second owner
  (`Registry.FailedWriteHarmless`, `Registry.FailedWriteSplits`, `RegistryRuns.FailedWriteHappens`).
- A reload during a pending adoption leaves the winner without the actor it won (`Registry.WinnerOwns`,
  `RegistryRuns.OrphanedByReload`).
- An adoption makes a second owner exactly when another host owns the actor already
  (`Registry.AdoptionSplitsExactly`); only the directory prevents that for a lineage its creator never
  adopted, because such a lineage carries no timestamp and is not fenced at all
  (`Registry.BlindAdoptionSplits`, `RegistryRuns.BlindAdoptionHappens`).
- An item can be left in the queue without a drain, which the comment above `#ensureDrain` rules out:
  an ask that was put back for missing capabilities is aborted while its drain is still leaving
  (`Mailbox.StrandsExactly`, `Mailbox.MissRaceStrands`, `Mailbox.MissRaceHappens`).
- When the first presence of an activation cannot be published, its ask is never settled
  (`Mailbox.FailedPresenceLosesAsk`, `Mailbox.FailedPresenceHappens`).
- Stopping an actor is forgotten when the interrupted activation is stale or misses capabilities
  (`Mailbox.StopIsForgotten`, `Mailbox.StopForgottenHappens`).
- The steer tailer loses every command beyond the first 256 of one poll (`Tailer.TailerRefinesSplitter`,
  `Tailer.FloodLosesLines`).
- Backward paging ends early exactly when the buffer read for a page begins at or behind the beginning of
  the last record before it (`LogTail.EmptyPageExactly`, `LogTail.StuckExactly`, `LogTail.FollowingStopsExactly`): at a line as long
  as the byte bound (`LogTail.LongLineEndsPaging`, `LogTail.FollowingIsComplete`), or behind enough blank
  lines, such as a chunk of them (`LogTail.BlankTailEndsPaging`; which do no harm is `LogTail.HarmlessBlanks`).
- A mode change or an unknown command disarms the close timer of an idle Claude child
  (`ClaudeInput.TimerIsLost`, `ClaudeInput.TimerLostHappens`). Only a successful result frame arms it again
  (`ClaudeInput.RearmsExactly`), and an idle child waits for none, so it stays open until somebody sends it
  another message (`ClaudeInput.TimerStaysLost`).
- A usage correction without cost is recorded but never reaches the ledger, which then stays too high
  (`Usage.CorrectionIsLost`); the ledger never counts too little (`Usage.LedgerNeverUndercounts`).
- Persisted details are said to be bound as a whole, but the error of the run is never trimmed
  (`Details.PersistedFits`, `Details.LongErrorNeverFits`).
- A compaction whose send throws an error with an empty message is published as completed
  (`Compaction.CompletedExactly`, `Compaction.EmptyThrowHappens`). The send hook of the worker never does that: its own error has a
  message. It takes another hook, or a stream that throws such an error.
- Reinitializing a host and shutting it down before the activation's first continuation leaves the old
  runtime alive with no owner (`Activation.LeaksExactly`, `Activation.ReinitializeThenShutdownLeaks`,
  `Activation.LeakHappens`).
- An activation that begins while a shutdown waits for the runtime to close outlives that shutdown and
  installs a runtime on a host that was shut down; nothing else brings it up again without a bootstrap
  (`Activation.StaysDownExactly`, `Activation.LateActivationHappens`).

## Model

| member | source | states |
|---|---|---|
| `Registry.StepKeepsInv` | src/actors/manager.ts:2027-2536 | every step of every host (locking, reading, saving, the adoption compare-and-set, settling, syncing, reloading, ceding, removing, crashing) keeps: the file equals what its last writers meant, one record an id, each under the root its lineage belongs to; only the lock holder is inside the critical section and what it read is still the file; a live host holds an actor under its own root only if the lineage is its own |
| `Registry.StepKeepsInvExactly` | src/actors/manager.ts:2027-2536 | of all steps of all hosts only one kind breaks that invariant, and exactly then: an adoption of a lineage that another live host holds, or is about to remove; no assumption on the directory |
| `Registry.AdoptionKeepsInvExactly` | src/actors/manager.ts:2442-2481 | an adoption keeps the invariant if and only if no other live host holds the lineage, whatever the directory showed |
| `Registry.InvThroughoutExactly` | src/actors/manager.ts:2027-2536 | any sequence of steps of any hosts keeps the invariant throughout if and only if none of them takes a lineage another live host holds |
| `Registry.AtMostOneOwner` | src/actors/manager.ts:2384-2409 | in every run of any number of hosts, with crashes and lock recovery, at most one live host decides that an actor is its own; and who does is exactly a live host that holds the actor under its own root, has not ceded it, and created it or serves its residency |
| `Registry.CededStays` | src/actors/manager.ts:511-536 | in every run of all the hosts, from the moment a host cedes an actor until it reclaims it, the host neither owns the actor nor lists it among those it saves |
| `Registry.CededSave` | src/actors/manager.ts:2086-2102 | a save deletes the record of a ceded actor if that save is to remove it, and otherwise leaves it as it was |
| `Registry.CededIsNotSaved` | src/actors/manager.ts:2086-2102 | so no save of a host changes the record of an actor it ceded, until it reclaims or removes it |
| `Registry.OpinionDecides` | src/actors/manager.ts:2384-2391 | a live opinion of the directory decides for every live host that holds the actor and has not ceded it |
| `Registry.RefreshOwns` | src/actors/manager.ts:2118-2150 | a refresh leaves a host with what it owned, takes everything else from the file, and adds to what it owns exactly what the file records under its root, unless ceded, of its residency |
| `Registry.TakesUp` | src/actors/manager.ts:480-536 | what a host creates, and what it reclaims under its own root, it owns from then on |
| `Registry.AtMostOneOwnerIfHarmless` | src/actors/manager.ts:2384-2498 | the same for every such run, with no assumption on the directory |
| `Registry.MutualExclusion` | src/actors/manager.ts:2027-2084 | in every run at most one live host is between taking and releasing the registry lock |
| `Registry.AdoptionTakesDeadLineage` | src/actors/manager.ts:2442-2481 | an adoption that goes through takes a lineage whose root belongs to no live host, and which still is the one it expected |
| `Registry.AdoptsExactly` | src/actors/manager.ts:2446-2465 | an adoption goes through if and only if the file still records the root the attempt expects, the directory has no opinion on the actor and does not show that root, and any recorded adoption is at least 30 seconds old |
| `Registry.LiveLineageIsSafe` | src/actors/manager.ts:2442-2498 | in every run, while the host a lineage belongs to stays alive, nobody adopts the lineage |
| `Registry.AtMostOneAdoption` | src/actors/manager.ts:2411-2498 | of all hosts racing for an orphan at most one adoption succeeds in any run without crashes |
| `Registry.AtMostOneInWindow` | src/actors/manager.ts:2442-2498 | within one grace window at most one adoption of a lineage succeeds, whoever crashes meanwhile |
| `Registry.OrphanRace` | src/actors/manager.ts:2384-2498 | the race for an orphan: within the grace window, even if directories show no adopter, at most one adoption succeeds and at most one host is the owner |
| `Registry.WindowRuns` | src/actors/manager.ts:2434-2437 | within the grace window the timestamp fence alone gives what the theorems assume of the directory: no adopter needs to be visible |
| `Registry.MergeIsUpdate` | src/actors/manager.ts:2086-2095 | one merge, seen as a map, is exactly: drop removed and owned ids, put the owned records as serialized, leave all others; and no id occurs twice |
| `Registry.SaveLosesNothing` | src/actors/manager.ts:2086-2107 | a locked save records every owned actor as held, deletes what was removed, and changes no other record, in particular none of another lineage |
| `Registry.RecordStaysThroughout` | src/actors/manager.ts:2027-2536 | in every run, as long as the host a lineage belongs to lives and does not write, nothing all the other hosts do, however interleaved, changes the record of that lineage |
| `Registry.SavedStays` | src/actors/manager.ts:2027-2107 | so what a host saved is what the file says of its actors, and what it removed stays gone, until it writes again or dies |
| `Registry.RemovalIsSaved` | src/actors/manager.ts:1180-1193 | a removal that is saved takes the actor out of the roster and its record out of the file, and is then no longer due |
| `Registry.RootsAreNoted` | src/actors/manager.ts:2096-2170 | whoever has read the file for a refresh or a save knows the root of every recorded lineage, and forgets those it removed |
| `Registry.SettlementIsNoted` | src/actors/manager.ts:2477-2494 | whoever settles an attempt knows the root of the lineage: its own if it won, else the recorded one, or that there is none |
| `Registry.LoserResynced` | src/actors/manager.ts:2484-2494 | a loser that settles shows the root the lineage really has in its roster and in its recorded roots, and does not own the actor |
| `Registry.WinnerOwns` | src/actors/manager.ts:2442-2498 | after a successful compare-and-set the file names the winner, and the winner owns the actor if and only if no reload had replaced the captured object |
| `Registry.AdoptionSplitsExactly` | src/actors/manager.ts:2442-2498 | after an adoption its host is an owner, and it is the only one if and only if no other host was an owner before |
| `Registry.BlindAdoptionSplits` | src/actors/manager.ts:2454-2465 | so when the directory does not show the live owner of a lineage that is not fenced, two hosts own the actor |
| `RegistryRuns.BlindAdoptionHappens` | src/actors/manager.ts:2411-2481 | ten steps take hosts that have just started to that state: the creator of an actor is alive and not shown, and a second host is about to adopt the actor and then owns it as well |
| `RegistryRuns.OrphanedByReload` | src/actors/manager.ts:2118-2498 | a run from hosts that have just started in which a reload interrupts an adoption: the file names the adopter, and no host runs the actor |
| `RegistryRuns.FailedWriteHappens` | src/actors/manager.ts:2411-2498 | a run from hosts that have just started to the failing write, after which the next adopter becomes a second owner |
| `Registry.FailedWriteHarmless` | src/actors/manager.ts:2469-2477 | a failing registry write inside the adoption keeps the invariant if and only if a reload had replaced the captured object; otherwise the roster already carries the new root, contrary to the comment at line 2496 |
| `Registry.FailedWriteSplits` | src/actors/manager.ts:2469-2497 | after such a failure the next unopposed adopter becomes a second owner |
| `Registry.UnopposedSucceeds` | src/actors/manager.ts:2411-2498 | an unopposed attempt on a dead lineage goes through in three steps, makes its host an owner and changes no other host |
| `RegistryHost.ActorHost.OwnedOrder` | src/actors/manager.ts:2089-2091 | the roster loop lists, each once, exactly the actors that were not ceded, are held under the host's own root, and were created by it or are of the residency it claims |
| `RegistryHost.ActorHost.SaveLocked` | src/actors/manager.ts:2088-2102 | the locked merge as it runs: new file contents and new recorded roots |
| `RegistryHost.ActorHost.ConfirmLocked` | src/actors/manager.ts:2447-2480 | the compare-and-set as it runs: its verdict, the file and the host in both outcomes |
| `RegistryHost.ActorHost.Settle` | src/actors/manager.ts:2482-2500 | what winner and loser do after the lock |
| `RegistryHost.ActorHost.Load` | src/actors/manager.ts:2118-2280 | a refreshed roster: kept actors stay, every other actor is as recorded, recorded roots follow the file |
| `Mailbox.StepFollows` | src/actors/manager.ts:1346-1529 | every call and every segment of the drain loop changes the line of unfinished items only as the reference ledger says |
| `Mailbox.StepKeepsInv` | src/actors/manager.ts:1235-1529 | every step conserves asks, keeps the line in order of arrival and the status coherent |
| `Mailbox.ExactlyOnePlace` | src/actors/manager.ts:758-816 | in every run each ask is in exactly one place: queued, in flight, or settled, and then settled exactly once |
| `Mailbox.AbortHitsItsOwn` | src/actors/manager.ts:779-796 | aborting an ask that is no longer queued aborts the controller of its own run, never of another item |
| `Mailbox.AbortWithdraws` | src/actors/manager.ts:780-793 | aborting a queued ask removes and rejects that very item and nothing else |
| `Mailbox.InterruptAborts` | src/actors/manager.ts:1101-1210 | in every run, when something is in flight and the actor is stopped, halted, moved away or closed, the abort controller of that activation is set and stays set until its cleanup or its stale exit |
| `Mailbox.AbortedExactly` | src/actors/manager.ts:1101-1175 | until an activation ends it is aborted if and only if it was before or one of these calls, or the cancelling of its own ask, has come since |
| `Mailbox.StartsOnlyIfAllowed` | src/actors/manager.ts:1320-1356 | an activation is started only by a host that owns the actor and is not closing, for an actor that is not stopped, and for the oldest unfinished item; the actor is then running and nothing has aborted it |
| `Mailbox.DeliveredWasChecked` | src/actors/manager.ts:1361-1446 | in every run, what is about to be delivered was valid when it began, had its capabilities if any are required, ran to completion, had its session saved if it was to be, and was valid again afterwards: exactly these awaits have ended since it began, in this order |
| `Mailbox.StatusIsTruthful` | src/actors/manager.ts:1101-1529 | in every run an actor that is not stopped, while no activation is at work, is idle if nothing waits and queued if something does |
| `Mailbox.DrainedItemIsKept` | src/actors/manager.ts:1346-1529 | a drained item stays in flight, is put back at the head, or is settled |
| `Mailbox.DrainEnds` | src/actors/manager.ts:1346-1529 | every segment brings the drain nearer to its end, whatever the outcomes |
| `Mailbox.StrandsExactly` | src/actors/manager.ts:1320-1344 | an item is left without a drain and without a mark in exactly one way: a drain leaving for missing capabilities whose mark was cleared meanwhile |
| `Mailbox.NothingStranded` | src/actors/manager.ts:1320-1344 | in every run without that step no queued item is stranded |
| `Mailbox.MissRaceStrands` | src/actors/manager.ts:779-788 | the step does happen: the put-back ask is aborted while its drain is leaving and another ask arrives |
| `Mailbox.MissRaceHappens` | src/actors/manager.ts:1320-1396 | and a freshly created actor gets there: nine steps from its first ask to a stranded item |
| `Mailbox.StopIsForgotten` | src/actors/manager.ts:1101-1113 | a stopped actor leaves that state if and only if the interrupted activation then proves stale or misses capabilities |
| `Mailbox.StopForgottenHappens` | src/actors/manager.ts:1101-1370 | and a freshly created actor gets there in four steps |
| `Mailbox.FailedPresenceLosesAsk` | src/actors/manager.ts:1354-1361 | when the first presence cannot be published, conservation fails exactly for asks |
| `Mailbox.FailedPresenceHappens` | src/actors/manager.ts:1354-1361 | and it happens to the first ask of a freshly created actor: it is then neither queued nor in flight nor settled |
| `Mailbox.ManagedActor.Asked` | src/actors/manager.ts:758-815 | ask as it runs, against the specification |
| `Mailbox.ManagedActor.Posted` | src/actors/manager.ts:1235-1318 | enqueue of an event with coalescing in place |
| `Mailbox.ManagedActor.OnAbort` | src/actors/manager.ts:779-796 | the abort listener |
| `Mailbox.ManagedActor.StopActor` | src/actors/manager.ts:1101-1113 | stop up to its first await |
| `Mailbox.ManagedActor.HaltActor` | src/actors/manager.ts:1156-1175 | haltAll for one actor |
| `Mailbox.ManagedActor.LoseOwnership` | src/actors/manager.ts:511-523 | ceding the actor or losing it |
| `Mailbox.ManagedActor.ReclaimActor` | src/actors/manager.ts:529-536 | reclaiming the actor |
| `Mailbox.ManagedActor.CloseActor` | src/actors/manager.ts:1195-1217 | close up to its first await |
| `Mailbox.ManagedActor.RetryWaiter` | src/actors/manager.ts:387-387 | a waiting actor is tried again |
| `Mailbox.ManagedActor.RejectQueue` | src/actors/manager.ts:1106-1112 | the loop that rejects what was queued, oldest first |
| `Mailbox.ManagedActor.Proceed` | src/actors/manager.ts:1348-1362 | the loop head |
| `Mailbox.ManagedActor.StartDrain` | src/actors/manager.ts:1328-1344 | one drain at a time |
| `Mailbox.ManagedActor.OnPresence` | src/actors/manager.ts:1361-1387 | what follows each published presence |
| `Mailbox.ManagedActor.OnValidity` | src/actors/manager.ts:1362-1370 | the validity check before the run |
| `Mailbox.ManagedActor.OnRecheck` | src/actors/manager.ts:1438-1445 | the validity check before delivery |
| `Mailbox.ManagedActor.OnCapability` | src/actors/manager.ts:1377-1396 | the capability view: satisfied, missing or unavailable |
| `Mailbox.ManagedActor.OnRun` | src/actors/manager.ts:1397-1437 | the run and what follows it |
| `Mailbox.ManagedActor.OnSave` | src/actors/manager.ts:1406-1437 | what follows the save of a runner session |
| `Mailbox.ManagedActor.OnPublish` | src/actors/manager.ts:1446-1480 | publishing, resolving and the stop directive |
| `Mailbox.ManagedActor.OnCleanup` | src/actors/manager.ts:1499-1521 | the cleanup of one activation |
| `Truncate.TruncateUtf8` | src/audit/trace.ts:110-122 | the bounded text is the longest prefix of code points that fits the byte bound |
| `Truncate.TruncatedFits` | src/audit/trace.ts:110-122 | the result encodes to at most the bound, whatever surrogate pairs the cut splits |
| `Serialized.Utf8CountsBytes` | src/audit/trace.ts:107-107 | the computed length of a string is the number of bytes of its UTF-8 encoding (section 3 of RFC 3629), a lone surrogate encoded as the replacement character |
| `Serialized.DecodeEncode` | src/audit/trace.ts:107-107 | decoding those bytes gives every well-formed string back |
| `Serialized.LiteralReads` | src/audit/trace.ts:108-108 | a string literal, with its escapes written out (section 7 of RFC 8259), reads back as the string and ends at its closing quotation mark |
| `Serialized.BytesCountsWritten` | src/audit/trace.ts:108-108 | the computed size of a JSON value is the number of bytes of its serialized and encoded text |
| `Serialized.WrittenReadsBack` | src/audit/trace.ts:107-108 | whatever is written of a value, numerals, literals and nesting included, is read back from these bytes as that value |
| `Sanitize.VisitRenders` | src/audit/trace.ts:197-280 | every visit yields a rendering by an independent relation that fixes every value by its place in the unfolding of the graph: exactly what vanishes, and what has 8192 values before it, is missing; cycle marks only for true ancestors, depth marks only at depth 12, sensitive keys redacted, media dropped; and the counter moves by what the value unfolds into |
| `Sanitize.RenderedBounded` | src/audit/trace.ts:197-280 | every rendering nests at most 12 deep with at most 128 children a node, and every sensitive key carries the redaction mark |
| `Sanitize.VisitedRootRenders` | src/audit/trace.ts:282-283 | the whole visit of any finite graph, cyclic or shared, renders it from its root, up to the first 8192 values of its unfolding |
| `Sanitize.SmallGraphIsWhole` | src/audit/trace.ts:192-283 | a graph that unfolds into at most 8192 values is visited exactly that often and rendered whole: no larger budget gives anything else |
| `Sanitize.SanitizedIsSafe` | src/audit/trace.ts:192-311 | the sanitized value is bounded, accepted as JSON, and fits the byte bound when it is an object or an array |
| `Tallies.VisitAdds` | src/audit/trace.ts:197-280 | what any visit adds to the counters is bounded by the visits it makes, those by the containers it enters, and those by the node budget, however the graph is shared or nested |
| `Tallies.SanitizeCounts` | src/audit/trace.ts:192-311 | one sanitize call makes at most 1048577 visits and so counts at most as many truncations and redactions, and with lists of at most 2^27 members at most about 2^40 drops |
| `Tallies.VisitCounts` | src/audit/trace.ts:197-280 | the counters of a visit move by exactly what is lost, by cause: one for each value that is not rendered as it is, and those beyond a limit |
| `Tallies.SanitizeCountsExactly` | src/audit/trace.ts:192-311 | one sanitize call counts exactly those losses and, when the tree is too large, the cut and every outermost child it takes |
| `Sanitize.BoundedIsJson` | src/audit/trace.ts:659-669 | a bounded tree passes the validator's nesting limit |
| `Sanitize.Pass.VisitValue` | src/audit/trace.ts:197-280 | the recursive visit with its shared counters and ancestor set |
| `Sanitize.Pass.VisitArray` | src/audit/trace.ts:252-265 | the array loop |
| `Sanitize.Pass.VisitRecord` | src/audit/trace.ts:266-279 | the member loop |
| `Sanitize.CutToBytes` | src/audit/trace.ts:284-309 | the greedy cut of the outermost container |
| `Sanitize.SanitizeValue` | src/audit/trace.ts:192-311 | sanitize as it runs |
| `Trace.TraceBytesChange` | src/audit/trace.ts:575-586 | how the serialized size moves when phases, operations and counts are replaced |
| `Trace.StripResultsLoop` | src/audit/trace.ts:587-603 | the first trimming loop: the tracked size equals the true serialized size after every iteration |
| `Trace.StripArgsLoop` | src/audit/trace.ts:604-621 | the second loop, with two counters changing digits |
| `Trace.PopOperationsLoop` | src/audit/trace.ts:622-629 | the third loop, with the separator |
| `Trace.PopPhasesLoop` | src/audit/trace.ts:630-637 | the fourth loop |
| `Trace.TrimToFit` | src/audit/trace.ts:575-638 | trimming with the incremental size equals trimming with the size computed afresh at every step; a trace of which at most 512 KiB would be written is left as it is |
| `Trimming.TrimmedFits` | src/audit/trace.ts:575-638 | at most 512 KiB are written of the trimmed trace, counted in the encoded bytes, whenever the counters of the untrimmed one leave room for everything to be dropped, which is known before trimming |
| `Trimming.TrimmedCountsWithin` | src/audit/trace.ts:587-638 | trimming only raises the counters, and at most to what they would be if everything went |
| `Trimming.TrimmedKeepsOperations` | src/audit/trace.ts:587-638 | operations stay an ordered prefix, each whole or stripped; kept plus dropped is unchanged |
| `Trimming.TrimmedCountsValues` | src/audit/trace.ts:587-638 | every value that goes is counted exactly once |
| `Trimming.TrimmedPriorities` | src/audit/trace.ts:587-638 | results go before arguments, those before operations, those before phases, and nothing goes from a trace that fits |
| `Validator.TraceAccepted` | src/audit/trace.ts:697-723 | what is written of a trace reads back as its JSON form, and that is accepted if and only if its operations are well formed and in increasing order, its counters safe and the bytes written within the bound |
| `Validator.AcceptedExactly` | src/audit/trace.ts:671-723 | whatever the JSON value, it is accepted if and only if it stands for some well-formed trace, member by member and with no others, and at most 512 KiB are written of it |
| `Validator.OperationAccepted` | src/audit/trace.ts:671-695 | an operation is accepted if and only if its sequence is safe and its contents are JSON |
| `Validator.TraceReadBack` | src/audit/trace.ts:697-712 | every member of a written trace reads back as written |
| `Recorder.SealedAccountsForCalls` | src/audit/trace.ts:498-638 | in every sealed trace kept operations plus dropped ones are the calls issued, sequences are those of the calls, unsuccessful calls carry an error, and a timed-out run has no aborted call |
| `Recorder.SealedIsReadable` | src/audit/trace.ts:498-723 | a sealed trace is accepted when read back if and only if its counters are safe integers; that is so if the counters assembled from the calls leave room for everything to be dropped, and never if those are unsafe already |
| `Recordings.RunIsReadable` | src/audit/trace.ts:466-723 | every run of calls, with any updates of their handles, seals to a trace within 512 KiB that is accepted when read back and accounts for every call in order of issue; the only bounds are on the inputs: no list, record, projection or number of updates above 2^27 |
| `Recordings.PersistedRunIsReadable` | src/audit/details.ts:134-163 | and the trace persisted with the details of such a run is still accepted and still accounts for every call |
| `Recordings.Replay` | src/audit/trace.ts:371-640 | however a host interleaves its calls and the reports of their handles, the recorder, its handles and the seal produce the trace of that run |
| `Reports.SealedTellsCalls` | src/audit/trace.ts:398-573 | every operation of a sealed run tells the call it stands for: the outcome of the last report (or the fate of the run), the sanitized result last projected and the sanitized arguments last prepared, if they are told, the identity last resolved, the stage and error of the last failure |
| `Reports.SealedTellsRun` | src/audit/trace.ts:551-573 | a sealed trace tells how its run ended, its first 512 phases in order, and the error the host calls safe or else a message of its own |
| `Reports.SealedCounts` | src/audit/trace.ts:528-637 | everything reported is told or counted: each counter is exactly what the calls lost, what is beyond a limit, what was cut, and what of the reported results, arguments and phases is not told |
| `Reports.CausesStayOut` | src/audit/trace.ts:371-526 | the sealed trace does not depend on the cause of any failure of a call without a safe failure that is no shell command: with those texts taken out of every report, it is the same trace |
| `Recorder.FinalizedCloses` | src/audit/trace.ts:504-526 | sealing gives every open call an outcome and changes nothing else of a closed one |
| `Recorder.StripIsInside` | src/audit/trace.ts:562-562 | what trimming leaves of the error of a run: all of it but the white space at its ends |
| `Recorder.TraceRecorder.IssueCall` | src/audit/trace.ts:473-492 | a call takes the next number and is recorded, or counted when the trace is sealed or full; every identifier that had to be truncated is counted |
| `Recorder.TraceRecorder.Seal` | src/audit/trace.ts:498-640 | sealing as it runs; kept plus dropped is the number of calls issued |
| `Recorder.Handle.Resolved` | src/audit/trace.ts:398-408 | an identity is recorded, and counted when it changes and is truncated, only while unsealed |
| `Recorder.Handle.Prepared` | src/audit/trace.ts:410-413 | prepared arguments |
| `Recorder.Handle.Succeed` | src/audit/trace.ts:415-426 | success |
| `Recorder.Handle.Fail` | src/audit/trace.ts:428-457 | failure, with a cause only when it is safe |
| `Details.TrimWhileTooLarge` | src/audit/details.ts:134-163 | the five ordered trimming steps as they run |
| `Details.PersistDetails` | src/audit/details.ts:99-165 | the trim against the byte bound of the details |
| `Details.PersistedAccountsForCalls` | src/audit/details.ts:134-163 | after the details trim kept plus dropped operations are unchanged |
| `Details.PersistedIsReadable` | src/audit/details.ts:134-163 | a readable trace is still accepted after the trim if and only if its counters stay safe, and that is so whenever they leave room for everything to be dropped |
| `Details.EmptiedIsSmallest` | src/audit/details.ts:134-163 | nothing the trim can reach is smaller than everything dropped |
| `Details.PersistedFits` | src/audit/details.ts:99-165 | the persisted details, in bytes written, are within their bound exactly when the emptied details are |
| `Details.LongErrorNeverFits` | src/audit/details.ts:99-107 | with a long enough error of the whole run they never are, contrary to the comment that the aggregate is bound |
| `Lines.SplitAppend` | src/worker.ts:956-1006 | a line splitter may be stopped anywhere and resumed with what follows the last newline |
| `Lines.LastNewlineSplits` | src/worker.ts:981-1004 | up to the last newline there are exactly the complete lines |
| `Lines.SplitJoins` | src/worker.ts:985-1005 | the lines, each with its newline, and the rest are the bytes again, and none of them holds a newline |
| `Lines.BlankExactly` | src/worker.ts:1008-1009 | a line is blank if and only if it is the encoding of white space characters and nothing else |
| `Lines.DecodedLength` | src/worker.ts:1006-1008 | decoding never shortens a line; ill-formed bytes become three-byte marks (section 4 of RFC 3629) |
| `Lines.DecodedIsRepaired` | src/worker.ts:1005-1007 | the computed length is that of the line with every ill-formed piece replaced, which is well formed |
| `Lines.RepairsExactly` | src/worker.ts:1005-1007 | a line stays as it is if and only if it is well formed |
| `Lines.RepairsLineByLine` | src/worker.ts:1005-1005 | decoding all lines at once is decoding each on its own |
| `Serialized.WellFormedExactly` | src/worker.ts:1005-1007 | the bytes taken for well formed are exactly the UTF-8 encodings of well-formed strings |
| `Tailer.SteerTailer.Poll` | src/worker.ts:959-1062 | one poll refines a splitter over everything read so far, whatever the file has become |
| `Tailer.SteerTailer.Receive` | src/worker.ts:975-1004 | skipping an over-long line leaks no tail of it |
| `Tailer.SteerTailer.Dispatch` | src/worker.ts:1005-1011 | commands are handed on in order up to the limit of one poll |
| `Tailer.TailerRefinesSplitter` | src/worker.ts:956-1062 | however the file grows and is cut into polls, what is processed is the kept lines of what was read, in order and once each, if and only if no poll completes more than 256 of them |
| `Tailer.FloodLosesLines` | src/worker.ts:1005-1011 | a flood happens: of any number above 256 of short lines that one poll reads, exactly 256 are processed and the others are lost |
| `Tailer.FullReadsCatchUp` | src/worker.ts:975-980 | polls with full reads reach the end of a file as soon as they may together read what is left of it |
| `LogTail.CompleteLines` | src/log-tail.ts:28-48 | the records of a buffer that may begin inside a line: exactly the non-empty lines that begin in it and are complete, byte for byte and where they stand, without the one carriage return at their end |
| `LogTail.ReadPage` | src/log-tail.ts:51-105 | the chunked backward read; a page holds exactly the lines of the file, byte for byte, from its first one to the end |
| `LogTail.PageHoldsLines` | src/log-tail.ts:28-105 | the same for every limit, end and byte bound, each line once and in the order of the file |
| `LogTail.PageIsLastRecords` | src/log-tail.ts:51-105 | without blank lines a page is the last records within the byte bound, and hasMore holds exactly when earlier ones exist and the page is not empty |
| `LogTail.PageIsSuffix` | src/log-tail.ts:51-105 | whatever the log, blank lines included, a page is its last records, and denies that there are more only when it is empty or the whole log was read and shown |
| `LogTail.EmptyPageExactly` | src/log-tail.ts:73-102 | whatever the log, a page is empty although there are records if and only if the buffer read for it begins at or behind the beginning of the last record |
| `LogTail.StuckExactly` | src/log-tail.ts:66-86 | and that is so if and only if, at some chunk boundary counted back from the end, the boundary lies at or behind the last record and short of the file's beginning, with more newlines behind it than lines are wanted or at the byte bound |
| `LogTail.LongLineEndsPaging` | src/log-tail.ts:73-100 | a page is wrongly empty if and only if the last line begins at least the byte bound before the end |
| `LogTail.BeforeDecreases` | src/log-tail.ts:96-102 | before strictly decreases from page to page |
| `LogTail.FollowingStopsExactly` | src/log-tail.ts:51-105 | whatever the log, following before to the end yields its last records once each, in order, with their offsets: all of them if and only if the last page was not stuck in that way, and otherwise all but those before the end of that page |
| `LogTail.HarmlessBlanks` | src/log-tail.ts:51-105 | a log pages completely if every record, with the blank lines behind it, ends within one chunk, or within the byte bound and with no more newlines than lines are wanted |
| `LogTail.FollowingIsComplete` | src/log-tail.ts:51-105 | without blank lines it yields every record if and only if every line with its newline is shorter than the byte bound, or is the first line and as long as the bound |
| `LogTail.BlankTailEndsPaging` | src/log-tail.ts:73-100 | an instance: a log whose last chunk is blank lines is stuck on its first page, whatever comes before |
| `ClaudeInput.StepKeepsInv` | src/worker.ts:522-600 | every result frame, command and timer keeps the queues accounted for, never stuck and within 256 |
| `ClaudeInput.QueuesNeverDeadlock` | src/worker.ts:522-585 | in every run of a live child a waiting message implies one in flight, and every accepted message was written once in order within its kind or still waits |
| `ClaudeInput.AcceptedExactly` | src/worker.ts:529-533 | a message that arrives while fewer than 256 are pending joins the end of its queue, and nothing else changes what was accepted |
| `ClaudeInput.OneInFlight` | src/worker.ts:566-585 | in every run in which nobody asks for all at once, at most one steer and one follow-up are in flight |
| `ClaudeInput.SteersFlowThroughout` | src/worker.ts:566-574 | through every run of a live child a steer waits only while steers go one at a time and another one is in flight |
| `ClaudeInput.AnswersOne` | src/worker.ts:744-775 | a successful result frame answers the oldest message in flight and no other, and nothing else answers any |
| `ClaudeInput.EndedIsSilent` | src/worker.ts:744-756 | after a failed result, too many tokens, or a timer that finds the child idle, nothing more is ever written to it |
| `ClaudeInput.FollowUpsYield` | src/worker.ts:576-585 | no follow-up is written while a steer is queued or in flight |
| `ClaudeInput.FollowUpsWaitForIdle` | src/worker.ts:757-775 | a follow-up is written only when nothing else is in flight |
| `ClaudeInput.TimerIsLost` | src/worker.ts:1016-1039 | the close timer of an idle child is lost if and only if a mode change or an unknown command arrives |
| `ClaudeInput.TimerLostHappens` | src/worker.ts:744-1039 | and it happens: the first prompt is answered and an unknown command arrives |
| `ClaudeInput.TimerStaysLost` | src/worker.ts:1016-1039 | however many such commands follow, the child stays live and idle and without a timer |
| `ClaudeInput.RearmsExactly` | src/worker.ts:757-775 | the timer is armed again if and only if a successful result frame arrives |
| `ClaudeInput.ClaudeChild.OnCommand` | src/worker.ts:1017-1039 | a steer-file command |
| `ClaudeInput.ClaudeChild.Take` | src/worker.ts:1017-1039 | a command disarms the timer and joins its queue unless too much is pending |
| `ClaudeInput.ClaudeChild.OnResult` | src/worker.ts:744-776 | a result frame |
| `ClaudeInput.ClaudeChild.Judge` | src/worker.ts:741-756 | what an error or an exceeded token limit does first |
| `ClaudeInput.ClaudeChild.Continue` | src/worker.ts:757-775 | what a successful result frame releases |
| `ClaudeInput.ClaudeChild.FlushSteers` | src/worker.ts:566-574 | flushing steers |
| `ClaudeInput.ClaudeChild.FlushFollows` | src/worker.ts:576-585 | flushing follow-ups |
| `ClaudeInput.ClaudeChild.OnTimer` | src/worker.ts:587-600 | the close timer |
| `Usage.EmittedIsRecorded` | src/worker.ts:408-463 | after any frames, corrections included, the emitted deltas add up to the recorded usage |
| `Usage.RecordedExactly` | src/worker.ts:640-742 | after any frames the recorded usage, cost included, is the sum of what each frame contributes: the tokens of a message unless its turn reports them itself, the tokens a result reports, and the cost of a turn |
| `Usage.LedgerIsExactly` | src/agents/manager.ts:1392-1437 | the ledger total of a settled run, for any drained deltas, as an exact formula |
| `Usage.LedgerNeverUndercounts` | src/agents/manager.ts:1392-1437 | the ledger never undercounts, and is exact if and only if no component was drained beyond its final value and no negative delta was left out |
| `Usage.UsageIsConserved` | src/agents/manager.ts:1411-1437 | without corrections the ledger total is the final usage, whichever deltas were drained live |
| `Usage.CorrectionIsLost` | src/worker.ts:706-742 | a correction without cost never reaches the ledger |
| `Usage.RunnersAddUp` | src/agents/budget-ledger.ts:175-210 | the totals by runner add up to the ledger total |
| `Usage.ReadersAgree` | src/agents/budget-ledger.ts:115-135 | both readers agree on a ledger of attributed entries |
| `Usage.UsageMeter.OnAssistant` | src/worker.ts:640-656 | an assistant frame |
| `Usage.UsageMeter.OnResult` | src/worker.ts:706-742 | a result frame |
| `Usage.ManagedAgent.OnTokenUsage` | src/agents/manager.ts:1411-1423 | a drained delta |
| `Usage.ManagedAgent.Settle` | src/agents/manager.ts:1293-1313 | settlement, once |
| `Usage.ReadLedger` | src/agents/budget-ledger.ts:115-135 | the tolerant sum |
| `Usage.ReadLedgerDetailed` | src/agents/budget-ledger.ts:175-210 | the breakdown by runner and actor |
| `RegistryHost.NoteRoots` | src/actors/manager.ts:2098-2102 | recorded roots follow the records, one by one |
| `RegistryHost.FilterRecords` | src/actors/manager.ts:2093-2093 | the records that are preserved |
| `Clone.CloneLevel` | src/agents/cow-clone.ts:49-69 | the recursive level loop |
| `Clone.NothingBelowIsHidden` | src/agents/cow-clone.ts:39-47 | below a directory without nested skip prefixes nothing is skipped, so it may be copied whole |
| `Clone.CloneIsFilteredCopy` | src/agents/cow-clone.ts:39-77 | the clone of a tree of files, directories and links has, at every path, nothing if the path or a directory above it is skipped and otherwise what the source has |
| `Clone.HiddenMeansSkipPrefix` | src/agents/cow-clone.ts:39-42 | with ordinary names a path is hidden if and only if it or a directory above it is spelled like a skip prefix |
| `Sweep.SweepArtifacts` | src/output-budget.ts:95-171 | the sweep as it runs |
| `Sweep.AgePass` | src/output-budget.ts:133-149 | the age pass |
| `Sweep.SizePass` | src/output-budget.ts:150-160 | the size pass |
| `Sweep.SweepAccounts` | src/output-budget.ts:133-170 | every file is removed in one pass or still there, no held file is removed, and keptBytes is the bytes still there |
| `Sweep.VictimsAreOldest` | src/output-budget.ts:150-160 | size victims are the oldest unheld survivors and no more than needed |
| `Sweep.OverageIsHeld` | src/output-budget.ts:150-170 | the sweep ends over budget if and only if the held files alone are too much, and then only held files are left |
| `Sweep.EvictedAreNotYounger` | src/output-budget.ts:133-160 | no evicted file is younger than an unheld one that stays |
| `Compaction.RequestsAccounted` | src/agents/compact-control.ts:55-175 | in every run calls are attempts plus coalesced plus pending, terminal publishes are attempts minus the one in flight, ids increase, and the channel is closed exactly when the child has settled with nothing in flight |
| `Compaction.ClosesLast` | src/agents/compact-control.ts:109-175 | closing happens only after the child settled with nothing pending or in flight, and nothing is sent afterwards |
| `Compaction.LatestIsSent` | src/agents/compact-control.ts:55-133 | in every run a step sends at most one request, and sends the instructions of the latest one: those of a coalesced request are never sent |
| `Compaction.CompletedExactly` | src/agents/compact-control.ts:80-154 | completed is published if and only if the attempt was answered without an error, or the event starts a waiting request whose send hook throws an error with an empty message |
| `Compaction.EmptyThrowHappens` | src/agents/compact-control.ts:55-154 | and it happens: one request, and a hook that throws such an error when the child settles; nothing was ever sent |
| `Compaction.ChildCompactControl.QueueRequest` | src/agents/compact-control.ts:55-71 | a request |
| `Compaction.ChildCompactControl.OnEvent` | src/agents/compact-control.ts:80-107 | an observed event |
| `Compaction.ChildCompactControl.OnChildSettled` | src/agents/compact-control.ts:73-78 | the child has settled |
| `Compaction.ChildCompactControl.StartPending` | src/agents/compact-control.ts:109-133 | starting, with a throwing send |
| `Compaction.ChildCompactControl.Finish` | src/agents/compact-control.ts:141-154 | finishing, then starting or closing |
| `Semaphore.PermitsAccounted` | src/agents/semaphore.ts:16-56 | in every run active permits are the unreleased grants and within the limit, callers wait only while all permits are out, and grants follow the order of calls |
| `Semaphore.ReleaseHandsOff` | src/agents/semaphore.ts:40-55 | a release hands its permit to the longest waiting caller |
| `Semaphore.RepeatsChangeNothing` | src/agents/semaphore.ts:27-55 | a second release changes nothing; an abort changes nothing for anybody else |
| `Semaphore.AgentSemaphore.OnAcquire` | src/agents/semaphore.ts:16-37 | acquire |
| `Semaphore.AgentSemaphore.OnRelease` | src/agents/semaphore.ts:40-55 | release |
| `Semaphore.AgentSemaphore.OnAbort` | src/agents/semaphore.ts:28-34 | abort |
| `Semaphore.Create` | src/agents/semaphore.ts:12-14 | only a positive limit is accepted |
| `Activation.OneActivation` | src/fabric-state.ts:377-441 | in every interleaving at most one activation body runs, and none while a runtime is installed |
| `Activation.InstallsOnlyCurrent` | src/fabric-state.ts:397-425 | a runtime is installed or shown early only by an activation whose generation is current |
| `Activation.SupersededNeverInstalls` | src/fabric-state.ts:392-433 | a superseded activation can only fail |
| `Activation.LeaksExactly` | src/fabric-state.ts:384-433 | a live runtime loses its owner in exactly one way: a reused runtime whose activation is superseded before its first continuation |
| `Activation.NothingLeaks` | src/fabric-state.ts:353-441 | in every other run each live runtime keeps an owner |
| `Activation.ReinitializeThenShutdownLeaks` | src/fabric-state.ts:353-405 | the leak happens: reinitialize, then shut down before the first continuation |
| `Activation.LeakHappens` | src/fabric-state.ts:144-441 | a run from a fresh host gets there: bootstrap, activate, reinitialize, shut down |
| `Activation.TakeEndsTheInstalled` | src/fabric-state.ts:353-363 | a shutdown that takes the runtime leaves none installed and ends the life of the one that was and of no other; a superseded one leaves it alone |
| `Activation.ShutdownLeavesNothing` | src/fabric-state.ts:353-363 | in every run without that leak, once a shutdown has taken the runtime and no activation is at work, no runtime is installed, shown or alive |
| `Activation.StaysDownExactly` | src/fabric-state.ts:353-425 | after the end of a shutdown a runtime can be installed without another bootstrap if and only if one is installed already or an activation begun meanwhile can still succeed |
| `Activation.LateActivationHappens` | src/fabric-state.ts:353-425 | and a run from a fresh host gets there: an activation begins while the shutdown waits for the runtime to close |
| `Activation.ActivationEnds` | src/fabric-state.ts:397-433 | every continuation brings an activation nearer to its end, whatever throws |
| `Activation.FabricState.OnActivate` | src/fabric-state.ts:377-396 | activate up to its first await |
| `Activation.FabricState.OnBootstrap` | src/fabric-state.ts:144-157 | bootstrap up to its first await |
| `Activation.FabricState.Effects` | src/fabric-state.ts:397-433 | what each continuation does to the runtimes |
| `Activation.FabricState.OnAdvance` | src/fabric-state.ts:397-433 | the continuations of one activation, whether what they awaited or what follows it throws or not |
| `Activation.FabricState.OnShutdownTake` | src/fabric-state.ts:353-361 | shutdown takes the runtime |
| `Activation.FabricState.OnShutdown` | src/fabric-state.ts:353-356 | shutdown up to its first await |
| `Activation.FabricState.OnShutdownEnd` | src/fabric-state.ts:365-374 | the end of a shutdown |
| `Activation.FabricState.OnSettled` | src/fabric-state.ts:436-441 | a settled activation is forgotten |
| `Activity.Replay` | src/activity/store.ts:144-548 | after any sequence of starts, resumes, begun, updated and finished calls, finished runs and resets, at any times: the index of each known run maps exactly its listed ids to the listed objects, each run lists exactly the calls its history says, and no run that was started and not finished since was pruned |
| `Activity.AgreesAfterEviction` | src/activity/store.ts:365-368 | evicting the oldest calls from the list and the index keeps them in agreement |
| `Activity.ListsLatest` | src/activity/store.ts:336-384 | however many calls a run begins, it lists the latest thousand in order |
| `Activity.ListCall` | src/activity/store.ts:365-381 | a new call joins list and index |
| `Activity.FabricActivityStore.BeginCall` | src/activity/store.ts:336-384 | beginning a call keeps the index mapping exactly the listed ids to the listed objects |
| `Activity.FabricActivityStore.UpdateCallArgs` | src/activity/store.ts:386-396 | new arguments reach the listed call, and nothing else of it changes; nothing happens once it was evicted |
| `Activity.FabricActivityStore.UpdateCall` | src/activity/store.ts:398-425 | what is reported of a running call reaches the listed call, and nothing else of it changes; nothing happens once it was evicted |
| `Activity.FabricActivityStore.FinishCall` | src/activity/store.ts:427-467 | a call has completed if and only if it succeeded and its result does not say that it failed |
| `Activity.FabricActivityStore.Resume` | src/activity/store.ts:178-185 | a known run runs again; an unknown one is an error |
| `Activity.FabricActivityStore.Finish` | src/activity/store.ts:469-499 | finishing a run finishes its running calls in place |
| `Activity.FabricActivityStore.Prune` | src/activity/store.ts:537-548 | pruning drops only finished runs, oldest first, no more than needed, and leaves at most 24 unless all are running |
| `Activity.FabricActivityStore.Start` | src/activity/store.ts:151-176 | a new run is listed, and stays |

## Left out

- Registry directory opinions: the theorems on ownership assume that the participant directory has no opinion about the actors concerned; what they need of it is `Informed`, or within the grace window only `Sighted`. `Informed` is more than safety needs, which is `Harmless`. What a live opinion decides is `Registry.OpinionDecides`.
- Registry file-system calls: they succeed, except where a lemma is about the failure; stale-lock recovery is one step; clocks of all hosts agree, every host has its own root, a residency it claims, and a directory (`Configured`).
- Registry records without a root, records the loader rejects, and two records of one id: the model's file holds well-formed records, and one record an id is proved to be kept.
- RegistryHost.ActorHost.Load: an attempt's captured actor is a value beside the roster, not a shared object; `detached` says when the two part.
- Mailbox presence publishes succeed, except in `Mailbox.FailedPresenceLosesAsk`; registry reloads, which replace the whole roster, are not part of a mailbox run.
- Mailbox closing: the tail of close, after its first await, is not modelled.
- Json keys that look like array indices and `__proto__`, whose enumeration order and assignment are special in JavaScript; members are listed in the order they are enumerated.
- Serialized.WrittenReadsBack: the reader takes what JSON.stringify writes, which has no white space; a number that prints with a fraction or an exponent is carried as the numeral it prints as.
- Sanitize getters and proxies: an object graph is finite and does not change while it is visited; lower-casing of keys is exact for ASCII, U+212A and U+0130.
- Recorder audit projection and the wording of a quoted cause are parameters; truncation in the middle of a cause is not modelled.
- Trimming.TrimmedFits: for counters that stay below the largest safe integer, because larger ones are not exact in the repository's numbers either; `Recordings.RunIsReadable` shows that this is so for all inputs of moderate size.
- Details audits, speculation and render metadata are opaque JSON values with a size.
- Tailer JSON parsing of a command line; a line is handed on as bytes. A rewritten file that is not shorter than what was read is not noticed, as in the repository.
- LogTail short reads: every chunk is read in full; a short read would leave a hole the repository does not detect. Non-finite limits are not modelled.
- LogTail parsing of a record; a record is its bytes and its offset.
- Usage rounding: amounts are reals. Startup retries, which only happen with zero usage, are not modelled.
- ClaudeInput writes to an open stdin do not throw; spawning the child and its exit are outside.
- Clone sockets, pipes and devices inside a directory copied whole make the copy fail and are modelled as such, but only trees without them have the filtered-copy law; the destination starts empty.
- Sweep directory listing and file-name matching: the candidates are given.
- Compaction and activity time stamps, publish extras and labels.
- Compaction hooks do not call back into the control object.
- Activation externals: what a runtime does, and whether a step of it throws, is a choice of the run.
- Activity phases, items and events, which are bounded lists of the same kind as calls; the payload of a call is a number, and so is what is reported while it runs.
- User interface, slash commands, configuration parsing, transports, git, file watchers, the type checker, mesh storage, action registry, benchmarks and prompt text.
