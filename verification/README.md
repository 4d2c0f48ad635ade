# adaptite, modelled and proved in Dafny

adaptite is a single-threaded incremental-computation engine. Sources carry versions; thunks and memos
cache a value and record, for each tracked read, the dependency and the version they read; a write marks
direct dependents Dirty and everything further up Check, and reads then verify lazily; effects are latched
into a job queue that is drained with re-entrancy, deferral and a divergence guard; an ownership tree runs
cleanups. This project models those parts and proves what they are for.

## How the model is built

- `Computation.dfy`: node identities, closures, and from-scratch evaluation. A closure is a decision tree
  over the values it has read so far, so the set of nodes it reads may change from run to run and closures
  may read one another in a circle; `Evaluates` is evaluation with no cache at all.
- `Graph.dfy`: a snapshot of every cell of the graph and the invariant `Inv` of all reachable graphs, with
  the theorems that follow from it alone. `past` is history that no code reads: what each version stood
  for, the reads of each node's last complete run, a rank witnessing acyclicity.
- `Frames.dfy`: activation records of running closures *and* of verifications in progress, which the
  detector's stack does not hold; they carry the termination argument.
- `Steps.dfy`, `EdgeCounts.dfy`, `Evolution.dfy`, `Refreshing.dfy`: each graph step keeps the invariant;
  the maintained counters; what a refresh may change, and how refreshes compose.
- `Reactor.dfy`: class `Reactor`, the edge tables, observer stack, tracking scopes, reads and refreshes,
  with the source's control flow. One table per cell of a node.
- `Foresight.dfy`, `Loops.dfy`, `SpuriousCycles.dfy`: when a read can be foreseen to return and when to
  end in a cycle report, the exact condition over all iteration orders, and a report where from-scratch
  evaluation has no cycle.
- `Reports.dfy`, `TrueCycles.dfy`: what a cycle report says, namely which closures ran inside one another from
  the node met again on; and one report word for word.
- `Laziness.dfy`: a read leaves alone whatever it does not lead to.
- `Marking.dfy`: propagation of a write, and why stopping at stale nodes loses nothing.
- `EffectSteps.dfy`, `Lanes.dfy`, `LaneSteps.dfy`, `Churn.dfy`: effect bodies, the effect lane's invariant
  and its steps, and what code run by effects may do to a run in progress.
- `Deeds.dfy`: a record, which no code reads, of what was done in order: jobs taken off the queue, cleanups
  begun, bodies entered, sources written, flushes asked for, panics raised. Contracts say what was added to it
  and for whom, how often a body was entered in a drain, and that the queue is first in, first out.
- `Growth.dfy`: creating nodes and disposing effects, at rest or in the middle of anything.
- `Calm.dfy`: where every read is foreseen to return and bodies only read, no flush can fail.
- `Scheduler.dfy`: class `Scheduler`, writes, marking, the latch, runs of effects, flushes, and the
  operations a host calls. Every operation requires and ensures `Valid()`, which the constructor
  establishes, so the theorems hold in every reachable state. A panic that comes out of an operation is
  accounted for (`Reported`): a cleanup or body threw in that span, the effect's runs in this drain are
  used up, or it is a cycle report that reads of these closures can run into, of which some read a node that
  is not older.
- `Watching.dfy`: a client, built from nothing, whose flushes are proved to return.
- `Unfolding.dfy`, `OwnWrites.dfy`, `LostRuns.dfy`, `QueueOrder.dfy`: single jobs step by step; whole runs that
  end at rest with an effect on an outdated view, after its own write and after a cleanup that panicked; and
  two effects that write one source, run in the order they were queued.
- `Ownership.dfy`, `Flushes.dfy`, `Hooks.dfy`, `Events.dfy`, `Resources.dfy`: owner frames and their
  gauges, flush accounting and nesting, observation hooks, draining event subscriptions, resource
  generations.

Panics are values: `Outcome` is `Done` or `Panic`, with a cycle report, the divergence guard or a panic of a
body's or cleanup's own as cause.
Iteration over a hash table is an arbitrary order. For a dependency table that order is a field (`order`)
that stays fixed until the table changes, as it does in the program: verification that re-enters a node
replays the same prefix, and that is part of why it ends. A new key may put all keys in any other order.

## What the code does where its documentation suggests otherwise

- Closures that never lead back to themselves can still be reported as a cycle. Memo `t` passes on a source
  that is 0; `a` reads `t` and then `b` if it is 0, and is 5 otherwise; `b` reads `t` and is 7 if it is 0, and
  otherwise reads `a`. After a read of `a` and the write of 1 to the source, both evaluate to 5, but the memo
  in between leaves them to be checked, and verification goes by the edges of the run before: if the table
  of `a` iterates over `b` first, the read panics, and so does every retry (`SpuriousCycles.SpuriousCycle`).
  The exact condition is `Loops.GuideIffNeverTrapped`: a rank that descends along what stale nodes recorded
  and what their closures read from scratch exists if and only if no iteration order of the tables traps
  the read for good. With the rank every read returns (`ReactorModule.Reactor.RefreshNode`); closures that
  read only older nodes always have it (`Foresight.LayeredIsGuided`).
- An effect that reads a memo, changes a source behind it and reads the memo again in the same body is not
  rerun for its own write: the second read overwrites the recorded version, so the queued run verifies as
  unchanged and is skipped. Its first read stays outdated. `OwnWrites.OutdatedAtRest` is a whole run of
  this, from nothing to rest; `Lanes.ReadsCurrentIffNotSuperseded` says exactly when every read of the last
  body is current; a body that never reads one node both before and after a write or flush never gets there
  (`Lanes.NeverSplitSawFromScratch`).
- A draining event subscription receives values in emission order exactly when no subscriber registered
  before it emits while handling a value (`Events.InOrderIff`; `Events.AnswerOvertakes` is an instance).
- A cleanup or the divergence guard that unwinds ends a run after its mark was cleared and before its body,
  and can so leave the effect at rest Clean on an outdated edge and unqueued (`LostRuns.LostRun`). A body that
  unwinds cannot: once it is entered the effect answers for its edges again, and unless a rerun is owed it
  ends Clean with every recorded version current. A cleanup that writes and flushes before it panics can
  leave the effect Dirty with a rerun owed that nothing will queue (`LostRuns.OwedRun`). `Lanes.NothingLost`
  says that no rerun is owed and no run was cut off in that way, and every live effect of which it holds
  is consistent at rest, whatever unwound (`Lanes.QuiescentIsConsistent`). The history set
  `tainted` holds exactly the effects whose last run unwound (`Scheduling.Scheduler.RunWindow`); it matters only
  for what the log of reads says, since an unwound body never made the rest of its reads.
- Disposing a resource does not move its generation: only the abort keeps a disposed resource's newest
  fetch from publishing. `Resources.PublishedAfterDisposal` is a run of it; `Resources.Resource.Complete` says
  that a completion publishes exactly when its fetch is the newest, disposed or not.
- The remark at `src/stats.rs:289` that nothing is pending inside a flush holds exactly for flushes the
  subscriber saw open (`Flushes.FlushCells.RecordWork`, `Flushes.FlushCells.PendingIsUnseen`); one that
  subscribes inside a flush can have work pending until the next flush opens (`Flushes.SubscribeInside`).

## Model

| member | source | states |
|---|---|---|
| Computation.EvaluatesDeterministic | src/thunk.rs:712-745 | from-scratch evaluation of a node over given sources has at most one result, whatever the recursion depth |
| Computation.FollowsEvaluates | src/thunk.rs:712-745 | a run all of whose reads found from-scratch values is itself a from-scratch evaluation |
| Graphs.FreshIsFromScratch | src/thunk.rs:694-745 | under the invariant, the cached value of a node that is Clean and not computing is what evaluating its closure afresh over the current sources gives, although only versions were ever compared |
| Graphs.FreshEvaluates | src/thunk.rs:780-856 | that value is the only one from-scratch evaluation can give |
| Graphs.RecordedPathsDescend | src/reactor.rs:961-1005 | the recorded dependency graph has no cycle, for arbitrary and possibly cyclic closures |
| Graphs.StaleHasNoCleanObserver | src/thunk.rs:527-565 | if any node on a chain of recorded dependencies is stale, the observer at its head is stale too |
| Foresight.LayeredIsGuided | src/thunk.rs:712-745 | for closures that read only older nodes the node order descends along everything a refresh can lead to |
| Foresight.SealedIsFromScratch | src/thunk.rs:694-745 | an up-to-date node whose closure can reach only fully tracked closures holds its from-scratch value, whatever edges are recorded around it |
| Foresight.NothingEscapes | src/reactor.rs:961-1005 | a node that from scratch reads into its trap cannot end a complete run with every recorded dependency up to date |
| Loops.GuideIffNoLoop | src/reactor.rs:961-1005 | a rank descending from a node along recorded edges of stale nodes and from-scratch reads exists exactly when the node is on no loop of them |
| Loops.GuideIffNeverTrapped | src/reactor.rs:961-1005 | and exactly when no iteration order of the dependency tables traps reads of the node in cycle reports |
| SpuriousCycles.SpuriousCycle | src/reactor.rs:961-1005 | a run in which every node evaluates from scratch, yet the read and its retry panic when one table iterates the other way |
| Reports.ToldByRun | src/reactor.rs:658-685 | what a closure runs into while its node is on the stack, reading the node runs into from the stack below |
| Loops.ReportIsOfLoop | src/reactor.rs:658-685 | a read that reports a cycle is of a node in a loop of recorded edges of stale nodes and from-scratch reads, and so is every node the report names |
| TrueCycles.Mutual | src/reactor.rs:658-685 | reading the first of two memos that read one another reports exactly first, second, first |
| Laziness.TouchedIsLedTo | src/thunk.rs:694-710 | whatever a read touched, a chain of stale nodes led to it, each having recorded the next or reading it from scratch |
| Laziness.LazilyLater | src/thunk.rs:712-745 | a closure's reads, one after another, touch only what they lead to in the graph as it was before the first |
| Frames.StackDistinct | src/reactor.rs:578-653 | the observer stack holds no node twice |
| Frames.ReentryMeetsStack | src/reactor.rs:980-1005 | a node asked for again while it is being verified has a running closure further in, because recorded edges cannot go round |
| Frames.VerifyingIsPending | src/reactor.rs:980-1005 | a node under verification has found exactly a prefix of its dependencies current and waits for the one being asked |
| Steps.LocalStepKeepsInv | src/reactor.rs:210-223 | a step that leaves one node in order and unfreshens nothing keeps the whole graph invariant |
| Steps.ObserveKeeps | src/reactor.rs:702-757 | recording a read of an up-to-date node keeps the invariant, acyclicity included |
| Steps.StoredKeeps | src/thunk.rs:810-856 | publishing a result keeps the invariant, with the version moved only for a change |
| Steps.UnwoundKeeps | src/reactor.rs:210-223 | restoring the mark of a closure that unwound keeps the invariant |
| Evolution.EvolvesTransitive | src/thunk.rs:694-710 | refreshes compose, and a node recomputed by one is not recomputed by the next |
| Evolution.SparesTransitive | src/thunk.rs:694-745 | code that reads, verifies and flushes composes: while no source moves, a memo recomputed by one stretch of it is not recomputed by a later one |
| Evolution.RunsAtMostOnce | src/thunk.rs:694-710 | over any sequence of reads and flushes in which no source's version moves, each closure runs at most once, and only if nothing was cached, it had unwound, or a recorded version moved |
| Evolution.UnmovedDoesNotRun | src/thunk.rs:780-798 | a node all of whose inputs come back at the recorded versions keeps its value and version and does not run |
| Evolution.ThunkRunMoves | src/thunk.rs:743-744 | once a thunk has run again, whatever it returned, every observer that recorded it finds an input changed |
| EdgeCounts.WalksAgree | src/reactor.rs:1405-1421 | walking the dependency tables and walking the reverse index find the same edges |
| EdgeCounts.OutgoingAfterForget | src/reactor.rs:1065-1080 | dropping a node from its observers' tables removes exactly one edge per observer |
| Refreshing.ReentryReplays | src/reactor.rs:980-1005 | verifying again a node already under verification replays a prefix of current dependencies and then asks for one nearer the top of the call chain |
| ReactorModule.Reactor.ClearObserverDependencies | src/reactor.rs:1462-1517 | every edge of the observer leaves both indexes and nothing else does; all edge counters still equal the walk |
| ReactorModule.Reactor.RecordEdge | src/reactor.rs:723-750 | exactly one edge is recorded, at the current version, in both indexes; the live-edge, added and observed counters follow |
| ReactorModule.Reactor.DropEdges | src/reactor.rs:1024-1080 | disposal drops the node's edges in both directions, the indexes still mirror each other, and the removed counter grows by the edges really dropped |
| ReactorModule.Reactor.CycleCheck | src/reactor.rs:658-685 | a report is made exactly for nodes on the stack, which holds none twice, and is the stack from that node on with the node repeated |
| ReactorModule.Reactor.Observe | src/reactor.rs:702-757 | the read is recorded for the innermost running closure at the version read, or for nobody in an untracked region |
| ReactorModule.Reactor.EnterContext | src/reactor.rs:578-653 | a closure starts with no recorded edges and with tracking on, whatever untracked depth its caller is at, and that depth is handed back |
| ReactorModule.Reactor.StoreResult | src/thunk.rs:810-856 | after a complete run the node is Clean, its cached value is explained by the reads just made, a thunk's version has moved by one even if the value is equal, and a memo's exactly if the value changed |
| ReactorModule.Reactor.RefreshNode | src/reactor.rs:961-973 | refreshing ends with the node up to date or with a cycle report; a report for a running node is the stack from it on and the node again, and any report is what a trail of recorded dependencies and closures' reads leads into; whatever the node does not lead to is left alone; stack and untracked depth are restored; it never reports a cycle where a rank descends along recorded edges and from-scratch reads, and always does for a node of a trap, which stays one |
| ReactorModule.Reactor.Refresh | src/thunk.rs:694-710 | a Clean node is untouched, a Check one recomputes only if an input moved, and nodes in progress are never disturbed |
| ReactorModule.Reactor.DependenciesChanged | src/reactor.rs:980-1005 | no means every recorded dependency is up to date at the recorded version; yes means some recorded version really moved; it is said at the first that moved, with those before it current and none after it asked for; a report is one that asking for a recorded dependency leads into; nothing is touched but what the dependencies asked for lead to; always ends although the verifying node is not on the stack |
| ReactorModule.Reactor.Recompute | src/thunk.rs:712-745 | runs only with cause, leaves the node up to date or Dirty again, and changes other nodes only as refreshes may and only where the closure's reads lead |
| ReactorModule.Reactor.RunClosure | src/thunk.rs:810-856 | the recorded edges of a run are exactly the nodes its tracked reads touched, at the versions read; every read, tracked or not, found the value its version stands for; a report is one its reads lead into |
| ReactorModule.Reactor.ReadInside | src/reactor.rs:139-164 | an untracked read returns the up-to-date cached value too, records nothing, and restores the depth |
| ReactorModule.Reactor.Read | src/thunk.rs:367-382 | a read returns the up-to-date cached value and records it for the reader, or unwinds with a report of the cycle it was led into |
| Marking.PrunedIsFull | src/reactor.rs:842-953 | marking that stops at stale nodes gives every node the mark that walking the whole transitive closure would give it, for every iteration order |
| Marking.WriteKeepsInv | src/reactor.rs:815-839 | a write followed by marking keeps the graph invariant |
| Lanes.QuiescentIsConsistent | src/reactor.rs:1889-1992 | with nothing queued or running, every live effect with no rerun owed is Clean; if moreover no run of it ended between clearing its mark and its body, its recorded versions are all current, even if its body unwound; and if its last run did not unwind neither is the case and its log is that of a complete body |
| Lanes.LastBodySawFromScratch | src/effect.rs:651-830 | the tracked reads of the last complete body of such an effect found what from-scratch evaluation gives now, unless the body re-read a node at another version |
| Lanes.NeverSplitSawFromScratch | src/effect.rs:651-830 | the same outright for a body no path of which reads one node both before and after a write or flush |
| Lanes.ReadsCurrentIffNotSuperseded | src/reactor.rs:723-729 | all reads of the last body are current if and only if no re-read superseded an earlier read at another version |
| LaneSteps.RecoverKeeps | src/effect.rs:687-706 | an effect whose verification unwound is Dirty with exactly one queued run |
| LaneSteps.WriteKeepsLane | src/effect.rs:936-954 | after a write every effect that became stale holds a pending run or is owed one, including those behind memos that were stale already |
| LaneSteps.RerunKeeps | src/effect.rs:820-829 | an owed rerun becomes one queued job, coalesced with a pending one |
| Churning.ReadKeepsEvents | src/reactor.rs:723-729 | one more read of a body keeps its log and edges in agreement, and supersedes an earlier read exactly when it finds another version |
| Calm.LayeredIsPeaceful | src/thunk.rs:712-745 | closures that read only older nodes, with bodies and cleanups that write, flush and throw nothing, meet the condition under which no flush fails |
| Calm.SparingKeepsGuided | src/thunk.rs:694-745 | while no source moves, a rank that descends along everything a refresh can lead to still does, whatever was recomputed and re-recorded |
| Calm.SereneStarts | src/reactor.rs:1912-1919 | a drain starts with each live effect having at most two runs queued or owed, and the budget for them |
| Calm.SereneClosed | src/effect.rs:820-829 | queueing an owed rerun never adds to the runs an effect still has to come |
| Deeds.TeardownGoesOn | src/scope.rs:230-291 | one more cleanup run brings a teardown one step nearer to all of them having begun, latest first |
| Deeds.FirstInFirstOut | src/reactor.rs:1977-1990 | of two jobs waiting in the queue the one in front is taken first |
| Growth.GrowKeepsInv | src/reactor.rs:1268-1300 | adding nodes, each in order by itself, keeps the graph invariant |
| Growth.GrowKeepsFrames | src/reactor.rs:1268-1300 | and leaves every run and verification in progress in order |
| Growth.DisposalKeepsInv | src/reactor.rs:1024-1101 | unhooking an effect keeps the graph invariant |
| Growth.UnhookKeeps | src/effect.rs:868-918 | and leaves every other effect accounted for |
| Scheduling.Scheduler.Schedule | src/effect.rs:545-615 | a live unlatched effect gets exactly one job, at the end of the queue, and a flush is called for; otherwise nothing changes; the queued gauge equals the latched effects |
| Scheduling.Scheduler.MarkDependents | src/reactor.rs:842-927 | states only rise, direct observers get at least the mark, nodes going stale have told all their observers, every effect whose mark changed is latched and none that is Clean; jobs go to the end of the queue; ends because each step down uses up a Clean node |
| Scheduling.Scheduler.DeliverMark | src/thunk.rs:527-565 | the same for one observer: only a node leaving the Clean state passes the mark on, as Check |
| Scheduling.Scheduler.WriteSignal | src/signal.rs:239-285 | an equal value changes nothing at all; any other, and any forced write, moves the version, stores the value and marks as above, latching only effects that became stale and leaving runs in progress alone; the write is on record for whoever made it, and the count of closure runs starts over exactly with such a move |
| Scheduling.Scheduler.CheckDivergence | src/effect.rs:842-866 | a run is admitted exactly when fewer than 100 were counted in this drain; an admitted run uses up one token of the drain's budget and has entered its body fewer than 100 times since the drain began |
| Scheduling.Scheduler.ShouldRun | src/effect.rs:678-745 | a run goes ahead only if the effect was Dirty or some recorded version really moved, always in the first case, never when every recorded version is current, and always when a thunk it recorded ran again; verifying touches nothing but what the recorded dependencies lead to; if it unwinds the effect is Dirty and queued |
| Scheduling.Scheduler.TakeJob | src/effect.rs:651-676 | a job goes on exactly if its effect is neither disposed nor running; one that is running is owed a rerun, and only its latch is released |
| Scheduling.Scheduler.RunNext | src/reactor.rs:1977-1990 | the job taken is the oldest; if it unwinds no other was taken at that depth after it, and its effect counts as unwound or is Dirty and queued again |
| QueueOrder.LastWord | src/reactor.rs:1104-1107 | two effects that write one source: the one queued first runs first, and at rest the source holds what the second wrote |
| Scheduling.Scheduler.RunScheduled | src/effect.rs:651-830 | one job keeps every invariant, disturbs no run in progress, and either spends budget or leaves the queue no longer than before |
| Scheduling.Scheduler.RunWindow | src/effect.rs:788-829 | a normal run tears down all of the last run's cleanups, latest first, then enters the body once and does every write and flush its reads lead to, in order; its log is that of the body, no rerun is owed unqueued, and the cleanups waiting are exactly those this run registered; it unwinds, always if a cleanup throws, exactly when the effect counts as unwound afterwards; if its body was entered at all it answers for its recorded edges, so that only teardown or the guard can lose an input; runs in progress and disposed effects do nothing meanwhile |
| Scheduling.Scheduler.RunCleanup | src/scope.rs:326-340 | a cleanup that does not unwind does all its writes and flushes in order; one that throws unwinds; one that unwinds still began exactly once |
| Scheduling.Scheduler.TearDown | src/scope.rs:230-291 | every cleanup begins exactly once, latest first, even when others unwind; it unwinds if any of them throws, with the panic of the first that unwound; if none unwinds each does all its writes and flushes before the next begins; runs in progress are not disturbed |
| Scheduling.Scheduler.RunBody | src/effect.rs:813-816 | a body that writes, flushes and registers cleanups keeps every invariant; its log is a run of the body on the values its reads found, tracked or not, each the one its version stands for; its edges are its tracked reads, and its writes, flushes and registrations are those of the body, in order |
| Scheduling.Scheduler.ReadForBody | src/reactor.rs:139-164 | a body's read, tracked or not, is handed the cached value at the version it has, and touches only what the node read leads to |
| Scheduling.Scheduler.FlushJobs | src/reactor.rs:1889-1992 | a flush, nested or not, ends; jobs leave the queue first in, first out; when it returns normally the queue is empty, and unless a source moved every closure ran at most once and with cause; a job that unwinds is the last one this flush takes, what is left has a flush coming, and the cause is a throw on record in this flush, an effect with no run left in this drain, or a cycle report that reads of closures can run into; with nothing queued nothing happens; a nested flush cannot refill the run budget, enter a body that is running, or run anything of a disposed effect; in a drain no body is entered more than 100 times |
| Scheduling.Scheduler.OpenFlush | src/reactor.rs:1912-1919 | only the outermost flush starts a new drain with a fresh budget |
| Scheduling.Scheduler.FlushNow | src/reactor.rs:1159-1161 | after an outermost flush that returns normally every live effect that has no rerun owed and was not cut off before its body is Clean with all its recorded versions current, and those that did not unwind are such; unless a source moved every closure ran at most once and with cause; no body was entered more than 100 times; where every read is foreseen to return and bodies and cleanups write, flush and throw nothing, it does return, moves no source, and the next one will too |
| Scheduling.Scheduler.RanOnceSince | src/thunk.rs:694-710 | in every reachable state, in the middle of a flush too: since a source last moved, a read last unwound or a node last came or went, each closure ran at most once and with cause |
| Watching.Watch | src/reactor.rs:1159-1161 | a source, a memo and an effect built from nothing: a flush returns and the effect saw the memo's from-scratch value, and after any write a flush returns again, with the effect Clean, current, and on the new value |
| Scheduling.Scheduler.ReadNode | src/thunk.rs:464-480 | a host read returns the value from-scratch evaluation gives over the sources as they were, changes no source, no effect and nothing the node does not lead to, and runs each closure at most once and with cause; it returns where a rank descends and panics in a trap, as a refresh does, and a report is what a trail from the node leads into |
| Scheduling.Scheduler.CreateSignal | src/signal.rs:98-119 | a new source, at any time, changes nothing else |
| Scheduling.Scheduler.CreateComputed | src/thunk.rs:339-364 | new thunks and memos, which may read one another, start Dirty and change nothing else, whatever is under way |
| Scheduling.Scheduler.CreateEffect | src/effect.rs:337-381 | a new effect starts Dirty with one queued run, no history and an unspent run budget, whatever is under way |
| Scheduling.Scheduler.DisposeEffect | src/effect.rs:868-918 | disposal happens once, releases the pending run, begins every waiting cleanup latest first even when others unwind, raises the panic of the first that unwound, and unhooks the effect all the same; inside a flush it leaves the edges, their order, the exemption and the cleanups of every run in progress as they were |
| OwnWrites.RereadAfterOwnWrite | src/reactor.rs:723-729 | a concrete body that reads a memo, writes behind it and reads it again ends with its first read outdated and superseded |
| OwnWrites.OutdatedAtRest | src/effect.rs:678-745 | the whole run: the rerun its own write queued is skipped, and at rest its first read is of a version and a value the memo no longer has |
| LostRuns.LostRun | src/effect.rs:788-829 | a cleanup that panics ends the run before its body: at rest the effect is Clean on an edge whose version moved, and no run is queued or owed |
| LostRuns.OwedRun | src/effect.rs:820-829 | one that writes and flushes before it panics leaves the effect at rest Dirty, with a rerun owed and none queued |
| OwnWrites.TwoValuesSupersede | src/reactor.rs:723-729 | a log in which two reads of one node found different values is superseded |
| Ownership.Owners.NewFrame | src/ownership.rs:185-192 | a new frame is counted and changes no other gauge |
| Ownership.Owners.Adopt | src/scope.rs:136-148 | an adopted child goes last after the list or, once that has doubled, its survivors in their old order; a disposed owner disposes it at once, with everything below it; gauges equal the walk |
| Ownership.Owners.ReleaseDisposedChildren | src/scope.rs:169-183 | a list of at least 8 that is twice the last sweep's survivors is swept to its live children, and no other list is touched |
| Ownership.SurvivorsInOrder | src/scope.rs:162-183 | a sweep releases no live child, keeps no disposed one and changes no relative order |
| Ownership.ScansKept | src/scope.rs:155-183 | all sweeps of a frame together looked at no more than twice the children ever adopted, and the list stays within 8 or twice the last survivors |
| Ownership.Owners.AddCleanup | src/scope.rs:187-197 | on a live owner the cleanup waits last in line; on a disposed one it runs at once, is never pending, and a panic of its own comes out |
| Ownership.Owners.RunCallback | src/scope.rs:326-340 | a cleanup runs exactly once and does its actions in order until one unwinds: what it disposes is disposed, what it registers waits on its owner or, under a disposed one, has run; it raises its own panic if it reaches it; where it only registers with live owners it does all of that and nothing else; every gauge equals the walk afterwards |
| Ownership.Owners.Reset | src/scope.rs:230-291 | whatever the cleanups do, the frame's own begin latest first, every frame below ends disposed and empty but for those an enclosing teardown still has to reach, and what is raised is the first panic of any cleanup that ran meanwhile, always if one of the frame's own panics, and nothing while the thread is unwinding; cleanups waiting on other live owners go on waiting; where they only run and perhaps panic, each frame's run before its children's and nothing else is touched, and for a frame with no children the same holds of cleanups that register with live owners |
| Ownership.Owners.DisposeFrame | src/scope.rs:297-308 | disposal happens once; whatever the cleanups do, with no other teardown under way every frame below is disposed and empty afterwards, so that every cleanup there has run exactly once, the frame's own latest first, and the first panic among them is the one raised; cleanups waiting on other live owners go on waiting; where cleanups only run and perhaps panic the whole order is that above and no frame outside is touched |
| Ownership.DisposedReachesAll | src/scope.rs:230-308 | once no list is left waiting, a disposed frame has taken everything ever below it with it |
| Ownership.Family | src/scope.rs:230-308 | an owner, child and grandchild whose cleanups dispose and register in the middle of the teardown: all are disposed and all three cleanups ran, each once |
| Ownership.Filing | src/scope.rs:249-293 | a disposed frame's one cleanup registers another with a live owner and panics: the other waits there, nothing else ran, and the panic comes out |
| Flushes.FlushAccounting.Record | src/stats.rs:280-286 | work lands on the innermost open flush or waits; closed, open and pending work together equal all recorded work |
| Flushes.FlushAccounting.OpenFlush | src/stats.rs:288-294 | the flush takes over all pending work and nothing is counted twice |
| Flushes.FlushAccounting.CloseFlush | src/stats.rs:296-306 | exactly the innermost flush's work is reported, and not rolled up into the enclosing one |
| Flushes.FlushCells.RecordWork | src/stats.rs:280-296 | work waits instead of landing on a flush exactly when the subscriber saw none of the open flushes open |
| Flushes.FlushCells.PendingIsUnseen | src/stats.rs:288-296 | so nothing is pending inside a flush the subscriber saw open |
| Flushes.SubscribeInside | src/stats.rs:288-296 | a subscriber that arrives inside a flush has work pending although a flush is open |
| Flushes.FlushCells.OpenJobs | src/reactor.rs:1912-1938 | a drain opens an epoch of its own and reports it with the jobs waiting; only an outermost one starts a new drain |
| Flushes.FlushCells.CloseJobs | src/reactor.rs:1943-1976 | it closes under the epoch it opened with and reports the work of its own slot, the jobs left and the effects queued; started and finished events stay well nested with matching epochs |
| Flushes.FlushCells.BeginFlush | src/reactor.rs:1801-1836 | a declared boundary is a flush only when outermost, and otherwise joins silently |
| Flushes.FlushCells.EndFlush | src/reactor.rs:1838-1869 | it is reported under the epoch it opened with, whatever flushes ran inside it, with the work of its own slot, the jobs left and the effects queued |
| Flushes.SlotIsTop | src/reactor.rs:1848-1857 | the accounting slots always belong to the innermost brackets, so a subscriber that arrives inside a flush never sees it close |
| Hooks.ChangesAlternate | src/reactor.rs:1560-1588 | whatever the history, callbacks alternate beginning with a watch and end in the last delivered state |
| Hooks.ObservationHooks.Recorded | src/reactor.rs:739-755 | a first observer in the edge tables, and only that, queues the hooks of a node |
| Hooks.ObservationHooks.Cleared | src/reactor.rs:1492-1515 | and so does losing the last one when an observer drops its edges |
| Hooks.DisposeWatched | src/reactor.rs:1024-1085 | disposing an observer in the reactor is noted the same way; disposing the node itself silences its hooks |
| Hooks.ObservationHooks.Deliver | src/reactor.rs:1572-1587 | a delivery makes a callback only for a real change, tells the consumer whether the node has an observer, and does nothing for a disposed node |
| Hooks.ObservationHooks.Consistent | src/reactor.rs:1560-1588 | with no delivery queued the consumer has been told exactly whether the node is one of those the reactor counts as observed |
| Events.SameValues | src/event.rs:275-297 | every value emitted reaches the draining subscription exactly once |
| Events.InOrderIff | src/event.rs:275-297 | values arrive in emission order if and only if no earlier subscriber emits while handling one |
| Events.AnswerOvertakes | src/event.rs:275-297 | an earlier subscriber's answer is received before the value it answers |
| Events.AllInOrder | src/event.rs:183-225 | over a whole history without such subscribers reception is emission order |
| Events.Event.Dispatch | src/event.rs:275-297 | calling subscribers in registration order feeds the queue in reception order |
| Events.Event.RunDrain | src/event.rs:196-219 | a run delivers the whole queue in order, and emits exactly what the handler answers to each value, in order |
| Events.Event.Flush | src/event.rs:183-225 | after a settled flush everything received while subscribed was delivered, once and in order |
| Resources.Resource.Rerun | src/resource.rs:157-206 | a new fetch supersedes the last one and aborts that one and no other; loading holds exactly while the newest fetch is outstanding and the resource undisposed |
| Resources.Resource.Complete | src/resource.rs:174-194 | a superseded fetch publishes nothing even if its abort did nothing; the newest one publishes and ends loading, and a completion publishes exactly then |
| Resources.Resource.Dispose | src/resource.rs:200-206 | the first disposal aborts the newest fetch and no other, and ends loading |
| Resources.PublishedAfterDisposal | src/resource.rs:174-206 | a newest fetch that its abort did not stop publishes although the resource is disposed |
| Resources.Resource.NewestWins | src/resource.rs:144-147 | generations of publications strictly increase, so the visible value is the newest fetch's that ever published |

## Left out

- Scheduling.Scheduler.FlushNow: effects that are owed a rerun, or whose teardown or guard unwound and that entered no body since, are excluded from the consistency claim: among them are ones of which it is false (`LostRuns.OwedRun`, `LostRuns.LostRun`). That a flush returns is stated for bodies and cleanups that write, flush and throw nothing; ones that write may be stopped by the guard, as the program means them to be.
- Scheduling.Scheduler.RunCleanup: a cleanup here cannot read, and the values it writes are constants; in the program it may read, untracked, and write what it computed.
- Scheduling.Scheduler.RanOnceSince: the count also starts over when a read unwinds, since a closure that unwound is Dirty and runs again, and when a node is created or disposed.
- Events.Event.Flush: the drain loop is the class's own; that the scheduler's queue would run its job is not modelled.
- Lanes.ReadsCurrentIffNotSuperseded: the condition is about the run (a re-read at another version); the condition on the body alone is one-directional, because whether a write moves a memo depends on the values at hand.
- ReactorModule.Reactor.RefreshNode: for one given iteration order, a node with no descending rank need not be in a trap; the equivalence is over all iteration orders, for nodes whose closures reach only tracked closures.
- Graphs.FreshEvaluates: only for nodes whose closures, and those below them, read everything tracked; an untracked read is by design not followed.
- Ownership.Owners.Reset: the whole order, across frames, is stated for cleanups that only run and perhaps panic; where they register or dispose more, the order of the frame's own cleanups, that each does its actions up to the first that unwinds, the panic raised, that every frame below is reached, exactly-once and the gauges are.
- Ownership.Owners.DisposeFrame: the order across frames is as for `Reset`. Dropping a disposed frame's memory, and with it the live-owner count going down, is not modelled; frames stay in the tables.
- Flushes.FlushAccounting.Record: counters are unbounded, so the saturation of 32-bit counts is not modelled.
- Scheduling.Scheduler.WriteSignal: `update` is modelled as a forced write of its result; the borrow panics of a write inside its own read closure are not.
- Scheduling.Scheduler.CreateEffect: creation and disposal keep every invariant at any time, but are not among the steps of a body or cleanup, so a run's contract covers bodies that read, write, flush and register cleanups; identifiers are handed in fresh instead of being counted up.
- Scheduling.Scheduler.DisposeEffect: an effect disposing itself in the middle of its own run is not modelled.
- Growth.DisposalKeepsInv: sources and memos are disposed when their last handle goes, at which point no closure can read them; only effects are disposed here.
- The effect scheduler and the owner frames are two models: an effect's cleanups are modelled with it, its nested effects and scopes only in the ownership tree.
- Consumer lanes (`effect_with`, discarded runs), error boundaries and `external_flush` around effects: the reactor's own lane only.
- Comparators other than equality, and memos that see their previous value.
- Impure closures: writing, disposing or catching panics inside a thunk or memo.
- The runtime and its microtask queue, futures and aborts: a flush is a call, a completion an arbitrary step.
- Diagnostics payloads, tracing, node origins, thread-local entry guards, cross-reactor checks, scratch-buffer pools and reference-counted lifetimes.
- Wrap-around of 64-bit versions, epochs and identifiers.
- The observation-hook jobs share the effects' queue in the program; here they are drained by their own step.
- `observable.rs`, `writable.rs`, `watch.rs`, `source.rs`, `inspect.rs`: thin wrappers and queries over the core.
