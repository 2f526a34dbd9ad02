# A verified model of the System76 scheduler daemon

The daemon tracks operating-system processes, decides which scheduling profile each of them
holds, and follows D-Bus and pipewire events. This project models that logic in Dafny and proves
what it keeps: over single operations, and over whole runs.

The model has four connected parts and a smaller fifth one.

* **Process table.** `ProcessTable`, `TableOperations` and `Refresh` treat the table as a value:
  cells with weak parent links, an index by (pid, parent pid), an index by pid, and the drain set
  of the mark-and-sweep refresh. `ProcessMap` holds the classes `LCellOwner` and `Map` that update
  it in place; each method is proved equal to the operation on values. A weak link can be followed
  while its cell exists, and `Map.DrainFilter` drops a cell only when neither index refers to it.
* **Priority engine.** `Engine` is the service as a state machine: new processes, the scan of
  children, garbage collection, refresh, the foreground partition, pipewire additions and
  removals. `Service` is the class with the service's fields and loops, `Daemon` the receive loop;
  both are proved against `Engine`. `Classification` and `Worklist` are its two largest helpers.
  The kernel is represented by `applied`, the last profile given to it for each pid.
  `EngineInvariants`, `Cycles`, `Searches`, `Halting`, `Completion`, `Ranks`, `Agreement`,
  `WholeRuns`, `Scans`, `Partitions`, `RefreshAgreement`, `LostPids`, `StableWorld`, `Descendants`,
  `Idempotence`, `Effects`, `RecordContents`, `FixedDecisions`, `Collections` and `Failures` hold the theorems about it.
* **Pipewire pipeline.** `PipewireWire` is the line protocol between the child process and the
  daemon, `PipewirePipeline` the node tracker of the child and the monitor that removes
  duplicates, `PipewireDelivery` the way from the monitor to the service's list.
* **CPU mode protocol.** `CpuMode` has the writer (`Server`), the reader (`CfsHandler`), the power
  daemon and the channel between them.
* **Configuration.** `ConfigParser`, `ConfigTables` and `ConfigReading` follow the assignments and
  exceptions nodes from a parsed document to the tables the engine uses. `WrittenProfiles` and
  `WrittenRules` state what comes of them on the nodes as they are written.

## Main results

* *Agreement.* `WholeRuns.AppliedProfilesAgree`: from start-up, under any configuration and through
  any orderly run, the profile last applied to every process is the one its present state calls for.
  `StableWorld.UndisturbedRunAgrees` asks nothing of the states in between: parents do not change,
  the configuration stays, and no pipewire process is removed before a foreground is set or while
  another one runs below it.
  Each kind of event has its exact condition, under any configuration and whatever the pid index
  finds: `Agreement.AssignNewAgreesExactly` for recordings, `RefreshAgreement.RefreshAgreesExactly`,
  `Partitions.SetForegroundAgreesExactly`, `Partitions.SetPipewireAgreesExactly`,
  `WholeRuns.RemovalAgreesExactly` and `WholeRuns.ReloadAgreesExactly`.
  `RefreshAgreement.RefreshHealsStableRun` says when a refresh restores the agreement after a run in
  which no process changed its parent: unless a reload dropped the pipewire profile and left
  processes held for it, always; in that case, exactly if those stay on their side of the foreground.
  The profiles of a configuration that was read from documents always differ
  (`ConfigReading.ReadProfilesAreDistinct`), which turns the conditions for removals, reloads and
  refreshes into conditions on lists and sides: `ConfigReading.ReadRemovalAgreesExactly`,
  `ConfigReading.ReadReloadAgreesExactly` and `ConfigReading.ReadRefreshAgreesExactly`.
* *Exceptions.* `FixedDecisions.ExceptedAreLeftAlone`: over every run, the kernel is given nothing for a
  process whose names are excepted, and `FixedDecisions.AssignedKeepProfile` is its counterpart for
  names that assign a profile.
* *Failures.* `Failures` has short runs from start-up in which the daemon ends in a state one
  would not expect; each is an instance of a failing branch of one of the exact conditions.
* *Termination.* `ProcessTable.EndsExactly` says when an ancestor walk ends,
  `Cycles.InsertKeepsAcyclicExactly` when an insertion keeps all walks finite,
  `Cycles.RefreshIsAcyclicExactly` when a refresh makes them so, and `Halting.WalksInRuns` what
  walks yield in every run of safe events. `Completion.Halts` is the weaker condition that the
  searches which are made come to an end; `Completion.SafeRunHalts` derives it from safety.
* *Invariants of all runs.* `EngineInvariants.RunKeepsWellFormed`: sound indexes, true parent links
  and sound pipewire ancestry, with no assumption about pids, trees or configuration reloads.
* *Index agreement.* `WholeRuns.IndexesAgree` for runs in which no tracked pid changes its parent,
  `StableWorld.IndexesAgreeInStableWorld` from the inputs alone;
  `Refresh.RefreshCoversExactly` is the exact condition for one refresh and
  `Refresh.ReparentingLosesPid` the input that breaks it. `LostPids.LostWhileListed`: a pid that
  is once lost is found after no later refresh, for as long as the process is listed.
* *Refresh.* `Refresh.RefreshIsExact`, `Effects.RefreshReflectsListing`,
  `RecordContents.RefreshDecidesListed` and `Idempotence.RefreshIsIdempotentExactly`;
  `Collections.CollectsInTurn` says when the garbage collector sweeps.
* *Classification.* `WrittenRules.ClassifiedAsWritten`: from the nodes of a document, the fields of a
  record and the live records above it to the decision; `WrittenProfiles.PropertiesAsWritten`
  and `WrittenProfiles.DeclaredAsWritten` for the properties it is assigned with.
* *Scan.* `Worklist.TasksAreReachable`, `Worklist.TasksArePreorder`,
  `Descendants.ChildrenAreTracked` and `Descendants.NewChildrenAreLinked`.
* *Pipeline.* `PipewireWire.StreamRoundTrip`, `PipewirePipeline.ForwardedAlternates`,
  `PipewirePipeline.SessionsManageExactly` across restarts and, from end to end,
  `PipewireDelivery.ListedHaveArrived`.
* *Convergence.* `CpuMode.Converges` and, for custom mode, `CpuMode.CustomSettles`.

## Where the code differs from its documentation

The model follows the code.

* The documentation says a profile inherits from the previous assignment of the same name
  (README.md:50, README.md:60). The code inherits from the first one (`ConfigTables.FirstDeclarationStays`).
  The documented rule holds exactly where the first and the previous one agree in whatever the new
  one leaves open (`ConfigTables.InheritsPreviousExactly`); `ConfigTables.ThirdMentionForgetsSecond`
  is an input on which it fails.
* It says that `*` with conditions matches all processes that meet them (README.md:96). The code takes
  such a child for a process name: `WrittenRules.StarAssignsNobodyElse`. Rules are the children
  called `include` and `exclude`.
* It says sub-processes of the foreground process get its priority (README.md:3). A process that
  is created below the foreground process gets it only if its pid is on the cached list already
  (`Descendants.NewProcessProfileIsExact`); otherwise it runs with the background profile until
  the list is rebuilt (`Failures.ForegroundChildRunsInBackground`).
* A conditional exception may name a control group (config/src/parser/scheduler.rs:171-175), but
  the service never looks at it. Under a given configuration an exception applies to every process
  exactly when it names no parent, and no ancestor but by a pattern that matches every text:
  `Classification.ExceptsAllExactly`, and `ConfigReading.ReadExceptionExceptsAllExactly` for the nodes
  it is read from. A lone star is such a pattern: `ConfigReading.LoneStarExceptsAll`.

## Assumptions

* Hashing a process is injective in its pid and parent pid.
* What is read of `/proc` does not change while one event is handled; it is an input (`Env`) of
  each step, as is the order in which a hash table is iterated. A listing names no pid
  twice. Every such listing belongs to some world: `StableWorld.AnyListingIsValid`.
* The imperative methods are called for events that are handled to the end (`Completion.Halts`): each
  search among ancestors that the event makes succeeds, or comes to the end of its walk. A search
  that does neither goes on forever in the original: `Failures.ReusedPidClosesCircle` and
  `Failures.ListedCircleIsLinked` are runs with one. In `Completion.SafeRunHalts` the condition
  follows from safety: no insertion goes over its own new parent or a cell above it, and no
  listing has a circle of parents that will be linked (`Cycles.Circle`). `Ranks.RankedRunsAreSafe`
  gives a condition on the inputs alone.
* A D-Bus call that writes the mode and queues its notice is one step, and so is a battery change
  together with its notification.

## Model

| member | source | states |
|---|---|---|
| ProcessTable.EndsExactly | daemon/src/process.rs:37-50 | a walk ends within the number of tracked processes iff it meets no cell twice, whatever the table holds |
| ProcessTable.EndlessWalk | daemon/src/process.rs:37-50 | a walk that does not end within that number goes on forever |
| ProcessTable.WalkEnds | daemon/src/process.rs:37-50 | a walk that ends finds nothing more beyond that number and repeats nothing |
| ProcessTable.AncestorsAreClosure | daemon/src/process.rs:37-60 | the ancestors are exactly the cells to which chains of live links lead |
| ProcessTable.DescentByParentIds | daemon/src/service.rs:379-388 | with true links, comparing an ancestor's own pid adds nothing to comparing parent pids |
| Cycles.InsertKeepsAcyclicExactly | daemon/src/process.rs:94-127 | an insertion keeps all walks finite iff it goes over no cell that is the new parent or above it |
| Cycles.RefreshIsAcyclicExactly | daemon/src/service.rs:466-514 | all walks are finite after a refresh iff the listed parents contain no circle each of whose keys is new or found by its pid |
| Failures.ReusedPidClosesCircle | daemon/src/service.rs:199-253 | two pids that start each other in turn: the third event closes a circle, is neither safe nor handled to the end, and the walk from there is endless |
| Failures.ListedCircleIsLinked | daemon/src/service.rs:506-529 | a listing with a circle of parents: the refresh ends but leaves a walk without end, and the next change of the foreground does not end |
| TableOperations.InsertCoversExactly | daemon/src/process.rs:94-127 | an insertion keeps the pid index complete iff the pid, if it is tracked, keeps its parent |
| ProcessMap.AncestorsOf | daemon/src/process.rs:37-50 | stepping the parent node yields the ancestors |
| ProcessMap.Map.Insert | daemon/src/process.rs:94-127 | an occupied key is merged in place, a vacant one gets a new cell in both indexes |
| ProcessMap.Map.DrainFilterPrepare | daemon/src/process.rs:83-88 | every key is up for removal |
| ProcessMap.Map.RetainProcessTree | daemon/src/process.rs:130-137 | a process and its ancestors leave the drain set |
| TableOperations.RetainSparesTree | daemon/src/process.rs:130-137 | what leaves the drain set is the process and whoever a chain of live links leads to from its parent |
| ProcessMap.Map.DrainFilter | daemon/src/process.rs:72-80 | what is left in the drain set goes, with its pid entries; a cell is dropped once unreferenced |
| Refresh.RefreshIsExact | daemon/src/service.rs:466-514 | exactly the listed keys remain; survivors keep their cell, take over name and group, and keep their decision unless the name changed |
| Refresh.RefreshKeepsLinked | daemon/src/service.rs:497-514 | a record that linking misleads is swept, so every live link is true again at the end |
| Refresh.RefreshFindsExactly | daemon/src/process.rs:72-127 | a listed process is found by pid afterwards iff no record of its pid had another parent and it was not lost before |
| Refresh.RefreshCoversExactly | daemon/src/process.rs:72-127 | the pid index is complete afterwards iff every listed process was findable |
| Refresh.FindableWhenStable | daemon/src/process.rs:94-127 | with a complete index, findable means that the parent did not change |
| Refresh.ReparentingLosesPid | daemon/src/process.rs:72-127 | a pid that returns under another parent is tracked but no longer found |
| Refresh.SweepIsRefresh | daemon/src/service.rs:340-365 | the garbage collector's sweep is a refresh without linking |
| LostPids.InsertLeadsAstrayExactly | daemon/src/process.rs:94-127 | an insertion leads a pid astray iff it was astray or is inserted while tracked under another parent |
| LostPids.SweepLeadsAstrayExactly | daemon/src/process.rs:72-127 | a listed pid is lost by the sweep iff it was astray or is listed under another parent than it is tracked under |
| LostPids.LostWhileListed | daemon/src/service.rs:466-531 | over any run in which every listing names it, under whichever parents: a pid that is astray is tracked, but found after no refresh |
| Scans.RerecordingDecides | daemon/src/service.rs:199-253 | recording a process again under its name does not change whether it is assignable |
| RefreshAgreement.RefreshAgreesExactly | daemon/src/service.rs:466-570 | from any well-formed state, under any configuration: a refresh brings the agreement about iff no foreground is set or managed, or it strands no process, listed or found by the scan |
| RefreshAgreement.PipewireRefreshAgreesExactly | daemon/src/service.rs:466-570 | with a pipewire profile, only lost assignable processes that are not held can be stranded |
| RefreshAgreement.FindableRefreshAgreesExactly | daemon/src/service.rs:466-570 | if the pid index can find every listed process: iff no foreground is set or managed, or there is a pipewire profile, or what is held for nothing stays on its side and the scan adds none |
| RefreshAgreement.FindableRefreshAgrees | daemon/src/service.rs:466-570 | if the pid index can find every listed process, a refresh brings the agreement about given a pipewire profile or an empty pipewire list |
| RefreshAgreement.UnheldRefreshAgreesExactly | daemon/src/service.rs:466-570 | with nobody on the pipewire list, under any configuration: iff each lost assignable process had the profile of its new side |
| Failures.ReparentedForegroundIsStranded | daemon/src/service.rs:527-530 | two events from start-up: the foreground process is seen under another parent and the agreement is lost |
| Effects.RefreshReflectsListing | daemon/src/service.rs:475-514 | keys, names and groups are those read; a decision and a command line survive only with their name, and a new name brings the command line read |
| RecordContents.RecordingIsExact | daemon/src/service.rs:199-253 | name, command line, group, parent link and former names of a recorded process, by what was announced and read; its decision stands with its name or is taken anew |
| RecordContents.RefreshDecidesListed | daemon/src/service.rs:475-530 | after a refresh a listed process has what was read of it, and is decided by that unless a decision stands under its name, found or not |
| RecordContents.CommandLineDecides | daemon/src/service.rs:486-489 | a process that is listed for the first time or under a new name is excepted or assigned by the command line that was read |
| FixedDecisions.ExceptedAreLeftAlone | daemon/src/service.rs:255-288 | over every run, reloads that keep the exception included: a process known by excepted names only is never given a profile, in the foreground or for pipewire |
| FixedDecisions.AssignedKeepProfile | daemon/src/service.rs:255-288 | a process whose names all assign it one profile, with nothing to overrule them, is given no other |
| Collections.CollectsInTurn | daemon/src/service.rs:325-366 | over any run from start-up: of the events that count, 2048 are only counted and the next sweeps the table; no other event does |
| Effects.GarbageCleanForgets | daemon/src/service.rs:325-366 | after a sweep names and groups are blank, links cut, and named records undecided |
| Effects.BaseNameFollowsSlash | daemon/src/process.rs:177-179 | the name is what follows the last slash |
| Effects.PipewireHolds | daemon/src/service.rs:573-602 | who joins the list, who is held and gets the pipewire profile, and that nothing else changes |
| Classification.ClassificationIsExact | daemon/src/service.rs:44-150 | precedence of the stages; a conditioned profile needs a met include and no met exclude; assignable iff no stage decides and no profile qualifies |
| WrittenRules.MetAsWritten | daemon/src/service.rs:78-120 | a condition that was read is met iff group, name, some named parent and some ancestor fit what the node's properties say |
| WrittenRules.ClassifiedAsWritten | daemon/src/service.rs:44-150 | from the nodes as written, the fields of a record and the live records above it: which process is excepted, assigned outright, undecided, let in by rules, or assignable |
| Classification.OrderIrrelevant | daemon/src/service.rs:122-144 | if the qualifying profiles agree, the iteration order of the table does not matter |
| Classification.AnyQualifierCanWin | daemon/src/service.rs:122-144 | every qualifying profile is the answer under some order |
| Classification.ExceptsAllExactly | daemon/src/service.rs:412-448 | under a given configuration, a conditional exception applies to every process of every table iff it names no parent, and no ancestor but by a pattern that matches every text |
| ConfigReading.ReadExceptionExceptsAllExactly | config/src/parser/scheduler.rs:158-197 | an exception that was read does so iff no string property of its node is a parent and the last one that is an ancestor, if any, matches every text |
| ConfigReading.LoneStarExceptsAll | config/src/parser/scheduler.rs:158-197 | an exception for the descendants of a lone star applies to every process |
| ConfigReading.UnboundNodeExceptsAll | config/src/parser/scheduler.rs:158-197 | one such node leaves no process to be classified |
| Worklist.TasksAreReachable | daemon/src/service.rs:162-175 | for any child lists the scan ends and finds exactly the reachable pids, each once, none before one that lists it |
| Worklist.TasksArePreorder | daemon/src/service.rs:162-175 | if the child lists make a tree, depth first, and of siblings the one listed last first |
| EngineInvariants.StepKeepsWellFormed | daemon/src/main.rs:239-328 | every event keeps indexes, links and pipewire ancestry sound |
| EngineInvariants.RunKeepsWellFormed | daemon/src/main.rs:239-328 | the same over every run from start-up |
| EngineInvariants.RemovalReleasesAll | daemon/src/service.rs:607-634 | after a removal nothing is held on account of the removed process |
| Halting.RecordingWalksExactly | daemon/src/service.rs:199-253 | recording a process keeps all walks finite iff its insertion is safe |
| Halting.TasksWalkExactly | daemon/src/service.rs:177-191 | a scan meets only tables with finite walks iff each of its insertions is safe |
| Halting.RefreshingWalksExactly | daemon/src/service.rs:466-514 | the sweep of a refresh leaves all walks finite iff its listing has no circle of parents that will be linked |
| Halting.StepWalkable | daemon/src/main.rs:239-328 | an event whose insertions are safe and whose listing has no such circle ends with all walks finite |
| Halting.WalksInRuns | daemon/src/process.rs:37-60 | in every run of safe events, walks end, are the closure of live links and decide descent |
| Completion.SafeHalts | daemon/src/main.rs:239-328 | a safe event is handled to the end, whatever its searches find |
| Completion.SafeRunHalts | daemon/src/main.rs:239-328 | so is every event of a run of safe events |
| Ranks.RankedRunsAreSafe | daemon/src/process.rs:37-60 | if one rank orders all parents that are read, every event of the run is safe |
| Agreement.AssignNewKeepsAgreement | daemon/src/service.rs:199-253 | recording a process settles it and disturbs no other |
| Agreement.AssignNewAgreesExactly | daemon/src/service.rs:199-288 | whatever the pid index knows, recording a process keeps the agreement iff no record of its pid under another parent chooses another profile than the one applied |
| Failures.CreatedAgainDisagrees | daemon/src/service.rs:199-288 | two events from start-up: a pid used again under another parent and another name disagrees with its old record |
| Agreement.AssignAndApplyAllAgrees | daemon/src/service.rs:516-525 | the last loop of a refresh settles every process, whatever was applied before |
| Agreement.GarbageCleanKeepsAgreement | daemon/src/service.rs:325-366 | collection leaves no stale profile |
| Agreement.PartitionCache | daemon/src/service.rs:543-553 | the cached list holds exactly the foreground pid and the assignable processes that are or descend from it |
| Agreement.PartitionApplies | daemon/src/service.rs:547-567 | which profile the partition applies to each process, and whom it leaves alone |
| Agreement.SetForegroundAgrees | daemon/src/service.rs:539-570 | setting the foreground restores the agreement |
| WholeRuns.SetPipewireAgrees | daemon/src/service.rs:573-602 | adding a pipewire process keeps the agreement |
| Partitions.PartitionAgreesExactly | daemon/src/service.rs:543-569 | the partition loop leaves the right profiles iff what it passes over, lost or held for nothing, has its own already |
| Partitions.SetForegroundAgreesExactly | daemon/src/service.rs:539-570 | whatever the pid index finds: setting the foreground keeps the agreement iff that is so after the scan |
| Partitions.SetPipewireAgreesExactly | daemon/src/service.rs:573-602 | whatever the pid index finds: an addition keeps the agreement iff the process itself, if it is assignable but not found, has the pipewire profile already |
| WholeRuns.RemovalAt | daemon/src/service.rs:607-634 | what a removal does to the list, to each record and to its applied profile |
| WholeRuns.RemovalAgreesExactly | daemon/src/service.rs:607-634 | under any configuration, found or not: a removal keeps the agreement iff each assignable process it lets go of is left with what it is due afterwards |
| WholeRuns.RemovalIsCleanExactly | daemon/src/service.rs:607-634 | if the profiles differ: iff what it gives a side has a foreground set and no place on the list, and what it gives nothing has a place on the list |
| Failures.NestedRemovalDisagrees | daemon/src/service.rs:607-634 | six events from start-up: removing a pipewire process strands a child that is on the list itself |
| WholeRuns.ReloadAgreesExactly | daemon/src/service.rs:533-536 | between any two configurations, a reload keeps the agreement iff no assignable process is due another profile |
| WholeRuns.NamedReloadAgreesExactly | daemon/src/service.rs:533-536 | if profiles carry their own names: iff the pipewire profile stays for the processes it is held for, and that of its side for every other one; adding or dropping a profile is a change |
| Failures.ReloadKeepsOldProfile | daemon/src/service.rs:533-536 | two events from start-up: after a reload the foreground process has the old foreground profile |
| RefreshAgreement.RefreshHealsStableRun | daemon/src/service.rs:466-570 | after any run in which no tracked pid changed its parent, reloads and unclean removals included: when the next refresh puts all profiles right, as an iff on the last configuration and the processes that are held |
| Failures.HeldChildKeepsOldSide | daemon/src/service.rs:555-567 | five events from start-up: after a reload without a pipewire profile, a held child of the foreground process is refreshed onto the foreground list but keeps the background profile |
| WholeRuns.OrderlyStepAgrees | daemon/src/main.rs:239-328 | every orderly event keeps the agreement |
| WholeRuns.AppliedProfilesAgree | daemon/src/main.rs:239-269 | over every orderly run and under any configuration, each configured process has its own profile applied and each assignable one the profile its state calls for |
| WholeRuns.IndexesAgree | daemon/src/process.rs:63-137 | the two indexes agree in every run in which no tracked pid changes its parent |
| StableWorld.RunFaithful | daemon/src/service.rs:199-253 | in a world of fixed parents, reloads included, records carry the parents of the world and are held for pipewire only by a process above them |
| StableWorld.IndexesAgreeInStableWorld | daemon/src/process.rs:63-137 | in such a world the pid index finds exactly the tracked processes |
| StableWorld.UndisturbedRunAgrees | daemon/src/main.rs:239-269 | conditions on the inputs alone under which a run is orderly and ends in agreement |
| Descendants.ChildrenAreTracked | daemon/src/service.rs:153-196 | afterwards a pid is found iff it was known, or is reachable and readable |
| Descendants.NewChildrenAreLinked | daemon/src/service.rs:177-233 | a newly recorded process below the root is linked to its tracked parent |
| Descendants.ScannedAsRead | daemon/src/service.rs:177-191 | a process that becomes known through the scan is recorded as it was read; what was known keeps its record |
| Descendants.ForegroundIsPartitioned | daemon/src/service.rs:539-570 | cached list, applied profiles and untouched processes after setting the foreground |
| Descendants.NewProcessProfileIsExact | daemon/src/service.rs:255-288 | a new assignable process that is not held has the foreground profile iff its pid is the foreground or on the cached list |
| Failures.ForegroundChildRunsInBackground | daemon/src/service.rs:255-288 | two events from start-up: an assignable child of the foreground process runs in the background |
| Descendants.PipewireAncestorIsExact | daemon/src/service.rs:235-245 | the search along a walk succeeds iff one of its processes, or the parent that it names, is listed |
| Descendants.RecordingHoldsExactly | daemon/src/service.rs:211-249 | a recorded process is held iff it was held before, or an ancestor in the new table, or the parent that it names, is listed |
| Descendants.HolderIsFirst | daemon/src/service.rs:235-245 | the search finds the first cell that matches a listed pid, and of the pids it matches the one earlier on the list |
| Descendants.RecordingHolderIsExact | daemon/src/service.rs:211-249 | for whom a recorded process is held: that one, or if nobody above is listed, whom it was held for |
| Descendants.OtherRemovalKeepsHolder | daemon/src/service.rs:607-634 | removing another listed process leaves it held for that one |
| Idempotence.LinksAreDue | daemon/src/service.rs:506-514 | a live link is there after a refresh iff the parent was read and is found |
| Idempotence.RefreshIsIdempotentExactly | daemon/src/service.rs:466-531 | with a pipewire profile, or nothing held: a second refresh changes nothing but dead links iff every readable process below the foreground is listed |
| Idempotence.UnlistedIsReplaced | daemon/src/service.rs:153-196 | a process that the scan finds and the listing omits gets another cell at every refresh |
| Service.Service.constructor | daemon/src/service.rs:28-42 | the service starts in the initial state with empty buffers |
| Service.Service.ClassifyProcess | daemon/src/service.rs:49-147 | the stages of classification in order |
| Service.Service.ProfileByConditions | daemon/src/service.rs:122-144 | the loops over profiles and rules find the first qualifying profile |
| Service.Service.IsConditionMet | daemon/src/service.rs:79-120 | all parts of a condition hold |
| Service.Service.ProcessIsException | daemon/src/service.rs:391-451 | listed as an exception, or a conditional exception applies |
| Service.Service.AssignProcessPriority | daemon/src/service.rs:44-150 | decides only where no decision stands |
| Service.Service.ApplyProcessPriority | daemon/src/service.rs:255-288 | gives the kernel the profile of the decision, of pipewire, foreground or background |
| Service.Service.ProcessAssignment | daemon/src/service.rs:370-376 | the priority of the process the pid index finds |
| Service.Service.ProcessDescendedFrom | daemon/src/service.rs:379-388 | the loop over the ancestors decides descent |
| Service.Service.FindPipewireAncestor | daemon/src/service.rs:235-245 | the first ancestor and listed pid that match |
| Service.Service.AssignNewProcess | daemon/src/service.rs:199-253 | records, holds, decides and applies, as the state machine does |
| Service.Service.ScanTasks | daemon/src/service.rs:154-175 | the scan loop finds the pids to record and leaves its stack empty |
| Service.Service.AssignChildren | daemon/src/service.rs:153-196 | records what the scan finds; the buffers are empty again |
| Service.Service.AbsorbListing | daemon/src/service.rs:475-504 | the loop over the listing retains and inserts each process |
| Service.Service.LinkParents | daemon/src/service.rs:506-512 | the loop over the parents that were read |
| Service.Service.GarbageClean | daemon/src/service.rs:325-366 | skips 2048 calls and sweeps at the next |
| Service.Service.ProcessMapRefresh | daemon/src/service.rs:466-531 | the whole refresh, as the state machine does it |
| Service.Service.SetForegroundProcess | daemon/src/service.rs:539-570 | the scan and the partition loop |
| Service.Service.SetPipewireProcess | daemon/src/service.rs:573-602 | the scan, the list and the holding loop |
| Service.Service.RemovePipewireProcess | daemon/src/service.rs:607-634 | the list and the releasing loop |
| Service.Service.ReloadConfiguration | daemon/src/service.rs:534-536 | replaces the configuration and nothing else |
| Daemon.Dispatch | daemon/src/main.rs:240-269 | each event is handled as the state machine does |
| Daemon.Run | daemon/src/main.rs:239-328 | the receive loop ends in the state the state machine predicts |
| Daemon.RunFromStart | daemon/src/main.rs:163-328 | a service started afresh is well-formed and in agreement after every orderly run |
| PipewireWire.AtoiOfDigits | pipewire/src/lib.rs:48-48 | a printed number of 32 bits is read back whatever follows it |
| PipewireWire.EventExactly | pipewire/src/lib.rs:44-57 | a line is an event iff it is the word for its kind, a space and a field that starts with its 32-bit pid |
| PipewireWire.EventRoundTrip | pipewire/src/lib.rs:44-69 | a printed event is parsed back, with or without its newline |
| PipewireWire.StreamRoundTrip | daemon/src/pw.rs:24-27 | any sequence of events survives printing, splitting into lines and parsing |
| PipewireWire.CutStream | daemon/src/pw.rs:143-151 | of a stream that is cut off, every event whose line was ended is read and at most one abbreviated one |
| PipewireWire.LastNewlineMissing | daemon/src/pw.rs:143-151 | a last line that is not ended is read, too |
| PipewirePipeline.Monitor.Handle | daemon/src/pw.rs:151-168 | forwards an event unless it repeats what is known |
| PipewirePipeline.Monitor.ReadChild | daemon/src/pw.rs:140-169 | reads a child's output line by line |
| PipewirePipeline.Monitor.Run | daemon/src/pw.rs:104-170 | the managed set is kept from child to child |
| PipewirePipeline.ForwardedAlternates | daemon/src/pw.rs:151-168 | per pid additions and removals alternate, an addition first; managed iff the last one forwarded is an addition |
| PipewirePipeline.ForwardedSuffices | daemon/src/pw.rs:151-168 | replaying what was forwarded manages the same pids and forwards the same events |
| PipewirePipeline.NodeTracker.Handle | pipewire/src/lib.rs:99-113 | one node event |
| PipewirePipeline.EmittedCountsNodes | pipewire/src/lib.rs:96-114 | additions less removals of a pid count its live nodes |
| PipewirePipeline.ManagedExactly | pipewire/src/lib.rs:96-114 | a pid is managed iff no node of it has departed since one last arrived, whatever the nodes report |
| PipewirePipeline.SessionsManageExactly | daemon/src/pw.rs:104-170 | across restarted children: a pid is managed iff it arrived under some child and no node that a child had seen has departed since |
| PipewirePipeline.RestartLeavesStalePid | daemon/src/pw.rs:104-170 | a process that goes between two children stays managed, whatever other processes the next one reports |
| PipewirePipeline.ManagedHaveNodes | pipewire/src/lib.rs:96-114 | managed pids have a live node; the converse holds if no process ever has two |
| PipewirePipeline.TwoNodesAreForgotten | daemon/src/pw.rs:159-162 | with two nodes, removing one makes the monitor forget the process |
| PipewirePipeline.ChangedProcessStaysManaged | pipewire/src/lib.rs:100-106 | a node that changes its process leaves the old one managed without a node |
| PipewireDelivery.ListWithinTrace | daemon/src/service.rs:573-612 | every listed process was added and not removed by the events handled so far |
| PipewireDelivery.ListFollowsMonitor | daemon/src/pw.rs:167-167 | the service's list is within the monitor's set at the point the handled events come from |
| PipewireDelivery.ListedHaveArrived | daemon/src/pw.rs:104-170 | from the node events of any number of children through printing, reading, the monitor and the channel: every listed process had a node arrive and none depart since |
| CpuMode.Server.SetCpuMode | daemon/src/dbus.rs:74-78 | writes the mode and queues a notice |
| CpuMode.Server.SetCpuProfile | daemon/src/dbus.rs:80-93 | writes the name, and the mode and notice it stands for |
| CpuMode.Upower.Report | daemon/src/main.rs:333-342 | battery changes are queued in order |
| CpuMode.CfsHandler.constructor | daemon/src/main.rs:179-182 | at start-up the profile for the battery state is applied |
| CpuMode.CfsHandler.HandleNext | daemon/src/main.rs:271-321 | acts on a notice by the mode and name it finds |
| CpuMode.ActKeepsHeading | daemon/src/main.rs:271-321 | every action keeps the state heading for the profile its mode calls for |
| CpuMode.FollowsCalls | daemon/src/dbus.rs:74-93 | mode and profile name are those asked for by the calls, the names that stand for a mode included |
| CpuMode.Converges | daemon/src/main.rs:271-321 | with nothing pending, the kernel has the profile of the mode asked for last, or the known custom profile asked for last |
| CpuMode.DisabledAppliesNothing | daemon/src/service.rs:290-299 | while the feature is disabled nothing is applied |
| CpuMode.CustomSettles | daemon/src/main.rs:271-321 | in custom mode, once nothing is queued, the kernel has the named profile if a notice for it was queued, and what it had otherwise |
| CpuMode.CustomModeKeepsProfile | daemon/src/dbus.rs:74-78 | custom mode set as a mode leaves the profile as it is, unless a custom one was still to come |
| CpuMode.BlankNameFreezes | daemon/src/dbus.rs:80-93 | after the empty name is set in custom mode, a custom profile is applied iff it was when the empty name was set |
| CpuMode.OvertakenProfileIsApplied | daemon/src/main.rs:310-321 | a mode set before the notice for a custom profile is handled does not take it back: it is applied until the mode's own notice, and for good in custom mode |
| CpuMode.OverwrittenNameIsLost | daemon/src/dbus.rs:80-93 | a custom profile whose name is overwritten before it is handled is never applied |
| ConfigParser.AssignmentTables.Parse | config/src/parser/scheduler.rs:53-155 | the loop over the profile nodes |
| ConfigParser.AssignmentTables.ParseProfile | config/src/parser/scheduler.rs:65-84 | one profile node: inheritance, the table and its children |
| ConfigParser.AssignmentTables.ParseAssignment | config/src/parser/scheduler.rs:90-151 | one child: a rule, a command line or a name |
| ConfigParser.AssignmentTables.ReadRule | config/src/parser/scheduler.rs:98-126 | profile properties go to the profile, the others to the condition |
| ConfigParser.AssignmentTables.AssignByCondition | config/src/scheduler/assignments.rs:127-139 | the first rule fixes the properties, every rule is appended |
| ConfigParser.AssignmentTables.ParseExceptions | config/src/parser/scheduler.rs:158-197 | conditions, command lines and names of the exceptions |
| ConfigTables.FirstDeclarationStays | config/src/parser/scheduler.rs:71-81 | the profile table holds each name as first declared, over any sequence of nodes |
| ConfigTables.InheritsPreviousExactly | config/src/parser/scheduler.rs:71-81 | a mention inherits from the previous one, as documented, iff the first and the previous agree in every property the mention does not set |
| ConfigTables.ThirdMentionForgetsSecond | config/src/parser/scheduler.rs:71-81 | three mentions: the third has the niceness of the first, not of the second |
| ConfigTables.ConditionsAreExact | config/src/scheduler/assignments.rs:127-139 | a profile is conditioned iff a rule states a condition, with the first such rule's properties and all of them in document order |
| WrittenRules.ReadConfigIsReadFrom | config/src/parser/mod.rs:13-40 | a configuration that was read has the tables of its nodes, so that what is stated of written nodes holds of it |
| WrittenRules.RulesAsWritten | config/src/parser/scheduler.rs:87-140 | a profile is conditioned iff an include or exclude of it says something; rule by rule, whether it includes and what its condition is follow from the node |
| WrittenRules.StarAssignsNobodyElse | config/src/parser/scheduler.rs:90-151 | a child called by a star is no rule: it assigns the processes of that very name only |
| ConfigTables.LastMentionWins | config/src/parser/scheduler.rs:143-150 | a name or command line has the profile of its last mention |
| ConfigTables.DocumentsAreNodes | config/src/parser/mod.rs:109-142 | several documents are read like one |
| ConfigTables.ReachableProfilesInRange | config/src/scheduler/mod.rs:127-131 | every profile that can be assigned has its niceness, priority and I/O level in range |
| WrittenProfiles.PropertiesAsWritten | config/src/parser/scheduler.rs:201-298 | each property is what the last entry that states it says, clamped, and is inherited if none does |
| WrittenProfiles.DeclaredAsWritten | config/src/scheduler/profile.rs:24-34 | what a declared profile holds for the properties that no entry states |
| ConfigReading.ConfiguredByDeclaration | config/src/parser/mod.rs:17-40 | which profiles switch foreground and pipewire management on |
| ConfigReading.ReadProfilesAreDistinct | config/src/parser/mod.rs:17-40 | the profiles the engine switches between always differ, whichever of them are declared |
| ConfigReading.ReadRemovalAgreesExactly | daemon/src/service.rs:607-634 | the exact condition for removals, for every configuration that was read |
| ConfigReading.ReadReloadAgreesExactly | daemon/src/service.rs:533-536 | the exact condition for reloads, between any two configurations that were read |
| ConfigReading.ReadRefreshAgreesExactly | daemon/src/service.rs:466-570 | the exact condition for refreshes in terms of sides, for every configuration that was read |

## Left out

- WholeRuns.AppliedProfilesAgree: covers runs in which no tracked pid changes its parent, reloads change nothing and removals are clean; each of the three can lose the agreement (`Failures.ReparentedForegroundIsStranded`, `Failures.ReloadKeepsOldProfile`, `Failures.NestedRemovalDisagrees`).
- WholeRuns.RemovalAgreesExactly: a pid that is tracked under two parents at once is left out, to which a pid that is created again under another parent leads until the next refresh; the iteration order of the table then has a say.
- Partitions.SetPipewireAgreesExactly: leaves out the same, and a lost pid that the scan reads under another parent, since it is then recorded a second time; so does `Partitions.SetForegroundAgreesExactly`.
- Partitions.SetForegroundAgreesExactly: its condition is read off the table after the scan; so is that of `Partitions.SetPipewireAgreesExactly`, and in a refresh the side of processes held for nothing.
- Idempotence.RefreshIsIdempotentExactly: leaves out configurations that lost their pipewire profile in a reload while processes were held for it.
- CpuMode.Converges: does not cover reloads or missing kernel files; while the CFS section is disabled nothing is applied at all (`CpuMode.DisabledAppliesNothing`).
- PipewireWire.AtoiOfDigits: a leading sign, which the number parser also accepts but the printer never writes, is not modelled.
- PipewirePipeline.EmittedCountsNodes: one child with one process per node; `ChangedProcessStaysManaged` shows what a change of process does.
- PipewireDelivery.ListedHaveArrived: children that are cut off between two lines, or go on to their end; what is read of one that is cut off within a line is in `PipewireWire.CutStream`.
- ProcessMap.AncestorsOf: collects the ancestors of a process at once, which is what retaining a process tree does; the searches of `Service` step through them one by one and stop early, as the original does.
- Service.Service.ProcessMapRefresh: the map is not moved out of the service and back while priorities are refreshed, which the original does to satisfy Rust's ownership rules.
- Reading `/proc` (executable, status, control group, children) and the byte scanners it uses: inputs of each step.
- Kernel calls that set niceness, policy and I/O priority, and the files of the CFS section: represented by what was last applied.
- Latency arithmetic of the CFS profiles: floating-point logarithms and truncation.
- Wildcard matching and the KDL parser: an arbitrary match predicate, and documents that are already parsed.
- The pipewire library, socket discovery, starting child processes, timers, the command line and logging.
- Reading node properties into a pid, and sessions of several users at once.
- Channel capacity and D-Bus locking.
- Memory tuning: buffer capacities and shrinking.
