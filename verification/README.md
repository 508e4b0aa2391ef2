# VPS Graph: a verified model

VPS Graph scans a server over SSH, draws its containers, services, listeners and routes as a graph, keeps a
history of snapshots per server and shows what changed between two of them. This project models the parts
of it that decide what is shown and kept, and proves what they promise.

| part | files |
|---|---|
| snapshot history on a disk that can crash and decay | `Snapshots`, `SnapshotStore`, `Repository`, `History`, `StoreRecovery`, `StoreCrash`, `StoreRuns`, `StoreDedup`, `StoreCorruption`, `StoreMachine`, `StoreCalls`, `StoreDisturbed`, `StoreHistory` |
| server identities, captures, stored comparisons | `Identities`, `Capturing`, `CaptureRuns`, `Comparing`, `CompareFailures`, `Orchestrator` |
| canonical projection and the evidence-qualified diff | `Projection`, `DiffEngine`, `DiffOrder`, `DiffAccounting`, `DiffMeaning`, `DiffReplay`, `DiffInverse`, `DiffSwap`, `HiddenWorlds` |
| helper reports to graphs to snapshots | `JsonData`, `Discovery`, `HelperParser`, `HelperFaults`, `GraphIds`, `GraphSpec`, `GraphRouting`, `GraphFactory`, `GraphParts`, `GraphShape`, `GraphEnds`, `GraphAccounting`, `ScanToSnapshot`, `GraphReplay`, `GraphTypes`, `GraphDomains` |
| the helper: Caddy routes, systemd services, listener owners | `CaddyRoutes`, `CaddyChains`, `CaddyWriter`, `SystemdDiscovery`, `SystemdHonesty`, `SystemdBatches`, `HostListeners` |
| the view: visible graph, layout, changes | `Graphs`, `GraphView`, `GraphLayout`, `LayoutSpacing`, `LayoutColumns`, `LayoutEverything`, `LayoutDomains`, `ChangesModel`, `ChangesShown` |
| building blocks | `Ordering`, `Collections`, `Texts` |

How it is built:

- What the code does step by step is a method or a class with a loop, proved equal to a specification
  function: the plan of a store call, the diff, the graph, the emitted routes, the layout. What the code
  promises is proved about these functions.
- A store call is a list of single disk steps (make the directory, rename a file into place, delete a file,
  rewrite the index). The class `FileSnapshotRepository` keeps the trace of its steps; a crash is a prefix of
  them. In `StoreMachine` a call also reads in stages, and files can turn unreadable and the index can break
  between any two stages or steps. The order in which a directory lists its files, and which 200 of more than
  200 it inspects, is left open.
- A fingerprint is the hashed payload itself, an identity hash any injective function with colon-free texts;
  `GraphIds.IdentityExists` shows that there is one. Identifiers of nodes and edges are the texts that
  the factory builds.
- Times are integers, texts are sequences of characters, and the text sanitizers are parameters.

Where the code falls short of what one would expect, the model follows the code:

- `listMetadata` can list a file that has turned unreadable: `StoreRecovery.HistoryExact` and
  `StoreHistory.HistoryAfterAnyTrace` say exactly when, `StoreHistory.DeadFileExample` shows it.
- A connection key confuses some connections with NUL in their texts: `Identities.KeysShared` says exactly which,
  `Identities.NulHostsCollide` shows two.
- The label of a Docker engine is compared from one side only, so swapping two snapshots does not always
  invert the diff: `DiffSwap.SwapInvertsExactly` says exactly when, `DiffSwap.EngineNotInverted` shows it. Scans
  of one server are safe: `GraphTypes.BuiltSwapInverts`.
- An edge that changes under its identifier is not reported: `DiffReplay.ReplayEdgesExactly` says when that loses
  something, `DiffReplay.ChangedEdgeExample` shows it. Scans of one server are safe: `GraphReplay.BuiltEdgesReplay`.
- An edge can be an unconfirmed removal although no consistent world has it: `HiddenWorlds.EdgeRemovalExact` says
  exactly when, `HiddenWorlds.CautiousEdge` shows it.
- The comparison shortcut for equal fingerprints says complete under partial discovery: `DiffMeaning.ShortcutAgrees`
  says exactly when, `DiffSwap.ShortcutOverstates` shows it.
- A comparison of stored snapshots can fail inside the diff engine: `Comparing.CompareOnAnyDisk` says exactly when,
  `CompareFailures.RepeatingExample` shows it.
- The EVERYTHING layout can put nodes of different types too close: `LayoutEverything.EverythingSpacedExactly` says
  exactly when, `LayoutEverything.SpacedExactly` rests on two nodes on one spot.
- Two changes with the separator inside their texts can be shown as one moved relationship:
  `ChangesShown.RetargetsExactly` says exactly when, `ChangesModel.ForeignPair` shows it.

## Model

| member | source | states |
|---|---|---|
| `Repository.FileSnapshotRepository.Save` | intellij-plugin/src/main/kotlin/com/ilkimgul/vpsgraph/plugin/SnapshotRepository.kt:57-78 | `save` on the mutable directory: the disk and the trace of single writes and deletes afterwards are exactly those of the plan for some legal listing of the directory, in every branch (rejected, deduplicated, too large, saved) |
| `Repository.FileSnapshotRepository.RecoverIndex` | intellij-plugin/src/main/kotlin/com/ilkimgul/vpsgraph/plugin/SnapshotRepository.kt:125-142 | recovery deletes the surplus files one by one and rewrites the index, as single steps, and returns what its plan returns |
| `Repository.FileSnapshotRepository.ReadOrRecoverIndex` | intellij-plugin/src/main/kotlin/com/ilkimgul/vpsgraph/plugin/SnapshotRepository.kt:105-112 | the index is used only when its identifiers are distinct and exactly those of the files; otherwise recovery runs |
| `Repository.FileSnapshotRepository.Latest` | intellij-plugin/src/main/kotlin/com/ilkimgul/vpsgraph/plugin/SnapshotRepository.kt:80-89 | `latest`, with its two repairs: an index of which nothing loads is emptied, one whose head does not load is recovered |
| `Repository.FileSnapshotRepository.ListMetadata` | intellij-plugin/src/main/kotlin/com/ilkimgul/vpsgraph/plugin/SnapshotRepository.kt:91-94 | `listMetadata` and its effect on the disk |
| `Repository.FileSnapshotRepository.LoadById` | intellij-plugin/src/main/kotlin/com/ilkimgul/vpsgraph/plugin/SnapshotRepository.kt:96-103 | `load`: an invalid identifier changes nothing; an unreadable file triggers recovery |
| `StoreRecovery.RecoverExact` | intellij-plugin/src/main/kotlin/com/ilkimgul/vpsgraph/plugin/SnapshotRepository.kt:125-142 | recovery returns the newest readable entries, sorted and cut at the retention limit, of the files it inspected; these are all files while there are at most 200 |
| `StoreRecovery.HistoryExact` | intellij-plugin/src/main/kotlin/com/ilkimgul/vpsgraph/plugin/SnapshotRepository.kt:91-112 | `listMetadata` returns exactly the newest readable snapshots if and only if the files are intact or the index is not trusted |
| `History.NewestUnique` | intellij-plugin/src/main/kotlin/com/ilkimgul/vpsgraph/plugin/SnapshotRepository.kt:71-73 | the newest part of a set of entries is one list only, so "the newest `retentionLimit`" determines the history |
| `StoreCrash.PutCommits` | intellij-plugin/src/main/kotlin/com/ilkimgul/vpsgraph/plugin/SnapshotRepository.kt:69-69 | writing the snapshot file moves the recoverable history to the one with the new snapshot in one step |
| `StoreRuns.SaveIsAtomic` | intellij-plugin/src/main/kotlin/com/ilkimgul/vpsgraph/plugin/SnapshotRepository.kt:57-78 | cut after any single step, `save` leaves the old history or the new one, and the new one exactly when the rename was among the steps done; an uncut `save` commits exactly an acceptable, non-repeating snapshot |
| `StoreRuns.RunsAreAtomic` | intellij-plugin/src/main/kotlin/com/ilkimgul/vpsgraph/plugin/SnapshotRepository.kt:57-142 | after any run of saves and reads, each cut at any step, the next read returns the history of the committed saves, which is the newest `retentionLimit` of the readable files |
| `StoreDedup.SavesCollapse` | intellij-plugin/src/main/kotlin/com/ilkimgul/vpsgraph/plugin/SnapshotRepository.kt:61-73 | for every increasing run of acceptable saves the history is the newest `retentionLimit` first snapshots of the blocks of equal fingerprints |
| `StoreDedup.NeighboursDiffer` | intellij-plugin/src/main/kotlin/com/ilkimgul/vpsgraph/plugin/SnapshotRepository.kt:61-65 | neighbours in such a history never share a fingerprint |
| `StoreDedup.RunOfSavesCollapses` | intellij-plugin/src/main/kotlin/com/ilkimgul/vpsgraph/plugin/SnapshotRepository.kt:57-94 | the same on the disk: what `listMetadata` returns after the run; rejected inputs leave no trace |
| `StoreCorruption.LatestExact` | intellij-plugin/src/main/kotlin/com/ilkimgul/vpsgraph/plugin/SnapshotRepository.kt:80-112 | whatever files have become unreadable, `latest` returns the newest snapshot it can see and nothing exactly when it sees none; with at most 200 files it sees every readable one |
| `StoreMachine.LatestAfterAnyTrace` | intellij-plugin/src/main/kotlin/com/ilkimgul/vpsgraph/plugin/SnapshotRepository.kt:57-142 | the same from the empty directory after any interleaving of calls, each reading in stages and acting step by step, with crashes, files turning unreadable and the index breaking between any two of these |
| `StoreCalls.UndisturbedCall` | intellij-plugin/src/main/kotlin/com/ilkimgul/vpsgraph/plugin/SnapshotRepository.kt:57-103 | left alone, a call that reads in stages and acts step by step does to the directory exactly what its plan says |
| `StoreDisturbed.DisturbedLatest` | intellij-plugin/src/main/kotlin/com/ilkimgul/vpsgraph/plugin/SnapshotRepository.kt:80-89 | in any such trace with at most 149 damaged files, a call of `latest` that files turned unreadable under, between its reading of the index and its loads, still finds the newest snapshot readable when it loads, and nothing exactly when none is |
| `StoreHistory.HistoryAfterAnyTrace` | intellij-plugin/src/main/kotlin/com/ilkimgul/vpsgraph/plugin/SnapshotRepository.kt:91-142 | after any such trace with at most 149 damaged files, `listMetadata` returns the newest readable snapshots exactly when every file is intact or the index is not trusted |
| `StoreHistory.DeadFileListed` | intellij-plugin/src/main/kotlin/com/ilkimgul/vpsgraph/plugin/SnapshotRepository.kt:91-112 | whatever is saved first and however its file is then damaged, the index stays trusted and `listMetadata` lists the dead file |
| `StoreHistory.DeadFileExample` | intellij-plugin/src/main/kotlin/com/ilkimgul/vpsgraph/plugin/SnapshotRepository.kt:91-112 | a concrete directory and trace of that kind |
| `Identities.ServerIdentityStore.Resolve` | intellij-plugin/src/main/kotlin/com/ilkimgul/vpsgraph/plugin/SnapshotPersistence.kt:57-79 | `resolve`: the file afterwards and the answer, for a missing, broken, full or usable file |
| `Identities.KeysShared` | intellij-plugin/src/main/kotlin/com/ilkimgul/vpsgraph/plugin/SnapshotPersistence.kt:103-107 | two connections have the same key text exactly when host, port and user agree, or the host of one, which then holds NUL, reads on into the user name of the other |
| `Identities.ConfusedHoldNul` | intellij-plugin/src/main/kotlin/com/ilkimgul/vpsgraph/plugin/SnapshotPersistence.kt:103-107 | such a confusion takes NUL in one host and in the other user name |
| `Identities.NulHostsCollide` | intellij-plugin/src/main/kotlin/com/ilkimgul/vpsgraph/plugin/SnapshotPersistence.kt:103-107 | two different connections with one key |
| `Identities.ConnectionsKeepIdentity` | intellij-plugin/src/main/kotlin/com/ilkimgul/vpsgraph/plugin/SnapshotPersistence.kt:57-107 | in terms of connections: a later lookup gets an earlier answer exactly when it is the same connection or one that the key confuses with it |
| `Identities.IdentitiesStable` | intellij-plugin/src/main/kotlin/com/ilkimgul/vpsgraph/plugin/SnapshotPersistence.kt:57-79 | over any run of lookups a connection keeps its identifier and no other connection ever gets it |
| `Orchestrator.SnapshotPersistence.CaptureContext` | intellij-plugin/src/main/kotlin/com/ilkimgul/vpsgraph/plugin/SnapshotPersistence.kt:31-36 | identity, `latest`, projection and `save` in this order; only the directory of the resolved server changes, to what the plan says |
| `CaptureRuns.CaptureIsHonest` | intellij-plugin/src/main/kotlin/com/ilkimgul/vpsgraph/plugin/ChangesOrchestrator.kt:71-75 | a capture compares with the newest readable snapshot; it is not persisted if and only if that one has an equal fingerprint, and then reports NO_CHANGES and empty lists; NO_BASELINE if and only if nothing is readable; never a failure status |
| `CaptureRuns.CapturesAreHonest` | intellij-plugin/src/main/kotlin/com/ilkimgul/vpsgraph/plugin/ChangesOrchestrator.kt:71-75 | the same after any such trace of calls with at most 149 damaged files, as long as the clock does not run backwards |
| `CaptureRuns.StoreMakesLatest` | intellij-plugin/src/main/kotlin/com/ilkimgul/vpsgraph/plugin/SnapshotRepository.kt:67-77 | a stored snapshot newer than everything issued before is then the newest readable one |
| `CaptureRuns.CaptureBecomesLatest` | intellij-plugin/src/main/kotlin/com/ilkimgul/vpsgraph/plugin/SnapshotPersistence.kt:31-36 | after a capture the newest readable snapshot is the one it reports as current, or the equal one it kept |
| `Capturing.LatestSettles` | intellij-plugin/src/main/kotlin/com/ilkimgul/vpsgraph/plugin/SnapshotRepository.kt:80-89 | after `latest` has run its repairs, the head of the next read loads |
| `Comparing.ResourcesCoverDiff` | intellij-plugin/src/main/kotlin/com/ilkimgul/vpsgraph/plugin/ChangesOrchestrator.kt:102-119 | the resources of a payload are exactly the nodes its diff mentions, each with what the two snapshots hold, none missing from both |
| `Comparing.CompareExact` | intellij-plugin/src/main/kotlin/com/ilkimgul/vpsgraph/plugin/ChangesOrchestrator.kt:79-100 | on an undamaged directory a comparison succeeds exactly for two listed snapshots in time order, shows their diff and the unchanged history, and never fails inside the diff engine |
| `Comparing.CompareOnAnyDisk` | intellij-plugin/src/main/kotlin/com/ilkimgul/vpsgraph/plugin/ChangesOrchestrator.kt:79-100 | on any directory, damaged or not, every answer of a comparison by what is listed and what then loads; it fails inside the diff engine exactly when a stored file repeats a subsystem, which loading does not check |
| `CompareFailures.RepeatingStored` | intellij-plugin/src/main/kotlin/com/ilkimgul/vpsgraph/plugin/ChangesOrchestrator.kt:79-100 | any acceptable snapshot that repeats a subsystem is stored and listed by the first `save`, and comparing it then fails inside the diff engine |
| `CompareFailures.RepeatingExample` | intellij-plugin/src/main/kotlin/com/ilkimgul/vpsgraph/plugin/ChangesOrchestrator.kt:79-100 | a concrete snapshot of that kind |
| `Orchestrator.ChangesOrchestrator.Capture` | intellij-plugin/src/main/kotlin/com/ilkimgul/vpsgraph/plugin/ChangesOrchestrator.kt:68-77 | `capture`: identity file, answer, active server, remembered answer and the directory of every server afterwards, also when it throws |
| `Orchestrator.ChangesOrchestrator.Compare` | intellij-plugin/src/main/kotlin/com/ilkimgul/vpsgraph/plugin/ChangesOrchestrator.kt:79-100 | `compare`: every error answer, else the answer of the plan; the directory of the active server is left as the plan says, all others alone |
| `Projection.ContentIgnoresOrder` | scanner-core/src/main/kotlin/com/ilkimgul/vpsgraph/core/SnapshotProjection.kt:29-49 | permuting nodes and edges changes neither the content nor the reason for rejecting it |
| `Projection.FingerprintCharacterised` | scanner-core/src/main/kotlin/com/ilkimgul/vpsgraph/core/SnapshotProjection.kt:29-56 | two well-formed graphs have equal fingerprints exactly when they show the same nodes, up to metadata outside the allowlist, and the same edges |
| `DiffEngine.CompareSnapshots` | scanner-core/src/main/kotlin/com/ilkimgul/vpsgraph/core/InfrastructureDiffEngine.kt:4-102 | `compare`, loop by loop: every terminal status, the lists, their order, the counts, the status |
| `DiffEngine.CollectNodeChanges` | scanner-core/src/main/kotlin/com/ilkimgul/vpsgraph/core/InfrastructureDiffEngine.kt:24-43 | the three loops over nodes find exactly the additions, removals and modifications, and the doubts additions raise |
| `DiffEngine.CollectRelationshipChanges` | scanner-core/src/main/kotlin/com/ilkimgul/vpsgraph/core/InfrastructureDiffEngine.kt:45-64 | the same for edges |
| `DiffOrder.CompareIgnoresOrder` | scanner-core/src/main/kotlin/com/ilkimgul/vpsgraph/core/InfrastructureDiffEngine.kt:4-102 | permuting the lists inside either snapshot leaves the whole result unchanged, including its order |
| `DiffAccounting.CountsAreConserved` | scanner-core/src/main/kotlin/com/ilkimgul/vpsgraph/core/InfrastructureDiffEngine.kt:66-90 | current size plus confirmed and unconfirmed removals equals previous size plus additions, for nodes and edges; `hasChanges` exactly when the five counts sum above zero |
| `DiffMeaning.StatusMeaning` | scanner-core/src/main/kotlin/com/ilkimgul/vpsgraph/core/InfrastructureDiffEngine.kt:71-90 | not PARTIAL exactly when all four current subsystems are complete and nothing is newly observed; then every change is confirmed |
| `DiffMeaning.ShortcutAgrees` | scanner-core/src/main/kotlin/com/ilkimgul/vpsgraph/core/InfrastructureDiffEngine.kt:12-12 | the shortcut for equal fingerprints agrees with the full comparison on the change lists, and on the whole result exactly when current discovery is complete |
| `DiffSwap.ShortcutOverstates` | scanner-core/src/main/kotlin/com/ilkimgul/vpsgraph/core/InfrastructureDiffEngine.kt:12-12 | two partially discovered snapshots where the shortcut says NO_CHANGES and complete, and the full comparison PARTIAL |
| `DiffReplay.ReplayRebuilds` | scanner-core/src/main/kotlin/com/ilkimgul/vpsgraph/core/InfrastructureDiffEngine.kt:24-43 | applying the reported additions, removals and field changes to the previous snapshot rebuilds the current identifiers always and, under complete discovery, type, label and metadata of every shared node, apart from quality keys and the engine label |
| `DiffReplay.ReplayEdgesExactly` | scanner-core/src/main/kotlin/com/ilkimgul/vpsgraph/core/InfrastructureDiffEngine.kt:45-64 | replaying the relationship changes gives back the current edges, field by field, exactly when no edge changed under its identifier |
| `DiffReplay.ChangedEdgeStays` | scanner-core/src/main/kotlin/com/ilkimgul/vpsgraph/core/InfrastructureDiffEngine.kt:45-64 | an edge that changed under its identifier is not reported at all, and the replay holds on to the old one |
| `DiffReplay.ChangedEdgeExample` | scanner-core/src/main/kotlin/com/ilkimgul/vpsgraph/core/InfrastructureDiffEngine.kt:45-64 | two valid snapshots with such an edge, where the replay has none of the current edges |
| `GraphReplay.SameIdSameEdge` | scanner-core/src/main/kotlin/com/ilkimgul/vpsgraph/core/HostDockerGraphFactory.kt:6-290 | two scans of one server never draw two edges under one identifier |
| `GraphReplay.BuiltEdgesReplay` | scanner-core/src/main/kotlin/com/ilkimgul/vpsgraph/core/InfrastructureDiffEngine.kt:45-64 | so between snapshots of two scans of one server the replay always gives back exactly the current edges |
| `DiffInverse.SwapFlips` | scanner-core/src/main/kotlin/com/ilkimgul/vpsgraph/core/InfrastructureDiffEngine.kt:24-64 | swapping the snapshots turns every addition into the removal with the matching evidence and back |
| `DiffInverse.FieldsInvert` | scanner-core/src/main/kotlin/com/ilkimgul/vpsgraph/core/InfrastructureDiffEngine.kt:104-119 | with both sides complete, swapping turns the field changes of a node around if and only if its label is judged alike from both sides |
| `DiffInverse.SwapInvertsFields` | scanner-core/src/main/kotlin/com/ilkimgul/vpsgraph/core/InfrastructureDiffEngine.kt:38-43 | the same for the reported fields of every shared node of two snapshots |
| `DiffSwap.SwapInvertsExactly` | scanner-core/src/main/kotlin/com/ilkimgul/vpsgraph/core/InfrastructureDiffEngine.kt:14-102 | swapping two completely discovered snapshots turns the whole diff around, both lists as multisets, the counts and the status, exactly when the label of every shared node is judged alike from both sides |
| `DiffSwap.EngineNotInverted` | scanner-core/src/main/kotlin/com/ilkimgul/vpsgraph/core/InfrastructureDiffEngine.kt:110-110 | two snapshots with a node that is an engine on one side only, where the swap does not invert |
| `GraphTypes.GraphTyped` | scanner-core/src/main/kotlin/com/ilkimgul/vpsgraph/core/HostDockerGraphFactory.kt:6-290 | every node of the built graph has the type that its identifier names |
| `GraphTypes.SameIdSameType` | scanner-core/src/main/kotlin/com/ilkimgul/vpsgraph/core/HostDockerGraphFactory.kt:6-290 | two scans of one server never show two types under one identifier |
| `GraphTypes.BuiltSwapInverts` | scanner-core/src/main/kotlin/com/ilkimgul/vpsgraph/core/InfrastructureDiffEngine.kt:14-102 | so between completely discovered snapshots of two scans of one server the swap always turns the whole diff around |
| `DiffInverse.BetterDiscoveryOnlyAdds` | scanner-core/src/main/kotlin/com/ilkimgul/vpsgraph/core/InfrastructureDiffEngine.kt:104-140 | completing a current subsystem keeps additions, only upgrades removal evidence and only adds field changes |
| `HiddenWorlds.RemovalEvidenceExact` | scanner-core/src/main/kotlin/com/ilkimgul/vpsgraph/core/InfrastructureDiffEngine.kt:139-140 | a node removal is CONFIRMED exactly when every world consistent with the current snapshot lacks the resource |
| `HiddenWorlds.AdditionEvidenceExact` | scanner-core/src/main/kotlin/com/ilkimgul/vpsgraph/core/InfrastructureDiffEngine.kt:136-137 | a node addition is CONFIRMED exactly when every world consistent with the previous snapshot lacks it |
| `HiddenWorlds.NodeAbsenceExact` | scanner-core/src/main/kotlin/com/ilkimgul/vpsgraph/core/InfrastructureDiffEngine.kt:145-171 | a resource that a snapshot does not show is absent from every consistent world exactly when its required subsystems were complete |
| `HiddenWorlds.EdgeAbsenceExact` | scanner-core/src/main/kotlin/com/ilkimgul/vpsgraph/core/InfrastructureDiffEngine.kt:142-143 | an edge that is not shown can exist exactly when a subsystem it needs was incomplete and both endpoints can exist |
| `HiddenWorlds.EdgeRemovalSound` | scanner-core/src/main/kotlin/com/ilkimgul/vpsgraph/core/InfrastructureDiffEngine.kt:57-64 | a CONFIRMED edge removal is absent from every consistent world |
| `HiddenWorlds.EdgeAdditionSound` | scanner-core/src/main/kotlin/com/ilkimgul/vpsgraph/core/InfrastructureDiffEngine.kt:48-56 | a CONFIRMED edge addition was absent from every world consistent with the previous snapshot |
| `HiddenWorlds.EdgeRemovalExact` | scanner-core/src/main/kotlin/com/ilkimgul/vpsgraph/core/InfrastructureDiffEngine.kt:57-64 | an unconfirmed edge removal is a possible edge exactly when both endpoints can still exist |
| `HiddenWorlds.EdgeAdditionExact` | scanner-core/src/main/kotlin/com/ilkimgul/vpsgraph/core/InfrastructureDiffEngine.kt:48-56 | the same for newly observed edges |
| `HiddenWorlds.CautiousEdge` | scanner-core/src/main/kotlin/com/ilkimgul/vpsgraph/core/InfrastructureDiffEngine.kt:57-64 | a concrete edge reported as an unconfirmed removal although no consistent world has it |
| `GraphFactory.Create` | scanner-core/src/main/kotlin/com/ilkimgul/vpsgraph/core/HostDockerGraphFactory.kt:6-75 | `create` with its nested loops over mutable lists: nodes and edges in order, for every discovery result |
| `GraphFactory.GraphBuilder.AppendHostResources` | scanner-core/src/main/kotlin/com/ilkimgul/vpsgraph/core/HostDockerGraphFactory.kt:109-160 | the service and listener loops append exactly their nodes and edges |
| `GraphFactory.GraphBuilder.AppendPublishedListenerCorrelations` | scanner-core/src/main/kotlin/com/ilkimgul/vpsgraph/core/HostDockerGraphFactory.kt:162-176 | the correlation loop over the ports grouped by binding |
| `GraphFactory.GraphBuilder.AppendCaddyRouting` | scanner-core/src/main/kotlin/com/ilkimgul/vpsgraph/core/HostDockerGraphFactory.kt:178-290 | the routing loops with their domain summaries |
| `GraphFactory.CountListeners` | scanner-core/src/main/kotlin/com/ilkimgul/vpsgraph/core/HostDockerGraphFactory.kt:116-118 | `groupingBy`/`eachCount`: each unit is counted once per listener it owns |
| `GraphFactory.JoinNetworks` | scanner-core/src/main/kotlin/com/ilkimgul/vpsgraph/core/HostDockerGraphFactory.kt:62-62 | container names are entered under each network in the order of use |
| `GraphFactory.GroupPorts` | scanner-core/src/main/kotlin/com/ilkimgul/vpsgraph/core/HostDockerGraphFactory.kt:167-168 | published ports grouped by binding, ports without one left out |
| `GraphIds.IdentityExists` | scanner-core/src/main/kotlin/com/ilkimgul/vpsgraph/core/HostDockerGraphFactory.kt:395-398 | functions with the properties asked of the identity hash exist |
| `GraphIds.NodeTextInjective` | scanner-core/src/main/kotlin/com/ilkimgul/vpsgraph/core/HostDockerGraphFactory.kt:8-85 | node identifier texts tell all nodes apart |
| `GraphIds.EdgeTextInjective` | scanner-core/src/main/kotlin/com/ilkimgul/vpsgraph/core/HostDockerGraphFactory.kt:11-274 | edge identifier texts tell all edges apart |
| `GraphShape.GraphUnique` | scanner-core/src/main/kotlin/com/ilkimgul/vpsgraph/core/HostDockerGraphFactory.kt:6-290 | no node and no edge is appended twice |
| `GraphEnds.GraphGrounded` | scanner-core/src/main/kotlin/com/ilkimgul/vpsgraph/core/HostDockerGraphFactory.kt:6-290 | every edge joins two nodes of the graph, for every discovery result |
| `GraphEnds.BuiltGraphWellFormed` | scanner-core/src/main/kotlin/com/ilkimgul/vpsgraph/core/HostDockerGraphFactory.kt:6-290 | the built graph passes the checks of the projection |
| `GraphAccounting.ListensCount` | scanner-core/src/main/kotlin/com/ilkimgul/vpsgraph/core/HostDockerGraphFactory.kt:116-156 | each listed unit has one LISTENS_ON edge per listener it owns |
| `GraphAccounting.ListenerCounts` | scanner-core/src/main/kotlin/com/ilkimgul/vpsgraph/core/HostDockerGraphFactory.kt:116-132 | the "listener count" of a service node is the number of its LISTENS_ON edges in the whole graph |
| `GraphAccounting.OwnershipInverts` | scanner-core/src/main/kotlin/com/ilkimgul/vpsgraph/core/HostDockerGraphFactory.kt:153-156 | OWNED_BY is exactly the inverse of LISTENS_ON |
| `GraphAccounting.PublishedExact` | scanner-core/src/main/kotlin/com/ilkimgul/vpsgraph/core/HostDockerGraphFactory.kt:162-176 | a listener has a PUBLISHED_AS edge exactly when one and only one published port has its binding, and then from that port |
| `GraphAccounting.SummariesExact` | scanner-core/src/main/kotlin/com/ilkimgul/vpsgraph/core/HostDockerGraphFactory.kt:262-275 | a domain is summarised exactly when a route serves it, and each of its seven sets holds what the serving routes contribute and nothing else |
| `GraphDomains.DomainShownExactly` | scanner-core/src/main/kotlin/com/ilkimgul/vpsgraph/core/HostDockerGraphFactory.kt:178-275 | the graph has a node for a domain exactly when Docker is reachable and some upstream of a discovered route serves it |
| `GraphDomains.DomainSummarised` | scanner-core/src/main/kotlin/com/ilkimgul/vpsgraph/core/HostDockerGraphFactory.kt:262-290 | every domain node of the graph shows exactly what the upstreams that serve it say: routes, paths, addresses, outcomes, proxies, containers, services |
| `GraphDomains.RouteCounts` | scanner-core/src/main/kotlin/com/ilkimgul/vpsgraph/core/HostDockerGraphFactory.kt:262-290 | the "route count" of a domain node is the number of routes on its ROUTES_THROUGH edges in the whole graph |
| `HelperFaults.AvailableExactly` | scanner-core/src/main/kotlin/com/ilkimgul/vpsgraph/core/DockerHelperParser.kt:13-33 | the report is AVAILABLE exactly when its header is good and every single container parses; then all containers and the first entry of every project are there, in order; otherwise nothing is |
| `HelperFaults.FaultsIsolated` | scanner-core/src/main/kotlin/com/ilkimgul/vpsgraph/core/DockerHelperParser.kt:87-156 | dropping every malformed entry of the sections and of the project list changes nothing but the states of the three sections |
| `HelperFaults.SystemdExact` | scanner-core/src/main/kotlin/com/ilkimgul/vpsgraph/core/DockerHelperParser.kt:108-122 | the services are, in order, the first entry of every unit among those that parse; the state is the declared one exactly as long as all entries parse, else PARTIAL, or MALFORMED when none does; what a missing or unreadable section gives |
| `HelperFaults.SystemdIsolated` | scanner-core/src/main/kotlin/com/ilkimgul/vpsgraph/core/DockerHelperParser.kt:108-122 | dropping the malformed services keeps services and reasons and restores the declared state |
| `HelperFaults.ListenersExact` | scanner-core/src/main/kotlin/com/ilkimgul/vpsgraph/core/DockerHelperParser.kt:141-156 | the same for listeners, by canonical key |
| `HelperFaults.ListenersIsolated` | scanner-core/src/main/kotlin/com/ilkimgul/vpsgraph/core/DockerHelperParser.kt:141-156 | dropping the malformed listeners keeps listeners and reasons and restores the declared state |
| `HelperFaults.CaddyExact` | scanner-core/src/main/kotlin/com/ilkimgul/vpsgraph/core/DockerHelperParser.kt:87-106 | all instances that parse are kept, in order; the state also drops from DISCOVERED to PARTIAL when an instance is partial |
| `HelperFaults.CaddyIsolated` | scanner-core/src/main/kotlin/com/ilkimgul/vpsgraph/core/DockerHelperParser.kt:87-106 | dropping the malformed instances keeps the others and restores the declared state, up to the drop for a partial instance |
| `HelperFaults.InstanceExact` | scanner-core/src/main/kotlin/com/ilkimgul/vpsgraph/core/DockerHelperParser.kt:195-204 | within an instance a malformed route drops only itself and lowers DISCOVERED to PARTIAL; the first route of every key is kept |
| `HelperParser.KeepFirst` | scanner-core/src/main/kotlin/com/ilkimgul/vpsgraph/core/DockerHelperParser.kt:108-156 | `distinctBy` keeps exactly the first entry of every key, in the order of the list |
| `ScanToSnapshot.ReportsProject` | scanner-core/src/main/kotlin/com/ilkimgul/vpsgraph/core/SnapshotProjection.kt:29-33 | from any helper report: the projection of the built graph succeeds exactly when no container and no Caddy container repeats, and the diff engine then accepts the content |
| `CaddyRoutes.CaddyWalker.Walk` | server-helper/vpsgraph_docker_scan.py:838-870 | `walk` with its visit counter and route list: it succeeds exactly when no subroute is too deep and the count stays within 5000, and then appends what the routes emit |
| `CaddyRoutes.SanitizeConfig` | server-helper/vpsgraph_docker_scan.py:826-875 | `sanitize_caddy_config`: all servers in name order, then de-duplication and sorting |
| `CaddyChains.EmittedAreChains` | server-helper/vpsgraph_docker_scan.py:838-870 | the emitted routes are exactly those of the root-to-`reverse_proxy` chains, with hosts and paths of the nearest enclosing matcher |
| `CaddyWriter.WriterExists` | server-helper/vpsgraph_docker_scan.py:874-875 | a writer of routes that loses nothing, as the published results ask for, exists |
| `CaddyChains.EveryRouteHasOneHostState` | server-helper/vpsgraph_docker_scan.py:849-863 | each emitted route has exactly one of non-empty hosts, hostless, or unresolved hosts |
| `CaddyChains.SanitizedExact` | server-helper/vpsgraph_docker_scan.py:826-875 | a configuration is rejected exactly when a subroute lies at depth 32 or more than 5000 routes are reached; otherwise exactly the chain routes are published, each once |
| `CaddyChains.OrderDoesNotMatter` | server-helper/vpsgraph_docker_scan.py:826-875 | reordering routes at any level changes neither acceptance nor the result |
| `SystemdDiscovery.ParseUnitRecords` | server-helper/vpsgraph_docker_scan.py:324-348 | listing rows to units and reasons: the last row of a unit wins, at most 2048 units |
| `SystemdDiscovery.ParseSystemctlShow` | server-helper/vpsgraph_docker_scan.py:410-440 | show output to records and reasons, with the current record as state |
| `SystemdDiscovery.DiscoverSystemdServices` | server-helper/vpsgraph_docker_scan.py:447-493 | the listing, the batches and the merge, for any batch size |
| `SystemdHonesty.StatusExact` | server-helper/vpsgraph_docker_scan.py:447-493 | DISCOVERED exactly when every non-blank row was well formed, nothing was cut off and every batch was shown completely; PARTIAL exactly when a reason is given |
| `SystemdHonesty.DiscoveredHonest` | server-helper/vpsgraph_docker_scan.py:447-493 | under DISCOVERED the services are exactly the listed loaded units, each merged from its own show record |
| `SystemdBatches.BatchesDoNotMatter` | server-helper/vpsgraph_docker_scan.py:447-493 | when show output is the records of the units asked for, one after another, any two batch sizes discover the same for every listing: status, reasons and services |
| `SystemdHonesty.BatchIndependent` | server-helper/vpsgraph_docker_scan.py:1055-1057 | for show output whose records depend on the unit alone, two batch sizes that both yield DISCOVERED discover the same |
| `HostListeners.HoldersNest` | server-helper/vpsgraph_docker_scan.py:609-613 | all control groups that match one path are nested |
| `HostListeners.ServiceIsInnermost` | server-helper/vpsgraph_docker_scan.py:606-614 | the longest match is the innermost group, and there is none exactly when no group matches |
| `HostListeners.ReportListener` | server-helper/vpsgraph_docker_scan.py:621-651 | `listener_json`: SYSTEMD_SERVICE exactly when there are processes and the innermost service of each is the same unit and no container runtime |
| `HostListeners.DecisionExact` | server-helper/vpsgraph_docker_scan.py:622-638 | the flag and the set that the loop keeps decide the same as that property of all processes |
| `GraphView.DeriveVisibleGraph` | graph-ui/src/graph-utils.ts:30-61 | `deriveVisibleGraph` step by step is one filter of the nodes and the edges among them |
| `GraphView.VisibleIdempotent` | graph-ui/src/graph-utils.ts:30-61 | showing what is shown changes nothing, for every view, collapse set and focus |
| `GraphView.VisibleInduced` | graph-ui/src/graph-utils.ts:30-61 | the result is the subgraph induced by the visible nodes, all of a type of the view and none hidden |
| `GraphView.NoOrphans` | graph-ui/src/graph-utils.ts:45-65 | no NETWORK, PORT or MOUNT node in it lacks an incident edge |
| `GraphLayout.LayoutVisibleGraph` | graph-ui/src/graph-utils.ts:133-181 | `layoutVisibleGraph`, placement by placement |
| `GraphLayout.PlaceComposeGroups` | graph-ui/src/graph-utils.ts:137-155 | the project groups: where each project and each claimed container goes, and where the next group starts |
| `LayoutSpacing.ComposeSpaced` | graph-ui/src/graph-utils.ts:137-155 | projects are 176 apart and containers 142, however many projects claim one container |
| `LayoutColumns.ColumnsLaid` | graph-ui/src/graph-utils.ts:157-180 | every node of a type with a column stands in that column, spaced |
| `LayoutEverything.ViewSpaced` | graph-ui/src/graph-utils.ts:133-181 | in OVERVIEW, NETWORKING and STORAGE, for any graph with unique identifiers, every visible node is placed and nodes in one column keep 142, projects 176 |
| `LayoutEverything.SpacedExactly` | graph-ui/src/graph-utils.ts:133-181 | a view keeps the distances on every graph exactly when it is not EVERYTHING |
| `LayoutEverything.EverythingSpacedExactly` | graph-ui/src/graph-utils.ts:171-180 | for every graph EVERYTHING keeps the distances exactly when the first project has more than twice as many containers as there are proxies (or one of the two is absent), every container stands below the domains, and no directory meets a port or a mount |
| `LayoutDomains.DomainsClearExactly` | graph-ui/src/graph-utils.ts:137-179 | the containers stand below the domains whenever the leading projects without containers, 176 each, are as high as the domains, 142 each; when no container is claimed twice, only then |
| `LayoutDomains.SpacedByShape` | graph-ui/src/graph-utils.ts:133-181 | so for a graph that claims no container twice EVERYTHING keeps the distances exactly under conditions read off the graph alone |
| `LayoutEverything.FirstProject` | graph-ui/src/graph-utils.ts:147-152 | the first project stands beside its containers at the top of the groups, every other one lower |
| `ChangesModel.RelationshipPresentations` | graph-ui/src/changes-model.ts:252-271 | `relationshipPresentations` with its insertion-ordered map of groups |
| `ChangesModel.NothingLost` | graph-ui/src/changes-model.ts:252-279 | the records of certain and uncertain presentations together are, as a multiset, the input; the uncertain ones are exactly the unconfirmed removals |
| `ChangesModel.CertainShape` | graph-ui/src/changes-model.ts:259-270 | a certain presentation holds one change, or one removal and one addition of the same key; the pair is shown as one relationship, with its target before and now, exactly when the two sources are equally long |
| `ChangesModel.PairedExactly` | graph-ui/src/changes-model.ts:262-268 | a removal and an addition of one key are shown together exactly when nothing else has that key |
| `ChangesModel.KeyMeans` | graph-ui/src/changes-model.ts:257-257 | two records share a key exactly when they share source and relation, or one is the other shifted over a separator; with equal keys they share both exactly when their sources are equally long |
| `ChangesModel.ForeignPair` | graph-ui/src/changes-model.ts:257-257 | two changes of different relationships, with the separator inside their texts, that are shown as one |
| `ChangesShown.RetargetsExactly` | graph-ui/src/changes-model.ts:252-307 | for the diff of any two snapshots, the two changes of an entry are the removal of an edge that the previous snapshot had and the current lacks and the addition of one the other way round; the entry is one relationship of a node of the current snapshot, with the true targets before and after, exactly when the two sources are equally long |
| `ChangesShown.RetargetsMeanMoves` | graph-ui/src/changes-model.ts:252-307 | with relations free of NUL, as relation names are, the two changes of an entry always are one relationship that moved |
| `ChangesShown.ProjectedPlain` | scanner-core/src/main/kotlin/com/ilkimgul/vpsgraph/core/SnapshotProjection.kt:45-47 | the relations of every projected graph are free of NUL |

## Left out

- StoreMachine.LatestAfterAnyTrace: which 200 files are inspected when a directory holds more is left open, so beyond 149 damaged files the newest visible snapshot stands for the newest readable one; the code chooses by modification time.
- StoreMachine.EventKeepsInvariant: one reading stage of a call (the files that recovery loads, the entries that `latest` tries) sees one state of the directory, so a file damaged during a stage counts as damaged before or after it.
- CaptureRuns.CapturesAreHonest: the capture it speaks of runs to its end (earlier calls may be cut anywhere), and at most 149 files were damaged before.
- StoreRuns.RunsAreAtomic: snapshot identifiers are not reused, because a reused one can leave an index that still matches the files.
- SystemdBatches.BatchesDoNotMatter: for show output in the form that `systemctl` prints, every record about the unit asked for; time-outs and over-long output, which hit whole batches, depend on the batches.
- SystemdHonesty.BatchIndependent: both batch sizes must yield DISCOVERED.
- GraphReplay.BuiltEdgesReplay: for two scans under one server identifier, that is with the same target and hostname.
- GraphTypes.BuiltSwapInverts: likewise for two scans under one server identifier.
- LayoutDomains.DomainsClearExactly: where a container is claimed twice the last claim places it, and `LayoutEverything.EverythingSpacedExactly` speaks of the positions instead.
- Identities.IdentitiesStable: the drawn identifiers do not repeat; writing the identity file is one step.
- GraphEnds.BuiltGraphWellFormed: containers and Caddy containers must not repeat in the report; `ScanToSnapshot.ReportsProject` shows that the projection rejects every other report.
- GraphFactory.Create: metadata of nodes is built as in the code; beyond identifiers and edges only the listener count, the route count and the domain summaries are characterised independently.
- Byte formats: JSON parsing and printing, UTF-8, SHA-256, the size limits of index and identity files; the size of an encoded snapshot is a parameter.
- Text rules: `safe_host`, `safe_path_matcher`, `safe_dial`, `normalizeDomain`, descriptions and tokens, secret markers; case folding and trimming are ASCII, and `localeCompare` is code-unit order.
- Output of `ss` and its addresses, `/proc` reads, control-group files: a process's control group is a parameter.
- Display details: shortened fingerprints, identifiers of node changes, error messages, labels and times in the view.
- SSH transport, subprocesses, sudo, secure file opening, the JCEF bridge, React components, search ranking, `preferredView`, node filters of the changes view, payload normalisation in the view.
- Container summaries of the helper (`compose_projects`, `sanitize_ports`, `sanitize_mounts`): maps over single values that would only add easy members.
- Locks: each call on one server directory is one actor whose steps a crash can cut; calls on one directory do not overlap.
