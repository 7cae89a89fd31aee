# Curve: verified models

A Dafny model of the parts of the Curve storage system whose correctness spans many
steps. Each part is a state machine or an imperative program that follows the source, and
the results are about all its inputs, all its runs or all its reachable states.

**The build-cluster tool** (`ListDiff`, `Topology`, `ClusterMap`, `Layout`, `MdsService`, `ScanPlan`,
`Execution`, `Leftover`, `Stability`, `CurvefsTool`, `ClusterRuns`, `ClusterExamples`). The tool
makes the topology that the MDS stores, a tree of poolsets, physical pools, zones and servers, equal to a configured
cluster map. It scans the tree level by level, deletes what is not wanted, children first,
and creates what is missing, parents first. The MDS is modelled from its own code: it refuses
to delete a node with children, it resolves names, it compares addresses, it hands out
ids, and any RPC may lose its request, lose its reply after taking effect, or fail in
storage. The initial topology is any well-formed tree; names of pools, zones and servers
may repeat, as the MDS allows. What is proved:

- the tree stays well formed whatever the network does; and in a run that starts with nothing
  left in the deletion lists, every call that reaches the MDS finds the tree where the last
  call left it, asks to create something that the map wants and that is not there yet or to
  delete a node that a scan at that moment would delete, and is never refused because of order
  (a run with leftover deletions can be told that a node is not there);
- at every exit of every run, leftover deletions or not, and over any number of runs and retries,
  each node that the plan for the topology at the beginning does not delete is still there
  with its id and its key, and a server with its addresses and its live chunkservers;
- a run that returns 0 leaves exactly what the map asks for, each key once, if and only if no
  address of a server to create was taken; a taken address is answered like a success by the
  tool, so this is the exact condition, and `AddressIsTaken` is an input on which it fails. What the
  map asks for is said node by node as well: each entry's poolset, pool, zone and server hang where
  the fields of the entry say, and nothing else is there;
- without network or storage trouble a run returns 0 if and only if every wanted pool sits in a
  declared poolset, no server to delete has live chunkservers, and nothing was left in the
  deletion lists by an earlier run of the same object;
- a plan survives its own execution: after a run that was cut off at any RPC a new scan deletes
  no node that was not to be deleted before, so a new run succeeds in peace under conditions on
  the topology before the first run, and a run on a converged topology issues no create and no
  delete;
- the command `create_physicalpool` retries on one tool object whose lists are never emptied.
  That works if and only if nothing was listed for deletion: once an attempt has listed a
  node for deletion and failed, every later attempt of the object fails, because a listed
  node is gone or is listed a second time. Whatever there is to delete, an MDS that goes down
  after the scan brings this about, whether a deletion arrived or not; `RetryIsStuck` is an
  input. With nothing to delete, which is the case exactly when every node is wanted and no key
  occurs twice on a level, the command returns 0 if poolsets are declared, channels open and
  MDSs go down fewer times than there are tries.

**The snapshot client's latch** (`TaskTracker`): any number of threads and responses, in every
interleaving of their atomic actions, with spurious wakeups. No wakeup is lost, Wait returns only
after its thread has found the count at zero and every response traced by then had counted down,
every wait returns in boundedly many steps once no traces are added, results are right, and nobody
touches the tracker after it is freed.

**Chunk requests in the chunkserver** (`ChunkServer`, `ChunkServerProofs`, `ChunkChecks`, `ChunkMetrics`,
`GroupId`, `BitJoin`, `Sums`): admission by the inflight throttle, the checks of eight service methods
against the copysets, leaderships and epochs of the moment, hand-off, the closure, the metrics, and
concurrent creation and removal of copyset metrics. Every closure runs exactly once, after at
most sixteen actions of its request. What is handed off has passed the checks of its method, each at a
step of the run, and what is refused gets the status of the check it failed; a write that is behind
the epoch of its file is fenced off. Totals and copyset metrics count exactly the requests that
they should. The range check adds 32-bit numbers, so a range that passes lies inside the chunk
exactly when its end does not wrap; a run that hands off a range with a wrapped end is given.

**The scan-map closure** (`ScanMapClosure`) and the **logical-pool scan** (`LogicalPoolScan`).
The inner loop of the latter moves on only on a match, so it can turn forever; the exact
condition for its termination and for that of the whole scan is proved.

**The SWIG runtime** (`CastList`, `ModuleRing`, `HexPack`): the move-to-front cast list with its
pointers, the ring of modules with its binary search, and the hexadecimal packing. Loading a module
that another interpreter has can cut that interpreter's ring; when it does is stated exactly.

Code that updates objects is modelled by classes and methods with frames, loops by loops with
invariants, and each such method is proved against a specification function or property.
Concurrent code is modelled by step systems, with results about every run.

The comment in `HandleResponse` gives the lock as the reason why the last notification is not
lost. The proof uses the lock in the same way, and the notifications of the other responses
are not needed for it.

## Model

| member | source | states |
|---|---|---|
| `ListDiff.RemoveRepeats` | tools/curvefsTool.cpp:665-673 | the find-or-append loops compute the list that the lemmas below characterise |
| `ListDiff.DedupSpec` | tools/curvefsTool.cpp:702-715 | no key is left twice, no key is lost, what was there before stays, and of the new entries only those that come first with their key survive |
| `ListDiff.DedupKeepsFirsts` | tools/curvefsTool.cpp:702-715 | into an empty list exactly the first entry of every key survives, so the first server entry decides the poolset of a pool |
| `ListDiff.DedupAgain` | tools/curvefsTool.cpp:1377-1400 | reading the configuration in again on top of what an earlier pass left gives the same entries, each once |
| `ListDiff.MatchListed` | tools/curvefsTool.cpp:681-698 | the matching loops with their erase and push computations equal the specification used below |
| `ListDiff.MatchMissing` | tools/curvefsTool.cpp:681-698 | the entries left to add are the wanted ones minus those claimed, and claimed are exactly the wanted keys that were listed |
| `ListDiff.MatchKeeps` | tools/curvefsTool.cpp:739-753 | every listed item ends in exactly one list, kept if it is pinned or the first listed one with a wanted key, dropped otherwise |
| `ListDiff.MatchVerdicts` | tools/curvefsTool.cpp:739-753 | no two kept items share a wanted key, and a dropped item is unwanted or has a kept twin |
| `ListDiff.MatchApart` | tools/curvefsTool.cpp:681-698 | the kept and dropped ids are free of repeats and disjoint |
| `ListDiff.MatchByKeys` | tools/curvefsTool.cpp:681-698 | which items are kept depends on the wanted keys only, not on the order of the entries |
| `ListDiff.MatchListedLess` | tools/curvefsTool.cpp:681-698 | when items that were not kept are listed no more, the same items are kept and the same entries are missing |
| `Topology.RemovedIsWellFormed` | src/mds/topology/topology.cpp:217-304 | deleting a childless node other than the default poolset keeps parent pointers, child lists, poolset names, addresses and ids consistent on all levels |
| `Topology.InsertedIsWellFormed` | src/mds/topology/topology.cpp:69-159 | adding a node with the next id under an existing parent keeps the tree well formed |
| `Topology.NamesUpAgree` | src/mds/topology/topology.cpp:217-304 | a node that survives a change keeps its path of names |
| `ClusterMap.WantedPoolNamesDiffer` | tools/curvefsTool.cpp:702-715 | two wanted pools never share a name, whatever poolsets the server entries give |
| `ClusterMap.WantedZoneHasPool` | tools/curvefsTool.cpp:757-772 | every wanted zone lies in a wanted pool, also a zone of a server entry that is ignored later |
| `ClusterMap.WantedServerHasZone` | tools/curvefsTool.cpp:818-831 | every wanted server lies in a wanted zone |
| `Layout.WantedByFields` | tools/curvefsTool.cpp:662-831 | a key is wanted if and only if an entry gives it by its fields; a pool is wanted in the poolset of the first entry that names it, and in the default one if that entry gives none |
| `Layout.DeclaredByFields` | tools/curvefsTool.cpp:710-714 | poolsets are declared if and only if the first entry of each pool gives no poolset, the default one or a configured one |
| `Layout.ConvergedMeans` | tools/curvefsTool.cpp:262-312 | the topology is what the map asks for if and only if the poolset, pool, zone and server of every entry hang under parents with the names that the fields of the entry give, and every node serves an entry |
| `MdsService.InsertedGrows` | src/mds/topology/topology.cpp:69-159 | after an insertion the keys of all levels are the old ones plus the key of the new node under its resolved parent |
| `MdsService.RemovedShrinks` | src/mds/topology/topology.cpp:217-304 | after a removal all other nodes keep name, parent, address and live chunkservers, and no id is handed back |
| `MdsService.Mds.List` | src/mds/topology/topology_service_manager.cpp:1018-1045 | the reply lists the children of the parent with their keys, or says that the parent is not there, or is lost |
| `MdsService.Mds.Remove` | src/mds/topology/topology_service_manager.cpp:541-576 | the deletion is logged with the code that the rules for missing, default and non-empty nodes prescribe and with its effect; a lost request leaves everything as it was, a lost reply does not |
| `MdsService.Mds.Add` | src/mds/topology/topology_id_generator.h:85-101 | the new node gets an id above all earlier ones and a key made of its name and its ancestors' names |
| `MdsService.Mds.AddPoolset` | src/mds/topology/topology_service_manager.cpp:778-811 | a poolset name that is there is refused, otherwise the poolset is added or storage fails |
| `MdsService.Mds.AddPhysicalPool` | src/mds/topology/topology_service_manager.cpp:835-872 | a pool in an unknown poolset is refused; names of pools may repeat |
| `MdsService.Mds.AddZone` | src/mds/topology/topology_service_manager.cpp:646-682 | a zone in an unknown pool is refused; the pool is any one with that name |
| `MdsService.Mds.AddServer` | src/mds/topology/topology_service_manager.cpp:394-481 | the checks for pool, zone in pool and taken address are answered in this order, before the server is added |
| `MdsService.ClashByAddress` | src/mds/topology/topology.cpp:692-713 | two servers clash if and only if they share an ip and port, or the ip where the registered one has port 0, its external address counting only under another ip than the internal one; other ports of the same ip do not clash |
| `MdsService.RefusalsDiffer` | src/mds/common/mds_define.h:83-104 | the status codes of the refusals are those of the MDS and all differ |
| `ScanPlan.ListUnderSpec` | tools/curvefsTool.cpp:717-729 | listing below a set of parents yields exactly their children, each once |
| `ScanPlan.ScanLevelSplits` | tools/curvefsTool.cpp:717-753 | kept and deleted nodes split the level, and what stays hangs below what stays, so deletion is closed under descendants |
| `ScanPlan.ScanLevelAdds` | tools/curvefsTool.cpp:739-753 | the ToAdd list is exactly the wanted keys that no node that stays carries, each once |
| `ScanPlan.ScanLevelKeeps` | tools/curvefsTool.cpp:739-753 | nodes that stay are in bijection with matched entries, and a node that goes below a parent that stays is unwanted or has a twin that stays |
| `ScanPlan.PoolsetsPlanned` | tools/curvefsTool.cpp:681-698 | the default poolset always stays, whether or not the map lists it, and it is the only entry listed to add although its node stays |
| `ScanPlan.PlanIsRight` | tools/curvefsTool.cpp:662-875 | on all four levels the nodes that stay and the entries to add carry together every wanted key exactly once, from any well-formed topology and for any order of the entries |
| `ScanPlan.SameSplit` | tools/curvefsTool.cpp:662-875 | which nodes stay and which go does not depend on the order of the wanted entries |
| `ScanPlan.NothingToDoIffConverged` | tools/curvefsTool.cpp:662-875 | a scan finds nothing to do if and only if the topology is what the map asks for |
| `Execution.DeletionFindsLeaf` | tools/curvefsTool.cpp:279-294 | the next planned deletion finds its node, and without children unless it is a server |
| `Execution.DeletionIsOrderly` | tools/curvefsTool.cpp:1060-1229 | such a deletion succeeds or fails in storage, except for a server with live chunkservers |
| `Execution.NextClearable` | tools/curvefsTool.cpp:279-294 | when the deletions of the levels below are done, those of a level can be done one after the other |
| `Execution.ServerFindsZone` | src/mds/topology/topology_service_manager.cpp:404-434 | once the wanted pools and zones are there, every pool that the MDS may resolve a wanted server's pool name to contains the server's zone |
| `Execution.PoolCreation` | tools/curvefsTool.cpp:921-958 | the creation of a planned pool is refused exactly when its poolset is not wanted |
| `Execution.ZoneCreation` | tools/curvefsTool.cpp:960-1004 | the creation of a planned zone always finds its pool |
| `Execution.ServerCreation` | tools/curvefsTool.cpp:1006-1058 | the registration of a planned server always finds pool and zone and is refused exactly when its address is taken |
| `Execution.AllAcceptedIffClashFree` | src/mds/topology/topology.cpp:692-713 | all servers of a list get registered if and only if none collides with an address that is there or with an earlier entry |
| `Execution.NeverRevived` | src/mds/topology/topology_id_generator.h:85-101 | over any run of calls an id that was handed out and is not in use is never in use again |
| `Execution.AfterClearing` | tools/curvefsTool.cpp:279-294 | after the deletions exactly the nodes that stay are left, with their keys once each and their addresses |
| `Execution.DeclaredIffAddable` | tools/curvefsTool.cpp:921-958 | the planned pools can all be created if and only if every wanted pool sits in a declared poolset or the default one |
| `Execution.ConvergedIffClashFree` | tools/curvefsTool.cpp:1046-1047 | a finished run has converged if and only if no address of a server to add was taken |
| `Leftover.ScannedAgain` | tools/curvefsTool.cpp:717-753 | a level scanned again with pending leftovers keeps the same nodes and misses the same entries, lists exactly the nodes to delete, and lists the leftovers twice |
| `Leftover.ScannedJustly` | tools/curvefsTool.cpp:717-753 | whatever was listed before, a level scanned again keeps the same nodes and lists no node that stays, unless one was listed before or above it |
| `Leftover.NextWantsAsk` | tools/curvefsTool.cpp:662-673 | whatever entries earlier runs left, the next scan looks for what the map asks for |
| `Leftover.DeletedForGood` | tools/curvefsTool.cpp:1377-1400 | nodes that a run deleted are not there when the next run starts, even after new nodes were created |
| `Leftover.LeftAfterReading` | tools/curvefsTool.cpp:262-274 | from what a run left behind the next run makes a right plan that deletes the same nodes as a new object's plan |
| `Stability.PlanIsStable` | tools/curvefsTool.cpp:662-875 | after any of the planned deletions a new scan keeps the same nodes on all levels, and its deletions are among the planned ones |
| `Stability.OnlyWantedInRuns` | tools/curvefsTool.cpp:877-1058 | if every node is wanted and no key occurs twice, this stays so over any run of calls |
| `Stability.NothingToDeleteIff` | tools/curvefsTool.cpp:662-875 | there is nothing to delete if and only if every node is wanted and no two nodes of a level carry the same key |
| `Stability.DueStill` | tools/curvefsTool.cpp:279-294 | a planned node that is still there in the course of the deletions is one that a new scan at that moment would delete |
| `Stability.AfterThinning` | tools/curvefsTool.cpp:279-294 | after any of the listed deletions each node that the plan does not delete is there still with its key, address and live chunkservers, what is listed and there still would be listed again, and the next plan deletes no more |
| `Stability.WantedNodesStay` | tools/curvefsTool.cpp:877-1058 | from a topology with only wanted nodes on, any run of calls leaves every node with its id and key, and servers with their addresses and live chunkservers |
| `Stability.SparesAcross` | tools/curvefsTool.cpp:262-312 | if of two runs in a row each leaves alone what its plan does not delete, and the second plan deletes no more than the first, then together they leave alone what the first plan does not delete |
| `CurvefsTool.CurvefsTools.constructor` | tools/curvefsTool.h:143-163 | a new object has empty lists |
| `CurvefsTool.CurvefsTools.ListEach` | tools/curvefsTool.cpp:717-738 | one RPC per parent; success means that every parent was there and yields all their children in order |
| `CurvefsTool.CurvefsTools.ScanPoolsets` | tools/curvefsTool.cpp:663-700 | the poolset lists come out as the plan says; the default poolset is never listed for deletion |
| `CurvefsTool.CurvefsTools.ScanPools` | tools/curvefsTool.cpp:702-755 | the pool lists come out as the plan says, children of deleted poolsets included; an aborted scan has listed only nodes to delete |
| `CurvefsTool.CurvefsTools.ScanZones` | tools/curvefsTool.cpp:757-816 | the same for zones |
| `CurvefsTool.CurvefsTools.ScanServers` | tools/curvefsTool.cpp:818-874 | the same for servers |
| `CurvefsTool.CurvefsTools.ScanCluster` | tools/curvefsTool.cpp:662-875 | with empty deletion lists the eight lists become the plan; otherwise they grow, pending leftovers get listed twice, and no node that stays gets listed if none was; without trouble the scan of an object with empty deletion lists succeeds with the number of RPCs that the plan gives |
| `CurvefsTool.CurvefsTools.ClearOne` | tools/curvefsTool.cpp:1187-1229 | a deletion is counted as success only if the node was there and is gone, and it removes nothing else; the refusal to delete the default poolset counts as success and changes nothing |
| `CurvefsTool.CurvefsTools.ClearEach` | tools/curvefsTool.cpp:1060-1229 | success implies that every listed node was there and listed once; planned lists are deleted completely unless a server is busy or something breaks |
| `CurvefsTool.CurvefsTools.CreatePoolsets` | tools/curvefsTool.cpp:877-919 | the planned poolsets are created, an entry for the default one is skipped, and trouble is the only way to fail |
| `CurvefsTool.CurvefsTools.CreatePools` | tools/curvefsTool.cpp:921-958 | the planned pools are created, and without trouble this fails exactly on an undeclared poolset |
| `CurvefsTool.CurvefsTools.CreateZones` | tools/curvefsTool.cpp:960-1004 | the planned zones are created, and trouble is the only way to fail |
| `CurvefsTool.CurvefsTools.CreateServers` | tools/curvefsTool.cpp:1006-1058 | exactly the planned servers without a collision are registered, the others are passed over, and trouble is the only way to fail |
| `CurvefsTool.CurvefsTools.ClearAll` | tools/curvefsTool.cpp:279-294 | all planned nodes are gone after success; in any case only listed nodes are gone and the other children keep their order; success is impossible when a listed node is missing or listed twice |
| `CurvefsTool.CurvefsTools.CreateAll` | tools/curvefsTool.cpp:295-310 | every node that is there stays with its id and key, and at every exit only wanted nodes are there, each key once; from what stays, success leads to the wanted keys except for servers whose address was taken |
| `CurvefsTool.CurvefsTools.CarryOut` | tools/curvefsTool.cpp:279-311 | at every exit, each node outside the plan's deletions is there still with its id and key, and a server with its addresses and live chunkservers; the deletions that a new scan plans are among those of this plan; and whatever is listed and there still would be listed again |
| `CurvefsTool.CurvefsTools.HandleBuildCluster` | tools/curvefsTool.cpp:262-312 | for a new object or one left behind by earlier runs: well-formed trees throughout, no node touched that the map's plan does not delete, only proper calls, poolsets, pools and zones that hang where the fields of the entries say after success, convergence if and only if no address was taken, success without trouble if and only if poolsets are declared, no deleted server is busy and nothing was listed for deletion, no change when already converged; a run that gets through its scan has listed what its plan deletes; a failed run returns the status of the RPC that ended it, or a redirection exactly when the source gives one for a lost RPC |
| `CurvefsTool.FreshTool` | tools/curvefsTool.h:143-163 | a new object counts as left behind with nothing listed, and plans for the map itself |
| `CurvefsTool.ResultIsLaid` | tools/curvefsTool.cpp:295-310 | after a finished run every poolset, pool and zone hangs where the map says, by names and parents, whatever addresses were taken |
| `CurvefsTool.LostRpcRedirects` | tools/curvefsTool.cpp:662-1229 | any lost listing, poolset creation or pool creation redirects, any other lost RPC redirects if and only if the host is down, and an answer is passed on |
| `ClusterRuns.RoomyInRuns` | src/mds/topology/topology_service_manager.cpp:444-455 | if no address stands in the way of a wanted server, then none does at any later point of any run |
| `ClusterRuns.RoomyIsClashFree` | src/mds/topology/topology.cpp:692-713 | then no planned server collides |
| `ClusterRuns.ServersComeFromMap` | tools/curvefsTool.cpp:1006-1058 | after any run every server was there before with the same key and addresses, or has the key and the addresses of an entry of the map |
| `ClusterRuns.FreshRun` | tools/curvefsTool.cpp:262-312 | a run by a new object, stated without reference to leftovers: which nodes it leaves alone, what it may leave for the next run to delete, when it succeeds and when it has converged |
| `ClusterRuns.Restart` | tools/curvefsTool.cpp:262-312 | after a run cut off anywhere a new run returns 0 in peace if poolsets are declared and no server to delete was busy before the first run; it has converged if no address is in the way, and the next run issues no call and returns 0; over the three runs every node stays that was not to be deleted before the first |
| `ClusterRuns.OneAttempt` | tools/curvefsTool.cpp:1387-1399 | an attempt with leftover deletions fails and keeps leftovers; a successful attempt has converged if no address is in the way; with nothing to delete, declared poolsets and nothing worse than MDSs going down, an attempt that fails is redirected and has used up one failure |
| `ClusterRuns.TryAnotherMdsAddress` | tools/curvefsTool.cpp:118-133 | try n uses address n modulo their number; it fails if and only if there is none or the channel cannot be set up |
| `ClusterRuns.CreatePhysicalPoolCommand` | tools/curvefsTool.cpp:1364-1413 | over all attempts of the command: it returns the result of the last attempt unless that was redirected, the attempts take the addresses in turn and stop only for the reasons the loop has, all but the last were redirected, leftover deletions once present stay and doom every later attempt, there are none if there was nothing to delete at first, every node stays that was not to be deleted at first, and the command returns 0 only by an attempt that began without leftovers, leaving a converged topology if no address is in the way; it does return 0 with nothing to delete, declared poolsets, open channels and MDSs that go down fewer times than there are tries |
| `ClusterRuns.SecondAttempt` | tools/curvefsTool.cpp:1377-1400 | if the first attempt had nothing to delete the second succeeds in peace; if it had, the second fails once the first has got through its scan or has changed anything, which an MDS that goes down in the first deletion brings about from every such topology |
| `ClusterExamples.SparePoolIsDeleted` | tools/curvefsTool.cpp:739-753 | a topology and a map for which there is something to delete, nothing speaks against it, and the scan takes three RPCs |
| `ClusterExamples.RetryIsStuck` | tools/curvefsTool.cpp:1377-1400 | on that topology, with an empty map and the reply to the fourth RPC lost, the first attempt calls the MDS and is redirected, and the second fails with the verdict on its own last RPC although nothing goes wrong any more |
| `ClusterExamples.TwinsClash` | src/mds/topology/topology.cpp:692-713 | two servers on the same ip and port: the planned servers collide on any topology without servers |
| `ClusterExamples.AddressIsTaken` | tools/curvefsTool.cpp:1046-1047 | a run for these two servers on a topology with the default poolset alone and in peace makes its proper calls, returns 0 and has not converged |
| `ClusterExamples.PortsFit` | src/mds/topology/topology.cpp:692-713 | a run in peace for three servers on one ip with a port each registers each server in its zone and converges |
| `ClusterExamples.PoolGoesToItsPoolset` | tools/curvefsTool.cpp:710-714 | a run in peace for a map with a poolset of its own puts the pool under that poolset and not under the default one |
| `LogicalPoolScan.TerminatesIffCovered` | tools/curvefsTool.cpp:210-237 | the inner loop ends if and only if the listed names, counted with repetitions, are among the configured names |
| `LogicalPoolScan.ScanEndsIffCovered` | tools/curvefsTool.cpp:210-237 | the scan over all listings ends if and only if the names still to be matched, counted with repetitions, are among the configured names |
| `LogicalPoolScan.TurnKeepsCovered` | tools/curvefsTool.cpp:222-233 | a turn with a match shortens the listed names and keeps that condition in both directions |
| `LogicalPoolScan.RemainingAreUnlisted` | tools/curvefsTool.cpp:210-237 | with distinct configured names exactly the configured pools that are not listed remain, in order |
| `LogicalPoolScan.DroppedPoolNeverEnds` | tools/curvefsTool.cpp:222-233 | a listed pool without a configured entry makes the loop turn forever |
| `LogicalPoolScan.LogicalPoolTool.EraseListed` | tools/curvefsTool.cpp:222-233 | under that condition the loop terminates and leaves what the specification says |
| `LogicalPoolScan.LogicalPoolTool.ScanLogicalPool` | tools/curvefsTool.cpp:210-237 | the scan over all physical pools leaves, for distinct configured names, exactly the configured pools that no physical pool lists, in order; it fails exactly if a listing fails |
| `TaskTracker.StepKeepsInv` | curvesnapshot_python/libcurveSnapshot.cpp:71-91 | every atomic action of every thread keeps the invariant that ties count, lock, sleepers, error and references together |
| `TaskTracker.NoLostWakeupStep` | curvesnapshot_python/libcurveSnapshot.cpp:75-91 | at count zero with a sleeper or a thread about to sleep, a last responder is still about to lock or to notify, after any action |
| `TaskTracker.SleepersAreWoken` | curvesnapshot_python/libcurveSnapshot.cpp:71-91 | no lost wakeup in any run |
| `TaskTracker.NobodySleepsAtTheEnd` | curvesnapshot_python/libcurveSnapshot.cpp:71-91 | when all responses have been handled the count is zero and nobody sleeps |
| `TaskTracker.CountIsOutstanding` | curvesnapshot_python/libcurveSnapshot.cpp:53-55 | the counter is the number of responses that have not counted down, and never wraps below zero |
| `TaskTracker.ResultIsTrue` | curvesnapshot_python/libcurveSnapshot.cpp:87-100 | Wait returns only when all traces so far are handled; a zero result means that none failed, another result is the code of one that failed |
| `TaskTracker.ResultIsExact` | curvesnapshot_python/libcurveSnapshot.cpp:315-331 | without later traces the result is zero if and only if no traced response failed |
| `TaskTracker.CheckDecides` | curvesnapshot_python/libcurveSnapshot.cpp:87-91 | at each look at the count the thread leaves Wait if and only if the count is zero, and goes to sleep otherwise |
| `TaskTracker.TasksBySteps` | curvesnapshot_python/libcurveSnapshot.cpp:53-83 | in every run a response counts until its own countdown step, and keeps the code it was traced with |
| `TaskTracker.WaitReturnsAtZero` | curvesnapshot_python/libcurveSnapshot.cpp:87-100 | a thread past Wait has looked at a count of zero at some step when every response traced by then had counted down; result zero means none of them failed, another result is the code of a failed one, and without later traces zero is equivalent to no failure |
| `TaskTracker.NotifyWakesAll` | curvesnapshot_python/libcurveSnapshot.cpp:75-83 | a notification wakes every sleeper and disturbs nobody else |
| `TaskTracker.FreedOnlyWhenUnused` | curvesnapshot_python/libcurveSnapshot.cpp:112-120 | the tracker is freed only when no response is inside HandleResponse and no thread uses it |
| `TaskTracker.FreedForGood` | curvesnapshot_python/libcurveSnapshot.cpp:112-120 | once the tracker is freed no step is possible any more |
| `TaskTracker.SomeoneCanMove` | curvesnapshot_python/libcurveSnapshot.cpp:71-91 | as long as a thread still uses the tracker some thread can move, without spurious wakeups or new work |
| `TaskTracker.OwnStepLowers` | curvesnapshot_python/libcurveSnapshot.cpp:71-91 | every step other than a new thread, a new trace and a spurious wakeup lowers the number of steps that can be left, although notifications send sleepers back to the check |
| `TaskTracker.EveryWaitReturns` | curvesnapshot_python/libcurveSnapshot.cpp:87-100 | without new threads, new traces and spurious wakeups every interleaving ends after boundedly many steps, and then every thread has returned from Wait with its result |
| `ChunkServerProofs.NextLifeOk` | src/chunkserver/chunk_service.cpp:58-213 | every action of a handler, an operation or a closure keeps ownership, run count, reply count and the reason of a refusal consistent |
| `ChunkServerProofs.StepKeepsInv` | src/chunkserver/chunk_service_closure.cpp:31-51 | every step of the system keeps the invariant of all parts |
| `ChunkServerProofs.ClosuresRunOnce` | src/chunkserver/chunk_service.cpp:58-498 | in every run each closure runs at most once and replies once; it has run when its handler was left without hand-off, and is with its operation when it was handed off and has not run; a reply without hand-off carries overload or the refusal of the first failing check |
| `ChunkServerProofs.ActionsAreBounded` | src/chunkserver/chunk_service.cpp:58-498 | in every run a request takes at most sixteen actions, each of which brings it nearer to its end |
| `ChunkServerProofs.RequestsEnd` | src/chunkserver/chunk_service_closure.cpp:31-51 | a request whose closure is not destroyed can always act, and when none of its actions is left its closure has run exactly once, replied exactly once and is gone |
| `ChunkServerProofs.HandedOffRange` | src/chunkserver/chunk_service.cpp:98-428 | a request that reaches an operation was admitted and passed the checks of its method; its range is aligned and lies inside the chunk if and only if its end does not wrap around 32 bits |
| `ChunkChecks.HandedOffAfterChecks` | src/chunkserver/chunk_service.cpp:58-428 | a handed-off request was admitted and has made the checks of its method in order, each at a step of the run, and failed none; its copyset was on the server at that step, and the epoch of a write was the server's or the server had none |
| `ChunkChecks.RefusedByCheck` | src/chunkserver/chunk_service.cpp:58-498 | which status each failed check replies, in which methods and after which checks it comes, what was wrong with the request or missing on the server, and that the request is never handed off |
| `ChunkChecks.AnsweredInPlace` | src/chunkserver/chunk_service.cpp:430-498 | a reply without hand-off is overload, the refusal of a check, or the answer of GetChunkInfo by a server that had the copyset and led it |
| `ChunkChecks.OperationDecidesStatus` | src/chunkserver/chunk_service_closure.cpp:31-51 | a handed-off request is answered with the status that its operation ended with |
| `ChunkChecks.UpdateRaises` | src/chunkserver/epoch_map.cpp:29-73 | an update sets the epoch of its file unless that is higher, and no other epoch |
| `ChunkChecks.FencedWriteIsNotHandedOff` | src/chunkserver/chunk_service.cpp:126-135 | once the epoch of a file is above that of a write that has not passed its epoch check, the write is never handed off in any run |
| `ChunkChecks.UpdateFences` | src/chunkserver/epoch_map.cpp:29-89 | after an update to a higher epoch no later write with a lower one is handed off |
| `ChunkChecks.AlignedMeansMultiple` | src/common/fast_align.h:53-56 | aligned numbers are the multiples of the block size |
| `ChunkServerProofs.WrappingReadIsHandedOff` | src/chunkserver/chunk_service.cpp:580-588 | a run that hands off a read whose end wraps around |
| `ChunkServerProofs.ThrottleIsRight` | src/chunkserver/inflight_throttle.h:46-67 | in every reachable state the throttle counts exactly the closures not yet destroyed, and at most the limit of admitted requests are unfinished |
| `ChunkChecks.AdmittedIffRoom` | src/chunkserver/inflight_throttle.h:46-53 | a request is admitted if and only if at its test no more requests than the limit were unfinished, itself included; otherwise it is answered with overload and never handed off |
| `ChunkChecks.AdmittedByTest` | src/chunkserver/inflight_throttle.h:46-53 | nobody is admitted without the test |
| `ChunkServerProofs.RequestsAreConserved` | src/chunkserver/chunk_service_closure.cpp:53-152 | per type, requests are successes plus errors plus requests on their way |
| `ChunkMetrics.BytesAreConserved` | src/chunkserver/chunkserver_metrics.cpp:86-95 | per type, io bytes are the sizes of the requests that succeeded |
| `ChunkMetrics.TotalsAreExact` | src/chunkserver/chunk_service_closure.cpp:53-152 | per type, the totals are the numbers of metered requests received, of those recorded with success, or chunk-not-exist for a read, and of those recorded with any other status |
| `ChunkMetrics.CopysetMetricIsExact` | src/chunkserver/chunkserver_metrics.cpp:345-372 | the metric registered for a copyset has counted exactly the requests that found it, on arrival and on completion, with the bytes of those that succeeded |
| `ChunkMetrics.CountedAtHome` | src/chunkserver/chunkserver_metrics.cpp:324-333 | whoever counts in the metric of a copyset is a request of that copyset |
| `ChunkMetrics.FetchesSeeRegistry` | src/chunkserver/chunkserver_metrics.cpp:345-372 | a request counts in the metric that is registered for its copyset at the step at which it looks, once on arrival and once on completion, and in none if none is |
| `ChunkMetrics.CountedAfterFetch` | src/chunkserver/chunkserver_metrics.cpp:345-372 | a metered request that is counted or recorded has looked for its metric before |
| `ChunkMetrics.RegistryChanges` | src/chunkserver/chunkserver_metrics.h:300-314 | a metric is created only where none is, gets registered unless one is there by then, goes when it is removed, and nothing else changes the registry |
| `ChunkServerProofs.CopysetsNeverExceedTotals` | src/chunkserver/chunkserver_metrics.cpp:345-372 | at method boundaries no counter summed over registered copysets exceeds the server's, under any creation, removal and traffic |
| `ChunkServerProofs.RegisteredObjectsStay` | src/chunkserver/chunkserver_metrics.h:300-314 | from registration to removal a copyset keeps its metric object over any number of steps and racing creations, no counter of it goes down, and copysets that differ have objects that differ |
| `ChunkServerProofs.CopysetsDoNotShare` | src/chunkserver/chunkserver_metrics.cpp:296-333 | two copysets share a metric object if and only if they are the same copyset |
| `GroupId.PackedFieldsComeBack` | include/chunkserver/chunkserver_common.h:85-109 | both ids come back from the packed number |
| `GroupId.UnpackedFieldsRepack` | include/chunkserver/chunkserver_common.h:85-109 | packing the two fields of a number gives the number |
| `GroupId.DecimalReadsBack` | include/chunkserver/chunkserver_common.h:92-95 | the printed number reads back |
| `GroupId.GroupIdsDiffer` | include/chunkserver/chunkserver_common.h:92-95 | group ids are equal if and only if both ids are |
| `GroupId.PackedValue` | include/chunkserver/chunkserver_common.h:85-88 | the packed number is the pool id times two to the 32 plus the copyset id |
| `GroupId.DecimalIsPlain` | include/chunkserver/chunkserver_common.h:92-95 | the printed number consists of digits and starts with zero only if it is zero |
| `GroupId.GroupIdReads` | include/chunkserver/chunkserver_common.h:92-95 | the group id reads as that number, without leading zeros |
| `ScanMapClosure.SendScanMapClosure.Guard` | src/chunkserver/chunk_closure.cpp:74-80 | everything owned is freed, once |
| `ScanMapClosure.SendScanMapClosure.Run` | src/chunkserver/chunk_closure.cpp:82-104 | it sends again exactly on a failure with retries left and is alive then; otherwise everything is freed |
| `ScanMapClosure.EndComes` | src/chunkserver/chunk_closure.cpp:82-104 | for every sequence of outcomes the end comes within retry + 1 RPCs |
| `ScanMapClosure.Live` | src/chunkserver/chunk_closure.cpp:74-104 | for every sequence of outcomes: at most retry + 1 sends, the end is at the first success or the last allowed failure, and every owned object is freed once and used by nothing after |
| `CastList.Splice` | curvefs_python/curvefs_wrap.cxx:463-470 | the assignments take the node out and put it before the head, touching no other links |
| `CastList.MoveToTop` | curvefs_python/curvefs_wrap.cxx:463-470 | the list stays doubly linked and its nodes are the old ones with the one moved to the front |
| `CastList.TypeCheck` | curvefs_python/curvefs_wrap.cxx:455-477 | the first node with the name is returned, if and only if there is one, and moved to the front of a well-formed list |
| `CastList.TypeCheckStruct` | curvefs_python/curvefs_wrap.cxx:482-504 | the same for types compared by identity |
| `CastList.LookupsKeepOthers` | curvefs_python/curvefs_wrap.cxx:455-504 | any sequence of lookups permutes the list and never reorders the nodes that were not looked up |
| `CastList.LookedIsFirst` | curvefs_python/curvefs_wrap.cxx:455-477 | what was looked up last is at the front, and looking it up again changes nothing |
| `ModuleRing.Search` | curvefs_python/curvefs_wrap.cxx:596-618 | in a sorted table the binary search finds an entry if and only if there is one, and terminates |
| `ModuleRing.StrcmpByFirstDifference` | curvefs_python/curvefs_wrap.cxx:605 | the comparison is zero exactly for equal names and otherwise decided by the first character in which they differ, or by which ends first |
| `ModuleRing.Query` | curvefs_python/curvefs_wrap.cxx:591-625 | the query returns the entry of the first module on the walk that has the name, and null if and only if none has it |
| `ModuleRing.RingHasWalks` | curvefs_python/curvefs_wrap.cxx:591-625 | between any two modules of a ring there is a walk, around the whole ring if they are the same |
| `ModuleRing.WalksStayInRing` | curvefs_python/curvefs_wrap.cxx:591-625 | a walk that starts in a ring ends only at modules of the ring |
| `ModuleRing.LeftBehindForever` | curvefs_python/curvefs_wrap.cxx:7705-7708 | when the first module of an old ring has moved to another ring, no walk from any of the others comes back to its start |
| `ModuleRing.Interpreter.Contains` | curvefs_python/curvefs_wrap.cxx:7695-7703 | the walk around the ring finds the module if and only if it is on it, and terminates |
| `ModuleRing.Interpreter.LinkIn` | curvefs_python/curvefs_wrap.cxx:7677-7708 | for any module that is not loaded yet, the ring is a ring again with the module right behind the head, except that a linked module that is on no ring leaves an interpreter without modules with no ring either |
| `ModuleRing.Interpreter.FillTypes` | curvefs_python/curvefs_wrap.cxx:7720-7794 | the new table has the names of the initial one in the same order, each entry taken from the first loaded module that has it |
| `ModuleRing.Interpreter.InitializeModule` | curvefs_python/curvefs_wrap.cxx:7672-7794 | for a new, a loaded or a foreign module and for one left on no ring, the order of all tables is kept, which is what the search needs, and the interpreter has a ring afterwards if and only if it had modules or the module did not come from off a ring; the ring a foreign module came from survives if and only if the interpreter had no modules or the module was alone on its ring |
| `ModuleRing.LoadFromOther` | curvefs_python/curvefs_wrap.cxx:7688-7708 | an interpreter with modules that loads a module of another interpreter, not its head, leaves the other with a head that no walk comes back to |
| `ModuleRing.LoadingBreaksOtherRing` | curvefs_python/curvefs_wrap.cxx:7688-7708 | two interpreters and three modules for which that happens: afterwards the first holds the ring of its own module and the shared one, and the second holds a head from which no walk comes back |
| `HexPack.PackData` | curvefs_python/curvefs_wrap.cxx:665-676 | the buffer holds the packed text at its place and is unchanged elsewhere |
| `HexPack.UnpackData` | curvefs_python/curvefs_wrap.cxx:681-704 | it succeeds if and only if the text is long enough and lower-case hexadecimal, uses exactly that text and fills the buffer; otherwise exactly the bytes before the bad digit are written |
| `HexPack.PackThenUnpack` | curvefs_python/curvefs_wrap.cxx:665-704 | every byte sequence comes back from its packed text, whatever follows the text |
| `HexPack.UnpackThenPack` | curvefs_python/curvefs_wrap.cxx:665-704 | an accepted text is exactly what packing the bytes prints |
| `HexPack.PackedDigits` | curvefs_python/curvefs_wrap.cxx:665-676 | byte i is sixteen times the value of digit 2i plus the value of digit 2i+1 of its text |
| `HexPack.UnpackedDigits` | curvefs_python/curvefs_wrap.cxx:681-704 | the same for the bytes of an accepted text |

## Left out

- Reading the cluster map from JSON, flags, configuration, logging and timing: the entries are taken as given.
- Other clients of the MDS during a run: calls of one run follow each other directly.
- An MDS that takes over continues its id counters; it is not modelled that counters restart at the largest stored id.
- An MDS that takes over may enumerate poolsets and children in another order, which decides which of two nodes with the same key stays; what is stated over several RPCs or runs, such as `Restart`, assumes the order of the tree.
- Logical pools and chunkservers in the MDS: of the chunkservers only the live ones of a server are kept, as what keeps the server from being deleted.
- MdsService.Mds.Remove: does not model that DeleteServer first removes the retired chunkservers of a server and that this may fail; a server is refused for its live chunkservers only.
- A call takes effect at most once: most RPCs of the tool leave brpc free to resend a request, and a creation that takes effect twice is not modelled.
- MdsService.Mds.Add: does not fix which id above the earlier ones is used nor where the enumeration of poolsets puts a new one, because ids are lost in storage failures and the order is that of a hash table.
- LogicalPoolScan.LogicalPoolTool.EraseListed: requires that every listed name has a configured entry of its own, because the loop does not end otherwise, as TerminatesIffCovered shows.
- The classes of the chunkserver and the tracker: their steps act on values, since interleaving is the point; update in place and aliasing within one atomic step are not captured.
- The operation that a handler hands off to: it may end with any status and runs the closure once; consensus and data store are not modelled, and copysets and leaderships change at will.
- GetChunkHash and CreateS3CloneChunk create no closure of the modelled kind; UpdateEpoch is modelled by its effect on the epochs, in one step.
- Block sizes that are not powers of two: the source tests alignment with a bit mask.
- Metric windows, latencies and failing initialisation of a metric; number and bytes of one response are added in one step.
- TaskTracker.CountIsOutstanding: assumes that fewer than 2^32 responses are outstanding, the range of the counter.
- Memory orderings weaker than sequential consistency.
- SWIG type names that are null, the insertion of casts in SWIG_InitializeModule, SWIG_TypeNameComp, and reference counting in the Python bindings.
- ModuleRing.Interpreter.FillTypes: does not model that the clientdata of a type found in another module is overwritten, nor the casts that are inserted.
- ModuleRing.Interpreter.InitializeModule: requires a sorted initial table, as the generator emits it.
