# Reconciliation model of the Vitastor operator

The operator keeps three kinds of store in step with what the agents on the storage nodes
report: Kubernetes objects (VitastorNode, VitastorOSD, StatefulSet, the monitor Deployment, the
agent DaemonSet, StorageClass), the failure-domain tree under the etcd key
`/config/node_placement`, and two more etcd keys (`/config/placement_levels`, `/config/pools`).
Four controllers do this, each with one worker. This project models all four and proves what
their passes do, alone, in sequences, cut short anywhere, and interleaved with each other.

## How it is built

- A world (`Api.World`) is the stores in typed form. `Api.Store` is the same as one mutable
  object, which the reconciler classes work on.
- Each controller has a step function: one API call, etcd call or agent round trip a step. A run
  of n steps is a pass that was cut after n calls by an error, a crash or a restart, or that
  another controller overtook there.
- Each controller also has its `Reconcile` as a class method with the loops and early returns of
  the Go code. It is proved to end where the machine ends, for every number of calls that go
  through: same stores, same place in the pass.
- `Operator` puts the four together: an event is one worker's next call, the beginning or the
  failure of one worker's pass, a restart of all, or an edit of API objects by somebody else.
- The environment's answers are parameters: the node's labels in the order of a Go map
  iteration, the agent's report, the order in which a List returns.
- Seen from far enough away, the node controller makes three kinds of move on the VitastorOSD
  objects (`OsdPlan`): create a missing one whose name is free, update a wrong image, delete a
  stale one. Passes refine moves step by step (`NodeProgress.StepRefines`). Progress, deadlock
  and convergence are proved over moves, then for sequences of passes (`NodeRuns`), then for
  every interleaving of the whole operator (`OperatorRuns`, `OperatorProgress`).

| files | about |
|---|---|
| `Naming`, `Placement`, `LabelKeys`, `Forest`, `StatusLists`, `Api` | names, the tree and its label fold, label keys by their text, forests, the status lists, the stores |
| `NodePass`, `NodeReconciler` | the node controller as a machine and as a class |
| `OsdPlan`, `Deadlocks`, `NodeProgress`, `NodeRuns`, `PassesComplete`, `ExactBound` | moves, when nodes are deadlocked, refinement, convergence and its exact bound |
| `NodeEffects`, `PassResults`, `Panics`, `Outcomes`, `Recovery`, `MergeOrder` | what a pass does to the stores, fixpoints, panics, how passes end and what they leave, repair after cuts, order of passes |
| `OsdController`, `PoolController`, `ClusterController` | the other three controllers |
| `Operator`, `PassEvents`, `Writes`, `SerialRuns`, `SharedTree`, `BringUp`, `BringUpRuns` | all four interleaved: passes as events, what a call may write, etcd, serial runs, the tree, cluster bring-up |
| `Settling`, `Leftovers`, `OperatorRuns` | VitastorOSDs and StatefulSets together: their measure, rest, StatefulSets left over |
| `OperatorProgress`, `OperatorRecovery`, `FairRuns`, `ReachingRest`, `ThoroughRuns` | all four interleaved: convergence, repair after cuts, coming to rest, and that such runs exist |

## What is found

- **Moving a disk can block nodes for ever.** A failed Create ends the pass before the delete
  loop. A disk that comes back under another path on its node blocks that node
  (`Deadlocks.RenamedDiskDeadlocks`); two nodes that exchange disks block each other unless the
  disks have the same path (`Deadlocks.ExchangedDisksDeadlock`). Both come with the smallest case
  as an example. The exact condition (`Deadlocks.IsBlocked`) is read off objects and reports: some
  nodes wait for each other's names in a circle, or a needed name is held by an object that its
  node still reports or whose node nobody reconciles. After enough fair rounds, and after enough
  fair segments of any interleaved run, every node has converged if and only if this did not hold
  at the start (`NodeRuns.DiskMoves`, `OperatorProgress.DiskMovesInterleaved`).
- **The tree is a forest only while names are kept apart.** A node labelled with its own name as
  datacenter becomes its own parent (`Forest.OwnNameAsDomainMakesACycle`).
  `Forest.HostWriteKeepsForest` and `Forest.OsdWriteKeepsForest` give the exact condition for
  each of the two writes; with datacenter names, node names and decimal numbers kept apart, which
  `SharedTree.SeparateIff` spells out, it is met in every reachable state
  (`SharedTree.TreeIsAlwaysAForest`).
- **A label key that contains `fd.vitastor.io` but no slash makes the pass panic**, such as the bare
  prefix (`Panics.BarePrefixIsMalformed`). A pass that gets to its node's labels panics if and
  only if there is such a key (`Panics.PassPanicsIffNoSlash`), also in any interleaving
  (`Panics.InterleavedPanic`); labels without that text in their key change nothing
  (`LabelKeys.OtherLabelsAreIgnored`). The second place that could panic, the map read back in
  the create loop, always finds one.
- **Documentation and code differ.** The documentation offers a label for every placement level;
  the code heeds only `dc` (`Forest.OnlyDcKeysMatch`). The model follows the code.
- **Status lists.** Each list that a pass stores is n empty strings followed by the n reported names
  (`Outcomes.StatusWrite`). This does not blur the comparison (`StatusLists.PaddingIsHarmless`), but it makes an empty path
  count as reported whenever anything is (`StatusLists.PaddedMembers`).
- **Two dc values on one node**: which of them becomes the parent depends on the iteration order
  of the labels. With one value at most, and only then, the order makes no difference
  (`Placement.OrderIrrelevantIffOneDomain`).
- **A StatefulSet left over from an earlier VitastorOSD of the same name keeps its node and path**:
  the OSD controller corrects the image only. A pass leaves the StatefulSet its object asks for if
  and only if it found none or one with the object's own node and path
  (`Leftovers.SetIsRightIffItBelongs`). When a disk moves to another node and the pass comes before
  the garbage collector, the StatefulSet stays on the old node (`Leftovers.LeftoverKeepsItsNode`,
  with the smallest case in `Leftovers.LeftoverExample`). At rest all is well, because the garbage
  collector takes every StatefulSet whose owner is gone (`Settling.RestMeansServed`), and if no
  node is blocked the operator comes to rest (`ReachingRest.OperatorComesToRest`).
- **An agent pod that is not scheduled ends every pass of the cluster controller** at the attempt
  to create a VitastorNode without a name, so pods listed after it are not looked at
  (`ClusterController.ThreePassesBringUp`).
- **A changed pool id never reaches the StorageClass**, and the old id stays published
  (`PoolController.ChangedIdLeavesTheClass`).
- **One worker a controller is needed**: two workers on the node controller lose updates
  (`Operator.TwoWorkersLoseAnUpdate`).

## Terms

- A *plan* gives each reconciled node its image and its reported partitions. `OsdPlan.WellFormed`:
  no OSD number is reported twice, no device path is reported twice by one node.
- `NodeRuns.Ready`: VitastorNodes have their name equal to their `nodeName`, as the cluster
  controller creates them, and carry the planned image; objects are stored under their names.
- `NodeRuns.Faithful`: an agent that answers reports the planned partitions.
- `NodeRuns.Completed`: the pass ended by itself, with all work done, after an image update, or
  because a name was taken.
- `OsdPlan.IsDeadlock(osds, plan, C)`: C is not empty and each node in C has a reported partition
  without an object, whose object name is held by an object that nobody outside C will delete.
- `Deadlocks.Waits(osds, plan, b, a)`: b reports a partition without an object, and a holds its name.
- `OperatorProgress.Completions(es, s, b)`: how many passes of b end in the run, with all work
  done, after an image update, or because a name was taken. A segment is fair if every planned
  node has one (`OperatorProgress.IsFair`).
- `ReachingRest.IsThorough`: a fair segment in which also every VitastorOSD has a pass of the OSD
  controller that ends without an error, every lost StatefulSet is collected, and the OSD
  controller is idle at some moment.
- `Settling.IsOwned(osds, sets, lost)`: the StatefulSets named in `lost` were made for objects
  that have been deleted; every other one was made for the present object of its name.
- `ClusterController.Reach(pods)`: how many agent pods come before the first unscheduled one.

## Model

| member | source | states |
|---|---|---|
| Naming.ParseItoa | controllers/vitastornode_controller.go:313 | Rendering an OSD number in decimal loses nothing: parsing gives it back, for every integer, negative ones included. |
| Naming.NamesAreDistinct | controllers/vitastornode_controller.go:425 | Two OSD numbers have the same object name, or the same placement key, exactly when they are equal. |
| Naming.ItoaIsCanonical | controllers/vitastornode_controller.go:313 | The rendering has digits only, after a minus sign for a negative number, and no leading zero; zero is "0". |
| Naming.ItoaOfParsed | controllers/vitastornode_controller.go:313 | The converse round trip: rendering what was parsed from a numeral without leading zeros gives the numeral back. |
| Naming.NumeralIffCanonical | controllers/vitastornode_controller.go:313 | The texts that OSD numbers are rendered to are exactly the numerals without leading zeros. |
| Naming.NamesExample | controllers/vitastornode_controller.go:425 | OSD 7 has the object name "vitastor-osd-7" and the key "7". |
| Placement.MergeLabel | controllers/vitastornode_controller.go:155-167 | One turn of the label loop: no slash panics; a dc label adds its value if missing and overwrites the host; any other label changes nothing. |
| Placement.MergeLabels | controllers/vitastornode_controller.go:152-168 | The loop over the labels computes the one-shot merge of the host and its datacenters, or panics exactly when some matching label has no slash. |
| Placement.AddLabelsIsWithHost | controllers/vitastornode_controller.go:152-168 | The sequence of assignments of the loop equals one map merge described entry by entry. |
| Placement.DomainsAreMatches | controllers/vitastornode_controller.go:154-157 | The datacenters a pass sees are exactly the values of the matching labels, in any iteration order. |
| Placement.LabelFold | controllers/vitastornode_controller.go:152-168 | For any map and any label order: exactly the matching values and the host are added, all other entries stay as they were, the host's parent is one of the matching values or empty if there are none. |
| Placement.LabelOrderIrrelevant | controllers/vitastornode_controller.go:154-168 | With at most one matching value the result, panic included, does not depend on the iteration order. |
| Placement.LastMatchWins | controllers/vitastornode_controller.go:154-168 | Any matching value can become the parent: some order of the same labels puts the host below it. |
| Placement.OrderIrrelevantIffOneDomain | controllers/vitastornode_controller.go:154-168 | All orders of the labels give the same result if and only if at most one value matches or a malformed label makes the pass panic. |
| LabelKeys.SubstringIffContains | controllers/vitastornode_controller.go:155 | The search for the prefix succeeds exactly if the key is the prefix with some text before and after it. |
| LabelKeys.SecondFieldIff | controllers/vitastornode_controller.go:156-157 | The second field of a key split at slashes is the text between its first slash and the next one or the end; it is missing exactly if there is no slash. |
| LabelKeys.KindIs | controllers/vitastornode_controller.go:155-157 | What a label means, by its text: ignored unless the key contains `fd.vitastor.io`; then a panic if it has no slash, a datacenter if its second field is `dc`, ignored otherwise. |
| LabelKeys.KeysExample | README.md:58-84 | `fd.vitastor.io/dc` is heeded; `vitastor-node` and `example.com/dc` are not. |
| LabelKeys.OtherLabelsAreIgnored | controllers/vitastornode_controller.go:152-168 | Labels whose keys do not contain `fd.vitastor.io` leave the host with an empty parent and add nothing. |
| Forest.ForestIsAcyclic | controllers/vitastorcluster_controller.go:84-88 | In a tree whose levels ascend, no walk from an entry to its ancestors meets an entry twice. |
| Forest.ForestIsShallow | controllers/vitastorcluster_controller.go:84-88 | With the operator's level table such a walk has at most three entries. |
| Forest.HostWriteKeepsForest | controllers/vitastornode_controller.go:152-165 | The first write of a pass keeps the forest if and only if the chosen datacenter is not the node itself nor an entry at host level or below, and the node's children are below host level. |
| Forest.OsdWriteKeepsForest | controllers/vitastornode_controller.go:313 | An OSD write keeps the forest if and only if the node's entry exists above OSD level and the number's entry has no children that would no longer be below it. |
| Forest.OnlyDcKeysMatch | README.md:81-84 | Of the label keys `fd.vitastor.io/<level>` the pass heeds the one with level dc and no other. |
| Forest.OwnNameAsDomainMakesACycle | controllers/vitastornode_controller.go:159-165 | A node whose dc label has its own name as value becomes its own parent, whatever the stored map. |
| StatusLists.CompareIsMultisetEquality | controllers/vitastornode_controller.go:399-402 | Sort-then-compare is equality of multisets, except that a list never set differs from an empty one. |
| StatusLists.PadNames | controllers/vitastornode_controller.go:219-222 | The append loop builds n empty strings followed by the n names. |
| StatusLists.PaddedIsPadding | controllers/vitastornode_controller.go:219-222 | That list item by item: twice as long as the report, empty in the first half, and the report's names in their order in the second. |
| StatusLists.PaddingIsUnique | controllers/vitastornode_controller.go:219-222 | No other list is so. |
| StatusLists.PaddedExample | controllers/vitastornode_controller.go:219-222 | A report of "a", "b" becomes ["", "", "a", "b"]. |
| StatusLists.PaddingIsHarmless | controllers/vitastornode_controller.go:219-227 | Two padded lists compare equal exactly when the reports are equal as multisets, for any names, empty ones included. |
| StatusLists.PaddedMembers | controllers/vitastornode_controller.go:267-270 | A path is found in the padded list exactly when it is reported, or is empty and anything is reported. |
| NodePass.PassEnds | controllers/vitastornode_controller.go:92-397 | Every pass is over after a number of calls known from its answers: at most three a reported partition, one a listed object, and a constant. |
| NodePass.StatusWriteOnChange | controllers/vitastornode_controller.go:223-284 | The status is left alone exactly when each of the three stored lists was set and is the padded report as a multiset, which is exactly when the new status equals the old. |
| NodePass.WrittenStatusIsCurrent | controllers/vitastornode_controller.go:223-284 | After the controller's own write, a later pass writes again exactly when one of the three reported lists has changed as a multiset. |
| NodeReconciler.Contains | controllers/vitastornode_controller.go:404-411 | True exactly when some listed object has the path. |
| NodeReconciler.ContainsString | controllers/vitastornode_controller.go:413-420 | True exactly when the string is in the list. |
| NodeReconciler.PadPaths | controllers/vitastornode_controller.go:267-270 | The OSD paths a pass works with are the padded paths of the report. |
| NodeReconciler.CompareStatus | controllers/vitastornode_controller.go:219-275 | The three comparisons give the new status, and say whether it has to be written. |
| NodeReconciler.VitastorNodeReconciler.Reconcile | controllers/vitastornode_controller.go:92-397 | For every number of calls that go through, the pass ends at the place and with the stores that the step machine gives. |
| NodeReconciler.VitastorNodeReconciler.ReconcileTree | controllers/vitastornode_controller.go:134-181 | The same from the first read of the placement map on. |
| NodeReconciler.VitastorNodeReconciler.ReconcileStatus | controllers/vitastornode_controller.go:183-284 | The same from the agent's report on, through the status write. |
| NodeReconciler.VitastorNodeReconciler.ReconcileObjects | controllers/vitastornode_controller.go:286-294 | The same from the one listing of the objects on. |
| NodeReconciler.VitastorNodeReconciler.DeployOsds | controllers/vitastornode_controller.go:296-367 | The create loop over the report, against the listing taken before it. |
| NodeReconciler.VitastorNodeReconciler.DeployOsd | controllers/vitastornode_controller.go:298-366 | One turn: a taken name ends the pass at once, otherwise the object is there and its entry is written. |
| NodeReconciler.VitastorNodeReconciler.RecordOsd | controllers/vitastornode_controller.go:302-325 | Reads the map again, adds the partition's entry, writes it back; a missing map panics. |
| NodeReconciler.VitastorNodeReconciler.SweepOsds | controllers/vitastornode_controller.go:369-396 | The update and delete loop over the listing, which stops after one image change. |
| OsdPlan.MissingAfter | controllers/vitastornode_controller.go:298-394 | A move covers its own partition, if it is a create, and uncovers none. |
| OsdPlan.MoveSettles | controllers/vitastornode_controller.go:298-394 | Each create, update and delete lowers the number of missing, wrong and stale objects of the cluster by exactly one. |
| OsdPlan.PlaysPayDebt | controllers/vitastornode_controller.go:298-394 | Over any sequence of moves of any nodes, the debt at the end plus the number of moves is the debt at the start, and no image becomes wrong. |
| OsdPlan.DeadlocksAreInvariant | controllers/vitastornode_controller.go:335-339 | A set of nodes is deadlocked before a move exactly when it is after, and its own nodes neither update nor delete. |
| OsdPlan.DeadlocksLast | controllers/vitastornode_controller.go:335-339 | The same over any sequence of moves: objects of deadlocked nodes stay as they are. |
| OsdPlan.SomeNodeIsFree | controllers/vitastornode_controller.go:335-339 | If some node has not converged and no set is deadlocked, some unconverged node finds all the names it needs free. |
| OsdPlan.ConvergedAfter | controllers/vitastornode_controller.go:286-394 | A converged node makes no move, and moves of other nodes neither converge nor unsettle it. |
| Deadlocks.WaitCycleIsDeadlock | controllers/vitastornode_controller.go:335-339 | The nodes on a cycle of the wait-for relation, a node waiting for itself included, are a deadlocked set. |
| Deadlocks.FollowHolders | controllers/vitastornode_controller.go:335-339 | In a deadlocked set in which no name is held for good, following the holders from any node leads to a cycle. |
| Deadlocks.DeadlockIffBlocked | controllers/vitastornode_controller.go:335-339 | Some set of nodes is deadlocked if and only if there is a cycle of waiting nodes or a needed name held by an object that will stay. |
| Deadlocks.RenamedDiskDeadlocks | controllers/vitastornode_controller.go:298-339 | A node that runs what it reports is deadlocked, by itself, once one of its disks is reported under a path it has not used. |
| Deadlocks.ExchangedDisksDeadlock | controllers/vitastornode_controller.go:298-339 | Two nodes that run what they report and then exchange a disk each are deadlocked if and only if the two disks have different paths. |
| Deadlocks.RenamedDiskExample | controllers/vitastornode_controller.go:298-339 | The renamed disk with literal objects and reports. |
| Deadlocks.ExchangedDisksExample | controllers/vitastornode_controller.go:298-339 | The exchanged disks with literal objects and reports, as a wait cycle of two nodes. |
| NodeProgress.ListedPathIsCovered | controllers/vitastornode_controller.go:287-299 | Although the listing was taken before the create loop, at each turn it shows a path exactly when the node has an object for it. |
| NodeProgress.DeployRefines | controllers/vitastornode_controller.go:298-366 | A turn of the create loop is a create move or none, and keeps what the loop relies on. |
| NodeProgress.SweepRefines | controllers/vitastornode_controller.go:371-394 | A turn of the delete loop is an update move, a delete move or none, and keeps what the loop relies on. |
| NodeProgress.StepRefines | controllers/vitastornode_controller.go:92-397 | Every step of a pass is at most one enabled move of its own node; a finished pass has converged, a blocked one has found a needed name taken. |
| NodeRuns.VisitRefines | controllers/vitastornode_controller.go:92-397 | Any part of any pass, with any listing order, is a sequence of enabled moves of its node. |
| NodeRuns.RunsPayDebt | controllers/vitastornode_controller.go:298-394 | Conservation over any run of passes of any nodes, cut anywhere: the debt goes down by exactly the number of objects created, updated and deleted. |
| NodeRuns.DeadlockForEver | controllers/vitastornode_controller.go:335-339 | In no run at all does a deadlocked set get free, converge, or have an object updated or deleted; nor does a deadlock arise. |
| NodeRuns.VisitProgresses | controllers/vitastornode_controller.go:286-396 | A completed pass of an unconverged node that finds its names free converges it or fixes one of its images. |
| NodeRuns.NodeConverges | controllers/vitastornode_controller.go:286-396 | If its names are free, a node with m wrong images has converged after m+1 completed passes, for every listing order and with any other passes, whole or cut, in between. |
| NodeRuns.RoundsConverge | controllers/vitastornode_controller.go:298-394 | Without a deadlocked set, as many fair rounds as there are unconverged nodes and wrong images converge every node. |
| NodeRuns.DeadlockOutlastsRounds | controllers/vitastornode_controller.go:335-339 | After any number of fair rounds all nodes of a deadlocked set are still unconverged. |
| NodeRuns.DiskMoves | controllers/vitastornode_controller.go:298-394 | After enough fair rounds every node has converged if and only if at the start there was neither a cycle of waiting nodes nor a name held for good. |
| PassesComplete.CompletedVisitExists | controllers/vitastornode_controller.go:92-397 | In every state each planned node has a pass that completes, so the theorems on completed passes and fair rounds are not empty. |
| ExactBound.VisitSpares | controllers/vitastornode_controller.go:371-384 | A pass of a node with a wrong image left, whole or cut, does not get to a stale object that the List puts last. |
| ExactBound.StaleOutlastsUpdates | controllers/vitastornode_controller.go:371-394 | In any run in which a node has had no more passes than it had wrong images, a stale object that is always listed last is still there and the node has not converged. |
| ExactBound.BoundIsExact | controllers/vitastornode_controller.go:371-394 | The bound m+1 is exact: for every m there are a state with m wrong images and all names free, and m completed passes, after which the node has not converged. |
| NodeEffects.WithOsdsIsMerge | controllers/vitastornode_controller.go:298-366 | The writes of the reported entries, one after the other, are one merge: reported keys get the node as parent, all others stay. |
| NodeEffects.RunAlong | controllers/vitastornode_controller.go:134-367 | At every point of a pass the placement map and the node's status are determined by the map it began with and the place it has reached. |
| NodeEffects.RunObjects | controllers/vitastornode_controller.go:286-394 | At every point of a pass only the objects it may touch have changed, none before the delete loop other than new ones, and what is new stays. |
| NodeEffects.RunFrame | controllers/vitastornode_controller.go:92-397 | The node controller writes nodes, VitastorOSDs and the placement map and nothing else. |
| PassResults.PassIsSafe | controllers/vitastornode_controller.go:267-394 | Delete safety and rolling update for every cut and listing order: other nodes' objects are untouched, no object with a reported path is deleted, at most one image changes, to the node's, on a reported device, and each new object is built from a reported partition: named after its number, on the node named in the VitastorNode's spec, with its path and that image. |
| PassResults.CreatedStays | controllers/vitastornode_controller.go:328-394 | What a pass has created it neither deletes nor changes later in the pass. |
| PassResults.PassIsOneMerge | controllers/vitastornode_controller.go:152-366 | The placement map after a complete pass is one merge, after a cut pass an initial part of it, and other stores are unchanged. |
| PassResults.MergedEntry | controllers/vitastornode_controller.go:152-366 | What that merge holds under every key, and that it holds no other keys. |
| PassResults.MergeIsIdleIffEntriesAreIn | controllers/vitastornode_controller.go:152-366 | A node's merge leaves a map equal if and only if the map holds the node's datacenters, the node below the last of them, and each reported OSD below the node. |
| PassResults.PassIsIdleIffSettled | controllers/vitastornode_controller.go:92-397 | A pass without errors changes nothing in any store if and only if the node's objects have converged, those entries are in the map, and its status is current. |
| PassResults.VisitFixesOneImage | controllers/vitastornode_controller.go:371-384 | A pass, whole or cut, leaves at most one image fewer wrong. |
| PassResults.ImagesChangeOneByOne | controllers/vitastornode_controller.go:371-384 | Over any run, k images need at least k passes. |
| Panics.MalformedIffNoSlash | controllers/vitastornode_controller.go:155-157 | The label the loop trips over is one whose key is `fd.vitastor.io` with some text before and after it and no slash. |
| Panics.BarePrefixIsMalformed | controllers/vitastornode_controller.go:155-157 | The bare prefix is such a key, with any value. |
| Panics.StepPanics | controllers/vitastornode_controller.go:154-157 | A step of a pass panics if and only if it goes through labels with such a key; reading the map back in the create loop never does. |
| Panics.PassPanicsIffNoSlash | controllers/vitastornode_controller.go:154-157 | A pass that gets to its node's labels panics if and only if one of the keys contains the text `fd.vitastor.io` and no slash. |
| Panics.InterleavedPanic | controllers/vitastornode_controller.go:302-313 | The same for the next step of the node worker after any interleaved run. |
| Outcomes.NothingToDo | controllers/vitastornode_controller.go:122-132 | A pass without its VitastorNode or its Kubernetes node is skipped and writes nothing. |
| Outcomes.PanicDoesNothing | controllers/vitastornode_controller.go:154-157 | A pass that trips over a label writes nothing. |
| Outcomes.NoReport | controllers/vitastornode_controller.go:191-217 | Without an agent pod a pass waits for the next turn, without the agent's answer it fails; either way it has written the host with its datacenters and nothing else. |
| Outcomes.ListFails | controllers/vitastornode_controller.go:286-294 | When the List fails, the pass fails with the host and the status written and no object touched. |
| Outcomes.LiveIs | controllers/vitastornode_controller.go:371-385 | An object is kept exactly if a partition with its path is reported, or if its path is empty and anything is reported. |
| Outcomes.NewStatusIs | controllers/vitastornode_controller.go:223-275 | Each of the three lists stays as stored if that has the same strings the same number of times, and otherwise becomes as many empty strings as names, then the names. |
| Outcomes.StatusWrite | controllers/vitastornode_controller.go:277-284 | The status write leaves those three lists in the node, keeps the rest of the object and the other objects. |
| Outcomes.StatusAfterPass | controllers/vitastornode_controller.go:219-284 | The same of a whole pass that ends without an error. |
| Outcomes.StatusExample | controllers/vitastornode_controller.go:219-284 | Disks "a", "b" on a node without a status are stored as ["", "", "a", "b"]. |
| Recovery.MergeKeepsPlaced | controllers/vitastornode_controller.go:152-366 | No part of any node's merge takes a reported entry of another node away. |
| Recovery.CompletedVisitPlaces | controllers/vitastornode_controller.go:298-366 | A completed pass of a node whose names are free writes the entry of every reported partition, those that had their object already included. |
| Recovery.CutPassesAreRepaired | controllers/vitastornode_controller.go:299-326 | From any state a cut pass may leave, and with any number of further cut passes, m+1 completed ones give every reported partition its object and its placement entry. |
| MergeOrder.SharesEntry | controllers/vitastornode_controller.go:152-366 | What any sequence of nodes' merges leaves under every key. |
| MergeOrder.ShareOrderIrrelevant | controllers/vitastornode_controller.go:152-366 | Merges of nodes with different names and no OSD number in common give the same map in any order and with any repetition. |
| MergeOrder.VisitAddsShare | controllers/vitastornode_controller.go:152-366 | A pass without errors adds exactly its node's share to the map. |
| MergeOrder.PassOrderIrrelevant | controllers/vitastornode_controller.go:152-366 | Two runs of error-free passes over the same nodes, in any order, with any repetition, and with each node's labels met in any order, leave the same placement map, if each node has one matching dc value at most. |
| OsdController.VitastorOSDReconciler.Reconcile | controllers/vitastorosd_controller.go:169-221 | For every number of calls that go through, the pass ends as the step machine does: it creates the missing StatefulSet or overwrites its image. |
| OsdController.WholePass | controllers/vitastorosd_controller.go:176-220 | An uncut pass, from the request on: gone and nothing written without the object; otherwise the StatefulSet is made with the object's node, path and image, has its image corrected, or was right, and the pass says which. |
| PoolController.VitastorPoolReconciler.Reconcile | controllers/vitastorpool_controller.go:71-159 | The pool pass as a method equals its step machine, cut anywhere. |
| PoolController.VitastorPoolReconciler.ReconcilePools | controllers/vitastorpool_controller.go:94-132 | The same from the read of the pools map on. |
| PoolController.VitastorPoolReconciler.ReconcileClass | controllers/vitastorpool_controller.go:134-158 | The same from the StorageClass lookup on. |
| PoolController.WholePass | controllers/vitastorpool_controller.go:88-158 | An uncut pass, from the request on: the pool is published under its id with its seven fields, other ids are unchanged, and the pool has its StorageClass, new exactly if there was none; the pass asks for another one exactly then. |
| PoolController.PassWithoutPool | controllers/vitastorpool_controller.go:88-92 | A pass for a pool that is gone writes nothing. |
| PoolController.SamplePool | deploy/006-sample-vitastor-pool.yaml:1-13 | The sample pool is published under "1" with its values and gets its class. |
| PoolController.VisitPublishes | controllers/vitastorpool_controller.go:96-131 | A pass changes the pools map exactly when it gets to its Put, and then only under the pool's id. |
| PoolController.LastWriterWins | controllers/vitastorpool_controller.go:96-132 | After any sequence of passes, cut ones included, each id holds the seven published fields of the last pass with that id that got to its Put, and other ids are unchanged. |
| PoolController.PoolOrderIrrelevant | controllers/vitastorpool_controller.go:96-132 | With one pool an id, any order and any repetition of the passes gives the same map. |
| PoolController.OneClassAPool | controllers/vitastorpool_controller.go:134-176 | A complete pass makes the missing StorageClass with the pool's name and id; otherwise no class changes. |
| PoolController.ChangedIdLeavesTheClass | controllers/vitastorpool_controller.go:134-158 | After a change of the id both ids are published and the class still has the first one. |
| ClusterController.VitastorClusterReconciler.Reconcile | controllers/vitastorcluster_controller.go:62-223 | For every number of calls that go through, the pass ends as the step machine does. |
| ClusterController.VitastorClusterReconciler.ReconcileMonitor | controllers/vitastorcluster_controller.go:109-151 | The same from the monitor on: create and stop, or correct image and replicas. |
| ClusterController.VitastorClusterReconciler.ReconcileAgent | controllers/vitastorcluster_controller.go:153-186 | The same from the agent DaemonSet on. |
| ClusterController.VitastorClusterReconciler.AdoptNodes | controllers/vitastorcluster_controller.go:188-222 | The loop over the agent pods, with failing lookups skipped. |
| ClusterController.AdoptEnds | controllers/vitastorcluster_controller.go:198-220 | The loop ends with an error exactly at the first unscheduled pod; the known nodes are then the old ones, untouched, and one new one, named after its node twice and with the cluster's OSD image, for each other node with an agent pod before that, however many pods it has. |
| ClusterController.CompletePass | controllers/vitastorcluster_controller.go:83-222 | What a pass that no failing call cuts does, stage by stage, with its early ends. |
| ClusterController.Int32Is | controllers/vitastorcluster_controller.go:107 | The replica number is converted to 32 bits: in range, the same modulo 2^32, and unchanged if it fits. |
| ClusterController.PassLeaves | controllers/vitastorcluster_controller.go:83-186 | What such a pass leaves in plain values: levels 99, 100 and 101, the monitor with the spec's image and, if they fit 32 bits, the spec's replicas, and the spec's agent image once there was a monitor. |
| ClusterController.PassWithoutCluster | controllers/vitastorcluster_controller.go:102-106 | A pass for a cluster that is gone writes the level table and nothing else. |
| ClusterController.PassIsIdleIffBroughtUp | controllers/vitastorcluster_controller.go:83-222 | Such a pass changes nothing if and only if level table, monitor image and replicas, agent image and the nodes of all pods it gets to are as the spec asks. |
| ClusterController.ThreePassesBringUp | controllers/vitastorcluster_controller.go:109-222 | From any state, three such passes bring the cluster up and have adopted exactly the nodes of the agent pods before the first unscheduled one; a fourth changes nothing and ends with an error exactly if there is one. |
| BringUp.EventBuildsOn | controllers/vitastorcluster_controller.go:83-222 | No event of the operator takes back a stage the cluster has reached, and each completed pass reaches the next, from monitor to agents to nodes. |
| BringUp.ThreeCompletionsBringUp | controllers/vitastorcluster_controller.go:109-222 | In any interleaving, with failed calls, restarts and the node controller's writes in between, the cluster is brought up once three passes have completed. |
| BringUpRuns.BringUpExists | controllers/vitastorcluster_controller.go:62-223 | From every state in which the cluster worker is idle there is such a run: three requests that the worker gets through. |
| Operator.EventIsAtomic | controllers/vitastornode_controller.go:136-181 | In any interleaving, when a worker puts a map, the stored map is still the one it read, so its read-modify-write acts as one update. |
| Operator.InterleavingLosesNothing | controllers/vitastornode_controller.go:467-470 | Etcd after any interleaving of the four controllers, with failing calls, restarts and edits, is what the updates give when applied one by one in the order of their Puts. |
| Operator.TwoWorkersLoseAnUpdate | controllers/vitastornode_controller.go:136-181 | Two workers that have both read the map and then both put it lose the first one's host entry. |
| PassEvents.NodePassAfresh | controllers/vitastornode_controller.go:467-470 | In any state of the operator, a failed node call, a new request and n calls of the worker are the first n calls of a whole new pass, with nothing else changed. |
| PassEvents.OsdPassAfresh | controllers/vitastorosd_controller.go:224-228 | The same of the OSD controller. |
| PassEvents.ClusterPassAfresh | controllers/vitastorcluster_controller.go:62-223 | The same of the cluster controller. |
| PassEvents.PoolPassAfresh | controllers/vitastorpool_controller.go:71-159 | The same of the pool controller. |
| PassEvents.PoolGetsPublished | controllers/vitastorpool_controller.go:88-158 | In any state of the operator a pool is published, with its class, by one request that its worker gets through. |
| Writes.StepsWriteOwnFields | controllers/vitastornode_controller.go:277-392 | No call of the four controllers takes back what somebody else wrote in a VitastorNode's spec, in the place of a VitastorOSD or StatefulSet or in a StorageClass, none writes pools or clusters, and none removes any of these but a VitastorOSD. |
| Writes.MonitorIsWrittenByField | controllers/vitastorcluster_controller.go:134-151 | Of the monitor image and replicas are written one at a time; the other one stays as it is. |
| Writes.RefusedCallsChangeNothing | controllers/vitastornode_controller.go:335-339 | A create of what exists, an update of what has changed since it was read, and a delete of what is gone end the worker's pass and change no store. |
| SerialRuns.AloneLooksAlike | controllers/vitastornode_controller.go:136-181 | A controller cannot tell another one's step from an edit of API objects. |
| SerialRuns.DoingsAre | controllers/vitastornode_controller.go:467-470 | What a worker does in a run of its own events is the run itself; in a run of others, restarts aside, it is nothing. |
| SerialRuns.DoingsJoin | controllers/vitastornode_controller.go:467-470 | What it does in two runs after each other is what it does in the first and then what it does in the second. |
| SerialRuns.RunAloneLooksAlike | controllers/vitastornode_controller.go:136-181 | By itself, with such edits in between, a controller goes through the same passes, call by call, and leaves its key the same. |
| SerialRuns.InterleavingHasSerialRun | controllers/vitastornode_controller.go:467-470 | Every interleaved run has a serial one, in which node, cluster and pool controller run one after the other, each doing call by call what it did before, with edits of API objects in between; etcd ends the same. |
| SharedTree.SeparateIff | controllers/vitastornode_controller.go:152-165 | The names that share the map can be kept apart exactly if no name is both a node's and a datacenter's and none is a numeral without leading zeros. |
| SharedTree.StepIsOk | controllers/vitastornode_controller.go:152-165 | Every event of the interleaved operator keeps the tree a forest with each kind of name on its level. |
| SharedTree.TreeIsAlwaysAForest | controllers/vitastornode_controller.go:142-181 | In every state reachable by any interleaving, with each pass cut anywhere, the map is a forest; no key is ever lost and no datacenter entry is ever altered, whoever set its parent. |
| SharedTree.ReachableTreesAreShallow | controllers/vitastorcluster_controller.go:84-98 | Started without a map, no reachable tree has a walk of more than three entries. |
| Settling.NodeMoveDescends | controllers/vitastornode_controller.go:298-394 | A move of the node controller lowers the joint measure although it may add to the StatefulSets' debt. |
| Settling.WorkDescends | controllers/vitastorosd_controller.go:184-218 | A call of the OSD controller that changes a StatefulSet lowers the measure, also when the object it acts on is out of date. |
| Settling.ActionDescends | controllers/vitastorosd_controller.go:169-221 | No action of either controller, of the garbage collector or of a restart raises the measure; each one that changes an object lowers it. |
| Settling.ReconcilesWhatIsOff | controllers/vitastorosd_controller.go:183-218 | A pass of the OSD controller changes something exactly when the StatefulSet is missing or has another image. |
| Settling.SetsAreQuietIffNoDebt | controllers/vitastorosd_controller.go:183-218 | OSD controller and garbage collector are both idle exactly when no StatefulSet is missing, outdated, or of a deleted object. |
| Settling.RestIffNothingToChange | controllers/vitastorosd_controller.go:183-218 | Without deadlocked nodes, nobody has anything to change if and only if all nodes have converged and all StatefulSets agree. |
| Settling.RestMeansServed | controllers/vitastorosd_controller.go:59-88 | At rest the StatefulSets are exactly those of the VitastorOSDs, with their path and node and the node's image, and every reported partition is covered. |
| Leftovers.PassLeaves | controllers/vitastorosd_controller.go:183-218 | An uncut pass leaves its object's StatefulSet, made new or with only its image changed, and all others as they were. |
| Leftovers.SetIsRightIffItBelongs | controllers/vitastorosd_controller.go:183-218 | It is the StatefulSet the object asks for if and only if none was found, or one with the object's own node and path. |
| Leftovers.LeftoverKeepsItsNode | controllers/vitastorosd_controller.go:210-218 | When an OSD's disk has moved to another node and the pass for the new object comes before the garbage collector, the StatefulSet keeps the old node and path and gets the new image. |
| Leftovers.LeftoverExample | controllers/vitastorosd_controller.go:210-218 | The same with literal objects. |
| OperatorRuns.EventMoves | controllers/vitastornode_controller.go:92-397 | Every event of the whole operator is one enabled move on the VitastorOSDs or leaves them alone. |
| OperatorRuns.EventActs | controllers/vitastorosd_controller.go:169-221 | Every event of the whole operator is an action of the two object controllers or nothing to them. |
| OperatorRuns.ObjectChangesCount | controllers/vitastornode_controller.go:298-394 | The number of object changes in a run is the number of places at which the VitastorOSDs or StatefulSets before and after the event differ. |
| OperatorRuns.ObjectChangesAreBounded | controllers/vitastornode_controller.go:298-394 | In any interleaving with fixed reports and images, failing calls and restarts included, the number of object changes plus the measure at the end is at most the measure at the start. |
| OperatorRuns.InterleavingKeepsDeadlocks | controllers/vitastornode_controller.go:335-339 | The deadlocked sets are the same throughout any interleaved run, and the objects of their nodes are never touched. |
| OperatorProgress.CompletionProgresses | controllers/vitastornode_controller.go:286-396 | The last step of a completed pass of a node that finds its names free converges the node or fixes one of its images. |
| OperatorProgress.NodeConvergesInterleaved | controllers/vitastornode_controller.go:286-396 | In any interleaving, a node whose names are free and that has m wrong images has converged once m+1 of its passes have completed. |
| OperatorProgress.SegmentsConverge | controllers/vitastornode_controller.go:298-394 | Without a deadlocked set, as many fair segments of an interleaved run as there are unconverged nodes and wrong images converge every node. |
| OperatorProgress.DiskMovesInterleaved | controllers/vitastornode_controller.go:298-394 | After that many fair segments of any interleaved run every node has converged if and only if at the start there was neither a cycle of waiting nodes nor a name held for good. |
| OperatorRecovery.EventStaysOnCourse | controllers/vitastornode_controller.go:152-366 | No event of the operator takes a reported entry out of the placement map or changes its parent. |
| OperatorRecovery.CompletionPlaces | controllers/vitastornode_controller.go:298-366 | In any interleaving a completed pass of a node that finds its names free has written the entry of every reported partition. |
| OperatorRecovery.NodeRecoversInterleaved | controllers/vitastornode_controller.go:299-366 | Whatever cut passes have left, and in any interleaving, m+1 completed passes give every reported partition of a node its object and its placement entry. |
| FairRuns.FairSegmentExists | controllers/vitastornode_controller.go:92-397 | From every state in which the node controller is idle there is a fair segment, so the theorems about them are not empty. |
| ReachingRest.QuietIsDone | controllers/vitastorosd_controller.go:169-221 | A thorough stretch that does not lower the measure has found nothing left to do. |
| ReachingRest.OperatorComesToRest | controllers/vitastorosd_controller.go:169-221 | If no node is blocked, then in any interleaving, after as many thorough stretches as the measure says, every reported partition has its object and the StatefulSets are exactly those of the objects, with the right node, path and image. |
| ThoroughRuns.ThoroughStretchExists | controllers/vitastorosd_controller.go:169-221 | From every state in which both object controllers are idle there is a thorough stretch, so the theorem is not empty. |

## Left out

- NodeRuns.DiskMoves: like all results on convergence, says nothing about reports that carry one OSD number twice, or one device path twice on a node; two partitions then compete for one name or one object.
- Settling.ActionDescends: one weighted number stands for the lexicographic measure.
- JSON text, HTTP and the etcd and Kubernetes clients: values are typed, decoding after encoding is the identity on the typed fields, and an undecodable agent body is an empty report. Fields of the stored maps that the Go structs do not know, which a rewrite drops, an undecodable or null etcd value, and unencodable data are not modelled.
- Optimistic concurrency: an update is refused when the stored object differs from the one read; a resource version that changed and changed back is not told apart.
- Informer caches: reads see all earlier writes of the operator.
- Owner references: object identity is not stored. Which StatefulSets were made for deleted objects follows from the history of the run, and at its start is given; a VitastorOSD whose spec was edited after its StatefulSet was made is not covered by the results on rest. Cascading deletion is an edit.
- Edits of VitastorOSDs by others are part of the runs of the results on etcd and the tree; the results on convergence and rest take the VitastorOSDs as changed by the operator alone, and the StatefulSets by the operator and the garbage collector.
- Lookup of a VitastorNode with an empty name counts as not found, as the manager's cache answers it.
- The VitastorNode and the Kubernetes node are read in one step, as nothing is written between the two reads.
- A panic ends one worker's pass. In the Go process it may end the whole operator; the runs include that as a restart right after.
- The three GETs to the agent are one step, in which nothing else happens; a failing agent pod list is a failed pass.
- Timing: requeue delays only mean that another pass may follow; the three minutes after an image change are no barrier.
- Strings: names are compared character by character, where Go compares bytes.
- Pod templates, volumes, resource limits, ports, selectors, namespaces and RBAC: of the StatefulSet, Deployment and DaemonSet only name, node, path, image and replicas are kept.
- `agent/vitastor-agent.py`: agents are the environment that supplies reports.
- Configuration file and environment variables, logging, `main.go`, generated deep copies, YAML manifests, Dockerfiles and the test bootstrap.
- Things the code does not do and nothing is claimed about: passing the cluster's OSD image on to an existing VitastorNode, removing old placement or pool entries.
