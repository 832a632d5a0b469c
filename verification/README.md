# A verified model of the local-disk CSI driver

The driver gives Kubernetes pods volumes on the local disks of their node. It makes LVM logical
volumes on demand, lets a volume fail over to another node by moving an ownership record on the
PersistentVolume (PV) and making a fresh volume there, and has three collectors that remove what is
left behind: a failover reconciler and an orphan scanner on every node, and a controller that
releases PVs whose nodes are gone. A webhook pins pods to the nodes that own their volumes.

This project models that logic in Dafny and proves what it is for. `dafny verify dfyconfig.toml`
checks all of it.

## How it is built

Code that changes state step by step is a class or a method with loops; code that only computes is a
function. The lvm2 commands and the API server are environment: each is a method with the contract
the driver relies on (round up to extents, refuse without space, refuse what is in use or exists),
and each may also fail with `Fault`, changing nothing. So every contract reads "a fault, or exactly
this answer"; and on a node and an API server that are `reliable`, where nothing fails for outside
reasons, the fault is excluded and the answer is the only one.

| file | what it holds |
|---|---|
| `Text.dfy`, `VolumeIds.dfy` | case folding, splitting, trimming, decimal numbers; volume ids and their two parsers |
| `Probe.dfy` | the device filter and the disk scan |
| `Lvm.dfy` | a node's LVM state, the commands, stale device nodes, extent arithmetic |
| `Provisioner.dfy`, `Capacity.dfy` | EnsureVolume and what it calls; the capacity estimate |
| `Accounting.dfy` | where the bytes of a group are, over whole runs |
| `Shutdown.dfy`, `DeviceSafety.dfy` | cleanup at shutdown; foreign disks over whole runs |
| `Flights.dfy`, `FlightRuns.dfy` | concurrent volume group provisioning through singleflight; how fresh its answers are |
| `Kube.dfy` | PVs, nodes, and the four owner lookups |
| `Volumes.dfy`, `Servers.dfy` | create, expand and delete of a volume; the CSI calls around them |
| `Gc.dfy`, `Fleet.dfy` | both collectors; convergence and broadcast delete over all nodes |
| `Protocol.dfy` | the whole protocol as a state machine over any number of nodes and volumes |
| `GcSafety.dfy`, `SizeSafety.dfy` | what holds over every run of it |
| `Moves.dfy`, `Races.dfy`, `Scenarios.dfy` | single moves, the paths on which a theorem fails without one of its conditions, and those paths as runs from the start |
| `Refinement.dfy` | the server and reconciler calls are runs of the protocol; convergence from every reachable state |
| `PvCleanup.dfy` | the finalizer state machine and the node cache transform |
| `Webhook.dfy` | the affinity rewrite and its meaning to the scheduler |

The relations that the methods are proved to satisfy (`Ensured`, `Expanded`, `Deleted`, `Orphaned`,
`Reconciles`, `AtMostDropped`) are the very relations the protocol's steps are made of.

## What the proofs found

- *Garbage collection and the latest successful stage.* "Collection on n never removes a volume
  whose latest successful stage was on n" is false even when no stage falls between a check and its
  delete: a stage elsewhere moves the owner record before it makes the volume, and when it then
  fails the old owner's reconciler removes the only copy (`Races.FailedHandover`, and as a run from
  the start `Scenarios.HandoverRun`). What the collectors go by is the latest *claim*, the moment a
  stage finds or puts its node on record: in every reachable state they flag a claimed volume on a
  node if and only if an owner is on record and that node is not the latest claimant
  (`GcSafety.SparesOnlyClaimant`). So the claiming node keeps the volume as long as no other node
  claims it and the PV exists, if no removal of it was already decided there when it claimed
  (`GcSafety.OwnerKeepsVolume`). Each of the three conditions is needed: `Scenarios.HandoverRun`,
  `Scenarios.GoneRun` and `Scenarios.ScanRaceRun` are runs from the start that drop one and lose the
  volume.
- *Sizes.* Nothing serialises NodeExpandVolume, and it is not an error when it cannot read the PV.
  The size survives failover in every orderly run (`SizeSafety.SizeSurvivesFailover`): expansions
  read the PV, run where the volume was last staged, and between their extend and their patch meet
  no other expansion and no stage with its request in hand, and stages read the PV. A stage that has
  read the PV and still has to move the record is harmless. Every clause of that order is needed: for
  each there is a run from the start that breaks it in exactly one step (`SizeSafety.BrokenOnlyAt`)
  and in which a size that was reported is lost (`Scenarios.OverlapRun`, `StaleStageRun`,
  `StalePatchRun`, `LostCopyRun`, `UnreadRun`, `ElsewhereRun`, `BlindRun`). In any run, orderly or
  not, the record shrinks exactly at a patch that is behind it (`SizeSafety.ShrinksExactly`), and a
  stage leaves exactly the healthy volume it finds or its own request rounded up
  (`SizeSafety.StageLeaves`).
- *Limits.* A create can succeed with a size past its limit, because the size is not compared again
  after rounding up: exactly when the volume has to be made and the capacity rounded up to the stripes
  is past it (`Provisioner.EnsuredSize`), as with five MiB and a limit of five MiB on one disk
  (`Scenarios.PastLimit`). Every later stage of that volume is then refused
  (`Volumes.StageAfterCreate`), repeating the call reports a size mismatch
  (`Provisioner.RepeatedEnsure`), and an expansion past the limit has the same effect, since
  NodeExpandVolume does not look at it (`Volumes.StageAfterExpand`).
- *Capacity.* Every request up to the estimate fits exactly when the disks have equally many usable
  extents (`Capacity.EstimateFits`). What is reported for a group and the sizes of its volumes add up to
  the same over every run, faults included (`Accounting.SpaceConserved`), unless another group is made
  first: the same disks are reported for every missing group, and the first one takes them all
  (`Accounting.RivalTakesAll`).
- *Stale device nodes.* The argument in the source comments holds exactly up to another process that
  makes the group during the flight, after the flight's own guard found none
  (`Flights.CleanupIsSafe`, `FlightRuns.CleanupWindow`, `Flights.ElsewhereRun`).
- *Failover mode.* The last PV's mode counts, and a missing last PV resets it
  (`Webhook.DurabilityLost`).
- *Case.* The reconciler's event filter compares node names exactly while everything else folds
  case; `Gc.AcceptedEvent` says when an accepted event is a mismatch.
- *Crash.* A reconcile of a PV without a CSI source dereferences nil in a log line
  (`Gc.Reconcile` answers `Panic`); an accepted event never leads there.

## Model

| member | source | states |
|---|---|---|
| VolumeIds.ParsePrintId | internal/csi/core/lvm/id.go:24-59 | the printed form is the two names with `#` between; printing then parsing gives the id back exactly when both names are non-empty and free of `#`, and is rejected otherwise |
| VolumeIds.PrintParse | internal/csi/core/lvm/id.go:42-59 | whatever parses prints back to the same string |
| VolumeIds.PrintInjective | internal/csi/core/lvm/id.go:24-40 | distinct printable ids never share a string |
| VolumeIds.ParsersAgree | internal/gc/utils.go:37-55 | the driver's and the collector's parser accept the same strings, the printed ids, and read the same names |
| Text.ParsePrint | internal/csi/core/lvm/controller.go:98-106 | a size written as a decimal string reads back as itself |
| Text.ParseMeaning | internal/csi/node/node.go:493-527 | exactly the non-empty strings of digits read as a number, the one they stand for in decimal |
| Text.PrintMeaning | internal/csi/core/lvm/controller.go:98-106 | a size is written as the digits that stand for it, without a leading zero |
| Text.FoldMeaning | internal/gc/utils.go:14-33 | two names are equal up to case iff they have the same length and each pair of characters is equal or the same ASCII letter, 32 codes apart |
| Text.FoldWithoutCapitals | internal/csi/node/node.go:391-418 | names without capitals are equal up to case iff they are equal |
| Text.TrimMeaning | internal/pkg/probe/filter.go:54-71 | trimming cuts off all white space at both ends and nothing else |
| Probe.AppendUnique | internal/pkg/probe/filter.go:54-71 | the merged list has the trimmed non-empty entries of both lists, each once, at its first occurrence and in order |
| Probe.NewEphemeralDiskFilter | internal/pkg/probe/filter.go:29-49 | each part of the filter is the merge of its defaults and addons, defaults as the prefix |
| Probe.FilterMonotone | internal/pkg/probe/filter.go:29-144 | enlarging the addon lists never deselects a device |
| Probe.MatchMeaning | internal/pkg/probe/filter.go:29-144 | a device matches iff its path starts with an entry of the path list, its trimmed model equals an entry of the model list up to case, and its type an entry of the type list up to case, each list led by its defaults |
| Probe.DefaultsFirst | internal/pkg/probe/filter.go:54-71 | the merged list starts with the defaults in their order, whatever the addons are |
| Probe.ScanAvailableDevices | internal/pkg/probe/probe.go:39-79 | exactly the devices that match and are blank or LVM2, in input order, or the error for none; a matching device that cannot be probed is a fault |
| Probe.AvailableSplit | internal/pkg/probe/probe.go:39-79 | each device is judged for itself and keeps its place in the result |
| Lvm.AllocatedCovers | internal/pkg/lvm/fake.go:101-123 | rounding up to extents times stripes gives at least the request, by less than one stripe row |
| Lvm.AllocatedLeast | internal/pkg/lvm/fake.go:101-123 | the size given is the least multiple of the stripes times 4 MiB that covers the request |
| Lvm.UsableMeaning | internal/csi/core/lvm/controller.go:392-394 | a disk has as many extents as 4 MiB fit behind its first MiB |
| Lvm.CreateThenRemove | internal/pkg/lvm/fake.go:101-129 | removing a volume just made gives every extent back: groups and volumes are as before |
| Lvm.Manager.IsLogicalVolumeCorrupted | internal/pkg/lvm/lvm.go:940-982 | in metadata without a device file, and nothing else; invalid names are refused |
| Lvm.Manager.CreatePhysicalVolume | internal/pkg/lvm/lvm.go:214-250 | labels a blank disk, accepts an LVM2 one unchanged, refuses a foreign one |
| Lvm.Manager.CreateVolumeGroup | internal/pkg/lvm/lvm.go:403-420 | vgcreate: the whole new state from free disks only, and each refusal with its cause |
| Lvm.Manager.CreateLogicalVolume | internal/pkg/lvm/lvm.go:689-724 | lvcreate: the allocated size and the whole new state, or a refusal with its cause (no space, no group, exists, bad arguments) and no change |
| Lvm.Manager.RemoveLogicalVolume | internal/pkg/lvm/lvm.go:745-767 | lvremove: only that volume goes, in-use and missing ones are refused |
| Lvm.Manager.ExtendLogicalVolume | internal/pkg/lvm/lvm.go:786-815 | lvextend: the new size and the whole new state, or a refusal with its cause (no space, no volume, not larger) and no change |
| Lvm.Manager.RemoveStaleDeviceMapperNodes | internal/pkg/lvm/lvm.go:1006-1081 | no-op while the group exists; otherwise no file of a volume in metadata goes, success means that no file is left under the directory, no other directory goes, and if nothing fails this one is gone |
| Provisioner.Driver.EnsurePhysicalVolume | internal/csi/core/lvm/lvm.go:401-444 | the disk is labelled if it was not, and its group is returned |
| Provisioner.Driver.EnsurePhysicalVolumes | internal/csi/core/lvm/lvm.go:356-399 | returns, in order, the scanned disks in no other group, all scanned disks labelled |
| Provisioner.FreeSplit | internal/csi/core/lvm/lvm.go:356-399 | of the scanned disks exactly those that are no physical volume, or one in no group or in this group, are kept, each in its place |
| Provisioner.Driver.ProvisionVolumeGroup | internal/csi/core/lvm/lvm.go:293-349 | the group exists on success and was made of free disks; an existing one changes nothing; a failure leaves at most device files different or the finished group, and each error has its cause; if nothing fails outside, no fault is answered |
| Provisioner.Driver.EnsureVolumeGroup | internal/csi/core/lvm/lvm.go:249-287 | what ProvisionVolumeGroup states, for any list of devices, with the checks for an empty name and an empty list before it |
| Provisioner.Driver.CreateGroup | internal/csi/core/lvm/lvm.go:548-565 | the missing group is made of exactly the eligible disks, or there are none; a fault leaves some disks labelled or the group made |
| Provisioner.Driver.CreateMissing | internal/csi/core/lvm/lvm.go:538-601 | a missing volume: the planned outcome, or a fault with how far it can have got |
| Provisioner.Driver.EnsureVolume | internal/csi/core/lvm/lvm.go:449-602 | the contract `Ensured`: one answer for every request and state, or a fault with how far it can have got; no fault on a reliable node |
| Provisioner.EnsuredMeaning | internal/csi/core/lvm/lvm.go:449-602 | success means a healthy volume of the returned size, at least the capacity; a corrupted one has been replaced; no other volume is touched in any outcome |
| Provisioner.RepeatedEnsure | internal/csi/core/lvm/lvm.go:475-601 | exact idempotence: the same size and no change iff no limit or within it, else size mismatch and no change |
| Provisioner.EnsuredSize | internal/csi/core/lvm/lvm.go:523-601 | the size a successful call ends with: that of the healthy volume it finds, else the capacity rounded up to whole stripe rows; past the limit iff the volume has to be made and the rounded capacity is |
| Capacity.EnsureSucceeds | internal/csi/core/lvm/lvm.go:449-602 | without faults it succeeds iff id, names and range are good and the volume is there, healthy and within the range, or no disk of its group, or of the group to be made, is short of its equal share in 4 MiB extents, where a corrupted volume not in use gives its extents back |
| Capacity.AvailableCapacity | internal/csi/core/lvm/controller.go:330-406 | the group's free bytes, or without a group the estimate over the disks EnsurePhysicalVolumes would return |
| Capacity.EstimateIsGroupFree | internal/csi/core/lvm/controller.go:330-406 | with no group yet the estimate equals the free space of the group provisioning would make of the same disks in the same order |
| Capacity.UsableLargest | internal/csi/core/lvm/controller.go:380-406 | a disk counts with the largest multiple of 4 MiB that fits behind its first MiB, which is what its extents in a group amount to |
| Capacity.EstimateFits | internal/csi/core/lvm/lvm.go:573-601 | every request up to the estimate is provisioned iff the disks have equally many usable extents |
| Capacity.SumInRange | internal/csi/core/lvm/controller.go:380-406 | the running sum stays in int64 when the disks together do |
| Capacity.RoundingInRange | internal/pkg/lvm/fake.go:101-123 | so does rounding a request up, one stripe row below the bound |
| Accounting.EnsureConserves | internal/csi/core/lvm/lvm.go:449-602 | whatever EnsureVolume answers and however far it got, the capacity reported for the group drops by exactly the bytes the volume gains, also when the group is made on the way; no other volume or group changes |
| Accounting.ExpandConserves | internal/csi/core/lvm/node.go:99-128 | the same for NodeExpandVolume |
| Accounting.RemovalConserves | internal/csi/core/lvm/controller.go:131-191 | removing a volume gives exactly its bytes back to what is reported |
| Accounting.SpaceConserved | internal/csi/core/lvm/controller.go:330-406 | over every run of provisioning, expanding and removing, faults included, the capacity reported for a group and the sizes of its volumes add up to the same, as long as no other group is provisioned before it is made |
| Accounting.RivalTakesAll | internal/csi/core/lvm/lvm.go:356-399 | the same capacity is reported for every missing group, and making one of them leaves nothing for the others |
| Shutdown.RemoveVolumeGroup | internal/csi/core/lvm/lvm.go:670-688 | removes the group, tolerates a missing one, touches no volume of another group, and loses none if the group holds none |
| Shutdown.RemovePhysicalVolumes | internal/csi/core/lvm/lvm.go:691-714 | on success exactly the listed physical volumes are gone, and in any outcome nothing else; without outside failures, and for a list without repetitions, it succeeds iff they are in no group |
| Shutdown.Cleanup | internal/csi/core/lvm/lvm.go:618-667 | no outcome loses a volume; a volume in a tagged group means no change at all; success without one leaves no tagged group and no physical volume; on a reliable node it fails iff a physical volume is in a group that is not the driver's |
| DeviceSafety.EnsuredKeepsForeign | internal/csi/core/lvm/lvm.go:356-444 | a device with a foreign signature keeps it and is never labelled, in any outcome of EnsureVolume |
| DeviceSafety.NewGroupDevices | internal/csi/core/lvm/lvm.go:356-399 | whatever the outcome of EnsureVolume, a new group is the requested one, every disk in it matched the filter, was unformatted or LVM2 and was in no group; no disk is added to an existing group |
| DeviceSafety.NewGroupInRun | internal/csi/core/lvm/lvm.go:356-399 | over every run, a group that is new after a step was made by a provisioning call from such disks |
| DeviceSafety.TakenOnlyAfterWipe | internal/pkg/lvm/lvm.go:214-250 | over every run, a disk that was foreign and is later a physical volume was wiped in between by someone else |
| Flights.Holds | internal/csi/core/lvm/lvm.go:266-349 | over every interleaving of callers, the flight that has not landed is the one in the table, and while it provisions the group exists only if another process made it |
| Flights.CleanupIsSafe | internal/pkg/lvm/lvm.go:1001-1081 | stale-node cleanup never removes the file of a volume in metadata, unless another process made the group during that flight |
| Flights.OneFlight | internal/csi/core/lvm/lvm.go:266-272 | no two flights, hence no two vgcreate calls, for one name overlap |
| Flights.ExistsMeansElsewhere | internal/csi/core/lvm/lvm.go:322-342 | vgcreate finds the group existing only when another process made it during the flight |
| Flights.SharedAnswer | internal/csi/core/lvm/lvm.go:266-286 | all callers of a flight get the same group or the same error, for the name they asked for |
| Flights.DisturbedMeans | internal/csi/core/lvm/lvm.go:322-331 | a flight counts as disturbed only by another process making its group after take-off |
| Flights.ElsewhereRace | internal/pkg/lvm/lvm.go:1001-1005 | that exception is real: such a process can lose the file of its volume |
| Flights.ElsewhereRun | internal/pkg/lvm/lvm.go:1001-1081 | and within reach: a run from the start of a process on a node with a leftover file |
| Flights.LoneFlight | internal/csi/core/lvm/lvm.go:293-349 | a flight that nobody interleaves with keeps, from take-off to landing, what the sequential provisioning and cleanup promise |
| FlightRuns.TableHolds | internal/csi/core/lvm/lvm.go:266-286 | in every reachable state no flight in the singleflight table has landed |
| FlightRuns.FreshAnswer | internal/csi/core/lvm/lvm.go:266-286 | no stale answer: the flight a caller shares lands between its call and its return, and a group it is given is the one of that name at that moment |
| FlightRuns.CleanupWindow | internal/pkg/lvm/lvm.go:1001-1081 | a cleanup that removes the file of a volume in metadata had its guard find no group, and another process made the group after that guard |
| Ownership.MismatchMeaning | internal/gc/utils.go:14-33 | mismatch iff an owner is on record and is another node up to case, which is exactly when a stage would move the record to its own node |
| Ownership.HandoverMeaning | internal/csi/node/node.go:391-418 | after a move the new owner is no mismatch and every other name is one |
| Ownership.DistinctNodes | internal/csi/node/node.go:391-418 | with node names free of capitals, a stage on another node moves the record to it, and leaves the old owner a mismatch, iff the names differ |
| Ownership.LookupsAgree | internal/csi/controller/controller.go:197-207 | webhook and DeleteVolume resolve the same owner iff there is no empty annotation hiding a recorded first node |
| Ownership.CreatedRequest | internal/csi/node/node.go:493-527 | a stage reads back the size and limit the create recorded |
| Ownership.RequestMeaning | internal/csi/node/node.go:493-527 | a stage has a request iff a capacity is on record and it and the limit are numerals or empty; the request is the larger of the capacity and a readable expansion, and the limit or zero |
| Ownership.ExpandedRequest | internal/csi/node/node.go:493-527 | recording an expansion makes it the next size asked for; owner and size records do not disturb each other |
| Ownership.AnyExpandedRequest | internal/csi/node/node.go:493-527 | recording any expansion makes the next size asked for the larger of it and the size at create, whatever was recorded before |
| Volumes.Create | internal/csi/core/lvm/controller.go:46-115 | the handle is group, `#` and name, the group `containerstorage` if none is given; the node is left as `Ensured` says for exactly the required bytes, or the limit if none are required, or 1 GiB if neither is given, on success and on error; the context records the allocated size and the limit on top of the parameters |
| Volumes.FreshSize | internal/csi/core/lvm/controller.go:59-115 | a volume that a create made has the required bytes, the limit or 1 GiB, in that order, rounded up to whole stripe rows |
| Volumes.StageAfterCreate | internal/csi/core/lvm/lvm.go:475-601 | a stage of a fresh volume is refused on every node iff the requested capacity rounded up to the stripes of the creating node is past the limit |
| Volumes.StageRefused | internal/csi/core/lvm/lvm.go:475-480 | a stage is refused outright iff the size on record is zero or past the recorded limit, whatever is on the node |
| Volumes.StageAfterExpand | internal/csi/core/lvm/node.go:47-129 | an expansion past the recorded limit makes every later stage refused |
| Volumes.NodeExpandVolume | internal/csi/core/lvm/node.go:47-129 | the contract `Expanded`: one answer for every request and state, or a fault |
| Volumes.ExpandedMeaning | internal/csi/core/lvm/node.go:99-128 | a reported size is the volume's, at least the request and the old size; nothing shrinks, no other volume is touched |
| Volumes.ExpandSucceeds | internal/csi/core/lvm/node.go:47-129 | without faults it succeeds iff the volume is there, a size is asked for, and the volume has it or every disk of its group has room for its equal share in 4 MiB extents |
| Volumes.Delete | internal/csi/core/lvm/controller.go:131-191 | at most that volume changes, and success means gone; on a reliable node it succeeds iff there is a tick, the names are free of `/` and the volume is missing or some tick finds it free, and otherwise says which of these failed |
| Servers.CreateVolume | internal/csi/controller/controller.go:70-143 | bad ranges are refused untouched and good ones never; the node is left as `Ensured` says for exactly the required bytes, the limit or 1 GiB, on success and on error; the context is the parameters with size and limit, and a floating volume has no topology and names its first node, a pinned one the reverse |
| Servers.PinnedTopology | internal/csi/controller/controller.go:409-428 | a PV made of a created volume has the hostname topology iff the volume was pinned, and then every node may act on a delete, otherwise only the owner |
| Servers.DeleteVolume | internal/csi/controller/controller.go:145-268 | the node changes only when it may delete, and then at most that volume goes; on a reliable node and API server the answer in each case: an owner that is no node any more is success without a change, another node that exists is refused, and otherwise the volume is gone as soon as a retry finds it free |
| Servers.NodeStageVolume | internal/csi/node/node.go:329-486 | the contract `Staged`: record first, then the volume as the stored PV asks for it; if nothing fails the PV is read, the owner moved, and success is that of the volume; a raw block volume whose PV cannot be read is staged without either |
| Servers.RecordFirst | internal/csi/node/node.go:381-439 | whenever a stage touched the node, no mismatch is left on record for that node |
| Servers.NodeExpand | internal/csi/node/node.go:555-627 | the contract `Grown`: a size is reported only after the record was written, except when the PV could not be read; on a reliable node and API server the answer is that of `Expanded`, and after a success the next stage asks for at least that size, with limit and owner unchanged |
| Gc.Dispose | internal/gc/lvm_orphan_cleanup.go:210-254 | at most the named volume goes; success means it is gone; bad ids change nothing |
| Gc.Reconcile | internal/gc/failover_pv_cleanup.go:61-148 | the node changes only for an Available or Bound PV of the driver that is not being deleted and is owned elsewhere, and success, certain if nothing fails, means its volume is gone; what does not concern it is a success without a change; a PV without a CSI source crashes it |
| Gc.NoMissedHandover | internal/gc/failover_pv_cleanup.go:158-199 | every owner change by a stage passes the old owner's filter and then decides to clean up |
| Gc.ReconcilesMeaning | internal/gc/failover_pv_cleanup.go:75-106 | a node cleans up iff the PV is the driver's, Available or Bound and not being deleted, and the owner on record is another node up to case; it crashes iff there is no CSI source |
| Gc.EventMeaning | internal/gc/failover_pv_cleanup.go:158-199 | an update concerns a node iff the PV is the driver's, the node was the owner on record, and the annotation now has another name |
| Gc.AcceptedEvent | internal/gc/failover_pv_cleanup.go:158-199 | an accepted event never crashes, and is a mismatch iff the names differ in more than case |
| Gc.ShouldCleanup | internal/gc/lvm_orphan_cleanup.go:150-190 | true iff no PV of the driver carries the handle or the one that does is owned elsewhere |
| Gc.Collect | internal/gc/lvm_orphan_cleanup.go:83-131 | the handles found are exactly the orphans of the scanned groups, when no listing or check failed |
| Gc.DeleteAll | internal/gc/lvm_orphan_cleanup.go:193-207 | only the collected volumes go, the counts add up, and without a failure all of them are gone |
| Gc.Scan | internal/gc/lvm_orphan_cleanup.go:78-147 | only orphans of scanned groups go, and all of them when nothing failed, as is certain on a reliable node |
| Fleet.Converges | internal/gc/lvm_orphan_cleanup.go:83-190 | once every node was scanned, in any order, volumes are only where a PV backs them and further scans change nothing |
| Fleet.OneKeeper | internal/gc/utils.go:14-33 | two settled nodes keep the same volume only if no owner is on record |
| Fleet.BroadcastDelete | internal/csi/controller/controller.go:187-263 | DeleteVolume on all nodes, in any order with any retries, changes only the owner and there at most that volume |
| Protocol.StoreHolds | internal/csi/node/node.go:381-439 | in every reachable state each PV is the driver's, named after its volume, with a size on record and owners that are nodes |
| Protocol.HandlesUnique | internal/gc/lvm_orphan_cleanup.go:305-323 | at most one PV carries a handle, and looking it up finds that PV |
| Protocol.LowerCaseNames | internal/csi/node/node.go:391-418 | the assumption on node names holds for every set of non-empty names without capitals |
| Protocol.OwnersAgree | internal/csi/controller/controller.go:197-207 | in every reachable state the owner is a non-empty node name and stage, DeleteVolume, collection and webhook agree on it |
| GcSafety.ClaimsHold | internal/csi/node/node.go:381-439 | in every reachable state the owner on record is the latest claimant, and a removal decided against it was decided before its claim |
| GcSafety.SparesOnlyClaimant | internal/gc/utils.go:14-33 | in every reachable state the orphan check on a node flags a claimed volume iff an owner is on record and the node is not the latest claimant, and the reconciler decides to clean up iff, moreover, the PV is Available or Bound and not being deleted |
| GcSafety.OwnerKeepsVolume | internal/gc/failover_pv_cleanup.go:98-145 | GC safety over every run: a node that claimed the volume with no removal of it decided there keeps it while no other node claims it and the PV exists |
| GcSafety.DeleteWasChecked | internal/gc/lvm_orphan_cleanup.go:109-143 | under any interleaving each volume a scan deletes failed the ownership check earlier in that same scan |
| GcSafety.SameScan | internal/gc/lvm_orphan_cleanup.go:78-147 | a scan under way at two moments is under way all the time between |
| GcSafety.HandoverSeen | internal/gc/failover_pv_cleanup.go:158-199 | in every run each handover is an event the old owner's filter accepts and its reconcile acts on |
| GcSafety.StageWasClaimed | internal/csi/node/node.go:381-439 | a stage that reaches its volume had claimed it |
| Races.FailedHandover | internal/csi/node/node.go:391-439 | a stage elsewhere that moves the record and then fails leads to the loss of the volume on the node of the latest successful stage, of the only copy if there was no other |
| Races.StageRacesScan | internal/gc/lvm_orphan_cleanup.go:109-143 | a stage between a scan's check and its delete loses the volume it staged |
| Races.GoneIsCollected | internal/gc/lvm_orphan_cleanup.go:150-190 | once the PV is gone a scan removes the volume, whoever claimed it |
| Races.OverlappingExpansions | internal/csi/node/node.go:589-622 | two overlapping expansions, the smaller patching last, take the record down from a size already reported |
| Races.StageRacesExpansion | internal/csi/node/node.go:381-439 | a stage with its request in hand before the extend makes the volume at the old size after the new one was reported |
| Races.StageRacesPatch | internal/csi/node/node.go:599-622 | so does a stage that gets its request in hand between the extend and the patch |
| Races.ReadRacesPatch | internal/csi/node/node.go:381-439 | so does a stage on the node itself that reads the PV between the extend and the patch, once the node has lost the volume |
| Races.UnreadExpansion | internal/csi/node/node.go:589-622 | an expansion that could not read the PV reports a size that is on no record, and the next stage elsewhere makes the old one |
| Races.ExpansionElsewhere | internal/csi/node/node.go:589-622 | an expansion of the old copy on a node the volume has left takes the record down to that copy's size |
| Races.BlindStage | internal/csi/node/node.go:366-373 | a stage that could not read the PV succeeds with the old copy, smaller than a size reported |
| Scenarios.HandoverRun | internal/csi/node/node.go:391-439 | a run from the start to the failed handover that loses the only copy |
| Scenarios.ScanRaceRun | internal/gc/lvm_orphan_cleanup.go:109-143 | a run from the start to the stage that a scan overtakes |
| Scenarios.GoneRun | internal/gc/lvm_orphan_cleanup.go:150-190 | a run from the start to the collection of a claimed volume whose PV is gone |
| Scenarios.OverlapRun | internal/csi/node/node.go:589-622 | a run from the start, out of order in exactly one step, in which the record goes down from three extents, reported, to two |
| Scenarios.StaleStageRun | internal/csi/node/node.go:381-439 | a run from the start, out of order in exactly one step, in which a stage makes one extent after two were reported, its request taken before the extend |
| Scenarios.StalePatchRun | internal/csi/node/node.go:599-622 | the same with the request taken between extend and patch |
| Scenarios.LostCopyRun | internal/csi/node/node.go:381-439 | the same on the volume's own node, which loses the volume after the size was reported |
| Scenarios.UnreadRun | internal/csi/node/node.go:589-622 | the same with no calls overlapping, the expansion not having read the PV |
| Scenarios.ElsewhereRun | internal/csi/node/node.go:589-622 | a run from the start, out of order in exactly one step and with no calls overlapping, in which an expansion on the node the volume has left takes the record from two extents, reported, to one |
| Scenarios.BlindRun | internal/csi/node/node.go:366-373 | a run from the start, out of order only in its last step, a stage without the PV that succeeds with one extent after two were reported |
| Scenarios.PastLimit | internal/csi/core/lvm/lvm.go:567-601 | five MiB with a limit of five MiB on one disk is created with eight |
| SizeSafety.SizesHold | internal/csi/node/node.go:599-622 | in every orderly run the record covers each reported size, stages in flight ask for it, the staged copy is as large, and an expansion between extend and patch is ahead of the record by a size the volume has |
| SizeSafety.RecordNeverShrinks | internal/csi/node/node.go:493-527 | in every orderly run the size on record never shrinks while the PV exists |
| SizeSafety.SizeSurvivesFailover | internal/csi/core/lvm/lvm.go:523-601 | in every orderly run each successful stage on any node leaves a volume at least as large as every size reported before |
| SizeSafety.ShrinksExactly | internal/csi/node/node.go:605-622 | in every run, orderly or not, a step takes the record down iff it is an expansion's patch of a smaller size than the record, not the one its copy had, over an expansion on record |
| SizeSafety.StageLeaves | internal/csi/core/lvm/lvm.go:523-601 | in every run a successful stage ends with exactly the healthy volume it finds, which meets its request, or its request rounded up to the node's stripes |
| Refinement.StageIsPath | internal/csi/node/node.go:329-486 | every undisturbed NodeStageVolume that reads its PV is a run of the protocol's stage steps |
| Refinement.ExpandIsPath | internal/csi/node/node.go:555-627 | every undisturbed NodeExpandVolume is a run of the protocol's expansion steps, also when its patch is empty |
| Refinement.CreateIsStep | internal/csi/controller/controller.go:70-143 | what CreateVolume states of a volume it made is the protocol's create step, and the volume with its context is what a PV can be made of |
| Refinement.ReconcileIsPath | internal/gc/failover_pv_cleanup.go:61-148 | what a failover reconcile may do to its node is the protocol's check followed by its delete |
| Refinement.ReachableConverges | internal/gc/lvm_orphan_cleanup.go:83-190 | convergence from every reachable state |
| PvCleanup.ExtractHostnames | internal/manager/pvcleanup/controller.go:160-175 | the values of the topology requirements, in order |
| PvCleanup.HostnamesMeaning | internal/manager/pvcleanup/controller.go:160-175 | a hostname is in the list iff some requirement of some term has it |
| PvCleanup.HostsSplit | internal/manager/pvcleanup/controller.go:160-175 | each term adds its hostnames in its place |
| PvCleanup.TermHostsSplit | internal/manager/pvcleanup/controller.go:160-175 | each requirement adds its values in its place iff it is an In on the driver's topology key |
| PvCleanup.NodeReady | internal/manager/pvcleanup/controller.go:178-185 | true iff there is a condition of kind Ready and the first one is True |
| PvCleanup.DropFinalizers | internal/manager/pvcleanup/controller.go:127-140 | the finalizer list without the two managed ones |
| PvCleanup.OthersMeaning | internal/manager/pvcleanup/controller.go:127-140 | no managed finalizer is left, every other one as often as before |
| PvCleanup.OthersSplit | internal/manager/pvcleanup/controller.go:127-140 | what goes are the finalizers of pv-protection and of the external provisioner, and all others keep their order |
| PvCleanup.FindReady | internal/manager/pvcleanup/controller.go:86-98 | true iff a listed node that could be read is Ready |
| PvCleanup.Reconcile | internal/manager/pvcleanup/controller.go:37-156 | does exactly what the decision on the nodes that can be read says, or fails and does nothing |
| PvCleanup.DroppedOnlyWhenAbandoned | internal/manager/pvcleanup/controller.go:37-156 | over every run a managed finalizer goes only in a reconcile that found the PV abandoned and already marked for deletion, and that very step drops it |
| PvCleanup.ReconcileKeepsOthers | internal/manager/pvcleanup/controller.go:127-156 | every other finalizer is kept in order, and the PV goes only when none is left |
| PvCleanup.TwoReconcilesFinish | internal/manager/pvcleanup/controller.go:106-156 | two reconciles without a failure finish the job |
| PvCleanup.TrimNode | internal/manager/transform/node.go:28-53 | keeps identity and the first Ready condition, drops the rest |
| PvCleanup.TrimKeepsReady | internal/manager/transform/node.go:28-53 | trimming keeps readiness, with repeated Ready conditions too |
| PvCleanup.TrimTwice | internal/manager/transform/node.go:28-53 | trimming twice is trimming once |
| PvCleanup.TrimKeepsDecisions | internal/manager/pvcleanup/controller.go:87-104 | cleanup over trimmed nodes decides as over full ones, for every PV and set of nodes |
| Webhook.PatchPod | internal/webhook/hyperconverged/handler.go:183-247 | earlier terms kept in order, one term added to the required or the preferred ones, nothing else changed |
| Webhook.RewriteMeaning | internal/webhook/hyperconverged/handler.go:203-247 | what each mode does to the set of feasible nodes |
| Webhook.PvNodes | internal/webhook/hyperconverged/handler.go:293-338 | the owner on record and the mode of a PV, or that it has no owner |
| Webhook.OwnersMeaning | internal/webhook/hyperconverged/handler.go:163-173 | the hosts named to the scheduler are exactly the owners on record of the listed volumes |
| Webhook.InjectNodeAffinity | internal/webhook/hyperconverged/handler.go:156-181 | when the pod is let through, and what it is pinned to otherwise |
| Webhook.LetThrough | internal/webhook/hyperconverged/handler.go:156-181 | the pod is let through iff a listed volume has a PV without an owner on record, or none has a PV with one |
| Webhook.ModeMeaning | internal/webhook/hyperconverged/handler.go:163-173 | the mode is durability iff the last PV has an owner on record and its attribute says durability |
| Webhook.PinnedMeaning | internal/webhook/hyperconverged/handler.go:156-247 | the last PV in the list decides: if it has an owner on record and asks for durability, feasible are exactly the owners of the volumes, or those in addition to the pod's own alternatives; else what was feasible before |
| Webhook.DurabilityLost | internal/webhook/hyperconverged/handler.go:163-172 | a last volume whose PV is missing undoes the durability of the others |

## Left out

- Running lvm2, lsblk, blkid and mount, JSON decoding and error-text classification: replaced by contracts, with any other failure as `Fault`.
- Timing, backoff, cancellation and stale caches: reads are current, and the delete retry loop has a given number of ticks.
- Text beyond ASCII in case folding and trimming, and quantity syntax beyond plain decimal integers.
- 64-bit integers: sizes are unbounded; only the estimate and the rounding have range lemmas.
- Lvm.Manager.CreateLogicalVolume: a stripe count below the number of physical volumes, which the driver never asks for, is answered with a fault, because a volume here lies on all physical volumes of its group.
- Provisioner.Driver.EnsureVolume: one call is one step of the protocol, so a collector is not interleaved with its commands; a standing claim already keeps every collector's delete out (`GcSafety.OwnerKeepsVolume`), and the commands of group provisioning are interleaved in `Flights.dfy`.
- Volumes.NodeExpandVolume: the extend and the read of the new size are one step of the protocol; reading the PV and patching it are steps of their own.
- Servers.NodeStageVolume: mounting and formatting are one possible failure after the volume exists; staging paths are not modelled.
- Refinement.ReconcileIsPath: the orphan scanner has no such lemma for a whole scan; its checks and deletes are the protocol's `ScanCheck` and `GcDelete` steps, made of the same relations.
- Refinement.StageIsPath: covers webhook mode with a readable PV, the mode in which ownership is recorded.
- Protocol.StoreHolds: assumes that node names are non-empty and differ in more than case, that PV names are not reused, that CreateVolume is not repeated once its PV exists, and that nobody else edits the driver's annotations.
- SizeSafety.SizeSurvivesFailover: holds for orderly runs only, because it is false without the order; `Scenarios.dfy` has a run for each clause of it.
- PvCleanup.Reconcile: the read and the write of one reconcile are one step, so a finalizer added between them is not modelled.
- NodePublish, volume stats, listing, capability checks, the ephemeral-volume webhook, servers, metrics, events and tracing: plumbing or short decisions that add only easy members.
- The remaining lvm2 client methods and option structs: argument marshalling.
