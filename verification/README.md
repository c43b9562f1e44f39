# Proxmox CSI plugin: verified models

Dafny models of the stateful protocols and algorithmic cores of the Proxmox CSI plugin, with
proofs of what they keep. `dafny verify dfyconfig.toml` checks the whole project.

| file | what it models |
|---|---|
| `Strings.dfy` | the parts of Go's `strings` and `strconv` packages the driver relies on |
| `Names.dfy` | volume handles, disk names, renames, the search for a renamed disk |
| `RenameProtocol.dfy`, `RenameProgress.dfy` | publish and unpublish with rename-on-attach: concurrent calls under per-VM locks, one Proxmox call a step, the controller dying anywhere; and what a call that is left alone gets done |
| `Rewire.dfy`, `RewireProgress.dfy` | `Migrate` and the claimRef pre-bind rewire: one API call a step among owner, binder, provisioner and reclaimer, the migrator dying anywhere; and what an attempt that is left alone gets done |
| `Kata.dfy` | the node service's four calls and the hand-over of a filesystem to a Kata VM and back |
| `Finalizer.dfy` | the operator's attachment object, its finalizer, a lagging cache and the API calls around them |
| `Slots.dfy` | attach, update and detach on the text of a VM's SCSI lines |
| `Placement.dfy`, `Rebalance.dfy` | target selection and the rebalance planner |
| `Annotations.dfy`, `Requests.dfy` | annotation folding under JSON Merge Patch (RFC 7396), and the migration requests written through it by four workers, call by call |
| `Parameters.dfy` | class parameters to volume context to drive options, in both modes |
| `Drift.dfy` | the drift detector |

The protocols are machines: a `State`, an `Action`, `Enabled` and `Do`, an invariant that every
action keeps, and results about the state after any run. A call that fails is a call that is not
made followed by the caller giving up, and a call that takes effect and is not heard back from is
one followed by a crash; in `RenameProtocol` it can also be answered with an error that the caller
goes on from. Code that updates state in order is a class or a method with loops,
proved against a specification; sequences of its calls are the `Serve` methods, which skip a call
whose premises do not hold.

## Premises

What the models take for granted, because the code does.

- Rewire: a listed size of at least the capacity means a full copy; source and target are
  different places and the target slot is empty before the first attempt; nobody else edits a
  reclaim policy, or deletes the claim or a PV of either disk; clocks agree; PV names are unique; a
  deletion takes effect when it is called. Handle 0 is the source disk and handle 1 the copy.
- RenameProtocol: the feature is on; suffixes are unique among stored disks and no suffix occurs
  inside another drive's text, so that a match is a match of suffixes; one Kubernetes node per VM;
  the placeholder VM is no publish target; Proxmox refuses to rename a referenced volume and to
  attach one that does not exist, and each of its calls is atomic.
- Kata: calls on one volume come one after another; a path has one use and a staging path one
  device; a pod's VM is stopped before its volume is unpublished, and its target path is not used
  again after that.
- Finalizer: one reconciler, which shares its cache with the API; the cache never goes back; an
  attach or detach call is over when it returns or the process dies.
- Slots: volume names and options hold no comma and options no equals sign where the text of a
  line is concerned; no other line contains the volume's suffix. Calls on a VM come one at a time.
- Placement, Rebalance: headroom and thresholds are exact reals and sizes unbounded integers;
  nodes and storages have names.
- Requests: one worker reconciles claims, any number stamp them, and each API call is atomic;
  nobody else edits the protocol's annotations on the claim. A claim that is deleted or recreated
  is another claim.
- Parameters: UNSAFEMOUNT is off.

## Model

| member | source | states |
|---|---|---|
| Names.PrintParse | pkg/utils/volume/volume.go:88-106 | printing a parsed handle gives the handle back, and its first three parts hold no slash |
| Names.ParsePrintHandle | pkg/utils/volume/volume.go:88-106 | a volume reads back from its own handle exactly when node is zone and region, zone and storage hold no slash |
| Names.LegalVmidText | pkg/utils/volume/volume.go:26-36 | the vmid pattern accepts exactly 100 to 999999999 |
| Names.MatchIsParse | pkg/utils/volume/volume.go:26-36 | the disk pattern matches with given groups exactly when the groups are well formed and spell the name |
| Names.RenameKeepsIdentity | pkg/utils/volume/volume.go:174-217 | renaming is defined exactly for names with a suffix, and keeps suffix, PV name and shape while setting the vmid |
| Names.LastRenameWins | pkg/utils/volume/volume.go:189-207 | of two renames only the second shows |
| Names.RenameBackRestores | pkg/utils/volume/volume.go:189-207 | going away and back to the original vmid restores the name exactly when its directory agrees with its file |
| Names.VmidOfDisk | pkg/utils/volume/volume.go:149-156 | the separate vmid pattern finds the same vmid as the disk pattern |
| Names.FoundMatches | pkg/utils/volume/volume.go:149-156 | on any text the vmid found is one the pattern matches, at the start or after a dash or slash and up to a dash or the end |
| Names.NotFoundMatchesNot | pkg/utils/volume/volume.go:149-156 | where none is found the pattern matches nowhere |
| Names.PVOfDisk | pkg/utils/volume/volume.go:210-217 | the PV name is the suffix up to its extension |
| Names.PatternIsSuffix | pkg/tools/proxmox/volume.go:313-346 | the anchored search pattern accepts a name exactly when its suffix is the wanted one |
| Names.FindVolumeBySuffix | pkg/tools/proxmox/volume.go:313-346 | the search returns the first entry of the storage with the suffix, under its stored name, and nothing exactly when there is none |
| Strings.SplitJoin | pkg/csi/kata.go:217-223 | splitting undoes joining exactly for a non-empty list whose parts hold no separator |
| Decimal.ParsePrint | pkg/csi/parameters.go:233-326 | a printed number reads back exactly when it fits 64 bits |
| RenameProtocol.FirstFree | pkg/tools/proxmox/csi_helpers.go:377-417 | the lun chosen is free and every lower one from 1 is taken |
| RenameProtocol.OtherOpKeeps | pkg/csi/helper.go:65-86 | what a call knows survives any call on another VM, and any before it holds its own lock |
| RenameProtocol.StepLocked | pkg/csi/controller.go:541-795 | a call changes nothing before it holds its VM's lock |
| RenameProtocol.RenameSound | pkg/tools/proxmox/volume.go:270-301 | a rename moves the volume's data under its new name and touches nothing else |
| RenameProtocol.StepKeeps | pkg/csi/controller.go:541-795 | every API call of every RPC, answered, refused, or carried out and answered with an error, keeps the world sound, all data, and its own record; it renames only its own unreferenced volume |
| RenameProtocol.RunKeeps | pkg/csi/controller.go:541-795 | the invariant and the data survive every interleaving of calls and crashes |
| RenameProtocol.Conservation | pkg/csi/controller.go:598-790 | whatever interleaves and wherever the controller dies, every volume is stored exactly once with its data and no slot dangles |
| RenameProtocol.Resolvable | pkg/tools/proxmox/csi_helpers.go:279-312 | at every point of every run the immutable handle resolves to the one disk with its data |
| RenameProtocol.PublishAttaches | pkg/csi/controller.go:598-692 | after a successful publish the answered slot holds the volume's disk and no other slot of the VM does |
| RenameProtocol.UnpublishDetaches | pkg/csi/controller.go:695-795 | over both answers that are success: on a found volume the VM has no slot of it, and after a rename back the disk has the handle's name again until it is next renamed; on a volume not found there is none and no VM has a slot of it, unless it was renamed since the call began |
| RenameProtocol.NotFoundWhileAttached | pkg/csi/controller.go:715-721 | a run in which a rename between search and look makes an unpublish succeed as "not found" with the volume in a slot of its VM |
| RenameProtocol.ClearNeverDeallocates | pkg/tools/proxmox/csi_helpers.go:496-541 | whenever an unused key is deleted, the volume it names is not stored, although check and delete are two calls |
| RenameProtocol.RenamedOnlyDetached | pkg/tools/proxmox/volume.go:270-301 | no step renames a volume that is attached anywhere |
| RenameProtocol.NamesAreFaithful | pkg/utils/volume/volume.go:149-207 | the protocol's vmid-and-suffix disks are the driver's names: renaming is WithVMID, the suffix DiskSuffix, and different disks have different names |
| RenameProtocol.AttachedIsNeverNotFound | pkg/csi/controller.go:1436-1499 | a call on a volume that stays attached is never answered "not found", whatever VM's name it has |
| RenameProgress.UnpublishDone | pkg/csi/controller.go:695-795 | from every reachable state an unpublish of a stored volume that is left alone succeeds with all its slots on the VM gone and nothing else of the VMs changed but its keys; the disk bears the controller's vmid afterwards exactly when it did or the rename was carried out and no other VM has the volume; the answer says so, and then no unused key of it is left, exactly when the rename was due, allowed and answered |
| RenameProgress.ClearingIsBestEffort | pkg/tools/proxmox/csi_helpers.go:496-541 | whatever the calls that clear the keys meet, the unpublish succeeds and says the disk was renamed back |
| RenameProgress.PublishDone | pkg/csi/controller.go:598-692 | from every reachable state a publish of a stored volume that is left alone answers with the slot the VM has for it, or takes the first free of 1..29 for the disk under the VM's name or, if the rename was not due, allowed or carried out, its present one; it fails exactly when no slot is free or the rename was carried out and answered with an error |
| RenameProgress.NotThere | pkg/csi/controller.go:1436-1499 | a call on a volume that is not stored is answered "not found" and changes nothing |
| Rewire.ReclaimerSpares | pkg/migrator/topology.go:308-339 | the cluster's reclaimer never finds a released PV of either disk |
| Rewire.EnvKeeps | pkg/migrator/topology.go:390-444 | the owner, binder, provisioner, reclaimer and other tenants keep the invariant at every step of the migrator |
| Rewire.BaseRemove | pkg/migrator/topology.go:484-573 | deleting the old PV, a race loser or an outdated reservation beside its replacement loses no disk and leaves a Retain PV on the copy |
| Rewire.MigKeeps | pkg/migrator/migrator.go:339-633 | every API call of copy, reservation, wait and finish keeps the invariant |
| Rewire.RunKeeps | pkg/migrator/migrator.go:339-633 | the invariant holds after every run of attempts, crashes and other actors |
| Rewire.DataIsNeverLost | pkg/migrator/migrator.go:408-627 | in every reachable state the source disk is intact or the copy is full; the source goes only when the claim is bound to a PV of the copy, or was found idle with a PV of the copy reserved for it, which the claim has or can still be bound to exactly when it was not adopted with another class and the claim was not given another volume since the poll |
| Rewire.IdleReservation | pkg/migrator/topology.go:390-444 | once an idle claim's policy is restored, and from then on, the claim is bound to its reservation or the binder may still bind it, if and only if that reservation was not adopted with another class than the rewire goes on with and no step of the run since the poll bound the claim to another PV |
| Rewire.MisfitMeansAdopted | pkg/migrator/topology.go:205-291 | that is settled when the reservation is looked up: an adopted one of another class is a misfit, one of that class and one that is created are not, and no other step makes one |
| Rewire.IdleReservationBinds | pkg/migrator/topology.go:205-361 | over every run that adopts only reservations of the class it goes on with and binds no claim found idle to another PV, the source disk goes only when the claim is bound to the copy or can still be bound to it |
| Rewire.MisfitRun | pkg/migrator/topology.go:205-361 | a run in which a second attempt adopts a reservation of the old class, recreates the claim with the class it found, and reclaims the source for an idle claim that the reservation cannot bind; the volume had Delete and ends with Retain |
| Rewire.DivertedRun | pkg/migrator/topology.go:426-435 | a run of one attempt in which a provisioner gives the claim a new volume between the idle poll and the reclaim: the source goes, the reservation fits, and nothing can bind the claim to it |
| Rewire.PolicyReturns | pkg/migrator/topology.go:163-361 | the volume ends with the policy the finishing attempt had read; that is the original one, or the Retain an earlier attempt had set, and the original comes back exactly when it was read |
| Rewire.CopyIsHeld | pkg/migrator/topology.go:308-361 | from the deletion of the old claim until the policy is restored, re-reservations included, some Retain PV carries the copy |
| Rewire.OnlyOwnVolumesDeleted | pkg/migrator/topology.go:484-526 | of the PVs that existed when the rewire began none is deleted but the old one and reservations of the copy, with creation times cut to seconds and the mark not |
| Rewire.MigFrames | pkg/migrator/migrator.go:339-633 | every API call of the migrator edits or deletes at most the one PV of its step, changes of a PV only policy and stamp, makes only PVs reserved for the claim, and deletes or makes the claim |
| Rewire.OthersUntouched | pkg/migrator/topology.go:484-526 | no call changes a PV that is of neither disk and was there when the rewire began, whichever claim it is for |
| Rewire.AnotherVolume | pkg/migrator/migrator.go:339-407 | an attempt that finds the claim bound to a third volume starts from an initial state of this same machine with that volume as its source, so the results hold of it and the PVs of these two disks are others to it |
| Rewire.AtMostOneReservation | pkg/migrator/topology.go:590-622 | while listings succeed, however many attempts die before the old claim is deleted, there is at most one reservation |
| Rewire.WaitIsBounded | pkg/migrator/topology.go:390-444 | the migrator stays in the wait for no more calls than a measure of rounds, calls and polls left |
| Rewire.AtMostTwoRounds | pkg/migrator/topology.go:451-573 | replacements made and racing pairs deleted in a wait are bounded by the rounds left |
| Rewire.WaitEnds | pkg/migrator/topology.go:390-473 | a wait begun in any reachable state ends, with at most two re-reservations and two racing pairs deleted |
| RewireProgress.AttemptFinishes | pkg/migrator/migrator.go:339-633 | from every reachable state before the claim is deleted, with no attempt under way, an attempt that is left alone, with a class the pair agrees on and a reservation free or of that class, ends with the claim bound to the copy, the policy it had read restored, the old PV gone and the source disk reclaimed |
| RewireProgress.CopyDone | pkg/migrator/migrator.go:408-610 | whatever earlier attempts left in the target slot, nothing, part of a copy or all of it, the attempt comes to a full copy, without copying again what is there in full |
| RewireProgress.FailedCopyGoes | pkg/migrator/migrator.go:585-597 | a copy that fails part of the way is removed before the attempt ends |
| RewireProgress.FullCopyStays | pkg/migrator/migrator.go:585-597 | after a move reported as failed a full copy stays, and so does whatever is there when the look at it fails |
| RewireProgress.BoundFinishes | pkg/migrator/topology.go:402-403 | from every reachable wait that finds the claim bound to its reservation, three calls restore the policy, reclaim the source and end in success |
| RewireProgress.IdleFinishes | pkg/migrator/topology.go:426-435 | so they do for a claim found idle, which stays as it is |
| RewireProgress.GivesUp | pkg/migrator/topology.go:390-444 | a poll gives up exactly on a claim with another volume of the expected class, on one with another class after two rounds, and at the deadline on none or on one that is not idle |
| RewireProgress.ClassIsMet | pkg/migrator/topology.go:451-573 | a claim found unbound with another class is met by a reservation of that class, free for it, in place of the old one |
| RewireProgress.RaceIsMet | pkg/migrator/topology.go:451-573 | one that already has a volume made since the rewire began loses that pair first |
| RewireProgress.RacerIsSeen | pkg/migrator/topology.go:484-526 | a volume made a second or more after the rewire began is told from earlier ones by its timestamp |
| Kata.OptionsReadBack | pkg/csi/kata.go:217-223 | joined mount options read back exactly when none holds a comma and the list is not one empty option |
| Kata.AddMount | pkg/csi/node.go:124-136 | a mount keeps the node safe exactly when no volume in a VM's hands has that device |
| Kata.StageMountIsAsked | pkg/csi/node.go:624-640 | the mount made for a request has the type asked for or ext4, the flags asked for in order, then noatime exactly for an ssd and nouuid exactly for xfs, and nothing else |
| Kata.HandedIsAsked | pkg/csi/kata.go:393-437 | so has the mount a hand-over puts back and the one its description tells of |
| Kata.Node.FindHolder | pkg/csi/kata.go:138-169 | a holder is found exactly if some readable description names the staging path |
| Kata.Node.OtherMounts | pkg/csi/kata.go:173-197 | exactly the other mount points of the device |
| Kata.Node.Stage | pkg/csi/node.go:83-250 | the mount table after each outcome, with the mount the request asks for, and exactly when it succeeds; keeps the node safe exactly when it does not get as far as its mount with an unread description of a volume in a VM's hands, as input and node show beforehand |
| Kata.Node.HandOver | pkg/csi/kata.go:393-437 | unmount, describe, roll back: the outcome, the mount table and the descriptions after every failure and every death, each as the request asks for |
| Kata.HandOverSound | pkg/csi/kata.go:393-437 | a hand-over keeps the node safe exactly when it leaves no description beside a mount that was put back, and none beside another description of the volume |
| Kata.Node.PublishKata | pkg/csi/kata.go:311-444 | when a volume is handed over, refused or left to a bind mount, by the node as it was; the state after each; and the exact condition under which the node stays safe, whatever can be read |
| Kata.Node.Publish | pkg/csi/node.go:342-453 | a Kata pod's volume leaves the mount table for a description, another pod's is bound from the staging mount, and exactly when it is; the same exact condition |
| Kata.Node.Unpublish | pkg/csi/node.go:458-491 | the staging path is mounted from the description and the description goes, or stays if it cannot be removed; exactly when it succeeds, and the state after every other outcome; always keeps the node safe |
| Kata.Node.Unstage | pkg/csi/node.go:255-337 | unmounts the staging path exactly when no readable description names it and the calls succeed, and is refused exactly when one does |
| Kata.Serve | pkg/csi/node.go:83-491 | over every sequence of calls, failed and interrupted ones included, no device is mounted in a VM and on the node; among those that keep the premises, the stages and publishes skipped are exactly those that lose the invariant |
| Kata.HandOverAndBack | pkg/csi/kata.go:311-484 | publish then unpublish restores device, filesystem and every other mount, and the options exactly when they read back |
| Kata.StrandedRetry | pkg/csi/kata.go:320-327 | after a rollback that keeps its description the retried publish succeeds and the VM starts on a mounted filesystem |
| Kata.RollbackCanStrand | pkg/csi/kata.go:429-437 | the same from an empty node |
| Kata.UnreadableStage | pkg/csi/node.go:124-136 | from an empty node: a stage that cannot read the description of a volume in a running VM mounts it |
| Kata.UnreadablePublish | pkg/csi/kata.go:138-169 | from an empty node: an unpublish that mounts but cannot remove its description, a publish to another VM that cannot read it, and the unpublish once more mount the volume under that VM |
| Finalizer.PutKeeps | pkg/operator/controller/attachment/reconciler.go:366-387 | a version-checked write keeps what the cache can still show consistent with the server |
| Finalizer.DoKeeps | pkg/operator/controller/attachment/reconciler.go:83-387 | every call of the reconciler, every API call, every cache step and every crash keep the invariant |
| Finalizer.DiskIsHeld | pkg/operator/controller/attachment/reconciler.go:163-363 | a disk that is in the VM is behind a finalizer, unless one was released without a detach |
| Finalizer.NotFoundMeansOut | pkg/operator/api/service.go:505-536 | where cache or server has no object, the disk is out or a finalizer was released unread |
| Finalizer.NothingAbandoned | pkg/operator/controller/attachment/reconciler.go:253-287 | with readable records every release follows a detach |
| Finalizer.DetachMeansOut | pkg/operator/api/service.go:488-537 | with readable records DetachVolume succeeds only when the disk is out of the VM |
| Finalizer.AttachedMeansIn | pkg/operator/controller/attachment/reconciler.go:196-232 | over every run an object that says attached and is not being deleted has its disk in the VM |
| Finalizer.AttachDone | pkg/operator/controller/attachment/reconciler.go:99-232 | a pass over a new object that is left alone ends with the disk in the VM and the object attached and holding its finalizer |
| Finalizer.AttachFails | pkg/operator/controller/attachment/reconciler.go:99-220 | a failed attach, landed or not, leaves the object held and not attached; a refused one does not reach Proxmox |
| Finalizer.DetachDone | pkg/operator/controller/attachment/reconciler.go:235-346 | a pass over a deleted object that is left alone ends with the disk out and the object gone, after a detach |
| Finalizer.DetachFails | pkg/operator/controller/attachment/reconciler.go:296-302 | a failed detach leaves the object, its finalizer and what it says |
| Finalizer.UnreadableRecordStrands | pkg/operator/controller/attachment/reconciler.go:253-261 | a run in which an unreadable record lets DetachVolume succeed with the disk in the VM |
| Slots.PairReads | pkg/tools/proxmox/csi_helpers.go:567-570 | a parameter survives an update exactly when neither key nor value holds an equals sign |
| Slots.WriteLine | pkg/tools/proxmox/csi_helpers.go:383-393 | options written in any order after the volume read back as the same volume and options |
| Slots.UpdateLine | pkg/tools/proxmox/csi_helpers.go:550-582 | the new line keeps the volume and every setting not given; nothing that is no pair survives |
| Slots.AbsorbLookup | pkg/tools/proxmox/csi_helpers.go:560-571 | merged options are the caller's where given, else the line's first |
| Slots.DevicePathInjective | pkg/tools/proxmox/csi_helpers.go:381-383 | distinct luns have distinct wwns and device paths |
| Slots.SlotHasItsPath | pkg/tools/proxmox/csi_helpers.go:381-421 | the device path of a CSI slot is that of the wwn on its line |
| Slots.OwnMatch | pkg/tools/proxmox/csi_helpers.go:258-264 | a volume's own line matches it, whichever vmid it is named for |
| Slots.RenameKeepsMatch | pkg/tools/proxmox/csi_helpers.go:248-264 | a volume has one match under every vmid it is renamed to |
| Slots.VM.FindSlot | pkg/tools/proxmox/csi_helpers.go:316-334 | a slot is found exactly when some line contains the match |
| Slots.VM.Attach | pkg/tools/proxmox/csi_helpers.go:363-427 | the volume's slot unchanged if it has one, else the first free of 1..29 with the volume, the options and its lun's wwn, whose path is answered, else nothing |
| Slots.VM.Update | pkg/tools/proxmox/csi_helpers.go:544-597 | changes the matching line only, as an update should, and fails exactly when there is none |
| Slots.VM.Detach | pkg/tools/proxmox/csi_helpers.go:430-474 | removes the matching line and no other |
| Slots.Serve | pkg/tools/proxmox/csi_helpers.go:363-597 | over every sequence of attach, update and detach, each naming its volume for any vmid, each volume has at most one slot, in 1..29, with the disk it was attached as and its own lun's wwn |
| Slots.SlotsAreDistinct | pkg/tools/proxmox/csi_helpers.go:363-427 | two CSI slots of a VM have volumes that do not match each other under any vmid, different wwns and different device paths |
| Slots.AttachAgain | pkg/tools/proxmox/csi_helpers.go:371-374 | attaching an attached volume, under any of its names, answers with the lun it has and changes nothing |
| Placement.RequiredCovers | pkg/migrator/placement.go:80-84 | size plus headroom is at least the size |
| Placement.RequiredMeans | pkg/migrator/placement.go:80-84 | the required space is the size and its headroom cut to whole bytes, with 0.15 for a negative headroom |
| Placement.SelectTarget | pkg/migrator/placement.go:79-107 | the first of the fitting zones with the most space, and none exactly when nothing fits |
| Placement.BestIsUnique | pkg/migrator/placement.go:206-256 | the preference order has one best pair |
| Placement.SelectCrossStorageTarget | pkg/migrator/placement.go:214-256 | the three stages find the one best pair by tier, space, storage name and position, and fail exactly when no pair fits |
| Placement.BestOfTheRest | pkg/migrator/placement.go:225-255 | the last stage finds the best of the remaining storages |
| Rebalance.Queues | pkg/migrator/placement.go:371-386 | each zone's queue is a permutation of its idle volumes in order of size |
| Rebalance.FindSource | pkg/migrator/placement.go:390-402 | the first of the fullest zones over the high threshold with volumes left, none exactly when there is none |
| Rebalance.FindTarget | pkg/migrator/placement.go:407-421 | SelectTarget's choice among the other zones below the low threshold, at the space they have now |
| Rebalance.Plan | pkg/migrator/placement.go:348-437 | the moves are those of a round-by-round reading of the greedy rule, which ends within as many rounds as there are volumes, at the limit or with no zone with volumes left that has the high share of its space occupied; each moves a listed idle volume from its own zone, none more often than listed; and they leave no zone short when no figure was below zero |
| Rebalance.EveryRoundIsFair | pkg/migrator/placement.go:363-434 | in the figures of its moment each move goes from a zone with at least the high share of its space occupied, and no zone with volumes left has a larger share, to another with less than the low share and room for it |
| Rebalance.SkippedOnlyIfNothingFits | pkg/migrator/placement.go:418-421 | a volume is passed over only if every other zone is too full or too small |
| Rebalance.Accounting | pkg/migrator/placement.go:423-424 | each zone's space is what it had, plus what moved out, less what moved in |
| Rebalance.SpaceIsConserved | pkg/migrator/placement.go:423-424 | the space of all zones together does not change |
| Rebalance.NeverNegative | pkg/migrator/placement.go:418-424 | no zone is planned below zero |
| Rebalance.SoundStart | pkg/migrator/placement.go:348-386 | figures that are not below zero give a ledger with none below zero |
| Rebalance.MovesAfford | pkg/migrator/placement.go:388-437 | of the moves returned: what a zone had, plus what leaves it, less what comes to it, is never below zero |
| Rebalance.MovesCarry | pkg/migrator/placement.go:388-437 | of the moves returned: there is a listed idle volume of the source zone behind each, and no listing serves two |
| Rebalance.TakenIsPrefix | pkg/migrator/placement.go:404-405 | each zone's queue is taken from the front, volume by volume |
| Rebalance.OnlyIdleSmallestFirst | pkg/migrator/placement.go:371-405 | only idle volumes of the zone are taken, none more often than listed, smallest first |
| Annotations.NormalizeLegacy | pkg/migrator/migrator.go:208-226 | the folded patch depends on the object and the patch alone, in whatever order the aliases are visited |
| Annotations.UnnamedReadsTheSame | pkg/migrator/migrator.go:179-226 | a key the patch does not name reads as before |
| Annotations.NamedReadsAsPatched | pkg/migrator/migrator.go:179-226 | a named key reads as patched, with the fallback to a legacy key the patch itself writes |
| Annotations.LegacyIsGone | pkg/migrator/migrator.go:208-226 | a legacy key is left exactly where the patch writes one |
| Annotations.NormalizingIsIdempotent | pkg/migrator/migrator.go:208-226 | folding again changes nothing, and after a write there is nothing to fold exactly if the patch wrote no legacy key |
| Annotations.StripLeavesNoRequest | pkg/migrator/topology.go:46-71 | a recreated object has no request under either namespace and every other annotation as it was |
| Requests.AtoiPrint | pkg/controller/migration/controller.go:435-447 | a counted attempt reads back |
| Requests.StaleWrite | pkg/controller/migration/controller.go:1096-1117 | a patch folded against one reading and applied to a later one leaves each key as patched, else as read if it had a legacy spelling with a value then, else as it is |
| Requests.MetKeeps | pkg/controller/migration/controller.go:562-894 | no call of a stamper, however old what it was decided and folded on, changes phase or attempts of a sound claim or takes its request away |
| Requests.WriteKeeps | pkg/controller/migration/controller.go:1096-1117 | a write of the reconciler folded before the others' latest calls does to phase, attempts and target what it is for, and keeps the claim sound |
| Requests.Claim.Patch | pkg/controller/migration/controller.go:1096-1117 | folded against a fresh reading and then sent: with nobody in between the claim is written with the folded patch; on a sound claim, whoever comes in between, phase, attempts and target are as written and the claim stays sound |
| Requests.Claim.Fail | pkg/controller/migration/controller.go:1080-1085 | the request stays readable, with its attempts, and is marked failed; with nobody in between it keeps its target |
| Requests.Claim.CountAttempt | pkg/controller/migration/controller.go:443-454 | exactly one more attempt is on record than the claim had when it was read, and the request stays; with nobody in between it keeps its target |
| Requests.Claim.Reconcile | pkg/controller/migration/controller.go:369-527 | Migrate is called exactly for a live request with attempts left, once, after the attempt is recorded; a failed or absent request is left alone, an exhausted one given up; alone or on a sound claim a retry keeps a request, a finished one has none and says completed or skipped, a given-up one is marked failed |
| Requests.Claim.Request | pkg/controller/migration/controller.go:562-640 | a node evacuation or volume-follows-pods nobody comes between leaves a claim with a request, failed or not, as it is, and gives another exactly the target, storage and force asked for |
| Requests.Claim.React | pkg/controller/migration/controller.go:798-894 | so does reactive evacuation, and leaves a claim whose migration is under way |
| Requests.Serve | pkg/controller/migration/controller.go:177-894 | over every interleaving of the workers' calls, whatever they were decided on, a sound claim stays sound, Migrate is called no more often than the attempts left, and a failed request stays failed without a call |
| Requests.SoundStart | pkg/migrator/migrator.go:208-226 | which claims are sound when no worker has them in hand: failed, with a request, or with no legacy spelling of the phase, nor of the attempts while some are left |
| Requests.LateTarget | pkg/controller/migration/controller.go:562-640 | on every sound claim without a request: a stamper that read it before another's request was made and failed overwrites the target; the request stays failed |
| Requests.LatePhase | pkg/controller/migration/controller.go:1096-1117 | on every claim without a request whose phase has a legacy spelling: the late stamper puts the old phase back, and the request is live again |
| Requests.LateAttempts | pkg/controller/migration/controller.go:1096-1117 | on every claim without a request whose attempts have a legacy spelling, some left: Migrate is called once more than there were attempts left |
| Requests.CompletedHasNoRequest | pkg/migrator/topology.go:186-188 | the migrator's own recreated claim has no readable request, before and after the phase is noted |
| Parameters.MapByTag | pkg/csi/parameters.go:233-271 | exactly the tagged fields with something to show, as text |
| Parameters.UnmarshalTag | pkg/csi/parameters.go:273-326 | every tagged field with a text is that text read by type, the others as they were; fails exactly on a bad number |
| Parameters.ExtractParameters | pkg/csi/parameters.go:123-151 | the pipeline of reading, implied discard and throttles |
| Parameters.Merge | pkg/csi/parameters.go:210-223 | the class's options win, the rest is kept |
| Parameters.ExtractSettled | pkg/csi/parameters.go:123-151 | an extracted struct is well typed, has discard wherever ssd implies it, and read and write limits equal to the figure exactly when that is positive |
| Parameters.OptionsOfClass | pkg/csi/parameters.go:123-271 | every drive option is what the class's parameters ask for, stated of the texts: as given, discard on for an ssd that leaves it open, backup off and IO thread on unless asked for, each positive figure as the limit of reads and writes |
| Parameters.ReExtract | pkg/csi/controller.go:452-457 | a context always reads, and the implied discard cannot come in a second time |
| Parameters.ContextGives | pkg/csi/controller.go:553-579 | every drive option re-read from the context is the class's word, else the parameters' |
| Parameters.RoundTripKeepsOptions | pkg/csi/parameters.go:123-185 | writing the parameters to a map and reading them back keeps every drive option |
| Parameters.DirectEqualsOperator | pkg/csi/controller.go:645-663 | under a class assigned after creation both modes give the same options exactly when the frozen backup and discard settings agree |
| Parameters.SameClassSameOptions | pkg/operator/controller/attachment/reconciler.go:467-489 | with the class of creation, or none, a direct attach has exactly the operator's options, for all parameter maps |
| Parameters.FrozenBackupDiffers | pkg/csi/controller.go:648-663 | a class change for which the two modes differ |
| Drift.ClaimKeyInjective | pkg/operator/controller/drift/detector.go:393-395 | for slash-free storages the text key names storage and suffix alone |
| Drift.ClaimOfHandle | pkg/operator/controller/drift/detector.go:354-386 | a record with a well-formed handle claims the handle's region and storage under its disk's suffix, and none without a suffix |
| Drift.OrphanMeans | pkg/operator/controller/drift/detector.go:398-424 | a disk is an orphan exactly when driver-shaped and claimed by no handle on that same storage |
| Drift.Index | pkg/operator/controller/drift/detector.go:354-386 | the claimed keys and each storage's expected volumes are those of the records with a usable handle |
| Drift.OrphansIn | pkg/operator/controller/drift/detector.go:398-424 | exactly the orphans of a listing, in order |
| Drift.MissingIn | pkg/operator/controller/drift/detector.go:427-451 | exactly the expected volumes whose suffix no listed disk has, in order |
| Drift.Targets | pkg/operator/controller/drift/detector.go:314-345 | every storage a tenant may use or a record names, once |
| Drift.Sweep | pkg/operator/controller/drift/detector.go:189-250 | the report is the sum of the findings on those storages |
| Drift.SweepReports | pkg/operator/controller/drift/detector.go:189-250 | what is reported orphaned, missing and unreadable, as if-and-only-ifs; an unreadable storage yields neither |
| Drift.RenameChangesNothing | pkg/operator/controller/drift/detector.go:347-353 | in one listing, renaming a disk for any VM changes neither what is missing nor whether it is an orphan, and renaming a claimed one changes nothing |
| Drift.SweepIgnoresRenames | pkg/operator/controller/drift/detector.go:189-250 | over the whole sweep such a rename leaves the report as it is; if the disk is an orphan, the report is the old one with that disk renamed in its place |
| Drift.ReportedOrphans | pkg/operator/controller/drift/detector.go:189-424 | a disk is reported as an orphan exactly when the sweep saw it, it is shaped like the driver's, and no record's handle names its suffix on its own storage |

## Left out

Some promises of the code fail in a corner; the models follow the code, show the failure and say
when they hold:

- a Kata rollback can leave its description behind (`Kata.StrandedRetry`, `Kata.Node.PublishKata`);
- a holder whose description cannot be read is passed over (`Kata.UnreadableStage`,
  `Kata.UnreadablePublish`, `Kata.Node.Stage`, `Kata.Node.Publish`);
- a detach releases its finalizer on any error reading the volume record
  (`Finalizer.UnreadableRecordStrands`, `Finalizer.DetachMeansOut`);
- a rename on attach that is carried out and answered with an error fails that attach
  (`RenameProgress.PublishDone`);
- an unpublish can take a volume that is being renamed for none
  (`RenameProtocol.NotFoundWhileAttached`, `RenameProtocol.UnpublishDetaches`);
- the source is reclaimed for an idle claim that its reservation cannot bind, if that was adopted
  with another class or the claim is given another volume after the poll (`Rewire.MisfitRun`,
  `Rewire.DivertedRun`, `Rewire.IdleReservation`), and a policy guarded by an attempt that died does
  not come back (`Rewire.PolicyReturns`);
- a stamper's late patch overwrites a failed request's target, and where the claim still had legacy
  spellings its phase and attempts (`Requests.LateTarget`, `Requests.LatePhase`,
  `Requests.LateAttempts`, `Requests.SoundStart`).

What the contracts leave out:

- Kata.Serve: skips the stages and publishes that lose the invariant, because safety fails there; `Kata.Node.Stage` and `Kata.Node.Publish` say for each input whether it is one.
- Finalizer.DetachMeansOut: one way only, because a record that was unreadable once may still have been detached by an earlier attempt.
- Slots.Serve: skips calls whose names or options hold a comma or an equals sign, and updates that set the wwn, because such lines do not read back; `Slots.PairReads` and `Slots.WriteLine` say what does.
- RenameProtocol.UnpublishDetaches: speaks of the disk's name until the volume is next renamed, because another VM's publish may rename it at once.
- Rewire: draining, cordoning and the detach wait before the copy; the conversion of qcow2 volumes through a helper VM, which is one copy here; the quota pre-flight and the checks of `validateReservedPV` other than the class; writes to the disk between a failed attempt and its resume.
- Rewire.MigKeeps: an attempt that finds the claim bound to a third volume ends, because Migrate then moves that volume, which is another run of the machine (`Rewire.AnotherVolume`); the two runs are not composed, so what the deletion of the claim in the second does to a PV bound to it is not stated.
- Rewire.RunKeeps: the same.
- RenameProtocol: `ControllerModifyVolume`, expand and delete; shared volumes; unpublish for a VM or storage that is gone; the text of drive lines, which `Slots` has.
- Kata: guest mount options, LUKS, formatting, block volumes, malformed parameters, stacked mounts on one path, the cache of runtime classes; switching the feature off while a VM runs.
- Finalizer: the operator's renames, and status conditions and labels beyond the write they cause; the tenant checks are one yes or no.
- Slots: the removal of a line left pending by a busy guest, and waiting for Proxmox tasks.
- Placement: `StorageForZone`, `GatherStorageCandidates` and `blessedStoragesFromClasses`, which would add easier members; 64-bit overflow and float rounding.
- Requests: how the stampers choose a claim and a target, beyond the guards on its annotations.
- Parameters: the text of the two tag namespaces, which is a key per field here since no text names two fields.
- Drift: the order of targets and of the report, metrics and logging.
- Not modelled at all: snapshots, replication, capacity, the HTTP, gRPC and OIDC layers, the Windows node service, the volume and tenant reconcilers, `pvecsictl`.
