# Verified model of the guest's storage and convergence, and of the dashboard's session trust

A Dafny model of the parts of a Briard node whose correctness is an argument over time: what a node
runs and how it is made to run it (`agent/guestagent`), and how a browser comes to be trusted and
stops being (`dashboard`, `reverse-proxy`). Nothing here runs the original program.

Every command a component gives (btrfs, cryptsetup, LVM, DRBD, systemctl, mount, a file write) is an
operation on an explicit world that may succeed, fail, or be the one the process dies before. After
that point every further operation does nothing, so a method's postcondition is a statement about
every place it can stop. State machines over those methods' contracts then give the statements about
whole runs, with several actors interleaved.

| file | component |
|---|---|
| `Converge.dfy`, `ConvergeRuns.dfy` | the reconciler that makes a node run what its volume says, and its runs |
| `PodAddresses.dfy` | the address ledger converge allocates from |
| `NodeStorage.dfy`, `NodeStorageRuns.dfy` | LUKS, LVM and DRBD metadata brought up at every boot, and a disk's whole life |
| `QuotaTree.dfy` | the btrfs quota tree: what is charged, and racing makers of one group |
| `FilesVersions.dfy`, `FilesTier.dfy` | the file versions' retention; the tick's allocation rule, valve and caps |
| `FilesView.dfy` | the mount table behind the Files app, and the kernel's path escapes |
| `RecorderRestore.dfy`, `DataReplace.dfy` | the two swaps of an app's data |
| `SessionTrust.dfy`, `SessionRuns.dfy` | the one-time code, quick-connect, hops, the registry, and provenance over runs |
| `DoorGate.dfy` | the front door's remembered answer and how long a revocation takes |
| `Options.dfy` | Option and Result |

## What the code does not do

Nine statements of the repository turned out not to hold as written. The model keeps the code as it
is, shows the case, and proves exactly when the statement holds.

- *A lost started-record costs only a needless bounce* (comment at
  `agent/guestagent/converge.go:222-224`). It can leave an old version serving:
  `ConvergeRuns.LostRecordServesOldBytes`; the exact condition is `ConvergeRuns.ServesIffRecordHolds`.
  A run killed between a start and its record is the same case.
- *Only the apps whose bytes actually changed are bounced* (`agent/guestagent/converge.go:200-203`). An
  app a converge had to skip is left running and out of the record, so the next converge stops it with
  its bytes unchanged: `ConvergeRuns.SkippedOnceIsBounced`. An app is bounced exactly when the last
  recorded converge did not start all of its bytes (`ConvergeRuns.BouncedIffNotStarted`), and is
  otherwise spared by every converge, completed, failed or killed
  (`ConvergeRuns.UnchangedAppIsNeverStopped`).
- *The record says what is running* (`agent/guestagent/converge.go:66-69`). Containers are rendered with
  `Restart=always` (`agent/quadlet/render.go:287`), and a container that dies while an install has its
  new sources loaded comes back on those: with the install undone the next converge starts nothing and
  the new bytes go on serving (`ConvergeRuns.RestartServesUndoneBytes`). A restart keeps the record true
  exactly when each recorded unit it brings back is still the source systemd last read
  (`ConvergeRuns.RestartAgreesIff`), which only an install's own rendering, or a converge that fails
  part-way or cannot write its record, can prevent (`ConvergeRuns.CalmRunServes`).
- *Converge fails when the volume is unreadable* (`agent/guestagent/converge.go:84-88`), and *every staged
  app but the live one is left out* (`agent/guestagent/converge.go:106-108`). The volume's directory is
  listed twice and a listing that fails is read as naming nothing, which the comment at
  `agent/guestagent/converge.go:533-536` takes for the better trade. Without the first a run completes
  with every app stopped and reports success (`Converge.UnlistedVolumeStopsEverything`); without the
  second it renders the accepted manifest of an app whose install was never accepted
  (`Converge.UnheldRendersEveryAccepted`). What is rendered for an app is what the volume says exactly
  when nothing that matters was hidden (`Converge.ChosenRightIff`).
- *On an upgrade whose new image cannot be prepared the old container keeps serving*
  (`agent/guestagent/converge.go:186-190`). Only if the new manifest still has a container of that
  name: `ConvergeRuns.SkippedAppKeepsContainerIff`.
- *Only a device with no VG on it reaches the format branch*
  (`agent/guestagent/nodestorage.go:320-323`). Two kinds of volume do, under a spec that encrypts: an
  unencrypted one whose VG does not come up by the spec's name (`NodeStorage.RenamedGroupIsErased`), and
  an encrypted one whose mapping's name is already open on another device, because two tiers share a VG
  name, which no rule for a spec forbids (`NodeStorage.SharedNameIsErased`). Every run of
  `NodeStorage.Node.BuildTier` that changes a volume changes one in that condition, and every run of it
  in which nothing fails loses such a volume unless the LVs show up by name from elsewhere. Every
  guarantee about bring-ups below is for the volumes that are not at risk of it;
  `NodeStorage.NotAtRisk`, `NodeStorageRuns.EncryptedNeverAtRisk` and
  `NodeStorageRuns.OwnVolumeNeverAtRisk` say which those are.
- *A crash leaves either the old subvolume or a swept one* (`agent/guestagent/guestagent.go:1183-1188`).
  Not when what is at the staging name is not a subvolume, or does not answer as one: the copy is then
  nested in it, and what goes live is the leftover. `DataReplace.Guest.Replace` states both directions,
  `DataReplace.Guest.LeftoverDirectoryGoesLive` the case.
- *The cache goes with every rollback* (`agent/guestagent/guestagent.go:1153-1155`). Unless the cache
  area did not answer as a subvolume, which `clearCache` reads as having none:
  `DataReplace.Guest.Replace`.
- *A recorder restore puts the database back, with its log, and takes the renames away*
  (`agent/hass/dbcheck.go:435-443`). The look for the member's log and the listing of the renames are each
  read as nothing being there when they give no answer: the restore then reports success with the rows of
  the log missing, or a rename left. The member's database goes in always; the rest exactly when no
  unanswered look hid a log with frames in it or a rename (`RecorderRestore.RestoredIffNothingHidden`,
  `RecorderRestore.Guest.Restore`; the input is `RecorderRestore.UnansweredLooksGoUnnoticed`).

One is stronger than the code's own comment says: a data app is never at its cap while the household
has not been warned, whatever the slack (`FilesTier.DataAppHasRoom`).

## Assumptions

- A unit stop that is reached takes effect, and file writes are whole or not at all.
- An install's own rendering, a unit's death and a restart by systemd fall between two converges, and not
  within one. One that lands between a converge's reload and its starts would have it start, and record,
  other bytes than those it rendered.
- A manifest is kept under its app's name, accepted or staged.
- Clocks do not go back.
- Reads of converge's own records under `/run` succeed when the files are there.
- `cryptsetup isLuks` exits 1 only on a device without LUKS, and `cryptsetup` and `pvcreate` refuse a
  device with an open mapping or an active VG; the phrase for missing DRBD metadata is said only when
  it is missing; what `vgs` says of a VG depends on its device alone; `drbdadm disconnect` returns with every connection down.
- LVM acts on a VG name only while it sees one VG of it: with two it activates and creates nothing.
- A directory lists a name once, and a map is walked in any order.
- Takes and retention passes come in the clock's order.
- Tokens, codes and cookies' secrets are fresh, SHA-256 does not collide, and a browser presents only
  cookies it was given. Anybody may present any code.
- `is-active` and `test -e` answer truthfully in the recorder's restore, and the app writes nothing
  once its units are down.

## Model

| member | source | states |
|---|---|---|
| `PodAddresses.Allocator.constructor` | agent/guestagent/converge.go:426-449 | the ledger is the previous table's addresses, nothing is taken yet |
| `PodAddresses.Allocator.AddressFor` | agent/guestagent/converge.go:452-474 | loopback for host networking; the recorded address if it is in the pool and not taken; else the lowest slot of .2 to .254 that is neither taken nor in the ledger; full only when there is none |
| `PodAddresses.SlotReads` | agent/guestagent/converge.go:465-467 | a slot is the pool, a dot and a number that reads back as the slot; .2 is the first, and none is .1 |
| `PodAddresses.DecimalReads` | agent/guestagent/converge.go:467 | the digits of a number are read back as that number, with no zero in front |
| `PodAddresses.AnswersUnique` | agent/guestagent/converge.go:452-474 | the specification of the allocator leaves exactly one answer |
| `PodAddresses.AddressAll` | agent/guestagent/converge.go:369-396 | one pass over the apps in order addresses each by the allocator's specification, or stops at the first that has no address |
| `PodAddresses.PassUnique` | agent/guestagent/converge.go:369-396 | a pass is determined by the pool, the ledger and the apps |
| `PodAddresses.PassIsDistinct` | agent/guestagent/converge.go:452-474 | no two private apps of a pass share an address |
| `PodAddresses.PassIsInPool` | agent/guestagent/converge.go:461-472 | a private app's address is in the pool |
| `PodAddresses.PassKeeps` | agent/guestagent/converge.go:461-464 | over an injective ledger a recorded in-pool address is kept, wherever its app sorts |
| `PodAddresses.NewAppTakesLowestSlot` | agent/guestagent/converge.go:465-472 | an app with no recorded address gets the lowest of .2 to .254 free of both the pass and the ledger, and never .1 |
| `PodAddresses.FullMeansFull` | agent/guestagent/converge.go:465-473 | a pass fails for room only when its apps and the ledger hold 253 addresses between them |
| `PodAddresses.LedgerRemembers` | agent/guestagent/converge.go:443-447 | the ledger read back from a table has each named app's address |
| `PodAddresses.LedgerOnlyRemembers` | agent/guestagent/converge.go:443-447 | and nothing that is not in the table |
| `PodAddresses.TableIsInjective` | agent/guestagent/converge.go:729-732 | the table a pass writes gives in-pool addresses to at most one app each |
| `PodAddresses.EveryTableIsInjective` | agent/guestagent/converge.go:400-419 | so does every table since boot, over any sequence of installs and uninstalls |
| `PodAddresses.StableStep` | agent/guestagent/converge.go:407-415 | one converge keeps a private app's address |
| `PodAddresses.PrivateAppKeepsItsAddress` | agent/guestagent/converge.go:407-415 | and so does any number of them, while the app is rendered private in each |
| `Converge.ReadVolume` | agent/guestagent/converge.go:351-386 | the manifests a run renders: the accepted ones, the live install's staged one, no other staged app; fails exactly on one that cannot be read or does not parse |
| `Converge.SelectsOnce` | agent/guestagent/converge.go:351-386 | what is read of a volume is one list of manifests, and none when a chosen one is corrupt |
| `Converge.ListVolume` | agent/guestagent/converge.go:530-548 | each of the two listings shows its manifests or, when it fails, none |
| `Converge.ChosenRightIff` | agent/guestagent/converge.go:351-386 | a run chooses for an app what the volume says exactly when no failed listing hid a manifest that matters |
| `Converge.SelectsAsSeen` | agent/guestagent/converge.go:351-386 | and with that for every app it renders the volume's manifests |
| `Converge.UnnamedRendersNothing` | agent/guestagent/converge.go:530-539 | without the accepted manifests' listing and with no live install nothing is rendered |
| `Converge.UnheldRendersEveryAccepted` | agent/guestagent/staging.go:190-202 | without the staged manifests' listing every accepted manifest is rendered |
| `Converge.Render` | agent/guestagent/converge.go:351-397 | the manifests shown, addressed; fails exactly when a chosen one is corrupt or an app has no address |
| `Converge.StopUnrendered` | agent/guestagent/converge.go:286-304 | stops what the list has and the rendering has not, and wherever it stops nothing else is lost |
| `Converge.RemoveOrphanSources` | agent/guestagent/converge.go:571-581 | of the unit sources only those with the product's prefix and no rendering go |
| `Converge.WriteUnits` | agent/guestagent/converge.go:563-608 | the disk is the user's files and the rendering, systemd has read it, and the changed set is what differs from the started-record |
| `Converge.Guest.Start` | agent/guestagent/converge.go:207-212 | starting an active unit does nothing; an inactive one runs the bytes systemd last read, or is noted as down |
| `Converge.StopApp` | agent/guestagent/converge.go:261-274 | every container and pod of the app is stopped, and wherever it stops no other unit is |
| `Converge.StartApp` | agent/guestagent/converge.go:207-212 | every unit of the app is started, in turn: each ends up running, what ran already untouched, or noted as down |
| `Converge.StartAll` | agent/guestagent/converge.go:185-213 | every unit of every app that is not skipped runs, but for those a start failed of; the bounced units are those of the touched apps that were not skipped, whatever else starts or dies; a run killed in it has stopped some of those and nothing else |
| `Converge.EnsurePodNetwork` | agent/guestagent/converge.go:117-125 | a network on another pool refuses the run |
| `Converge.WarmAll` | agent/guestagent/converge.go:138-147 | every app's images in turn, or an end at the first that cannot be had |
| `Converge.Prepare` | agent/guestagent/converge.go:166-173 | every app is prepared in turn; exactly those whose preparation failed are skipped, and nothing else changes |
| `Converge.Materialise` | agent/guestagent/converge.go:117-147 | everything before the list is written: what is stopped, what the disk holds, what counts as changed, every image resident; it fails only for a failed command, a network on another pool or none; a run that ends in it has stopped orphans only |
| `Converge.Publish` | agent/guestagent/converge.go:166-184 | the units list, then the table, both from the rendering, before anything starts |
| `Converge.StartAndRecord` | agent/guestagent/converge.go:185-230 | the starts, then the record of the apps that were not skipped: a run that gets there has every unit of theirs running unless a start of it failed |
| `Converge.Converge` | agent/guestagent/converge.go:109-237 | the whole run, finished, failed or killed: what is running, listed, recorded, on disk and in the table; completed, it has made every image resident, prepared every app, and every unit of every app it did not skip runs unless a start of it failed; it renders what its listings show and changes nothing exactly when that cannot be rendered; with no failed command and no kill it completes unless the pod network is on another pool; it stops orphans and, with the new table down, touched apps, and nothing else that ran is lost; a reported failure starts nothing and keeps both ledgers |
| `Converge.RenderedOnDisk` | agent/guestagent/converge.go:563-608 | a completed run's pods carry the address the table gives their app, its containers what the manifest says, a person's files are as they were, and the pod network is on the pool exactly when an app wants one, else as it was |
| `Converge.UnlistedVolumeStopsEverything` | agent/guestagent/converge.go:530-539 | over a volume whose accepted manifests are not listed a run completes with nothing running |
| `Converge.ConvergeStop` | agent/guestagent/converge.go:314-334 | stops the listed units; over a covered list nothing is left running |
| `Converge.RenderApp` | agent/guestagent/guestagent.go:2276-2307 | an install's rendering rewrites unit files and what systemd has read, and neither starts nor records; the outgoing sources are gone unless a command failed |
| `ConvergeRuns.AlwaysCovered` | agent/guestagent/converge.go:174-178 | at every point of every run the active units are in the units list |
| `ConvergeRuns.DemotionStopsEverything` | agent/guestagent/converge.go:306-334 | so a completed demotion leaves none running |
| `ConvergeRuns.ServesIffRecordHolds` | agent/guestagent/converge.go:53-69 | a converge leaves every unit of its apps running the new bytes, but for those a start failed of, exactly when the record was right about each app it called current |
| `ConvergeRuns.AgreementServes` | agent/guestagent/converge.go:66-69 | which it is whenever the record never contradicts a running unit |
| `ConvergeRuns.RunAgrees` | agent/guestagent/converge.go:695-709 | and it never does, over runs whose converges land their record |
| `ConvergeRuns.EveryConvergeServes` | agent/guestagent/converge.go:75-80 | so each completed converge leaves every unit of every app it did not skip running exactly the bytes just rendered, unless a start of it failed, whatever installs, deaths, demotions and reboots came between, while each restart by systemd came back on recorded bytes |
| `ConvergeRuns.RestartAgreesIff` | agent/quadlet/render.go:287 | a restart keeps the record true exactly when what it brings back is still loaded as recorded |
| `ConvergeRuns.CalmRunServes` | agent/guestagent/converge.go:66-69 | with no install of its own rendering and no converge failed part-way, killed or unrecorded before it, a completed converge has all it rendered and did not skip running unless a start failed, whatever died and restarted |
| `ConvergeRuns.BouncedIffNotRecorded` | agent/guestagent/converge.go:200-206 | a completed converge stops an app it does not skip exactly when the record does not hold its bytes, and otherwise leaves what ran of it running on the same bytes |
| `ConvergeRuns.BouncedIffNotStarted` | agent/guestagent/converge.go:192-206 | over a run: exactly when the last converge that recorded anything did not start, unskipped, all of its bytes |
| `ConvergeRuns.SkippedAppIsLeftAlone` | agent/guestagent/converge.go:185-192 | a skipped app's rendered units are neither stopped, changed nor recorded |
| `ConvergeRuns.SkippedAppKeepsContainerIff` | agent/guestagent/converge.go:186-190 | a skipped app's container goes on running exactly when the new rendering still names it |
| `ConvergeRuns.AddressIsKept` | agent/guestagent/converge.go:407-415 | between two completed converges an unchanged manifest keeps its address |
| `ConvergeRuns.UnchangedAppIsNeverStopped` | agent/guestagent/converge.go:200-203 | once recorded, an app whose manifest goes on being named is stopped by no later converge of a run, completed, failed or killed, until one leaves it out of its record, whatever happened to the others |
| `ConvergeRuns.UnchangedAppRunsOn` | agent/guestagent/converge.go:200-203 | so over any number of such converges its units run on, on the bytes they ran on |
| `ConvergeRuns.LostRecordServesOldBytes` | agent/guestagent/converge.go:222-230 | a lost record can leave version 2 running under a volume that says version 1 |
| `ConvergeRuns.SkippedOnceIsBounced` | agent/guestagent/converge.go:185-192 | an unchanged, running app skipped by one converge is stopped by the next |
| `ConvergeRuns.RestartServesUndoneBytes` | agent/quadlet/render.go:287 | a container that dies and restarts during an install that is undone goes on running version 2 under a volume and a record that say version 1 |
| `NodeStorage.DataTier` | shared/nodestorage/nodestorage.go:203-213 | the first tier called data, if there is one |
| `NodeStorage.MetadataExtents` | agent/guestagent/nodestorage.go:450-456 | the metadata's bytes rounded up to extents, and exactly one more |
| `NodeStorage.MetadataHoldsBitmap` | shared/nodestorage/nodestorage.go:125-143 | a bit per 4 KiB block and peer fits, with a MiB beside it, and the metadata is at most a rounded page a peer more |
| `NodeStorage.Node.IsLuks` | agent/guestagent/nodestorage.go:632-658 | blank is said only of a device without LUKS |
| `NodeStorage.Node.MetadataPresent` | agent/guestagent/nodestorage.go:234-253 | absent is said only of a metadata LV that is there and holds none |
| `NodeStorage.Node.LuksFormat` | agent/guestagent/nodestorage.go:460-505 | acts on its device alone, and only on one with no mapping and no active VG; with nothing failing it ends, the device open, exactly on such a device whose name is free |
| `NodeStorage.Node.OpenReturning` | agent/guestagent/nodestorage.go:345-357 | opens the device under its tier's name unless a mapping of that name is there, whoever it is open on, and touches nothing on the disk |
| `NodeStorage.Node.DataExtents` | agent/guestagent/nodestorage.go:408-416 | the data LV is every extent the metadata leaves, and exactly a disk with none left is refused |
| `NodeStorage.Node.MakeGroup` | agent/guestagent/nodestorage.go:387-401 | the PV goes only on a device with no signature, and the VG only where LVM sees none of that name |
| `NodeStorage.Node.MakeLvs` | agent/guestagent/nodestorage.go:417-422 | the data LV with its extents, then the metadata LV with every other, nobody having written either |
| `NodeStorage.Node.BuildVolume` | agent/guestagent/nodestorage.go:387-422 | claims only a device with no signature, of the kind that was asked for, and splits the whole of it between two LVs nobody has written; with nothing failing it ends on every such device with room |
| `NodeStorage.Node.FindVolume` | agent/guestagent/nodestorage.go:342-372 | the search for a returning node: no disk changes, and without a failure it ends where opening and activating by name lead |
| `NodeStorage.Node.MakeVolume` | agent/guestagent/nodestorage.go:374-422 | the blank-disk path leaves a volume that was not exposed exactly as it was, and fails; what it makes is on LUKS with its token exactly for adiantum, or for auto on a CPU with the instructions; with nothing failing it ends exactly where it can |
| `NodeStorage.Node.BuildTier` | agent/guestagent/nodestorage.go:324-423 | any run that changes a volume changes an exposed one; a run in which nothing fails finds the volume exactly of a returning node, makes one exactly where none shows and the path can end, and loses an exposed one whose LVs show by name nowhere else; created is reported only for LVs this run made where there was no volume or an exposed one, on the kind of device the mode asks for, and over all its extents |
| `NodeStorage.FavouredReady` | agent/guestagent/nodestorage.go:320-423 | a tier whose names are its own comes up: its volume is found if the device holds it, and made if the device holds nothing and has room |
| `NodeStorage.Node.BuildTiers` | agent/guestagent/nodestorage.go:110-121 | over every tier, wherever it stopped: a volume that was not at risk is exactly as it was, and a new one holds nothing and is on the kind of device its tier asks for; with nothing failing it comes to its end on a first install and on a returning node |
| `NodeStorage.Node.Format` | agent/guestagent/nodestorage.go:135-151 | mkfs only after this run's own lvcreate, and only for a seed |
| `NodeStorage.Node.Prepare` | agent/guestagent/nodestorage.go:110-151 | the tiers and the format together: what the topology rows start from |
| `NodeStorage.Node.LoneNode` | agent/guestagent/nodestorage.go:269-281 | no metadata: nothing; metadata and no intent: refused; convert=disable: wiped, and the leftover file gone |
| `NodeStorage.Node.CreateMetadata` | agent/guestagent/nodestorage.go:193-199 | writes the data tier's metadata LV and nothing else |
| `NodeStorage.Node.SayUpToDate` | agent/guestagent/nodestorage.go:214-224 | the declaration is made with no peer connected, even with one dialling after up |
| `NodeStorage.Node.Attach` | agent/guestagent/nodestorage.go:174-228 | metadata is created exactly where the probe found none, and declared exactly if created by a seed; the file is written; with nothing failing it ends attached |
| `NodeStorage.Node.Rows` | agent/guestagent/nodestorage.go:160-228 | what every row of spec and disk does to the volumes and what it leaves; with nothing failing it refuses exactly a lone node over metadata it was not told to wipe, and a resource with no data tier |
| `NodeStorage.Node.BringUp` | agent/guestagent/nodestorage.go:90-229 | the whole bring-up, finished or stopped: volumes not at risk keep their identity, LVs and contents but for the two allowed metadata changes; new ones are on LUKS or in the clear as their tier asks and hold only what a first init writes; at most one declaration, alone, over metadata this run made; a first init ends with the data formatted; with nothing failing, over tiers whose devices hold their own volume or nothing, it ends exactly when the rows have nothing to refuse, and the word is said exactly by a seed over metadata that was not there |
| `NodeStorage.SearchSpares` | agent/guestagent/nodestorage.go:345-385 | the search leaves a volume open to luksFormat exactly when it is exposed |
| `NodeStorage.ExposedWasAtRisk` | agent/guestagent/nodestorage.go:345-385 | a volume exposed at some tier of a run could be seen to be at risk before it |
| `NodeStorage.NotAtRisk` | agent/guestagent/nodestorage.go:345-385 | tiers that do not encrypt, or names no other device has or is given and, with no LUKS under it, its own name and a working vgchange, keep a volume out of risk |
| `NodeStorage.RenamedGroupIsErased` | agent/guestagent/nodestorage.go:359-385 | a household's unencrypted volume under another VG name: every run of its tier in which nothing fails loses it |
| `NodeStorage.SharedNameIsErased` | agent/guestagent/nodestorage.go:345-385 | two encrypted volumes of one VG name under a spec that is not refused: with nothing failing, the first tier is found and the second loses its volume |
| `NodeStorageRuns.StepKeeps` | agent/guestagent/nodestorage.go:90-229 | one boot, reboot or use keeps a volume's identity, its filesystems and its metadata |
| `NodeStorageRuns.VolumeSurvives` | agent/guestagent/nodestorage.go:123-134 | so does any life of the disk: any specs, each run stopped anywhere, while no run puts the volume at risk |
| `NodeStorageRuns.EncryptedNeverAtRisk` | agent/guestagent/nodestorage.go:345-357 | an encrypted volume is at risk of no run of a life in which its tiers' names are given to no other device |
| `NodeStorageRuns.OwnVolumeNeverAtRisk` | agent/guestagent/nodestorage.go:359-363 | nor is an unencrypted one whose name is its own in every spec and which vgchange works for |
| `NodeStorageRuns.EveryWordSaidAlone` | agent/guestagent/nodestorage.go:201-213 | no declaration of a life was made with a peer connected |
| `NodeStorageRuns.NeverReseeded` | agent/guestagent/nodestorage.go:178-182 | metadata once there is never declared over again, until a lone convert=disable, while the volume is not at risk |
| `QuotaTree.GroupsAreDistinct` | agent/guestagent/qgroup.go:67-72 | group numbers tell tier and hash apart |
| `QuotaTree.Charged` | agent/guestagent/qgroup.go:145-153 | the loop's sum is over the groups with no parent |
| `QuotaTree.ChargedOnce` | agent/guestagent/qgroup.go:142-144 | in a strict tree that is the sum over the subvolumes: each byte once |
| `QuotaTree.OutsideAggregate` | agent/guestagent/qgroup.go:142-153 | what is charged outside an aggregate is not negative and holds every other aggregate |
| `QuotaTree.ChildHoldsNoMore` | agent/guestagent/qgroup.go:142-144 | a group holds no more than the group it is in |
| `QuotaTree.Volume.MakeGroup` | agent/guestagent/qgroup.go:175-187 | the missing parts tried in order, with others at work between, end in the group held unless a command of its own failed |
| `QuotaTree.Volume.AreaGroup` | agent/guestagent/qgroup.go:162-199 | the area's own group, held by its tier's aggregate alone: 2 for a files area, 1 for data, cache and unversioned; no group only when a command failed for its own reason |
| `QuotaTree.CreateChargesNothing` | agent/guestagent/qgroup.go:142-153 | a group just made adds nothing to what is charged |
| `QuotaTree.CreatedGrows` | agent/guestagent/qgroup.go:181-186 | a create keeps what every caller relies on |
| `QuotaTree.AssignedGrows` | agent/guestagent/qgroup.go:187 | and so does an assign: one parent, the right one |
| `QuotaTree.NextGrows` | agent/guestagent/qgroup.go:162-199 | each command of a caller keeps its course and takes it a step nearer its end |
| `QuotaTree.CallersSucceed` | agent/guestagent/qgroup.go:160-199 | any number of callers in any interleaving all succeed within five turns each, every group under exactly one parent |
| `FilesVersions.Sort` | agent/guestagent/filestier.go:316-317 | a permutation in order, newest or oldest first |
| `FilesVersions.Retention` | agent/guestagent/filestier.go:315-339 | exactly what is too old, or not the newest of its day or week |
| `FilesVersions.LetGoIff` | agent/guestagent/filestier.go:312-337 | in seconds and by the calendar: what is thirty days old goes; from seven days on what has a newer one in its week, from one day on in its day |
| `FilesVersions.DaysAndWeeks` | agent/guestagent/filestier.go:326-331 | two times are of one day or week exactly when no midnight, or no Monday's midnight, UTC comes between |
| `FilesVersions.NewestSurvives` | agent/guestagent/filestier.go:312-339 | over any run of takes and passes the newest ever taken in a day is there until seven days old, and of a week until thirty |
| `FilesVersions.PassLeavesOnePerBucket` | agent/guestagent/filestier.go:320-337 | a pass whose deletes succeed leaves at most one of each old day and each old week, and nothing of thirty days |
| `FilesTier.NewestOutlivesTicks` | agent/guestagent/filestier.go:150-199 | the same over whole ticks that shed nothing, for every app at once |
| `FilesVersions.AtMostTwelve` | agent/guestagent/filestier.go:312-314 | so at most seven and five a day old or older |
| `FilesTier.FilesAppHasRoom` | agent/guestagent/filestier.go:286-296 | with the target free no files app is at its cap |
| `FilesTier.DataFreeIsFilesFreeAndHeadroom` | agent/guestagent/filestier.go:286-290 | the data tier's free space is the files tier's and the headroom when the cap is not clamped |
| `FilesTier.DataAppHasRoom` | agent/guestagent/filestier.go:261-265 | with the target free no data app is at its cap, whatever the slack |
| `FilesTier.ReserveIsEnough` | agent/guestagent/filestier.go:56-59 | up to a slack of eighty targets the reserve alone shows it |
| `FilesTier.SlackIs` | agent/guestagent/filestier.go:298-310 | the slack is what is used beyond what is charged, and room for one more metadata chunk in every copy, and no more: 1 GiB on a volume over 50 GiB, else 256 MiB, never over a tenth |
| `FilesTier.AllocationFits` | agent/guestagent/filestier.go:286-310 | unclamped, data, its headroom, the files cap, the bytes nobody is charged for and one chunk in every copy fit the volume |
| `FilesTier.FiguresAre` | agent/guestagent/filestier.go:286-290 | the report's cap, headroom, free space and target, in bytes |
| `FilesTier.CapsSetAre` | agent/guestagent/filestier.go:261-277 | the caps the apps get, in bytes: nine tenths of what they use and their tier has free, or all but the reserve; files under aggregate 2, data under 1 |
| `FilesTier.CapLeavesTheRest` | agent/guestagent/filestier.go:49-57 | an app at its cap leaves a tenth or the reserve, whichever is less, and its room is never less than free less the reserve |
| `FilesTier.ShedMovesOnlyFiles` | agent/guestagent/filestier.go:216-223 | a shed that frees only bytes under the files aggregate leaves the data's use, the cap and the target |
| `FilesTier.UnwarnedAppsHaveRoom` | agent/guestagent/filestier.go:49-59 | with the target free, every app of either tier has a cap above its use, over the tree |
| `FilesTier.Guest.RingOf` | agent/guestagent/filestier.go:163-198 | one area's take exactly when its newest is an hour old, and a pass over its own ring; every command that fails is recorded, and nothing else |
| `FilesTier.Guest.Rings` | agent/guestagent/filestier.go:161-199 | the same for every area, each ring on its own; without an error every ring is what the take and its retention leave, and the listing is what is on the disk |
| `FilesTier.Guest.Measure` | agent/guestagent/filestier.go:218-223 | the report's figures are the rule's over the tree |
| `FilesTier.Guest.Eligible` | agent/guestagent/filestier.go:232-233 | oldest first, every version older than a day and no other |
| `FilesTier.Guest.ShedOne` | agent/guestagent/filestier.go:238-256 | one version tried; once deleted the cleaner is waited for and the tree read again, and the report says what came of each |
| `FilesTier.Guest.Valve` | agent/guestagent/filestier.go:234-259 | its commands, in order: the oldest of the queue first, each delete only while the tree as last read has too little room and each followed by the cleaner and a reading; with room at the start, no command at all; ends with room, out of versions, or with a recorded error; short exactly when it tried one under five days or ran out |
| `FilesTier.Guest.Caps` | agent/guestagent/filestier.go:261-277 | every app group gets the cap of the tier that holds it, or an error is recorded |
| `FilesTier.Guest.Tick` | agent/guestagent/filestier.go:150-279 | the whole tick: rings passed, nothing younger than a day lost, exactly the failed commands recorded; the valve's commands kept to its rule from the tree this tick read and nothing shed while that tree has room; the slack is the volume's; without an error the figures, the files cap and the apps' caps are those of the trees it read, it ends with room or nothing left to shed, and short is said exactly as it should be; no error and not short means nobody is at a cap |
| `FilesView.View.Clear` | agent/guestagent/filesview.go:211-226 | of a wanted folder's mounts the lowest is kept, of any other none |
| `FilesView.View.BindOne` | agent/guestagent/filesview.go:227-252 | a bind that shows its source is kept, a stale or missing one is made as asked, one without a source is taken away; a look that gave no answer is counted |
| `FilesView.View.Reconcile` | agent/guestagent/filesview.go:204-258 | with no failed command and every look answered, each wanted folder with a source has one mount showing it, and there is no other; each failure and each unanswered look costs at most its own folder; a right bind is not interrupted; a settled table gets no mount and no umount |
| `FilesView.View.ReconcileTwice` | agent/guestagent/filesview.go:204-258 | the second of two such reconciles finds the table settled and gives no command |
| `FilesView.UnescapeMountinfo` | agent/guestagent/filesview.go:302-318 | the loop computes the left-to-right reading |
| `FilesView.UnescapeInvertsEscape` | agent/guestagent/filesview.go:300-301 | which undoes the kernel's octal escaping, for any escape set with the backslash |
| `FilesView.BackslashMustBeEscaped` | agent/guestagent/filesview.go:300-318 | and for no set of marks without it |
| `FilesView.ReadInPlace` | agent/guestagent/filesview.go:303-316 | each backslash in its place: a well-formed escape becomes its byte, a malformed or out-of-range one is kept as written, whatever stands around it |
| `FilesView.ThreeBytesEach` | agent/guestagent/filesview.go:307-316 | three bytes go for each well-formed escape and none for anything else |
| `FilesView.KeptIffNoEscape` | agent/guestagent/filesview.go:303-305 | a path is kept as it is exactly when no escape in it is well formed |
| `RecorderRestore.Guest.Stop` | agent/guestagent/dbcheck.go:199-203 | the running units are stopped, the last first, one after the other |
| `RecorderRestore.RestoredIffNothingHidden` | agent/hass/dbcheck.go:435-472 | what is put back is the restored copy exactly when no unanswered look hid a log with frames or a rename |
| `RecorderRestore.Guest.DropAside` | agent/hass/dbcheck.go:464-470 | the renames go and every other file stays; without the listing they stay too |
| `RecorderRestore.Guest.PutDatabase` | agent/hass/dbcheck.go:444-472 | the copy gets the member's database always and its log if the look for one was answered, loses the old logs and, if they could be listed, the renames, and keeps every other file |
| `RecorderRestore.Guest.TakeUndo` | agent/guestagent/inbound.go:751-772 | an undo point that cannot be labelled is taken away again; one that is taken is labelled |
| `RecorderRestore.Guest.Stage` | agent/guestagent/dbcheck.go:222-238 | the live data with the database put back, beside it and flushed; refused when something is in the way |
| `RecorderRestore.Guest.GiveUp` | agent/guestagent/dbcheck.go:218-221 | nothing is changed and nothing left stopped |
| `RecorderRestore.Guest.SwapIn` | agent/guestagent/dbcheck.go:222-275 | the copy, its flush, the undo point and the exchange, in that order; what a failure leaves |
| `RecorderRestore.Guest.Restore` | agent/guestagent/dbcheck.go:181-282 | wherever it stops the live data is the original or what was put back, with the undo point holding the original; the data is copied, sampled and exchanged only with every unit of the app down, after all that ran were stopped last first; once swapped it is the restored copy exactly when nothing was hidden; every failure up to the swap leaves no trace; after it the units run and no copy is left; with nothing failing it swaps exactly when the member has a database and nothing foreign is in the way |
| `RecorderRestore.UnansweredLooksGoUnnoticed` | agent/hass/dbcheck.go:458-470 | over a member with rows in its log and data with a rename, a restore that reports success is the restored copy only if both looks were answered |
| `DataReplace.AcceptedStaysInside` | agent/guestagent/guestagent.go:1190-1195 | a sweep path that is not refused leads inside the staged copy |
| `DataReplace.RefusedIff` | agent/guestagent/guestagent.go:1192-1195 | exactly the empty path, one from the root and one with two dots in a row are refused |
| `DataReplace.NameLeads` | agent/guestagent/guestagent.go:1196 | a plain name leads to the file of that name |
| `DataReplace.SlashJoins` | agent/guestagent/guestagent.go:1196 | a slash joins two ways, and stays inside |
| `DataReplace.PathLeads` | agent/guestagent/guestagent.go:1196 | the path of any file, if it is not refused, leads to that file |
| `DataReplace.SweptIsWithout` | agent/guestagent/guestagent.go:1192-1199 | the swept copy is the member without the swept paths, and nothing more is gone |
| `DataReplace.SweptIsAway` | agent/guestagent/guestagent.go:1192-1199 | no file whose path is on the list is in the swept copy, and every file no listed path leads to is, as it was |
| `DataReplace.Guest.ClearCache` | agent/guestagent/guestagent.go:2397-2419 | a cache area that answers is emptied, its directories made again; one is missed only when it did not answer |
| `DataReplace.Guest.ClearStaged` | agent/guestagent/guestagent.go:1163-1171 | a subvolume left at the staging name is deleted unless it did not answer; a directory is left |
| `DataReplace.Guest.Sweep` | agent/guestagent/guestagent.go:1192-1199 | only the staged copy changes, by exactly the files whose paths are listed, or a refused path stops it |
| `DataReplace.Guest.Replace` | agent/guestagent/guestagent.go:1122-1205 | wherever it stops, the live data is the original or the whole swept copy is there, also over a leftover subvolume while every look is answered; the restore point is never touched; what goes live has no file whose path was to be swept, every other of the member's, and counts in the app's own group; only a directory, or a leftover that did not answer, is overlaid instead; with nothing failing it succeeds exactly when the point and the live data are there, no sweep path is refused and the snapshot has a place |
| `DataReplace.Guest.LeftoverDirectoryGoesLive` | agent/guestagent/guestagent.go:1163-1179 | a run over a leftover directory in which nothing fails reports success and leaves that directory live with the member nested in it |
| `SessionTrust.Dashboard.SweepHops` | dashboard/hop.go:151-157 | exactly the codes past their minute go |
| `SessionTrust.Dashboard.Sweep` | dashboard/main.go:727-733 | exactly the requests past their five minutes go |
| `SessionTrust.Dashboard.DeviceOf` | dashboard/main.go:487-502 | the registered device with this token; none only if there is none or the registry cannot be read |
| `SessionTrust.Dashboard.AddDevice` | dashboard/main.go:522-544 | a new row for the new session, in place of the one the browser carried |
| `SessionTrust.Dashboard.Redeem` | dashboard/main.go:418-470 | a session for the outstanding code in its time and for no other, failing commands aside; the code is gone then, and a wrong one consumes nothing |
| `SessionTrust.Dashboard.Ask` | dashboard/main.go:618-648 | one more request under a free code exactly while fewer than eight wait |
| `SessionTrust.Dashboard.Wait` | dashboard/main.go:653-683 | the session of this cookie's approved request, which is spent |
| `SessionTrust.Dashboard.Approve` | dashboard/main.go:694-724 | a request not yet approved gets a fresh registered session |
| `SessionTrust.Dashboard.Revoke` | dashboard/main.go:551-587 | the row of that name goes, and nothing else |
| `SessionTrust.Dashboard.Mint` | dashboard/hop.go:109-120 | a fresh code for the session the browser carries, dated now |
| `SessionTrust.Dashboard.Spend` | dashboard/gate.go:106-123 | the session of a code within its minute; the code is gone whoever asks |
| `SessionRuns.RunKeeps` | dashboard/main.go:162-174 | over any run every grant is justified, at most eight requests wait, and every registered device was let in |
| `SessionRuns.HeldIsAccountedFor` | dashboard/main.go:599-607 | every session a browser holds came from a code it redeemed within 600 seconds, its own request approved within 300, or a code minted within 60 for a holder of the same session |
| `SessionRuns.ConsumedOnce` | dashboard/gate.go:105-123 | no code and no approved request is consumed twice, by either redeemer |
| `SessionRuns.HeldWasMade` | dashboard/hop.go:125-148 | a session in anybody's hands was made for a device that was let in |
| `SessionRuns.TrustComesFromTheMachine` | dashboard/main.go:414-417 | no session is made, approved, minted or held before a code of the machine's was redeemed |
| `SessionRuns.RevokeEndsOne` | dashboard/main.go:546-576 | revoking takes that session off the list and leaves every other on it |
| `SessionRuns.RevokedForGood` | dashboard/main.go:522-544 | a session off the list never comes back |
| `SessionRuns.RevokedIsPowerless` | dashboard/main.go:341-347 | from its revocation on a session approves and mints no more than once for each of its requests already past the check, and with none in flight never |
| `DoorGate.Gate.Settle` | reverse-proxy/gate.go:185-197 | the stale entries go, the others stay, and this one is stamped or dropped, the clock read for each |
| `DoorGate.StepKeeps` | reverse-proxy/gate.go:171-198 | no stamp and no standing answer outlives its session by more than one ask, whichever request moves |
| `DoorGate.RevocationIsBounded` | reverse-proxy/gate.go:171-198 | under any interleaving no request is let in once thirty seconds and one ask have passed since the revocation, nor ever on a session that was not registered |
| `DoorGate.BoundIsMet` | reverse-proxy/gate.go:171-198 | and one can be let in a second before |

## Left out

- The commands themselves (btrfs, cryptsetup, LVM, drbdadm, systemctl, podman, mount), the serial and HTTP transport, JSON, logs and pages.
- Rendering a manifest into units beyond which files and units it has: unit names are taken not to collide between apps, and a user's own files never to carry the product's prefix.
- The dependency order of starts and stops within an app, and systemd's restart delay: a unit that comes back does so in one step.
- What pulling an image and preparing an app (agent/apps) do: each succeeds or fails; an app's images are one command, in the order of the apps, where the code has one command an image, sorted.
- Converge's refresh and demotion's tear-down of the Files view, and what the routing table says beyond name and address.
- A read error of the units list or of the started-record while the file is there.
- The recovery of a first bring-up that died part-way, which may need outside help; an area whose live copy is gone after a crash of data.replace, which a second run does not finish (`DataReplace.Guest.Replace` succeeds only over a live area).
- Whether the undo point is labelled quiesced or not, which the clean-stop marker decides.
- The KDF and cipher parameters, pvmove, and conversions other than the metadata's.
- Sixty-four-bit overflow in the allocation rule, and the sub-second part of the clock a version is taken at.
- filesViewWanted's folder names and pruneViewDirs; mounts nested in one another under the view; sources that move while a reconcile runs; a kept bind whose read-only flag is not the one wanted.
- A symbolic link inside a staged copy: a sweep path is followed by its components only.
- Writes by the app while its data is being swapped; recordMember and the pruning of the ring after the undo point.
- hass.Restorable, the choice of a member, and the busy flag around the check and the restore.
- Home Assistant's first user (accountFile), the addresses a browser is sent to, casa names, cookies' attributes, headers and the signed assertion.
- The form posts behind a session's check other than approving and minting: they end without either.
- FilesTier.Guest.Tick: the files aggregate's own limit is set before the valve, from the first measurement only, as the code does.
