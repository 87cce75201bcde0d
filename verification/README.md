# keepass-deltasync: a verified model

keepass-deltasync keeps a KeePass database in step on any number of devices. A server holds one log of
encrypted object versions per database and numbers them consecutively; all merging is done by the clients,
last writer wins, by `keepassxc-cli`. A client remembers per object the latest time it knows to be synced, the
last sequence number it saw, and the groups it knew. This project models that protocol and what surrounds it
in Dafny, and proves what it guarantees, and where it does not.

| Module | What it models |
|---|---|
| `Tracking` | the tracking state of a database binding, timestamps stored as whole seconds, the push test |
| `GroupTree` | merging the group tree of a pull, known groups, the group-deletion guard |
| `PullSide`, `PushSide` | the two halves of a sync, as methods on the tracking state, proved against functions |
| `Commands` | the one-shot commands on the config file; whole runs of pulls and pushes |
| `FastPath` | the daemon's cycle and its "skip the expensive push" test |
| `CoalescerModel` | the trigger coalescer under every interleaving |
| `Server` | the server's log, `GET /changes`, the last-writer-wins merge |
| `NoSkip` | `LastSeq` against a server on which others write at any moment |
| `Devices` | many devices with entries and groups over one server: export, pull, push, whole cycles and rounds |
| `Convergence`, `ContentConvergence`, `Moves`, `GroupDeletion` | when, and up to what, all copies become equal |
| `Pages` | the paged transfer of the search index from the native host to the extension |
| `PasswordCache` | the native host's passwords, idle timers and index |
| `RequestTable` | the extension's table of requests waiting for the host |
| `AutoConnect` | locking and automatic unlocking, one handler at a time and interleaved |
| `Search`, `PopupList` | the search, its ranking, and the popup's list and arrow keys |
| `EnvFile` | the server's `.env` file: what the setup page writes and what the server reads |
| `Basics`, `Lists` | options, sorted listings of sets, filtering, stable sorting |

Times are integers of nanoseconds; a recorded time is a whole second or a text that does not parse. UUIDs are
the numbers they spell (in lower-case hexadecimal of fixed width the two orders agree). The merge by
`keepassxc-cli` is an assumption: content and deletion follow the later modification time (a deletion wins a tie),
the place of a live entry or group the later move time. The network, the file system, exports and the clock are
parameters of each step; everything they may answer is covered.

## Main results

* **Convergence of content.** After any run of edits, moves, failed pulls and syncs that go through, fail
  part-way or cannot save their outcome, in which no group is deleted, no two contents of an object share a second, and each edit is later than
  what its device has recorded for the object unless it is beaten anyway: once every device has completed one cycle
  after the last edit and then one more, all databases hold the server's entries and groups with equal content, each
  the latest version ever made (`ContentConvergence.ContentConverges`). The condition on edits is exact: without it
  the next cycle does not deliver the edit (`ContentConvergence.EditArrivesIff`), be it because a clock was set back
  or because two devices' clocks differ.
* **Convergence of whole databases.** If in addition times are whole seconds and a later modification also files the
  object no earlier, whole databases become equal, groups and placement included (`Convergence.Converges`). On the
  way nothing is ever filed in a group the receiver lacks, because groups are exported parents first
  (`Convergence.PlacesResolve`, `Convergence.PlacesStayCovered`).
* **Placement does not converge in general.** A move overtaken by an edit made elsewhere is never uploaded. A
  local change is uploaded exactly when it is not overtaken (`Moves.UploadedUnlessOvertaken`).
* **Deleting a group.** A push sends a known group that is missing as a tombstone of its own time; a group deleted
  for good is in the export's deletions besides, and goes out last with the time of the deletion. So the time of
  death is the deletion's own, if the device lists it and has not recorded it yet, and else that of the push. The
  deletion prevails on all devices exactly when that is no earlier than the last modification of the group on any
  other device, also if others had deleted the group before (`GroupDeletion.DeletionPrevailsIff`). If whoever still
  has the group had synced it, server and devices agree exactly then; otherwise the server says deleted for ever
  while the devices keep the group (`GroupDeletion.DevicesAgreeIff`). `EarlyTombstoneIsReal` is an input with a slow
  clock, `PushTimeDoesNotDecide` one in which a late push does not help.
* **The group guard can be outwaited.** A refusal deletes nothing as long as the groups come back
  (`Commands.RefusalIsForgottenOverRuns`), but a pull that brings one of the missing groups' tombstones may take the
  rest below the threshold (`Commands.RefusalYieldsToAPull`). It never holds back permanent deletions
  (`GroupDeletion.DeletionPassesTheGuard`).
* **Nothing is skipped, exactly under the proviso.** In a cycle, a write by another device between the `GET` and the
  last `PUT` is passed over for ever. The window opens already inside the `GET`, which reads its rows before the
  current number (`NoSkip.FinishSkipsIffWindowForeign`). In a push without a pull, the window opens where `LastSeq`
  stands, so one that starts behind skips what it had not pulled (`NoSkip.PushOnlySkipsIff`).
* **Push quiescence.** A second push of the same whole-second export sends nothing, whatever pulls have done in
  between, except that a guard that refused the first time must still refuse or have nothing left to refuse
  (`PushSide.PushQuiesces`). A time with a fraction of a second is uploaded for ever, and that is the only exception
  to quiescence without whole seconds (`PushSide.QuiescentUnlessFractionPending`).
* **No version with a whole-second time is uploaded twice**, unless the outcome of a push was dropped. The one-shot
  commands drop it when the push fails part-way (`Commands.RepeatedIffDropped`); the daemon never does
  (`FastPath.DaemonUploadsLater`).
* **What a device uploads is what it has.** Every request carries an object of the export as it is, with its own
  modification time (`PushSide.RequestsCarryTheExport`), and pulled again it is staged and merged as such
  (`Devices.StoredIsUploaded`, `Devices.MergesWhatIsStaged`). The server's log in the theorems on convergence is made
  of these requests.
* **A restart repeats nothing saved.** The daemon saves after every cycle that got through its pull, however the push
  ended, so after a restart only uploads since the last successful save can go out again
  (`FastPath.RestartRepeatsNothingSaved`).
* **The daemon's fast path refines the full cycle** if the group guard did not refuse the last successful push
  (`FastPath.SkipRefinesPush`), and also if every merge writes the file (`FastPath.SkipIsSilentIfMergesWrite`). With
  a refused push and a merge that had nothing to write, a cycle can skip a push that is due
  (`FastPath.RefusedStampSkipsADuePush`); exactly when is `FastPath.SkipWasDueIff`.
* **A lock holds exactly when no handler is past its check** (`AutoConnect.LockHoldsIff`): an automatic unlock
  already under way undoes it (`AutoConnect.LockLiftedByLateConnect`).
* **The top row is what Enter opens exactly when** an address scored higher than the text, or the primary
  address is the best scored anyway (`Search.BestIsFirstRankedIff`); the comment in `extension/popup.js:332-333`
  says always, and `Search.TopRowIsNotWhatEnterOpens` has an entry for which it is not so.

## Model

| member | source | states |
|---|---|---|
| `Tracking.RecordIfNewerRaises` | client/internal/config/config.go:185-206 | what a pull records is the later of the old knowledge and the server's time; nothing else moves |
| `Tracking.ShouldPushIsNotAtLeast` | client/cmd/keepass-deltasync/syncop.go:694-709 | an object is due exactly when nothing as late as its trigger is recorded, also when the record does not parse |
| `Tracking.FloorIsLastSecond` | client/cmd/keepass-deltasync/syncop.go:326-333 | a recorded time is the last whole second at or before the time |
| `Tracking.Database.RecordEntryState` | client/internal/config/config.go:178-183 | writes exactly one state |
| `Tracking.Database.RecordEntryStateIfNewer` | client/internal/config/config.go:193-206 | writes it only forward, or over a text that does not parse |
| `GroupTree.MergeGroupTree` | client/cmd/keepass-deltasync/syncop.go:471-510 | computes the merged tree that the next three lemmas describe |
| `GroupTree.MergedTreeUuids` | client/cmd/keepass-deltasync/syncop.go:471-510 | exactly the groups of either input that are not tombstoned come out |
| `GroupTree.MergedTreeWinners` | client/cmd/keepass-deltasync/syncop.go:471-510 | each once; the pulled version wins and inherits the local search flag; other local groups are unchanged |
| `GroupTree.PulledEntryKeepsItsGroup` | client/internal/kdbx/staging.go:142-165 | a pulled entry keeps its group exactly when that group lives in either input and is not tombstoned |
| `GroupTree.PruneKnownGroups` | client/cmd/keepass-deltasync/syncop.go:447-462 | drops exactly the tombstoned groups, in order |
| `GroupTree.DoomedGroups` | client/cmd/keepass-deltasync/syncop.go:519-534 | the known groups the export lacks, and how many of them are not in the recycle bin either |
| `PullSide.PullChanges` | client/cmd/keepass-deltasync/syncop.go:301-442 | computes Pull on the binding in place, on every error path |
| `PullSide.PullTracks` | client/cmd/keepass-deltasync/syncop.go:301-442 | recorded times never move back even when a pull fails; a successful one knows exactly what was known or reported and forgets exactly the tombstoned groups |
| `PullSide.PullOkIff` | client/cmd/keepass-deltasync/syncop.go:301-442 | a pull succeeds exactly when the server answers, every change can be read, and, if there is any, the merge works |
| `PullSide.FailedPullRecords` | client/cmd/keepass-deltasync/syncop.go:311-360 | one that cannot read a change has recorded the times before it, and its own if only the payload is bad |
| `PullSide.PullStagesEverything` | client/cmd/keepass-deltasync/syncop.go:311-396 | nothing is lost or invented on the way to the merge: exactly the entries and deletions of the changes are staged, and exactly the pulled and the remaining local groups |
| `PushSide.PushChanges` | client/cmd/keepass-deltasync/syncop.go:570-692 | computes Push on the binding in place, on every error path |
| `PushSide.RequestsCarryTheExport` | client/cmd/keepass-deltasync/syncop.go:589-687 | every request, of a push that goes through or not, carries an object of the export with its kind, its fields, its group and its own modification time to the second; all others are tombstones for known groups the export lacks |
| `PushSide.StatesAfterPush` | client/cmd/keepass-deltasync/syncop.go:589-691 | after an error-free push each object is known as of the latest of what was known and offered, however UUIDs overlap |
| `PushSide.SilentIff` | client/cmd/keepass-deltasync/syncop.go:589-691 | exactly when a push issues no request, whatever the network would answer |
| `PushSide.PushQuiesces` | client/cmd/keepass-deltasync/syncop.go:589-691 | through any pulls in between, a second push of the same whole-second export is silent exactly when the guard, if it refused, still does or has nothing left to refuse |
| `PushSide.LastOfferKnown` | client/cmd/keepass-deltasync/syncop.go:609-609 | the latest offer of a UUID is remembered in full exactly when it is a whole second or was known before |
| `PushSide.QuiescentUnlessFractionPending` | client/cmd/keepass-deltasync/syncop.go:589-691 | without whole seconds quiescence fails exactly when a latest time lies within a second and is not yet known |
| `PushSide.HalfSecondIsPushedForEver` | client/cmd/keepass-deltasync/syncop.go:654-673 | the witness |
| `PushSide.GuardOnPush` | client/cmd/keepass-deltasync/syncop.go:613-652 | an error-free push sends as group tombstones nothing or exactly the missing known groups; not refused means at most five, or a quarter, are unexplained; refusal keeps the known groups |
| `Commands.ConfigFile.RunSync` | client/cmd/keepass-deltasync/sync.go:50-65 | pull then push, LastSeq the larger of both, and all of it is stored or none |
| `Commands.ConfigFile.RunPush` | client/cmd/keepass-deltasync/push.go:45-62 | push only; LastSeq is raised, never lowered |
| `Commands.ConfigFile.RunPull` | client/cmd/keepass-deltasync/pull.go:40-53 | pull only; LastSeq is the server's number |
| `Commands.LastSeqPassesThrough` | client/cmd/keepass-deltasync/syncop.go:570-692 | a push neither reads nor changes LastSeq |
| `Commands.UploadsOfARun` | client/cmd/keepass-deltasync/syncop.go:591-687 | the uploads of a run are those of its pushes |
| `Commands.NoVersionUploadedTwice` | client/cmd/keepass-deltasync/syncop.go:591-687 | over any run of whole-second exports whose outcomes are kept, recorded times never fall and triggers per UUID strictly increase |
| `Commands.RepeatedIffDropped` | client/cmd/keepass-deltasync/sync.go:55-65 | a repeated push of a whole-second export repeats an upload exactly when the first outcome was dropped |
| `Commands.KnownGroupsStaySortedOverRuns` | client/cmd/keepass-deltasync/syncop.go:651-651 | over any run, known groups stay sorted and free of duplicates |
| `Commands.RefusalIsForgottenOverRuns` | client/cmd/keepass-deltasync/syncop.go:625-641 | after a refusal, through any pulls and further refused pushes, an export with all known groups deletes nothing |
| `Commands.RefusalYieldsToAPull` | client/cmd/keepass-deltasync/syncop.go:447-462 | six missing groups are refused; once a pull has forgotten one of them, the next push deletes the other five |
| `FastPath.DbWorker.DoSync` | client/cmd/keepass-deltasync/daemon.go:466-530 | computes Cycle on the worker, its binding and the config file |
| `FastPath.CycleSavesAllItKnows` | client/cmd/keepass-deltasync/daemon.go:480-517 | a cycle that got through its pull and can save leaves on disk all it knows, also after a failed export or push; an idle one, or one that fails before or cannot save, leaves the disk alone |
| `FastPath.CycleAdvances` | client/cmd/keepass-deltasync/daemon.go:486-517 | LastSeq becomes the server's number, or a later one of an own upload |
| `FastPath.StampIsFromBefore` | client/cmd/keepass-deltasync/daemon.go:510-524 | the stamp changes only with a push that goes through and is saved, to the one taken before its export |
| `FastPath.FailedPullStays` | client/cmd/keepass-deltasync/daemon.go:480-484 | a failed pull keeps LastSeq, known groups, disk and stamp |
| `FastPath.StampedThenSkips` | client/cmd/keepass-deltasync/daemon.go:486-496 | after a complete cycle, one that finds nothing new and the file untouched does skip the push |
| `FastPath.DiskIsLastSave` | client/cmd/keepass-deltasync/daemon.go:466-530 | over any run the disk holds what was known at the last save |
| `FastPath.RestartRepeatsNothingSaved` | client/cmd/keepass-deltasync/daemon.go:466-530 | a daemon restarted from disk repeats no upload made up to the last save |
| `FastPath.CycleIsARun` | client/cmd/keepass-deltasync/daemon.go:466-530 | a cycle, skipped or full, failed or not, is a run of at most one pull and one push whose outcomes are kept |
| `FastPath.DaemonUploadsLater` | client/cmd/keepass-deltasync/daemon.go:466-530 | over any run of cycles on whole-second exports the daemon never uploads a version twice |
| `FastPath.SkipRefinesPush` | client/cmd/keepass-deltasync/daemon.go:486-524 | with fresh stamps and the last successful push not refused, a skipped push would have issued no request |
| `FastPath.SkipIsSilentIfMergesWrite` | client/cmd/keepass-deltasync/daemon.go:486-496 | nor would it, refused or not, if every merge writes the file |
| `FastPath.SkipWasDueIff` | client/cmd/keepass-deltasync/daemon.go:486-524 | without the guard proviso, exactly when a skipped push was due |
| `FastPath.RefusedStampSkipsADuePush` | client/cmd/keepass-deltasync/daemon.go:486-524 | a refused push and a merge that had nothing to write lead to a skipped push that is due |
| `CoalescerModel.Coalescer.Request` | client/cmd/keepass-deltasync/daemon.go:184-194 | the critical section of a request |
| `CoalescerModel.Coalescer.FinishRound` | client/cmd/keepass-deltasync/daemon.go:196-208 | the critical section after a run |
| `CoalescerModel.RequestRefines` | client/cmd/keepass-deltasync/daemon.go:184-194 | the method is the machine's step |
| `CoalescerModel.FinishRefines` | client/cmd/keepass-deltasync/daemon.go:199-206 | the method is the machine's step |
| `CoalescerModel.CoalescerSafety` | client/cmd/keepass-deltasync/daemon.go:175-208 | in every interleaving at most one loop is alive, no request is left without a run to come, runs never exceed requests |
| `CoalescerModel.HistoryCounts` | client/cmd/keepass-deltasync/daemon.go:184-208 | the counters of the machine are the requests made and the runs begun and finished |
| `CoalescerModel.WaitIsOver` | client/cmd/keepass-deltasync/daemon.go:210-221 | when a waiter sees no loop running, every request made has been served by a run that has finished |
| `CoalescerModel.LoopProgress` | client/cmd/keepass-deltasync/daemon.go:196-208 | the loop always has a step that brings the end nearer |
| `CoalescerModel.DrainServesAll` | client/cmd/keepass-deltasync/daemon.go:196-208 | left alone, the loop serves every request and stops |
| `CoalescerModel.BurstAddsOneRun` | client/cmd/keepass-deltasync/daemon.go:172-183 | any burst during one run adds exactly one more |
| `Server.MergeOfferedRaises` | client/internal/api/client.go:577-580 | merging an answer never loses a later modification, from either side |
| `Server.MergeKeepsLatest` | README.md:56-56 | the merge has the content of the later modification, in which a deletion wins a tie, and the place of the later move |
| `NoSkip.LastSeqIsMonotone` | client/cmd/keepass-deltasync/sync.go:50-65 | LastSeq only grows and stays within the server's number, over any run |
| `NoSkip.NothingIsSkipped` | client/cmd/keepass-deltasync/daemon.go:480-517 | under the proviso the newest foreign version at or below LastSeq has been merged |
| `NoSkip.FinishSkipsIffWindowForeign` | client/cmd/keepass-deltasync/sync.go:60-65 | for one cycle the proviso is exact |
| `NoSkip.PushOnlySkipsIff` | client/cmd/keepass-deltasync/push.go:50-59 | for a push without a pull nothing is skipped exactly when nothing foreign lies between the old LastSeq and the new |
| `NoSkip.PushBehindLosesAVersion` | client/cmd/keepass-deltasync/push.go:50-59 | the witness: a push from behind passes over another device's version for ever |
| `NoSkip.SkipIsPermanent` | server/src/Controllers/EntryController.php:51-115 | a version LastSeq has passed is never offered again |
| `NoSkip.WindowWriteIsLost` | client/cmd/keepass-deltasync/sync.go:50-65 | any foreign write between the GET and an own upload is lost to this device |
| `NoSkip.WriteDuringTheGetIsLost` | server/src/Controllers/EntryController.php:51-115 | so is one between the GET's reading of rows and of the number |
| `Devices.SyncIsTheCommand` | client/cmd/keepass-deltasync/sync.go:50-65 | a device's step is the sync command on its tracking state, whether it goes through, fails or cannot save |
| `Devices.FailedPullIsTheCommand` | client/cmd/keepass-deltasync/daemon.go:480-484 | and so is a pull that fails, before the answer or at the merge |
| `Devices.PushIsOneRun` | client/cmd/keepass-deltasync/syncop.go:570-692 | a push deals with groups, group tombstones, entries and deletions in this order, as one run |
| `Devices.StoredIsUploaded` | client/cmd/keepass-deltasync/syncop.go:716-758 | what readers make of the requests of a push is what the device has, with modification times to the second |
| `Devices.MergesWhatIsStaged` | client/internal/kdbx/staging.go:134-219 | the staging database holds exactly the versions offered and local groups, and a pull leaves the merge of what is staged, filed in the groups staged |
| `Devices.NewObjectLands` | client/internal/kdbx/staging.go:142-165 | what is new to a device lands in its group if that is staged, and else in Root |
| `Devices.ObjectsComeBack` | client/cmd/keepass-deltasync/syncop.go:797-851 | an entry, group or deletion that is uploaded and pulled is staged as it was exported, to the second |
| `Devices.ParentsFirst` | client/internal/kdbx/xml.go:243-270 | in a tree every group is exported after the one it is filed in |
| `Devices.WalkIsDepthFirst` | client/internal/kdbx/xml.go:243-270 | what is exported after a group is in Root, in that group, or in one around it |
| `Devices.BinnedGroupsAreExplained` | client/cmd/keepass-deltasync/syncop.go:519-534 | the guard counts exactly the known groups that are neither in the file nor in the recycle bin |
| `Devices.StagedTree` | client/cmd/keepass-deltasync/syncop.go:385-396 | the groups by which a pull files objects are those of the tree it stages |
| `Devices.KnownAfterPull` | client/cmd/keepass-deltasync/syncop.go:447-462 | a pull forgets exactly the known groups reported deleted |
| `Devices.PullReads` | client/cmd/keepass-deltasync/syncop.go:326-333 | the server's answer raises the recorded times to exactly its newest versions |
| `Convergence.PlacesResolve` | client/internal/kdbx/staging.go:142-165 | what arrives is filed where the server has it |
| `Convergence.PlacesStayCovered` | client/cmd/keepass-deltasync/syncop.go:587-612 | a push that stops anywhere leaves nothing on the server filed in a group the server lacks |
| `Convergence.AfterPull` | client/cmd/keepass-deltasync/syncop.go:301-442 | after a pull the device is level with the server and holds everything the server has, or later |
| `Convergence.AfterPush` | client/cmd/keepass-deltasync/syncop.go:570-692 | while uploading, device and server stay level; a complete push leaves the server with the device's file |
| `Convergence.StepKeepsInv` | client/cmd/keepass-deltasync/sync.go:50-65 | edits, failed pulls and syncs, complete or not, kept or dropped, lose no version |
| `Convergence.CleanSyncIsSilent` | client/cmd/keepass-deltasync/sync.go:50-65 | a device with nothing new uploads nothing |
| `Convergence.Converges` | README.md:54-60 | after one full round and one more every database equals the server's, groups and placement included, and each object is the latest version ever made |
| `ContentConvergence.StepKeepsSound` | client/cmd/keepass-deltasync/sync.go:50-65 | with moves at any time, content the server lacks stays due on its device |
| `ContentConvergence.PullRecordsNoMore` | client/cmd/keepass-deltasync/syncop.go:326-333 | a pull records nothing later than the server has |
| `ContentConvergence.FullSyncSends` | client/cmd/keepass-deltasync/sync.go:50-65 | a complete sync leaves the server with all the content of the file |
| `ContentConvergence.ContentConverges` | README.md:54-60 | with moves at any time and edits later than what is recorded, content converges to the latest version ever made |
| `ContentConvergence.EditArrivesIff` | client/cmd/keepass-deltasync/syncop.go:654-687 | what a device holds reaches the server in its next cycle exactly when its trigger is later than what the pull leaves recorded, or it is there already |
| `ContentConvergence.EditBehindARecordedMoveIsLost` | client/cmd/keepass-deltasync/syncop.go:654-673 | an edit timed before the device's own recorded move is never uploaded |
| `Moves.PushSendsIff` | client/cmd/keepass-deltasync/syncop.go:589-687 | a push that goes through sends an object exactly when its trigger is later than the recorded time |
| `Moves.UploadedUnlessOvertaken` | client/cmd/keepass-deltasync/syncop.go:326-333 | an unsynced change is uploaded exactly when the server's version has not overtaken it |
| `Moves.AgreeUnlessOvertaken` | client/cmd/keepass-deltasync/syncop.go:654-673 | after the cycle both sides agree, unless it was overtaken and the merge took something local or could not file it |
| `Moves.SettledStaysSettled` | client/cmd/keepass-deltasync/syncop.go:589-687 | and no later cycle changes that |
| `Moves.OvertakenMoveIsNeverUploaded` | client/cmd/keepass-deltasync/syncop.go:326-333 | the witness: an entry moved into a group, and edited elsewhere |
| `GroupDeletion.DeletingTurn` | client/cmd/keepass-deltasync/syncop.go:613-689 | the cycle of a device that pronounces a group dead leaves on the server a tombstone with the deletion's own time if that is news, else with the time of the push, and forgets the group |
| `GroupDeletion.DeletionPassesTheGuard` | client/cmd/keepass-deltasync/syncop.go:625-689 | a permanent deletion goes out although the guard refuses |
| `GroupDeletion.GroupTurn` | client/cmd/keepass-deltasync/syncop.go:570-692 | seen from one group that is not missing after the pull, a complete cycle sends it only if due, and no tombstone of its own |
| `GroupDeletion.PullInforms` | client/cmd/keepass-deltasync/syncop.go:447-462 | whoever pulls after a deletion misses no known group any more, also if it had deleted the group itself, and keeps a copy only if that is later |
| `GroupDeletion.DeletionPrevailsIff` | client/cmd/keepass-deltasync/syncop.go:638-689 | the deletion prevails on all devices exactly when its time of death is no earlier than the last modification elsewhere |
| `GroupDeletion.DevicesAgreeIff` | client/cmd/keepass-deltasync/syncop.go:638-689 | if whoever still has the group had synced it, server and devices agree exactly then |
| `GroupDeletion.EarlyTombstoneDivides` | client/cmd/keepass-deltasync/syncop.go:638-689 | a death too early stays the server's last word while a device keeps the group |
| `GroupDeletion.EarlyTombstoneIsReal` | client/cmd/keepass-deltasync/syncop.go:638-652 | the witness: two devices, and a clock that runs behind |
| `GroupDeletion.PushTimeDoesNotDecide` | client/internal/kdbx/xml.go:151-161 | the witness: deleted for good, modified elsewhere, then pushed; although the push is the latest of the three, the group survives |
| `Pages.ApproxJSONSize` | client/cmd/keepass-deltasync/browser_index.go:274-280 | computes the size of an entry |
| `Pages.EstimateCovers` | client/cmd/keepass-deltasync/browser_index.go:271-280 | how much larger the size is than the entry on the wire, if its texts need no escapes |
| `Pages.PageFitsOnTheWire` | client/cmd/keepass-deltasync/browser_index.go:251-269 | so a page of several such entries stays within the limit |
| `Pages.Paginate` | client/cmd/keepass-deltasync/browser_index.go:255-269 | a page is the longest that fits: one entry, or several within the limit |
| `Pages.FetchIndex` | extension/background.js:138-159 | the walk ends whatever entries and next offsets come back; against a steady index it yields exactly that index with as few pages as any cutting allows |
| `Pages.WalkStaysAhead` | client/cmd/keepass-deltasync/browser_index.go:255-269 | after as many pages the walk is never behind another cutting |
| `Pages.WalkIsOptimal` | client/cmd/keepass-deltasync/browser_index.go:255-269 | no cutting into pages that fit has fewer |
| `Pages.WalkIsAPartition` | extension/background.js:138-159 | the walk is itself such a cutting |
| `PasswordCache.Host.RememberPassword` | client/cmd/keepass-deltasync/browser_host.go:348-364 | the new password is cached, the old buffer wiped, that one timer restarted |
| `PasswordCache.Host.CachedPassword` | client/cmd/keepass-deltasync/browser_host.go:338-346 | a use restarts that one timer and changes nothing else |
| `PasswordCache.Host.ForgetPassword` | client/cmd/keepass-deltasync/browser_host.go:366-380 | expiry wipes one password and keeps the index |
| `PasswordCache.Host.ZeroAll` | client/cmd/keepass-deltasync/browser_host.go:382-397 | a lock wipes every buffer ever held, stops every timer, empties the index and bumps the generation |
| `PasswordCache.Host.AcquirePassword` | client/cmd/keepass-deltasync/browser_host.go:314-336 | typed, else cached, else from the keyring; exactly the last belongs to the caller |
| `PasswordCache.Host.Unlock` | client/cmd/keepass-deltasync/browser_host.go:225-271 | its whole effect; the keyring's buffer is zeros afterwards; the invariant holds throughout: cached names are those with a timer, what left the cache is zeros |
| `PasswordCache.UnlockAnswers` | client/cmd/keepass-deltasync/browser_host.go:225-271 | success exactly when there is a password, it opens the database and its content indexes; then the index is that content, the count its length, the generation the new one; a password is asked for exactly when there is none; other databases are untouched |
| `PasswordCache.UnlockDatabase` | extension/background.js:138-159 | with the count announced, the extension fetches the whole content of the database |
| `PasswordCache.HeldIff` | client/cmd/keepass-deltasync/browser_host.go:225-271 | a password is held exactly when it was typed, opened the database, and was not since expired, refused, replaced or locked away |
| `PasswordCache.GenerationTellsIndex` | client/cmd/keepass-deltasync/browser_host.go:262-266 | as long as the generation stays, so does every index |
| `PasswordCache.ExpiryAndLock` | client/cmd/keepass-deltasync/browser_host.go:366-397 | expiry keeps every index, a lock empties all and bumps the generation |
| `RequestTable.Transport.Post` | extension/background.js:43-68 | one request posted, refused before it has an id, or taken back |
| `RequestTable.SendOutcome` | extension/background.js:43-68 | a request waits under a new id, in the table and with a timer, exactly if there is a host and it takes the message; else it is rejected at once, for want of a host or of a posted message, and the table stays |
| `RequestTable.Transport.OnHostMessage` | extension/background.js:70-89 | settles the waiter of that id, or ignores the answer |
| `RequestTable.Transport.OnTimeout` | extension/background.js:55-58 | gives up on one request |
| `RequestTable.Transport.OnDisconnect` | extension/background.js:30-38 | rejects every waiter and empties the table |
| `RequestTable.StepKeepsInv` | extension/background.js:19-89 | the table holds exactly the posted and unsettled requests, one running timer for each, ids are unique |
| `RequestTable.RunStands` | extension/background.js:19-89 | over any run each promise settles at most once and keeps its outcome, and no id is reused |
| `RequestTable.FromTheStart` | extension/background.js:19-24 | from the empty table on, in every run, no promise is settled more than once |
| `RequestTable.OneMoreEvent` | extension/background.js:19-89 | a run goes through its events one after the other |
| `RequestTable.AnswerIsForItsOwn` | extension/background.js:76-89 | an answer settles the promise posted under its id, or nothing |
| `RequestTable.WaitingHasATimer` | extension/background.js:55-60 | every waiting promise has a timer whose firing rejects it and no other |
| `RequestTable.DisconnectRejectsAll` | extension/background.js:30-38 | afterwards nothing waits and no timer runs |
| `AutoConnect.Background.RunAutoConnect` | extension/background.js:214-240 | tries exactly the databases neither cached nor failed; afterwards each is one or the other, so no further attempt is offered |
| `AutoConnect.NothingLeftToTry` | extension/background.js:409-431 | the popup is told to attempt exactly when nothing is suppressed and an attempt would try something |
| `AutoConnect.LockHoldsIff` | extension/background.js:161-170 | a completed lock holds until a manual unlock exactly when no handler under way is past its check |
| `AutoConnect.LockLiftedByLateConnect` | extension/background.js:161-240 | from the start: auto-connect asks, the user locks, the answer arrives, and the lock is lifted |
| `AutoConnect.HarmlessHolds` | extension/background.js:91-109 | status, connect, search and "changed" events, interleaved in any way, then keep the cache empty |
| `AutoConnect.ConnectUndoes` | extension/background.js:214-240 | an auto-connect past its check undoes a lock |
| `AutoConnect.UnlockUndoes` | extension/background.js:138-159 | so does an unlock in flight |
| `AutoConnect.LockAlone` | extension/background.js:161-170 | a lock run by itself ends locked, whatever the host answers |
| `AutoConnect.ManualUnlockAlone` | extension/background.js:246-253 | a manual unlock that the host grants, run by itself, caches the database, takes back its failure mark and lifts a lock |
| `AutoConnect.RefusedUnlockAlone` | extension/background.js:246-253 | one that is refused changes nothing |
| `AutoConnect.ChangedAsks` | extension/background.js:91-109 | a "changed" event asks the host to unlock the database exactly if it is cached |
| `AutoConnect.ChangedAlone` | extension/background.js:91-109 | and run by itself leaves the store as it was |
| `AutoConnect.OneAttemptAtATime` | extension/background.js:200-212 | in every run at most one auto-connect is under way |
| `AutoConnect.AttemptAlone` | extension/background.js:214-240 | an uninterrupted attempt in the interleaved machine does what the handler does |
| `PopupList.ClusterByGroup` | extension/popup.js:252-264 | computes the clustering that the next six lemmas describe |
| `PopupList.SameGroupIff` | extension/popup.js:237-242 | entries belong together exactly if database and group are the same |
| `PopupList.ClusterIsPermutation` | extension/popup.js:241-264 | no hit is lost or repeated |
| `PopupList.GroupsKept` | extension/popup.js:241-264 | within a group the order stays |
| `PopupList.GroupOrderKept` | extension/popup.js:241-264 | groups come in the order of their first hits |
| `PopupList.ClusterIsContiguous` | extension/popup.js:241-264 | the hits of a group stand together |
| `PopupList.ClusterKeepsFirst` | extension/popup.js:241-264 | the best hit stays first |
| `PopupList.ClusterIdempotent` | extension/popup.js:241-264 | clustering again changes nothing |
| `PopupList.RowsOfHit` | extension/popup.js:344-350 | a hit has its own row, and one for each address if it has several |
| `PopupList.NextMovesOn` | extension/popup.js:358-361 | arrow down moves one row on in the unfolded list, from the last to the first |
| `PopupList.UpUndoesDown` | extension/popup.js:358-369 | up and down undo each other on every row |
| `PopupList.OneCycle` | extension/popup.js:344-369 | from the top every row is visited exactly once before the walk returns |
| `PopupList.EveryAddressReachable` | extension/popup.js:344-350 | every address of a hit with several is reached and opened that way |
| `Search.UrlScoreMeaning` | extension/search.js:35-41 | an address scores exactly when the word occurs in it |
| `Search.HostIs` | extension/search.js:22-28 | the host is what stands between the scheme and the path, query or fragment; all of an address without a scheme |
| `Search.LowerForgetsCase` | extension/search.js:35-58 | texts are the same in lower case exactly when they differ in the case of letters alone |
| `Search.TextScoreMeaning` | extension/search.js:44-58 | the text scores exactly when title or group include the word or the database is named so |
| `Search.BestIsWorth` | extension/search.js:35-58 | a word's score is that of the best place it occurs in, by one fixed order of places |
| `Search.TotalIsWorth` | extension/search.js:66-92 | a query's score is the sum over its words, less thirty without an address |
| `Search.WordAdds` | extension/search.js:66-92 | one more word adds to the score of each address, and of the text, what it is worth there |
| `Search.ScoreEntry` | extension/search.js:66-92 | computes the score, the score of each address and that of the text, or none |
| `Search.HitIff` | extension/search.js:60-65 | an entry scores exactly when every word matches somewhere, not necessarily the same place |
| `Search.BestURL` | extension/search.js:99-109 | the first best scored address, or the primary one if the text scored as high |
| `Search.RankingIsStable` | extension/search.js:117-121 | the ranking is a permutation, falls in score, and keeps the order of ties |
| `Search.BestIsFirstRankedIff` | extension/search.js:99-121 | exactly when the address a hit opens tops its list |
| `Search.TopRowIsNotWhatEnterOpens` | extension/search.js:99-121 | an entry and a query for which it does not |
| `Search.SearchIndex` | extension/search.js:125-143 | the first results of the sorted hits |
| `Search.HitsAreTheMatches` | extension/search.js:129-139 | one hit for each matching entry, and no other |
| `Search.ResultsAreSorted` | extension/search.js:141-141 | by score, then title, ties in index order |
| `Search.TokensOfWord` | extension/search.js:126-126 | typing one more word adds it to the search words |
| `Search.TokensOfFirst` | extension/search.js:126-126 | a single word is the only search word |
| `Search.SpacesMakeNone` | extension/search.js:126-126 | spaces make no word |
| `Search.OneMoreWordNarrows` | extension/search.js:60-65 | and never adds a hit, once there is a word |
| `EnvFile.UnescapeUndoes` | server/src/Config.php:130-136 | one pass undoes the two replacements |
| `EnvFile.UnquoteEscape` | server/public/setup.php:362-368 | reading a written value gives it back, whatever it holds |
| `EnvFile.QuotedUnlessPlain` | server/public/setup.php:362-368 | a value of plain characters is written as it is, any other in quotes |
| `EnvFile.PlainOnes` | server/public/setup.php:362-368 | letters, digits and eight signs are plain; their neighbours, blanks, quotes and what a shell would expand are not |
| `EnvFile.QuotesComeOff` | server/src/Config.php:130-136 | quotes come off a value written by hand, and only a pair of them |
| `EnvFile.OtherBackslashes` | server/src/Config.php:130-136 | inside them a backslash stands for itself, except before a quote or a backslash |
| `EnvFile.KeyAgrees` | server/public/setup.php:581-582 | writer and reader see the same key on every line |
| `EnvFile.WrittenReads` | server/public/setup.php:587-590 | a written line reads as its key and value |
| `EnvFile.SpacedReads` | server/src/Config.php:110-121 | blanks around key and value of a line do not matter |
| `EnvFile.NoKeyReadsNothing` | server/src/Config.php:114-117 | a line without a key sets nothing |
| `EnvFile.IndentedComment` | server/src/Config.php:110-113 | a comment sets nothing, also behind blanks |
| `EnvFile.Environment.LoadDotEnv` | server/src/Config.php:104-122 | computes ReadFile: settings in order, what is already set stays |
| `EnvFile.EnvStore.SaveEnv` | server/public/setup.php:540-602 | the file is rewritten when nothing fails and no value breaks a line, else left alone |
| `EnvFile.LinesOfImplode` | server/public/setup.php:591-591 | what a written file reads as, line by line |
| `EnvFile.LinesWithoutFinalBreak` | server/src/Config.php:109-109 | a last line without a line break is read as it is |
| `EnvFile.LastLineCounts` | server/public/setup.php:577-586 | such a line sets its key like any other, and after a save still does, unless the key is managed |
| `EnvFile.SavedReadsBack` | server/public/setup.php:564-591 | managed keys read as in the form, every other key as before, and the environment wins |
| `EnvFile.FormReadsBack` | server/public/setup.php:541-574 | each field comes back under its own key, trimmed unless it is the password |
| `EnvFile.AssignedIs` | server/public/setup.php:568-590 | each field sets its key to its value; only the empty base path is left out |
| `EnvFile.EachLineKeptIff` | server/public/setup.php:577-586 | of the lines before, exactly the earlier stamp and settings of managed keys go; all others stay, in order |
| `EnvFile.UnmanagedLinesKept` | server/public/setup.php:577-586 | unmanaged lines keep content and order exactly when none ends in a stray carriage return |
| `EnvFile.StrayCRIsLost` | server/public/setup.php:577-586 | a line ended by CR CR LF does not come back as it was |
| `EnvFile.SavingAgain` | server/public/setup.php:564-591 | saving the same form again changes only the date |

## Left out

- Force pushes: they record states without the push test, so at-most-once upload does not hold for them.
- `keepassxc-cli`, the file system, HTTP, the keyring and all cryptography: their answers are parameters; blobs are opaque.
- A word-for-word account of `keepassxc-cli merge`: last writer wins by modification time, and by move time for the place, is assumed. History items and icons are not modelled.
- Convergence.Converges: assumes that a later modification is filed no earlier and that times are whole seconds, since Moves.OvertakenMoveIsNeverUploaded and PushSide.HalfSecondIsPushedForEver show what happens otherwise; and that the groups a sync exports form a tree, as they do in any file.
- ContentConvergence.ContentConverges: assumes that an edit is later than the time its device has recorded for the object, unless the server's version wins anyway; EditBehindARecordedMoveIsLost shows why.
- Commands.NoVersionUploadedTwice: for whole-second times only, as PushSide.HalfSecondIsPushedForEver shows.
- GroupDeletion.DeletionPrevailsIff: of several deletions it speaks of the latest; and where times have fractions, not of another device's deletion yet to be sent and a later modification within one second.
- Deleted groups in the runs of `Convergence` and `ContentConvergence`: there groups are made, renamed and moved. Deleting one is `GroupDeletion`, which follows the group itself and not what was filed in it (`keepassxc-cli` keeps a group that still has content).
- The search flag of groups, which stays on its device; `GroupTree.MergedTreeWinners` covers it. The order of siblings in an export, where the file's own order is replaced by that of the UUIDs.
- Lost replies (an upload the server numbered but did not acknowledge): in `NoSkip` only; in the convergence runs a failing upload was not sequenced.
- Fractions of a second in move times, which staging drops; the model keeps them. `created` and other times of entries are part of the opaque fragment.
- Cycles in a staged group tree, whose members the staging builder drops.
- Years beyond 9999 in stored timestamps, and UUIDs of other lengths or in upper case.
- The goroutine race in the password cache (an idle timer firing while an unlock still reads the cached buffer): each operation is one step.
- `PasswordCache.Host.Unlock`: requests for unregistered databases, which change nothing, are not modelled.
- Pages are not checked against the index generation, by the extension either: if the host re-indexes between two requests the fetched list may mix two indexes. `Pages.FetchIndex` then promises only that it ends.
- Entries that arrive without a list of addresses, to which the extension gives an empty one.
- Unicode case folding and collation: lower-casing is ASCII, the locale's order of titles is a parameter.
- NUL bytes in environment values, which `putenv` cuts off.
- `Tracking.Database`, `FastPath.DbWorker` and the other classes hold the fields the modelled methods use; logging, file watching and printing are left out.
- Server controllers other than the reading of changes and the numbering of writes, router, sharing, enrolment, GUI, TUI, installation and website scripts.
