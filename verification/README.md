# A model of the VM task and inventory engine

This project models the backend that drives hypervisor hosts through agents: users queue
operations on VMs, agents answer and report full inventories, a sweeper times tasks out, and a
cache holds locks, a state overlay and deletion tombstones. Several actors write the same rows
without synchronising, so the guarantees are about whole runs. The model keeps all of that in one
state machine and adds the audit log, tags, folders, visibility and VM placement.

## How it is built

`Model.State` is one consistent view of the tables, the cache and the clock. Each operation comes
twice: as a function from state to state, and as a method that updates the class `Database`
(tables) and the class `Cache` (expiring keys) in place, with the source's loops, proved to do
exactly what the function says. A loop over a table goes over the ids handed out so far; the
methods that need rows to have such ids ask for it, and every reachable state provides it
(`Invariants.FreshIds`). The lemmas are about the functions. `Engine` puts twenty kinds of step
together; a run is any sequence of them from the empty system.

| module | about |
|---|---|
| Model, Wrappers | rows, cache entries, the two stores |
| TaskTimeouts, CacheOps | deadlines; locks, overlay, tombstones |
| VmRow, VmRowLaws, RowContents, RowContentsLaws, Renormalize | the agent's VM object, how it is copied onto a row, what each column then holds, normalizing twice |
| Inventory, Telling, InventoryLaws, RemovalLaws | full snapshots and what they do, exactly |
| Ownership, Deletion | sequences of snapshots of one cluster; delete against stale snapshots |
| Responses, StatusLaws, Rollback, BlockRollback, Worker | task responses, what they leave in the rows, what is rolled back and what the cache keeps, the timeout sweep |
| Vms, HostActions, HostWork, Placement, ActionLaws, Refusals, Undo | queueing work, what is admitted and what is then there, why requests are refused, where VMs may live, what failures leave |
| Organization, PlaceLaws | clusters, hosts, folders |
| Tags, TagLaws, TagEffects, Rbac, Listing | tags, visibility, counters, the state filter |
| Audit, Base64, Cursor, Paging | the audit trail, its cursor, reading it page by page |
| Invariants, RowSteps, LedgerSteps, WorkSteps, ResponseSteps, SnapshotSteps, PlaceShapes, PlaceSteps, TagSteps, Engine, Soundness | the invariants and why every step keeps them |
| Lifecycle, Locks, LockLaws, Agreement, Placeholders | guarantees over whole runs |

A transaction together with its cache calls is one step. When it fails, its rows are rolled back
and its cache writes stay, as in the source. Whether the broker takes a request is a parameter of
the step, and so are the clock, new ids (never repeated) and what agents report.

`Sound` is a conjunction stated part by part (`SoundMeans` spells it out), so that each proof opens
only the parts it is about.

What an operation leaves is stated apart from the function that computes it: `RowContents` says what
each column holds in terms of the payload's keys, `ActionLaws`, `PlaceLaws` and `TagEffects` give the
tables, states and texts as values, and `Refusals` says what each error tells the caller.

## Where the code differs from its comments

The model follows the code.

- A tombstone is said to last until a snapshot omits the GUID. A stale snapshot leaves the GUID out
  of `seen`, which clears the tombstone at once: only one stale snapshot is absorbed
  (`Deletion.SecondSnapshotExactly`).
- A `running` that arrives after the end falls through to the terminal branch: the task becomes
  failed, and the row of a created VM is deleted (`Lifecycle.TerminalValueExactly`,
  `Lifecycle.LateRunningDropsCreatedVm`). Audit outcomes are not affected.
- `normalize_vm` is called idempotent. It reads the GUID from other keys than it writes, and it turns
  some zeros and blanks into null the second time; `Renormalize.RenormalizingExactly` says for which
  entries it is idempotent.
- A status update with `powerState` and no `state` resets the state to Unknown
  (`VmRowLaws.PowerStateAloneResetsState`).
- A failed delete leaves the VM in "Deleting" (`Undo.UndoneCompletelyExactly`).
- A refused publish leaves the overlay at the optimistic state, and a refused create leaves its lock
  to the TTL (`Agreement.PublishFailureExactly`, `Undo.RefusedPublishConserves`). Removing a host
  leaves the locks of its tasks too (`LockLaws.OrphanLockExactly`).
- Listing with `state=Unknown` misses VMs of offline hosts (`Listing.UnknownListingExactly`).
- The placement check refuses some destinations the agent would place well
  (`Placement.StandaloneAdmissionExactly`, `Placement.ClusteredAdmissionExactly`).
- The placement check turns slashes, the request does not (`Placement.SlashedDestinationEscapes`).
- After a live migration the old node's snapshots can lose the row
  (`Ownership.StaleSnapshotLosesMigratedVm`).

## Model

| member | source | states |
|---|---|---|
| Locks.LocksAreExclusive | app/cache.py:72-112 | In every run without force-release and with sweeps less than 60 s apart, whatever responses come late, twice or reordered, each existing VM has at most one open task working on it, and that task holds the VM's unexpired lock |
| Locks.LegalRunIsDisciplined | app/worker/main.py:133-171 | The inductive reason: the holder's lock carries the expiry given when its task was queued, and every open task was within its own deadline at the last sweep |
| Locks.TakingIsDisciplined | app/services/vms.py:154-199 | Work is queued only on a VM nothing works on; the new task then guards it |
| Locks.SecondActionIsRefused | app/services/vms.py:154-170 | While a task works on a VM every other locking action on it is refused and changes nothing |
| Locks.ForceReleaseExactly | app/cache.py:106-112 | Why force-release is excluded: it keeps the exclusion if and only if no open task works on that VM |
| LockLaws.RunIsBacked | app/cache.py:72-112 | The converse, in every run whatever: a live lock has an open task behind it that works on that VM, or its task no longer exists |
| LockLaws.OrphanLockExactly | app/services/vms.py:300-350 | A live lock comes to be without a task in exactly two ways: a create or clone the broker refuses, and the removal of the host that was to do the work |
| LockLaws.ActionAdmittedExactly | app/services/vms.py:134-241 | What admission means under the lock discipline: an action is accepted if and only if VM, host and request are in order, nothing works on the VM (unless the action only reads) and the broker takes it; refused as locked if and only if it is in order and something does |
| LockLaws.ActionAdmittedInRuns | app/services/vms.py:134-241 | The same in every run without force-release and with sweeps less than 60 s apart |
| HostWork.RunIsOne | app/services/host_actions.py:68-84 | In every run each host has at most one disruptive action open, and at most one agent upgrade |
| HostWork.HostActionAdmittedExactly | app/services/host_actions.py:47-106 | A host action is accepted if and only if it is one, the host's agent has been heard of lately, the host is clustered where that matters, it would still have one disruption and one upgrade at most, and the broker takes the request |
| HostWork.ProvisionAdmittedExactly | app/services/vms.py:244-290 | A slash-free create or clone is accepted if and only if host and source or template are available, the agent places the VM well, it is none of the needlessly refused cases, and the broker takes the request |
| HostWork.MoveAdmittedExactly | app/services/vms.py:222-230 | A storage move is accepted if and only if nothing works on the VM, its agent knows it and is there, and the destination's normal form is one the agent places well, but for the same cases |
| HostWork.AdmittedCreateIsPlaced | app/services/vms.py:244-270 | What admission of a create or clone means: host, source or template are available, and the agent places the VM on a Cluster Shared Volume, or off a standalone host's system drive, if and only if the destination is not one of the escaping spellings; no slash-free one is |
| Soundness.RunSound | app/models/vm.py:180-197 | Every run from the empty system keeps: ids never reused; GUIDs unique per cluster or standalone host; a VM's cluster equal to its host's; folders scoped and reachable; tags consistent; a task's finish time set exactly when it ended, progress 100 when it succeeded; an audit event pending exactly while its task exists and is open |
| Soundness.NextSound | app/services/inventory.py:473-580 | Every single step, of any of twenty kinds, keeps all of that |
| Invariants.SoundMeans | app/models/vm.py:180-197 | Spells the kept guarantee out as its five parts |
| SnapshotSteps.ReconciledUnique | app/services/inventory.py:481-531 | A snapshot keeps GUIDs unique in scope without help from the index, even when the payload repeats one |
| RowSteps.StampedIsUnique | app/services/inventory.py:1016-1023 | A stamped GUID that passes the index check leaves the table unique |
| PlaceSteps.MoveHostSound | app/services/organization.py:53-78 | Moving a host keeps every guarantee: VMs follow into the cluster, leave their folders, host folders go |
| PlaceLaws.MoveHostExactly | app/services/organization.py:53-78 | A host that may change cluster does so unless one of its VMs is already known in the target under the same GUID; leaving a cluster never clashes |
| PlaceLaws.PlaceVmExactly | app/services/organization.py:146-175 | A VM may be put in an existing folder if and only if the folder is then reachable from its host; it is then in it, and nothing else changes |
| PlaceLaws.TakingOutLeaves | app/services/organization.py:146-175 | Out of its folder it may always be taken |
| PlaceLaws.CreateFolderExactly | app/services/organization.py:94-125 | A folder may be created if and only if it would belong to one existing cluster or one existing standalone host; there is then one folder more |
| PlaceLaws.DeletingAFolderLeaves | app/services/organization.py:134-143 | A deleted folder is gone and its VMs are in no folder; no other VM changes |
| PlaceLaws.CreateHostExactly | app/api/routes/hosts.py:86-101 | A host may be created if and only if its cluster, if any, exists and has its hypervisor; it is there, not heard of yet |
| PlaceLaws.ReportLeaves | app/services/inventory.py:71-92 | A report sets what it says and when the host was seen, and never its cluster |
| PlaceLaws.MovingAHostLeaves | app/services/organization.py:53-78 | A move also leaves the host in its new cluster, without its own folders, and on record |
| PlaceLaws.NoMoveOtherwise | app/services/organization.py:53-78 | Any other request to move a host changes nothing; it is accepted if and only if the host is there already |
| PlaceLaws.RemovingAHostLeaves | app/api/routes/hosts.py:159-177 | With a removed host go its tasks and folders; events still waiting for one of its open tasks fail, saying so; every other event stays |
| PlaceLaws.DeleteClusterExactly | app/services/organization.py:35-50 | A cluster may be deleted if and only if it exists and has no host |
| PlaceLaws.MovingAHostMovesItsVms | app/services/organization.py:53-78 | A move takes the host's VMs out of their folders and into the cluster, and touches no other VM |
| PlaceLaws.RemovingAHostRemovesItsVms | app/services/organization.py:81-89 | Removing a host removes exactly its VMs; every other row is as before |
| PlaceLaws.DeletingAClusterTouchesNoVm | app/services/organization.py:35-50 | Deleting a cluster, which must be empty, changes no VM although it drops its folders |
| InventoryLaws.SnapshotReconciles | app/services/inventory.py:473-558 | After a well-formed snapshot: the GUIDs on the host are exactly those listed that had a row in scope or were not tombstoned; every old row is taken over (id, GUID, folder, tags kept), removed, or untouched, each in exactly its case; new rows have no folder and no tags; the tombstones left are the tombstoned GUIDs that were seen |
| InventoryLaws.RowIsAsLastListed | app/services/inventory.py:395-456 | Each accepted row holds, column by column and in terms of the payload's keys, what its last entry in the snapshot says, on top of what the earlier entries left |
| InventoryLaws.RowIsAsTold | app/services/inventory.py:499-533 | It is the row from before the snapshot, or a blank one, taken through the entries that name its GUID, in their order and through no other |
| InventoryLaws.AcceptedExactly | app/services/inventory.py:513-522 | A GUID is accepted if and only if an entry names it under id, or under vmId when id holds no text, and it has a row within the host's cluster or no tombstone still in force |
| RowContentsLaws.WrittenRowHolds | app/services/inventory.py:395-456 | What a write leaves in every column, from the payload's keys alone, full or partial: the name falls back to the held one and then the GUID, vcpu to 1, counts of MiB become bytes, guestOs is trimmed and cut at 255, absent metricsEnabled and blank guestOs keep what is held, flags are booleans, and so on; state, host, cluster and timestamp |
| RowContentsLaws.EveryColumn | app/services/inventory.py:184-296 | The same for one column at a time: its value, or that it keeps what it held |
| StatusLaws.ResponseReachesRows | app/services/inventory.py:1062-1125 | After a successful response other than a delete, each row of the sender is taken through the attached entries that name its GUID; when no entry reaches a row, vmId and vmState set the state of the row they name; every other row stays |
| StatusLaws.RowIsAsLastReported | app/services/inventory.py:1117-1124 | So a row holds, column by column, what the last attached entry about it says, as a partial write on top of what was there |
| StatusLaws.PlaceholderIsStamped | app/services/inventory.py:1016-1023 | A successful create leaves its row with the GUID and state reported, Off when no state is |
| InventoryLaws.MalformedChangesNoRow | app/services/inventory.py:473-558 | A snapshot with one entry that raises changes no row, event or tombstone |
| RemovalLaws.RemovalIsRecordedExactly | app/services/inventory.py:539-553 | A removal is put on record if and only if the snapshot removed the row and no delete of that VM is queued or running; once per row, and no older event changes |
| RemovalLaws.RemovalEventIs | app/services/inventory.py:539-553 | Every event a snapshot adds is, field by field, the removal of a row it removed |
| Ownership.ReportsClaim | app/services/inventory.py:299-309 | Any sequence of snapshots from one cluster's nodes refines the fold of ownership claims: listing makes the reporter the owner, omission by the owner ends it, omission by another node means nothing |
| Ownership.RowIsConstant | app/services/inventory.py:406-408 | While a GUID has an owner after every snapshot, its row id, folder and tags stay the same |
| Ownership.StaleSnapshotLosesMigratedVm | app/services/inventory.py:535-553 | The limit of it: a migrated VM's row is lost when the old node's stale snapshot takes it back and that node's next one omits it |
| Deletion.DeleteThenSnapshot | app/services/inventory.py:1027-1035 | After a successful delete, the next snapshot of that host within the tombstone's life, whatever it lists, leaves no row for the GUID anywhere in the host's scope |
| Deletion.DeleteDeletes | app/services/inventory.py:1027-1035 | A successful delete buries the GUID on the responding host and leaves no row in its scope |
| Deletion.NextSnapshotRespectsDelete | app/services/inventory.py:513-522 | A snapshot never brings a deleted VM back in that host's scope |
| Deletion.SecondSnapshotExactly | app/services/inventory.py:555-558 | The comment promises a tombstone until a snapshot omits the GUID; the code clears it at once, so after one absorbed snapshot the VM comes back if and only if the second one lists it |
| Lifecycle.RunEvolves | app/services/inventory.py:912-941 | Between any two moments of any run: task rank queued, running, terminal never decreases and a task's subject never changes; a settled event that is still there says the same |
| Lifecycle.NextProgresses | app/services/audit.py:122-134 | Every step moves tasks forward and settles an event with its task's status and error, or with failed, saying why, when the task went away |
| Lifecycle.OutcomeIsFirstTerminal | app/services/audit.py:122-134 | In any run the step that settles an event ends its open task: the outcome is that first terminal status, or failed on host removal |
| Lifecycle.ResponseIgnoresVmBlock | app/services/inventory.py:983-1002 | Task, audit settlement and lock release after a response do not depend on its VM data, not even when that part is rolled back |
| Lifecycle.TerminalValueExactly | app/services/inventory.py:912-922 | A late running turns an ended task to failed; a response leaves an ended task's status if and only if it repeats it |
| Lifecycle.LateRunningDropsCreatedVm | app/services/inventory.py:1012-1026 | For a created or cloned VM that late running deletes its row |
| Agreement.CommittedRunAgrees | app/services/inventory.py:1007-1060 | In every run whose transactions commit, an overlay entry of an existing VM equals its row state |
| Agreement.ListingIsExactInRuns | app/api/routes/vms.py:69-106 | In those runs, filtering by any state but Unknown returns exactly the visible VMs displayed in that state |
| Agreement.PublishFailureExactly | app/services/vms.py:180-199 | After a refused publish the overlay still agrees if and only if the row already had the state the action shows |
| Agreement.ClashingStampExactly | app/services/inventory.py:1016-1023 | After a create whose GUID clashes, overlay and row agree if and only if the row already had the reported state |
| Agreement.BlockAgrees | app/services/inventory.py:1007-1060 | The VM block of a response writes rows and overlay in step |
| Rollback.RollsBackExactly | app/services/inventory.py:1007-1060 | The VM block of a response is rolled back if and only if it takes in VM data and an attached entry is malformed or, for an existing placeholder, the GUID is taken |
| Rollback.MalformedSnapshotAgreesExactly | app/services/inventory.py:499-533 | After a snapshot that was rolled back, overlay and rows agree if and only if the entries before the malformed one only repeated the states the rows have |
| BlockRollback.RolledBackResponseAgreesExactly | app/services/inventory.py:1007-1060 | After a response whose VM data was rolled back, overlay and rows agree if and only if what it said before it failed was what the rows say |
| Listing.ListingIsExact | app/api/routes/vms.py:77-106 | While the overlay agrees, row pre-filter plus overlay re-filter is exact for every state but Unknown |
| Listing.UnknownListingExactly | app/services/serializers.py:177-180 | Filtering by Unknown is exact if and only if every VM that should be listed and is on an offline host has row state Unknown; the others are missed |
| Listing.ListingIsSound | app/api/routes/vms.py:86-105 | Nothing is listed that is not displayed in the requested state, whatever the overlay holds |
| Placeholders.SweepIsExact | app/worker/main.py:133-160 | A sweep times out exactly the open tasks past their own kind's deadline, changes no other task, and leaves none past it |
| Placeholders.SweptTaskIs | app/worker/main.py:154-160 | A task that times out says since when and why |
| Placeholders.SweepDropsExactly | app/worker/main.py:173-185 | A sweep drops exactly the rows without a GUID whose create or clone failed or timed out |
| Placeholders.NoOrphanAfterSweep | app/worker/main.py:173-185 | In any run, after a sweep each VM without a GUID has a create or clone task that is open and in time, or succeeded |
| Placeholders.EveryPlaceholderIsInTime | app/worker/main.py:133-185 | If successful creates give a GUID that is free, with well-formed VM objects, each such VM has an open create or clone task within its deadline |
| Placeholders.CreateStampsExactly | app/services/inventory.py:1016-1023 | A successful create gives its placeholder a GUID if and only if the response names one, no other row of the scope has it, and the attached VM objects are well-formed |
| Placeholders.EndedCreateKeepsRowExactly | app/services/inventory.py:1012-1026 | A response to a create or clone that had ended keeps the VM's row if and only if it says again that it succeeded |
| Placeholders.RunHasMakers | app/services/vms.py:296-320 | In every run each VM without a GUID has its create or clone task, on the VM's own host |
| Undo.FailedActionIsUndone | app/services/inventory.py:870-883 | Queue an action, let it fail: lock freed, event settled failed, every row as before but for the state of this VM: Off after a start, Running after a stop, shutdown, restart or pause, Deleting after a delete, and what it was after anything else |
| ActionLaws.AcceptedActionLeaves | app/services/vms.py:91-201 | An accepted action, of each kind: row and overlay say Starting, Stopping, Restarting, Pausing or Deleting, or nothing changes; one queued task; but for a refresh its pending event and its lock, until the deadline and a minute |
| ActionLaws.AcceptedCreateLeaves | app/services/vms.py:296-350 | An accepted create or clone: a row in state Unknown without GUID, folder or tags, its queued task, pending event and lock |
| ActionLaws.AcceptedHostActionLeaves | app/services/host_actions.py:86-106 | An accepted host action: a queued task, and a pending event but for the two refreshes |
| ActionLaws.FailureLeaves | app/services/inventory.py:1044-1060 | A failed action resets row and overlay if and only if the VM is still in the state the action put it in; any other state stays |
| ActionLaws.FailedCreateLeaves | app/services/inventory.py:1012-1026 | A failed create or clone takes its row and overlay entry with it, and nothing else |
| ActionLaws.DeleteLeaves | app/services/inventory.py:1027-1035 | A successful delete drops the row and its overlay entry, and buries its GUID for 900 seconds |
| ActionLaws.EndedTaskIs | app/services/inventory.py:912-941 | A task after its terminal response: status, finish time, progress and error, value by value |
| ActionLaws.RunningTaskIs | app/services/inventory.py:912-941 | A progress report changes the task alone: running, since the first report, at the progress last given |
| ActionLaws.ForgetExactly | app/services/vms.py:353-374 | A VM may be forgotten unless its agent would report it again; then row, lock and overlay entry go, and one event says so |
| ActionLaws.DeadlineTable | app/task_timeouts.py:5-40 | The deadline of every kind: its own entry or the default, whichever is longer |
| Refusals.RefusedActionHasReason | app/services/vms.py:134-241 | Each error of an action states a fact about the VM, its host or the request, and a refusal changes nothing |
| Refusals.RefusedCreateHasReason | app/services/vms.py:244-290 | The same for a create or clone |
| Refusals.RefusedHostActionHasReason | app/services/host_actions.py:47-84 | The same for a host action |
| Refusals.RefusedPlacingHasReason | app/services/organization.py:146-175 | The same for putting a VM in a folder |
| Refusals.RefusedFolderHasReason | app/services/organization.py:94-125 | The same for creating a folder |
| Refusals.RefusedMoveHasReason | app/services/organization.py:53-78 | The same for moving a host |
| Refusals.RefusedAssignmentHasReason | app/services/tags.py:243-271 | The same for assigning tags |
| Refusals.RefusedTagHasReason | app/services/tags.py:168-188 | The same for creating a tag |
| Undo.UndoneCompletelyExactly | app/services/inventory.py:1044-1060 | The failure restores every row if and only if the action shows no state of its own, the VM was Off before a start or Running before a stop, shutdown, restart or pause, or a delete found it Deleting |
| Undo.RefusedPublishConserves | app/services/vms.py:183-199 | A refused publish leaves no row, task or event; an action frees its lock, a create or clone keeps the lock of the VM that never was |
| VmRowLaws.PartialWriteIsFramed | app/services/inventory.py:395-456 | A status update changes no column, and no state, whose signal keys are absent; GUID, folder and tags never |
| VmRowLaws.PartialWritesCommute | app/services/inventory.py:395-456 | Status updates that report different things commute |
| VmRowLaws.PartialAfterFullIsNoOp | app/services/inventory.py:395-456 | Repeating as a status update what was just taken in full changes the timestamp only |
| VmRowLaws.PartialStateExactly | app/services/inventory.py:415-416 | Exactly when a status update leaves the state as it is |
| VmRowLaws.PowerStateAloneResetsState | app/services/inventory.py:415-416 | A status update with powerState but no state resets the row to Unknown |
| Renormalize.RenormalizingExactly | app/services/inventory.py:184-296 | Called idempotent: normalizing its own output changes nothing if and only if the entry has no GUID, no zero minimum or maximum that only the memory object reports, no blank in place of the creation time, and no snapshot with a blank parent or creation time in the agent's spelling |
| Renormalize.RenormalizingLosesGuid | app/services/inventory.py:264-264 | The second pass never finds the GUID |
| Renormalize.NestedZeroDoesNotPass | app/services/inventory.py:198-199 | Input: a zero minimum in the memory object becomes null |
| Renormalize.BlankCreationDoesNotPass | app/services/inventory.py:295-295 | Input: an empty creationTime becomes null |
| Renormalize.BlankParentDoesNotPass | app/services/inventory.py:243-258 | Input: an empty parentSnapshotId becomes null |
| VmRow.WriteVmRow | app/services/inventory.py:395-456 | Copies a payload onto a row column by column; the result is the row function the laws above are about |
| VmRow.WriteColumns | app/services/inventory.py:410-454 | The column assignments one by one amount to one merge of the changed columns |
| Placement.ClusteredPlacementIsSound | app/services/vms.py:59-85 | For every slash-free destination the backend admits on a clustered host, the agent's folder lies on a Cluster Shared Volume |
| Placement.ClusteredPlacementExactly | app/services/vms.py:59-85 | On a clustered host an admitted VM lands on a Cluster Shared Volume if and only if the string as sent is empty or names one, or the default folder it falls back to lies on one |
| Placement.StandalonePlacementExactly | scripts/fake_agent.py:252-268 | On a standalone host an admitted VM lands on the system drive outside the default folder if and only if the destination is a slash-spelt CSV on C: and the default is not on C: |
| Placement.StandalonePlacementIsSound | app/services/vms.py:59-85 | So for slash-free destinations the system drive is used only under the default folder |
| Placement.StandaloneAdmissionExactly | app/services/vms.py:59-85 | The converse too: a slash-free destination is admitted on a standalone host if and only if the agent places the VM well, except for a local path on C: while the default folder is on a Cluster Shared Volume of C:, which is refused needlessly |
| Placement.ClusteredAdmissionExactly | app/services/vms.py:71-78 | On a clustered host likewise, except for default folders the string alone does not show to be on a volume |
| Placement.CsvPathExactly | app/services/vms.py:45-58 | A path is on a Cluster Shared Volume if and only if it reads: drive, colon, ClusterStorage in any case, a non-empty volume name, and anything below |
| Placement.LandsOnCsvExactly | scripts/fake_agent.py:252-268 | Over all strings, with letters beyond ASCII compared as they are: exactly which destinations the agent puts on a Cluster Shared Volume |
| Placement.NormIsSentBackslashed | app/services/vms.py:45-46 | The backend's normal form is the sent string with its slashes turned |
| Placement.SlashedDestinationEscapes | app/services/vms.py:257-257 | A destination spelt with a slash is admitted on a cluster and created on C: |
| Cursor.CursorRoundTrip | app/services/audit.py:148-163 | Decoding an encoded cursor gives back timestamp and id, for every event |
| Cursor.DecodedIsValid | app/services/audit.py:153-163 | Any client string is refused or names a well-formed key, which survives re-encoding |
| Cursor.NumberIsChronological | app/services/audit.py:180-191 | The number standing for a timestamp orders like the datetime itself |
| Base64.RepadIsExact | app/services/audit.py:150-155 | Stripping the padding and adding -len % 4 of it gives the encoding back, for all byte lengths |
| Base64.DecodeOfEncode | app/services/audit.py:148-155 | The lenient decoder inverts the URL-safe encoding (section 5 of RFC 4648) on all byte strings |
| Base64.QuadIsBits | app/services/audit.py:148-150 | A full group of letters is the 24 bits of its three bytes, six to a letter |
| Paging.SessionIsExact | app/services/audit.py:180-234 | Over a whole session with inserts, settlements and prunes between pages: strictly descending, no event twice, nothing shown that did not match; when complete, every event that matched throughout was shown |
| Paging.SessionEnds | app/services/audit.py:216-234 | While new events are only newer, the session ends within as many pages as the first table fills |
| Paging.SessionAlwaysEnds | app/services/audit.py:216-234 | Wherever new events are inserted, the session ends within as many pages as are filled by the events that match at some time during it |
| Paging.PageIsSlice | app/services/audit.py:216-234 | A page served for an event's cursor is the newest part of what is older than that event |
| Paging.TopIsNewest | app/services/audit.py:222-230 | ORDER BY and LIMIT give a descending list that everything left out is older than |
| Audit.Record | app/services/audit.py:74-107 | Adds one event, pending exactly when it belongs to an agent task |
| Audit.PruneEvents | app/services/audit.py:137-143 | Keeps exactly the events at most that many days old and returns how many went; 0 keeps everything |
| TagLaws.TagRequestsKeepTagInv | app/models/tag.py:53-103 | Every tag request keeps names unique whatever their case, references sound and one tag per category on each VM; a refused one changes nothing |
| TagLaws.SetVmTagsExactly | app/services/tags.py:243-271 | An assignment is accepted if and only if the tables with it are sound |
| TagLaws.UpdateTagExactly | app/services/tags.py:191-231 | A well-formed rename, recolour or move is accepted if and only if the tables with the patched tag are sound |
| TagLaws.CreateTagExactly | app/services/tags.py:168-188 | A well-formed new tag is accepted if and only if the catalogue with it is sound |
| TagLaws.RenameCategoryExactly | app/services/tags.py:83-88 | A category may be renamed if and only if the catalogue stays sound |
| TagLaws.CreateCategoryExactly | app/services/tags.py:73-80 | A category may be created if and only if the catalogue stays sound |
| TagLaws.TagDeletionCascades | app/services/tags.py:234-238 | Deleting a tag keeps the tables sound and takes that tag, and no other, off every VM |
| TagLaws.CategoryDeletionCascades | app/services/tags.py:91-96 | Deleting a category keeps the tables sound and takes exactly its tags off every VM |
| TagEffects.TagInvMeans | app/models/tag.py:53-103 | The invariant in plain terms: names are 1 to 64 letters, digits, _ and -, and differ by more than case within a category; colours are of the palette; references exist; a VM has one tag of a category at most |
| TagEffects.CheckNameExactly | app/services/tags.py:25-45 | A name is accepted if and only if what is left without the blanks around it is in form |
| TagEffects.SetVmTagsLeaves | app/services/tags.py:243-271 | After an accepted assignment the VM has exactly the requested tags; nothing else changes |
| TagEffects.UpdateTagLeaves | app/services/tags.py:191-231 | After an accepted patch the tag has what the request gives, and keeps the rest |
| TagEffects.CreateTagLeaves | app/services/tags.py:168-188 | One tag is added, with the trimmed name |
| TagEffects.RenameCategoryLeaves | app/services/tags.py:83-88 | The category has the trimmed name; nothing else changes |
| TagEffects.CreateCategoryLeaves | app/services/tags.py:73-80 | One category is added, with the trimmed name |
| TagEffects.TagDeletionLeaves | app/services/tags.py:234-238 | The tag is gone from the catalogue |
| TagEffects.CategoryDeletionLeaves | app/services/tags.py:91-96 | The category and its tags are gone from the catalogue |
| Tags.SetVmTags | app/services/tags.py:243-271 | Deduplicates, looks up, groups by category and replaces, or refuses, as the specification says |
| Tags.Deduplicate | app/services/tags.py:246-246 | Keeps each requested id once |
| Tags.GroupByCategory | app/services/tags.py:255-258 | Groups the tags by category, each once |
| Tags.CrowdedGroup | app/services/tags.py:259-266 | A group of two exists if and only if two requested tags share a category |
| Tags.UpdateTag | app/services/tags.py:191-231 | Checks and applies a tag patch |
| Tags.CreateTag | app/services/tags.py:168-188 | Checks and adds a tag |
| Tags.DeleteTag | app/services/tags.py:234-238 | Deletes a tag and its assignments |
| Tags.CreateCategory | app/services/tags.py:73-80 | Checks and adds a category |
| Tags.RenameCategory | app/services/tags.py:83-88 | Checks and renames a category |
| Tags.DeleteCategory | app/services/tags.py:91-96 | Deletes a category with its tags and their assignments |
| Rbac.VisibleExactly | app/services/rbac.py:31-90 | A VM is visible if and only if the admin role stands in the user's list, whole, or the user has a global grant, or one on the VM's host, its host's cluster or its own folder |
| Rbac.ScopeExactly | app/services/rbac.py:31-82 | What the resolved scope holds: what is granted, clusters with their hosts and hosts with their folders |
| Rbac.IsAdminExactly | app/services/rbac.py:34-36 | A role is held if and only if it stands in the list between commas or the ends |
| Rbac.ClauseIsTwin | app/services/rbac.py:93-99 | The SQL clause, with NULL folders, keeps exactly the rows the predicate holds of |
| Rbac.CountersAgree | app/services/tags.py:101-139 | Both tag counters equal the number of visible VMs that carry the tag |
| Rbac.ResolveScope | app/services/rbac.py:31-82 | Resolves the grants in one pass and widens them |
| Rbac.SplitJoins | app/services/rbac.py:34-36 | Splitting the roles at commas is exact |
| Inventory.ApplyVmInventory | app/services/inventory.py:473-580 | The snapshot handler as a whole, on tables and cache in place |
| Inventory.BuildIndex | app/services/inventory.py:480-494 | The rows with a GUID on the scope's hosts, by GUID |
| Inventory.TakeIn | app/services/inventory.py:525-533 | One accepted entry: insert or update, note as seen, write the overlay |
| Inventory.WalkItems | app/services/inventory.py:499-535 | The loop over the entries, up to one that raises |
| Inventory.RemoveUnreported | app/services/inventory.py:537-553 | The loop that drops and records the rows no longer reported |
| Responses.ApplyResponse | app/services/inventory.py:886-1004 | The response handler as a whole |
| Responses.ApplyResponseState | app/services/inventory.py:1007-1060 | The VM block: placeholder, delete, refresh or revert |
| Responses.ApplyInSavepoint | app/services/inventory.py:990-994 | A raise rolls the rows back, never the cache |
| Responses.ApplyPlaceholder | app/services/inventory.py:1012-1026 | Stamps the placeholder of a create or clone, or drops it |
| Responses.ApplyVmStatus | app/services/inventory.py:1087-1125 | The loop over the attached VM objects; it never creates or deletes rows |
| Responses.LookUp | app/services/inventory.py:1100-1110 | The row with this GUID on this host |
| Vms.QueueVmTask | app/services/vms.py:134-201 | Checks, lock, task, optimistic state, publish and audit, or the refusal |
| Vms.EnqueueRows | app/services/vms.py:154-199 | Both outcomes of the publish, field by field |
| Vms.Prepare | app/services/vms.py:154-184 | Everything before the publish, field by field |
| Vms.Provision | app/services/vms.py:244-350 | Create and clone: checks, placeholder, lock, task, publish |
| Vms.InsertRows | app/services/vms.py:296-350 | Both outcomes of the publish of a create or clone, field by field |
| Vms.RemoveVmFromInventory | app/services/vms.py:353-374 | Forgets a VM with its lock and overlay, unless the agent would report it again |
| HostActions.RequestHostAction | app/services/host_actions.py:47-106 | Queues work on a host's own agent |
| Worker.SweepStaleTasks | app/worker/main.py:133-190 | The sweep as a whole |
| Worker.CollectStale | app/worker/main.py:135-153 | The default-deadline pre-filter loses nothing: what is collected are exactly the tasks past their own deadline |
| Worker.ReleaseLocks | app/worker/main.py:168-171 | Frees exactly the locks the timed-out tasks still hold |
| Worker.TimeOut | app/worker/main.py:154-171 | Times the collected tasks out, settles their events, frees their locks |
| CacheOps.AcquireVmLock | app/cache.py:88-103 | Set if absent, with the TTL of the task's kind |
| CacheOps.ReleaseVmLock | app/cache.py:106-112 | Compare and delete: only the holder's release counts |
| CacheOps.ForceReleaseVmLock | app/cache.py:106-112 | Release without a task id |
| CacheOps.SetVmState | app/cache.py:37-40 | Writes an overlay entry with its TTL |
| CacheOps.ClearVmState | app/cache.py:55-57 | Drops an overlay entry |
| CacheOps.MarkVmDeleted | app/cache.py:168-173 | Writes a tombstone for 15 minutes |
| CacheOps.ClearVmsDeleted | app/cache.py:180-181 | Drops the tombstones of a set of GUIDs, one by one |
| TaskTimeouts.TaskTimeoutSeconds | app/task_timeouts.py:36-40 | No kind's deadline is shorter than the default |
| Organization.MoveHost | app/services/organization.py:53-78 | Attaches a host to a cluster or makes it standalone |
| Organization.RemoveHost | app/api/routes/hosts.py:159-177 | Records the removal, settles the open tasks' events, cascades |
| Organization.DeleteCluster | app/services/organization.py:35-50 | Deletes an empty cluster with its folders |
| Organization.CreateCluster | app/services/organization.py:18-26 | Adds a cluster |
| Organization.CreateHost | app/api/routes/hosts.py:86-101 | Adds a host, in a cluster of its hypervisor or standalone |
| Organization.ApplyHostReport | app/services/inventory.py:71-92 | A heartbeat or hardware report leaves the host where it is |
| Organization.CreateFolder | app/services/organization.py:94-125 | Adds a folder of a cluster or of a standalone host |
| Organization.DeleteFolder | app/services/organization.py:134-143 | Deletes a folder; its VMs stay, without it |
| Organization.MoveVmToFolder | app/services/organization.py:146-175 | Puts a VM in a folder, or takes it out |
| Organization.AllUnique | app/models/vm.py:180-197 | The two partial unique indexes, as the database evaluates them |

## Left out

- Message broker, queues, channel watchdogs, HTTP routing, authentication and token handling: plumbing; only "the publish may fail" is kept.
- Metrics, templates, ISOs, thumbnails, agent binaries and object storage: append or replace, so only easy members.
- The template table: a clone from a template is given the host that has it; the version and binary checks of an agent upgrade.
- InventoryLaws.MalformedChangesNoRow: which payloads make the handler raise is left open; such an entry is the constructor Malformed.
- Lifecycle.ResponseIgnoresVmBlock: likewise for the VM objects of a response; the law is about the order of flush, savepoint and release, whatever raises.
- Organization.CreateCluster: the cluster's name is not modelled, because nothing depends on it.
- Organization.CreateHost: the host's name and the right to add a host are not modelled.
- Vms.Provision: the requested hardware and the request's parameters are one set of columns given to the step.
- VmRow.WriteVmRow: numbers in a payload are integers, and numeric strings are not read as numbers.
- Audit events of user actions that are not about VMs or host removal and moves (folders, tags, names, cluster and host creation): they are settled when recorded.
- Actor, details and names in audit events; the filters of the audit listing are one set of matching keys per page.
- Disk, NIC and snapshot entries are normalized as in the source and kept as the value of one column each; the child tables they fill are left out, as is the text of an IP address that is not a string.
- JSON numbers are integers; numeric strings and fractions in a payload are not modelled, and the creation date of a VM is kept as the text reported.
- A GUID or state that is not a string is read as missing.
- Rows are values in the tables of the class Database rather than objects of their own; the source never holds two references to one row across a step.
- VmRow.WriteColumns: does the source's sequence of column assignments as one loop over the columns, in the source's order.
- Rows come back from a SELECT in ascending id order where the source leaves the order open; ids are numbers handed out in order instead of random UUIDs.
- Unique indexes are a check before the write; savepoints are "apply or leave unchanged". Other database failures at commit are not modelled.
- Cursor.DecodedIsValid: the decoder of the model accepts the UTC timestamps isoformat prints and UUIDs with or without hyphens in either case; other ISO 8601 forms, braces and urn: prefixes the Python library also takes are refused, so refusal is modelled more strictly than the source.
- Cursor.CursorRoundTrip: the event of a cursor is a timestamp and a UUID; the engine's own clock counts microseconds and its ids are numbers, and the two are not converted into each other.
- The order of a VM listing (by name): the result is modelled as a set.
- Case-insensitive names fold ASCII letters only, which is all that tag names may contain.
- Hypervisor homogeneity of a cluster: a host report may change the hypervisor, so it is not an invariant of the code.
- Placement.LandsOnCsvExactly: drive letters are compared after folding ASCII case only, where Python's lower() folds every letter.
- VmRow.WriteVmRow: firmware names and disk formats are put in upper case for ASCII letters only, where Python's upper() folds every letter.
- Responses.ApplyVmStatus: the VM objects of a response are given to it; from which of the response's two wrappers they are read is not modelled.
