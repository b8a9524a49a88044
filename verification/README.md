# proxmox-eventbus: a verified model of the event path

The daemon watches the Proxmox task list, turns it into CloudEvents and publishes
them on NATS. This project models that path and proves what its users rely on.

| file | what it models |
|---|---|
| `Lists.dfy` | sequences built element by element |
| `Text.dfy` | the Go string operations the daemon uses: split, join, cut, trim, fields, integer parsing with explicit ranges |
| `Events.dfy` | event data, `safe`, subjects and types |
| `Upid.dfy` | the UPID and task-line grammar, the worker table |
| `Watch.dfy` | one scan of the task list: the class `Watcher`, its specification and the laws of scanning |
| `Interleave.dfy` | scanner, synced pollers and the bounded channel as a step relation; every block under the mutex and every send is its own step |
| `Ordering.dfy`, `Boundary.dfy`, `Apart.dfy`, `Witness.dfy`, `Orphans.dfy`, `Pollers.dfy` | what all interleavings keep, the exact limits of the documented order, runs that reach those limits, and when a poller ends |
| `Target.dfy`, `Argv.dfy` | finding a migration target in a command line, and what that target is, told by positions |
| `Enrich.dfy` | the enricher with its target cache, the consumer with its start times |
| `Snapshots.dfy` | snapshot batches over a lossy channel |
| `Pipeline.dfy`, `Guarantees.dfy`, `Published.dfy`, `Progress.dfy` | all stages composed: watcher, consumer, batches, shared channel, publisher; what holds in every reachable state, what stands behind each published event, and that everything owed can be published |
| `Debounce.dfy` | the watcher's notification loop with its timer |
| `Members.dfy`, `Routes.dfy` | cached membership and the route reconciler |
| `LogFile.dfy` | the staged log-file search over a directory tree |

The sequential code is modelled by classes and loop methods proved against
specification functions; the concurrent code by labelled steps over a state whose
logs are history. `Witness.ScanRefined` ties the two: an undisturbed scan in the
step model does what the class is specified to do.

Where the code and its documents disagree, the code is modelled:

- `docs/EVENTS.md:107-108` says that a synced event always precedes the terminal
  event of its task. `Witness.SyncedCanTrail` reaches a state whose log is started,
  finished, synced. `Boundary.TrailingBoundary` gives the exact condition for
  that, and `Apart.OrderExact` the exact condition for the documented order of a
  task in runs in which no scan marks its end while a poller of it is between check
  and send. That alone is not enough (`Witness.SyncedCanPrecedeItsStart`).
- `docs/EVENTS.md:71-73` and `docs/EVENTS.md:109` say that each phase is emitted once.
  A UPID that a file lists again after its collection starts again
  (`Boundary.OnceExact` says that this is exactly when) and can be synced again
  (`Witness.SyncedTwice`).
- A poller writes its flag without looking whether the entry is still there, so
  the watcher's map can hold an entry without a start on record.
  `Orphans.OrphanExact` says exactly when; such an entry is never removed while
  its UPID stays away (`Orphans.OrphansLeak`).
- A saved or index line with a blank status reads back with the end time as its
  status (`Upid.SavedForm`, `Upid.IndexForm`), and an index line whose end time is
  the token `1` can be read as a saved line.
- The log search does not check that its first, direct candidate is a file
  (`LogFile.SearchExact` says exactly when that matters).
- Two address lists can share a route key when an address holds a comma
  (`Routes.CommaCollides`). `Routes.DecodeKey`, `Routes.EarlyReturnExact` and
  `Routes.RouteAgreement` give the exact conditions.

Assumptions: strings are bytes and text is ASCII; the clock is monotone and never
the zero time; ids of snapshot batches are fresh, and a batch's index stands for
its id.

## Model

| member | source | states |
|---|---|---|
| `Events.SafeBytes` | internal/events/events.go:181-199 | the byte loop keeps legal characters, writes `_` for every other one and gives `default` for the empty name |
| `Events.SafeToken` | internal/events/events.go:179-199 | the empty name becomes `default`; any other keeps its length and its legal characters in place, with `_` for every other one; the result has only legal characters and no dot; a name is unchanged exactly when it is already legal, so the function is idempotent |
| `Events.LifecycleTokens` | internal/events/events.go:124-128 | a lifecycle subject splits at dots into exactly its seven tokens, whatever the cluster and node names hold |
| `Events.SnapshotTokens` | internal/events/events.go:130-143 | the completion and request subjects split into exactly their tokens |
| `Events.LifecycleInjective` | internal/events/events.go:124-128 | two lifecycle subjects are equal exactly when all six parts agree after sanitising; on already legal names the subject identifies the event |
| `Events.SubjectsDisjoint` | internal/events/events.go:124-143 | lifecycle, completion, cluster-request and node-request subjects never coincide |
| `Events.TypeTokens` | internal/events/events.go:145-152 | an event type splits into the namespace and its tokens |
| `Events.SubjectAgreesWithType` | cmd/proxmox-eventbus/main.go:223-231 | a guest's event goes to the subject of its own cluster, node, kind, guest, action and phase, the last three being those of its type; only a completion marker goes to the completion subject, that of its own cluster and node |
| `Events.SourceTokens` | internal/events/events.go:154-162 | the source splits into cluster and node, the subject into kind and guest |
| `Upid.UpidRoundTrip` | internal/tasks/upid.go:26-58 | printing a well-formed UPID (colon- and space-free fields, numbers in range) and parsing it gives the same fields and the same raw key |
| `Upid.RawIsInput` | internal/tasks/upid.go:48-57 | a parsed UPID's raw key is the parsed text, which is not empty |
| `Upid.ParseExact` | internal/tasks/upid.go:26-58 | exactly the texts of a prefix, at least seven colon-separated fields and one optional final colon parse, if the three hexadecimal numbers are in range; what each field is read as; further fields are ignored |
| `Upid.VmidDecimal` | internal/tasks/upid.go:67-76 | a guest number printed in decimal is read as that number if it fits 64 bits, else as -1 |
| `Upid.VmidOther` | internal/tasks/upid.go:67-76 | an empty id, or one with a character that is neither a digit nor a sign, gives -1 |
| `Upid.WorkerTable` | internal/tasks/workers.go:6-42 | the table holds exactly the workers named after a kind and an action, with the one irregular name of the QEMU migration and without an LXC reset or template |
| `Upid.LineWithTail` | internal/tasks/upid.go:90-101 | a line is cut at its first space into the UPID and its status tail, line ends dropped |
| `Upid.RunningForms` | internal/tasks/upid.go:83-107 | the bare line and the line ending in `0` read back as the same running task |
| `Upid.SavedForm` | internal/tasks/upid.go:108-112 | the saved form reads back as the same UPID, with the white-space normalised status exactly when the status is not blank; else the end time is taken for the status |
| `Upid.IndexForm` | internal/tasks/upid.go:105-117 | the index form reads back as the same UPID; its white-space normalised status survives exactly when the line does not look like a saved one whose marker is the end time `1`; a blank status survives exactly when the end time is `0`, and else the end time is taken for it |
| `Upid.OtherForms` | internal/tasks/upid.go:103-118 | a trailer that does not begin with a hexadecimal word is the status itself without the white space around it; a single word is the status unless it is `0`; a blank trailer is none |
| `Watch.PerUpid` | internal/tasks/watcher.go:188-216 | all that a scan does to a UPID, its flags and its events in order, depends only on whether the file lists it and on the first status the file gives for it |
| `Watch.ScanKeys` | internal/tasks/watcher.go:222-229 | after a clean scan the watcher knows exactly the UPIDs of the file and the earlier ones that have not terminated |
| `Watch.ScanGet` | internal/tasks/watcher.go:188-229 | the flags of each UPID after a clean scan, and that only unseen terminated ones are dropped |
| `Watch.BrokenScan` | internal/tasks/watcher.go:218-229 | a read that breaks off forgets no UPID and learns the lines it has read; a whole one forgets, on top, exactly the terminated UPIDs it has not read |
| `Watch.ObserveExact` | internal/tasks/watcher.go:172-187 | the items are exactly the parsed lines of known workers of the wanted kinds |
| `Watch.SentReports` | internal/tasks/watcher.go:190-216 | every event of a scan carries the scan's time and the UPID, kind and action of a line of its file; a terminal one carries that line's status, and is finished exactly when the status begins with the letters OK and failed exactly when not |
| `Watch.SpawnedAre` | internal/tasks/watcher.go:201-206 | a scan starts one poller for each QEMU migration it reports as started, in that order, and no other |
| `Watch.Rescan` | internal/tasks/watcher.go:43-48 | scanning an unchanged file again emits nothing and changes nothing, even with several lines for a UPID |
| `Watch.Coalesce` | internal/tasks/watcher.go:43-48 | reading F1 and then F2 gives every UPID the same phases and statuses, and the watcher the same knowledge, as reading F2 alone, if F2 keeps the lines and statuses of F1 and no terminated UPID skips F1 and returns in F2 |
| `Watch.CoalesceBoundary` | internal/tasks/watcher.go:222-229 | the last condition is needed: such a UPID starts a second life that F2 alone would not give it |
| `Watch.Watcher.ParseAll` | internal/tasks/watcher.go:167-231 | one read of the file: the new map, the events sent and the pollers started are those of the scan specification; a read that breaks off skips the collection |
| `Watch.Watcher.ParseLine` | internal/tasks/watcher.go:171-217 | one line moves the map, the channel, the pollers and the seen set by one step of that specification |
| `Watch.Watcher.Admit` | internal/tasks/watcher.go:173-187 | a line counts when it is not empty, parses, names a worker of the table and passes the kind filter |
| `Watch.Watcher.ParseOne` | internal/tasks/watcher.go:189-216 | the flags, the started and terminal events and the poller of one admitted line |
| `Watch.LinesWhole` | internal/tasks/watcher.go:171-217 | the loop over the lines does what the specification over the admitted items says |
| `Interleave.FullStep` | internal/tasks/watcher.go:167-302 | with what the scanner still owes counted in, a step changes a UPID's trace only by marking a line or by sending a synced |
| `Interleave.ItemsGood` | internal/tasks/watcher.go:173-187 | every line that passes the filters gives an item with a parsed UPID and its worker, so a scan of the step model can begin on any file |
| `Ordering.InvStep` | internal/tasks/watcher.go:167-302 | every step of scanner, poller or consumer keeps the invariant of map, pollers, channel and log |
| `Ordering.EveryInterleaving` | internal/tasks/watcher.go:167-302 | in every interleaving a UPID's log without synced strictly alternates started and terminal; no prefix holds more synced than started; only QEMU migrations are ever synced; a logged task is finished exactly when its status begins with the letters OK, failed exactly when not, and other events have no status; the channel never holds more than 256 events |
| `Boundary.AtMostOnce` | internal/tasks/watcher.go:167-302 | if a UPID does not return once collected, each of its phases is logged at most once, whatever other UPIDs do |
| `Boundary.OnceExact` | internal/tasks/watcher.go:167-231 | in every run a UPID has at most one start, one still to be sent included, exactly when no scan reads a line of it after its collection; then each of its phases is logged at most once |
| `Boundary.TrailingBoundary` | internal/tasks/watcher.go:262-299 | once a scan has marked the terminal of a UPID that does not return, some continuation still logs a synced for it if and only if a poller of it is between check and send; every poller between check and send made a check in the run before that mark, and one that comes to its check after it gives up |
| `Apart.SyncedInOrder` | docs/EVENTS.md:107-109 | if no scan marks the end of a UPID while a poller of it is between check and send, and the UPID does not return or no poller of it sends ahead of its start, its log is started, at most one synced, terminal, repeated; whatever else the scanner and other UPIDs' pollers do |
| `Apart.OrderExact` | docs/EVENTS.md:107-109 | in runs in which no scan marks the end of a UPID while a poller of it is between check and send, its log has that order exactly when no poller of it sends before its start has been sent |
| `Witness.MigrationLines` | internal/tasks/watcher.go:172-187 | the two lines of a well-formed migration give the items the witness runs read |
| `Witness.SyncedCanTrail` | internal/tasks/watcher.go:262-299 | for every migration UPID a run in which it does not return logs started, finished, synced |
| `Witness.SyncedCanPrecedeItsStart` | internal/tasks/watcher.go:262-299 | for every migration UPID a run in which no scan marks its end inside such a window, and in which it returns after its collection, logs a synced after its end while its new start is still to be sent |
| `Witness.SyncedTwice` | internal/tasks/watcher.go:285-299 | for every migration UPID a run in which it returns logs started, synced, finished, started, synced |
| `Witness.ScanRefined` | internal/tasks/watcher.go:167-231 | a scan of any file can begin when none is under way; run step by step with only the consumer beside it, it ends with exactly the map, the events and the pollers that ParseAll is specified to give for those lines |
| `Witness.SavedLineReported` | internal/tasks/watcher.go:188-216 | for every well-formed UPID of a known worker and every status that is not blank a run reads the saved line and logs started and then finished or failed as the status says |
| `Orphans.OrphanReached` | internal/tasks/watcher.go:285-290 | for every migration UPID a run reaches a state in which its entry has no start on record |
| `Orphans.OrphanExact` | internal/tasks/watcher.go:285-290 | in every run, an entry has no start on record exactly when a poller has marked its UPID while the map had no entry for it and no scan has read a line of it since |
| `Orphans.OrphansLeak` | internal/tasks/watcher.go:222-229 | while a UPID does not return once collected, its entry has no start on record exactly when some step has so written it back: no scan removes it again, and its task has ended and been collected |
| `Pollers.OverExact` | internal/tasks/watcher.go:250-302 | in every run a poller is over exactly when its check found the UPID missing or ended, its mark found the flag set, it sent, or it was cancelled; it has sent exactly when its send was taken |
| `Pollers.KeepsWatching` | internal/tasks/watcher.go:269-283 | a poller that none of those steps has ended, however often it found no log file or no marker, can still report: while its UPID is known, not ended and not synced, some continuation logs its synced |
| `Target.ParseTargetOption` | internal/enrich/enrich.go:256-281 | the option loop returns the first option target of its specification |
| `Target.ParseTargetAfterMigrate` | internal/enrich/enrich.go:220-254 | the loop with its seen-VMID flag returns what the positional reading says |
| `Target.ParseMigrateTarget` | internal/enrich/enrich.go:183-218 | the three searches in their order return the target of the specification |
| `Target.TargetSource` | internal/enrich/enrich.go:183-314 | on every argv a non-empty result looks like a node and is an argument or the trimmed value of a key=value argument |
| `Target.NoOptionInSuffix` | internal/enrich/enrich.go:256-281 | an argv without an option target has none in any suffix |
| `Target.KeyReturnIsDead` | internal/enrich/enrich.go:230-235 | after its own option pass the positional reading never returns a key's value |
| `Target.OnePassSuffices` | internal/enrich/enrich.go:188-240 | the layered search equals the one with a single option pass in front |
| `Target.OneWordCommand` | internal/enrich/enrich.go:202-206 | `qmigrate` and `vzmigrate`, by any path or none, with a VMID and a node yield the node, behind any arguments that with the path hold no option target and no earlier command, and before any tail without an option target |
| `Target.TwoWordCommand` | internal/enrich/enrich.go:195-201 | the same for `qm migrate` and `pct migrate` |
| `Target.BaseOfPath` | internal/enrich/enrich.go:357-362 | a tool is recognised by its last path element in any letter case, with or without a directory |
| `Target.FlagTarget` | internal/enrich/enrich.go:272-278 | each of the five option flags, in any letter case, followed by a node gives that node, behind arguments without an option target and before any tail |
| `Target.PairTarget` | internal/enrich/enrich.go:263-270 | each of the five keys, in any letter case and behind any dashes, with a node as its value gives that node in the same way |
| `Target.NodeNames` | internal/enrich/enrich.go:296-314 | exactly the texts of letters, digits, dashes, underscores and dots that do not start with a dash and are no 64-bit decimal number pass for node names |
| `Target.CmdlineArgs` | internal/enrich/enrich.go:346-355 | non-empty arguments come back from a command line with a zero byte between or after them |
| `Target.CmdlineClean` | internal/enrich/enrich.go:346-355 | no argument read from any command line is empty or holds a zero byte |
| `Argv.TargetIsSaid` | internal/enrich/enrich.go:183-294 | on every command line the target is exactly what the arguments say by position: the first option target; without one, the first node behind a VMID in the first migrate command that has one; without one, the same after the first such migrate word; else nothing |
| `Enrich.StartsAreOpen` | cmd/proxmox-eventbus/main.go:205-217 | the start map holds exactly the tasks whose started and not terminal event was consumed, each with that start's observation time; a synced never adds one |
| `Enrich.DurationFromOwnStart` | internal/enrich/enrich.go:105-111 | a terminal event carries its status and, in whole milliseconds, the time since the start after which its task neither started nor ended |
| `Enrich.TargetsAreOpen` | internal/enrich/enrich.go:89-103 | cached targets are never empty and belong to open migrations only |
| `Enrich.TargetNeverMissing` | internal/enrich/enrich.go:89-103 | once a migration's started event has a target, every later event up to its terminal one has one, whatever the command line and the log then show |
| `Enrich.CachedIsStarts` | internal/enrich/enrich.go:316-344 | the cached target of a task is the one its open start carries |
| `Enrich.TargetExact` | internal/enrich/enrich.go:89-103 | each event's target is what its own command line, else its own log, shows; if they show nothing it is the target published on its own start, and none without such a start |
| `Enrich.MadeAt` | internal/enrich/enrich.go:68-119 | every field of each published event: those that depend on the consumer's state at that event, and the task's own, the guest's configuration, the node, the type, source and subject |
| `Enrich.Enricher.ResolveMigrateTarget` | internal/enrich/enrich.go:121-141 | command line, then log, then, for a started event, polling; at most wait/poll polls rounded up, 20 with the default settings, and it gives up only after the whole wait, two seconds by default |
| `Enrich.Enricher.TargetPoll` | internal/enrich/enrich.go:60-65 | the poll interval is always positive |
| `Enrich.Enricher.MigrationTarget` | internal/enrich/enrich.go:89-103 | the target of a migration event and the cache after it |
| `Enrich.Enricher.Enrich` | internal/enrich/enrich.go:68-119 | the whole published event and the cache after it |
| `Enrich.Enricher.Fill` | internal/enrich/enrich.go:69-118 | the event's data, filled in step by step, is the described record |
| `Enrich.Consumer.Handle` | cmd/proxmox-eventbus/main.go:205-218 | one round of the consumer: what it hands on, its start times and the target cache afterwards |
| `Snapshots.Emitter.SendStates` | internal/snapshot/snapshot.go:70-81 | a loop over guests attempts each once and counts them all |
| `Snapshots.Emitter.EmitBatch` | internal/snapshot/snapshot.go:62-96 | a batch leaves in the channel exactly those of its attempts that found room, in order; nothing when the guests cannot be listed |
| `Snapshots.BatchSound` | internal/snapshot/snapshot.go:62-96 | whatever the channel drops, with or without a marker, the delivered states are a subsequence of the guest list; the marker comes last with the guest count n; with k states before it exactly n-k were dropped, and k = n means that all arrived |
| `Snapshots.AttemptsReport` | internal/snapshot/snapshot.go:62-120 | a batch reports each of its guests in their order with kind, guest, state, detail, name, tags and batch id, and then how many they are |
| `Pipeline.InvStep` | cmd/proxmox-eventbus/main.go:141-220 | every step of watcher, consumer, batches and publisher keeps the invariant of the composed system |
| `Pipeline.Conservation` | cmd/proxmox-eventbus/main.go:141-220 | in every reachable state the published lifecycle events, those in the output channel and the held one are, in order, what the consumer made of the events it took; those and the watcher's channel are all the watcher ever sent, however many snapshot events were dropped |
| `Guarantees.OpenIffOdd` | cmd/proxmox-eventbus/main.go:205-217 | in an alternating log a task's start is open exactly after an odd number of its events |
| `Guarantees.EveryDuration` | docs/EVENTS.md:98 | every terminal event of the daemon carries a duration measured from the observation of its own start |
| `Guarantees.StartsExact` | cmd/proxmox-eventbus/main.go:200-217 | in every reachable state the start map holds exactly the tasks whose start the consumer has taken and whose terminal event it has not handed on |
| `Guarantees.TargetsSurvive` | internal/enrich/enrich.go:89-103 | in every run of the daemon a target once published stays on all events of its task up to the terminal one |
| `Guarantees.TargetsExact` | internal/enrich/enrich.go:89-103 | in every run each event's target is what its own process and log show, else the one published on its own start; in every state the cached target of a task is the one published on its open start |
| `Guarantees.TargetKeysOpen` | internal/enrich/enrich.go:316-344 | in every reachable state the target cache holds open migrations only, with non-empty targets |
| `Guarantees.PublishedBatch` | docs/EVENTS.md:122-123 | with overlapping batches and any drops, what has been published of a batch so far is sound in that sense, whether or not its marker is among it |
| `Guarantees.PublishedSubjects` | cmd/proxmox-eventbus/main.go:175-185 | every guest's event the daemon publishes goes to the subject of this daemon's cluster and node and of its own kind, guest, action and phase, the last three being those of its type; only completion markers go to this node's completion subject |
| `Published.PublishedAre` | cmd/proxmox-eventbus/main.go:141-220 | every event ever published is explained: a lifecycle event is what was made of an event taken, with its UPID, worker, phase, status and verdict; a state event reports a guest of its batch; a marker counts its batch |
| `Published.DropsExact` | internal/snapshot/snapshot.go:123-129 | in every run a batch drops exactly the sends that met a channel with 1024 events in it |
| `Published.DeliveredExact` | internal/snapshot/snapshot.go:62-96 | the channel has accepted of a batch as many events as its other sends; of one that has attempted everything, one more than its guests less the dropped ones |
| `Guarantees.DrainStep` | cmd/proxmox-eventbus/main.go:175-219 | while an event is under way a draining step is enabled, and every enabled step of consumer or publisher shrinks the weighted backlog by exactly one |
| `Guarantees.EverythingCanBePublished` | cmd/proxmox-eventbus/main.go:175-219 | from every reachable state, as many steps of consumer and publisher as the backlog counts publish all that the watcher has sent |
| `Progress.PayStep` | internal/tasks/watcher.go:201-216 | with what a blocked scanner and marked pollers still owe counted in, some paying step is enabled while anything is owed, and every enabled one pays exactly one |
| `Progress.PromisesCanBeKept` | internal/tasks/watcher.go:188-216 | from every reachable state a run of known length publishes all that was sent, then all that the scanner owes, then the synced events of the marked pollers |
| `Debounce.InvStep` | internal/tasks/watcher.go:116-151 | every round of the loop keeps the invariant of pending flag, timer, notifications and scans |
| `Debounce.NeitherLostNorStarved` | internal/tasks/watcher.go:131-150 | pending holds exactly while one tick is under way; the next scan after any relevant notification is due at most one debounce after it, however many follow |
| `Debounce.ScansApart` | internal/tasks/watcher.go:141-149 | consecutive scans, the initial one included, are at least one debounce apart |
| `Debounce.NoMoreScansThanNotes` | internal/tasks/watcher.go:141-149 | scans number at most the relevant notifications plus one |
| `Debounce.ScannedInTime` | internal/tasks/watcher.go:141-149 | if the runtime delivers due ticks within some lateness, every notification is followed by a scan within one debounce and that lateness |
| `Debounce.HistoryExact` | internal/tasks/watcher.go:116-156 | what a run does is told by its stimuli: it notes exactly the notifications of the active file or of a file called active elsewhere, scans at the start and at every tick, watches the file anew whenever it was created, and is over exactly when the first scan failed or the last stimulus was a cancellation, a closed channel, an error or a failed scan |
| `Debounce.Runner.constructor` | internal/tasks/watcher.go:82-88 | the debounce is 25 milliseconds, nothing is pending |
| `Debounce.Runner.Notified` | internal/tasks/watcher.go:131-144 | an irrelevant path changes nothing; a relevant one arms the timer only when nothing is pending |
| `Debounce.Runner.Round` | internal/tasks/watcher.go:121-150 | each case of the select moves the loop by one step, and says when the loop returns |
| `Debounce.Runner.Run` | internal/tasks/watcher.go:95-152 | the loop with its initial scan is the run of these steps |
| `Members.PeersAre` | internal/pmxcfs/members.go:134-151 | in whatever order the map is visited, the peers are exactly the online nodes other than this one |
| `Members.SamePick` | internal/pmxcfs/members.go:140-149 | two visiting orders of the same keys build the same elements |
| `Members.Reader.Members` | internal/pmxcfs/members.go:59-68 | a reading less than two seconds old is given again, else the file is read; a reading is then the cache's content, and a failed read changes nothing |
| `Members.Reader.Peers` | internal/pmxcfs/members.go:134-151 | the loop over the map visits each node once and keeps the online ones that are not this node |
| `Routes.WantedUnique` | internal/bus/routes.go:45-53 | the sorted addresses do not depend on the map's iteration order |
| `Routes.WantedAre` | internal/bus/routes.go:45-53 | they are sorted, and hold each non-empty address as often as online nodes other than this one have it, and no other |
| `Routes.SortSorts` | internal/bus/routes.go:52 | sorting gives an ordered permutation |
| `Routes.DecodeKey` | internal/bus/routes.go:53-56 | a list of addresses can be read back from its key exactly when no address holds a comma |
| `Routes.CommaCollides` | internal/bus/routes.go:53-56 | any two or more addresses share their key with the one address that is that key, commas included |
| `Routes.EarlyReturnExact` | internal/bus/routes.go:53-56 | nothing is reloaded exactly when the keys agree; that means the wanted addresses are those the applied routes were made from exactly when the keys differ or the addresses are the same; if one of the two lists has no comma, exactly when the keys differ or neither has one |
| `Routes.RouteAgreement` | internal/bus/routes.go:36-81 | after any mix of read failures, reload failures and membership changes the applied routes are, address by address, what parses of the route URLs of the addresses loaded last, then what parses of the static routes, and the key is theirs; the key encodes those addresses exactly when none holds a comma, which is so if no membership file has one |
| `Routes.FailedReloadIsRetried` | internal/bus/routes.go:70-77 | however many reloads fail, no route changes and every round that reads the same peers tries again, until one succeeds and applies their routes |
| `Routes.Fixpoint` | internal/bus/routes.go:53-56 | while the peers stay the same, nothing is reloaded again |
| `Routes.Converges` | internal/bus/routes.go:36-81 | after one reading round whose reload succeeds, whatever came before, the routes stay and have the key of the peers just read; they are the routes of those peers exactly when the key was another one before or the same peers were loaded, with one of the two lists free of commas exactly when the key was another one or both are, and always if no membership file has a comma in an address |
| `Routes.Server.constructor` | internal/bus/server.go:88-99 | the server starts with the static routes and an empty key |
| `Routes.Server.RoutesToUrls` | internal/bus/server.go:159-168 | the static routes that parse, in order |
| `Routes.Server.SortedIps` | internal/bus/routes.go:45-52 | the non-empty addresses of the peers, sorted |
| `Routes.Server.PeerRoutes` | internal/bus/routes.go:58-65 | the route URLs of the addresses that parse, in order |
| `Routes.Server.Reconcile` | internal/bus/routes.go:53-81 | compares the key, reloads, and commits routes and key only when the reload succeeds |
| `Routes.Server.ApplyRoutes` | internal/bus/routes.go:36-81 | one round on some order of the map, as the step specification says |
| `LogFile.WalkSound` | internal/tasks/logfile.go:43-69 | what the bounded walk finds is a file of that name under at most three nested directories |
| `LogFile.WalkComplete` | internal/tasks/logfile.go:43-69 | if there is such a file, the walk finds one |
| `LogFile.GlobFinds` | internal/tasks/logfile.go:34-41 | what the glob stage returns is a log file one directory down |
| `LogFile.SearchExact` | internal/tasks/logfile.go:14-71 | the lookup fails only when the log file is nowhere within reach; its answer is such a file exactly when no direct candidate is a directory or the root itself |
| `LogFile.DirectoryMisleads` | internal/tasks/logfile.go:24-32 | whenever the root has a directory of the task's name, the lookup gives that directory, which is no log file |
| `LogFile.FindAgrees` | internal/tasks/logfile.go:14-71 | without such a directory, the lookup succeeds exactly when the log file exists, and gives one |
| `LogFile.Finder.Visit` | internal/tasks/logfile.go:45-69 | the callback skips directories at the depth limit and stops at the first file of the name |
| `LogFile.Finder.WalkDir` | internal/tasks/logfile.go:45-69 | the walk leaves in `found` the first match in walking order |
| `LogFile.StatCandidates` | internal/tasks/logfile.go:24-32 | the first direct candidate that exists, file or not |
| `LogFile.GlobUnder` | internal/tasks/logfile.go:35 | the entries of that name in the directories of the root |
| `LogFile.FirstRegular` | internal/tasks/logfile.go:36-40 | the first match that is a file |
| `LogFile.GlobCandidates` | internal/tasks/logfile.go:34-41 | the full name is tried before the trimmed one |
| `LogFile.FindLogFile` | internal/tasks/logfile.go:14-71 | the stages in their order compute the specified search |

## Left out

- The NATS server, TLS, certificates and gossip: a reload is a step that may fail, publishing is a sink.
- fsnotify, file and process reads: what they return is an arbitrary input of the step that asks (a file's lines per scan, a command line, a log reading, a membership file).
- The regular expression that reads a target from a task log (internal/enrich/enrich.go:170-181): its answer is an arbitrary string, so what `Target.TargetSource` says holds of the command line only.
- JSON, configuration, flags, journal and log formatting, the VM configuration parser, tag splitting, state probing and jitter: they add easy members only.
- The envelope's random id and wall-clock time, and the observation times of snapshot events.
- Cancellation of the consumer and the publisher: runs of the pipeline are those before it. Cancellation of pollers and of the notification loop is modelled.
- That no send happens while the mutex is held is built into the step relation of `Interleave` (a marking step never sends) and is not a theorem.
- The line-length limit of the scanner (internal/tasks/watcher.go:170): a line over it is a read that breaks off.
- How long a scan takes: in `Debounce` a scan happens at the moment its tick is taken, and notifications that arrive meanwhile count from when the loop reads them.
- Names with a slash, `..` or glob metacharacters, symbolic links and unreadable directories in `LogFile`: a name is one path element and an unreadable directory reads as empty.
- Unicode white space, case folding and multi-byte characters.
- The source's own method boundaries in four places: parseAll, applyRoutes, Lifecycle and FindLogFile are cut into several methods here, in the order of their statements.
- The inside of one enrichment in the composed system: taking and enriching an event is one step of `Pipeline`; the target wait in it is bounded by `Enrich.Enricher.ResolveMigrateTarget`, and no other goroutine reads the consumer's two maps meanwhile.
