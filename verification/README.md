# PrintForce Link: a verified model

PrintForce Link is an unattended agent on a print farm. It keeps a session to every printer,
merges the printers' partial reports, starts and restarts prints the cloud asks for, and tells
the cloud how each print ended. Its hard parts are protocols over reports that are partial,
repeated, late or missing. This project models those protocols in Dafny and proves what they
keep over every input and every run.

Each protocol is written twice. A class or method works step by step, as the program does, and
is proved equal to a function of its inputs and old state. The lemmas are about runs of that
function: any sequence of reports, clock readings, call results, restarts and interleavings.

| file | what it covers |
|---|---|
| `Keyed.dfy`, `Ams.dfy`, `AmsHistory.dfy`, `AmsRedelivery.dfy`, `AmsUnload.dfy`, `AmsReport.dfy` | merging AMS deltas, what one report does to its tray, and the slot rows reported from the result |
| `Remap.dfy` | from a file's filaments to live slots to the trays a start names |
| `SendWatchdog.dfy`, `SendCases.dfy`, `SendRuns.dfy`, `SendReasons.dfy`, `SendSetup.dfy`, `SendSettles.dfy` | the two-phase watchdog over one send: what each pass does, its safety, its slot hold before and after the first start, the reasons it reports, and when it ends |
| `Fleet.dfy`, `FleetRuns.dfy`, `FleetHistory.dfy` | membership, addresses and reconnects, over every interleaving of threads |
| `PrinterWorker.dfy`, `WorkerRuns.dfy` | one command thread per printer, over every interleaving |
| `Lifecycle.dfy`, `LifecycleHistory.dfy`, `Outbox.dfy` | print events from a report stream, and the queue they wait in |
| `Completion.dfy`, `CompletionRuns.dfy`, `CompletionReports.dfy`, `CompletionCases.dfy` | how an assignment is closed, latched, reported and acked, while other threads replace it |
| `Session.dfy`, `SessionUp.dfy` | MQTT session liveness: the tick, the redial backoff, the callbacks, and when a silent session is reset |

Whatever the program meets from outside is an arbitrary input of a step: clock readings, printer
reports, whether a publish, connect, probe or ack succeeded. Threads are program counters and
each critical section is one step; a completion pass is the list of its sections, run one at a
time on whatever the printer's own thread has put there. A pass of the send watchdog is one step:
one printer's sends have one thread.

## Model

| member | source | states |
|---|---|---|
| `Keyed.IndexList` | bridge/ams.py:418-430 | Indexing a list by id keeps, for each id, the last item that carries it. |
| `Keyed.ListSorted` | bridge/ams.py:442-444 | Writing a map back gives unique, increasing ids and loses or invents nothing. |
| `Keyed.SortedListUnique` | bridge/ams.py:444 | Only one sorted list stands for a given map, so equal maps mean equal reports. |
| `Ams.FirstAbsentSlot` | bridge/ams.py:622-634 | The loop finds the first mapped tray known to be absent, as a 1-based slot. |
| `Ams.AbsentSlotIsFirstClear` | bridge/ams.py:603-634 | A start is refused exactly when some mapped tray 0-15 has its own bit or its unit's bit known clear, and the first such tray is the one named; missing bits, HT, A2L and external trays never refuse. |
| `AmsHistory.MergeTrayKey` | bridge/ams.py:447-470 | For every key, one tray merge acts like a single effect (keep, write, erase, or a zeroed tag that yields to a real one). |
| `AmsHistory.UnloadTrayKey` | bridge/ams.py:437-438 | A report that says the tray is empty erases every reading and tag and still takes the other keys it names. |
| `AmsHistory.MergeTracks` | bridge/ams.py:360-394 | One merge changes each remembered field by exactly the delta's events for that tray: its reports in order, then a dropped unit, then a clear bit. |
| `AmsHistory.MergeIsHistory` | bridge/ams.py:360-394 | Folding any sequence of deltas from nothing remembers, for every unit, tray and key, what that tray's own event history says. |
| `AmsHistory.ReadingIsLatestNamed` | bridge/ams.py:447-482 | A reading field holds v if and only if v is what the latest report naming the field said, with no blanking since; the two colour spellings count as one field. |
| `AmsHistory.NoInheritedColour` | bridge/ams.py:449-452 | After a report that names one colour spelling only, the other spelling is gone. |
| `AmsHistory.IdentityIsLatestReal` | bridge/ams.py:453-470 | A real tag is remembered if and only if nothing since cleared the tray, gave another real tag, or read a type with every tag zeroed. |
| `AmsRedelivery.TrackTwice` | bridge/ams.py:447-482 | Repeating any run of events on a field leaves it as the first run did. |
| `AmsRedelivery.MergeShape` | bridge/ams.py:397-444 | Which units a merge keeps, and that their own fields are overlaid in the order the delta lists them. |
| `AmsRedelivery.MergeRedelivery` | bridge/bambu/session.py:648 | Delivery is at least once, and merging a delta a second time changes nothing, whatever was remembered before. |
| `AmsRedelivery.MergedIsClean` | bridge/ams.py:397-414 | After every merge no tray with a clear bit carries a reading or a tag, and a unit is remembered iff it was named or known and is not gone. |
| `AmsUnload.CleanStrReads` | bridge/coerce.py:26-30 | A field is read as the text x iff it is x between blanks, with x not empty and neither end of it blank. |
| `AmsUnload.RealMeans` | bridge/ams.py:473-475 | A tag is real iff it says something that is not all zeros. |
| `AmsUnload.ColourIsRead` | bridge/ams.py:278-295 | A colour is read from `tray_color`, or from the first `cols` entry exactly when the named field is missing, blank as sent or eight zeros, and eight zeros are never one. |
| `AmsUnload.PresenceMeans` | bridge/ams.py:298-317 | A report empties its tray iff the tray's known bit is clear, or, with no bits, no colour or type is read and the type is named or, off AMS-HT, only an idle state is given; it fills it iff the known bit is set, or, with no bits, a colour or type is read. |
| `AmsUnload.LastReportDecides` | bridge/ams.py:422-482 | Whatever else a delta says, its last report of a tray decides what is remembered of it: no reading and no tag if that report empties the tray, and otherwise its own reading, its own tag where that is real, where no real one was there or where it reads a type with every tag zeroed, and for keys it does not name what was there before; for a unit the delta does not drop. |
| `AmsUnload.WholeIsLatestCarried` | bridge/ams.py:376-394 | Over any deltas, each bitmask and each field of the AMS object itself is the one that the latest delta to carry it brought. |
| `AmsReport.MergeTrayFields` | bridge/ams.py:447-470 | The key-by-key loop, in any order of keys, equals the merge rule stated per key. |
| `AmsReport.UpdateOneTray` | bridge/ams.py:431-440 | One tray report is either a blanking or a merge, by presence. |
| `AmsReport.MergeTrays` | bridge/ams.py:424-442 | A unit's tray list comes back sorted and stands for the fold of its tray reports. |
| `AmsReport.MergeUnits` | bridge/ams.py:417-444 | The unit list comes back sorted and stands for the fold of all unit reports; omitted units stay. |
| `AmsReport.DropUnits` | bridge/ams.py:397-414 | Exactly the regular units whose bit is clear are dropped, and the rest stay sorted. |
| `AmsReport.BlankTrays` | bridge/ams.py:485-506 | Exactly the trays whose bit is clear lose their reading and tag. |
| `AmsReport.BlankUnits` | bridge/ams.py:485-506 | The same over all units. |
| `AmsReport.MergeAms` | bridge/ams.py:360-394 | The whole merge on lists has unique increasing ids and stands for the merged map. |
| `AmsReport.ViewUnique` | bridge/ams.py:442-444 | Two well-formed AMS objects that stand for the same map are the same object. |
| `AmsReport.RedeliveredAmsIsSame` | bridge/ams.py:360-394 | On the list form too: merging the delta again gives back the very same object. |
| `AmsReport.ParseAms` | bridge/ams.py:182-232 | No reading comes back iff there is no unit list or some tray's presence is unknown; otherwise one row per tray, in order, each what that tray should be reported as. |
| `AmsReport.SlotNumberInjective` | bridge/ams.py:90-100 | On the supported units no two trays share a slot number. |
| `AmsReport.SlotNumberCollision` | bridge/ams.py:90-100 | Outside them they do: regular unit 4, tray 0 and AMS-HT 128 are both slot 17. |
| `AmsReport.AllTraysDistinct` | bridge/ams.py:188-198 | A well-formed AMS lists no unit and tray pair twice. |
| `AmsReport.RowsHaveDistinctSlots` | bridge/ams.py:188-232 | So the rows of a merged AMS on supported units never share a slot number. |
| `AmsReport.RemainIsNeverEmptiness` | bridge/ams.py:298-317 | Changing `remain` never changes whether a tray is present. |
| `AmsReport.RowsNeverInvent` | bridge/ams.py:200-227 | An absent tray reports nothing, the no-colour value is never a colour, and a reported percentage is 1 to 100. |
| `AmsReport.SpoolNeedsRealTag` | bridge/ams.py:235-262 | A spool is named iff one of its tags is real, is an explicit null for zeroed tags, and is left out iff the printer sent no tag. |
| `AmsReport.RowReadsItsFields` | bridge/ams.py:200-262 | Each fact of a present tray's row is read from the one field that carries it, cut at its limit, and a real `tray_uuid` goes before a `tag_uid`. |
| `Remap.AmsFields` | bridge/bambu/commands.py:127-160 | Position by position the wire target of each tray, and AMS off iff something is used and all of it is external. |
| `Remap.TargetsAreDistinct` | bridge/bambu/commands.py:127-160 | Two different AMS trays are never sent as the same unit and slot. |
| `Remap.SlotLeadsBackToTray` | bridge/bambu/commands.py:111-124 | The slot number given to a supported unit and tray leads back to that unit and tray on the wire. |
| `Remap.AcceptedNumbersAreSlots` | bridge/bambu/commands.py:104-108 | A remap accepts exactly the slot numbers that some tray of a supported unit has. |
| `Remap.NoTrayTargets` | bridge/bambu/commands.py:139-145 | An unused position and an external spool are told apart by the slot id alone, and no other allowed tray is sent as -1. |
| `Remap.MaxIdBounds` | bridge/app.py:2125 | The mapping length is the largest required id, and reached. |
| `Remap.ValidateSparse` | bridge/app.py:2124-2139 | Validation accepts exactly the sparse mappings (right length, a real tray where required, -1 elsewhere) and returns them unchanged. |
| `Remap.TraysForMatches` | bridge/app.py:2146-2158 | A colour and family collects one tray iff exactly one live slot matches, and then that slot's tray. |
| `Remap.CollectCandidates` | bridge/app.py:2146-2158 | The first loop gives up iff a relevant slot is malformed, and otherwise collects, per filament, the trays of its slots. |
| `Remap.PlaceFilament` | bridge/app.py:2163-2167 | One filament is placed iff exactly one slot matches it, and then the filaments placed before keep their trays. |
| `Remap.PlaceFilaments` | bridge/app.py:2159-2167 | The second loop succeeds iff each filament has exactly one matching slot, and then puts that slot's tray at the filament's position and -1 elsewhere. |
| `Remap.MappingFromLiveSlots` | bridge/app.py:2142-2168 | A mapping comes back iff every relevant slot is well formed and every required colour and family has exactly one slot; the last validation never rejects it. |
| `Remap.RemapIsSparse` | bridge/app.py:2168 | Whatever the loops build passes the sparse contract. |
| `Remap.RemapSendsTheRow` | bridge/app.py:2142-2168 | End to end with the wire encoding: each required position is sent as exactly the unit and tray its slot row was made from, every other position as unused. |
| `Remap.RemapNamesPresentTrays` | bridge/app.py:2142-2168 | From the merged AMS to the wire: a remap onto the rows `parse_ams` gave names, for each required filament, a tray that AMS lists, that holds a spool, and whose colour was read. |
| `Remap.RemapStaysOnAms` | bridge/bambu/commands.py:156-159 | A remapped start never turns the AMS off. |
| `SendWatchdog.SlotHolds.Begin` | bridge/app.py:100-108 | A hold already running keeps its start time and takes the new slot; other sends' holds are untouched. |
| `SendWatchdog.SlotHolds.Adopt` | bridge/app.py:110-113 | A hold read back from disk never replaces one that is running. |
| `SendWatchdog.SlotHolds.Clear` | bridge/app.py:125-129 | Only this send's hold ends. |
| `SendWatchdog.CloudSend.Fail` | bridge/app.py:1602-1610 | A failure is reported, and ends the send only when acked. |
| `SendWatchdog.CloudSend.SlotHold` | bridge/app.py:1646-1681 | An absent tray holds the start and is reported only past ten minutes; a present one ends the hold; other sends' holds stay. |
| `SendWatchdog.CloudSend.KeepSlotHold` | bridge/app.py:1684-1697 | The record mirrors the hold, is written only on a change, and never over a latched failure. |
| `SendWatchdog.CloudSend.RepublishStart` | bridge/app.py:1862-1890 | Sent, refused on the first absent tray, or not sent. |
| `SendWatchdog.CloudSend.Republish` | bridge/app.py:1954-1975 | After a reset: nothing while offline; otherwise one start, and one attempt spent only if it went out. |
| `SendWatchdog.CloudSend.Retry` | bridge/app.py:1976-2001 | After phase B: one start, held on an absent tray, reported failed if it did not go out. |
| `SendWatchdog.CloudSend.AdvanceCloudSend` | bridge/app.py:1893-2010 | One pass does exactly what the pass function says, to the record, the hold and the outside world. |
| `SendCases.StartOutcomeMeans` | bridge/app.py:1862-1890 | A start is refused on slot n iff n is the first mapped tray known empty, and otherwise goes out iff there is a mapping and the publish is accepted. |
| `SendCases.PassDoesExactly` | bridge/app.py:1893-2010 | A pass over a live send publishes, resets, enters phase B, reports the dispatch, checks the slots and reports a failure each exactly in its own case, stated on the record and on what the pass meets. |
| `SendCases.HoldFollowsChecks` | bridge/app.py:1646-1697 | While a send lives, its hold begins, moves and ends with its slot checks and with nothing else. |
| `SendCases.PassEndsExactly` | bridge/app.py:1904-2010 | A pass confirms a live send iff the printer is seen working and not refusing, and fails it iff a failure is reported and acked. |
| `SendCases.IdIsLatest` | bridge/app.py:1969-1971 | Over any run the record holds the id of the last start that went out and left one on the printer, else the first one's; the file name it compares with never changes. |
| `SendCases.EchoOfLastStartIsSeen` | bridge/send_pipeline.py:175-176 | Over any run, a live send in plain phase A whose printer shows that last start's id, and is neither active nor refusing, enters phase B in that pass. |
| `SendRuns.AdvanceMoves` | bridge/app.py:1912-2010 | Every pass is one of five moves: idle, enter phase B, reset, exhaust the budget, publish; and keeps every reachable send sane. |
| `SendRuns.ProgressLowersRank` | bridge/send_pipeline.py:142-181 | A pass that changes phase, attempts or the pending republish strictly lowers the rank, which stays positive. |
| `SendRuns.ProgressIsBounded` | bridge/app.py:1912-2010 | Over any run, restarts included and whatever the clock does, a send makes at most seven such changes. |
| `SendSettles.HeldOfflineWaitsForever` | bridge/app.py:1917-1921 | Bounded progress is not an end: a republish held on an absent tray with the session down is left as it is, unreported, by any number of passes and restarts. |
| `SendRuns.AttemptBudgetHolds` | bridge/app.py:1922-2001 | Publishes never exceed attempts, attempts never exceed three, and there are at most two hard resets. |
| `SendRuns.RunIsSafe` | bridge/send_pipeline.py:142-181 | With a clock that does not go back, publishes are at least 90 s apart and no hard reset falls between an echo and the next publish. |
| `SendRuns.SlotEmptyIsJustified` | bridge/app.py:1646-1681 | From the first start on, an empty slot is reported only after a window over 600 s in which every slot check refused on an absent tray, across restarts. |
| `SendSetup.EmptySlotIsJustified` | bridge/app.py:1347-1351 | The same from the very first check of a send, before its upload and after, where the hold is in memory only. |
| `SendRuns.CheckLeavesHoldOnDisk` | bridge/app.py:1684-1697 | After any slot check that leaves the send live, record and hold agree. |
| `SendRuns.RestartIsInvisible` | bridge/app.py:1909-1911 | A restart never changes what the next pass of a live send does. |
| `SendRuns.FailureNeedsSpentBudget` | bridge/app.py:1936-2010 | Apart from an empty slot and refused commands, a failure means the budget is spent or a phase B retry did not go out; the send ends iff the report was acked. |
| `SendReasons.RunRecords` | bridge/app.py:1922-2001 | Over any run the recorded failure is what the last publishes, resets and echoes made it: no echo after a reset, no active print exactly after a phase B retry. |
| `SendReasons.ReasonNamesTheWait` | bridge/send_pipeline.py:184-197 | In one pass, the reason names the wait that ran out if and only if the record is not in plain phase A with an old no-active failure. |
| `SendReasons.FailureNamesItsReason` | bridge/send_pipeline.py:184-197 | Over any run: refused commands are blamed iff the printer refuses them now, an empty slot only where that slot was just refused, and otherwise the wait that ran out, if and only if the last start was not a phase B retry still waiting for its echo. |
| `SendReasons.ReasonCanLag` | bridge/send_pipeline.py:191-197 | The run that fails it: two starts are echoed and never print, the third is never echoed, and the report says the print did not become active. |
| `SendRuns.ActiveConfirms` | bridge/app.py:1912-1916 | A watchdog pass that sees the printer active confirms the send and only reports its dispatch. |
| `SendSettles.OverForGood` | bridge/app.py:1904-1906 | Once confirmed or failed, a send stays so over any run, and later passes only repeat the dispatch report. |
| `SendSettles.PassActsUnlessWaiting` | bridge/send_pipeline.py:151-181 | A pass over a live send does nothing if and only if the printer was not seen active or refusing, nothing new was echoed, and the current wait is not up or may not be used. |
| `SendSettles.SendEndsInTime` | bridge/app.py:1893-2010 | With the session up, failure reports acked, a pass at least every g seconds, and no pass that finds the assignment already seen active, a send is confirmed or failed within 8 (780 + 4 g) s of its first start, whatever the printer reports, the publishes return and the program restarts. |
| `Fleet.FleetState.Find` | bridge/fleet.py:587 | The first member with a serial, or none. |
| `Fleet.FleetState.BeginAdd` | bridge/fleet.py:550-556 | An add starts iff the serial is neither a member nor being added, under a new generation. |
| `Fleet.FleetState.CommitAdd` | bridge/fleet.py:563-576 | An add lands iff it still owns the serial's add, the generation has not moved and no member has the serial. |
| `Fleet.FleetState.RemoveSerial` | bridge/fleet.py:586-602 | A removal drops member, config, worker, pending add and pending reconnect together and moves the generation. |
| `Fleet.FleetState.ScheduleReconnect` | bridge/fleet.py:818-839 | A reconnect starts only for a current member with no reconnect pending and under two live workers. |
| `Fleet.FleetState.CommitSwap` | bridge/fleet.py:891-901 | A swap replaces exactly the printer it was scheduled for, under an unchanged generation and token. |
| `Fleet.FleetState.FinishReconnect` | bridge/fleet.py:906-909 | A worker releases only its own reservation, and always its slot. |
| `FleetRuns.StepKeepsInv` | bridge/fleet.py:544-609 | Each section and each step between sections, of any thread, keeps the whole invariant. |
| `FleetRuns.RunKeepsInv` | bridge/fleet.py:815-929 | So the invariant holds after every interleaving of adds, removes and reconnects. |
| `FleetRuns.MembershipIsConsistent` | bridge/fleet.py:544-602 | Serials are unique, and members, configs and workers always cover the same serials. |
| `FleetRuns.ReconnectsAreBounded` | bridge/fleet.py:993-999 | Live reconnect threads per serial equal the counter and never exceed two. |
| `FleetRuns.SwapsSeeNoMembershipChange` | bridge/fleet.py:891-901 | A swap commits only if no add or remove of its serial ran since it was scheduled. |
| `FleetRuns.PrintersAreAccounted` | bridge/fleet.py:855-929 | Every printer object ever made is exactly one of: a member, owned by one unfinished thread, disconnected. |
| `FleetRuns.SessionsOutliveOnlyLate` | bridge/fleet.py:931-958 | A disconnected printer object holds a session if and only if a connect its reconnect worker gave up waiting for came through after the disconnect. |
| `FleetRuns.QuietFleetHasNoLeak` | bridge/fleet.py:905-917 | Once every thread has finished, the objects not disconnected are exactly the members, and only members and late-connected objects can hold a session. |
| `FleetRuns.LateConnectLeaks` | bridge/fleet.py:950-953 | And one can: a reconnect whose connect comes through after its worker timed out, disconnected the replacement and ended. |
| `FleetHistory.AddBeginsIff` | bridge/fleet.py:550-556 | Over any run an add begins iff its serial is no member and the history holds no add of it that neither landed nor was removed. |
| `FleetHistory.AddLandsIff` | bridge/fleet.py:563-576 | A made printer joins iff its serial was not removed since that add began. |
| `FleetHistory.RemovalActsIff` | bridge/fleet.py:586-602 | A removal does something iff its serial is a member or being added; it takes out exactly that member and ends the add. |
| `FleetHistory.ReconnectStartsIff` | bridge/fleet.py:818-832 | A reconnect of a printer starts iff that object is the member, no reconnect of its current membership is live, and fewer than two of its serial are. |
| `FleetHistory.TicketIsOrdered` | bridge/fleet.py:833-839 | A reconnect dials the config its serial had when it was scheduled with just the address replaced by the one asked for. |
| `FleetHistory.GoesOnIff` | bridge/fleet.py:870-889 | A reconnect that has not dialled goes on iff no add or remove of its serial ran since it was scheduled. |
| `FleetHistory.SwapLandsIff` | bridge/fleet.py:891-901 | A swap goes through iff no add or remove of its serial ran since it was scheduled. |
| `FleetHistory.ConfigsFollowTheLog` | bridge/fleet.py:573-575 | Over any run the config of a serial is the one it was last added with, or at its last swap the one it had when that reconnect was scheduled, at the address then asked for; nothing else changes it. |
| `PrinterWorker.Worker.Busy` | bridge/printer_worker.py:44-47 | Busy is a waiting count above zero or a running job. |
| `PrinterWorker.Worker.Submit` | bridge/printer_worker.py:53-72 | A job is queued last iff the worker is not stopped and has room; a refusal changes nothing. |
| `PrinterWorker.Worker.DrainOne` | bridge/printer_worker.py:85-89 | A stop takes the oldest job off the queue. |
| `PrinterWorker.Worker.EndStop` | bridge/printer_worker.py:90 | The count drops by what the stop drained. |
| `PrinterWorker.Worker.Stop` | bridge/printer_worker.py:81-90 | A stop the worker thread does not interrupt empties the queue, hands back exactly what it held, in order, and corrects the count. |
| `PrinterWorker.Worker.Take` | bridge/printer_worker.py:104-110 | A job off the queue is marked running, or refused once stopped. |
| `PrinterWorker.ReachableInv` | bridge/printer_worker.py:44-128 | Every reachable state keeps the counts, order, flags and job accounting, also while the worker thread takes jobs between two steps of a stop's drain. |
| `PrinterWorker.CountIsExact` | bridge/printer_worker.py:64-90 | The count equals queue length plus the job in transit plus what a stop has drained so far, so neither clamp nor the full-queue branch ever fires. |
| `PrinterWorker.StartsAreFifo` | bridge/printer_worker.py:95-114 | Jobs start in the order accepted, each at most once. |
| `PrinterWorker.NoEntryAfterStop` | bridge/printer_worker.py:104-113 | Nothing enters `fn` unless it was marked running before the first stop took the lock. |
| `PrinterWorker.IdleMeansSettled` | bridge/printer_worker.py:44-47 | While not stopped, not busy means every accepted job has finished or was cancelled. |
| `PrinterWorker.StoppedMeansSettled` | bridge/printer_worker.py:74-101 | Once the thread has exited and every stop call cancelled what it drained, no accepted job is left. |
| `PrinterWorker.SettledOnce` | bridge/printer_worker.py:116-128 | A job is run or cancelled, never both, and never settled twice. |
| `WorkerRuns.AcceptsIff` | bridge/printer_worker.py:53-72 | A submission is accepted iff no stop ran before it and fewer jobs wait than the queue holds, the job taken but not yet marked counted; one that is refused changes nothing. |
| `WorkerRuns.QueueIsTheRest` | bridge/printer_worker.py:64-98 | The queue is always what was accepted less what has left it: the newest jobs, in order, none missing. |
| `WorkerRuns.TakenRunsIff` | bridge/printer_worker.py:104-113 | A job the thread has taken is marked running iff no stop ran before, and is refused otherwise. |
| `WorkerRuns.CancelsHaveACause` | bridge/printer_worker.py:91-113 | A job is cancelled only because its caller cancelled it or the worker was stopped. |
| `WorkerRuns.WorkIsBounded` | bridge/printer_worker.py:95-128 | The thread spends at most five steps on each accepted job and none on those still waiting. |
| `WorkerRuns.NeverStuck` | bridge/printer_worker.py:95-128 | A worker with a job waiting or in hand, whose thread has not exited, always has a step to take, its own or that of the stop that holds the lock. |
| `Lifecycle.LifecycleTracker.StartSession` | bridge/bambu/state.py:181-189 | A new session forgets the previous state, keeps the open print, its match and every queued event. |
| `Lifecycle.LifecycleTracker.Pop` | bridge/bambu/state.py:195 | Removing a token drops it wherever it is and hands back its first tag. |
| `Lifecycle.LifecycleTracker.RegisterSubmission` | bridge/bambu/state.py:191-203 | The token becomes the newest, keeps its old tag if none was given, and the oldest go past fifty. |
| `Lifecycle.LifecycleTracker.EmitRecovered` | bridge/bambu/state.py:332-343 | An unobserved event is queued as Link's, under the given submission. |
| `Lifecycle.LifecycleTracker.Attribute` | bridge/bambu/state.py:261-270 | A frame that names no submission counts for the open print's. |
| `Lifecycle.LifecycleTracker.TerminalKind` | bridge/bambu/state.py:285-296 | Which terminal, if any, this frame closes the print with. |
| `Lifecycle.LifecycleTracker.Stopper` | bridge/bambu/state.py:298-305 | Whom a cancel is put down to. |
| `Lifecycle.LifecycleTracker.OpeningEdge` | bridge/bambu/state.py:273-279 | A start forgets a pending stop; a pause or resume needs an open print. |
| `Lifecycle.LifecycleTracker.CloseCycle` | bridge/bambu/state.py:285-318 | A terminal closes the cycle and settles the pending stop; a standing printer closes it silently; anything else keeps it open. |
| `Lifecycle.LifecycleTracker.ObserveReport` | bridge/bambu/state.py:245-318 | One report changes every field, and queues exactly the events, the report function says. |
| `Lifecycle.ClosesOnce` | bridge/bambu/state.py:285-318 | Over any run, two observed terminals are separated by a report of a print under way in the second one's session. |
| `Lifecycle.FirstReportIsQuiet` | bridge/bambu/state.py:181-189 | The first report of a session queues nothing, except one start when it is RUNNING under another identity than the open print. |
| `Lifecycle.OriginMatchesSubmission` | bridge/bambu/state.py:345-371 | Every event ever queued is Link's iff it names a submission. |
| `Lifecycle.CloseKeepsSubmission` | bridge/bambu/state.py:263-316 | Once a RUNNING frame matched a submission, the frame that closes the print is attributed to it even if the frames stopped naming it; in one session FINISH and FAILED always queue that one event. |
| `Lifecycle.RegisteredIsKnown` | bridge/bambu/state.py:201-203 | Tokens are distinct, at most fifty, and the one just registered is always known. |
| `Lifecycle.LinkCancelsAreLinks` | bridge/bambu/state.py:297-307 | A cancel is put down to Link only when Link published that kind of stop and no print started or closed since. |
| `Lifecycle.OpenPrintIsLatest` | bridge/bambu/state.py:280-316 | The open print is identity x iff x is the latest RUNNING report with a file and nothing stood still since. |
| `Lifecycle.StartsAreNewPrints` | bridge/bambu/state.py:230-243 | A start while a print is open always carries a new identity. |
| `LifecycleHistory.ClosesExactly` | bridge/bambu/state.py:285-310 | Over any run a report closes a print iff the states of its session say so; the terminal it queues is a finish on FINISH, a cancel on IDLE, and on FAILED a cancel iff the report says the user cancelled or a stop of Link's is pending, and a failure otherwise; a cancel is put down to Link's pending stop by its kind, else to the printer iff it said so, else to nobody. |
| `LifecycleHistory.StopIsPending` | bridge/bambu/state.py:205-207 | A stop is remembered iff Link published it and no print started or closed since. |
| `LifecycleHistory.EdgesExactly` | bridge/bambu/state.py:230-279 | A report queues a start, a pause or a resume each iff the states before it and the open print call for it. |
| `LifecycleHistory.SamePrintIff` | bridge/bambu/state.py:115-135 | Two reports are of one print iff the first kind of id either of them has is the same in both. |
| `LifecycleHistory.NamedMeans` | bridge/bambu/state.py:345-350 | A frame names a submission iff its subtask id is that one and known, or its task id is and its subtask id is not known. |
| `LifecycleHistory.EventsNameTheirPrint` | bridge/bambu/state.py:262-269 | Every observed event is put down to the submission its frame names, else, unless it starts a print, to the one the open print was last matched to. |
| `LifecycleHistory.OriginFollows` | bridge/bambu/state.py:263-270 | Whose print the printer shows is told by the last report of its session, and nobody's once it is idle. |
| `LifecycleHistory.EventsCarryTheirTag` | bridge/bambu/state.py:352-368 | Every event that names a remembered submission carries the batch and plate last given with it. |
| `Outbox.EventOutbox.constructor` | bridge/outbox.py:90-111 | Loading keeps the usable rows in order and never goes below the stored `next_seq` or an event's successor. |
| `Outbox.EventOutbox.HighestSeq` | bridge/outbox.py:107 | The maximum of the seqs, 0 when there are none. |
| `Outbox.EventOutbox.AppendEvent` | bridge/outbox.py:43-58 | The event gets the next seq, is saved, and only the oldest overflow goes. |
| `Outbox.EventOutbox.AckEvents` | bridge/outbox.py:60-71 | Named events go, the count of them is returned, and nothing is written when none matched. |
| `Outbox.EventOutbox.Pending` | bridge/outbox.py:75-82 | The events waiting, oldest first, optionally one printer's. |
| `Outbox.LoadUndoesSave` | bridge/outbox.py:90-118 | Loading what was saved gives back the same outbox. |
| `Outbox.LoadNeverReuses` | bridge/outbox.py:107-109 | Whatever the file holds, a loaded outbox never reissues a seq in it. |
| `Outbox.RunIsGood` | bridge/outbox.py:43-118 | Over any run with restarts, pending seqs strictly rise, stay below `next_seq`, never exceed 2000, and the disk agrees with memory. |
| `Outbox.RestartLosesNothing` | bridge/outbox.py:90-118 | A restart at any point of any run is invisible. |
| `Outbox.SeqsNeverRepeat` | bridge/outbox.py:48-49 | No seq is handed out twice over any run, restarts included. |
| `Outbox.EventsAreConserved` | bridge/outbox.py:43-71 | The events appended are exactly those pending, acked and evicted, each once. |
| `Outbox.EvictsOldestFirst` | bridge/outbox.py:51-56 | Everything evicted is older than everything still pending. |
| `Outbox.EvictsOnlyWhenFull` | bridge/outbox.py:51-56 | An append evicts only when 2000 already wait, and then just the oldest. |
| `Outbox.AppendKeepsNewest` | bridge/outbox.py:43-58 | However many events a file brought back, an append leaves the newest two thousand, saved, and evicts just the rest. |
| `Outbox.AckDropsExactly` | bridge/outbox.py:60-71 | What is left after an ack is exactly what it did not name; an empty id never matches. |
| `Outbox.PendingIsThePrinters` | bridge/outbox.py:75-82 | A printer is sent all of its own pending events and nobody else's, in seq order. |
| `Completion.Router.RecordAssignment` | bridge/router.py:207-228 | A new assignment replaces the printer's old one, unlatched and unconfirmed. |
| `Completion.Router.UpdateSendAttempt` | bridge/router.py:236-253 | Rewrites the submission id of an existing assignment, latched or not, and nothing else of it. |
| `Completion.Router.Copy` | bridge/router.py:313-315 | A pass works on a copy of what the table holds. |
| `Completion.Router.SetTerminal` | bridge/router.py:296-304 | Whatever assignment the printer has is latched, once: a second outcome is ignored. |
| `Completion.Router.ClearAssignment` | bridge/router.py:306-311 | Whatever assignment the printer has is dropped, and no other printer's. |
| `Completion.RestartReconciler.CheckSteady` | bridge/router.py:612-619 | A new state, match or session restarts the steadiness clock. |
| `Completion.RestartReconciler.Consider` | bridge/router.py:518-562 | One look decides on the copied assignment as the decision function says, remembers it, and runs just the section the decision calls for on whatever assignment is there. |
| `Completion.Dispatcher.TerminalFromEvents` | bridge/router.py:897-929 | The event scan, with its early exit on a cancel, finds the verdict over the whole list, and runs its marks and its drop in that order. |
| `Completion.Dispatcher.Ack` | bridge/router.py:874-895 | The outcome is posted for the copied batch, and only on the ack is the assignment then there dropped; with no batch it is dropped unreported. |
| `Completion.Dispatcher.LatchAndAck` | bridge/router.py:841-843 | A new outcome is latched on whatever assignment is there, then posted for the copied batch. |
| `Completion.Dispatcher.DetectSubmission` | bridge/router.py:845-872 | What one pass reports of a copied assignment with a submission id, and the sections it runs, in order. |
| `Completion.Dispatcher.DetectStatus` | bridge/router.py:790-843 | What one pass reports of a copied assignment without one, and the sections it runs, in order. |
| `Completion.Dispatcher.DetectAndReport` | bridge/router.py:779-843 | Either of the two, by whether the copy carries an id; other printers' assignments stay. |
| `Completion.UninterruptedPass` | bridge/router.py:510-562 | A pass nothing comes between leaves of the assignment it copied exactly what the detection and decision functions say. |
| `Completion.JudgeMeaning` | bridge/router.py:897-929 | An assignment is dropped iff its snapshot holds our cancel; it completes (fails) iff there is none and the last of our finishes and failures is a finish (failure). |
| `CompletionRuns.ClosesAreSteady` | bridge/router.py:518-562 | A recovered finish or unobserved end is decided only after the same state and match were live 30 s before in the same session with no differing sample between, on a copied assignment at least 60 s old, with no stop in flight; an unobserved end also needs a confirmed assignment. |
| `CompletionRuns.DecidesOncePerSession` | bridge/router.py:526-532 | Two decisions under one session token are separated by one under another token or by a restart of the program. |
| `CompletionRuns.OneDecisionPerToken` | bridge/router.py:526-532 | With session tokens that never go back and no restart between, no two decisions share a token. |
| `CompletionRuns.ReadySessionIsDecided` | bridge/router.py:526-528 | A look that is ready is decided if and only if its token is not the one last decided since the program started. |
| `CompletionRuns.DecisionsFitTheReport` | bridge/router.py:582-610 | What the live report must have shown for each decision. |
| `CompletionCases.DecidesExactly` | bridge/router.py:518-610 | Keep, recovered finish, unobserved end and leave, each iff: what the live report of an undecided session shows, whether someone saw the print, and for the two ends half a minute of the same. |
| `CompletionCases.RemembersExactly` | bridge/router.py:560-562 | A decision remembers its session; a report that would end the assignment is stamped when it first comes. |
| `CompletionCases.MarkIsFirstAlike` | bridge/router.py:612-619 | Over any run the half minute counts from the first of the alike reports that would end the assignment, no different one and no decision since. |
| `CompletionReports.DetectsIff` | bridge/router.py:779-872 | A detection latches an outcome if and only if the assignment it copied was unlatched and the outcome has its reason (our last verdict is a finish or failure and no cancel, or the status path of an assignment with no id), and posts exactly that or the outcome latched before. |
| `CompletionCases.DropsIff` | bridge/router.py:779-895 | A detection drops the assignment iff a stop is in flight, the printer shows it cancelled, or there is an outcome that 3DPF acks or that has no batch to be told of; never while an untracked print runs. |
| `CompletionCases.StopDrops` | bridge/router.py:812-818 | With a stop in flight the assignment is dropped and nothing is latched or reported. |
| `CompletionCases.MarksIff` | bridge/router.py:794-918 | A print is marked running iff a start of ours comes before any cancel of ours, and active iff its printer prints or pauses. |
| `CompletionCases.MarksFollow` | bridge/router.py:255-294 | Over any run an assignment carries exactly the marks made since it was recorded. |
| `CompletionCases.SendFollows` | bridge/router.py:207-253 | Over any run an assignment is about the send last recorded, under the id last written on it. |
| `CompletionCases.AssignedFollows` | bridge/router.py:306-311 | There is an assignment iff the last one recorded was neither dropped by a pass nor cleared. |
| `CompletionCases.FirstLatchStands` | bridge/router.py:296-304 | The outcome of an assignment is the first one latched since it was recorded. |
| `CompletionReports.SectionLandsOnItsOwn` | bridge/router.py:263-311 | A mark, latch or drop of a detection or of the reconciler falls on the assignment its pass copied if and only if none was recorded since the copy. |
| `CompletionReports.ReportIsJudged` | bridge/router.py:765-777 | Whatever is reported was found true, by the reporting pass or by the one whose section set the latch it copied, of the assignment that pass copied; and the latch stood from then on. |
| `CompletionReports.ReportIsEarnedIff` | bridge/router.py:765-777 | The assignment reported is the one its outcome was found true of, if and only if the reporting pass judged it itself or no assignment was recorded between the copy and the latch of the pass that did. |
| `CompletionReports.LatchCanMiss` | bridge/router.py:296-304 | The run that fails it: a finish of "1" is seen for one batch, another batch is recorded before the latch, and that one is reported complete. |
| `CompletionReports.ReportKeepsIdIff` | bridge/router.py:236-253 | An earned report is about the submission id its outcome was found true of, if and only if the send watchdog wrote none between the two copies or its last write was that same id. |
| `CompletionReports.LatchedIdCanChange` | bridge/router.py:236-253 | The run that fails it: "1" finished and the report goes out while the assignment names "2". |
| `CompletionReports.RetriesReportSame` | bridge/router.py:874-895 | Once latched and until the assignment is recorded over, cleared or dropped, every detection posts just that outcome for it and drops next iff it is acked. |
| `CompletionReports.ReportOfLatch` | bridge/router.py:874-895 | And every report such a pass makes, however late, names that assignment, batch and outcome. |
| `CompletionReports.LatchEndsWhenTaken` | bridge/router.py:296-311 | A latch ends only when its assignment is recorded over, cleared or dropped by a pass. |
| `CompletionReports.DropAnswersIff` | bridge/router.py:884-894 | A drop of a latched assignment answers the ack of this very latch if and only if no assignment was recorded since its pass copied one. |
| `CompletionReports.AckCanDropAnother` | bridge/router.py:893-894 | The run that fails it: the ack for one batch drops another batch, recorded meanwhile and never reported. |
| `Session.LinkSession.EndClientLocked` | bridge/bambu/session.py:822-827 | Ending a client schedules its replacement once; ending it again moves nothing. |
| `Session.LinkSession.OpenClient` | bridge/bambu/session.py:553-585 | A fresh client is stamped; one that could not start is ended with a deadline at once. |
| `Session.LinkSession.HardResetBegin` | bridge/bambu/session.py:408-418 | A stopped session or a reset under way makes a reset a no-op; otherwise the client is dropped. |
| `Session.LinkSession.HardResetFinish` | bridge/bambu/session.py:419-427 | The reset is stamped, keeps the error only for an auth or refused reason, and opens a client. |
| `Session.LinkSession.EndUnansweredClient` | bridge/bambu/session.py:775-787 | Only a current client opened twenty seconds ago and never ended is timed out. |
| `Session.LinkSession.Redial` | bridge/bambu/session.py:829-846 | A due redial doubles the backoff up to thirty seconds and starts a reset. |
| `Session.LinkSession.WatchdogTick` | bridge/bambu/session.py:440-507 | One liveness pass, over every field. |
| `Session.LinkSession.ConnackAccepted` | bridge/bambu/session.py:624-653 | An accepted CONNACK clears every trace of trouble and resets the backoff. |
| `Session.LinkSession.ConnackRefused` | bridge/bambu/session.py:654-667 | A refusal ends the client; only an access-code refusal arms the slow retry. |
| `Session.LinkSession.Disconnected` | bridge/bambu/session.py:707-723 | A drop ends the current client; a clean one right after a report does not start the offline clock. |
| `Session.LinkSession.ConnectFailed` | bridge/bambu/session.py:761-773 | A failed dial ends the client so that the watchdog replaces it. |
| `Session.RunKeepsInv` | bridge/bambu/session.py:440-507 | Every tick, callback, reset half and stop, in any order, keeps the liveness invariant. |
| `Session.DownIsNeverStranded` | bridge/bambu/session.py:822-846 | In every reachable un-stopped down state a reset is opening a client, or the client ended with a redial due within 30 s, or it is open and stamped; the backoff stays in 5 to 30 s. |
| `Session.RedialIsBounded` | bridge/bambu/session.py:775-846 | While down, one tick 20 s after the client opened and one 30 s later see a fresh client opened or being opened. |
| `Session.AuthRetryIsBounded` | bridge/bambu/session.py:449-458 | While auth-rejected, a tick 300 s after any moment finds a fresh client opened or being opened since, as long as the client of that moment is not refused again; fresh clients may be. |
| `SessionUp.UpTickExactly` | bridge/bambu/session.py:474-507 | A tick resets a connected session iff its commands are accepted, its last report and its CONNACK are both over 60 s old, the printer does not hold it or both are 150 s old, and the last reset is 30 s old; otherwise it at most relabels it. |
| `SessionUp.DownTickExactly` | bridge/bambu/session.py:460-471 | A tick redials a session that is down iff its client ended and the backoff has passed, ends exactly the client opened 20 s ago and never answered, and labels the rest. |
| `SessionUp.AuthTickExactly` | bridge/bambu/session.py:449-458 | A tick retries a rejected access code iff the 300 s are over and the last reset is 30 s old, and then waits anew. |
| `SessionUp.EndsExactly` | bridge/bambu/session.py:822-827 | A client that is refused, drops, cannot dial or goes unanswered ends at once, once, with its redial due one backoff later; only a fresh or an accepted client is not ended. |
| `SessionUp.LinkFollows` | bridge/bambu/session.py:624-653 | Over any run a session is connected iff its current client was accepted and has neither ended nor been dropped since. |
| `SessionUp.HeardFollows` | bridge/bambu/session.py:353-361 | Over any run the later of the two stamps is when the current client last brought a report or was accepted. |
| `SessionUp.BackoffFollows` | bridge/bambu/session.py:829-837 | The wait before a redial is 5, 10, 20 and then 30 s, by the redials since a client was last accepted. |
| `SessionUp.DownFollows` | bridge/bambu/session.py:408-427 | Since when a session is down, and what its last CONNACK refused, follow from the CONNACKs, drops and resets before. |
| `SessionUp.LabelExactly` | bridge/bambu/session.py:463-470 | The reason a session is said to be down after any step, told from the fields before it. |
| `SessionUp.NoResetOnceStopped` | bridge/bambu/session.py:408-418 | No reset ever begins once the user has stopped the session. |
| `SessionUp.SilentTickResets` | bridge/bambu/session.py:490-507 | In any run a tick resets a session that is up iff its commands are accepted and it was last heard from over 60 s before, 150 s when the printer holds it; the cooldown never delays it, since the last reset is older than the CONNACK. |
| `SessionUp.SilenceIsBounded` | bridge/bambu/session.py:490-507 | A tick 150 s after any moment since which nothing was heard leaves no session connected, unless it was stopped or its commands are rejected. |

## Left out

Where a claim is about less than the program does:

- FleetRuns.RunKeepsInv: assumes the configured printers have distinct serials at start, which the config reader does not check.
- SendRuns.RunIsSafe: one clock reading per pass stamps its publishes, as in the program; time that passes inside a pass is not modelled.
- SendRuns.ProgressIsBounded: bounds progress, not the length of a send; `SendSettles.HeldOfflineWaitsForever` shows a wait with no end and `SendSettles.SendEndsInTime` when there is one.
- CompletionRuns.DecidesOncePerSession: session tokens can repeat after an address swap, so at most one decision per token holds only where tokens never go back (`CompletionRuns.OneDecisionPerToken`), and a new session under the token last decided is never decided (`CompletionRuns.ReadySessionIsDecided`).
- CompletionReports.ReportIsEarnedIff: a pass works on a copy while the printer's own thread may record another send, so a report need not be earned by the assignment it names; `CompletionReports.LatchCanMiss` is such a run.
- CompletionReports.DropAnswersIff: for the same reason an ack may drop another assignment; `CompletionReports.AckCanDropAnother` is such a run.
- CompletionReports.ReportKeepsIdIff: the id may be rewritten while the latch stands; `CompletionReports.LatchedIdCanChange` is such a run.
- FleetRuns.SessionsOutliveOnlyLate: the session an object opens by itself when its printer is recovered is not modelled.
- SendReasons.FailureNamesItsReason: the reason lags after a phase B retry that is not echoed; `SendReasons.ReasonCanLag` is such a run.
- SendSettles.SendEndsInTime: needs passes that find the session up, get their failure reports acked and do not find the assignment already seen active; such a pass only repeats the dispatch report.
- AmsRedelivery.MergeRedelivery: is about one delta delivered twice; merging a stored AMS with itself is not always a no-op without bits.
- Session.AuthRetryIsBounded: a second refusal of the same client starts the 300 s again, so the stretch has none.
- AmsReport.RowsHaveDistinctSlots: needs supported units; `AmsReport.SlotNumberCollision` shows a pair outside them.

What the model does not have:

- AMS: reports are typed, ids non-negative, bitmasks sets of bit positions; wrong-typed values, the coercion of numeric strings, nozzle temperatures, RFID refresh of idle trays and the on-disk AMS cache.
- AMS: that the merge edits copies in place, so that nothing the caller holds is changed.
- AMS: whitespace is the ASCII and Latin-1 part of what Python strips.
- Remap: colours and families arrive normalised; which mapping a send uses first, and reading the required filaments from a send.
- Send: upload, fresh copy after a parse failure, setup failures, the plate choice, the drying-unit suffix, a stop that abandons a send, a send the cloud no longer asks for, a crash in the middle of a pass, several sends to one printer.
- Fleet: the proof cooldown of an address, certificate pins, discovery, the recovery backstop, persisting an address, and a discovered model name written into a config.
- Worker: the bounded join, the cancel event a running job polls, and results or exceptions of jobs.
- Lifecycle: timestamps, uuids, progress, stage, file names, error codes, the `hms` list, and the bounded list used without an outbox. Pauses and resumes need not alternate across sessions.
- Outbox: saves are atomic and succeed; a whole file that cannot be parsed starts empty.
- Completion: the upload queue and local dispatch, the report annotations, the attempt fields other than the submission id, and one printer's failure being kept from another's.
- Session: command probes (switched off), labels other than the reason it is down, event logs, replayed QoS 1 messages, and a first open that raises, whose session the caller discards. The client factory does not raise.
- Credentials, HTTP, FTPS, TLS, SSDP, pairing, updates, print-host upload and status mapping: plumbing or single branches.
