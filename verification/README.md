# OpenSync managers in Dafny

A model of the control code of OpenSync, and proofs about whole runs of it: small state
machines with timers, retries and database tables whose updates are echoed late.
`dafny verify dfyconfig.toml` checks the whole project.

| module | models |
|---|---|
| `Options` | values that may be missing |
| `Watchers` | libev timers: inactive, armed until a time, expired but not yet delivered |
| `Work` | the work item of the connection manager: four states, cooldown and deadline |
| `Scheduler` | the same scheduler as the reconcilers write it by hand, and its simulation by `Work` |
| `Cmu` | the reconciler of the Connection_Manager_Uplink rows |
| `Gre` | the two-stage reconciler of GRE backhaul tunnels |
| `Mlo` | multi-link devices and their member interfaces |
| `UpdateState` | the connection state machine that runs passes until its state is stable |
| `Uplinks` | the choice, blocking and unblocking of the used uplink |
| `AddressCursor` | the cursors over resolved controller addresses |
| `Advertising` | the Bluetooth advertising manager and its chip |
| `AdLength` | the length of an advertising payload |
| `Debounce` | the debounced connectivity status |
| `WanConfig` | the WAN configuration written to and read from its table |
| `Failover` | failover between WAN and cellular modem |
| `DiffConf` | the configuration diff and patch tool |

## How the model is built

Objects that the source updates in place are classes. Each method is proved equal to a
function on values, and the results about runs are lemmas about those functions. An event
loop is a sequence of events that may come in any order in which they are enabled. Libev
facts used: a one-shot timer is inactive once it expires and its callback is delivered
later; a repeating timer stays active; stopping clears what is pending; starting an active
timer does nothing.

Clocks, random numbers, table writes, chip calls, shell commands and health checks are
parameters. A database table is a row plus the queue of monitor updates that are still to
be delivered; an update that changes no column is not echoed. Times are real numbers where
timers run, integers where the source reads whole seconds.

## What turned out

- `UpdateState`: the loop ends on every input if and only if the stability checks are
  compiled in or link selection is off. Otherwise an unused link whose use was echoed goes
  round forever.
- `Uplinks`: the per-family blocked flags of a link that stays are taken from the row that
  was scanned last; blocking the current link erases its unblock time, also one that was
  written in the same turn.
- `Cmu`: a refused insertion leaves the object at rest without its row.
- `Advertising`: after a lost pairing token the chip may go on answering scans although the
  set has no scan response; a repeated minor number cuts the rotation short; an update while
  a device is connected returns true although advertising is stopped.
- `Failover`: a prefix lifetime of 64 characters, which the schema admits, comes back cut;
  a failed forced switch leaves the lifetimes at zero; a modem that comes up while the
  WAN is down does not take over until the WAN has been up again.
- `WanConfig`: the text buffer of the VLAN id holds four characters; a row for DHCP of the
  highest priority, which is meant to equal an empty configuration, does not take back a
  static address that was read before it.
- `DiffConf`: an empty value and a changed value of "-" do not survive, nor does a name with
  an equal sign whose value is not "n".
- `Debounce`: without a period a report may repeat the value before it.
- `AddressCursor`: a next write after a failed one may pass the end of a list.

## Model

| member | source | states |
|---|---|---|
| `Work.WarningsUnreachable` | src/cm2/src/cm2_work.c:60-168 | In every run from allocation, with requests, cancellations, late timers and work functions that reschedule or cancel themselves, the watchers are determined by the state and no warning branch is reached |
| `Work.CallsAreSpaced` | src/cm2/src/cm2_work.c:60-168 | In every run without cancellation two consecutive calls of the work function start at least one cooldown apart |
| `Work.RequestIsServed` | src/cm2/src/cm2_work.c:78-168 | A request that is not cancelled is followed by a call that starts within cooldown plus deadline, plus the lag of the two timers |
| `Work.CallsServeRequests` | src/cm2/src/cm2_work.c:60-168 | A call only ever happens while a request is waiting |
| `Work.BodyKeeps` | src/cm2/src/cm2_work.c:60-119 | Whatever a work function schedules and cancels on its own item, the item is left in a state whose watchers match it, waiting exactly when the last word was a request |
| `Work.StepKeeps` | src/cm2/src/cm2_work.c:93-168 | Every event keeps the invariant that ties state, idle watcher, timer and outstanding request together |
| `Work.WorkItem.Schedule` | src/cm2/src/cm2_work.c:93-109 | The four-state transition of a request, with the watchers it starts |
| `Work.WorkItem.Cancel` | src/cm2/src/cm2_work.c:111-119 | Cancelling stops every watcher and forgets the request |
| `Work.WorkItem.Call` | src/cm2/src/cm2_work.c:60-69 | The call enters cooldown before the function runs, so that requests made by the function are kept |
| `Work.WorkItem.IdleCb` | src/cm2/src/cm2_work.c:121-144 | The idle callback calls the function exactly when a request is pending |
| `Work.WorkItem.TimerCb` | src/cm2/src/cm2_work.c:146-168 | The timer callback ends the cooldown, or enforces the deadline |
| `Scheduler.EveryRunIsARunOfWork` | src/cm2/src/cm2_bh_cmu.c:151-189 | Every run of the hand-written idle, deadline and backoff scheduler has a run of the four-state work item with the same calls at the same times |
| `Scheduler.SchedulerIsPrompt` | src/cm2/src/cm2_bh_cmu.c:348-418 | The hand-written scheduler spaces its passes by the backoff, never forgets a request, also one made from inside a pass, and lets none wait longer than backoff plus deadline plus lag |
| `Scheduler.StepSimulated` | src/cm2/src/cm2_bh_cmu.c:399-418 | Each step of the hand-written scheduler is matched by at most two steps of the work item |
| `Scheduler.CallSimulated` | src/cm2/src/cm2_bh_cmu.c:348-355 | A pass under the guard of the recalculation is matched by a call of the work item |
| `Scheduler.FireSimulated` | src/cm2/src/cm2_bh_cmu.c:399-412 | An idle or deadline callback is matched by a call under the guard and by nothing outside it |
| `Scheduler.BackoffSimulated` | src/cm2/src/cm2_bh_cmu.c:414-418 | The end of the backoff is the end of the cooldown, unless a new backoff has begun |
| `Scheduler.RequestSimulated` | src/cm2/src/cm2_bh_cmu.c:185-189 | A request is matched by a request |
| `Cmu.ChangesAreBounded` | src/cm2/src/cm2_bh_cmu.c:348-397 | With the reports at rest, at most 21 steps plus two per queued update change anything, in whatever order passes and late updates come; a pass that changes nothing only waits for the update of a deletion |
| `Cmu.Settles` | src/cm2/src/cm2_bh_cmu.c:348-397 | From every state some run without new reports comes to rest within as many steps as the measure says |
| `Cmu.QuietMeansConverged` | src/cm2/src/cm2_bh_cmu.c:333-397 | In every run from allocation, reports changing at any time, a quiet object has its row exactly for a four-address station outside a multi-link device, or for a configured tunnel, and both has_L2 and has_L3 say whether the link is up |
| `Cmu.RowFollowsLastReport` | src/cm2/src/cm2_bh_cmu.c:269-397 | A quiet object has the row that the last report asks for, whatever was reported before |
| `Cmu.LastReportRecorded` | src/cm2/src/cm2_bh_cmu.c:269-304 | What is recorded at the end of a run is the last report |
| `Cmu.StepRecords` | src/cm2/src/cm2_bh_cmu.c:269-304 | A report is recorded as it comes; passes and table updates leave it alone |
| `Cmu.LostLinkRemovesRow` | src/cm2/src/cm2_bh_cmu.c:140-149 | A lost link is never swallowed: before the object is quiet again the row has been gone at least once |
| `Cmu.LossRemovesRow` | src/cm2/src/cm2_bh_cmu.c:296-304 | From the report of a lost link, or of a lost link below a tunnel, no run comes to rest without the row having been gone |
| `Cmu.NoLossKeepsRow` | src/cm2/src/cm2_bh_cmu.c:296-304 | A report that loses no link asks for no deletion |
| `Cmu.RecalculationsAreTimely` | src/cm2/src/cm2_bh_cmu.c:41-42 | Recalculations are at least three seconds apart and no report waits longer than six seconds and twice the lag of the loop |
| `Cmu.InsertionDecides` | src/cm2/src/cm2_bh_cmu.c:364-373 | A pass that must insert leaves a correct row exactly when the insertion succeeds, and a refused insertion is not retried |
| `Cmu.IdlePassAwaitsDeletion` | src/cm2/src/cm2_bh_cmu.c:390-396 | A pass that changes nothing while work is flagged is waiting for the update of a deletion |
| `Cmu.StepKeeps` | src/cm2/src/cm2_bh_cmu.c:269-397 | Every pass, delivered update and report keeps the report one replay away from the row, and an object that is not scheduled has nothing to do |
| `Cmu.PassProgresses` | src/cm2/src/cm2_bh_cmu.c:495-544 | A pass lowers the measure over stale flags, pending insertions and deletions and queued updates, or changes nothing at all |
| `Cmu.DeliverProgresses` | src/cm2/src/cm2_bh_cmu.c:617-657 | Hearing an update lowers the same measure |
| `Cmu.Reconciler.Recalc` | src/cm2/src/cm2_bh_cmu.c:348-397 | The guarded recalculation: insert, update of flags, deletion, in that order, against the report of before |
| `Cmu.Reconciler.InsertWanted` | src/cm2/src/cm2_bh_cmu.c:364-373 | Insertion of a missing wanted row, which cancels a pending deletion |
| `Cmu.Reconciler.UpdateFlags` | src/cm2/src/cm2_bh_cmu.c:375-388 | Flags are rewritten exactly where the last report differs from the derived value |
| `Cmu.Reconciler.DeleteUnwanted` | src/cm2/src/cm2_bh_cmu.c:390-396 | Deletion of an unwanted row or on request, which schedules another pass |
| `Cmu.Reconciler.RecalcCb` | src/cm2/src/cm2_bh_cmu.c:399-405 | The idle callback stops idle watcher and deadline and recalculates |
| `Cmu.Reconciler.DeadlineCb` | src/cm2/src/cm2_bh_cmu.c:407-412 | The deadline callback recalculates |
| `Cmu.Reconciler.BackoffCb` | src/cm2/src/cm2_bh_cmu.c:414-418 | The end of the backoff arms the next recalculation |
| `Cmu.Reconciler.RecalcArm` | src/cm2/src/cm2_bh_cmu.c:171-183 | Arming starts the deadline only when it is not running |
| `Cmu.Reconciler.Schedule` | src/cm2/src/cm2_bh_cmu.c:185-189 | A request sets the work flag and arms |
| `Cmu.Reconciler.SetNeedDelete` | src/cm2/src/cm2_bh_cmu.c:191-209 | A request for deletion is only ever raised here, never taken back |
| `Cmu.Reconciler.ReportActive` | src/cm2/src/cm2_bh_cmu.c:296-304 | A change of the port state is recorded, and its loss asks for deletion |
| `Cmu.Reconciler.ReportParentActive` | src/cm2/src/cm2_bh_cmu.c:429-441 | The same for the interface below a tunnel |
| `Cmu.Reconciler.ReportSta` | src/cm2/src/cm2_bh_cmu.c:269-276 | A changed station report is recorded and schedules a pass |
| `Cmu.Reconciler.Report4Addr` | src/cm2/src/cm2_bh_cmu.c:278-285 | A changed four-address report is recorded and schedules a pass |
| `Cmu.Reconciler.ReportMld` | src/cm2/src/cm2_bh_cmu.c:287-294 | A changed multi-link report is recorded and schedules a pass |
| `Cmu.Reconciler.ReportConfigured` | src/cm2/src/cm2_bh_cmu.c:420-427 | A changed tunnel configuration report is recorded and schedules a pass |
| `Cmu.Reconciler.CmuCallback` | src/cm2/src/cm2_bh_cmu.c:617-657 | A delivered table update becomes the report, and schedules a pass exactly when it says something new |
| `Cmu.Table.Insert` | src/cm2/src/cm2_bh_cmu.c:229-245 | The table takes an insertion only when asked to and without a row, and queues its update |
| `Cmu.Table.SetHasL2` | src/cm2/src/cm2_bh_cmu.c:211-218 | An update of has_L2 queues a monitor update exactly when it changes the column |
| `Cmu.Table.SetHasL3` | src/cm2/src/cm2_bh_cmu.c:220-227 | The same for has_L3 |
| `Cmu.Table.Delete` | src/cm2/src/cm2_bh_cmu.c:247-252 | A deletion queues its update only if there was a row |
| `Gre.RunsAreBounded` | src/cm2/src/cm2_bh_gre.c:178-209 | With the interface at rest every run of both stages and of late or skipped echoes is finite |
| `Gre.QuietMeansConverged` | src/cm2/src/cm2_bh_gre.c:124-209 | In every run, once all is quiet, a tunnel row is there exactly when the interface is enabled, networked, masked and link-local, with the derived addresses |
| `Gre.TunnelFollowsLastReport` | src/cm2/src/cm2_bh_gre.c:124-379 | Once all is quiet the tunnel row is the one that the last report of the interface asks for |
| `Gre.LastReportRecorded` | src/cm2/src/cm2_bh_gre.c:341-379 | What is recorded at the end of a run is the last report |
| `Gre.StepRecords` | src/cm2/src/cm2_bh_gre.c:341-379 | A report is recorded as it comes, and no pass or echo changes it |
| `Gre.StagesAreTimely` | src/cm2/src/cm2_bh_gre.c:282-311 | The first stage recalculates at most once a second, the second at most every three seconds, and neither keeps a request waiting beyond deadline, backoff and twice the lag |
| `Gre.LinkLocalRange` | src/cm2/src/cm2_bh_gre.c:124-127 | The byte test accepts exactly 169.254.0.0 to 169.254.255.255, section 2.1 of RFC 3927 |
| `Gre.RemoteInNetwork` | src/cm2/src/cm2_bh_gre.c:144-147 | The derived remote address is never zero, and is in the network of the local one exactly when the mask frees the last bit or the address has it set |
| `Gre.StepKeeps` | src/cm2/src/cm2_bh_gre.c:178-299 | Every pass, echo, skipped echo and report keeps the latest echo equal to the row and unscheduled stages settled |
| `Gre.TunPassProgresses` | src/cm2/src/cm2_bh_gre.c:178-209 | A pass of the second stage lowers the measure |
| `Gre.StepProgresses` | src/cm2/src/cm2_bh_gre.c:178-299 | Every step that is not a new report lowers the measure |
| `Gre.Tun.Recalc` | src/cm2/src/cm2_bh_gre.c:178-209 | The guarded second stage |
| `Gre.Tun.Rewrite` | src/cm2/src/cm2_bh_gre.c:188-208 | What is shown is deleted and what is complete inserted, exactly when the report differs from the configuration |
| `Gre.Tun.Configure` | src/cm2/src/cm2_bh_gre.c:251-280 | A changed configuration schedules the second stage |
| `Gre.Tun.WisCallback` | src/cm2/src/cm2_bh_gre.c:381-411 | An echo becomes the report and schedules the second stage when it differs |
| `Gre.Tun.Schedule` | src/cm2/src/cm2_bh_gre.c:211-228 | A request arms idle watcher and deadline of the second stage |
| `Gre.VifStage.Recalc` | src/cm2/src/cm2_bh_gre.c:282-299 | The guarded first stage hands the derived tunnel to the second |
| `Gre.VifStage.ReportEnabled` | src/cm2/src/cm2_bh_gre.c:341-348 | A changed report schedules the first stage |
| `Gre.VifStage.ReportNetwork` | src/cm2/src/cm2_bh_gre.c:350-357 | A changed report schedules the first stage |
| `Gre.VifStage.ReportInetAddr` | src/cm2/src/cm2_bh_gre.c:359-368 | A changed report schedules the first stage |
| `Gre.VifStage.ReportNetmask` | src/cm2/src/cm2_bh_gre.c:370-379 | A changed report schedules the first stage |
| `Mlo.Mlo.WvsUpdate` | src/cm2/src/cm2_bh_mlo.c:341-371 | Every update keeps membership and pointers in step: an interface is in a device exactly when it points to it, only live devices are pointed to, and unscheduled devices are settled; the named columns take their new values, and the other columns and interfaces are left alone |
| `Mlo.Mlo.WorkCb` | src/cm2/src/cm2_bh_mlo.c:185-199 | The work callback keeps all that; a surviving device has a tunnel only if all members are three-address stations, and never together with a four-address report |
| `Mlo.Mlo.Collect` | src/cm2/src/cm2_bh_mlo.c:159-164 | A device is released exactly when it is empty, and then nobody points to it |
| `Mlo.Mlo.ReportMld` | src/cm2/src/cm2_bh_mlo.c:225-242 | Moving an interface schedules the device it leaves and the one it joins and touches no other interface |
| `Mlo.Mlo.Leave` | src/cm2/src/cm2_bh_mlo.c:230-235 | Leaving removes the interface from the tree and clears its pointer |
| `Mlo.Mlo.Join` | src/cm2/src/cm2_bh_mlo.c:236-241 | Joining inserts the interface and sets its pointer |
| `Mlo.Mlo.ReportSta` | src/cm2/src/cm2_bh_mlo.c:207-214 | A changed station report schedules the device of the interface and no other |
| `Mlo.Mlo.Report4Addr` | src/cm2/src/cm2_bh_mlo.c:216-223 | The same for the four-address report |
| `Mlo.Mlo.Regroup` | src/cm2/src/cm2_bh_mlo.c:351-358 | The named device, allocated if need be, holds the interface afterwards; an empty name leaves it alone |
| `Mlo.Mlo.LookupVif` | src/cm2/src/cm2_bh_mlo.c:349-349 | An unknown interface is allocated without a device, not a station and without four addresses |
| `Mlo.Mlo.LookupMld` | src/cm2/src/cm2_bh_mlo.c:356-356 | An unknown device is allocated, empty and unscheduled |
| `Mlo.Mld.Tally` | src/cm2/src/cm2_bh_mlo.c:100-143 | The counting loops decide: no members, all stations, all or none with four addresses |
| `Mlo.Mld.Is4Addr` | src/cm2/src/cm2_bh_mlo.c:100-114 | True exactly for a device of four-address stations |
| `Mlo.Mld.Is3Addr` | src/cm2/src/cm2_bh_mlo.c:116-130 | True exactly for a device of three-address stations |
| `Mlo.Mld.IsSta` | src/cm2/src/cm2_bh_mlo.c:132-143 | True exactly for a device of stations |
| `Mlo.Mld.Recalculate` | src/cm2/src/cm2_bh_mlo.c:175-197 | The device is settled afterwards; the tunnel exists exactly for three-address stations, if it was granted or there before |
| `UpdateState.CallsEndExactly` | src/cm2/src/cm2_event.c:625-1175 | Every call ends, from every state and whatever the answers, exactly when the stability checks are compiled in or link selection is off, or the tables are not there yet |
| `UpdateState.CallEnds` | src/cm2/src/cm2_event.c:632-1173 | Then a call is over within 133 passes |
| `UpdateState.PassDescends` | src/cm2/src/cm2_event.c:632-1173 | Every pass that is followed by another lowers the measure over state, new addresses and retry |
| `UpdateState.LadderDescends` | src/cm2/src/cm2_event.c:726-1157 | With no new address, every change of state goes down a fixed ladder of states |
| `UpdateState.OvsInitDescends` | src/cm2/src/cm2_event.c:840-877 | The way back from OVS_INIT to link selection is below it, because an unused link is refused |
| `UpdateState.TryResolveDescends` | src/cm2/src/cm2_event.c:879-932 | Resolving uses up a new address or a retry, or goes down the ladder |
| `UpdateState.ManagerDescends` | src/cm2/src/cm2_event.c:712-721 | Taking up a new manager address resolves it or uses up the retry |
| `UpdateState.RedirectorSpent` | src/cm2/src/cm2_event.c:700-711 | Taking up a new redirector address spends it |
| `UpdateState.HandleSpends` | src/cm2/src/cm2_event.c:723-1157 | No state handler makes an address new |
| `UpdateState.RoundGoesOn` | src/cm2/src/cm2_stability.c:411-414 | Without the stability check an unused link goes round LINK_SEL, WAN_IP, NTP_CHECK and OVS_INIT forever |
| `UpdateState.ConnectedIsConnected` | src/cm2/src/cm2_event.c:632-1173 | No pass leaves the machine connected while the connection is down |
| `UpdateState.Manager.UpdateState` | src/cm2/src/cm2_event.c:625-1175 | The loop computes the passes up to the first that ends the call, at most 133, and is not left connected without a connection |
| `UpdateState.Manager.RunPasses` | src/cm2/src/cm2_event.c:632-1173 | Any number of first passes in every build, also in one where the call does not end |
| `UpdateState.SetState` | src/cm2/src/cm2_event.c:244-266 | A change of state restarts its clock and marks the change; the same state changes nothing |
| `UpdateState.Destination` | src/cm2/src/cm2_event.c:496-522 | A ready link leads to OVS_INIT, and only with a connection that was there before anywhere else |
| `UpdateState.HandleReason` | src/cm2/src/cm2_event.c:648-697 | The reason of a call only ever changes the state, and a repeated pass has none |
| `UpdateState.AtInit` | src/cm2/src/cm2_event.c:725-742 | The states that INIT can lead to |
| `UpdateState.AtLinkSel` | src/cm2/src/cm2_event.c:744-794 | Link selection is left only for WAN_IP, with the use of the link unchanged |
| `UpdateState.AtWanIp` | src/cm2/src/cm2_event.c:796-821 | WAN_IP is left only for NTP_CHECK, with the use of the link unchanged |
| `UpdateState.AtNtpCheck` | src/cm2/src/cm2_event.c:823-838 | NTP_CHECK is not left for an unused link while the stability checks are compiled in |
| `UpdateState.AtOvsInit` | src/cm2/src/cm2_event.c:840-877 | Going on forgets the manager address; going back means that the link is unusable |
| `UpdateState.Asked` | src/cm2/src/cm2_event.c:880-907 | Asking the resolver marks the address as known, unless a retry is answered from what is known |
| `UpdateState.AtTryResolve` | src/cm2/src/cm2_event.c:879-932 | TRY_RESOLVE is left only for RE_CONNECT, with the outcome of the resolver; `TryResolveExits` says when |
| `UpdateState.AtReConnect` | src/cm2/src/cm2_event.c:934-952 | RE_CONNECT is left only without a connection |
| `UpdateState.AtTryConnect` | src/cm2/src/cm2_event.c:954-1011 | TRY_CONNECT is left for a new address or a connection |
| `UpdateState.AtFastReconnect` | src/cm2/src/cm2_event.c:1013-1045 | Before its timeout, FAST_RECONNECT is left only without a connection |
| `UpdateState.AtFastReconnectWait` | src/cm2/src/cm2_event.c:1047-1059 | FAST_RECONNECT_WAIT is left for RE_CONNECT, or for CONNECTED with a connection, and before its timeout only for the latter |
| `UpdateState.AtConnected` | src/cm2/src/cm2_event.c:1060-1098 | CONNECTED is kept exactly while connected |
| `UpdateState.AtQuiesceOvs` | src/cm2/src/cm2_event.c:1100-1157 | QUIESCE_OVS is left only for FAST_RECONNECT |
| `UpdateState.Unhandled` | src/cm2/src/cm2_event.c:1159-1167 | A fresh clock never counts as an unhandled timeout, except while quiescing |
| `UpdateState.LinkLeadsToContact` | src/cm2/src/cm2_event.c:744-1011 | With a used and echoed link and a healthy uplink, a call goes from LINK_SEL through every check and ends in its seventh pass in TRY_CONNECT, waiting for the controller |
| `UpdateState.HealthyPass` | src/cm2/src/cm2_event.c:744-952 | Each pass on the way goes on to the next state, in any build |
| `UpdateState.ContactLeadsToConnected` | src/cm2/src/cm2_event.c:954-1098 | Once the connection is up the next call ends in CONNECTED, and the manager remembers that it was connected |
| `UpdateState.LostLinkReselects` | src/cm2/src/cm2_event.c:648-652 | A link that is no longer used sends every state back to link selection, and its use is forgotten |
| `UpdateState.NewManagerResolved` | src/cm2/src/cm2_event.c:712-721 | A new manager address is resolved by the pass that finds it, and the manager becomes the destination |
| `UpdateState.NewRedirectorAsked` | src/cm2/src/cm2_event.c:699-711 | A new redirector address makes a manager without a connection ask the redirector |
| `UpdateState.RefusalRestarts` | src/cm2/src/cm2_event.c:879-907 | A refused resolution ends the call: the connection starts over, is quiesced behind an offline gateway, or another link is picked |
| `UpdateState.SelectionStartsOver` | src/cm2/src/cm2_event.c:784-794 | After two minutes without an echoed link the managers are restarted, and the machine starts over unless its clock was |
| `UpdateState.NothingWithoutTables` | src/cm2/src/cm2_event.c:632-639 | Without its tables the manager does nothing |
| `UpdateState.ReasonExits` | src/cm2/src/cm2_event.c:648-697 | Where each reason of a call leads |
| `UpdateState.AddressesTaken` | src/cm2/src/cm2_event.c:699-721 | A new redirector or manager address is taken up exactly outside the states that hold it back, and what then becomes of state and addresses |
| `UpdateState.DestinationExactly` | src/cm2/src/cm2_event.c:496-522 | A ready link leads to CONNECTED, FAST_RECONNECT or OVS_INIT exactly according to the earlier connection, the present one and the skip flag |
| `UpdateState.RestartExits` | src/cm2/src/cm2_event.c:524-540 | What an early return does in each build |
| `UpdateState.InitExits` | src/cm2/src/cm2_event.c:725-742 | INIT leads to LINK_SEL exactly with link selection, and forgets the earlier connection |
| `UpdateState.LinkSelExits` | src/cm2/src/cm2_event.c:744-794 | LINK_SEL is left exactly for a link that was echoed after the entry |
| `UpdateState.WanIpExits` | src/cm2/src/cm2_event.c:796-821 | WAN_IP is left exactly when a family passes its check, or passed it and is not asked again |
| `UpdateState.NtpCheckExits` | src/cm2/src/cm2_event.c:823-838 | NTP_CHECK is left exactly when the time check of a used link passes |
| `UpdateState.OvsInitExits` | src/cm2/src/cm2_event.c:840-877 | OVS_INIT goes back exactly for an unused link, and on exactly with an empty target, no connection and a valid redirector |
| `UpdateState.TryResolveExits` | src/cm2/src/cm2_event.c:879-932 | TRY_RESOLVE is left exactly when the address is resolved, and gives up exactly on a refusal, after three minutes or after more than ten retries |
| `UpdateState.TryResolveAsks` | src/cm2/src/cm2_event.c:880-907 | Which address is asked for on entry and on a retry, and what is known afterwards |
| `UpdateState.ReConnectExits` | src/cm2/src/cm2_event.c:934-952 | RE_CONNECT is left exactly with an empty target and no connection, and gives up exactly after half a minute without that |
| `UpdateState.TryConnectExits` | src/cm2/src/cm2_event.c:954-1011 | TRY_CONNECT resolves again exactly for a new address, connects exactly when connected, and gives up exactly when a target cannot be written |
| `UpdateState.FastReconnectExits` | src/cm2/src/cm2_event.c:1013-1045 | Where FAST_RECONNECT leads, in terms of connection, pending check, written target and timeout |
| `UpdateState.FastReconnectWaitExits` | src/cm2/src/cm2_event.c:1047-1059 | Where FAST_RECONNECT_WAIT leads |
| `UpdateState.ConnectedRemembers` | src/cm2/src/cm2_event.c:1060-1098 | Entering CONNECTED is remembered |
| `UpdateState.QuiesceExits` | src/cm2/src/cm2_event.c:1100-1157 | QUIESCE_OVS is left exactly when its backoff is over, the target empty and the connection gone, and gives up after ten disconnects |
| `UpdateState.UnhandledExits` | src/cm2/src/cm2_event.c:1159-1167 | A timeout that no state handled leads to INIT |
| `Uplinks.Manager.RecalcLinks` | src/cm2/src/cm2_ovsdb.c:1983-2082 | The recalculation is a step of the run; it returns true exactly when some row has both layers, is not the current link being blocked, and has an active or ready family or both families unset or unblocking; then the first such row of highest priority, and no other, is used and named by the link; the timer covers every unblock time still ahead |
| `Uplinks.Manager.Scan` | src/cm2/src/cm2_ovsdb.c:2004-2062 | The loop finds the first eligible row of maximum priority, writes every row as a function of itself, and leaves a timer that covers every unblock time |
| `Uplinks.ChosenIsUsed` | src/cm2/src/cm2_ovsdb.c:2063-2073 | Settling on a row leaves it as the only used one, named by the link |
| `Uplinks.ChoiceMeans` | src/cm2/src/cm2_ovsdb.c:2037-2062 | There is a choice exactly when some row can serve, in terms of layers and family states, and it is the first of the highest priority among those |
| `Uplinks.EligibleMeans` | src/cm2/src/cm2_ovsdb.c:2037-2055 | A row is not skipped exactly when it can serve |
| `Uplinks.CurrentIsBlocked` | src/cm2/src/cm2_ovsdb.c:2041-2048 | Blocking the current link blocks exactly its families that are set and not unblocking, and takes its unblock time away |
| `Uplinks.SwitchesExactly` | src/cm2/src/cm2_ovsdb.c:1887-1920 | When a row becomes the used one, which row is given up, and that all other rows stay |
| `Uplinks.ClearGivesUp` | src/cm2/src/cm2_ovsdb.c:1841-1870 | Clearing leaves no row in use and no link |
| `Uplinks.NothingOverdue` | src/cm2/src/cm2_ovsdb.c:2008-2022 | Whatever the choice, a row whose unblock time has come and that is not blocked as the current link has every blocked family unblocking afterwards, the others as before, and no unblock time |
| `Uplinks.UnblockedInTime` | src/cm2/src/cm2_ovsdb.c:2008-2035 | In every run of timer expiries, recalculations from other causes and writes by others, a waiting row is unblocked by one of the recalculations, no earlier than its unblock time and less than three seconds plus the lag of the timer after it |
| `Uplinks.BlockedRowWaits` | src/cm2/src/cm2_ovsdb.c:2008-2035 | From every recalculation on, each blocked row that it neither unblocks nor blocks as the current link waits in that sense; one without an unblock time has been given one |
| `Uplinks.StepWaits` | src/cm2/src/cm2_ovsdb.c:2008-2035 | Each step leaves a waiting row waiting or unblocks it in time |
| `Uplinks.TimingsCover` | src/cm2/src/cm2_ovsdb.c:2024-2035 | The timer covers every scanned row at the end of the scan, although the running wait can grow |
| `Uplinks.AtMostOneUsed` | src/cm2/src/cm2_ovsdb.c:1841-1920 | In every run that starts by reading a table with at most one used row, at most one row is marked as used, and it is the one that the link names |
| `Uplinks.RecalcKeepsUse` | src/cm2/src/cm2_ovsdb.c:1983-2082 | A recalculation keeps single use |
| `Uplinks.StepKeeps` | src/cm2/src/cm2_event.c:354-372 | Recalculation, switch, clearing, re-reading at start and changes by others all keep single use |
| `Uplinks.RefusedClear` | src/cm2/src/cm2_ovsdb.c:1841-1870 | If the table refuses to clear the old row, a switch breaks single use exactly when another row was in use |
| `Uplinks.BarredByTheLastRow` | src/cm2/src/cm2_ovsdb.c:2069-2072 | After a recalculation that keeps the link, its family flags are right exactly when the row scanned last is barred like the chosen one, so always when no row is scanned after it |
| `Uplinks.BarredWrongly` | src/cm2/src/cm2_ovsdb.c:2069-2072 | A recalculation after which a working link counts as barred |
| `Uplinks.Manager.SetInterval` | src/cm2/src/cm2_stability.c:955-971 | The timer takes the minimum of its remaining time and the new interval |
| `Uplinks.Manager.SetIsUsed` | src/cm2/src/cm2_ovsdb.c:1887-1920 | A row is taken exactly when it has both layers and the link is blocked, unused or of lower priority, and the table takes it |
| `Uplinks.Manager.ClearUsed` | src/cm2/src/cm2_ovsdb.c:1841-1870 | Clearing unmarks the named row and forgets the link |
| `Uplinks.Manager.ScanTimes` | src/cm2/src/cm2_ovsdb.c:2008-2035 | One row: expiry, which takes the unblock time away, default unblock time, and the timer |
| `Uplinks.Manager.BlockCurrent` | src/cm2/src/cm2_ovsdb.c:2041-2048 | Families that are set and not unblocking become blocked, and then the unblock time is gone |
| `Uplinks.Manager.SetIpv4` | src/cm2/src/cm2_ovsdb.c:519-535 | Writing the IPv4 state unsets the unblock time in the same update |
| `Uplinks.Manager.SetIpv6` | src/cm2/src/cm2_ovsdb.c:537-555 | Writing the IPv6 state unsets the unblock time in the same update |
| `Uplinks.Manager.ScanRowAt` | src/cm2/src/cm2_ovsdb.c:2005-2048 | One turn of the scan writes its own row only |
| `Uplinks.BestIsUnique` | src/cm2/src/cm2_ovsdb.c:2050-2061 | The choice is determined by the rows |
| `AddressCursor.VisitsAll` | src/cm2/src/cm2_resolve_ares.c:342-420 | One current write and repeated next writes visit every address of the families that are up, not blocked and answered in their own type exactly once, IPv6 first, in turn, and then fail |
| `AddressCursor.PickedFromUsable` | src/cm2/src/cm2_resolve_ares.c:245-378 | Only the address at its index of a family that is up and not blocked is picked, and none is only when every such family is at its end |
| `AddressCursor.WriteAll` | src/cm2/src/cm2_event.c:975-1009 | Writing the current and then next targets until one fails writes exactly the visits |
| `AddressCursor.VisitsInterleave` | src/cm2/src/cm2_resolve_ares.c:342-420 | From any position the rest of both lists is visited in turn |
| `AddressCursor.InterleaveTurns` | src/cm2/src/cm2_resolve_ares.c:404-420 | While both lists have entries they take turns; then the longer one goes on in order |
| `AddressCursor.InterleaveKeepsAll` | src/cm2/src/cm2_resolve_ares.c:404-420 | Taking turns loses and repeats nothing |
| `AddressCursor.MovePassesEnd` | src/cm2/src/cm2_resolve_ares.c:404-420 | One more move passes the end of a list exactly when the preferred list is at its end |
| `AddressCursor.Ares.Validate` | src/cm2/src/cm2_resolve_ares.c:245-286 | An address is valid exactly when its family is up and not blocked and the list is of that family and not at its end |
| `AddressCursor.Ares.PickNext` | src/cm2/src/cm2_resolve_ares.c:342-378 | The preferred family is kept while it is valid; otherwise IPv6 comes before IPv4 |
| `AddressCursor.Ares.WriteTarget` | src/cm2/src/cm2_resolve_ares.c:288-340 | The target written is the current address of the picked family |
| `AddressCursor.Ares.MoveNext` | src/cm2/src/cm2_resolve_ares.c:404-420 | The index of the preferred family moves and the preference flips |
| `AddressCursor.Ares.WriteCurrent` | src/cm2/src/cm2_resolve_ares.c:380-390 | Pick and write, within the lists |
| `AddressCursor.Ares.WriteNext` | src/cm2/src/cm2_resolve_ares.c:392-402 | Move, pick and write; no index passes its list when the move follows a pick |
| `AddressCursor.SyncVisitsSupported` | src/cm2/src/cm2_resolve_sync.c:162-246 | The linked cursor visits exactly the IPv4 and IPv6 entries, in order |
| `AddressCursor.SyncStaysAtEnd` | src/cm2/src/cm2_resolve_sync.c:178-182 | A cursor that failed has nothing left and fails again |
| `AddressCursor.Sync.GetNext` | src/cm2/src/cm2_resolve_sync.c:162-185 | The loop stops at the next supported entry and stays where it is when there is none |
| `AddressCursor.Sync.WriteTarget` | src/cm2/src/cm2_resolve_sync.c:187-228 | Only a supported entry is written |
| `AddressCursor.Sync.WriteCurrent` | src/cm2/src/cm2_resolve_sync.c:230-239 | The current entry is written, or the first supported one |
| `AddressCursor.Sync.WriteNext` | src/cm2/src/cm2_resolve_sync.c:241-246 | The next supported entry is written |
| `Advertising.AgreesInEveryRun` | src/blem/src/blem_ble.c:118-275 | In every run of enabling, disabling, configuring, rotating, connecting, disconnecting and refused chip calls, an application that returns true leaves on-state, connectable flag, payload and enabled scan response of the first enabled set on the chip, or the chip off |
| `Advertising.EnableSends` | src/blem/src/blem_ble.c:613-681 | Enabling enables: the payload holds type, message and token, the set is connectable as asked unless a needed token fails, the name is advertised as the build asks, and after a successful application the chip is on with that payload |
| `Advertising.EnableShowsMessage` | src/blem/src/blem_ble.c:613-681 | A full payload is on the chip with its type and message |
| `Advertising.DisableSwitchesOff` | src/blem/src/blem_ble.c:683-688 | Disabling disables: the set is off, its payload and the beacon stay, and after a successful application the chip shows the beacon or is off and not connectable |
| `Advertising.RotateShowsNext` | src/blem/src/blem_ble.c:517-553 | A rotation puts the number that follows the current one in the list, or the first after the last, into the payload, changes nothing else, and shows it when the beacon is on the chip |
| `Advertising.ConfigureTakes` | src/blem/src/blem_ble.c:733-794 | A beacon without a number is off and nothing is sent; otherwise its data is taken, and the timer runs exactly when it was sent, is enabled and has numbers and a period to rotate |
| `Advertising.GoneRenews` | src/blem/src/blem_ble.c:446-466 | After a disconnect the payload holds the new token, or the set cannot be connected to any more; the chip follows |
| `Advertising.ConnectPauses` | src/blem/src/blem_ble.c:433-445 | A device that connects only pauses advertising |
| `Advertising.AgreesMeans` | src/blem/src/blem_ble.c:118-275 | What agreement says about the chip in terms of both sets |
| `Advertising.ApplySetTracks` | src/blem/src/blem_ble.c:118-207 | Applying a set keeps what is not marked as changed on the chip, also when a call is refused, and on success sends the rest |
| `Advertising.ApplyFirst` | src/blem/src/blem_ble.c:212-275 | Applying the first enabled set, also after a switch of sets, tracks and agrees |
| `Advertising.StepKeeps` | src/blem/src/blem_ble.c:446-794 | Every operation keeps the marks honest |
| `Advertising.EnableKeeps` | src/blem/src/blem_ble.c:613-681 | Enabling without a change of mode leaves the mode on the chip as it is |
| `Advertising.ConfigureKeeps` | src/blem/src/blem_ble.c:733-794 | Configuring the beacon forces all of it to be sent |
| `Advertising.GoneRestarts` | src/blem/src/blem_ble.c:446-466 | After a disconnect and a successful application advertising runs again |
| `Advertising.PausedExactly` | src/blem/src/blem_ble.c:613-681 | An update leaves advertising stopped by a connection exactly when a device is connected and the mode is not sent |
| `Advertising.ScanResponseExactly` | src/blem/src/blem_ble.c:667-674 | Enabling leaves the scan response flag of the chip right exactly when the mode is sent or the flag was right before |
| `Advertising.StaleScanResponse` | src/blem/src/blem_ble.c:446-466 | A lost token followed by an update of the unconnectable set leaves the chip answering scans |
| `Advertising.TokenProtected` | src/blem/src/blem_ble.c:647-665 | Updating a connectable set never touches its pairing token |
| `Advertising.MessageWritten` | src/blem/src/blem_ble.c:613-665 | The message type, the message and, while connectable, a fresh token end up in their bytes of the payload, and nothing else changes |
| `Advertising.BeaconWritten` | src/blem/src/blem_ble.c:733-786 | Identifier, major number, first minor number and power end up in their bytes of the payload, and nothing else changes |
| `Advertising.RotationShowsAll` | src/blem/src/blem_ble.c:517-553 | Every minor number is shown in some period exactly when no new number follows the first repetition |
| `Advertising.ShowsInTurn` | src/blem/src/blem_ble.c:517-553 | Distinct minor numbers are shown in turn, with the period of the list |
| `Advertising.Advertiser.ApplyOne` | src/blem/src/blem_ble.c:118-207 | The staged sending of one set, with its early returns |
| `Advertising.Advertiser.ApplyAll` | src/blem/src/blem_ble.c:212-275 | The loop applies the first enabled set or switches the chip off, and remembers which |
| `Advertising.Advertiser.SendData` | src/blem/src/blem_ble.c:146-154 | The advertising payload is sent if marked, cut to its AD length |
| `Advertising.Advertiser.SendScanData` | src/blem/src/blem_ble.c:156-164 | The scan response is sent if enabled and marked |
| `Advertising.Advertiser.SendMode` | src/blem/src/blem_ble.c:186-203 | Mode and parameters are sent last |
| `Advertising.Advertiser.DisableChip` | src/blem/src/blem_ble.c:122-137 | Advertising and connectability are switched off first |
| `Advertising.Advertiser.EnablePairingTokens` | src/blem/src/blem_ble.c:327-402 | A new token is written and marked, and applied unless the caller does that |
| `Advertising.Advertiser.EnableGeneral` | src/blem/src/blem_ble.c:613-681 | Enabling is one step of the run |
| `Advertising.Advertiser.WriteMessage` | src/blem/src/blem_ble.c:648-665 | While connectable only the bytes before the token are written |
| `Advertising.Advertiser.DisableGeneral` | src/blem/src/blem_ble.c:683-688 | Disabling is one step of the run: the general set is off, the beacon as it was, and without a beacon a successful application leaves the chip off and not connectable |
| `Advertising.Advertiser.DeviceDisconnected` | src/blem/src/blem_ble.c:446-466 | A disconnect is one step of the run |
| `Advertising.Advertiser.TimerCallback` | src/blem/src/blem_ble.c:517-553 | The rotation finds the current number, as its assertions demand, and is one step of the run |
| `Advertising.Advertiser.ConfigureProximity` | src/blem/src/blem_ble.c:733-794 | Configuring the beacon is one step of the run; the timer runs only for an enabled beacon that was applied |
| `Advertising.CompactMinors` | src/blem/src/blem_ble.c:748-756 | The loop keeps the non-zero numbers in order |
| `Advertising.CompactAppends` | src/blem/src/blem_ble.c:748-756 | Exactly the non-zero numbers are kept, in their order |
| `Advertising.IndexOf` | src/blem/src/blem_ble.c:531-538 | The position found is the first of the number |
| `AdLength.LengthOfPayload` | src/blem/src/ble_adv_data.c:86-141 | A row of AD structures, padded by zero or not, has the length of the structures, or zero when that exceeds an octet |
| `AdLength.LengthMeans` | src/blem/src/ble_adv_data.c:86-141 | A non-zero length is given exactly to a non-empty row of complete structures that fits an octet and is followed by zero or the end |
| `AdLength.GetLength` | src/blem/src/ble_adv_data.c:86-141 | The loop computes the recursive split |
| `AdLength.SplitIsExact` | src/blem/src/ble_adv_data.c:94-138 | The bytes up to the end found are exactly the encoded structures |
| `AdLength.EncodingEnds` | src/blem/src/ble_adv_data.c:94-138 | The scan stops right behind encoded structures |
| `Debounce.ReportsInEveryRun` | src/blem/src/blem_connectivity_status.c:156-245 | In every run with a debounce period the timer runs exactly while the status differs from the reported one; reports form a chain from zero, all but the first report a change, and every value was stable for the whole period |
| `Debounce.ChangesExactly` | src/blem/src/blem_connectivity_status.c:156-245 | Every report but the first is a change in all runs exactly when there is a debounce period |
| `Debounce.RestMeansReported` | src/blem/src/blem_connectivity_status.c:156-245 | With a debounce period, a run that leaves no timer running has last reported the status of its last update |
| `Debounce.LastUpdateCounts` | src/blem/src/blem_connectivity_status.c:178-245 | The status that waits is the one of the last update |
| `Debounce.StepKeeps` | src/blem/src/blem_connectivity_status.c:156-245 | Updates, time, expiry and late callbacks keep that |
| `Debounce.CombineTakesEachFlag` | src/blem/src/blem_connectivity_status.c:183-192 | Bit 6 comes from the manager and bits 0 to 5 from the uplinks, each zero while its source is unknown; the result is always valid |
| `Debounce.RepeatsWithoutPeriod` | src/blem/src/blem_connectivity_status.c:239-244 | Without a period a report can repeat the value before it |
| `Debounce.Monitor.UpdateStatus` | src/blem/src/blem_connectivity_status.c:178-245 | The combined status takes effect as one step of the run |
| `Debounce.Monitor.SetStatus` | src/blem/src/blem_connectivity_status.c:210-244 | A new status cancels, restarts or feeds the timer |
| `Debounce.Monitor.TimerCallback` | src/blem/src/blem_connectivity_status.c:156-171 | The callback gets the old value, or zero when there is none, and the new one |
| `Debounce.Monitor.Compose` | src/blem/src/blem_connectivity_status.c:181-192 | The status is put together bit by bit |
| `WanConfig.RoundTrip` | src/blem/src/blem_wan_config.c:244-503 | In whatever order the rows of a written configuration come back, they read as the configuration exactly when every value fits its buffer |
| `WanConfig.PppoeByPriority` | src/blem/src/blem_wan_config.c:285-303 | Of several rows the last one of the highest priority is read, in any order; an incomplete one leaves what the rows before it gave |
| `WanConfig.VlanByPriority` | src/blem/src/blem_wan_config.c:304-320 | The same for the VLAN |
| `WanConfig.StaticByPriority` | src/blem/src/blem_wan_config.c:321-364 | The same for a static address, for which rows for DHCP compete but set nothing |
| `WanConfig.StaticExactly` | src/blem/src/blem_wan_config.c:321-364 | A static address is read exactly when some complete row has no row of higher priority before it |
| `WanConfig.DhcpDoesNotClear` | src/blem/src/blem_wan_config.c:355-363 | A row for DHCP of higher priority, meant to stand for no static address, hides one only when it comes first |
| `WanConfig.OutrankedExactly` | src/blem/src/blem_wan_config.c:285-363 | A row is passed over exactly when a stored row before it, of the kinds it competes with, has a higher priority |
| `WanConfig.NothingStored` | src/blem/src/blem_wan_config.c:277-368 | A kind without a stored row is absent |
| `WanConfig.VlanExactly` | src/blem/src/blem_wan_config.c:419-436 | A VLAN id survives printing into five bytes and parsing exactly from -999 to 9999 |
| `WanConfig.StoredExactly` | src/blem/src/blem_wan_config.c:299-358 | The buffers change nothing exactly when everything fits |
| `WanConfig.ReadsWritten` | src/blem/src/blem_wan_config.c:275-368 | Reading any selection of written rows gives their part of the configuration |
| `WanConfig.Table.Set` | src/blem/src/blem_wan_config.c:375-503 | The whole table is replaced, or left alone when the transaction fails |
| `WanConfig.Table.Get` | src/blem/src/blem_wan_config.c:244-373 | The loop takes rows by kind and priority |
| `WanConfig.AtoiDecimal` | src/blem/src/blem_wan_config.c:310-319 | Parsing undoes printing for every integer |
| `Failover.LifetimesInEveryRun` | src/cellm/src/cellm_state_mgr.c:92-313 | In every run whose commands succeed, forced failover is active, active failover means WAN down and modem up, and the count is the number of activations; during failover the advertised lifetime is 0 and a set prefix lifetime is 0, and outside it both are as configured |
| `Failover.RunKeeps` | src/cellm/src/cellm_state_mgr.c:92-313 | The same from any state of the invariant |
| `Failover.RestoredExactly` | src/cellm/src/cellm_ovsdb.c:1580-1696 | Saving and restoring puts the lifetimes back exactly when the advertised one is not -1 and the prefix one is not empty and fits its buffer |
| `Failover.SchemaValuesRestored` | src/cellm/src/cellm_ovsdb.c:1580-1696 | Of the values the schema admits only a prefix lifetime of 64 characters is not put back |
| `Failover.GivesUpAfterThree` | src/cellm/src/cellm_ovsdb.c:1547-1572 | After any run an idle manager gives up the WAN exactly when the check fails and at least two failed before with no good one since |
| `Failover.ReturnsAfterThree` | src/cellm/src/cellm_event.c:85-110 | After any run the timer returns to the WAN exactly when the check is good and two recovery checks were good before with no failed one since |
| `Failover.RunLogged` | src/cellm/src/cellm_res.c:191-224 | The counters of the source are the trailing failures and recoveries of the log of health checks |
| `Failover.RefusedForce` | src/cellm/src/cellm_state_mgr.c:92-123 | A forced failover whose command fails keeps the invariant exactly when there was nothing to zero |
| `Failover.RefusedRestore` | src/cellm/src/cellm_state_mgr.c:128-156 | A forced failover that cannot be ended stays active with the WAN up, lifetimes restored |
| `Failover.LateModem` | src/cellm/src/cellm_state_mgr.c:161-277 | With the WAN down and failover not active, no run in which the WAN stays down makes it active: neither a late modem nor a new configuration takes over |
| `Failover.ModemTakesOver` | src/cellm/src/cellm_state_mgr.c:226-277 | A modem that comes up takes over exactly when its row and metric are written, the WAN is up, and failover is enabled, forced and carried out |
| `Failover.StartsExactly` | src/cellm/src/cellm_state_mgr.c:92-221 | A WAN that goes down starts failover exactly with the modem up, manager and failover enabled, and a forced switch carried out; it is then forced exactly when configured so, and counted |
| `Failover.ModemLossEnds` | src/cellm/src/cellm_state_mgr.c:226-313 | Losing the modem puts the lifetimes back and ends failover unless a forced one cannot be restored |
| `Failover.StatesFollow` | src/cellm/src/cellm_route.c:166-190 | The WAN state is the reported one, or the one that the route metrics give, if the manager is enabled; the modem state is the reported one unless its row cannot be inserted |
| `Failover.SetWanKeeps` | src/cellm/src/cellm_state_mgr.c:161-221 | Changes of the WAN state keep the invariant |
| `Failover.SetCellKeeps` | src/cellm/src/cellm_state_mgr.c:226-313 | Changes of the modem state keep the invariant, also when its row cannot be inserted |
| `Failover.Manager.SetV6Failover` | src/cellm/src/cellm_ovsdb.c:1580-1640 | Lifetimes are saved; the advertised one of an existing row and a set prefix lifetime become 0, the rest stays |
| `Failover.Manager.RevertV6Failover` | src/cellm/src/cellm_ovsdb.c:1642-1696 | Saved lifetimes are put back |
| `Failover.Manager.Engage` | src/cellm/src/cellm_state_mgr.c:92-123 | Failover starts, forced or not |
| `Failover.Manager.Revert` | src/cellm/src/cellm_state_mgr.c:128-156 | Failover ends |
| `Failover.Manager.SetWanState` | src/cellm/src/cellm_state_mgr.c:161-221 | A new WAN state starts or ends failover |
| `Failover.Manager.SetState` | src/cellm/src/cellm_state_mgr.c:226-313 | A new modem state forces, allows or ends failover |
| `Failover.Manager.Healthcheck` | src/cellm/src/cellm_res.c:191-224 | A failed check counts and forgets recoveries; a good one forgets failures |
| `Failover.Manager.ManagerIdle` | src/cellm/src/cellm_ovsdb.c:1547-1572 | The check of an idle manager |
| `Failover.Manager.CheckWanL3State` | src/cellm/src/cellm_event.c:85-110 | The periodic check for recovery |
| `DiffConf.DiffThenApply` | kconfig/diffconf2.py:49-166 | Printing the difference of two configurations, applying it to the first and reading the outcome gives the second exactly when no value is empty and no changed value is "-", in whatever order lines are printed |
| `DiffConf.RoundTrip` | kconfig/diffconf2.py:126-166 | The same on dictionaries, without text |
| `DiffConf.ReadsAll` | kconfig/diffconf2.py:49-73 | Reading a printed file gives every entry back |
| `DiffConf.ReadsAssignment` | kconfig/diffconf2.py:53-55 | An assignment is read back when its name holds no equal sign and its value does not end like an unset option |
| `DiffConf.ValueReadsExactly` | kconfig/diffconf2.py:53-60 | A printed value is read back exactly when it is n, or its name holds no equal sign and it does not end like an unset option |
| `DiffConf.RemovalReadsExactly` | kconfig/diffconf2.py:56-60 | A printed removal is read back exactly when its name does not end like an unset option |
| `DiffConf.ReadsUnset` | kconfig/diffconf2.py:56-57 | A line that says not set is read as n |
| `DiffConf.ReadsRemoval` | kconfig/diffconf2.py:58-60 | A removal line is read as a removal |
| `DiffConf.SplitText` | kconfig/diffconf2.py:51-52 | A file falls into the lines that were printed |
| `DiffConf.ReadConfig` | kconfig/diffconf2.py:49-61 | The loop over the lines, with the error of a line without an equal sign |
| `DiffConf.ReadOne` | kconfig/diffconf2.py:52-60 | A line is read by every rule that matches it |
| `DiffConf.DiffCommand` | kconfig/diffconf2.py:140-166 | The diff mentions exactly the names that are gone, changed or new, each once |
| `DiffConf.ApplyCommand` | kconfig/diffconf2.py:126-135 | Applying removes and replaces |
| `DiffConf.PrintAll` | kconfig/diffconf2.py:63-73 | One line per name in the style of a diff |
| `DiffConf.LinesPrinted` | kconfig/diffconf2.py:63-73 | The three kinds of lines as they are printed |

## Left out

- Work: the log prefix and the release of the item (src/cm2/src/cm2_work.c:170-220); the call is the last statement of its caller, so a release from inside the work function is a cancellation.
- Cmu: the flush of rows of earlier lives at start; convergence starts from the empty table.
- Gre: the textual form of addresses and the table columns that do not change.
- Mlo.Mlo.WorkCb: memory is not reclaimed; a released device is marked instead, and the mark is what the proofs are about. The teardown of the whole object is not modelled.
- UpdateState.Manager.UpdateState: requires that the stability checks are compiled in or link selection is off, because the loop does not end otherwise; `RunPasses` has no such condition.
- UpdateState: re-entry through updates of the MAC reporting (src/cm2/src/cm2_net.c:192-195) and the rollback of a VLAN tag (src/cm2/src/cm2_stability.c:91-94); the reset of the disconnect counter after a stable period; the connection and the clock stand still during a call.
- Uplinks.UnblockedInTime: no recalculation of the run blocks the row as the current link, since that erases its unblock time and blocks an expired family again, and nobody else writes the states or the unblock time of the row.
- Uplinks.AtMostOneUsed: assumes that the table accepts the writes and that no other process writes the used flag; bridge and role changes are not modelled.
- AddressCursor.Ares.WriteNext: requires that the move does not pass the end of a list, which the source leaves to its callers; `MovePassesEnd` says when it would.
- AddressCursor.VisitsAll: link flags and lists stand still, and the table takes every target.
- Advertising: the advertising interval, which is changed without a mark, transmit power and state callbacks; the search for a passkey, whose random loop has no bound.
- Debounce: the derivation of the status bits from the uplink rows.
- WanConfig.RoundTrip: the connection type and QoS fields, which are not stored; several rows of one kind are the subject of `PppoeByPriority`, `VlanByPriority`, `StaticByPriority` and `StaticExactly`.
- WanConfig.Table.Get: the overflow of `atoi` on strings from elsewhere.
- Failover: route metrics, priorities and flow flushing; other writers of the IPv6 tables.
- DiffConf: the sorting of names, on which nothing that is read back depends, and the plain and merge styles.
- DiffConf.DiffThenApply: every line that is printed can be read back, as `ValueReadsExactly` and `RemovalReadsExactly` say it; names and values hold no newline, as those of any file do not.
- The DHCP reconciler (src/cm2/src/cm2_bh_dhcp.c): it uses the same scheduler with a one-shot action.
- Report copying and protobuf packing, OVSDB transactions, chip and modem drivers, ping checks and shell commands.
