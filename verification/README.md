# The VM cloud, modelled and verified

A control server keeps a pool of cloud VMs. Clients order batches of prepared VMs, lock VMs of a batch, release
them and cancel batches; a rule engine boots, prepares, assigns, cleans up and kills VMs until nothing is left to
do. Each VM runs a small server of its own, talks to the controller over a length-prefixed RPC stream, and sends
events that clients collect by long polling. This project models that code and proves what it keeps.

## How the model is laid out

The source changes global arrays and maps in place, one callback, request or rule at a time. Each such step is a
method of a class over the same fields, with the same loops, and each method's contract equates the new state with
a function of the old one (`Scheduler`, `Vm`, `Log`, `Parser`, `Machine`). The theorems are proved about those
functions, for every state, every interleaving and every run.

| file | models |
|---|---|
| `Collections.dfy` | the array extensions `remove` and `removeAt`, first-match search |
| `VerStates.dfy` | belief states, `verState`: the value and the object |
| `Scheduler.dfy` | the whole controller state; VM operations, requests, completions, rules, restart |
| `ControlServers.dfy` | the same as the class the source is, proved against `Scheduler` |
| `Invariant.dfy`, `Frames.dfy`, `Steps.dfy`, `Callbacks.dfy`, `Runs.dfy` | the invariant, one VM at a time (`VmView`); what each step leaves alone; every step keeps the invariant; histories with restarts |
| `Safety.dfy` | what the invariant means: ownership, outstanding operations, stale replies, restart, the order of the rules |
| `Effects.dfy` | what each rule, request and completion picks and does, field by field |
| `Ledgers.dfy` | the balance of every batch |
| `Quiescence.dfy`, `Termination.dfy`, `WakeUps.dfy` | the rule cascade: where it stops, that it stops, exactly when it throws, and that it is not forgotten |
| `Stopping.dfy`, `Fifo.dfy`, `Bounds.dfy` | shutdown and cancellation, lock order, pool bounds |
| `VmProtocol.dfy`, `VmSteps.dfy`, `Beliefs.dfy`, `VmInterfaces.dfy` | the controller together with its VMs: calls, answers, belief soundness, pings |
| `EventLog.dfy` | `EventWindow`, long polls, a polling client |
| `RpcFraming.dfy` | the RPC printer and its resumable parser |

A JavaScript exception is part of the model: an operation is `Done` or `Threw`, a rule `Idle`, `Fired` or `Failed`,
each with the changes made until then. A call in flight is an element of `ops`, with what its closure captured.
Time is a parameter of each step.

## Where the code does less than it says

* Only the maximum of a `set-pool-size` request is clamped, so min can end above max; then the pool rule shuts down
  VMs the minimum needs (`Bounds.RequestOrderedExactly`, `Bounds.ClampedBelowMinimum`). The rule cascade terminates
  all the same, so `Termination` needs no min <= max.
* After a restart the rule cascade itself can end in an exception, which nothing catches: exactly when an overdue
  handle holds a pool VM that has no stub and is not overdue itself (`Termination.ThrowsExactly`). A restart, a failed
  release of a handle whose VM was saved in ERROR, and a tick once that handle is overdue lead there
  (`Stopping.RestartDoomsCascade`). Without a restart it never happens (`Termination.DoomNeedsRestart`).
* `/renew-expire` changes a deadline without scheduling the rules, so a renewal to a time already past leaves an
  overdue handle unnoticed until the next timer tick or other event. Such a renewal and a cascade that throws are the
  only two ways in which the rules end up unscheduled while one of them could have fired (`WakeUps.AlertExactly`,
  `WakeUps.RenewNoticedExactly`); `WakeUps.MissedExpiry` is a reachable state and a request where it happens.
* A ping reply that does not match sets ERROR without a version check, so a ping that a working VM answers while it
  is busy with a prepare sent after the ping puts it in ERROR, and it is killed (`Beliefs.BusyFalseAlarm`,
  `Beliefs.PingDuringPrepare`). Only answers that are still current are safe (`Beliefs.NoFalseAlarm`).
* `README.md` line 32 of the repository says that no VM can be locked from a cancelled batch. The code accepts such
  a lock while the batch record exists (`Stopping.CancelledStillLockable`); once the rules are at rest it does so
  exactly when an earlier lock still waits on the batch (`Stopping.CancelledAtRest`).
* `releaseVM` throws for a held VM without a record or an RPC stub, and the shutdown request then stops half-way
  (`Stopping.ShutdownCompletesExactly`); without a restart this cannot happen at rest
  (`Stopping.QuiescentShutdownCompletes`). A restart from a checkpoint causes it for every held VM that was
  saved in ERROR, because such a VM comes back without a stub
  (`Stopping.RestartStrandsHeldVm`, `Stopping.ShutdownAfterRestart`).
* `checkinReceived` trusts the VM to check in only while it starts (`Safety.CheckinSafeExactly`). The VM side keeps
  to that (`Beliefs.CheckinsAreTimely`). A VM whose initial boot failed checks in too and is believed FREE
  (`Beliefs.BrokenBelievedFree`).
* `getEvents` is right exactly for ids from offset - 1 on, and for ids so far below -1 that the slice covers a log
  that dropped nothing. For other ids its slice start is negative, and the client gets only as many of the newest
  events as it has missed pruned ones, or the whole window if that is shorter (`EventLog.GetEventsExactly`,
  `EventLog.StaleClient`).
* The RPC parser compares the buffer with a stale length while a header is incomplete. A stream is parsed back
  correctly exactly when no chunk ends inside a header after at least as many digits as the last body length, and
  for the first header after two or more (`RpcFraming.RoundTripExactly`); a cut after the first two bytes breaks any
  command (`RpcFraming.CutHeaderFails`); with bodies below 10^13 bytes only the
  first header matters (`RpcFraming.RoundTrip`).

## Model

| member | source | states |
|---|---|---|
| Safety.Ownership | control-server.js:564-717 | in every state of every history (requests, rules, late completions and pings, restarts): no VM occurs twice over all batch lists and handles; a batch's pool VM is WAIT, READY or ERROR; a held one OCCUPIED or ERROR, or, only after a restart and without a stub, WAIT; every READY VM has a batch and every OCCUPIED VM a handle |
| Safety.InFlight | control-server.js:242-311 | each VM has at most one prepare or cleanup outstanding, and a pool VM is WAIT exactly when one carries its current version (after a restart: a pool VM with a stub) |
| Safety.References | control-server.js:88-103 | queue entries and pending locks always name existing batches; ids stay below their counters |
| Safety.LocksAreUnassignedHandles | control-server.js:382-426 | pending locks are exactly the unassigned handles, one each, in increasing order |
| Safety.CleanupLands | control-server.js:280-309 | the cleanup of a pool VM finds it WAIT or ERROR; it decides FREE or ERROR in the first case and changes no record in the second |
| Safety.PrepareLands | control-server.js:564-587 | the same for prepare; one whose batch no longer lists the VM is answered with a cleanup of a VM that has a record and a stub |
| Safety.StalePingHarmless | control-server.js:329-333 | a matching ping reply for a VM that left the state it saw changes nothing |
| Safety.StaleStartHarmless | control-server.js:186-236 | a boot or check-in completion for a VM that has moved on leaves its belief and version alone |
| Safety.CheckinSafeExactly | control-server.js:228-240 | a check-in answered at once keeps the invariant if and only if nothing owns the VM and no operation on it is outstanding |
| Safety.RestartKeeps | control-server.js:109-157 | loading a saved valid state gives a valid state: stable beliefs kept, all others ERROR, ledgers, handles, queue and counters unchanged, a stub exactly for the stable VMs |
| Effects.RestartRenews | control-server.js:143-156 | every pool VM comes back with its server and a new record: version 0 in its state if that was FREE, READY or OCCUPIED, else ERROR one version later, with a stub exactly in the first case |
| Runs.StepInv | control-server.js:171-770 | every enabled event keeps the invariant, also one that ends in an exception |
| Runs.AlwaysInv | control-server.js:171-770 | the invariant holds in every state of every history, restarts from any earlier checkpoint included |
| Invariant.InitInv | control-server.js:88-103 | the initial state is valid |
| Steps.ReleaseInv | control-server.js:404-426 | releasing any handle keeps the invariant, also when it throws |
| Steps.AssignInv | control-server.js:629-650 | handing a VM to a lock takes a READY VM the batch lists out of every batch, gives it to that one handle as OCCUPIED, changes no other VM and keeps the invariant |
| Steps.ReleaseCleansReadyVm | control-server.js:701-710 | once no listed VM is lost or WAIT, the VM the release rule cleans up is in the pool, READY, has a record and a stub, and nothing about it is outstanding |
| Safety.CascadeCleansIdleVms | control-server.js:498-506 | in any valid state, a VM the cascade sends a cleanup was taken from a batch with too many, in the pool, READY, with a record, a stub and nothing outstanding, or was held by an overdue handle |
| Steps.DeletedUnreferenced | control-server.js:732-755 | in a balanced state a batch that may be deleted is in no queue entry |
| Safety.CascadeDeletesUnreferenced | control-server.js:498-506 | in any valid state, a batch the cascade deletes is cancelled and in no queue entry, pending lock or VM list |
| Steps.RuleInv | control-server.js:518-770 | each rule keeps the invariant given that the rules before it are idle, and only the expiry rule can throw |
| Steps.WhichRule | control-server.js:498-506 | when the cascade is not idle, exactly one rule decides and every earlier one is idle |
| Callbacks.BootDoneInv | control-server.js:176-192 | a boot that fails or succeeds, at any time, keeps the invariant |
| Callbacks.CheckinDoneInv | control-server.js:232-237 | so does a check-in that completes late, even for a killed VM |
| Callbacks.PrepareDoneInv | control-server.js:258-273 | so does the end of a prepare, with the cleanup it may start |
| Callbacks.CleanupDoneInv | control-server.js:292-309 | so does the end of a cleanup |
| Callbacks.PingVMsInv | control-server.js:321-353 | so does a round of pings |
| Callbacks.PingReplyInv | control-server.js:329-337 | so does a late ping reply, though it sets ERROR without a version check |
| Callbacks.LoadInv | control-server.js:130-157 | so does a restart |
| Ledgers.PrepareKeeps | control-server.js:564-587 | preparing a VM leaves every batch ledger unchanged |
| Ledgers.ReplaceKeeps | control-server.js:589-604 | replacing a lost VM leaves every ledger unchanged |
| Ledgers.AssignKeeps | control-server.js:634-650 | assigning a VM to a lock leaves every ledger unchanged |
| Ledgers.LockMoves | control-server.js:382-402 | a lock raises a ledger by one exactly when the batch's size is 0 |
| Ledgers.ReleaseMoves | control-server.js:404-426 | a release lowers a ledger by one exactly when the handle still waits for that batch |
| Ledgers.CancelMoves | control-server.js:428-432 | a cancellation lowers the ledger by the size left |
| Ledgers.NewBatchBalanced | control-server.js:360-380 | a new batch starts balanced and disturbs no other |
| Ledgers.ReleaseRuleMoves | control-server.js:680-717 | each firing of the release rule moves its batch's ledger one step towards zero and no other |
| Ledgers.RulesMove | control-server.js:498-770 | one rule tick changes a ledger only through the release rule or the expiry of a handle that waits for the batch |
| Ledgers.EventsMove | control-server.js:360-432 | of all other events but a shutdown only a lock beyond the size, the release of a waiting handle and a cancellation move a ledger, by the amounts above |
| Stopping.ShutdownMoves | control-server.js:1080-1092 | a shutdown lowers a ledger by one for each handle it reaches that waits for the batch, and, when it completes, by the size left |
| Quiescence.QuiescentExactly | control-server.js:498-770 | no rule fires if and only if: pool at its minimum, no VM FREE beyond the linger time above it, none FREE or BOOTING above the maximum, every VM within the limit of its state; a waiting preparation finds no FREE VM and a full pool or at least as many starting VMs as preparations; every ledger zero with live VMs; no finished batch left; no lock with a READY VM; handles have their VMs and none is past its deadline |
| Quiescence.LocksCovered | control-server.js:564-717 | at rest a batch with a pending lock is owed exactly its queued preparations and its VMs, and each of these is in the pool, WAIT, with its preparation for this batch outstanding |
| Quiescence.CountsStarting | control-server.js:607-618 | the count of the boot rule is the number of pool VMs that are CREATING or BOOTING |
| Quiescence.BootRuleFiresExactly | control-server.js:605-626 | the boot rule fires if and only if the pool has room, no VM is FREE and more preparations wait than VMs are CREATING or BOOTING |
| Quiescence.PoolRuleIdleExactly | control-server.js:518-562 | the pool rule does nothing if and only if the pool has its minimum, nothing above it is FREE for too long, and above the maximum nothing is FREE or BOOTING |
| Quiescence.TimeoutIdleExactly | control-server.js:720-730 | the timeout rule does nothing if and only if every pool VM was refreshed within the limit of its state, limit by limit |
| Effects.RulesInOrder | control-server.js:498-506 | a tick runs the ten rules in the source's order, each only if all before it did nothing |
| Effects.ShortPoolBoots | control-server.js:518-524 | below its minimum the pool grows by one VM |
| Effects.PoolRuleShutsDown | control-server.js:526-559 | above the minimum the first VM FREE for too long is shut down; if there is none, above the maximum the first BOOTING one, and the first FREE one only if none is BOOTING |
| Effects.BootingGoesFirst | control-server.js:539-559 | when none lingers, the VM missing from the pool afterwards was BOOTING if any was, else FREE |
| Effects.KillsVm | control-server.js:196-214 | a killed VM is out of the pool; with a server it is KILLING and its termination requested, without one its record is gone |
| Effects.PrepareRuleTakes | control-server.js:564-587 | the first FREE VM goes to the end of the batch at the head of the queue, in WAIT, with a call under its new version |
| Effects.ReplaceRuleTakes | control-server.js:589-604 | the first VM lost or in ERROR, of the first batch that has one, makes way for a preparation at the head of the queue |
| Effects.BootRuleBoots | control-server.js:605-626 | the boot rule adds one VM under a fresh number |
| Effects.AssignRuleTakes | control-server.js:630-650 | the first lock whose batch has a READY VM gets the first such VM, keeping its deadline |
| Effects.DropRuleTakes | control-server.js:651-667 | the first assigned handle whose VM has left the pool is forgotten |
| Effects.ReleaseRuleTakes | control-server.js:680-717 | the first batch whose counted balance is not zero gets a preparation at the end of the queue, or loses its last queued one, or else a VM |
| Effects.BatchGivesUp | control-server.js:701-710 | that VM is the first in WAIT, which is only taken off the list, or if none is the first of the list, which is cleaned up |
| Effects.LedgerCounts | control-server.js:680-695 | the ledger is size plus locks on the batch minus its VMs and its queue entries, counted |
| Effects.TimeoutRuleTakes | control-server.js:720-730 | the first pool VM past the limit of its state is killed |
| Effects.CleanupRuleTakes | control-server.js:732-755 | the first cancelled batch with no VM and no lock is deleted |
| Effects.ExpireRuleTakes | control-server.js:757-770 | the first handle past its deadline is released |
| Effects.CleansUpVm | control-server.js:276-311 | a cleanup puts the VM in WAIT with a call under its new version; without a record it throws at once, without a stub after the change to WAIT |
| Effects.PrepareBatchOrders | control-server.js:360-380 | a new batch puts one preparation per VM at the end of the queue |
| Effects.LockWaits | control-server.js:382-402 | a lock waits behind all others with a fresh handle; on a batch that does not exist it throws and spends the number |
| Effects.ReleaseOfWaiting | control-server.js:404-426 | releasing a waiting handle takes its lock out of line and forgets it |
| Effects.ReleaseOfHeld | control-server.js:404-410 | releasing an assigned handle cleans its VM up and forgets it, or throws and forgets nothing |
| Effects.CancelMarks | control-server.js:428-432 | a cancellation clears the size, keeps the VMs, and throws for a batch that does not exist |
| Effects.PoolSizeAsAsked | control-server.js:941-959 | min and linger as asked and max up to what is allowed, if 0 <= min <= max; otherwise nothing changes |
| Effects.RenewsDeadline | control-server.js:984-997 | a renewal sets the deadline to the present plus the time asked, and nothing else |
| Effects.BootAnswered | control-server.js:176-192 | a failed boot removes the VM; a successful one records the server and, under version 0 only, makes it BOOTING |
| Effects.CheckinAnswered | control-server.js:228-240 | a check-in notes the version it came under; it ends with a stub, the server, and FREE only under that version |
| Effects.PrepareAnswered | control-server.js:258-273 | the end of a prepare its batch still wants: READY exactly for the answer READY, else ERROR, under its own version only |
| Effects.PrepareUnwanted | control-server.js:576-582 | the end of a prepare its batch no longer wants is followed by a cleanup |
| Effects.CleanupAnswered | control-server.js:292-309 | the end of a cleanup: FREE exactly for the answer FREE, else ERROR, under its own version only |
| Effects.PingsWhom | control-server.js:321-353 | a round asks exactly the FREE, READY and OCCUPIED pool VMs, under their version and state, and the cloud about the BOOTING ones |
| Effects.PingReplyExactly | control-server.js:329-337 | only FREE for FREE and READY for READY or OCCUPIED refresh a record at the version of the ping; every other answer sets ERROR under any version and schedules the rules |
| Effects.ServerGone | control-server.js:343-349 | a server in error is killed like any VM, and a terminated VM is forgotten |
| Termination.CascadeDescends | control-server.js:498-770 | every firing of a rule lowers (handles, pending locks, killable VMs, batches, imbalance, listed VMs, room in the pool) lexicographically |
| Termination.Settle | control-server.js:463-516 | the scheduled cascade terminates, from every valid state and for every pool size: in an exception, or in a valid state where no rule fires |
| Termination.ThrowsExactly | control-server.js:757-770 | the cascade ends in an exception if and only if it is scheduled and an overdue handle holds a pool VM that has no stub and is not overdue itself |
| Termination.ThrowsOnlyUnstubbed | control-server.js:757-770 | a single tick throws only in such a state, and so only after a restart |
| Termination.DoomNeedsRestart | control-server.js:109-157 | without a restart, or without handles, there is no such state |
| Termination.SettleCompletes | control-server.js:463-516 | the scheduled cascade runs to rest, where no rule fires, if and only if it is not so doomed, and then it has created no handle, lock or batch |
| WakeUps.NoLostWakeUp | control-server.js:464-468 | if no rule could fire at a time, then after any event, rule ticks included, either the rules are scheduled or still none could fire at that time, if and only if the event is not an unscheduled renewal of an existing handle to an earlier deadline |
| WakeUps.TickRestsExactly | control-server.js:498-516 | after a tick the rules are scheduled again or none can fire, if and only if it did not throw |
| WakeUps.AlertExactly | control-server.js:464-516 | if the rules are scheduled or none could fire at the last tick, one step keeps that, as of the last tick, if and only if it is neither such a renewal nor a tick that throws |
| WakeUps.AlwaysAlert | control-server.js:464-516 | over every run without those two kinds of step the rules are always scheduled, or none could have fired at the last tick |
| WakeUps.AlertFromStart | control-server.js:463-468 | a new process starts so |
| WakeUps.AlertAgain | control-server.js:796-798 | the timer brings any valid state back to it |
| WakeUps.RenewNoticedExactly | control-server.js:984-997 | a renewal goes unnoticed exactly when nothing was scheduled, the handle exists and the new deadline is past |
| WakeUps.WaitingReached | control-server.js:498-516 | after prepare-batch/0 and lock/1 from nothing, the cascade comes to rest with the lock's preparation queued |
| WakeUps.MissedExpiry | control-server.js:984-997 | in that state renew-expire/1/-1 makes a rule able to fire with nothing scheduled |
| Stopping.ShutdownCompletesExactly | control-server.js:1080-1092 | the shutdown request completes if and only if every held VM has a record and a stub, and then leaves no handle and only cancelled batches |
| Stopping.QuiescentShutdownCompletes | control-server.js:1080-1092 | from rest, without a restart, it always completes |
| Stopping.RestartStrandsHeldVm | control-server.js:143-156 | after a restart, the release of a handle whose VM was saved in ERROR, and a shutdown, end in an exception, and the VM stays held, in WAIT |
| Stopping.ShutdownAfterRestart | control-server.js:1080-1092 | after a restart a shutdown completes if and only if every held VM was saved in the pool in a stable state |
| Stopping.RestartDoomsCascade | control-server.js:757-770 | a restart, the failed release of a handle whose VM was saved in ERROR, and a tick once that handle is overdue: the cascade ends in an exception |
| Stopping.ShutdownEmpties | control-server.js:1080-1092 | a completed shutdown run to rest leaves no handles, locks, batches or queued preparations, and a pool of CREATING, WAIT or just-failed ERROR VMs only |
| Stopping.CancelledStillLockable | control-server.js:382-432 | a cancelled batch accepts a lock while it exists, and then is owed one VM more |
| Stopping.CancelledAtRest | control-server.js:732-755 | at rest a cancelled batch can be locked from if and only if an earlier lock still waits on it |
| Fifo.StretchInOrder | control-server.js:382-426 | over any run, restarts from the latest state included, no handle comes back or changes its batch, and no later lock overtakes an earlier one on the same batch |
| Fifo.ServedInRequestOrder | control-server.js:634-650 | when the younger of two locks on a batch has its VM, the older one was served before or released |
| Bounds.PoolNeverExceeds | control-server.js:518-626 | between two settings of the pool size the pool never exceeds the larger of the cap and its length at the setting |
| Bounds.ShutDownKeepsMinimumExactly | control-server.js:526-559 | the pool rule takes the pool below its minimum exactly when it was at it, which needs max below min |
| Bounds.MinimumKept | control-server.js:526-559 | with min <= max neither the linger nor the over-max rule takes the pool below its minimum |
| Bounds.RequestOrderedExactly | control-server.js:941-959 | an accepted request leaves min <= max if and only if min is within the allowed size |
| Bounds.ClampedBelowMinimum | control-server.js:951-955 | a concrete request and valid state in which the pool rule shuts down a VM the minimum needs |
| Beliefs.BeliefsAreSound | vm-interface.js:48-95 | in every reachable world a pool VM believed FREE is FREE if and only if its initial boot did not fail; one believed READY or OCCUPIED is READY with its session payload; no call to either is under way |
| Beliefs.SessionIsLast | vm-interface.js:54-92 | at every point of a run the payload a VM holds, and hands to a cleanup, is the result of its last successful prepare |
| Beliefs.SessionOfBelief | vm-interface.js:54-92 | a pool VM believed READY or OCCUPIED holds that payload |
| Beliefs.VmMoves | vm-interface.js:48-144 | the end of a boot, the arrival of a call and its end: the VM's state, its payload and the answer |
| Beliefs.OneCallAtATime | control-server.js:242-311 | an outstanding operation is the only call to its VM; a call the controller gave up belongs to a VM believed in ERROR that no handle holds |
| Beliefs.CheckinsAreTimely | vm-interface.js:127-144 | each VM's one check-in reaches the controller only while it believes the VM to be starting |
| Beliefs.NoFalseAlarm | control-server.js:326-338 | a ping answered with the VM's state at any moment after it was sent, and heard of at any later one while its version is still current, refreshes the belief and never sets ERROR |
| Beliefs.BusyFalseAlarm | control-server.js:326-338 | a ping sent to a FREE VM and answered while the VM works on a later prepare puts a working VM in ERROR |
| Beliefs.PingDuringPrepare | control-server.js:326-338 | that comes about when the next tick prepares a FREE VM while a ping to it is outstanding |
| Beliefs.BrokenBelievedFree | vm-interface.js:128-132 | a VM whose initial boot fails is believed FREE after its check-in |
| Beliefs.MoveSound | vm-interface.js:48-144 | every move of the controller or of a VM keeps beliefs sound |
| VmSteps.RuleLegit | control-server.js:518-770 | a rule changes the belief about a VM without a call, sends it one call, or takes it out of the pool, only as the protocol allows |
| VmInterfaces.VmInterface.BootEnded | vm-interface.js:127-144 | the boot callback sets FREE or ERROR |
| VmInterfaces.VmInterface.CheckIn | vm-interface.js:36-42 | the check-in is noted and changes nothing else |
| VmInterfaces.VmInterface.PrepareEnded | vm-interface.js:54-73 | a successful prepare answers READY and its payload replaces any earlier one; a failed one answers ERROR and leaves the payload |
| VmInterfaces.VmInterface.Cleanup | vm-interface.js:75-79 | a cleanup makes the VM BUSY and works on the payload of the last successful prepare |
| VmInterfaces.VmInterface.CleanupEnded | vm-interface.js:79-92 | a cleanup answers FREE exactly when it succeeded, otherwise ERROR |
| EventLog.AddRefines | control-server.js:814-836 | the window is the history from its offset on; exactly when the oldest event is more than 120 s old an addition drops events, all of them that are more than 60 s old and no others, never all |
| EventLog.GetEventsExactly | control-server.js:838-851 | for every id the last id is right, and the reply is the rest of the history if and only if the client knows all that was pruned (or its id is so far below -1 that the slice covers a log that pruned nothing) |
| EventLog.StaleClient | control-server.js:848 | a client that misses k pruned events gets only the last k of the window |
| EventLog.AnsweredByTheEvent | control-server.js:814-824 | a poll from the current last id that an event answers gets exactly that event |
| EventLog.ExactlyOnce | static/vmcloud.js:61-79 | a client that polls within 60 s of each reply has got, over any interleaving of events, blocked polls and timeouts, every event from its start to its last id once and in order, and while it waits its last id is the newest |
| EventLog.RepliesCatchUp | static/vmcloud.js:61-79 | every reply, at once, by an event or by timeout, brings the client up to date: it has then got every event since its start |
| EventLog.EventWindow.AddEvent | control-server.js:814-836 | appends, answers every waiter not yet answered from the window before pruning, empties the waiters, prunes |
| EventLog.EventWindow.WaitForEvents | control-server.js:857-872 | answers at once when there is something new, otherwise leaves the waiter pending |
| EventLog.EventWindow.TimeUp | control-server.js:864-870 | the timeout answers a waiter only if no event did |
| EventLog.Waiter.Answer | control-server.js:864-868 | a waiter is answered at most once |
| RpcFraming.DigitsRead | rpc.js:37-45 | a decimal header is non-empty, all digits, without leading zero, and reads back as the length |
| RpcFraming.RoundTripExactly | rpc.js:106-261 | for every list of commands and every cutting of its stream into chunks, exactly those commands come out, in order, with an empty buffer left, if and only if no cut falls at a place the stale length can misread |
| RpcFraming.RoundTrip | rpc.js:106-261 | with bodies below 10^13 bytes: if and only if no chunk ends after two or more digits of the first header and before its newline |
| RpcFraming.SuffixRepresented | rpc.js:201-251 | after every chunk the state represents exactly the unread suffix, and what was handed over is the rest |
| RpcFraming.CutHeaderFails | rpc.js:205-238 | for any command, a chunk that ends after its first two bytes makes the parser hand over a value that is no command |
| RpcFraming.BadBodyStays | rpc.js:217-231 | a whole body that is not JSON is not handed over, stays buffered, and a header is expected next |
| RpcFraming.NotANumberStalls | rpc.js:206-217 | after a header that is not a number nothing is handed over again and the bytes pile up |
| RpcFraming.Connection.GetNewlineIndex | rpc.js:243-253 | the index of the first newline, or -1 when there is none |
| RpcFraming.Connection.ParseCommands | rpc.js:205-238 | the recursive parse of the buffer is the parse the theorems are about |
| RpcFraming.Connection.DataAll | rpc.js:106-122 | feeding chunks to the data handler hands over what the theorems say |
| VerStates.VmInfo.Set | control-server.js:49-58 | a change of belief takes a new version; the change time moves only with the state |
| VerStates.TouchesKept | control-server.js:49-72 | over any series of changes and refreshes the version counts them, the refresh time is that of the last one and the change time that of the last that changed the state |
| VerStates.VmInfo.VerSet | control-server.js:63-67 | a versioned change lands only on the version it was captured at |
| VerStates.VmInfo.IsRefreshTimeout | control-server.js:73-83 | true exactly when the record is older than the limit of its state, each state with its own limit, and never while KILLING |
| Collections.Remove | control-server.js:19-28 | in-place removal of every occurrence |
| ControlServers.ControlServer.BootNewVM | control-server.js:171-194 | the object's new state is the boot step |
| ControlServers.ControlServer.KillVM | control-server.js:196-214 | the object's new state is the kill step, with and without a server |
| ControlServers.ControlServer.CheckinReceived | control-server.js:228-240 | the object's new state is the check-in step, ignored outside the pool |
| ControlServers.ControlServer.PrepareBatch | control-server.js:360-380 | the loop queues one entry per VM of the new batch |
| ControlServers.ControlServer.LockVM | control-server.js:382-402 | a fresh handle and a pending lock, or an exception after the handle number is taken |
| ControlServers.ControlServer.ReleaseVM | control-server.js:404-426 | the search for the handle's lock, the cleanup and the exception, as the release step |
| ControlServers.ControlServer.PrepareDone | control-server.js:258-273 | the object's new state is the end of the prepare, exception included |
| ControlServers.ControlServer.CleanupDone | control-server.js:292-309 | the object's new state is the end of the cleanup |
| ControlServers.ControlServer.PingVMs | control-server.js:321-353 | the loop sends one ping per stable pool VM with its version and state, and one check per booting VM |
| ControlServers.ControlServer.PingReply | control-server.js:329-337 | the object's new state is the ping reply step |
| ControlServers.ControlServer.RunRulePool | control-server.js:518-562 | the loops of the pool rule pick the victim of the pool step |
| ControlServers.ControlServer.RunRulePrepare | control-server.js:565-587 | the first FREE VM is prepared for the first queued batch |
| ControlServers.ControlServer.RunRuleReplace | control-server.js:589-604 | the first lost VM of the first batch that has one is replaced |
| ControlServers.ControlServer.RunRuleBoot | control-server.js:605-626 | boots exactly when more preparations wait than VMs start and none is FREE |
| ControlServers.ControlServer.RunRuleAssign | control-server.js:630-650 | the first lock whose batch has a READY VM gets the first such VM |
| ControlServers.ControlServer.RunRuleDropHandle | control-server.js:651-667 | the first handle whose VM has left the pool is dropped |
| ControlServers.ControlServer.RunRuleRelease | control-server.js:670-717 | counts locks and queue entries and moves the first unbalanced batch one step |
| ControlServers.ControlServer.RunRuleTimeout | control-server.js:720-730 | kills the first overdue VM |
| ControlServers.ControlServer.RunRuleBatchCleanup | control-server.js:732-755 | deletes the first finished batch without a pending lock |
| ControlServers.ControlServer.RunRuleHandleExpire | control-server.js:757-770 | releases the first overdue handle |
| ControlServers.ControlServer.ExecuteRules | control-server.js:498-516 | the chain of rules stops at the first that does something, and schedules itself again only then |
| ControlServers.ControlServer.RunToRest | control-server.js:463-516 | the loop of scheduled cascades terminates in the state Settle gives |
| ControlServers.ControlServer.Shutdown | control-server.js:1080-1092 | the two loops of the shutdown request, stopping at the first exception |
| ControlServers.ControlServer.LoadAllStates | control-server.js:130-157 | the loop over the pool rebuilds records and stubs as the restart step |

## Left out

- `_pool.contains` (control-server.js:184) is modelled as the intended `_.contains(pool, vmid)`; as written a successful boot would throw.
- Beliefs.BeliefsAreSound: covers one run of the controller process; a restart from an older checkpoint can leave a belief that no longer fits the VM.
- Answers to pings are unconstrained in the model (any answer at any time); `Beliefs.NoFalseAlarm` is about those that report the VM's own state.
- RpcFraming.RoundTripExactly: assumes of JSON only that commands print and parse back, that no body is shorter than 14 bytes, that an empty text is an error and a run of digits is a number; negative slice indexes count from the end, as in Node 0.10 and later.
- Header texts that are not digits: their `Number` is a parameter of the parser, without fractions.
- What happens to the process after an uncaught exception: the model goes on from the state the exception leaves, which includes everything a process that ends there can show.
- One reading of the clock per step: two calls of `Date.now()` inside one callback return the same time.
- Replies other than those of prepare, cleanup and a successful boot may arrive any number of times (openstack.js can call back twice), which is more than the source allows.
- A record outside the pool comes back from a checkpoint without its methods; every use of it throws as for a missing record, so the model drops it.
- `assert` (common.js:38-52) only logs and has no effect in the model; the exceptions of missing records and stubs are modelled.
- Request parameters that are not numbers (`parseInt` giving NaN), the HTTP routes and their responses.
- The OpenStack client, floating IPs and public addresses: a prepare or cleanup may fail on its IP change at any time (`IpFailed`), nothing more.
- Writing and reading the checkpoint file (control-server.js:473-496): only the state it holds is modelled; event windows are not saved by the source either.
- The removal of stray VMs, the VM's own actions (`vm-actions.js`), VNC passwords, server details and the batch's `data`, which affect no decision.
- The RPC callback table keyed by generated ids, and the exchange of remote descriptions (rpc.js:47-104): modelled only as calls and answers.
- The release of a handle's event window: the source never deletes one.
