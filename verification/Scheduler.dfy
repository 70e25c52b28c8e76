/** The VM pool scheduler of control-server.js as functions on one state value.
    Every function that the source runs as one callback, request or rule is one function here. */
module Scheduler {
  import opened Collections
  import opened VerStates

  datatype Batch = Batch(size: nat, vms: seq<nat>, markDelete: bool)

  /** A handle is assigned when it names a VM. */
  datatype HandleInfo = HandleInfo(vmid: Option<nat>, expireTime: Option<int>)

  datatype PendingLock = PendingLock(batchId: nat, handle: nat)

  datatype PoolSize = PoolSize(min: nat, max: nat, linger: int)

  /** What a VM answers to a ping or reports when an operation ends. */
  datatype VmState = BUSY | FREE_VM | READY_VM | ERROR_VM

  /** A call the controller has sent and whose callback may still run, with what its closure captured.
      Prepare and Cleanup callbacks run once, and so does a successful Boot callback;
      the model lets the others run any number of times. */
  datatype Op =
    | Boot(vmid: nat)
    | BootCheck(vmid: nat)
    | Checkin(vmid: nat, ver: nat)
    | Prepare(vmid: nat, ver: nat, batchId: nat)
    | Cleanup(vmid: nat, ver: nat)
    | Ping(vmid: nat, ver: nat, seen: BeliefState)
    | Kill(vmid: nat)

  /** How a prepare or cleanup ends: the IP change failed, or the VM replied. */
  datatype Outcome = IpFailed | Replied(state: VmState)

  datatype State = State(
    cfg: Config,
    pool: seq<nat>,
    vms: map<nat, Vm>,
    rpc: set<nat>,
    nextVMID: nat,
    batches: seq<nat>,
    batchData: map<nat, Batch>,
    nextBatchID: nat,
    prepQueue: seq<nat>,
    handles: seq<nat>,
    handleData: map<nat, HandleInfo>,
    nextHandle: nat,
    pendingLocks: seq<PendingLock>,
    size: PoolSize,
    scheduled: bool,
    restored: bool, // this process started from a checkpoint
    ops: set<Op>)

  /** A call either completes or leaves by an exception, with the changes made until then. */
  datatype Effect = Done(next: State) | Threw(next: State)

  /** A rule does nothing, fires, or throws half-way. */
  datatype RuleResult = Idle | Fired(next: State) | Failed(next: State)

  function Init(cfg: Config): State {
    State(cfg, [], map[], {}, 1, [], map[], 1, [], [], map[], 1, [], PoolSize(0, 0, 0), false, false, {})
  }

  // ---------------------------------------------------------------- vocabulary

  predicate InState(s: State, x: nat, st: BeliefState) {
    x in s.vms && s.vms[x].state == st
  }

  predicate Listed(s: State, b: nat, x: nat) {
    b in s.batchData && x in s.batchData[b].vms
  }

  predicate Held(s: State, h: nat, x: nat) {
    h in s.handleData && s.handleData[h].vmid == Some(x)
  }

  function LockBatches(locks: seq<PendingLock>): seq<nat> {
    seq(|locks|, i requires 0 <= i < |locks| => locks[i].batchId)
  }

  function LockCount(locks: seq<PendingLock>, b: nat): nat {
    multiset(LockBatches(locks))[b]
  }

  function Occurrences(s: State, b: nat): nat {
    multiset(s.prepQueue)[b]
  }

  /** What a batch is owed minus what it has: (size + pending locks) - (VMs + queued preparations). */
  function Ledger(s: State, b: nat): int
    requires b in s.batchData
  {
    s.batchData[b].size + LockCount(s.pendingLocks, b) - |s.batchData[b].vms| - Occurrences(s, b)
  }

  /** What the rules look up without checking. It follows from the invariant. */
  predicate WF(s: State) {
    && (forall x :: x in s.pool ==> x in s.vms)
    && (forall x :: x in s.pool && InState(s, x, FREE) ==> x in s.rpc)
    && (forall b :: b in s.batches ==> b in s.batchData)
    && (forall b :: b in s.prepQueue ==> b in s.batchData)
    && (forall p :: p in s.pendingLocks ==> p.batchId in s.batchData && p.handle in s.handleData)
    && (forall h :: h in s.handles ==> h in s.handleData)
  }

  // ---------------------------------------------------------------- VM operations

  function SetVm(s: State, x: nat, st: BeliefState, now: int): State
    requires x in s.vms
  {
    s.(vms := s.vms[x := s.vms[x].Set(st, now)])
  }

  function VerSetVm(s: State, x: nat, ver: nat, st: BeliefState, now: int): State {
    if x in s.vms then s.(vms := s.vms[x := s.vms[x].VerSet(ver, st, now)]) else s
  }

  function BootNewVM(s: State, now: int): State {
    var x := s.nextVMID;
    s.(nextVMID := x + 1, pool := s.pool + [x], vms := s.vms[x := NewVm(CREATING, now)],
       ops := s.ops + {Boot(x)}, scheduled := true)
  }

  function KillVM(s: State, x: nat, now: int): State
    requires x in s.vms
  {
    if !s.vms[x].hasServer then
      s.(pool := Without(s.pool, x), vms := s.vms - {x})
    else
      SetVm(s, x, KILLING, now).(pool := Without(s.pool, x), ops := s.ops + {Kill(x)}, scheduled := true)
  }

  function PrepareVM(s: State, x: nat, b: nat, now: int): State
    requires x in s.vms && x in s.rpc
  {
    SetVm(s, x, WAIT, now).(ops := s.ops + {Prepare(x, s.vms[x].version + 1, b)}, scheduled := true)
  }

  /** Throws before any change when the record is gone, and after the change to WAIT
      when no RPC stub exists for the VM (possible only after a restart). */
  function CleanupVM(s: State, x: nat, now: int): Effect {
    if x !in s.vms then Threw(s)
    else if x !in s.rpc then Threw(SetVm(s, x, WAIT, now))
    else Done(SetVm(s, x, WAIT, now).(ops := s.ops + {Cleanup(x, s.vms[x].version + 1)}, scheduled := true))
  }

  function OccupyVM(s: State, x: nat, now: int): State
    requires x in s.vms
  {
    SetVm(s, x, OCCUPIED, now).(scheduled := true)
  }

  // ---------------------------------------------------------------- requests

  function PrepareBatch(s: State, size: nat): State {
    var b := s.nextBatchID;
    s.(nextBatchID := b + 1, batches := s.batches + [b],
       batchData := s.batchData[b := Batch(size, [], false)],
       prepQueue := s.prepQueue + seq(size, _ => b), scheduled := true)
  }

  function LockVM(s: State, b: nat): Effect {
    var h := s.nextHandle;
    var s1 := s.(nextHandle := h + 1);
    if b !in s.batchData then Threw(s1) else
    var batch := s.batchData[b];
    Done(s1.(batchData := s.batchData[b := batch.(size := if batch.size > 0 then batch.size - 1 else 0)],
             handles := s.handles + [h],
             handleData := s.handleData[h := HandleInfo(None, None)],
             pendingLocks := s.pendingLocks + [PendingLock(b, h)],
             scheduled := true))
  }

  function ForgetHandle(s: State, h: nat): State {
    s.(handles := Without(s.handles, h), handleData := s.handleData - {h})
  }

  function ReleaseVM(s: State, h: nat, now: int): Effect {
    if h !in s.handleData then Threw(s) else
    match s.handleData[h].vmid
    case Some(x) =>
      var r := CleanupVM(s, x, now);
      if r.Threw? then r else Done(ForgetHandle(r.next, h).(scheduled := true))
    case None =>
      var i := First(s.pendingLocks, (p: PendingLock) => p.handle == h);
      if i == |s.pendingLocks| then Done(s.(scheduled := true)) else
      Done(ForgetHandle(s, h).(pendingLocks := RemoveAt(s.pendingLocks, i), scheduled := true))
  }

  function CancelBatch(s: State, b: nat): Effect {
    if b !in s.batchData then Threw(s) else
    Done(s.(batchData := s.batchData[b := s.batchData[b].(size := 0, markDelete := true)], scheduled := true))
  }

  function SetPoolSize(s: State, min: nat, max: nat, linger: int): State {
    s.(size := PoolSize(min, max, linger), scheduled := true)
  }

  /** The set-pool-size request: it refuses min > max, then clamps max without looking at min again. */
  function RequestPoolSize(s: State, min: int, max: int, linger: int): State {
    if min > max || min < 0 || max < 0 then s
    else SetPoolSize(s, min, if max > s.cfg.maxAllowed then s.cfg.maxAllowed else max, linger)
  }

  function RenewExpire(s: State, h: nat, time: int, now: int): State {
    if h !in s.handles || h !in s.handleData then s
    else s.(handleData := s.handleData[h := s.handleData[h].(expireTime := Some(now + time))])
  }

  function ReleaseAll(s: State, hs: seq<nat>, now: int): Effect
    decreases |hs|
  {
    if hs == [] then Done(s) else
    var r := ReleaseVM(s, hs[0], now);
    if r.Threw? then r else ReleaseAll(r.next, hs[1..], now)
  }

  function CancelAll(s: State, bs: seq<nat>): Effect
    decreases |bs|
  {
    if bs == [] then Done(s) else
    var r := CancelBatch(s, bs[0]);
    if r.Threw? then r else CancelAll(r.next, bs[1..])
  }

  function Shutdown(s: State, now: int): Effect {
    var r1 := ReleaseAll(s, s.handles, now);
    if r1.Threw? then r1 else
    var r2 := CancelAll(r1.next, s.batches);
    if r2.Threw? then r2 else
    Done(SetPoolSize(r2.next, 0, 0, 0))
  }

  // ---------------------------------------------------------------- callbacks

  function BootDone(s: State, x: nat, ok: bool, now: int): State
    requires x in s.pool ==> x in s.vms
  {
    if !ok then
      s.(pool := Without(s.pool, x), vms := s.vms - {x}, scheduled := true)
    else
      var s1 := s.(ops := s.ops - {Boot(x)});
      if x !in s.pool then s1
      else s1.(vms := s.vms[x := s.vms[x].(hasServer := true).VerSet(0, BOOTING, now)], scheduled := true)
  }

  function CheckinReceived(s: State, x: nat): State
    requires x in s.pool ==> x in s.vms
  {
    if x !in s.pool then s
    else s.(ops := s.ops + {Checkin(x, s.vms[x].version)}, scheduled := true)
  }

  function CheckinDone(s: State, x: nat, ver: nat, hasServer: bool, now: int): State {
    var s1 := if x in s.vms then s.(vms := s.vms[x := s.vms[x].(hasServer := hasServer)]) else s;
    VerSetVm(s1, x, ver, FREE, now).(rpc := s.rpc + {x}, scheduled := true)
  }

  /** The prepare callback, then the check of runRule_preparation that the batch still wants the VM. */
  function PrepareDone(s: State, x: nat, ver: nat, b: nat, outcome: Outcome, now: int): Effect {
    var s1 := s.(ops := s.ops - {Prepare(x, ver, b)});
    match outcome
    case IpFailed => Done(VerSetVm(s1, x, ver, ERROR, now).(scheduled := true))
    case Replied(st) =>
      var s2 := VerSetVm(s1, x, ver, if st == READY_VM then READY else ERROR, now);
      if b !in s.batches || !Listed(s, b, x) then CleanupVM(s2, x, now)
      else Done(s2.(scheduled := true))
  }

  function CleanupDone(s: State, x: nat, ver: nat, outcome: Outcome, now: int): State {
    var s1 := s.(ops := s.ops - {Cleanup(x, ver)});
    VerSetVm(s1, x, ver, if outcome == Replied(FREE_VM) then FREE else ERROR, now).(scheduled := true)
  }

  /** The calls a round of pings makes for the VMs xs. */
  function PingCalls(s: State, xs: seq<nat>): set<Op>
    requires forall x :: x in xs ==> x in s.vms
  {
    (set x | x in xs && Stable(s.vms[x].state) :: Ping(x, s.vms[x].version, s.vms[x].state))
    + (set x | x in xs && s.vms[x].state == BOOTING :: BootCheck(x))
  }

  function PingVMs(s: State): State
    requires forall x :: x in s.pool ==> x in s.vms
  {
    s.(ops := s.ops + PingCalls(s, s.pool))
  }

  predicate PingMatches(seen: BeliefState, result: VmState) {
    (result == FREE_VM && seen == FREE) || (result == READY_VM && (seen == READY || seen == OCCUPIED))
  }

  function PingReply(s: State, x: nat, ver: nat, seen: BeliefState, result: VmState, now: int): State {
    if PingMatches(seen, result) then
      if x in s.vms then s.(vms := s.vms[x := s.vms[x].VerRefresh(ver, now)]) else s
    else
      (if x in s.vms then SetVm(s, x, ERROR, now) else s).(scheduled := true)
  }

  /** The cloud reports that a booting server failed; killVM throws when the record is gone. */
  function BootCheckFailed(s: State, x: nat, now: int): Effect {
    if x !in s.vms then Threw(s) else Done(KillVM(s, x, now).(scheduled := true))
  }

  function KillDone(s: State, x: nat): State {
    s.(vms := s.vms - {x}, scheduled := true)
  }

  // ---------------------------------------------------------------- rules

  predicate Lingering(s: State, x: nat, now: int) {
    InState(s, x, FREE) && now - s.vms[x].changeTime > s.size.linger
  }

  /** The VM to shut down above the maximum: the first BOOTING one, or else the first FREE one. */
  function Surplus(s: State): (v: Option<nat>)
    ensures v.Some? ==> v.value in s.pool && (InState(s, v.value, FREE) || InState(s, v.value, BOOTING))
    ensures v.None? ==> forall x :: x in s.pool ==> !InState(s, x, FREE) && !InState(s, x, BOOTING)
  {
    var j := First(s.pool, x => InState(s, x, BOOTING));
    if j < |s.pool| then Some(s.pool[j]) else
    var k := First(s.pool, x => InState(s, x, FREE));
    if k < |s.pool| then Some(s.pool[k]) else None
  }

  /** The VM the pool rule shuts down: above the minimum the first lingering one, or else above the maximum
      a surplus one. */
  function Victim(s: State, now: int): (v: Option<nat>)
    ensures v.Some? ==> v.value in s.pool && (InState(s, v.value, FREE) || InState(s, v.value, BOOTING))
    ensures v.Some? ==> (|s.pool| > s.size.min && Lingering(s, v.value, now)) || |s.pool| > s.size.max
    ensures v.None? && |s.pool| > s.size.min ==> forall x :: x in s.pool ==> !Lingering(s, x, now)
    ensures v.None? && |s.pool| > s.size.max ==>
              forall x :: x in s.pool ==> !InState(s, x, FREE) && !InState(s, x, BOOTING)
  {
    var i := First(s.pool, x => Lingering(s, x, now));
    if |s.pool| > s.size.min && i < |s.pool| then Some(s.pool[i]) else
    if |s.pool| > s.size.max then Surplus(s) else None
  }

  function RulePool(s: State, now: int): RuleResult
    requires WF(s)
  {
    if |s.pool| < s.size.min then Fired(BootNewVM(s, now)) else
    match Victim(s, now)
    case Some(x) => Fired(KillVM(s, x, now))
    case None => Idle
  }

  function PrepareNext(s: State, x: nat, now: int): State
    requires WF(s) && s.prepQueue != [] && x in s.vms && x in s.rpc
  {
    var b := s.prepQueue[0];
    var batch := s.batchData[b];
    PrepareVM(s.(prepQueue := s.prepQueue[1..],
                 batchData := s.batchData[b := batch.(vms := batch.vms + [x])]), x, b, now)
  }

  function RulePrepare(s: State, now: int): RuleResult
    requires WF(s)
  {
    if s.prepQueue == [] then Idle else
    var i := First(s.pool, x => InState(s, x, FREE));
    if i == |s.pool| then Idle else Fired(PrepareNext(s, s.pool[i], now))
  }

  predicate Lost(s: State, x: nat) {
    x !in s.pool || InState(s, x, ERROR)
  }

  predicate HasLost(s: State, b: nat) {
    b in s.batchData && exists x :: x in s.batchData[b].vms && Lost(s, x)
  }

  function Unlist(s: State, b: nat, j: nat): State
    requires b in s.batchData && j < |s.batchData[b].vms|
  {
    s.(batchData := s.batchData[b := s.batchData[b].(vms := RemoveAt(s.batchData[b].vms, j))])
  }

  function RuleReplace(s: State): RuleResult
    requires WF(s)
  {
    var i := First(s.batches, b => HasLost(s, b));
    if i == |s.batches| then Idle else
    var b := s.batches[i];
    var j := First(s.batchData[b].vms, x => Lost(s, x));
    Fired(Unlist(s, b, j).(prepQueue := [b] + s.prepQueue))
  }

  predicate Starting(s: State, x: nat) {
    InState(s, x, CREATING) || InState(s, x, BOOTING)
  }

  function CountStarting(s: State, pool: seq<nat>): nat {
    if pool == [] then 0
    else CountStarting(s, pool[..|pool| - 1]) + if Starting(s, pool[|pool| - 1]) then 1 else 0
  }

  function RuleBoot(s: State, now: int): RuleResult
    requires WF(s)
  {
    if s.prepQueue == [] || |s.pool| >= s.size.max then Idle
    else if exists x :: x in s.pool && InState(s, x, FREE) then Idle
    else if |s.prepQueue| > CountStarting(s, s.pool) then Fired(BootNewVM(s, now))
    else Idle
  }

  predicate Lockable(s: State, x: nat) {
    x in s.pool && InState(s, x, READY)
  }

  predicate HasLockable(s: State, b: nat) {
    b in s.batchData && exists x :: x in s.batchData[b].vms && Lockable(s, x)
  }

  function Assign(s: State, i: nat, j: nat, now: int): State
    requires WF(s) && i < |s.pendingLocks|
    requires j < |s.batchData[s.pendingLocks[i].batchId].vms|
    requires s.batchData[s.pendingLocks[i].batchId].vms[j] in s.vms
  {
    var PendingLock(b, h) := s.pendingLocks[i];
    var x := s.batchData[b].vms[j];
    OccupyVM(Unlist(s, b, j), x, now).(
    pendingLocks := RemoveAt(s.pendingLocks, i),
    handleData := s.handleData[h := s.handleData[h].(vmid := Some(x))])
  }

  function RuleAssign(s: State, now: int): RuleResult
    requires WF(s)
  {
    var i := First(s.pendingLocks, (p: PendingLock) => HasLockable(s, p.batchId));
    if i == |s.pendingLocks| then Idle else
    var j := First(s.batchData[s.pendingLocks[i].batchId].vms, x => Lockable(s, x));
    Fired(Assign(s, i, j, now))
  }

  predicate Orphan(s: State, h: nat) {
    h in s.handleData && s.handleData[h].vmid.Some? && s.handleData[h].vmid.value !in s.pool
  }

  function RuleDropHandle(s: State): RuleResult
    requires WF(s)
  {
    var i := First(s.handles, h => Orphan(s, h));
    if i == |s.handles| then Idle else
    var h := s.handles[i];
    Fired(s.(handles := RemoveAt(s.handles, i), handleData := s.handleData - {h}))
  }

  predicate Unbalanced(s: State, b: nat) {
    b in s.batchData && Ledger(s, b) != 0
  }

  /** The rule reads the record of every VM of the batch, and throws if one is missing. */
  function RuleRelease(s: State, now: int): RuleResult
    requires WF(s)
  {
    var i := First(s.batches, b => Unbalanced(s, b));
    if i == |s.batches| then Idle else
    var b := s.batches[i];
    if Ledger(s, b) > 0 then Fired(s.(prepQueue := s.prepQueue + [b]))
    else if b in s.prepQueue then Fired(s.(prepQueue := RemoveAt(s.prepQueue, LastIndex(s.prepQueue, b))))
    else ReleaseOne(s, b, now)
  }

  function ReleaseOne(s: State, b: nat, now: int): RuleResult
    requires b in s.batchData && s.batchData[b].vms != []
  {
    var vms := s.batchData[b].vms;
    var j := First(vms, x => x !in s.vms || InState(s, x, WAIT));
    if j < |vms| then
      if vms[j] in s.vms then Fired(Unlist(s, b, j)) else Failed(s)
    else
      var r := CleanupVM(Unlist(s, b, 0), vms[0], now);
      if r.Threw? then Failed(r.next) else Fired(r.next)
  }

  predicate Expired(s: State, x: nat, now: int) {
    x in s.vms && s.vms[x].TimedOut(s.cfg, now)
  }

  function RuleTimeout(s: State, now: int): RuleResult
    requires WF(s)
  {
    var i := First(s.pool, x => Expired(s, x, now));
    if i == |s.pool| then Idle else Fired(KillVM(s, s.pool[i], now))
  }

  predicate LockPending(s: State, b: nat) {
    exists p :: p in s.pendingLocks && p.batchId == b
  }

  predicate Deletable(s: State, b: nat) {
    && b in s.batchData && s.batchData[b].markDelete && s.batchData[b].size == 0 && s.batchData[b].vms == []
    && !LockPending(s, b)
  }

  function RuleBatchCleanup(s: State): RuleResult
    requires WF(s)
  {
    var i := First(s.batches, b => Deletable(s, b));
    if i == |s.batches| then Idle else
    var b := s.batches[i];
    Fired(s.(batches := Without(s.batches, b), batchData := s.batchData - {b}))
  }

  predicate HandleExpired(s: State, h: nat, now: int) {
    h in s.handleData && s.handleData[h].expireTime.Some? && now > s.handleData[h].expireTime.value
  }

  function RuleHandleExpire(s: State, now: int): RuleResult
    requires WF(s)
  {
    var i := First(s.handles, h => HandleExpired(s, h, now));
    if i == |s.handles| then Idle else
    var r := ReleaseVM(s, s.handles[i], now);
    if r.Threw? then Failed(r.next) else Fired(r.next)
  }

  datatype Rule =
    | PoolRule | PrepareRule | ReplaceRule | BootRule | AssignRule | DropHandleRule
    | ReleaseRule | TimeoutRule | BatchCleanupRule | HandleExpireRule

  /** The order in which executeRules, and inside them the composite rules, try the rules. */
  const ORDER: seq<Rule> := [PoolRule, PrepareRule, ReplaceRule, BootRule, AssignRule, DropHandleRule,
                             ReleaseRule, TimeoutRule, BatchCleanupRule, HandleExpireRule]

  function Try(s: State, now: int, rule: Rule): RuleResult
    requires WF(s)
  {
    match rule
    case PoolRule => RulePool(s, now)
    case PrepareRule => RulePrepare(s, now)
    case ReplaceRule => RuleReplace(s)
    case BootRule => RuleBoot(s, now)
    case AssignRule => RuleAssign(s, now)
    case DropHandleRule => RuleDropHandle(s)
    case ReleaseRule => RuleRelease(s, now)
    case TimeoutRule => RuleTimeout(s, now)
    case BatchCleanupRule => RuleBatchCleanup(s)
    case HandleExpireRule => RuleHandleExpire(s, now)
  }

  /** The first rule that does not stay idle decides. */
  function RunFrom(s: State, now: int, rules: seq<Rule>): RuleResult
    requires WF(s)
  {
    if rules == [] then Idle else
    var r := Try(s, now, rules[0]);
    if !r.Idle? then r else RunFrom(s, now, rules[1..])
  }

  function RunRules(s: State, now: int): RuleResult
    requires WF(s)
  {
    RunFrom(s, now, ORDER)
  }

  function ExecuteRules(s: State, now: int): Effect
    requires WF(s)
  {
    match RunRules(s.(scheduled := false), now)
    case Idle => Done(s.(scheduled := false))
    case Fired(n) => Done(n.(scheduled := true))
    case Failed(n) => Threw(n)
  }

  predicate Quiescent(s: State, now: int)
    requires WF(s)
  {
    RunRules(s, now).Idle?
  }

  // ---------------------------------------------------------------- restart

  /** A pool VM reloaded from a checkpoint: a fresh verState, in ERROR unless it was in a stable state. */
  function Reload(vm: Vm, now: int): Vm {
    var renewed := NewVm(vm.state, now).(hasServer := vm.hasServer);
    if Stable(vm.state) then renewed else renewed.Set(ERROR, now)
  }

  /** loadAllStates. A record outside the pool comes back without its methods, so every use of it throws
      exactly as for a missing record: it is dropped. */
  function Load(saved: State, now: int): State
    requires WF(saved)
  {
    saved.(vms := (map x | x in saved.pool :: Reload(saved.vms[x], now)),
           rpc := (set x | x in saved.pool && Stable(saved.vms[x].state)),
           scheduled := false, restored := true, ops := {})
  }
}
