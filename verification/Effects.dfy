/** What each step picks and does, field by field. */
module Effects {
  import opened Collections
  import opened VerStates
  import opened Scheduler
  import opened Invariant
  import opened Steps
  import opened Quiescence

  /* Which VM, batch, lock or handle a step picks, what becomes of it, and that all else stays, in terms of the states
     before and after: each choice and each value is fixed here, and not only by the function that computes it. */

  /** The records of s, with one replaced. */
  predicate OneRecord(s: State, t: State, x: nat, vm: Vm) {
    t.vms == s.vms[x := vm]
  }

  /** The change time of a record put in state st. */
  function Changed(vm: Vm, st: BeliefState, now: int): int {
    if vm.state == st then vm.changeTime else now
  }

  // ---------------------------------------------------------------- pool rule

  /** Below its minimum the pool grows by one new VM, in creation. */
  lemma ShortPoolBoots(s: State, now: int)
    requires WF(s) && |s.pool| < s.size.min
    ensures RulePool(s, now).Fired? && Boots(s, RulePool(s, now).next, now)
  {
  }

  /** A new VM joins the end of the pool under a fresh number; a cloud request for it is outstanding. */
  predicate Boots(s: State, t: State, now: int) {
    var x := s.nextVMID;
    && t.pool == s.pool + [x] && t.nextVMID == x + 1 && t.ops == s.ops + {Boot(x)} && t.scheduled
    && OneRecord(s, t, x, Vm(CREATING, 0, now, now, false))
    && t == s.(pool := t.pool, nextVMID := t.nextVMID, ops := t.ops, vms := t.vms, scheduled := true)
  }

  /** VM x leaves the pool: with a server it is KILLING and its termination is requested, without one it is gone. */
  ghost predicate Killed(s: State, t: State, x: nat, now: int)
    requires x in s.vms
  {
    && (forall y :: y in t.pool <==> y in s.pool && y != x)
    && t == s.(pool := t.pool, vms := t.vms, ops := t.ops, scheduled := t.scheduled)
    && var vm := s.vms[x];
       if vm.hasServer
       then && t.ops == s.ops + {Kill(x)} && t.scheduled
            && OneRecord(s, t, x, Vm(KILLING, vm.version + 1, now, Changed(vm, KILLING, now), true))
       else t.ops == s.ops && t.scheduled == s.scheduled && t.vms == s.vms - {x}
  }

  lemma KillsVm(s: State, x: nat, now: int)
    requires x in s.vms
    ensures Killed(s, KillVM(s, x, now), x, now)
  {
  }

  predicate TooLongAt(s: State, i: nat, now: int) {
    i < |s.pool| && s.pool[i] in s.vms && FreeTooLong(s.vms[s.pool[i]], s.size.linger, now)
  }

  predicate BelievedAt(s: State, i: nat, st: BeliefState) {
    i < |s.pool| && InState(s, s.pool[i], st)
  }

  /** The VM the pool rule shuts down: above the minimum the first that is FREE for too long; if there is none,
      above the maximum the first BOOTING one, and the first FREE one only if none is BOOTING. */
  ghost predicate ShutDown(s: State, i: nat, now: int) {
    if |s.pool| > s.size.min && exists j: nat :: TooLongAt(s, j, now)
    then TooLongAt(s, i, now) && forall j: nat :: j < i ==> !TooLongAt(s, j, now)
    else if exists j: nat :: BelievedAt(s, j, BOOTING)
    then BelievedAt(s, i, BOOTING) && forall j: nat :: j < i ==> !BelievedAt(s, j, BOOTING)
    else BelievedAt(s, i, FREE) && forall j: nat :: j < i ==> !BelievedAt(s, j, FREE)
  }

  /** The index of the VM the pool rule shuts down. */
  lemma VictimAt(s: State, now: int) returns (i: nat)
    requires WF(s) && Victim(s, now).Some?
    ensures i < |s.pool| && Victim(s, now) == Some(s.pool[i]) && ShutDown(s, i, now)
  {
    var a := First(s.pool, x => Lingering(s, x, now));
    var b := First(s.pool, x => InState(s, x, BOOTING));
    if |s.pool| > s.size.min && a < |s.pool| {
      i := a;
      assert TooLongAt(s, i, now);
    } else if b < |s.pool| {
      i := b;
      assert BelievedAt(s, i, BOOTING);
    } else {
      i := First(s.pool, x => InState(s, x, FREE));
    }
  }

  lemma PoolRuleShutsDown(s: State, now: int) returns (i: nat)
    requires WF(s) && Distinct(s.pool) && |s.pool| >= s.size.min && RulePool(s, now).Fired?
    ensures i < |s.pool| && ShutDown(s, i, now) && Killed(s, RulePool(s, now).next, s.pool[i], now)
    ensures RulePool(s, now).next.pool == RemoveAt(s.pool, i)
  {
    i := VictimAt(s, now);
    RemoveAtIsWithout(s.pool, i);
    KillsVm(s, s.pool[i], now);
  }

  /** When nothing lingers above the minimum, the VM that is missing from the pool afterwards was BOOTING if any
      pool VM was, and FREE otherwise. */
  lemma BootingGoesFirst(s: State, now: int, x: nat)
    requires WF(s) && Distinct(s.pool) && |s.pool| >= s.size.min && RulePool(s, now).Fired?
    requires |s.pool| > s.size.min ==>
               forall y :: y in s.pool && y in s.vms ==> !FreeTooLong(s.vms[y], s.size.linger, now)
    requires x in s.pool && x !in RulePool(s, now).next.pool
    ensures if exists y :: y in s.pool && InState(s, y, BOOTING) then InState(s, x, BOOTING) else InState(s, x, FREE)
  {
    var i := PoolRuleShutsDown(s, now);
    assert x == s.pool[i];
    if y :| y in s.pool && InState(s, y, BOOTING) {
      var j :| 0 <= j < |s.pool| && s.pool[j] == y;
      assert BelievedAt(s, j, BOOTING);
    }
  }

  // ---------------------------------------------------------------- preparation rules

  /** The first FREE VM goes to the batch at the head of the queue. */
  lemma PrepareRuleTakes(s: State, now: int) returns (i: nat)
    requires WF(s) && RulePrepare(s, now).Fired?
    ensures s.prepQueue != [] && i < |s.pool| && InState(s, s.pool[i], FREE)
    ensures forall j :: 0 <= j < i ==> !InState(s, s.pool[j], FREE)
    ensures var t := RulePrepare(s, now).next;
            var x, b := s.pool[i], s.prepQueue[0];
            var ver := s.vms[x].version + 1;
            && s.prepQueue == [b] + t.prepQueue
            && t.batchData == s.batchData[b := s.batchData[b].(vms := s.batchData[b].vms + [x])]
            && OneRecord(s, t, x, Vm(WAIT, ver, now, now, s.vms[x].hasServer))
            && t.ops == s.ops + {Prepare(x, ver, b)}
            && t == s.(prepQueue := t.prepQueue, batchData := t.batchData, vms := t.vms, ops := t.ops,
                       scheduled := true)
  {
    i := First(s.pool, x => InState(s, x, FREE));
  }

  /** The first VM that left the pool or is in ERROR, in the first batch that has one, makes way for a preparation
      at the head of the queue. */
  lemma ReplaceRuleTakes(s: State) returns (i: nat, j: nat)
    requires WF(s) && RuleReplace(s).Fired?
    ensures i < |s.batches| && j < |s.batchData[s.batches[i]].vms|
    ensures var vms := s.batchData[s.batches[i]].vms;
            && (vms[j] !in s.pool || InState(s, vms[j], ERROR))
            && (forall k :: 0 <= k < j ==> vms[k] in s.pool && !InState(s, vms[k], ERROR))
    ensures forall k, x :: 0 <= k < i && x in s.batchData[s.batches[k]].vms ==> x in s.pool && !InState(s, x, ERROR)
    ensures var b := s.batches[i];
            var vms := s.batchData[b].vms;
            RuleReplace(s).next
            == s.(prepQueue := [b] + s.prepQueue,
                  batchData := s.batchData[b := s.batchData[b].(vms := vms[..j] + vms[j + 1..])])
  {
    i := First(s.batches, b => HasLost(s, b));
    j := First(s.batchData[s.batches[i]].vms, x => Lost(s, x));
    forall k, x | 0 <= k < i && x in s.batchData[s.batches[k]].vms ensures x in s.pool && !InState(s, x, ERROR) {
      assert !HasLost(s, s.batches[k]);
      assert !Lost(s, x);
    }
  }

  /** The boot rule adds one VM. */
  lemma BootRuleBoots(s: State, now: int)
    requires WF(s) && RuleBoot(s, now).Fired?
    ensures Boots(s, RuleBoot(s, now).next, now)
  {
  }

  // ---------------------------------------------------------------- lock rules

  predicate ReadyInPool(s: State, x: nat) {
    x in s.pool && InState(s, x, READY)
  }

  /** The first lock whose batch has a READY VM in the pool gets the first such VM. */
  lemma AssignRuleTakes(s: State, now: int) returns (i: nat, j: nat)
    requires WF(s) && RuleAssign(s, now).Fired?
    ensures i < |s.pendingLocks| && j < |s.batchData[s.pendingLocks[i].batchId].vms|
    ensures var vms := s.batchData[s.pendingLocks[i].batchId].vms;
            ReadyInPool(s, vms[j]) && forall k :: 0 <= k < j ==> !ReadyInPool(s, vms[k])
    ensures forall k, x :: 0 <= k < i && x in s.batchData[s.pendingLocks[k].batchId].vms ==> !ReadyInPool(s, x)
    ensures var p := s.pendingLocks[i];
            var batch := s.batchData[p.batchId];
            var x := batch.vms[j];
            var vm := s.vms[x];
            var t := RuleAssign(s, now).next;
            && t.pendingLocks == s.pendingLocks[..i] + s.pendingLocks[i + 1..]
            && t.batchData == s.batchData[p.batchId := batch.(vms := batch.vms[..j] + batch.vms[j + 1..])]
            && t.handleData == s.handleData[p.handle := HandleInfo(Some(x), s.handleData[p.handle].expireTime)]
            && OneRecord(s, t, x, Vm(OCCUPIED, vm.version + 1, now, now, vm.hasServer))
            && t == s.(pendingLocks := t.pendingLocks, batchData := t.batchData, handleData := t.handleData,
                       vms := t.vms, scheduled := true)
  {
    i := First(s.pendingLocks, (p: PendingLock) => HasLockable(s, p.batchId));
    j := First(s.batchData[s.pendingLocks[i].batchId].vms, x => Lockable(s, x));
    forall k, x | 0 <= k < i && x in s.batchData[s.pendingLocks[k].batchId].vms ensures !ReadyInPool(s, x) {
      assert !HasLockable(s, s.pendingLocks[k].batchId);
      assert !Lockable(s, x);
    }
  }

  /** An assigned handle whose VM has left the pool. */
  predicate LostItsVm(s: State, h: nat) {
    h in s.handleData && s.handleData[h].vmid.Some? && s.handleData[h].vmid.value !in s.pool
  }

  /** The first handle that lost its VM is forgotten. */
  lemma DropRuleTakes(s: State) returns (i: nat)
    requires WF(s) && RuleDropHandle(s).Fired?
    ensures i < |s.handles| && LostItsVm(s, s.handles[i]) && forall k :: 0 <= k < i ==> !LostItsVm(s, s.handles[k])
    ensures RuleDropHandle(s).next
         == s.(handles := s.handles[..i] + s.handles[i + 1..], handleData := s.handleData - {s.handles[i]})
  {
    i := First(s.handles, h => Orphan(s, h));
  }

  // ---------------------------------------------------------------- release rule

  function LocksOn(s: State, b: nat): set<nat> {
    set i: nat | i < |s.pendingLocks| && s.pendingLocks[i].batchId == b
  }

  function QueuedFor(s: State, b: nat): set<nat> {
    set i: nat | i < |s.prepQueue| && s.prepQueue[i] == b
  }

  function PlacesOf(q: seq<nat>, b: nat): set<nat> {
    set i: nat | i < |q| && q[i] == b
  }

  lemma PlacesGrow(q: seq<nat>, c: nat, b: nat)
    ensures |PlacesOf(q + [c], b)| == |PlacesOf(q, b)| + if c == b then 1 else 0
  {
    assert PlacesOf(q + [c], b) == PlacesOf(q, b) + if c == b then {|q|} else {};
  }

  lemma {:induction false} CountIsSize(q: seq<nat>, b: nat)
    ensures multiset(q)[b] == |PlacesOf(q, b)|
  {
    if q == [] {
    } else {
      var rest := q[..|q| - 1];
      assert q == rest + [q[|q| - 1]];
      CountIsSize(rest, b);
      PlacesGrow(rest, q[|q| - 1], b);
    }
  }

  /** The ledger counts what it says: locks on the batch and its size, less its VMs and queued preparations. */
  lemma LedgerCounts(s: State, b: nat)
    requires b in s.batchData
    ensures Ledger(s, b) == s.batchData[b].size + |LocksOn(s, b)| - |s.batchData[b].vms| - |QueuedFor(s, b)|
  {
    CountIsSize(s.prepQueue, b);
    CountIsSize(LockBatches(s.pendingLocks), b);
    var bs := LockBatches(s.pendingLocks);
    assert LocksOn(s, b) == PlacesOf(bs, b) && QueuedFor(s, b) == PlacesOf(s.prepQueue, b);
  }

  /** What is owed minus what is there, counted. */
  function Balance(s: State, b: nat): int {
    if b in s.batchData then s.batchData[b].size + |LocksOn(s, b)| - |s.batchData[b].vms| - |QueuedFor(s, b)| else 0
  }

  /** The first batch out of balance: short of VMs it gets one more queued preparation, at the end; otherwise it
      loses its last queued preparation, or else a VM. */
  lemma ReleaseRuleTakes(s: State, now: int) returns (i: nat)
    requires WF(s) && !RuleRelease(s, now).Idle?
    ensures i < |s.batches| && Balance(s, s.batches[i]) != 0 && forall k :: 0 <= k < i ==> Balance(s, s.batches[k]) == 0
    ensures var b := s.batches[i];
            && (Balance(s, b) > 0 ==> RuleRelease(s, now) == Fired(s.(prepQueue := s.prepQueue + [b])))
            && (Balance(s, b) < 0 && b in s.prepQueue ==>
                  exists k :: 0 <= k < |s.prepQueue| && LastAt(s.prepQueue, k, b)
                              && RuleRelease(s, now) == Fired(s.(prepQueue := s.prepQueue[..k] + s.prepQueue[k + 1..])))
            && (Balance(s, b) < 0 && b !in s.prepQueue ==>
                  s.batchData[b].vms != [] && RuleRelease(s, now) == ReleaseOne(s, b, now))
  {
    i := First(s.batches, b => Unbalanced(s, b));
    var b := s.batches[i];
    forall k | 0 <= k <= i ensures Ledger(s, s.batches[k]) == Balance(s, s.batches[k]) {
      LedgerCounts(s, s.batches[k]);
    }
    forall k | 0 <= k < i ensures Balance(s, s.batches[k]) == 0 {
      assert !Unbalanced(s, s.batches[k]);
    }
    if Ledger(s, b) < 0 && b in s.prepQueue {
      assert LastAt(s.prepQueue, LastIndex(s.prepQueue, b), b);
    }
  }

  predicate LastAt(q: seq<nat>, k: nat, b: nat) {
    k < |q| && q[k] == b && forall j :: k < j < |q| ==> q[j] != b
  }

  predicate FirstWaits(s: State, vms: seq<nat>, j: nat) {
    j < |vms| && InState(s, vms[j], WAIT) && forall k :: 0 <= k < j ==> !InState(s, vms[k], WAIT)
  }

  /** Which VM a batch gives up: the first in WAIT, which is only taken off the list, and if there is none the
      first of the list, which is cleaned up. */
  lemma BatchGivesUp(s: State, b: nat, now: int)
    requires b in s.batchData && s.batchData[b].vms != [] && forall x :: x in s.batchData[b].vms ==> x in s.vms
    requires s.batchData[b].vms[0] in s.rpc
    ensures var vms := s.batchData[b].vms;
            && (forall j: nat :: FirstWaits(s, vms, j) ==>
                  ReleaseOne(s, b, now) == Fired(OffList(s, b, j)))
            && ((forall j :: 0 <= j < |vms| ==> !InState(s, vms[j], WAIT)) ==>
                  ReleaseOne(s, b, now).Fired? && CleansUp(OffList(s, b, 0), ReleaseOne(s, b, now).next, vms[0], now))
  {
    var vms := s.batchData[b].vms;
    forall j: nat | FirstWaits(s, vms, j)
      ensures ReleaseOne(s, b, now) == Fired(OffList(s, b, j))
    {
      FirstIs(vms, x => x !in s.vms || InState(s, x, WAIT), j);
    }
    if forall j :: 0 <= j < |vms| ==> !InState(s, vms[j], WAIT) {
      FirstIs(vms, x => x !in s.vms || InState(s, x, WAIT), |vms|);
    }
  }

  /** s without entry j of the VM list of batch b. */
  function OffList(s: State, b: nat, j: nat): State
    requires b in s.batchData && j < |s.batchData[b].vms|
  {
    var batch := s.batchData[b];
    s.(batchData := s.batchData[b := Batch(batch.size, batch.vms[..j] + batch.vms[j + 1..], batch.markDelete)])
  }

  /** VM x is in WAIT for a cleanup whose answer is expected under its new version. */
  predicate CleansUp(s: State, t: State, x: nat, now: int) {
    && x in s.vms && x in s.rpc
    && var vm := s.vms[x];
       && OneRecord(s, t, x, Vm(WAIT, vm.version + 1, now, Changed(vm, WAIT, now), vm.hasServer))
       && t == s.(vms := t.vms, ops := s.ops + {Cleanup(x, vm.version + 1)}, scheduled := true)
  }

  lemma CleansUpVm(s: State, x: nat, now: int)
    ensures x in s.vms && x in s.rpc ==> CleanupVM(s, x, now).Done? && CleansUp(s, CleanupVM(s, x, now).next, x, now)
    ensures x !in s.vms ==> CleanupVM(s, x, now) == Threw(s)
    ensures x in s.vms && x !in s.rpc ==>
              var r := CleanupVM(s, x, now);
              var vm := s.vms[x];
              && r.Threw? && r.next == s.(vms := r.next.vms)
              && OneRecord(s, r.next, x, Vm(WAIT, vm.version + 1, now, Changed(vm, WAIT, now), vm.hasServer))
  {
  }

  // ---------------------------------------------------------------- the last three rules

  /** The first VM that is not on time is killed. */
  lemma TimeoutRuleTakes(s: State, now: int) returns (i: nat)
    requires WF(s) && !RuleTimeout(s, now).Idle?
    ensures i < |s.pool| && !OnTime(s.vms[s.pool[i]], s.cfg, now)
    ensures forall k :: 0 <= k < i ==> OnTime(s.vms[s.pool[k]], s.cfg, now)
    ensures RuleTimeout(s, now).Fired? && Killed(s, RuleTimeout(s, now).next, s.pool[i], now)
  {
    i := First(s.pool, x => Expired(s, x, now));
    KillsVm(s, s.pool[i], now);
  }

  /** Cancelled, and nothing left of it. */
  predicate Finished(s: State, b: nat) {
    && b in s.batchData && s.batchData[b].markDelete && s.batchData[b].size == 0 && s.batchData[b].vms == []
    && (forall i :: 0 <= i < |s.pendingLocks| ==> s.pendingLocks[i].batchId != b)
  }

  /** The first finished batch is deleted. */
  lemma CleanupRuleTakes(s: State) returns (i: nat)
    requires WF(s) && Distinct(s.batches) && !RuleBatchCleanup(s).Idle?
    ensures i < |s.batches| && Finished(s, s.batches[i]) && forall k :: 0 <= k < i ==> !Finished(s, s.batches[k])
    ensures RuleBatchCleanup(s)
         == Fired(s.(batches := s.batches[..i] + s.batches[i + 1..], batchData := s.batchData - {s.batches[i]}))
  {
    i := First(s.batches, b => Deletable(s, b));
    forall b ensures Deletable(s, b) <==> Finished(s, b) {
      assert forall j :: 0 <= j < |s.pendingLocks| ==> s.pendingLocks[j] in s.pendingLocks;
    }
    RemoveAtIsWithout(s.batches, i);
  }

  /** The first overdue handle is released. */
  lemma ExpireRuleTakes(s: State, now: int) returns (i: nat)
    requires WF(s) && !RuleHandleExpire(s, now).Idle?
    ensures i < |s.handles| && Overdue(s.handleData[s.handles[i]], now)
    ensures forall k :: 0 <= k < i ==> !Overdue(s.handleData[s.handles[k]], now)
    ensures var r := ReleaseVM(s, s.handles[i], now);
            RuleHandleExpire(s, now) == if r.Threw? then Failed(r.next) else Fired(r.next)
  {
    i := First(s.handles, h => HandleExpired(s, h, now));
  }

  // ---------------------------------------------------------------- requests

  /** A new batch under a fresh number, with one preparation per VM at the end of the queue. */
  lemma PrepareBatchOrders(s: State, size: nat)
    ensures var t := PrepareBatch(s, size);
            var b := s.nextBatchID;
            && |t.prepQueue| == |s.prepQueue| + size && t.prepQueue[..|s.prepQueue|] == s.prepQueue
            && (forall i :: |s.prepQueue| <= i < |t.prepQueue| ==> t.prepQueue[i] == b)
            && t == s.(nextBatchID := b + 1, batches := s.batches + [b],
                       batchData := s.batchData[b := Batch(size, [], false)],
                       prepQueue := t.prepQueue, scheduled := true)
  {
  }

  /** A lock on a batch that exists: a fresh handle without a VM or a deadline, waiting behind all others. On any
      other batch it throws, and a handle number is spent. */
  lemma LockWaits(s: State, b: nat)
    ensures b !in s.batchData ==> LockVM(s, b) == Threw(s.(nextHandle := s.nextHandle + 1))
    ensures b in s.batchData ==>
              var h := s.nextHandle;
              var batch := s.batchData[b];
              LockVM(s, b)
              == Done(s.(nextHandle := h + 1, handles := s.handles + [h],
                         handleData := s.handleData[h := HandleInfo(None, None)],
                         pendingLocks := s.pendingLocks + [PendingLock(b, h)],
                         batchData := s.batchData[b := batch.(size := if batch.size == 0 then 0 else batch.size - 1)],
                         scheduled := true))
  {
  }

  /** The size request: refused unless 0 <= min <= max; else min and linger as asked, and max up to what is allowed. */
  lemma PoolSizeAsAsked(s: State, min: int, max: int, linger: int)
    ensures var t := RequestPoolSize(s, min, max, linger);
            if 0 <= min && min <= max
            then && t == s.(size := t.size, scheduled := true)
                 && t.size.min == min && t.size.linger == linger
                 && t.size.max <= max && t.size.max <= s.cfg.maxAllowed
                 && (t.size.max == max || t.size.max == s.cfg.maxAllowed)
            else t == s
  {
  }

  /** A renewal sets the deadline of the handle, and that alone. */
  lemma RenewsDeadline(s: State, h: nat, time: int, now: int)
    requires WF(s)
    ensures var t := RenewExpire(s, h, time, now);
            if h in s.handles
            then t == s.(handleData := s.handleData[h := HandleInfo(s.handleData[h].vmid, Some(now + time))])
            else t == s
  {
  }

  /** A cancellation keeps the VMs of the batch. */
  lemma CancelMarks(s: State, b: nat)
    ensures b !in s.batchData ==> CancelBatch(s, b) == Threw(s)
    ensures b in s.batchData ==>
              CancelBatch(s, b)
              == Done(s.(batchData := s.batchData[b := Batch(0, s.batchData[b].vms, true)], scheduled := true))
  {
  }

  /** Releasing a handle that waits takes its lock out of the line and forgets it; its batch keeps its size. */
  lemma ReleaseOfWaiting(s: State, h: nat, now: int) returns (i: nat)
    requires HandlesOk(s.handles, s.handleData, s.nextHandle, s.pendingLocks)
    requires h in s.handleData && s.handleData[h].vmid.None?
    ensures i < |s.pendingLocks| && s.pendingLocks[i].handle == h
    ensures var t := ReleaseVM(s, h, now).next;
            && ReleaseVM(s, h, now).Done? && (forall g :: g in t.handles <==> g in s.handles && g != h)
            && t == s.(handles := t.handles, handleData := s.handleData - {h},
                       pendingLocks := s.pendingLocks[..i] + s.pendingLocks[i + 1..], scheduled := true)
  {
    i := ReleaseWaitingIs(s, h, now);
  }

  /** Releasing a handle that has its VM sends the VM to be cleaned up and forgets the handle, or throws as the
      clean-up does and forgets nothing. */
  lemma ReleaseOfHeld(s: State, h: nat, x: nat, now: int)
    requires Held(s, h, x)
    ensures x in s.vms && x in s.rpc ==>
              var t := ReleaseVM(s, h, now).next;
              && ReleaseVM(s, h, now).Done? && (forall g :: g in t.handles <==> g in s.handles && g != h)
              && t.handleData == s.handleData - {h}
              && CleansUp(s, t.(handles := s.handles, handleData := s.handleData), x, now)
    ensures x !in s.vms || x !in s.rpc ==> ReleaseVM(s, h, now).Threw? && ReleaseVM(s, h, now) == CleanupVM(s, x, now)
  {
    CleansUpVm(s, x, now);
  }

  // ---------------------------------------------------------------- completions

  /** The cloud made the server, or failed to. */
  lemma BootAnswered(s: State, x: nat, now: int)
    requires WF(s)
    ensures var t := BootDone(s, x, false, now);
            && (forall y :: y in t.pool <==> y in s.pool && y != x)
            && t == s.(pool := t.pool, vms := s.vms - {x}, scheduled := true)
    ensures x !in s.pool ==> BootDone(s, x, true, now) == s.(ops := s.ops - {Boot(x)})
    ensures x in s.pool ==>
              var vm := s.vms[x];
              && BootDone(s, x, true, now)
                 == s.(ops := s.ops - {Boot(x)}, scheduled := true,
                       vms := s.vms[x := if vm.version == 0
                                         then Vm(BOOTING, 1, now, Changed(vm, BOOTING, now), true)
                                         else Vm(vm.state, vm.version, vm.refreshTime, vm.changeTime, true)])
  {
  }

  /** A check-in notes the version it came under, and completes by a stub and, under that version, belief FREE. */
  lemma CheckinAnswered(s: State, x: nat, ver: nat, hasServer: bool, now: int)
    requires WF(s)
    ensures CheckinReceived(s, x)
         == if x in s.pool then s.(ops := s.ops + {Checkin(x, s.vms[x].version)}, scheduled := true) else s
    ensures x !in s.vms ==> CheckinDone(s, x, ver, hasServer, now) == s.(rpc := s.rpc + {x}, scheduled := true)
    ensures x in s.vms ==>
              var vm := s.vms[x];
              && CheckinDone(s, x, ver, hasServer, now)
                 == s.(rpc := s.rpc + {x}, scheduled := true,
                       vms := s.vms[x := if vm.version == ver
                                         then Vm(FREE, ver + 1, now, Changed(vm, FREE, now), hasServer)
                                         else Vm(vm.state, vm.version, vm.refreshTime, vm.changeTime, hasServer)])
  {
  }

  /** Which pool VMs a round of pings asks, and under what token. */
  lemma PingsWhom(s: State, op: Op)
    requires WF(s)
    ensures PingVMs(s) == s.(ops := PingVMs(s).ops)
    ensures op in PingVMs(s).ops && op !in s.ops ==>
              && op.vmid in s.pool
              && var vm := s.vms[op.vmid];
                 || (op == Ping(op.vmid, vm.version, vm.state)
                     && (vm.state == FREE || vm.state == READY || vm.state == OCCUPIED))
                 || (op == BootCheck(op.vmid) && vm.state == BOOTING)
    ensures op in s.ops ==> op in PingVMs(s).ops
    ensures forall x :: x in s.pool && (InState(s, x, FREE) || InState(s, x, READY) || InState(s, x, OCCUPIED)) ==>
              Ping(x, s.vms[x].version, s.vms[x].state) in PingVMs(s).ops
    ensures forall x :: x in s.pool && InState(s, x, BOOTING) ==> BootCheck(x) in PingVMs(s).ops
  {
  }

  /** What a ping reply does, for every answer and every token: FREE for FREE, and READY for READY or OCCUPIED,
      refresh a record still at the version of the ping and do nothing else; any other answer puts the VM in ERROR
      whatever its version, and schedules the rules. */
  lemma PingReplyExactly(s: State, x: nat, ver: nat, seen: BeliefState, result: VmState, now: int)
    ensures var t := PingReply(s, x, ver, seen, result, now);
            if (result == FREE_VM && seen == FREE) || (result == READY_VM && seen == READY)
               || (result == READY_VM && seen == OCCUPIED)
            then if x in s.vms && s.vms[x].version == ver
                 then var vm := s.vms[x];
                      t == s.(vms := s.vms[x := Vm(vm.state, ver + 1, now, vm.changeTime, vm.hasServer)])
                 else t == s
            else && t.scheduled && t == s.(vms := t.vms, scheduled := true)
                 && t.vms.Keys == s.vms.Keys
                 && (forall y :: y in s.vms && y != x ==> t.vms[y] == s.vms[y])
                 && (x in s.vms ==> t.vms[x].state == ERROR && t.vms[x].version == s.vms[x].version + 1
                                    && t.vms[x].refreshTime == now && t.vms[x].hasServer == s.vms[x].hasServer)
  {
    if x in s.vms {
      assert s.vms[x := s.vms[x]] == s.vms;
    }
  }

  /** A failed server is killed like any VM, and a terminated one is forgotten. */
  lemma ServerGone(s: State, x: nat, now: int)
    ensures x in s.vms ==>
              var r := BootCheckFailed(s, x, now);
              && r.Done? && r.next.scheduled
              && Killed(s, r.next.(scheduled := s.scheduled || s.vms[x].hasServer), x, now)
    ensures x !in s.vms ==> BootCheckFailed(s, x, now) == Threw(s)
    ensures KillDone(s, x) == s.(vms := s.vms - {x}, scheduled := true)
  {
    if x in s.vms {
      KillsVm(s, x, now);
    }
  }

  /** The end of a cleanup: under its own version the VM becomes FREE if that is what it answers, else ERROR. */
  lemma CleanupAnswered(s: State, x: nat, ver: nat, outcome: Outcome, now: int)
    ensures CleanupDone(s, x, ver, outcome, now)
         == Answered(s.(ops := s.ops - {Cleanup(x, ver)}), x, ver,
                     if outcome == Replied(FREE_VM) then FREE else ERROR, now)
  {
  }

  /** The end of a prepare whose VM its batch still lists: under its own version READY if that is the answer, else
      ERROR; and the same with ERROR when the IP change failed, listed or not. */
  lemma PrepareAnswered(s: State, x: nat, ver: nat, b: nat, outcome: Outcome, now: int)
    requires outcome.IpFailed? || (b in s.batches && b in s.batchData && x in s.batchData[b].vms)
    ensures PrepareDone(s, x, ver, b, outcome, now)
         == Done(Answered(s.(ops := s.ops - {Prepare(x, ver, b)}), x, ver,
                          if outcome == Replied(READY_VM) then READY else ERROR, now))
  {
  }

  /** A prepare whose VM its batch no longer lists is decided the same way and then cleaned up at once. */
  lemma PrepareUnwanted(s: State, x: nat, ver: nat, b: nat, st: VmState, now: int)
    requires b !in s.batches || !(b in s.batchData && x in s.batchData[b].vms)
    ensures var s1 := s.(ops := s.ops - {Prepare(x, ver, b)});
            var decided := Answered(s1, x, ver, if st == READY_VM then READY else ERROR, now);
            PrepareDone(s, x, ver, b, Replied(st), now) == CleanupVM(decided.(scheduled := s.scheduled), x, now)
  {
    VerSetIsAnswered(s.(ops := s.ops - {Prepare(x, ver, b)}), x, ver, if st == READY_VM then READY else ERROR, now);
  }

  lemma VerSetIsAnswered(s: State, x: nat, ver: nat, st: BeliefState, now: int)
    ensures VerSetVm(s, x, ver, st, now) == Answered(s, x, ver, st, now).(scheduled := s.scheduled)
  {
  }

  /** The record of x takes state st if it is still at version ver; the rules are scheduled. */
  function Answered(s: State, x: nat, ver: nat, st: BeliefState, now: int): State {
    if x in s.vms && s.vms[x].version == ver
    then s.(vms := s.vms[x := Vm(st, ver + 1, now, Changed(s.vms[x], st, now), s.vms[x].hasServer)],
            scheduled := true)
    else s.(scheduled := true)
  }

  // ---------------------------------------------------------------- the tick and the restart

  /** The three parts of runRule_preparation, each tried only if those before it did nothing. */
  function PreparationRules(s: State, now: int): RuleResult
    requires WF(s)
  {
    if !RulePrepare(s, now).Idle? then RulePrepare(s, now)
    else if !RuleReplace(s).Idle? then RuleReplace(s)
    else RuleBoot(s, now)
  }

  /** The two parts of runRule_lock. */
  function LockRules(s: State, now: int): RuleResult
    requires WF(s)
  {
    if !RuleAssign(s, now).Idle? then RuleAssign(s, now) else RuleDropHandle(s)
  }

  /** The last three rules of executeRules. */
  function LimitRules(s: State, now: int): RuleResult
    requires WF(s)
  {
    if !RuleTimeout(s, now).Idle? then RuleTimeout(s, now)
    else if !RuleBatchCleanup(s).Idle? then RuleBatchCleanup(s)
    else RuleHandleExpire(s, now)
  }

  lemma NextRule(s: State, now: int, k: nat, rule: Rule)
    requires WF(s) && k < |ORDER| && ORDER[k] == rule
    ensures RunFrom(s, now, ORDER[k..])
         == if !Try(s, now, rule).Idle? then Try(s, now, rule) else RunFrom(s, now, ORDER[k + 1..])
  {
    assert ORDER[k..][1..] == ORDER[k + 1..];
  }

  lemma LimitsLast(s: State, now: int)
    requires WF(s)
    ensures RunFrom(s, now, ORDER[7..]) == LimitRules(s, now)
  {
    NextRule(s, now, 7, TimeoutRule);
    NextRule(s, now, 8, BatchCleanupRule);
    NextRule(s, now, 9, HandleExpireRule);
    assert ORDER[10..] == [];
  }

  lemma LocksNext(s: State, now: int)
    requires WF(s)
    ensures RunFrom(s, now, ORDER[4..])
         == if !LockRules(s, now).Idle? then LockRules(s, now) else RunFrom(s, now, ORDER[6..])
  {
    NextRule(s, now, 4, AssignRule);
    NextRule(s, now, 5, DropHandleRule);
  }

  lemma ReleaseNext(s: State, now: int)
    requires WF(s)
    ensures RunFrom(s, now, ORDER[6..])
         == if !RuleRelease(s, now).Idle? then RuleRelease(s, now) else LimitRules(s, now)
  {
    NextRule(s, now, 6, ReleaseRule);
    LimitsLast(s, now);
  }

  lemma PoolNext(s: State, now: int)
    requires WF(s)
    ensures RunRules(s, now) == if !RulePool(s, now).Idle? then RulePool(s, now) else RunFrom(s, now, ORDER[1..])
  {
    NextRule(s, now, 0, PoolRule);
    assert ORDER[0..] == ORDER;
  }

  lemma PreparationNext(s: State, now: int)
    requires WF(s)
    ensures RunFrom(s, now, ORDER[1..])
         == if !PreparationRules(s, now).Idle? then PreparationRules(s, now) else RunFrom(s, now, ORDER[4..])
  {
    NextRule(s, now, 1, PrepareRule);
    NextRule(s, now, 2, ReplaceRule);
    NextRule(s, now, 3, BootRule);
  }

  /** The rules in the order of executeRules: each is tried only if all before it did nothing. */
  lemma RulesInOrder(s: State, now: int)
    requires WF(s)
    ensures RunRules(s, now)
         == if !RulePool(s, now).Idle? then RulePool(s, now)
            else if !PreparationRules(s, now).Idle? then PreparationRules(s, now)
            else if !LockRules(s, now).Idle? then LockRules(s, now)
            else if !RuleRelease(s, now).Idle? then RuleRelease(s, now)
            else LimitRules(s, now)
  {
    PoolNext(s, now);
    PreparationNext(s, now);
    LocksNext(s, now);
    ReleaseNext(s, now);
  }

  /** A restart: every pool VM has a new record under version 0, with its server; one that was FREE, READY or
      OCCUPIED keeps its state, any other is in ERROR one version later; no record outside the pool is left. */
  lemma RestartRenews(saved: State, now: int)
    requires WF(saved)
    ensures var t := Load(saved, now);
            && t == saved.(vms := t.vms, rpc := t.rpc, ops := {}, scheduled := false, restored := true)
            && (forall x :: x in t.vms <==> x in saved.pool)
            && (forall x :: x in saved.pool ==>
                  var vm := saved.vms[x];
                  if vm.state == FREE || vm.state == READY || vm.state == OCCUPIED
                  then x in t.rpc && t.vms[x] == Vm(vm.state, 0, now, now, vm.hasServer)
                  else x !in t.rpc && t.vms[x] == Vm(ERROR, 1, now, now, vm.hasServer))
            && (forall x :: x in t.rpc ==> x in saved.pool)
  {
  }
}
