/** The control server as the source has it: global variables changed in place by callbacks and rules.
    Every method computes the function of the same name in Scheduler; an exception is a returned flag. */
module ControlServers {
  import opened Collections
  import opened VerStates
  import opened Scheduler
  import opened Invariant
  import opened Termination

  /** How a rule ends: idle, fired, or left by an exception. */
  datatype Ending = Quiet | Ran | Raised

  /** A rule that ended this way, from s to t, computed r. */
  predicate Ends(how: Ending, r: RuleResult, s: State, t: State) {
    match how
    case Quiet => r.Idle? && t == s
    case Ran => r == Fired(t)
    case Raised => r == Failed(t)
  }

  lemma PingCallsNext(s: State, xs: seq<nat>, i: nat)
    requires i < |xs| && forall x :: x in xs ==> x in s.vms
    ensures var x := xs[i];
            PingCalls(s, xs[..i + 1])
            == PingCalls(s, xs[..i])
               + (if Stable(s.vms[x].state) then {Ping(x, s.vms[x].version, s.vms[x].state)} else {})
               + (if s.vms[x].state == BOOTING then {BootCheck(x)} else {})
  {
    assert xs[..i + 1] == xs[..i] + [xs[i]];
  }

  function ReloadedVms(saved: State, xs: seq<nat>, now: int): map<nat, Vm> {
    map x | x in xs && x in saved.vms :: Reload(saved.vms[x], now)
  }

  function Stubs(saved: State, xs: seq<nat>): set<nat> {
    set x | x in xs && x in saved.vms && Stable(saved.vms[x].state)
  }

  lemma ReloadNext(saved: State, i: nat, now: int)
    requires i < |saved.pool| && saved.pool[i] in saved.vms
    ensures var x := saved.pool[i];
            && ReloadedVms(saved, saved.pool[..i + 1], now)
               == ReloadedVms(saved, saved.pool[..i], now)[x := Reload(saved.vms[x], now)]
            && Stubs(saved, saved.pool[..i + 1])
               == Stubs(saved, saved.pool[..i]) + (if Stable(saved.vms[x].state) then {x} else {})
  {
    assert saved.pool[..i + 1] == saved.pool[..i] + [saved.pool[i]];
  }

  lemma LostIs(s: State, b: nat)
    requires b in s.batchData
    ensures var vms := s.batchData[b].vms; HasLost(s, b) <==> First(vms, x => Lost(s, x)) < |vms|
  {
    var vms := s.batchData[b].vms;
    var j := First(vms, x => Lost(s, x));
    if j < |vms| {
      assert vms[j] in vms;
    }
  }

  lemma LockableIs(s: State, b: nat)
    requires b in s.batchData
    ensures var vms := s.batchData[b].vms; HasLockable(s, b) <==> First(vms, x => Lockable(s, x)) < |vms|
  {
    var vms := s.batchData[b].vms;
    var j := First(vms, x => Lockable(s, x));
    if j < |vms| {
      assert vms[j] in vms;
    }
  }

  lemma AssignIs(s: State, i: nat, j: nat, now: int)
    requires WF(s) && i < |s.pendingLocks| && i == First(s.pendingLocks, (p: PendingLock) => HasLockable(s, p.batchId))
    requires var vms := s.batchData[s.pendingLocks[i].batchId].vms;
             j < |vms| && vms[j] in s.vms && j == First(vms, x => Lockable(s, x))
    ensures RuleAssign(s, now) == Fired(Assign(s, i, j, now))
  {
  }

  class ControlServer {
    const cfg: Config
    var pool: seq<nat>
    var vmData: map<nat, VmInfo>
    var rpc: set<nat>
    var nextVMID: nat
    var batches: seq<nat>
    var batchData: map<nat, Batch>
    var nextBatchID: nat
    var prepQueue: seq<nat>
    var handles: seq<nat>
    var handleData: map<nat, HandleInfo>
    var nextHandle: nat
    var pendingLocks: seq<PendingLock>
    var poolSize: PoolSize
    var checkRulesScheduled: bool
    ghost var restored: bool
    ghost var ops: set<Op>

    /** Different VMs have different records. */
    ghost predicate Valid()
      reads this`vmData
    {
      forall x, y :: x in vmData && y in vmData && vmData[x] == vmData[y] ==> x == y
    }

    ghost function Records(): map<nat, Vm>
      reads this`vmData, vmData.Values
    {
      map x | x in vmData :: vmData[x].View()
    }

    ghost function View(): State
      reads this, vmData.Values
    {
      State(cfg, pool, Records(), rpc, nextVMID, batches, batchData, nextBatchID, prepQueue,
            handles, handleData, nextHandle, pendingLocks, poolSize, checkRulesScheduled, restored, ops)
    }

    constructor (cfg: Config)
      ensures Valid() && View() == Init(cfg) && fresh(vmData.Values)
    {
      this.cfg := cfg;
      pool, vmData, rpc, nextVMID := [], map[], {}, 1;
      batches, batchData, nextBatchID, prepQueue := [], map[], 1, [];
      handles, handleData, nextHandle, pendingLocks := [], map[], 1, [];
      poolSize := PoolSize(0, 0, 0);
      checkRulesScheduled, restored, ops := false, false, {};
    }

    method CheckRules()
      modifies this`checkRulesScheduled
      ensures View() == old(View()).(scheduled := true)
    {
      if checkRulesScheduled { return; }
      checkRulesScheduled := true;
    }

    // -------------------------------------------------------------- records

    method AddRecord(vmid: nat, now: int)
      requires Valid()
      modifies this`vmData
      ensures Valid() && fresh(vmData.Values - old(vmData.Values))
      ensures View() == old(View()).(vms := old(View()).vms[vmid := NewVm(CREATING, now)])
    {
      var vm := new VmInfo(CREATING, now);
      vmData := vmData[vmid := vm];
      assert Records() == old(Records())[vmid := NewVm(CREATING, now)];
    }

    method DropRecord(vmid: nat)
      requires Valid()
      modifies this`vmData
      ensures Valid() && vmData.Values <= old(vmData.Values)
      ensures View() == old(View()).(vms := old(View()).vms - {vmid})
    {
      vmData := vmData - {vmid};
    }

    method SetState(vmid: nat, st: BeliefState, now: int) returns (ver: nat)
      requires Valid() && vmid in vmData
      modifies vmData[vmid]
      ensures Valid()
      ensures View() == SetVm(old(View()), vmid, st, now)
      ensures ver == old(View()).vms[vmid].version + 1
    {
      var vm := vmData[vmid];
      ver := vm.Set(st, now);
    }

    method VerSetState(vmid: nat, ver: nat, st: BeliefState, now: int)
      requires Valid() && vmid in vmData
      modifies vmData[vmid]
      ensures Valid()
      ensures View() == VerSetVm(old(View()), vmid, ver, st, now)
    {
      var vm := vmData[vmid];
      vm.VerSet(ver, st, now);
    }

    method RefreshState(vmid: nat, ver: nat, now: int)
      requires Valid() && vmid in vmData
      modifies vmData[vmid]
      ensures Valid()
      ensures var s := old(View()); View() == s.(vms := s.vms[vmid := s.vms[vmid].VerRefresh(ver, now)])
    {
      var vm := vmData[vmid];
      vm.VerRefresh(ver, now);
    }

    /** Sends a call whose callback may run later, and has the rules checked. */
    method Send(op: Op)
      modifies this`ops, this`checkRulesScheduled
      ensures View() == old(View()).(ops := old(ops) + {op}, scheduled := true)
    {
      ops := ops + {op};
      CheckRules();
    }

    // -------------------------------------------------------------- VM operations

    method BootNewVM(now: int)
      requires Valid()
      modifies this
      ensures Valid() && fresh(vmData.Values - old(vmData.Values))
      ensures View() == Scheduler.BootNewVM(old(View()), now)
    {
      var vmid := nextVMID;
      Enlist(vmid);
      AddRecord(vmid, now);
      ops := ops + {Boot(vmid)};
      CheckRules();
    }

    method Enlist(vmid: nat)
      modifies this`nextVMID, this`pool
      ensures View() == old(View()).(nextVMID := old(nextVMID) + 1, pool := old(pool) + [vmid])
    {
      nextVMID := nextVMID + 1;
      pool := pool + [vmid];
    }

    method KillVM(vmid: nat, now: int)
      requires Valid() && vmid in vmData
      modifies this, vmData[vmid]
      ensures Valid() && vmData.Values <= old(vmData.Values)
      ensures View() == Scheduler.KillVM(old(View()), vmid, now)
    {
      var vm := vmData[vmid];
      if !vm.hasServer {
        LeavePool(vmid);
        DropRecord(vmid);
        return;
      } else {
        var _ := SetState(vmid, KILLING, now);
        LeavePool(vmid);
        Send(Kill(vmid));
      }
    }

    /** pool.remove(vmid) */
    method LeavePool(vmid: nat)
      modifies this`pool
      ensures View() == old(View()).(pool := Without(old(pool), vmid))
    {
      pool := Remove(pool, vmid);
    }

    method PrepareVM(vmid: nat, batchId: nat, now: int)
      requires Valid() && vmid in vmData && vmid in rpc
      modifies this`ops, this`checkRulesScheduled, vmData[vmid]
      ensures Valid()
      ensures View() == Scheduler.PrepareVM(old(View()), vmid, batchId, now)
    {
      var ver := SetState(vmid, WAIT, now);
      Send(Prepare(vmid, ver, batchId));
    }

    method CleanupVM(vmid: nat, now: int) returns (threw: bool)
      requires Valid()
      modifies this`ops, this`checkRulesScheduled, vmData.Values
      ensures Valid()
      ensures Scheduler.CleanupVM(old(View()), vmid, now) == if threw then Threw(View()) else Done(View())
    {
      if vmid !in vmData { return true; }
      var ver := SetState(vmid, WAIT, now);
      if vmid !in rpc { return true; }
      Send(Cleanup(vmid, ver));
      return false;
    }

    method OccupyVM(vmid: nat, now: int)
      requires Valid() && vmid in vmData
      modifies this`checkRulesScheduled, vmData[vmid]
      ensures Valid()
      ensures View() == Scheduler.OccupyVM(old(View()), vmid, now)
    {
      var _ := SetState(vmid, OCCUPIED, now);
      CheckRules();
    }

    // -------------------------------------------------------------- requests

    method PrepareBatch(batchSize: nat) returns (batchId: nat)
      requires Valid()
      modifies this
      ensures Valid() && vmData == old(vmData)
      ensures View() == Scheduler.PrepareBatch(old(View()), batchSize) && batchId == old(nextBatchID)
    {
      batchId := NewBatch(batchSize);
      label added:
      for i := 0 to batchSize
        invariant Valid() && vmData == old(vmData)
        invariant View() == old@added(View()).(prepQueue := old(prepQueue) + seq(i, _ => batchId))
      {
        prepQueue := prepQueue + [batchId];
      }
      CheckRules();
    }

    method NewBatch(batchSize: nat) returns (batchId: nat)
      modifies this`nextBatchID, this`batches, this`batchData
      ensures batchId == old(nextBatchID)
      ensures var s := old(View());
              View() == s.(nextBatchID := batchId + 1, batches := s.batches + [batchId],
                           batchData := s.batchData[batchId := Batch(batchSize, [], false)])
    {
      batchId := nextBatchID;
      nextBatchID := nextBatchID + 1;
      batches := batches + [batchId];
      batchData := batchData[batchId := Batch(batchSize, [], false)];
    }

    method LockVM(batchId: nat) returns (handle: nat, threw: bool)
      requires Valid()
      modifies this
      ensures Valid() && vmData == old(vmData) && handle == old(nextHandle)
      ensures Scheduler.LockVM(old(View()), batchId) == if threw then Threw(View()) else Done(View())
    {
      handle := nextHandle;
      nextHandle := nextHandle + 1;
      if batchId !in batchData { return handle, true; }
      if batchData[batchId].size > 0 {
        batchData := batchData[batchId := batchData[batchId].(size := batchData[batchId].size - 1)];
      }
      AddPending(batchId, handle);
      CheckRules();
      threw := false;
    }

    method AddPending(batchId: nat, handle: nat)
      requires Valid()
      modifies this`handles, this`handleData, this`pendingLocks
      ensures var s := old(View());
              View() == s.(handles := s.handles + [handle],
                           handleData := s.handleData[handle := HandleInfo(None, None)],
                           pendingLocks := s.pendingLocks + [PendingLock(batchId, handle)])
    {
      handles := handles + [handle];
      handleData := handleData[handle := HandleInfo(None, None)];
      pendingLocks := pendingLocks + [PendingLock(batchId, handle)];
    }

    method ForgetHandle(handle: nat)
      requires Valid()
      modifies this`handles, this`handleData
      ensures View() == Scheduler.ForgetHandle(old(View()), handle)
    {
      handles := Remove(handles, handle);
      handleData := handleData - {handle};
    }

    method ReleaseVM(handle: nat, now: int) returns (threw: bool)
      requires Valid()
      modifies this, vmData.Values
      ensures Valid() && vmData == old(vmData)
      ensures Scheduler.ReleaseVM(old(View()), handle, now) == if threw then Threw(View()) else Done(View())
    {
      if handle !in handleData { return true; }
      if handleData[handle].vmid.Some? {
        var vmid := handleData[handle].vmid.value;
        threw := CleanupVM(vmid, now);
        if threw { return; }
        ForgetHandle(handle);
      } else {
        threw := false;
        var i := 0;
        while i < |pendingLocks|
          invariant 0 <= i <= |pendingLocks|
          invariant forall j :: 0 <= j < i ==> pendingLocks[j].handle != handle
          invariant View() == old(View()) && vmData == old(vmData)
        {
          if pendingLocks[i].handle == handle {
            pendingLocks := RemoveAt(pendingLocks, i);
            ForgetHandle(handle);
            break;
          }
          i := i + 1;
        }
      }
      CheckRules();
    }

    method CancelBatch(batchId: nat) returns (threw: bool)
      requires Valid()
      modifies this
      ensures Valid() && vmData == old(vmData)
      ensures Scheduler.CancelBatch(old(View()), batchId) == if threw then Threw(View()) else Done(View())
    {
      if batchId !in batchData { return true; }
      batchData := batchData[batchId := batchData[batchId].(size := 0)];
      batchData := batchData[batchId := batchData[batchId].(markDelete := true)];
      CheckRules();
      assert batchData == old(batchData)[batchId := old(batchData)[batchId].(size := 0, markDelete := true)];
      threw := false;
    }

    method SetPoolSize(minSize: nat, maxSize: nat, lingerTime: int)
      requires Valid()
      modifies this
      ensures Valid() && vmData == old(vmData)
      ensures View() == Scheduler.SetPoolSize(old(View()), minSize, maxSize, lingerTime)
    {
      poolSize := PoolSize(minSize, maxSize, lingerTime);
      CheckRules();
    }

    /** POST /set-pool-size */
    method RequestPoolSize(min: int, max: int, linger: int)
      requires Valid()
      modifies this
      ensures Valid() && vmData == old(vmData)
      ensures View() == Scheduler.RequestPoolSize(old(View()), min, max, linger)
    {
      if min > max || min < 0 || max < 0 { return; }
      var allowed := max;
      if allowed > cfg.maxAllowed {
        allowed := cfg.maxAllowed;
      }
      SetPoolSize(min, allowed, linger);
    }

    /** POST /renew-expire */
    method RenewExpire(handle: nat, time: int, now: int)
      requires Valid()
      modifies this
      ensures Valid() && vmData == old(vmData)
      ensures View() == Scheduler.RenewExpire(old(View()), handle, time, now)
    {
      if handle in handles && handle in handleData {
        handleData := handleData[handle := handleData[handle].(expireTime := Some(now + time))];
      }
    }

    /** POST /shutdown: first every handle, then every batch, then the pool. An exception ends it. */
    method Shutdown(now: int) returns (threw: bool)
      requires Valid()
      modifies this, vmData.Values
      ensures Valid() && vmData == old(vmData)
      ensures Scheduler.Shutdown(old(View()), now) == if threw then Threw(View()) else Done(View())
    {
      var handlesToRelease := handles;
      var batchesToCancel := batches;
      threw := ReleaseEach(handlesToRelease, now);
      if threw { return; }
      threw := CancelEach(batchesToCancel);
      if threw { return; }
      SetPoolSize(0, 0, 0);
    }

    method ReleaseEach(handlesToRelease: seq<nat>, now: int) returns (threw: bool)
      requires Valid()
      modifies this, vmData.Values
      ensures Valid() && vmData == old(vmData)
      ensures ReleaseAll(old(View()), handlesToRelease, now) == if threw then Threw(View()) else Done(View())
    {
      for i := 0 to |handlesToRelease|
        invariant Valid() && vmData == old(vmData)
        invariant ReleaseAll(old(View()), handlesToRelease, now) == ReleaseAll(View(), handlesToRelease[i..], now)
      {
        threw := ReleaseVM(handlesToRelease[i], now);
        if threw { return; }
        assert handlesToRelease[i..][1..] == handlesToRelease[i + 1..];
      }
      threw := false;
    }

    method CancelEach(batchesToCancel: seq<nat>) returns (threw: bool)
      requires Valid()
      modifies this
      ensures Valid() && vmData == old(vmData)
      ensures CancelAll(old(View()), batchesToCancel) == if threw then Threw(View()) else Done(View())
    {
      for i := 0 to |batchesToCancel|
        invariant Valid() && vmData == old(vmData)
        invariant CancelAll(old(View()), batchesToCancel) == CancelAll(View(), batchesToCancel[i..])
      {
        threw := CancelBatch(batchesToCancel[i]);
        if threw { return; }
        assert batchesToCancel[i..][1..] == batchesToCancel[i + 1..];
      }
      threw := false;
    }
  
    // -------------------------------------------------------------- callbacks

    method BootDone(vmid: nat, ok: bool, now: int)
      requires Valid() && (vmid in pool ==> vmid in vmData)
      modifies this, vmData.Values
      ensures Valid() && vmData.Values <= old(vmData.Values)
      ensures View() == Scheduler.BootDone(old(View()), vmid, ok, now)
    {
      if !ok {
        LeavePool(vmid);
        DropRecord(vmid);
      } else {
        ops := ops - {Boot(vmid)};
        if vmid !in pool { return; }
        BootVersion(vmid, now);
      }
      CheckRules();
    }

    method BootVersion(vmid: nat, now: int)
      requires Valid() && vmid in vmData
      modifies vmData[vmid]
      ensures Valid()
      ensures var s := old(View());
              View() == s.(vms := s.vms[vmid := s.vms[vmid].(hasServer := true).VerSet(0, BOOTING, now)])
    {
      SetServer(vmid, true);
      VerSetState(vmid, 0, BOOTING, now);
    }

    method SetServer(vmid: nat, present: bool)
      requires Valid() && vmid in vmData
      modifies vmData[vmid]
      ensures Valid()
      ensures var s := old(View()); View() == s.(vms := s.vms[vmid := s.vms[vmid].(hasServer := present)])
    {
      var vm := vmData[vmid];
      vm.hasServer := present;
      assert Records() == old(Records())[vmid := old(Records())[vmid].(hasServer := present)];
    }

    method CheckinReceived(vmid: nat)
      requires Valid() && (vmid in pool ==> vmid in vmData)
      modifies this
      ensures Valid() && vmData == old(vmData)
      ensures View() == Scheduler.CheckinReceived(old(View()), vmid)
    {
      if vmid !in pool { return; }
      var vm := vmData[vmid];
      ops := ops + {Checkin(vmid, vm.version)};
      CheckRules();
    }

    method CheckinDone(vmid: nat, ver: nat, hasServer: bool, now: int)
      requires Valid()
      modifies this, vmData.Values
      ensures Valid() && vmData == old(vmData)
      ensures View() == Scheduler.CheckinDone(old(View()), vmid, ver, hasServer, now)
    {
      if vmid in vmData {
        SetServer(vmid, hasServer);
        VerSetState(vmid, ver, FREE, now);
      }
      rpc := rpc + {vmid};
      CheckRules();
    }

    /** The end of an operation for a VM that may be gone. */
    method Finish(op: Op, vmid: nat, ver: nat, st: BeliefState, now: int)
      requires Valid()
      modifies this`ops, vmData.Values
      ensures Valid()
      ensures View() == VerSetVm(old(View()).(ops := old(ops) - {op}), vmid, ver, st, now)
    {
      ops := ops - {op};
      if vmid in vmData {
        VerSetState(vmid, ver, st, now);
      }
    }

    method PrepareDone(vmid: nat, ver: nat, batchId: nat, outcome: Outcome, now: int) returns (threw: bool)
      requires Valid()
      modifies this, vmData.Values
      ensures Valid() && vmData == old(vmData)
      ensures Scheduler.PrepareDone(old(View()), vmid, ver, batchId, outcome, now)
              == if threw then Threw(View()) else Done(View())
    {
      Finish(Prepare(vmid, ver, batchId), vmid, ver, if outcome == Replied(READY_VM) then READY else ERROR, now);
      if outcome.Replied? && (batchId !in batches || !(batchId in batchData && vmid in batchData[batchId].vms)) {
        threw := CleanupVM(vmid, now);
      } else {
        CheckRules();
        threw := false;
      }
    }

    method CleanupDone(vmid: nat, ver: nat, outcome: Outcome, now: int)
      requires Valid()
      modifies this, vmData.Values
      ensures Valid() && vmData == old(vmData)
      ensures View() == Scheduler.CleanupDone(old(View()), vmid, ver, outcome, now)
    {
      Finish(Cleanup(vmid, ver), vmid, ver, if outcome == Replied(FREE_VM) then FREE else ERROR, now);
      CheckRules();
    }

    method PingReply(vmid: nat, ver: nat, seen: BeliefState, result: VmState, now: int)
      requires Valid()
      modifies this, vmData.Values
      ensures Valid() && vmData == old(vmData)
      ensures View() == Scheduler.PingReply(old(View()), vmid, ver, seen, result, now)
    {
      if PingMatches(seen, result) {
        if vmid in vmData {
          RefreshState(vmid, ver, now);
        }
      } else {
        PingFailed(vmid, now);
      }
    }

    method PingFailed(vmid: nat, now: int)
      requires Valid()
      modifies this`checkRulesScheduled, vmData.Values
      ensures Valid()
      ensures var s := old(View());
              View() == (if vmid in s.vms then SetVm(s, vmid, ERROR, now) else s).(scheduled := true)
    {
      if vmid in vmData {
        var _ := SetState(vmid, ERROR, now);
      }
      CheckRules();
    }

    method BootCheckFailed(vmid: nat, now: int) returns (threw: bool)
      requires Valid()
      modifies this, vmData.Values
      ensures Valid() && vmData.Values <= old(vmData.Values)
      ensures Scheduler.BootCheckFailed(old(View()), vmid, now) == if threw then Threw(View()) else Done(View())
    {
      if vmid !in vmData { return true; }
      KillVM(vmid, now);
      CheckRules();
      threw := false;
    }

    method KillDone(vmid: nat)
      requires Valid()
      modifies this
      ensures Valid() && vmData.Values <= old(vmData.Values)
      ensures View() == Scheduler.KillDone(old(View()), vmid)
    {
      DropRecord(vmid);
      CheckRules();
    }

    /** pingVMs: one call per VM of the pool that is stable or booting. */
    method PingVMs()
      requires Valid() && forall x :: x in pool ==> x in vmData
      modifies this`ops
      ensures View() == Scheduler.PingVMs(old(View()))
    {
      ghost var s := View();
      for i := 0 to |pool|
        invariant ops == s.ops + PingCalls(s, pool[..i])
      {
        var vmid := pool[i];
        var vm := vmData[vmid];
        PingCallsNext(s, pool, i);
        assert s.vms[vmid] == vm.View();
        if vm.state in {FREE, READY, OCCUPIED} {
          ops := ops + {Ping(vmid, vm.version, vm.state)};
        }
        if vm.state == BOOTING {
          ops := ops + {BootCheck(vmid)};
        }
      }
      assert pool[..|pool|] == pool;
    }
  
    // -------------------------------------------------------------- rules

    /** Batches and locks name records of batches. */
    lemma BatchesKnown()
      requires WF(View())
      ensures forall b :: b in batches ==> b in batchData
      ensures forall p :: p in pendingLocks ==> p.batchId in batchData && p.handle in handleData
      ensures forall b :: b in prepQueue ==> b in batchData
    {
      assert forall b :: b in batches ==> b in View().batches;
      assert forall p :: p in pendingLocks ==> p in View().pendingLocks;
      assert forall b :: b in prepQueue ==> b in View().prepQueue;
    }

    lemma PoolKnown()
      requires WF(View())
      ensures forall j :: 0 <= j < |pool| ==> pool[j] in vmData
    {
      forall j | 0 <= j < |pool| ensures pool[j] in vmData {
        assert pool[j] in View().pool;
        assert pool[j] in View().vms;
      }
    }

    /** The loops over the pool: the first VM in a state, the first lingering one, the first timed-out one. */
    method FirstInState(st: BeliefState) returns (i: nat)
      requires Valid() && WF(View())
      ensures var s := View(); i == First(s.pool, x => InState(s, x, st))
    {
      ghost var s := View();
      PoolKnown();
      i := 0;
      while i < |pool| && vmData[pool[i]].state != st
        invariant i <= |pool| && s == View()
        invariant forall j :: 0 <= j < i ==> !InState(s, pool[j], st)
      {
        i := i + 1;
      }
      FirstIs(s.pool, x => InState(s, x, st), i);
    }

    method FirstLingering(now: int) returns (i: nat)
      requires Valid() && WF(View())
      ensures var s := View(); i == First(s.pool, x => Lingering(s, x, now))
    {
      ghost var s := View();
      PoolKnown();
      i := 0;
      while i < |pool| && !(vmData[pool[i]].state == FREE && now - vmData[pool[i]].changeTime > poolSize.linger)
        invariant i <= |pool| && s == View()
        invariant forall j :: 0 <= j < i ==> !Lingering(s, pool[j], now)
      {
        i := i + 1;
      }
      FirstIs(s.pool, x => Lingering(s, x, now), i);
    }

    method FirstTimedOut(now: int) returns (i: nat)
      requires Valid() && WF(View())
      ensures var s := View(); i == First(s.pool, x => Expired(s, x, now))
    {
      ghost var s := View();
      PoolKnown();
      i := 0;
      while i < |pool|
        invariant i <= |pool| && s == View()
        invariant forall j :: 0 <= j < i ==> !Expired(s, pool[j], now)
      {
        var vm := vmData[pool[i]];
        var timedOut := vm.IsRefreshTimeout(cfg, now);
        if timedOut { break; }
        i := i + 1;
      }
      FirstIs(s.pool, x => Expired(s, x, now), i);
    }

    method RunRulePool(now: int) returns (how: Ending)
      requires Valid() && WF(View())
      modifies this, vmData.Values
      ensures Valid() && fresh(vmData.Values - old(vmData.Values))
      ensures Ends(how, RulePool(old(View()), now), old(View()), View())
    {
      if |pool| < poolSize.min {
        BootNewVM(now);
        return Ran;
      }
      var victim := FindVictim(now);
      match victim {
        case Some(vmid) =>
          KillVM(vmid, now);
          return Ran;
        case None =>
          return Quiet;
      }
    }

    /** The two searches of runRule_pool that end in killVM. */
    method FindVictim(now: int) returns (victim: Option<nat>)
      requires Valid() && WF(View())
      ensures victim == Victim(View(), now)
    {
      if |pool| > poolSize.min {
        var i := FirstLingering(now);
        if i < |pool| { return Some(pool[i]); }
      }
      if |pool| > poolSize.max {
        victim := FindSurplus();
        return;
      }
      return None;
    }

    method FindSurplus() returns (victim: Option<nat>)
      requires Valid() && WF(View())
      ensures victim == Surplus(View())
    {
      var j := FirstInState(BOOTING);
      if j < |pool| { return Some(pool[j]); }
      var k := FirstInState(FREE);
      if k < |pool| { return Some(pool[k]); }
      return None;
    }

    method RunRulePrepare(now: int) returns (how: Ending)
      requires Valid() && WF(View())
      modifies this, vmData.Values
      ensures Valid() && vmData == old(vmData)
      ensures Ends(how, RulePrepare(old(View()), now), old(View()), View())
    {
      if |prepQueue| != 0 {
        var i := FirstInState(FREE);
        if i < |pool| {
          assert pool[i] in View().pool && InState(View(), pool[i], FREE);
          PrepareFor(pool[i], now);
          return Ran;
        }
      }
      return Quiet;
    }

    method PrepareFor(vmid: nat, now: int)
      requires Valid() && WF(View()) && prepQueue != [] && vmid in vmData && vmid in rpc
      modifies this, vmData.Values
      ensures Valid() && vmData == old(vmData)
      ensures View() == PrepareNext(old(View()), vmid, now)
    {
      BatchesKnown();
      var batchId := prepQueue[0];
      TakeFirst(vmid);
      PrepareVM(vmid, batchId, now);
    }

    /** Pops the first batch id from the preparation queue and appends the VM to that batch. */
    method TakeFirst(vmid: nat)
      requires prepQueue != [] && prepQueue[0] in batchData
      modifies this`prepQueue, this`batchData
      ensures var s := old(View()); var b := s.prepQueue[0];
              View() == s.(prepQueue := s.prepQueue[1..],
                           batchData := s.batchData[b := s.batchData[b].(vms := s.batchData[b].vms + [vmid])])
    {
      var batchId := prepQueue[0];
      prepQueue := prepQueue[1..];
      batchData := batchData[batchId := batchData[batchId].(vms := batchData[batchId].vms + [vmid])];
    }
  
    /** The first batch with a lost VM. */
    method FindLost() returns (i: nat)
      requires Valid() && forall b :: b in batches ==> b in batchData
      ensures var s := View(); i == First(s.batches, b => HasLost(s, b))
    {
      ghost var s := View();
      i := 0;
      while i < |batches|
        invariant i <= |batches|
        invariant forall k :: 0 <= k < i ==> !HasLost(s, batches[k])
      {
        var lost := LosesVm(batches[i]);
        assert View() == s;
        if lost { break; }
        i := i + 1;
      }
      FirstIs(s.batches, b => HasLost(s, b), i);
    }

    method LosesVm(batchId: nat) returns (lost: bool)
      requires Valid() && batchId in batchData
      ensures lost <==> HasLost(View(), batchId)
    {
      var j := FirstLost(batchData[batchId].vms);
      LostIs(View(), batchId);
      lost := j < |batchData[batchId].vms|;
    }

    method FirstLost(vms: seq<nat>) returns (j: nat)
      requires Valid()
      ensures var s := View(); j == First(vms, x => Lost(s, x))
    {
      ghost var s := View();
      j := 0;
      while j < |vms| && vms[j] in pool && !(vms[j] in vmData && vmData[vms[j]].state == ERROR)
        invariant j <= |vms|
        invariant forall k :: 0 <= k < j ==> !Lost(s, vms[k])
      {
        j := j + 1;
      }
      FirstIs(vms, x => Lost(s, x), j);
    }

    method RunRuleReplace() returns (how: Ending)
      requires Valid() && WF(View())
      modifies this
      ensures Valid() && vmData == old(vmData)
      ensures Ends(how, RuleReplace(old(View())), old(View()), View())
    {
      BatchesKnown();
      var i := FindLost();
      if i == |batches| { return Quiet; }
      var j := FirstLost(batchData[batches[i]].vms);
      LostIs(View(), batches[i]);
      ReplaceVm(batches[i], j);
      return Ran;
    }

    /** vms.removeAt(j); prepQueue.splice(0, 0, batchId) */
    method ReplaceVm(batchId: nat, j: nat)
      requires batchId in batchData && j < |batchData[batchId].vms|
      modifies this`batchData, this`prepQueue
      ensures var s := old(View()); View() == Unlist(s, batchId, j).(prepQueue := [batchId] + s.prepQueue)
    {
      RemoveVm(batchId, j);
      prepQueue := [batchId] + prepQueue;
    }

    /** vms.removeAt(j) for the VM list of a batch. */
    method RemoveVm(batchId: nat, j: nat)
      requires batchId in batchData && j < |batchData[batchId].vms|
      modifies this`batchData
      ensures View() == Unlist(old(View()), batchId, j)
    {
      var vms := batchData[batchId].vms;
      batchData := batchData[batchId := batchData[batchId].(vms := RemoveAt(vms, j))];
    }

    /** numBooting of runRule_preparation, or None as soon as a FREE VM is met. */
    method CountBooting() returns (n: Option<nat>)
      requires Valid() && WF(View())
      ensures n.None? <==> exists x :: x in pool && InState(View(), x, FREE)
      ensures n.Some? ==> n.value == CountStarting(View(), pool)
    {
      ghost var s := View();
      PoolKnown();
      var numBooting := 0;
      for i := 0 to |pool|
        invariant forall k :: 0 <= k < i ==> !InState(s, pool[k], FREE)
        invariant numBooting == CountStarting(s, pool[..i])
      {
        var vm := vmData[pool[i]];
        assert s.vms[pool[i]] == vm.View();
        if vm.state == FREE {
          assert pool[i] in pool && InState(s, pool[i], FREE);
          return None;
        }
        assert pool[..i + 1][..i] == pool[..i];
        if vm.state == CREATING || vm.state == BOOTING {
          numBooting := numBooting + 1;
        }
      }
      assert pool[..|pool|] == pool;
      return Some(numBooting);
    }

    method RunRuleBoot(now: int) returns (how: Ending)
      requires Valid() && WF(View())
      modifies this
      ensures Valid() && fresh(vmData.Values - old(vmData.Values))
      ensures Ends(how, RuleBoot(old(View()), now), old(View()), View())
    {
      if |prepQueue| != 0 && |pool| < poolSize.max {
        var numBooting := CountBooting();
        if numBooting.Some? && |prepQueue| > numBooting.value {
          BootNewVM(now);
          return Ran;
        }
      }
      return Quiet;
    }

    /** The first lock whose batch has a READY VM. */
    method FindLockable() returns (i: nat)
      requires Valid() && forall p :: p in pendingLocks ==> p.batchId in batchData
      ensures var s := View(); i == First(s.pendingLocks, (p: PendingLock) => HasLockable(s, p.batchId))
    {
      ghost var s := View();
      i := 0;
      while i < |pendingLocks|
        invariant i <= |pendingLocks|
        invariant forall k :: 0 <= k < i ==> !HasLockable(s, pendingLocks[k].batchId)
      {
        var lockable := OffersVm(pendingLocks[i].batchId);
        if lockable { break; }
        i := i + 1;
      }
      FirstIs(s.pendingLocks, (p: PendingLock) => HasLockable(s, p.batchId), i);
    }

    method OffersVm(batchId: nat) returns (lockable: bool)
      requires Valid() && batchId in batchData
      ensures lockable <==> HasLockable(View(), batchId)
    {
      var j := FirstLockable(batchData[batchId].vms);
      LockableIs(View(), batchId);
      lockable := j < |batchData[batchId].vms|;
    }

    method FirstLockable(vms: seq<nat>) returns (j: nat)
      requires Valid()
      ensures var s := View(); j == First(vms, x => Lockable(s, x))
    {
      ghost var s := View();
      j := 0;
      while j < |vms| && !(vms[j] in pool && vms[j] in vmData && vmData[vms[j]].state == READY)
        invariant j <= |vms|
        invariant forall k :: 0 <= k < j ==> !Lockable(s, vms[k])
      {
        j := j + 1;
      }
      FirstIs(vms, x => Lockable(s, x), j);
    }

    method RunRuleAssign(now: int) returns (how: Ending)
      requires Valid() && WF(View())
      modifies this, vmData.Values
      ensures Valid() && vmData == old(vmData)
      ensures Ends(how, RuleAssign(old(View()), now), old(View()), View())
    {
      BatchesKnown();
      var i := FindLockable();
      if i == |pendingLocks| { return Quiet; }
      AssignFirst(i, now, View());
      return Ran;
    }

    /** Serves lock i, the first that can be served in s. */
    method AssignFirst(i: nat, now: int, ghost s: State)
      requires Valid() && s == View() && WF(s) && i < |s.pendingLocks|
      requires i == First(s.pendingLocks, (p: PendingLock) => HasLockable(s, p.batchId))
      modifies this, vmData.Values
      ensures Valid() && vmData == old(vmData)
      ensures RuleAssign(s, now) == Fired(View())
    {
      BatchesKnown();
      var j := FirstOffered(pendingLocks[i].batchId);
      AssignIs(s, i, j, now);
      AssignVm(i, j, now);
    }

    /** The first READY VM of a batch that has one. */
    method FirstOffered(batchId: nat) returns (j: nat)
      requires Valid() && HasLockable(View(), batchId)
      ensures var s := View(); var vms := s.batchData[batchId].vms;
              j < |vms| && vms[j] in s.vms && j == First(vms, x => Lockable(s, x))
    {
      j := FirstLockable(batchData[batchId].vms);
      LockableIs(View(), batchId);
      assert Lockable(View(), batchData[batchId].vms[j]);
    }

    method AssignVm(i: nat, j: nat, now: int)
      requires Valid() && WF(View()) && i < |pendingLocks| && pendingLocks[i].batchId in batchData
      requires var vms := batchData[pendingLocks[i].batchId].vms; j < |vms| && vms[j] in vmData
      requires pendingLocks[i].handle in handleData
      modifies this, vmData.Values
      ensures Valid() && vmData == old(vmData)
      ensures View() == Assign(old(View()), i, j, now)
    {
      var batchId := pendingLocks[i].batchId;
      var vmid := batchData[batchId].vms[j];
      RemoveVm(batchId, j);
      OccupyVM(vmid, now);
      ServeLock(i, vmid);
    }

    method ServeLock(i: nat, vmid: nat)
      requires i < |pendingLocks| && pendingLocks[i].handle in handleData
      modifies this`pendingLocks, this`handleData
      ensures var s := old(View()); var h := s.pendingLocks[i].handle;
              View() == s.(pendingLocks := RemoveAt(s.pendingLocks, i),
                           handleData := s.handleData[h := s.handleData[h].(vmid := Some(vmid))])
    {
      var handle := pendingLocks[i].handle;
      pendingLocks := RemoveAt(pendingLocks, i);
      handleData := handleData[handle := handleData[handle].(vmid := Some(vmid))];
    }

    method RunRuleDropHandle() returns (how: Ending)
      requires Valid() && WF(View())
      modifies this
      ensures Valid() && vmData == old(vmData)
      ensures Ends(how, RuleDropHandle(old(View())), old(View()), View())
    {
      ghost var s := View();
      var i := 0;
      while i < |handles|
        invariant i <= |handles| && View() == s && vmData == old(vmData)
        invariant forall k :: 0 <= k < i ==> !Orphan(s, handles[k])
      {
        var handle := handles[i];
        assert handle in s.handles;
        if handleData[handle].vmid.Some? && handleData[handle].vmid.value !in pool {
          FirstIs(s.handles, h => Orphan(s, h), i);
          handles := RemoveAt(handles, i);
          handleData := handleData - {handle};
          return Ran;
        }
        i := i + 1;
      }
      FirstIs(s.handles, h => Orphan(s, h), i);
      return Quiet;
    }

    method RunRuleTimeout(now: int) returns (how: Ending)
      requires Valid() && WF(View())
      modifies this, vmData.Values
      ensures Valid() && vmData.Values <= old(vmData.Values)
      ensures Ends(how, RuleTimeout(old(View()), now), old(View()), View())
    {
      var i := FirstTimedOut(now);
      if i == |pool| { return Quiet; }
      PoolKnown();
      KillVM(pool[i], now);
      return Ran;
    }

    method RunRuleHandleExpire(now: int) returns (how: Ending)
      requires Valid() && WF(View())
      modifies this, vmData.Values
      ensures Valid() && vmData == old(vmData)
      ensures Ends(how, RuleHandleExpire(old(View()), now), old(View()), View())
    {
      ghost var s := View();
      var i := 0;
      while i < |handles|
        invariant i <= |handles| && View() == s && vmData == old(vmData)
        invariant forall k :: 0 <= k < i ==> !HandleExpired(s, handles[k], now)
      {
        var handleId := handles[i];
        assert handleId in s.handles;
        var handle := handleData[handleId];
        if handle.expireTime.Some? && now > handle.expireTime.value {
          FirstIs(s.handles, h => HandleExpired(s, h, now), i);
          var threw := ReleaseVM(handleId, now);
          return if threw then Raised else Ran;
        }
        i := i + 1;
      }
      FirstIs(s.handles, h => HandleExpired(s, h, now), i);
      return Quiet;
    }
  
    method CountLocks(batchId: nat) returns (n: nat)
      ensures n == LockCount(pendingLocks, batchId)
    {
      n := 0;
      for k := 0 to |pendingLocks|
        invariant n == LockCount(pendingLocks[..k], batchId)
      {
        assert LockBatches(pendingLocks[..k + 1]) == LockBatches(pendingLocks[..k]) + [pendingLocks[k].batchId];
        if pendingLocks[k].batchId == batchId {
          n := n + 1;
        }
      }
      assert pendingLocks[..|pendingLocks|] == pendingLocks;
    }

    /** How often a batch id is queued, and where it is queued last. */
    method CountQueued(batchId: nat) returns (n: nat, last: int)
      ensures n == multiset(prepQueue)[batchId]
      ensures n > 0 ==> last == LastIndex(prepQueue, batchId)
    {
      n, last := 0, -1;
      for k := 0 to |prepQueue|
        invariant n == multiset(prepQueue[..k])[batchId]
        invariant n > 0 ==> 0 <= last < k && prepQueue[last] == batchId
        invariant forall j :: 0 <= j < k && last < j ==> prepQueue[j] != batchId
      {
        assert prepQueue[..k + 1] == prepQueue[..k] + [prepQueue[k]];
        if prepQueue[k] == batchId {
          n := n + 1;
          last := k;
        }
      }
      assert prepQueue[..|prepQueue|] == prepQueue;
    }

    /** The index of the first batch with VMs and preparations that do not match its size and locks. */
    method FindUnbalanced() returns (i: nat)
      requires Valid() && forall b :: b in batches ==> b in batchData
      ensures var s := View(); i == First(s.batches, b => Unbalanced(s, b))
    {
      ghost var s := View();
      i := 0;
      while i < |batches|
        invariant i <= |batches|
        invariant forall k :: 0 <= k < i ==> !Unbalanced(s, batches[k])
      {
        var unbalanced := IsUnbalanced(batches[i]);
        if unbalanced { break; }
        i := i + 1;
      }
      FirstIs(s.batches, b => Unbalanced(s, b), i);
    }

    /** (size + pending locks) - (VMs + queued preparations) of a batch is not zero. */
    method IsUnbalanced(batchId: nat) returns (b: bool)
      requires batchId in batchData
      ensures b <==> Unbalanced(View(), batchId)
    {
      var locks := CountLocks(batchId);
      var queued, _ := CountQueued(batchId);
      b := batchData[batchId].size + locks != |batchData[batchId].vms| + queued;
    }

    method RunRuleRelease(now: int) returns (how: Ending)
      requires Valid() && WF(View())
      modifies this, vmData.Values
      ensures Valid() && vmData == old(vmData)
      ensures Ends(how, RuleRelease(old(View()), now), old(View()), View())
    {
      BatchesKnown();
      var i := FindUnbalanced();
      if i == |batches| { return Quiet; }
      how := Rebalance(batches[i], now);
    }

    /** One step towards a zero balance. */
    method Rebalance(batchId: nat, now: int) returns (how: Ending)
      requires Valid() && Unbalanced(View(), batchId)
      modifies this, vmData.Values
      ensures Valid() && vmData == old(vmData)
      ensures var s := old(View());
              Ends(how,
                   if Ledger(s, batchId) > 0 then Fired(s.(prepQueue := s.prepQueue + [batchId]))
                   else if batchId in s.prepQueue
                   then Fired(s.(prepQueue := RemoveAt(s.prepQueue, LastIndex(s.prepQueue, batchId))))
                   else ReleaseOne(s, batchId, now),
                   s, View())
    {
      var batch := batchData[batchId];
      var locks := CountLocks(batchId);
      var queued, last := CountQueued(batchId);
      if batch.size + locks < |batch.vms| + queued {
        how := Reduce(batchId, queued, last, now);
      } else {
        SetQueue(prepQueue + [batchId]);
        return Ran;
      }
    }

    /** Takes back a queued preparation, the last one, or else a VM. */
    method Reduce(batchId: nat, queued: nat, last: int, now: int) returns (how: Ending)
      requires Valid() && batchId in batchData && Ledger(View(), batchId) < 0
      requires queued == multiset(prepQueue)[batchId] && (queued > 0 ==> last == LastIndex(prepQueue, batchId))
      modifies this, vmData.Values
      ensures Valid() && vmData == old(vmData)
      ensures var s := old(View());
              Ends(how,
                   if batchId in s.prepQueue
                   then Fired(s.(prepQueue := RemoveAt(s.prepQueue, LastIndex(s.prepQueue, batchId))))
                   else ReleaseOne(s, batchId, now),
                   s, View())
    {
      if queued > 0 {
        SetQueue(RemoveAt(prepQueue, last));
        return Ran;
      }
      how := ReleaseVmOf(batchId, now);
    }

    method SetQueue(queue: seq<nat>)
      modifies this`prepQueue
      ensures View() == old(View()).(prepQueue := queue)
    {
      prepQueue := queue;
    }

    /** Takes one VM from a batch that has too many: a WAIT one is just dropped, another is cleaned up. */
    method ReleaseVmOf(batchId: nat, now: int) returns (how: Ending)
      requires Valid() && batchId in batchData && batchData[batchId].vms != []
      modifies this, vmData.Values
      ensures Valid() && vmData == old(vmData) && how != Quiet
      ensures Ends(how, ReleaseOne(old(View()), batchId, now), old(View()), View())
    {
      var vms := batchData[batchId].vms;
      var j := FirstWaiting(vms);
      if j < |vms| {
        if vms[j] !in vmData { return Raised; }
        RemoveVm(batchId, j);
        return Ran;
      }
      var threw := CleanupFirst(batchId, now);
      return if threw then Raised else Ran;
    }

    /** cleanupVM(batch.vms.removeAt(0)) */
    method CleanupFirst(batchId: nat, now: int) returns (threw: bool)
      requires Valid() && batchId in batchData && batchData[batchId].vms != []
      modifies this, vmData.Values
      ensures Valid() && vmData == old(vmData)
      ensures var s := old(View());
              Scheduler.CleanupVM(Unlist(s, batchId, 0), s.batchData[batchId].vms[0], now)
              == if threw then Threw(View()) else Done(View())
    {
      var vmid := batchData[batchId].vms[0];
      RemoveVm(batchId, 0);
      threw := CleanupVM(vmid, now);
    }

    /** The first VM that is WAIT, or whose missing record makes the search throw. */
    method FirstWaiting(vms: seq<nat>) returns (j: nat)
      requires Valid()
      ensures var s := View(); j == First(vms, x => x !in s.vms || InState(s, x, WAIT))
    {
      ghost var s := View();
      j := 0;
      while j < |vms| && vms[j] in vmData && vmData[vms[j]].state != WAIT
        invariant j <= |vms|
        invariant forall k :: 0 <= k < j ==> vms[k] in s.vms && !InState(s, vms[k], WAIT)
      {
        j := j + 1;
      }
      FirstIs(vms, x => x !in s.vms || InState(s, x, WAIT), j);
    }

    method IsLockPending(batchId: nat) returns (lockPending: bool)
      ensures lockPending <==> LockPending(View(), batchId)
    {
      for j := 0 to |pendingLocks|
        invariant forall k :: 0 <= k < j ==> pendingLocks[k].batchId != batchId
      {
        if pendingLocks[j].batchId == batchId {
          assert pendingLocks[j] in pendingLocks;
          return true;
        }
      }
      return false;
    }

    /** The first batch that is cancelled and has no VM and no pending lock left. */
    method FindDeletable() returns (i: nat)
      requires Valid() && forall b :: b in batches ==> b in batchData
      ensures var s := View(); i == First(s.batches, b => Deletable(s, b))
    {
      ghost var s := View();
      i := 0;
      while i < |batches|
        invariant i <= |batches|
        invariant forall k :: 0 <= k < i ==> !Deletable(s, batches[k])
      {
        var batch := batchData[batches[i]];
        if batch.markDelete && batch.size == 0 && |batch.vms| == 0 {
          var lockPending := IsLockPending(batches[i]);
          if !lockPending { break; }
        }
        i := i + 1;
      }
      FirstIs(s.batches, b => Deletable(s, b), i);
    }

    method RunRuleBatchCleanup() returns (how: Ending)
      requires Valid() && WF(View())
      modifies this
      ensures Valid() && vmData == old(vmData)
      ensures Ends(how, RuleBatchCleanup(old(View())), old(View()), View())
    {
      BatchesKnown();
      var i := FindDeletable();
      if i == |batches| { return Quiet; }
      DeleteBatch(batches[i]);
      return Ran;
    }

    method DeleteBatch(batchId: nat)
      modifies this`batches, this`batchData
      ensures var s := old(View());
              View() == s.(batches := Without(s.batches, batchId), batchData := s.batchData - {batchId})
    {
      batches := Remove(batches, batchId);
      batchData := batchData - {batchId};
    }

    // -------------------------------------------------------------- the rule engine

    method RunRule(rule: Rule, now: int) returns (how: Ending)
      requires Valid() && WF(View())
      modifies this, vmData.Values
      ensures Valid() && fresh(vmData.Values - old(vmData.Values))
      ensures Ends(how, Try(old(View()), now, rule), old(View()), View())
    {
      match rule {
        case PoolRule => how := RunRulePool(now);
        case PrepareRule => how := RunRulePrepare(now);
        case ReplaceRule => how := RunRuleReplace();
        case BootRule => how := RunRuleBoot(now);
        case AssignRule => how := RunRuleAssign(now);
        case DropHandleRule => how := RunRuleDropHandle();
        case ReleaseRule => how := RunRuleRelease(now);
        case TimeoutRule => how := RunRuleTimeout(now);
        case BatchCleanupRule => how := RunRuleBatchCleanup();
        case HandleExpireRule => how := RunRuleHandleExpire(now);
      }
    }

    /** The chain of || in executeRules: each rule in turn until one does something. */
    method RunRuleChain(rules: seq<Rule>, now: int) returns (how: Ending)
      requires Valid() && WF(View())
      modifies this, vmData.Values
      ensures Valid() && fresh(vmData.Values - old(vmData.Values))
      ensures Ends(how, RunFrom(old(View()), now, rules), old(View()), View())
      decreases |rules|
    {
      if rules == [] { return Quiet; }
      how := RunRule(rules[0], now);
      if how == Quiet {
        how := RunRuleChain(rules[1..], now);
      }
    }

    method ExecuteRules(now: int) returns (threw: bool)
      requires Valid() && WF(View())
      modifies this, vmData.Values
      ensures Valid() && fresh(vmData.Values - old(vmData.Values))
      ensures Scheduler.ExecuteRules(old(View()), now) == if threw then Threw(View()) else Done(View())
    {
      checkRulesScheduled := false;
      assert WF(View());
      var how := RunRuleChain(ORDER, now);
      if how == Raised { return true; }
      if how == Ran {
        CheckRules();
      }
      threw := false;
    }
  
    /** The event loop while nothing else happens: it comes to rest as Settle says. */
    method RunToRest(now: int) returns (threw: bool)
      requires Valid() && WF(View()) && Inv(View())
      modifies this, vmData.Values
      ensures Valid()
      ensures Settle(old(View()), now) == if threw then Threw(View()) else Done(View())
      decreases |handles|, |pendingLocks|, |Killable(View(), now)|, |batches|,
                Imbalance(View(), batches), |ListedVms(View())|, Room(View()), checkRulesScheduled
    {
      if !checkRulesScheduled { return false; }
      ghost var s := View();
      threw := ExecuteRules(now);
      SettleStep(s, now);
      if threw { return; }
      if checkRulesScheduled {
        ExecuteDescends(s, now);
        threw := RunToRest(now);
      }
    }

    // -------------------------------------------------------------- restart

    /** loadAllStates on the state a checkpoint holds: fresh records for the pool, ERROR unless stable. */
    method LoadAllStates(saved: State, now: int)
      requires WF(saved) && saved.cfg == cfg
      modifies this
      ensures Valid() && fresh(vmData.Values)
      ensures View() == Load(saved, now)
    {
      Reset();
      pool, nextVMID := saved.pool, saved.nextVMID;
      LoadBatches(saved);
      LoadHandles(saved);
      LoadLocks(saved);
      ReloadRecords(saved, now);
    }

    method Reset()
      modifies this
      ensures Valid() && vmData == map[]
      ensures View() == old(View()).(vms := map[], rpc := {}, ops := {}, restored := true, scheduled := false)
    {
      vmData, rpc, ops, restored, checkRulesScheduled := map[], {}, {}, true, false;
    }

    method LoadBatches(saved: State)
      modifies this`batches, this`batchData, this`nextBatchID, this`prepQueue
      ensures View() == old(View()).(batches := saved.batches, batchData := saved.batchData,
                                     nextBatchID := saved.nextBatchID, prepQueue := saved.prepQueue)
    {
      batches, batchData, nextBatchID, prepQueue := saved.batches, saved.batchData, saved.nextBatchID, saved.prepQueue;
    }

    method LoadHandles(saved: State)
      modifies this`handles, this`handleData, this`nextHandle
      ensures View() == old(View()).(handles := saved.handles, handleData := saved.handleData,
                                     nextHandle := saved.nextHandle)
    {
      handles, handleData, nextHandle := saved.handles, saved.handleData, saved.nextHandle;
    }

    method LoadLocks(saved: State)
      modifies this`pendingLocks, this`poolSize
      ensures View() == old(View()).(pendingLocks := saved.pendingLocks, size := saved.size)
    {
      pendingLocks, poolSize := saved.pendingLocks, saved.size;
    }

    method ReloadRecords(saved: State, now: int)
      requires WF(saved) && vmData == map[] && rpc == {}
      modifies this`vmData, this`rpc
      ensures Valid() && fresh(vmData.Values)
      ensures Records() == Load(saved, now).vms && rpc == Load(saved, now).rpc
    {
      for i := 0 to |saved.pool|
        invariant Valid() && fresh(vmData.Values)
        invariant Records() == ReloadedVms(saved, saved.pool[..i], now)
        invariant rpc == Stubs(saved, saved.pool[..i])
      {
        var vmid := saved.pool[i];
        assert vmid in saved.pool;
        ReloadNext(saved, i, now);
        ReloadOne(vmid, saved.vms[vmid], now);
      }
      assert saved.pool[..|saved.pool|] == saved.pool;
    }

    method ReloadOne(vmid: nat, saved: Vm, now: int)
      requires Valid()
      modifies this`vmData, this`rpc
      ensures Valid() && fresh(vmData.Values - old(vmData.Values))
      ensures Records() == old(Records())[vmid := Reload(saved, now)]
      ensures rpc == old(rpc) + if Stable(saved.state) then {vmid} else {}
    {
      var vm := ReloadVm(saved, now);
      vmData := vmData[vmid := vm];
      if Stable(saved.state) {
        rpc := rpc + {vmid};
      }
    }

    method ReloadVm(saved: Vm, now: int) returns (vm: VmInfo)
      ensures fresh(vm) && vm.View() == Reload(saved, now)
    {
      vm := new VmInfo(saved.state, now);
      vm.hasServer := saved.hasServer;
      if vm.state !in {FREE, READY, OCCUPIED} {
        var _ := vm.Set(ERROR, now);
      }
    }
  }
}
