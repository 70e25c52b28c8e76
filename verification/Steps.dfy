/** Every operation of the scheduler keeps the invariant. Each lemma first says how the
    operation changes the view of every VM. */
module Steps {
  import opened Collections
  import opened VerStates
  import opened Scheduler
  import opened Invariant

  /** An operation that changes the view of at most one VM keeps the invariant if that VM stays well. */
  lemma OneVmChanges(s: State, t: State, y: nat)
    requires Inv(s) && Structure(t)
    requires s.nextVMID <= t.nextVMID && y < t.nextVMID
    requires forall x: nat :: x != y ==> ViewOf(t, x) == ViewOf(s, x)
    requires VmOk(ViewOf(t, y))
    ensures Inv(t)
  {
    forall x: nat ensures VmOk(ViewOf(t, x)) && (x >= t.nextVMID ==> Unseen(ViewOf(t, x))) {
      assert VmOk(ViewOf(s, x)) && (x >= s.nextVMID ==> Unseen(ViewOf(s, x)));
    }
  }

  lemma Known(s: State, x: nat)
    requires Inv(s) && !Unseen(ViewOf(s, x))
    ensures x < s.nextVMID
  {
  }

  lemma BootInv(s: State, now: int)
    requires Inv(s)
    ensures Inv(BootNewVM(s, now))
  {
    var t := BootNewVM(s, now);
    var y := s.nextVMID;
    OpsChange(s.ops, Boot(y));
    assert VmOk(ViewOf(s, y)) && Unseen(ViewOf(s, y));
    assert ViewOf(t, y) == VmView(true, Some(NewVm(CREATING, now)), y in s.rpc, {Boot(y)}, {}, {}, s.restored);
    OneVmChanges(s, t, y);
  }

  lemma KillView(s: State, y: nat, now: int)
    requires y in s.vms
    ensures forall x: nat :: x != y ==> ViewOf(KillVM(s, y, now), x) == ViewOf(s, x)
    ensures var v := ViewOf(s, y);
            ViewOf(KillVM(s, y, now), y)
            == if s.vms[y].hasServer
               then v.(inPool := false, vm := Some(s.vms[y].Set(KILLING, now)), ops := v.ops + {Kill(y)})
               else v.(inPool := false, vm := None)
  {
    OpsChange(s.ops, Kill(y));
  }

  lemma KillInv(s: State, y: nat, now: int)
    requires Inv(s) && y in s.vms
    ensures Inv(KillVM(s, y, now))
  {
    WithoutDistinct(s.pool, y);
    KillView(s, y, now);
    assert VmOk(ViewOf(s, y));
    Known(s, y);
    OneVmChanges(s, KillVM(s, y, now), y);
  }

  lemma PrepareView(s: State, y: nat, now: int)
    requires WF(s) && s.prepQueue != [] && y in s.vms && y in s.rpc
    ensures forall x: nat :: x != y ==> ViewOf(PrepareNext(s, y, now), x) == ViewOf(s, x)
    ensures var v := ViewOf(s, y);
            var b := s.prepQueue[0];
            ViewOf(PrepareNext(s, y, now), y)
            == v.(vm := Some(s.vms[y].Set(WAIT, now)),
                  ops := v.ops + {Prepare(y, s.vms[y].version + 1, b)}, batches := v.batches + {b})
  {
    var b := s.prepQueue[0];
    var batch := s.batchData[b];
    OpsChange(s.ops, Prepare(y, s.vms[y].version + 1, b));
    BatchChange(s.batchData, b, batch.(vms := batch.vms + [y]));
  }

  /** A FREE VM has no owner and no operation, so it can be prepared for a batch. */
  lemma PreparedOk(v: VmView, y: nat, b: nat, now: int)
    requires VmOk(v) && v.inPool && v.vm.value.state == FREE
    ensures v.batches == {} && v.handles == {} && NoTask(v) && v.stub
    ensures VmOk(v.(vm := Some(v.vm.value.Set(WAIT, now)),
                    ops := v.ops + {Prepare(y, v.vm.value.version + 1, b)}, batches := v.batches + {b}))
  {
    var w := v.(vm := Some(v.vm.value.Set(WAIT, now)),
                ops := v.ops + {Prepare(y, v.vm.value.version + 1, b)}, batches := v.batches + {b});
    assert Prepare(y, v.vm.value.version + 1, b) in w.ops;
    assert TaskFits(w) && TokensFit(w);
  }

  lemma PrepareStructure(s: State, y: nat, now: int)
    requires Structure(s) && WF(s) && s.prepQueue != [] && y in s.vms && y in s.rpc
    requires ViewOf(s, y).batches == {}
    ensures Structure(PrepareNext(s, y, now))
  {
    assert s.prepQueue[0] !in ViewOf(s, y).batches;
  }

  lemma PrepareInv(s: State, y: nat, now: int)
    requires Inv(s) && WF(s) && s.prepQueue != [] && y in s.pool && InState(s, y, FREE)
    ensures Inv(PrepareNext(s, y, now))
  {
    assert VmOk(ViewOf(s, y));
    Known(s, y);
    PreparedOk(ViewOf(s, y), y, s.prepQueue[0], now);
    PrepareView(s, y, now);
    PrepareStructure(s, y, now);
    OneVmChanges(s, PrepareNext(s, y, now), y);
  }

  // ---------------------------------------------------------------- clean-up

  lemma CleanupView(s: State, y: nat, now: int)
    requires y in s.vms && y in s.rpc
    ensures CleanupVM(s, y, now).Done?
    ensures forall x: nat :: x != y ==> ViewOf(CleanupVM(s, y, now).next, x) == ViewOf(s, x)
    ensures var v := ViewOf(s, y);
            ViewOf(CleanupVM(s, y, now).next, y)
            == v.(vm := Some(s.vms[y].Set(WAIT, now)), ops := v.ops + {Cleanup(y, s.vms[y].version + 1)})
  {
    OpsChange(s.ops, Cleanup(y, s.vms[y].version + 1));
  }

  /** What a VM must look like for its clean-up to be sound: no operation outstanding, no owner,
      and every captured token no newer than its version. */
  ghost predicate CanClean(v: VmView) {
    && v.stub && v.vm.Some?
    && NoTask(v) && v.batches == {} && v.handles == {}
    && TokensFit(v)
  }

  lemma CleanedOk(v: VmView, y: nat, now: int)
    requires CanClean(v)
    ensures VmOk(v.(vm := Some(v.vm.value.Set(WAIT, now)), ops := v.ops + {Cleanup(y, v.vm.value.version + 1)}))
  {
    var w := v.(vm := Some(v.vm.value.Set(WAIT, now)), ops := v.ops + {Cleanup(y, v.vm.value.version + 1)});
    assert Cleanup(y, v.vm.value.version + 1) in w.ops;
    assert TaskFits(w) && TokensFit(w);
  }

  // ---------------------------------------------------------------- batches and locks

  lemma SameViews(s: State, t: State)
    requires Inv(s) && Structure(t) && s.nextVMID == t.nextVMID
    requires forall x: nat :: ViewOf(t, x) == ViewOf(s, x)
    ensures Inv(t)
  {
    forall x: nat ensures VmOk(ViewOf(t, x)) && (x >= t.nextVMID ==> Unseen(ViewOf(t, x))) {
      assert VmOk(ViewOf(s, x)) && (x >= s.nextVMID ==> Unseen(ViewOf(s, x)));
    }
  }

  lemma BatchKeep(batchData: map<nat, Batch>, b: nat, batch: Batch)
    requires if b in batchData then batch.vms == batchData[b].vms else batch.vms == []
    ensures forall x: nat :: BatchesOf(batchData[b := batch], x) == BatchesOf(batchData, x)
  {
    BatchChange(batchData, b, batch);
    forall x: nat ensures BatchesOf(batchData[b := batch], x) == BatchesOf(batchData, x) {
      assert b in BatchesOf(batchData, x) <==> b in batchData && x in batchData[b].vms;
    }
  }

  lemma HandleKeep(handleData: map<nat, HandleInfo>, h: nat, info: HandleInfo)
    requires if h in handleData then info.vmid == handleData[h].vmid else info.vmid.None?
    ensures forall x: nat :: HandlesOf(handleData[h := info], x) == HandlesOf(handleData, x)
  {
    HandleChange(handleData, h, info);
    forall x: nat ensures HandlesOf(handleData[h := info], x) == HandlesOf(handleData, x) {
      assert h in HandlesOf(handleData, x) <==> h in handleData && handleData[h].vmid == Some(x);
    }
  }

  lemma PrepareBatchInv(s: State, size: nat)
    requires Inv(s)
    ensures Inv(PrepareBatch(s, size))
  {
    BatchKeep(s.batchData, s.nextBatchID, Batch(size, [], false));
    SameViews(s, PrepareBatch(s, size));
  }

  lemma HandlesNew(handles: seq<nat>, handleData: map<nat, HandleInfo>, next: nat, locks: seq<PendingLock>, b: nat)
    requires HandlesOk(handles, handleData, next, locks)
    ensures HandlesOk(handles + [next], handleData[next := HandleInfo(None, None)], next + 1,
                      locks + [PendingLock(b, next)])
  {
    assert forall i :: 0 <= i < |handles| ==> handles[i] in handles;
    assert forall i :: 0 <= i < |locks| ==> locks[i] in locks;
    var r := locks + [PendingLock(b, next)];
    assert PendingLock(b, next) in r;
    forall k | k in handleData && handleData[k].vmid.None? ensures PendingHandle(r, k) {
      assert PendingHandle(locks, k);
      var p :| p in locks && p.handle == k;
      assert p in r;
    }
  }

  lemma LockInv(s: State, b: nat)
    requires Inv(s)
    ensures Inv(LockVM(s, b).next)
  {
    var t := LockVM(s, b).next;
    if b in s.batchData {
      BatchKeep(s.batchData, b, t.batchData[b]);
      HandleKeep(s.handleData, s.nextHandle, HandleInfo(None, None));
      HandlesNew(s.handles, s.handleData, s.nextHandle, s.pendingLocks, b);
    }
    SameViews(s, t);
  }

  lemma CancelInv(s: State, b: nat)
    requires Inv(s)
    ensures Inv(CancelBatch(s, b).next)
  {
    if b in s.batchData {
      BatchKeep(s.batchData, b, s.batchData[b].(size := 0, markDelete := true));
    }
    SameViews(s, CancelBatch(s, b).next);
  }

  lemma SetPoolSizeInv(s: State, min: nat, max: nat, linger: int)
    requires Inv(s)
    ensures Inv(SetPoolSize(s, min, max, linger))
  {
    SameViews(s, SetPoolSize(s, min, max, linger));
  }

  lemma RenewInv(s: State, h: nat, time: int, now: int)
    requires Inv(s)
    ensures Inv(RenewExpire(s, h, time, now))
  {
    var t := RenewExpire(s, h, time, now);
    if h in s.handles {
      HandleKeep(s.handleData, h, t.handleData[h]);
    }
    SameViews(s, t);
  }

  /** Removing one pending lock leaves the locks of the other handles, still in order. */
  lemma LocksWithout(locks: seq<PendingLock>, i: nat)
    requires i < |locks|
    requires forall j, k :: 0 <= j < k < |locks| ==> locks[j].handle < locks[k].handle
    ensures var r := RemoveAt(locks, i);
            && (forall j, k :: 0 <= j < k < |r| ==> r[j].handle < r[k].handle)
            && (forall p :: p in r <==> p in locks && p.handle != locks[i].handle)
  {
    var r := RemoveAt(locks, i);
    forall p | p in locks && p.handle != locks[i].handle ensures p in r {
      var k :| 0 <= k < |locks| && locks[k] == p;
      assert r[if k < i then k else k - 1] == p;
    }
  }

  /** Assigning the handle of pending lock i keeps handles and locks in step. */
  lemma HandlesStep(handles: seq<nat>, handleData: map<nat, HandleInfo>, next: nat, locks: seq<PendingLock>,
                    i: nat, info: HandleInfo)
    requires HandlesOk(handles, handleData, next, locks) && i < |locks| && info.vmid.Some?
    ensures HandlesOk(handles, handleData[locks[i].handle := info], next, RemoveAt(locks, i))
  {
    var r := RemoveAt(locks, i);
    var h := locks[i].handle;
    LocksWithout(locks, i);
    assert locks[i] in locks;
    forall k | k in handleData && k != h && handleData[k].vmid.None? ensures PendingHandle(r, k) {
      assert PendingHandle(locks, k);
      var p :| p in locks && p.handle == k;
      assert p in r;
    }
  }

  /** Dropping an assigned handle. */
  lemma HandlesDrop(handles: seq<nat>, handleData: map<nat, HandleInfo>, next: nat, locks: seq<PendingLock>, h: nat)
    requires HandlesOk(handles, handleData, next, locks) && h in handleData && handleData[h].vmid.Some?
    ensures HandlesOk(Without(handles, h), handleData - {h}, next, locks)
  {
    WithoutIncreasing(handles, h);
  }

  lemma ReleaseInv(s: State, h: nat, now: int)
    requires Inv(s)
    ensures Inv(ReleaseVM(s, h, now).next)
  {
    if h in s.handleData {
      if s.handleData[h].vmid.Some? {
        ReleaseAssignedInv(s, h, now);
      } else {
        ReleaseWaitingInv(s, h, now);
      }
    }
  }

  lemma ReleaseWaitingInv(s: State, h: nat, now: int)
    requires Inv(s) && h in s.handleData && s.handleData[h].vmid.None?
    ensures Inv(ReleaseVM(s, h, now).next)
  {
    var i := ReleaseWaitingIs(s, h, now);
    HandlesForget(s.handles, s.handleData, s.nextHandle, s.pendingLocks, i);
    LocksWithout(s.pendingLocks, i);
    ForgetViews(s, h);
    SameViews(s, ReleaseVM(s, h, now).next);
  }

  /** Releasing a waiting handle forgets it and its one pending lock. */
  lemma ReleaseWaitingIs(s: State, h: nat, now: int) returns (i: nat)
    requires HandlesOk(s.handles, s.handleData, s.nextHandle, s.pendingLocks)
    requires h in s.handleData && s.handleData[h].vmid.None?
    ensures i < |s.pendingLocks| && s.pendingLocks[i].handle == h
    ensures ReleaseVM(s, h, now)
         == Done(ForgetHandle(s, h).(pendingLocks := RemoveAt(s.pendingLocks, i), scheduled := true))
  {
    assert PendingHandle(s.pendingLocks, h);
    i := First(s.pendingLocks, (p: PendingLock) => p.handle == h);
  }

  lemma ForgetViews(s: State, h: nat)
    requires h in s.handleData && s.handleData[h].vmid.None?
    ensures forall x: nat :: HandlesOf(s.handleData - {h}, x) == HandlesOf(s.handleData, x)
  {
    HandleChange(s.handleData, h, s.handleData[h]);
    forall x: nat ensures HandlesOf(s.handleData - {h}, x) == HandlesOf(s.handleData, x) {
      assert h !in HandlesOf(s.handleData, x);
    }
  }

  /** Dropping the handle of pending lock i together with the lock. */
  lemma HandlesForget(handles: seq<nat>, handleData: map<nat, HandleInfo>, next: nat, locks: seq<PendingLock>, i: nat)
    requires HandlesOk(handles, handleData, next, locks) && i < |locks|
    ensures var h := locks[i].handle;
            HandlesOk(Without(handles, h), handleData - {h}, next, RemoveAt(locks, i))
  {
    var h := locks[i].handle;
    var info := HandleInfo(Some(0), None);
    HandlesStep(handles, handleData, next, locks, i, info);
    HandlesDrop(handles, handleData[h := info], next, RemoveAt(locks, i), h);
    assert handleData[h := info] - {h} == handleData - {h};
  }

  /** Releasing the handle of a VM: its clean-up when it has a record and a stub. */
  lemma ReleasedOk(v: VmView, y: nat, now: int)
    requires VmOk(v) && v.handles != {} && v.vm.Some?
    ensures v.stub ==> CanClean(v.(handles := {}))
    ensures !v.stub ==> VmOk(v.(vm := Some(v.vm.value.Set(WAIT, now))))
  {
  }

  lemma ReleaseAssignedInv(s: State, h: nat, now: int)
    requires Inv(s) && h in s.handleData && s.handleData[h].vmid.Some?
    ensures Inv(ReleaseVM(s, h, now).next)
  {
    var y := s.handleData[h].vmid.value;
    assert VmOk(ViewOf(s, y)) && h in ViewOf(s, y).handles;
    Known(s, y);
    if y in s.vms && y in s.rpc {
      ReleaseCleanedInv(s, h, now);
    } else if y in s.vms {
      ReleasedOk(ViewOf(s, y), y, now);
      WaitView(s, y, now);
      OneVmChanges(s, SetVm(s, y, WAIT, now), y);
    }
  }

  lemma WaitView(s: State, y: nat, now: int)
    requires y in s.vms
    ensures var t := SetVm(s, y, WAIT, now);
            && (forall x: nat :: x != y ==> ViewOf(t, x) == ViewOf(s, x))
            && ViewOf(t, y) == ViewOf(s, y).(vm := Some(s.vms[y].Set(WAIT, now)))
  {
  }

  lemma ReleaseCleanedInv(s: State, h: nat, now: int)
    requires Inv(s) && h in s.handleData && s.handleData[h].vmid.Some?
    requires var y := s.handleData[h].vmid.value; y in s.vms && y in s.rpc
    ensures Inv(ReleaseVM(s, h, now).next)
  {
    var y := s.handleData[h].vmid.value;
    var v := ViewOf(s, y);
    assert VmOk(v) && h in v.handles;
    Known(s, y);
    ReleasedOk(v, y, now);
    ReleaseView(s, h, now);
    HandlesDrop(s.handles, s.handleData, s.nextHandle, s.pendingLocks, h);
    CleanedOk(v.(handles := {}), y, now);
    OneVmChanges(s, ReleaseVM(s, h, now).next, y);
  }

  lemma ReleaseView(s: State, h: nat, now: int)
    requires h in s.handleData && s.handleData[h].vmid.Some?
    requires var y := s.handleData[h].vmid.value;
             y in s.vms && y in s.rpc && AtMostOne(ViewOf(s, y).handles)
    ensures var y := s.handleData[h].vmid.value;
            var t := ReleaseVM(s, h, now).next;
            var v := ViewOf(s, y);
            && (forall x: nat :: x != y ==> ViewOf(t, x) == ViewOf(s, x))
            && ViewOf(t, y) == v.(vm := Some(s.vms[y].Set(WAIT, now)),
                                  ops := v.ops + {Cleanup(y, s.vms[y].version + 1)}, handles := {})
  {
    var y := s.handleData[h].vmid.value;
    CleanupView(s, y, now);
    HandleChange(s.handleData, h, s.handleData[h]);
    assert h in ViewOf(s, y).handles;
    assert ViewOf(s, y).handles - {h} == {};
    forall x: nat | x != y ensures HandlesOf(s.handleData - {h}, x) == HandlesOf(s.handleData, x) {
      assert h !in HandlesOf(s.handleData, x);
    }
  }

  // ---------------------------------------------------------------- rules

  lemma UnlistView(s: State, b: nat, j: nat)
    requires b in s.batchData && j < |s.batchData[b].vms| && Distinct(s.batchData[b].vms)
    requires AtMostOne(ViewOf(s, s.batchData[b].vms[j]).batches)
    ensures var y := s.batchData[b].vms[j];
            && (forall x: nat :: x != y ==> ViewOf(Unlist(s, b, j), x) == ViewOf(s, x))
            && ViewOf(Unlist(s, b, j), y) == ViewOf(s, y).(batches := {})
  {
    var vms := s.batchData[b].vms;
    var y := vms[j];
    RemoveAtDistinct(vms, j);
    BatchChange(s.batchData, b, s.batchData[b].(vms := RemoveAt(vms, j)));
    assert b in ViewOf(s, y).batches;
    forall x: nat | x != y ensures BatchesOf(Unlist(s, b, j).batchData, x) == BatchesOf(s.batchData, x) {
      assert b in BatchesOf(s.batchData, x) <==> x in vms;
    }
  }

  /** A VM that is gone, in ERROR or still WAIT may leave its batch without being cleaned up. */
  lemma UnlistedOk(v: VmView)
    requires VmOk(v) && v.batches != {}
    requires v.inPool ==> v.vm.value.state in {ERROR, WAIT}
    ensures VmOk(v.(batches := {}))
  {
    var w := v.(batches := {});
    if Awaited(v) {
      var op :| op in v.ops && IsTask(op) && v.vm.Some? && op.ver == v.vm.value.version;
      assert op in w.ops;
    }
  }

  lemma UnlistInv(s: State, b: nat, j: nat)
    requires Inv(s) && b in s.batchData && j < |s.batchData[b].vms|
    requires var y := s.batchData[b].vms[j]; Lost(s, y) || InState(s, y, WAIT)
    ensures Inv(Unlist(s, b, j))
  {
    var y := s.batchData[b].vms[j];
    assert VmOk(ViewOf(s, y)) && b in ViewOf(s, y).batches;
    Known(s, y);
    UnlistedOk(ViewOf(s, y));
    UnlistView(s, b, j);
    RemoveAtDistinct(s.batchData[b].vms, j);
    OneVmChanges(s, Unlist(s, b, j), y);
  }

  lemma ReplaceInv(s: State)
    requires Inv(s) && WF(s) && RuleReplace(s).Fired?
    ensures Inv(RuleReplace(s).next)
  {
    var b := s.batches[First(s.batches, b => HasLost(s, b))];
    var j := First(s.batchData[b].vms, x => Lost(s, x));
    UnlistInv(s, b, j);
    SameViews(Unlist(s, b, j), RuleReplace(s).next);
  }

  lemma AssignedOk(v: VmView, h: nat, now: int)
    requires VmOk(v) && v.inPool && v.vm.value.state == READY
    ensures VmOk(v.(vm := Some(v.vm.value.Set(OCCUPIED, now)), batches := {}, handles := {h}))
  {
  }

  lemma AssignInv(s: State, now: int)
    requires Inv(s) && WF(s) && RuleAssign(s, now).Fired?
    ensures Inv(RuleAssign(s, now).next)
    ensures var p := s.pendingLocks[First(s.pendingLocks, (p: PendingLock) => HasLockable(s, p.batchId))];
            var x := s.batchData[p.batchId].vms[First(s.batchData[p.batchId].vms, x => Lockable(s, x))];
            && Listed(s, p.batchId, x) && x in s.pool && InState(s, x, READY)
            && ViewOf(RuleAssign(s, now).next, x)
               == ViewOf(s, x).(vm := Some(s.vms[x].Set(OCCUPIED, now)), batches := {}, handles := {p.handle})
            && (forall y: nat :: y != x ==> ViewOf(RuleAssign(s, now).next, y) == ViewOf(s, y))
  {
    var i := First(s.pendingLocks, (p: PendingLock) => HasLockable(s, p.batchId));
    var PendingLock(b, h) := s.pendingLocks[i];
    var j := First(s.batchData[b].vms, x => Lockable(s, x));
    var y := s.batchData[b].vms[j];
    assert VmOk(ViewOf(s, y));
    Known(s, y);
    AssignView(s, i, j, now);
    AssignedOk(ViewOf(s, y), h, now);
    AssignStructure(s, i, j, now);
    OneVmChanges(s, Assign(s, i, j, now), y);
  }

  lemma AssignStructure(s: State, i: nat, j: nat, now: int)
    requires Structure(s) && WF(s) && i < |s.pendingLocks|
    requires j < |s.batchData[s.pendingLocks[i].batchId].vms|
    requires s.batchData[s.pendingLocks[i].batchId].vms[j] in s.vms
    ensures Structure(Assign(s, i, j, now))
  {
    var PendingLock(b, h) := s.pendingLocks[i];
    RemoveAtDistinct(s.batchData[b].vms, j);
    LocksWithout(s.pendingLocks, i);
    HandlesStep(s.handles, s.handleData, s.nextHandle, s.pendingLocks, i, Assign(s, i, j, now).handleData[h]);
  }

  lemma AssignView(s: State, i: nat, j: nat, now: int)
    requires WF(s) && i < |s.pendingLocks|
    requires j < |s.batchData[s.pendingLocks[i].batchId].vms|
    requires s.batchData[s.pendingLocks[i].batchId].vms[j] in s.vms
    requires Distinct(s.batchData[s.pendingLocks[i].batchId].vms)
    requires OneOwner(ViewOf(s, s.batchData[s.pendingLocks[i].batchId].vms[j]))
    requires s.handleData[s.pendingLocks[i].handle].vmid.None?
    ensures var PendingLock(b, h) := s.pendingLocks[i];
            var y := s.batchData[b].vms[j];
            var t := Assign(s, i, j, now);
            && (forall x: nat :: x != y ==> ViewOf(t, x) == ViewOf(s, x))
            && ViewOf(t, y) == ViewOf(s, y).(vm := Some(s.vms[y].Set(OCCUPIED, now)), batches := {}, handles := {h})
  {
    var PendingLock(b, h) := s.pendingLocks[i];
    var y := s.batchData[b].vms[j];
    assert b in ViewOf(s, y).batches;
    UnlistView(s, b, j);
    HandleChange(s.handleData, h, s.handleData[h].(vmid := Some(y)));
    assert forall x: nat :: h !in HandlesOf(s.handleData, x);
  }

  lemma DropHandleView(s: State)
    requires Inv(s) && WF(s) && RuleDropHandle(s).Fired?
    ensures var h := s.handles[First(s.handles, h => Orphan(s, h))];
            var y := s.handleData[h].vmid.value;
            var t := RuleDropHandle(s).next;
            && (forall x: nat :: x != y ==> ViewOf(t, x) == ViewOf(s, x))
            && ViewOf(t, y) == ViewOf(s, y).(handles := {})
  {
    var h := s.handles[First(s.handles, h => Orphan(s, h))];
    var y := s.handleData[h].vmid.value;
    assert VmOk(ViewOf(s, y)) && h in ViewOf(s, y).handles;
    HandleChange(s.handleData, h, s.handleData[h]);
    assert ViewOf(s, y).handles - {h} == {};
    forall x: nat | x != y ensures HandlesOf(s.handleData - {h}, x) == HandlesOf(s.handleData, x) {
      assert h !in HandlesOf(s.handleData, x);
    }
  }

  lemma DropHandleInv(s: State)
    requires Inv(s) && WF(s) && RuleDropHandle(s).Fired?
    ensures Inv(RuleDropHandle(s).next)
  {
    var i := First(s.handles, h => Orphan(s, h));
    var h := s.handles[i];
    var y := s.handleData[h].vmid.value;
    assert VmOk(ViewOf(s, y)) && h in ViewOf(s, y).handles;
    Known(s, y);
    RemoveAtIsWithout(s.handles, i);
    HandlesDrop(s.handles, s.handleData, s.nextHandle, s.pendingLocks, h);
    DropHandleView(s);
    OneVmChanges(s, RuleDropHandle(s).next, y);
  }

  /** No batch lists a VM that is gone or in ERROR: the replacement rule, which outranks the release rule, is idle. */
  ghost predicate NoneLost(s: State) {
    forall b :: b in s.batches ==> !HasLost(s, b)
  }

  /** Rule priority makes the release rule's clean-up safe: the VM it takes from a batch is in the pool,
      READY, and has a record and a stub; nothing about it is outstanding. */
  lemma ReleaseCleansReadyVm(s: State, b: nat)
    requires Inv(s) && NoneLost(s) && b in s.batches && s.batchData[b].vms != []
    requires forall x :: x in s.batchData[b].vms ==> !InState(s, x, WAIT)
    ensures var y := s.batchData[b].vms[0];
            y in s.pool && InState(s, y, READY) && y in s.rpc && NoTask(ViewOf(s, y))
  {
    var y := s.batchData[b].vms[0];
    assert VmOk(ViewOf(s, y)) && b in ViewOf(s, y).batches;
    assert !HasLost(s, b);
    assert !Lost(s, y);
  }

  lemma ReleaseCleanInv(s: State, b: nat, now: int)
    requires Inv(s) && NoneLost(s) && b in s.batches && s.batchData[b].vms != []
    requires forall x :: x in s.batchData[b].vms ==> !InState(s, x, WAIT)
    ensures var r := CleanupVM(Unlist(s, b, 0), s.batchData[b].vms[0], now); r.Done? && Inv(r.next)
  {
    var y := s.batchData[b].vms[0];
    ReleaseCleansReadyVm(s, b);
    assert VmOk(ViewOf(s, y)) && b in ViewOf(s, y).batches;
    Known(s, y);
    UnlistView(s, b, 0);
    RemoveAtDistinct(s.batchData[b].vms, 0);
    CleanupView(Unlist(s, b, 0), y, now);
    CleanedOk(ViewOf(s, y).(batches := {}), y, now);
    OneVmChanges(s, CleanupVM(Unlist(s, b, 0), y, now).next, y);
  }

  lemma ListedKnown(s: State, b: nat)
    requires WF(s) && NoneLost(s) && b in s.batches
    ensures forall x :: x in s.batchData[b].vms ==> x in s.vms
  {
    assert !HasLost(s, b);
    forall x | x in s.batchData[b].vms ensures x in s.vms {
      assert !Lost(s, x);
    }
  }

  lemma ReleaseRuleInv(s: State, now: int)
    requires Inv(s) && WF(s) && NoneLost(s) && !RuleRelease(s, now).Idle?
    ensures RuleRelease(s, now).Fired? && Inv(RuleRelease(s, now).next)
  {
    var b := s.batches[First(s.batches, b => Unbalanced(s, b))];
    if Ledger(s, b) > 0 || b in s.prepQueue {
      SameViews(s, RuleRelease(s, now).next);
    } else {
      ReleaseOneInv(s, b, now);
    }
  }

  lemma ReleaseOneInv(s: State, b: nat, now: int)
    requires Inv(s) && WF(s) && NoneLost(s) && b in s.batches && s.batchData[b].vms != []
    ensures ReleaseOne(s, b, now).Fired? && Inv(ReleaseOne(s, b, now).next)
  {
    ListedKnown(s, b);
    var j := First(s.batchData[b].vms, x => x !in s.vms || InState(s, x, WAIT));
    if j < |s.batchData[b].vms| {
      UnlistInv(s, b, j);
    } else {
      ReleaseCleanInv(s, b, now);
    }
  }

  lemma LockCountPositive(locks: seq<PendingLock>, b: nat)
    ensures LockCount(locks, b) > 0 <==> exists p :: p in locks && p.batchId == b
  {
    var bs := LockBatches(locks);
    if b in bs {
      var i :| 0 <= i < |bs| && bs[i] == b;
      assert locks[i] in locks;
    }
    forall p | p in locks && p.batchId == b ensures b in bs {
      var i :| 0 <= i < |locks| && locks[i] == p;
      assert bs[i] == b;
    }
  }

  ghost predicate Balanced(s: State) {
    forall b :: b in s.batches ==> !Unbalanced(s, b)
  }

  /** Because the release rule outranks it, the clean-up rule deletes a batch only when no VM list,
      pending lock or queued preparation refers to it. */
  lemma DeletedUnreferenced(s: State, b: nat)
    requires Inv(s) && Balanced(s) && Deletable(s, b)
    ensures b !in s.prepQueue && !LockPending(s, b) && s.batchData[b].vms == []
  {
    LockCountPositive(s.pendingLocks, b);
    assert !Unbalanced(s, b);
  }

  lemma BatchCleanupInv(s: State)
    requires Inv(s) && WF(s) && Balanced(s) && RuleBatchCleanup(s).Fired?
    ensures Inv(RuleBatchCleanup(s).next)
  {
    var b := s.batches[First(s.batches, b => Deletable(s, b))];
    var t := RuleBatchCleanup(s).next;
    DeletedUnreferenced(s, b);
    WithoutDistinct(s.batches, b);
    forall x: nat ensures BatchesOf(t.batchData, x) == BatchesOf(s.batchData, x) {
    }
    SameViews(s, t);
  }

  lemma RulePoolInv(s: State, now: int)
    requires Inv(s) && WF(s)
    ensures RulePool(s, now).Fired? ==> Inv(RulePool(s, now).next)
    ensures !RulePool(s, now).Failed?
  {
    if |s.pool| < s.size.min {
      BootInv(s, now);
    } else if Victim(s, now).Some? {
      KillInv(s, Victim(s, now).value, now);
    }
  }

  // ---------------------------------------------------------------- the rule engine

  function Rank(rule: Rule): (k: nat)
    ensures k < |ORDER| && ORDER[k] == rule
  {
    match rule
    case PoolRule => 0
    case PrepareRule => 1
    case ReplaceRule => 2
    case BootRule => 3
    case AssignRule => 4
    case DropHandleRule => 5
    case ReleaseRule => 6
    case TimeoutRule => 7
    case BatchCleanupRule => 8
    case HandleExpireRule => 9
  }

  /** The rules that are tried before rule are all idle. */
  ghost predicate Outranked(s: State, now: int, rule: Rule)
    requires WF(s)
  {
    forall r :: Rank(r) < Rank(rule) ==> Try(s, now, r).Idle?
  }

  lemma {:induction false} RunFromSplit(s: State, now: int, rules: seq<Rule>)
    requires WF(s)
    ensures RunFrom(s, now, rules).Idle? <==> forall i :: 0 <= i < |rules| ==> Try(s, now, rules[i]).Idle?
    ensures !RunFrom(s, now, rules).Idle? ==>
              exists k :: 0 <= k < |rules| && RunFrom(s, now, rules) == Try(s, now, rules[k])
                          && forall i :: 0 <= i < k ==> Try(s, now, rules[i]).Idle?
  {
    if rules == [] {
    } else if Try(s, now, rules[0]).Idle? {
      RunFromSplit(s, now, rules[1..]);
      if !RunFrom(s, now, rules[1..]).Idle? {
        var k :| 0 <= k < |rules[1..]| && RunFrom(s, now, rules[1..]) == Try(s, now, rules[1..][k])
                 && forall i :: 0 <= i < k ==> Try(s, now, rules[1..][i]).Idle?;
        assert rules[k + 1] == rules[1..][k];
        forall i | 0 <= i < k + 1 ensures Try(s, now, rules[i]).Idle? {
          assert i > 0 ==> rules[i] == rules[1..][i - 1];
        }
      } else {
        forall i | 0 <= i < |rules| ensures Try(s, now, rules[i]).Idle? {
          assert i > 0 ==> rules[i] == rules[1..][i - 1];
        }
      }
    }
  }

  lemma OrderRanks(k: nat)
    requires k < |ORDER|
    ensures Rank(ORDER[k]) == k
  {
  }

  /** When some rule fires, one rule decides and every rule before it is idle. */
  lemma WhichRule(s: State, now: int) returns (rule: Rule)
    requires WF(s) && !RunRules(s, now).Idle?
    ensures RunRules(s, now) == Try(s, now, rule) && Outranked(s, now, rule)
  {
    RunFromSplit(s, now, ORDER);
    var k :| 0 <= k < |ORDER| && RunFrom(s, now, ORDER) == Try(s, now, ORDER[k])
             && forall i :: 0 <= i < k ==> Try(s, now, ORDER[i]).Idle?;
    rule := ORDER[k];
    OrderRanks(k);
  }

  lemma AllIdle(s: State, now: int)
    requires WF(s)
    ensures Quiescent(s, now) <==> forall rule :: Try(s, now, rule).Idle?
  {
    RunFromSplit(s, now, ORDER);
    if Quiescent(s, now) {
      forall rule ensures Try(s, now, rule).Idle? {
        assert ORDER[Rank(rule)] == rule;
      }
    }
  }

  lemma AfterReplace(s: State, now: int, rule: Rule)
    requires WF(s) && Outranked(s, now, rule)
    ensures Rank(rule) > Rank(ReplaceRule) ==> NoneLost(s)
    ensures Rank(rule) > Rank(ReleaseRule) ==> Balanced(s)
    ensures Rank(rule) > Rank(DropHandleRule) ==> forall h :: h in s.handles ==> !Orphan(s, h)
  {
    assert Rank(rule) > Rank(ReplaceRule) ==> Try(s, now, ReplaceRule).Idle?;
    assert Rank(rule) > Rank(ReleaseRule) ==> Try(s, now, ReleaseRule).Idle?;
    assert Rank(rule) > Rank(DropHandleRule) ==> Try(s, now, DropHandleRule).Idle?;
    IdleMeans(s, now);
  }

  lemma IdleMeans(s: State, now: int)
    requires WF(s)
    ensures RuleReplace(s).Idle? <==> NoneLost(s)
    ensures RuleRelease(s, now).Idle? <==> Balanced(s)
    ensures RuleDropHandle(s).Idle? <==> forall h :: h in s.handles ==> !Orphan(s, h)
  {
  }

  lemma RuleInv(s: State, now: int, rule: Rule)
    requires Inv(s) && WF(s) && !Try(s, now, rule).Idle?
    requires Rank(rule) > Rank(ReplaceRule) ==> NoneLost(s)
    requires Rank(rule) > Rank(ReleaseRule) ==> Balanced(s)
    ensures Inv(Try(s, now, rule).next)
    ensures rule != HandleExpireRule ==> Try(s, now, rule).Fired?
  {
    match rule {
      case PoolRule => RulePoolInv(s, now);
      case PrepareRule => PrepareInv(s, s.pool[First(s.pool, x => InState(s, x, FREE))], now);
      case ReplaceRule => ReplaceInv(s);
      case BootRule => BootInv(s, now);
      case AssignRule => AssignInv(s, now);
      case DropHandleRule => DropHandleInv(s);
      case ReleaseRule => ReleaseRuleInv(s, now);
      case TimeoutRule => KillInv(s, s.pool[First(s.pool, x => Expired(s, x, now))], now);
      case BatchCleanupRule => BatchCleanupInv(s);
      case HandleExpireRule => ReleaseInv(s, s.handles[First(s.handles, h => HandleExpired(s, h, now))], now);
    }
  }

  lemma RulesInv(s: State, now: int)
    requires Inv(s) && WF(s)
    ensures !RunRules(s, now).Idle? ==> Inv(RunRules(s, now).next)
  {
    if !RunRules(s, now).Idle? {
      var rule := WhichRule(s, now);
      AfterReplace(s, now, rule);
      RuleInv(s, now, rule);
    }
  }

  lemma ExecuteRulesInv(s: State, now: int)
    requires Inv(s) && WF(s)
    ensures Inv(ExecuteRules(s, now).next)
  {
    var s0 := s.(scheduled := false);
    SameViews(s, s0);
    RulesInv(s0, now);
    var r := RunRules(s0, now);
    if r.Fired? {
      SameViews(r.next, r.next.(scheduled := true));
    }
  }
}
