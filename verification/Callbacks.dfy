/** Every asynchronous completion, and a restart from a checkpoint, keeps the invariant. */
module Callbacks {
  import opened Collections
  import opened VerStates
  import opened Scheduler
  import opened Invariant
  import opened Steps

  lemma BootDoneView(s: State, y: nat, ok: bool, now: int)
    requires WF(s)
    ensures var t := BootDone(s, y, ok, now);
            var v := ViewOf(s, y);
            && (forall x: nat :: x != y ==> ViewOf(t, x) == ViewOf(s, x))
            && ViewOf(t, y)
               == if !ok then v.(inPool := false, vm := None)
                  else if !v.inPool then v.(ops := v.ops - {Boot(y)})
                  else v.(vm := Some(s.vms[y].(hasServer := true).VerSet(0, BOOTING, now)), ops := v.ops - {Boot(y)})
  {
    OpsChange(s.ops, Boot(y));
    forall x: nat | x != y ensures OpsOf(s.ops - {Boot(y)}, x) == OpsOf(s.ops, x) {
      assert Boot(y) !in OpsOf(s.ops, x);
    }
  }

  lemma BootedOk(v: VmView, y: nat, now: int)
    requires VmOk(v) && v.inPool && Boot(y) in v.ops
    ensures VmOk(v.(vm := Some(v.vm.value.(hasServer := true).VerSet(0, BOOTING, now)), ops := v.ops - {Boot(y)}))
  {
    var w := v.(vm := Some(v.vm.value.(hasServer := true).VerSet(0, BOOTING, now)), ops := v.ops - {Boot(y)});
    if Awaited(v) {
      var op :| op in v.ops && IsTask(op) && op.ver == v.vm.value.version;
      assert op in w.ops;
    }
  }

  lemma BootDoneInv(s: State, y: nat, ok: bool, now: int)
    requires Inv(s) && WF(s) && Boot(y) in s.ops
    ensures Inv(BootDone(s, y, ok, now))
  {
    var t := BootDone(s, y, ok, now);
    BootDoneView(s, y, ok, now);
    assert VmOk(ViewOf(s, y)) && Boot(y) in ViewOf(s, y).ops;
    Known(s, y);
    WithoutDistinct(s.pool, y);
    if ok && y in s.pool {
      BootedOk(ViewOf(s, y), y, now);
    }
    OneVmChanges(s, t, y);
  }

  lemma CheckinReceivedInv(s: State, y: nat)
    requires Inv(s) && WF(s) && (y in s.pool ==> s.vms[y].state in {CREATING, BOOTING})
    ensures Inv(CheckinReceived(s, y))
  {
    if y in s.pool {
      var t := CheckinReceived(s, y);
      assert VmOk(ViewOf(s, y));
      Known(s, y);
      OpsChange(s.ops, Checkin(y, s.vms[y].version));
      assert ViewOf(t, y) == ViewOf(s, y).(ops := ViewOf(s, y).ops + {Checkin(y, s.vms[y].version)});
      OneVmChanges(s, t, y);
    }
  }

  lemma CheckinDoneView(s: State, y: nat, ver: nat, hasServer: bool, now: int)
    ensures var t := CheckinDone(s, y, ver, hasServer, now);
            && (forall x: nat :: x != y ==> ViewOf(t, x) == ViewOf(s, x))
            && ViewOf(t, y) == ViewOf(s, y).(stub := true,
                 vm := if y in s.vms then Some(s.vms[y].(hasServer := hasServer).VerSet(ver, FREE, now)) else None)
  {
  }

  lemma CheckinDoneInv(s: State, y: nat, ver: nat, hasServer: bool, now: int)
    requires Inv(s) && Checkin(y, ver) in s.ops
    ensures Inv(CheckinDone(s, y, ver, hasServer, now))
  {
    CheckinDoneView(s, y, ver, hasServer, now);
    assert VmOk(ViewOf(s, y)) && Checkin(y, ver) in ViewOf(s, y).ops;
    Known(s, y);
    OneVmChanges(s, CheckinDone(s, y, ver, hasServer, now), y);
  }

  /** The view of y after the verSet of a finishing prepare or cleanup op. */
  function Finished(v: VmView, op: Op, st: BeliefState, now: int): VmView
    requires IsTask(op)
  {
    v.(ops := v.ops - {op}, vm := if v.vm.Some? then Some(v.vm.value.VerSet(op.ver, st, now)) else None)
  }

  lemma VerSetView(s: State, y: nat, ver: nat, st: BeliefState, now: int)
    ensures var t := VerSetVm(s, y, ver, st, now);
            && (forall x: nat :: x != y ==> ViewOf(t, x) == ViewOf(s, x))
            && ViewOf(t, y) == ViewOf(s, y).(vm := if y in s.vms then Some(s.vms[y].VerSet(ver, st, now)) else None)
  {
  }

  lemma DropOpView(s: State, op: Op)
    ensures var t := s.(ops := s.ops - {op});
            && (forall x: nat :: x != op.vmid ==> ViewOf(t, x) == ViewOf(s, x))
            && ViewOf(t, op.vmid) == ViewOf(s, op.vmid).(ops := ViewOf(s, op.vmid).ops - {op})
  {
    OpsChange(s.ops, op);
    forall x: nat | x != op.vmid ensures OpsOf(s.ops - {op}, x) == OpsOf(s.ops, x) {
      assert op !in OpsOf(s.ops, x);
    }
  }

  lemma FinishView(s: State, op: Op, st: BeliefState, now: int)
    requires IsTask(op)
    ensures var t := VerSetVm(s.(ops := s.ops - {op}), op.vmid, op.ver, st, now);
            && (forall x: nat :: x != op.vmid ==> ViewOf(t, x) == ViewOf(s, x))
            && ViewOf(t, op.vmid) == Finished(ViewOf(s, op.vmid), op, st, now)
  {
    DropOpView(s, op);
    VerSetView(s.(ops := s.ops - {op}), op.vmid, op.ver, st, now);
  }

  /** Once its only operation is over nothing is outstanding, and all captured tokens are stale if it was current. */
  lemma FinishedOk(v: VmView, op: Op, st: BeliefState, now: int)
    requires VmOk(v) && op in v.ops && IsTask(op)
    ensures NoTask(Finished(v, op, st, now)) && TokensFit(Finished(v, op, st, now))
    ensures st == ERROR || (st == FREE && v.batches == {}) || (st == READY && v.batches != {})
            ==> VmOk(Finished(v, op, st, now))
  {
  }

  lemma CleanupDoneInv(s: State, y: nat, ver: nat, outcome: Outcome, now: int)
    requires Inv(s) && Cleanup(y, ver) in s.ops
    ensures Inv(CleanupDone(s, y, ver, outcome, now))
  {
    var st := if outcome == Replied(FREE_VM) then FREE else ERROR;
    assert VmOk(ViewOf(s, y)) && Cleanup(y, ver) in ViewOf(s, y).ops;
    Known(s, y);
    FinishView(s, Cleanup(y, ver), st, now);
    FinishedOk(ViewOf(s, y), Cleanup(y, ver), st, now);
    OneVmChanges(s, CleanupDone(s, y, ver, outcome, now), y);
  }

  lemma PrepareDoneInv(s: State, y: nat, ver: nat, b: nat, outcome: Outcome, now: int)
    requires Inv(s) && Prepare(y, ver, b) in s.ops
    ensures Inv(PrepareDone(s, y, ver, b, outcome, now).next)
  {
    var op := Prepare(y, ver, b);
    var st := if outcome == Replied(READY_VM) then READY else ERROR;
    var v := ViewOf(s, y);
    assert VmOk(v) && op in v.ops;
    Known(s, y);
    FinishView(s, op, st, now);
    FinishedOk(v, op, st, now);
    var s2 := VerSetVm(s.(ops := s.ops - {op}), y, ver, st, now);
    assert b in v.batches <==> Listed(s, b, y);
    if outcome.IpFailed? || Listed(s, b, y) {
      OneVmChanges(s, s2.(scheduled := true), y);
    } else if y in s.vms {
      RecleanInv(s, s2, y, now);
    } else {
      OneVmChanges(s, s2, y);
    }
  }

  /** s2 is s after the end of the prepare of y, which nothing owns. */
  lemma RecleanInv(s: State, s2: State, y: nat, now: int)
    requires Inv(s) && Structure(s2) && s2.nextVMID == s.nextVMID && y < s.nextVMID
    requires forall x: nat :: x != y ==> ViewOf(s2, x) == ViewOf(s, x)
    requires y in s2.vms && CanClean(ViewOf(s2, y))
    ensures Inv(CleanupVM(s2, y, now).next)
  {
    CleanupView(s2, y, now);
    CleanedOk(ViewOf(s2, y), y, now);
    OneVmChanges(s, CleanupVM(s2, y, now).next, y);
  }

  lemma PingsOf(s: State, x: nat)
    requires WF(s)
    ensures OpsOf(PingVMs(s).ops, x)
            == OpsOf(s.ops, x)
               + (if x in s.pool && Stable(s.vms[x].state) then {Ping(x, s.vms[x].version, s.vms[x].state)} else {})
               + (if x in s.pool && InState(s, x, BOOTING) then {BootCheck(x)} else {})
  {
  }

  /** A ping captures the current version of a VM in a stable state. */
  lemma PingedOk(v: VmView, x: nat)
    requires VmOk(v)
    ensures v.inPool && Stable(v.vm.value.state) ==>
              VmOk(v.(ops := v.ops + {Ping(x, v.vm.value.version, v.vm.value.state)}))
    ensures VmOk(v.(ops := v.ops + {BootCheck(x)}))
  {
    var w := v.(ops := v.ops + {BootCheck(x)});
    if Awaited(v) {
      var op :| op in v.ops && IsTask(op) && v.vm.Some? && op.ver == v.vm.value.version;
      assert op in w.ops;
    }
  }

  lemma PingVMsView(s: State, x: nat)
    requires WF(s)
    ensures var v := ViewOf(s, x);
            ViewOf(PingVMs(s), x)
            == if v.inPool && Stable(v.vm.value.state)
               then v.(ops := v.ops + {Ping(x, v.vm.value.version, v.vm.value.state)})
               else if v.inPool && v.vm.value.state == BOOTING then v.(ops := v.ops + {BootCheck(x)})
               else v
  {
    PingsOf(s, x);
  }

  lemma PingVMsInv(s: State)
    requires Inv(s) && WF(s)
    ensures Inv(PingVMs(s))
  {
    var t := PingVMs(s);
    forall x: nat ensures VmOk(ViewOf(t, x)) && (x >= t.nextVMID ==> Unseen(ViewOf(t, x))) {
      assert VmOk(ViewOf(s, x)) && (x >= s.nextVMID ==> Unseen(ViewOf(s, x)));
      PingVMsView(s, x);
      PingedOk(ViewOf(s, x), x);
    }
  }

  /** A late ping reply refreshes only the state it saw; a mismatch may put any VM in ERROR. */
  lemma PingAnsweredOk(v: VmView, op: Op, now: int)
    requires VmOk(v) && op in v.ops && op.Ping? && v.vm.Some?
    ensures VmOk(v.(vm := Some(v.vm.value.VerRefresh(op.ver, now))))
    ensures VmOk(v.(vm := Some(v.vm.value.Set(ERROR, now))))
  {
  }

  lemma PingReplyInv(s: State, y: nat, ver: nat, seen: BeliefState, result: VmState, now: int)
    requires Inv(s) && Ping(y, ver, seen) in s.ops
    ensures Inv(PingReply(s, y, ver, seen, result, now))
  {
    assert VmOk(ViewOf(s, y)) && Ping(y, ver, seen) in ViewOf(s, y).ops;
    Known(s, y);
    if y in s.vms {
      PingAnsweredOk(ViewOf(s, y), Ping(y, ver, seen), now);
      var vm := if PingMatches(seen, result) then s.vms[y].VerRefresh(ver, now) else s.vms[y].Set(ERROR, now);
      VmChangeInv(s, y, vm);
      WokenInv(s.(vms := s.vms[y := vm]), PingReply(s, y, ver, seen, result, now));
    } else {
      WokenInv(s, PingReply(s, y, ver, seen, result, now));
    }
  }

  lemma WokenInv(s: State, t: State)
    requires Inv(s) && t == s.(scheduled := t.scheduled)
    ensures Inv(t)
  {
    SameViews(s, t);
  }

  lemma VmChangeInv(s: State, y: nat, vm: Vm)
    requires Inv(s) && y in s.vms && y < s.nextVMID && VmOk(ViewOf(s, y).(vm := Some(vm)))
    ensures Inv(s.(vms := s.vms[y := vm]))
  {
    OneVmChanges(s, s.(vms := s.vms[y := vm]), y);
  }

  lemma BootCheckFailedInv(s: State, y: nat, now: int)
    requires Inv(s)
    ensures Inv(BootCheckFailed(s, y, now).next)
  {
    if y in s.vms {
      KillInv(s, y, now);
      SameViews(KillVM(s, y, now), BootCheckFailed(s, y, now).next);
    }
  }

  lemma KillDoneInv(s: State, y: nat)
    requires Inv(s) && Kill(y) in s.ops
    ensures Inv(KillDone(s, y))
  {
    assert VmOk(ViewOf(s, y)) && Kill(y) in ViewOf(s, y).ops;
    Known(s, y);
    assert ViewOf(KillDone(s, y), y) == ViewOf(s, y).(vm := None);
    OneVmChanges(s, KillDone(s, y), y);
  }

  /** Loading a checkpoint of a valid state gives a valid state. */
  lemma LoadInv(saved: State, now: int)
    requires Inv(saved) && WF(saved)
    ensures Inv(Load(saved, now))
  {
    var t := Load(saved, now);
    forall x: nat ensures VmOk(ViewOf(t, x)) && (x >= t.nextVMID ==> Unseen(ViewOf(t, x))) {
      assert VmOk(ViewOf(saved, x)) && (x >= saved.nextVMID ==> Unseen(ViewOf(saved, x)));
    }
  }
}
