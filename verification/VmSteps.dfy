/** Every step of the controller is legitimate for every VM: it changes the belief about it, sends it a call or
    takes it out of the pool only in the ways the VM protocol allows. */
module VmSteps {
  import opened Collections
  import opened VerStates
  import opened Scheduler
  import opened Invariant
  import opened Steps
  import opened Callbacks
  import opened VmProtocol

  ghost predicate LegitStep(s: State, t: State) {
    && s.nextVMID <= t.nextVMID && t.restored == s.restored
    && forall x: nat :: Legit(ViewOf(s, x), ViewOf(t, x), x >= s.nextVMID)
  }

  lemma OneLegit(s: State, t: State, y: nat)
    requires s.nextVMID <= t.nextVMID && t.restored == s.restored
    requires forall x: nat :: x != y ==> ViewOf(t, x) == ViewOf(s, x)
    requires Legit(ViewOf(s, y), ViewOf(t, y), y >= s.nextVMID)
    ensures LegitStep(s, t)
  {
  }

  lemma SameLegit(s: State, t: State)
    requires s.nextVMID <= t.nextVMID && t.restored == s.restored
    requires forall x: nat :: ViewOf(t, x) == ViewOf(s, x)
    ensures LegitStep(s, t)
  {
  }

  // ---------------------------------------------------------------- one VM

  lemma BootLegit(s: State, now: int)
    requires Inv(s)
    ensures LegitStep(s, BootNewVM(s, now))
  {
    var y := s.nextVMID;
    OpsChange(s.ops, Boot(y));
    assert Unseen(ViewOf(s, y));
    assert ViewOf(BootNewVM(s, now), y)
        == VmView(true, Some(NewVm(CREATING, now)), y in s.rpc, {Boot(y)}, {}, {}, s.restored);
    OneLegit(s, BootNewVM(s, now), y);
  }

  lemma KillLegit(s: State, y: nat, now: int)
    requires y in s.vms
    ensures LegitStep(s, KillVM(s, y, now))
  {
    KillView(s, y, now);
    OneLegit(s, KillVM(s, y, now), y);
  }

  lemma SentLegit(v: VmView, u: VmView, op: Op, unborn: bool)
    requires v.vm.Some? && u.vm.Some? && NoTask(v) && v.stub && u.stub && u.vm.value.state == WAIT
    requires v.inPool ==> v.vm.value.state != ERROR || v.handles != {}
    requires v.vm.value.version <= u.vm.value.version
    requires u.inPool == v.inPool && u.ops == v.ops + {op} && IsTask(op)
    ensures Legit(v, u, unborn)
  {
    assert op in u.ops;
  }

  lemma PrepareLegit(s: State, y: nat, now: int)
    requires Inv(s) && WF(s) && s.prepQueue != [] && y in s.pool && InState(s, y, FREE)
    ensures LegitStep(s, PrepareNext(s, y, now))
  {
    var b := s.prepQueue[0];
    assert VmOk(ViewOf(s, y));
    PreparedOk(ViewOf(s, y), y, b, now);
    PrepareView(s, y, now);
    SentLegit(ViewOf(s, y), ViewOf(PrepareNext(s, y, now), y), Prepare(y, s.vms[y].version + 1, b), y >= s.nextVMID);
    OneLegit(s, PrepareNext(s, y, now), y);
  }

  lemma UnlistLegit(s: State, b: nat, j: nat)
    requires Inv(s) && b in s.batchData && j < |s.batchData[b].vms|
    ensures LegitStep(s, Unlist(s, b, j))
  {
    var y := s.batchData[b].vms[j];
    assert VmOk(ViewOf(s, y));
    UnlistView(s, b, j);
    OneLegit(s, Unlist(s, b, j), y);
  }

  lemma OccupiedLegit(v: VmView, h: nat, now: int, unborn: bool)
    requires v.inPool && v.vm.Some? && v.vm.value.state == READY
    ensures Legit(v, v.(vm := Some(v.vm.value.Set(OCCUPIED, now)), batches := {}, handles := {h}), unborn)
  {
  }

  lemma AssignLegit(s: State, now: int)
    requires Inv(s) && WF(s) && RuleAssign(s, now).Fired?
    ensures LegitStep(s, RuleAssign(s, now).next)
  {
    var i := First(s.pendingLocks, (p: PendingLock) => HasLockable(s, p.batchId));
    var PendingLock(b, h) := s.pendingLocks[i];
    var j := First(s.batchData[b].vms, x => Lockable(s, x));
    var y := s.batchData[b].vms[j];
    assert VmOk(ViewOf(s, y));
    AssignView(s, i, j, now);
    OccupiedLegit(ViewOf(s, y), h, now, y >= s.nextVMID);
    OneLegit(s, Assign(s, i, j, now), y);
  }

  lemma DropHandleLegit(s: State)
    requires Inv(s) && WF(s) && RuleDropHandle(s).Fired?
    ensures LegitStep(s, RuleDropHandle(s).next)
  {
    var h := s.handles[First(s.handles, h => Orphan(s, h))];
    HandleChange(s.handleData, h, s.handleData[h]);
    var t := RuleDropHandle(s).next;
    forall x: nat ensures Legit(ViewOf(s, x), ViewOf(t, x), x >= s.nextVMID) {
      assert ViewOf(t, x) == ViewOf(s, x).(handles := HandlesOf(s.handleData, x) - {h});
    }
  }

  lemma ReleaseHeldLegit(s: State, h: nat, now: int)
    requires Inv(s) && !s.restored && h in s.handleData && s.handleData[h].vmid.Some?
    ensures LegitStep(s, ReleaseVM(s, h, now).next)
  {
    var t := ReleaseVM(s, h, now).next;
    var y := s.handleData[h].vmid.value;
    var v := ViewOf(s, y);
    assert VmOk(v) && h in v.handles;
    if y in s.vms {
      ReleasedOk(v, y, now);
      ReleaseView(s, h, now);
      SentLegit(v, ViewOf(t, y), Cleanup(y, s.vms[y].version + 1), y >= s.nextVMID);
      OneLegit(s, t, y);
    } else {
      SameLegit(s, t);
    }
  }

  lemma ReleaseLegit(s: State, h: nat, now: int)
    requires Inv(s) && !s.restored
    ensures LegitStep(s, ReleaseVM(s, h, now).next)
  {
    if h in s.handleData && s.handleData[h].vmid.Some? {
      ReleaseHeldLegit(s, h, now);
    } else {
      var t := ReleaseVM(s, h, now).next;
      HandleChange(s.handleData, h, HandleInfo(None, None));
      forall x: nat ensures ViewOf(t, x) == ViewOf(s, x) {
        assert h !in HandlesOf(s.handleData, x);
      }
      SameLegit(s, t);
    }
  }

  lemma ReleaseCleanLegit(s: State, b: nat, now: int)
    requires Inv(s) && NoneLost(s) && b in s.batches && s.batchData[b].vms != []
    requires forall x :: x in s.batchData[b].vms ==> !InState(s, x, WAIT)
    ensures LegitStep(s, CleanupVM(Unlist(s, b, 0), s.batchData[b].vms[0], now).next)
  {
    var y := s.batchData[b].vms[0];
    ReleaseCleansReadyVm(s, b);
    assert VmOk(ViewOf(s, y));
    UnlistView(s, b, 0);
    CleanupView(Unlist(s, b, 0), y, now);
    var t := CleanupVM(Unlist(s, b, 0), y, now).next;
    SentLegit(ViewOf(s, y), ViewOf(t, y), Cleanup(y, s.vms[y].version + 1), y >= s.nextVMID);
    OneLegit(s, t, y);
  }

  lemma ReleaseRuleLegit(s: State, now: int)
    requires Inv(s) && WF(s) && NoneLost(s) && !RuleRelease(s, now).Idle?
    ensures LegitStep(s, RuleRelease(s, now).next)
  {
    var b := s.batches[First(s.batches, b => Unbalanced(s, b))];
    if Ledger(s, b) > 0 || b in s.prepQueue {
      SameLegit(s, RuleRelease(s, now).next);
    } else {
      ListedKnown(s, b);
      var j := First(s.batchData[b].vms, x => x !in s.vms || InState(s, x, WAIT));
      if j < |s.batchData[b].vms| {
        UnlistLegit(s, b, j);
      } else {
        ReleaseCleanLegit(s, b, now);
      }
    }
  }

  lemma BatchCleanupLegit(s: State)
    requires Inv(s) && WF(s) && RuleBatchCleanup(s).Fired?
    ensures LegitStep(s, RuleBatchCleanup(s).next)
  {
    var t := RuleBatchCleanup(s).next;
    forall x: nat ensures ViewOf(t, x) == ViewOf(s, x) {
      assert BatchesOf(t.batchData, x) == BatchesOf(s.batchData, x);
    }
  }

  lemma ReplaceLegit(s: State)
    requires Inv(s) && WF(s) && RuleReplace(s).Fired?
    ensures LegitStep(s, RuleReplace(s).next)
  {
    var b := s.batches[First(s.batches, b => HasLost(s, b))];
    var j := First(s.batchData[b].vms, x => Lost(s, x));
    UnlistLegit(s, b, j);
    var u := Unlist(s, b, j);
    assert forall x: nat :: ViewOf(RuleReplace(s).next, x) == ViewOf(u, x);
  }

  lemma PoolLegit(s: State, now: int)
    requires Inv(s) && WF(s) && !RulePool(s, now).Idle?
    ensures LegitStep(s, RulePool(s, now).next)
  {
    if |s.pool| < s.size.min {
      BootLegit(s, now);
    } else if Victim(s, now).Some? {
      KillLegit(s, Victim(s, now).value, now);
    }
  }

  lemma RuleLegit(s: State, now: int, rule: Rule)
    requires Inv(s) && WF(s) && !s.restored && !Try(s, now, rule).Idle?
    requires Rank(rule) > Rank(ReplaceRule) ==> NoneLost(s)
    requires Rank(rule) > Rank(ReleaseRule) ==> Balanced(s)
    ensures LegitStep(s, Try(s, now, rule).next)
  {
    RuleInv(s, now, rule);
    match rule {
      case PoolRule => PoolLegit(s, now);
      case PrepareRule => PrepareLegit(s, s.pool[First(s.pool, x => InState(s, x, FREE))], now);
      case ReplaceRule => ReplaceLegit(s);
      case BootRule => BootLegit(s, now);
      case AssignRule => AssignLegit(s, now);
      case DropHandleRule => DropHandleLegit(s);
      case ReleaseRule => ReleaseRuleLegit(s, now);
      case TimeoutRule => KillLegit(s, s.pool[First(s.pool, x => Expired(s, x, now))], now);
      case BatchCleanupRule => BatchCleanupLegit(s);
      case HandleExpireRule => ReleaseLegit(s, s.handles[First(s.handles, h => HandleExpired(s, h, now))], now);
    }
  }

  lemma RulesLegit(s: State, now: int)
    requires Inv(s) && WF(s) && !s.restored
    ensures !RunRules(s, now).Idle? ==> LegitStep(s, RunRules(s, now).next)
  {
    if !RunRules(s, now).Idle? {
      var rule := WhichRule(s, now);
      AfterReplace(s, now, rule);
      RuleLegit(s, now, rule);
    }
  }

  lemma Rescheduled(s: State, u: State, t: State, a: bool, c: bool)
    requires s.(scheduled := a) == u.(scheduled := a)
    ensures LegitStep(u, t) ==> LegitStep(s, t.(scheduled := c)) && LegitStep(s, t)
  {
    assert forall x: nat :: ViewOf(s, x) == ViewOf(u, x);
    assert forall x: nat :: ViewOf(t.(scheduled := c), x) == ViewOf(t, x);
  }

  lemma ExecuteRulesLegit(s: State, now: int)
    requires Inv(s) && WF(s) && !s.restored
    ensures LegitStep(s, ExecuteRules(s, now).next)
  {
    var s0 := s.(scheduled := false);
    SameViews(s, s0);
    RulesLegit(s0, now);
    var r := RunRules(s0, now);
    if r.Idle? {
      SameLegit(s, s0);
    } else {
      Rescheduled(s, s0, r.next, false, true);
    }
  }

  // ---------------------------------------------------------------- requests

  lemma PrepareBatchLegit(s: State, size: nat)
    requires Inv(s)
    ensures LegitStep(s, PrepareBatch(s, size))
  {
    BatchKeep(s.batchData, s.nextBatchID, Batch(size, [], false));
    SameLegit(s, PrepareBatch(s, size));
  }

  lemma LockLegit(s: State, b: nat)
    requires Inv(s)
    ensures LegitStep(s, LockVM(s, b).next)
  {
    var t := LockVM(s, b).next;
    if b in s.batchData {
      BatchKeep(s.batchData, b, t.batchData[b]);
      HandleKeep(s.handleData, s.nextHandle, HandleInfo(None, None));
    }
    SameLegit(s, t);
  }

  lemma CancelLegit(s: State, b: nat)
    requires Inv(s)
    ensures LegitStep(s, CancelBatch(s, b).next)
  {
    if b in s.batchData {
      BatchKeep(s.batchData, b, s.batchData[b].(size := 0, markDelete := true));
    }
    SameLegit(s, CancelBatch(s, b).next);
  }

  lemma RenewLegit(s: State, h: nat, time: int, now: int)
    requires Inv(s)
    ensures LegitStep(s, RenewExpire(s, h, time, now))
  {
    var t := RenewExpire(s, h, time, now);
    if h in s.handles && h in s.handleData {
      HandleKeep(s.handleData, h, t.handleData[h]);
    }
    SameLegit(s, t);
  }

  // ---------------------------------------------------------------- callbacks

  lemma BootDoneLegit(s: State, y: nat, ok: bool, now: int)
    requires Inv(s) && WF(s) && Boot(y) in s.ops
    ensures LegitStep(s, BootDone(s, y, ok, now))
  {
    assert VmOk(ViewOf(s, y)) && Boot(y) in ViewOf(s, y).ops;
    BootDoneView(s, y, ok, now);
    OneLegit(s, BootDone(s, y, ok, now), y);
  }

  /** A check-in in progress can make only a starting VM FREE. */
  lemma CheckinDoneLegit(s: State, y: nat, ver: nat, hasServer: bool, now: int)
    requires Inv(s) && Checkin(y, ver) in s.ops
    ensures LegitStep(s, CheckinDone(s, y, ver, hasServer, now))
  {
    assert VmOk(ViewOf(s, y)) && Checkin(y, ver) in ViewOf(s, y).ops;
    CheckinDoneView(s, y, ver, hasServer, now);
    OneLegit(s, CheckinDone(s, y, ver, hasServer, now), y);
  }

  lemma PingVMsLegit(s: State)
    requires Inv(s) && WF(s)
    ensures LegitStep(s, PingVMs(s))
  {
    forall x: nat ensures Legit(ViewOf(s, x), ViewOf(PingVMs(s), x), x >= s.nextVMID) {
      assert VmOk(ViewOf(s, x));
      PingVMsView(s, x);
    }
  }

  lemma VmLegit(s: State, y: nat, vm: Vm)
    requires y in s.vms && vm.state in {s.vms[y].state, ERROR} && s.vms[y].version <= vm.version
    ensures LegitStep(s, s.(vms := s.vms[y := vm]))
  {
    OneLegit(s, s.(vms := s.vms[y := vm]), y);
  }

  lemma PingReplyLegit(s: State, y: nat, ver: nat, seen: BeliefState, result: VmState, now: int)
    ensures LegitStep(s, PingReply(s, y, ver, seen, result, now))
  {
    if y in s.vms {
      var vm := if PingMatches(seen, result) then s.vms[y].VerRefresh(ver, now) else s.vms[y].Set(ERROR, now);
      VmLegit(s, y, vm);
      Rescheduled(s, s, s.(vms := s.vms[y := vm]), true, true);
    } else {
      SameLegit(s, PingReply(s, y, ver, seen, result, now));
    }
  }

  lemma BootCheckFailedLegit(s: State, y: nat, now: int)
    ensures LegitStep(s, BootCheckFailed(s, y, now).next)
  {
    if y in s.vms {
      KillLegit(s, y, now);
      Rescheduled(s, s, KillVM(s, y, now), true, true);
    } else {
      SameLegit(s, s);
    }
  }

  lemma KillDoneLegit(s: State, y: nat)
    ensures LegitStep(s, KillDone(s, y))
  {
    var t := KillDone(s, y);
    assert forall x: nat :: x != y ==> ViewOf(t, x) == ViewOf(s, x);
    assert ViewOf(t, y) == ViewOf(s, y).(vm := None);
    OneLegit(s, t, y);
  }
}
