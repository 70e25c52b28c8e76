/** What the invariant means. */
module Safety {
  import opened Collections
  import opened VerStates
  import opened Scheduler
  import opened Invariant
  import opened Steps
  import opened Frames
  import opened Callbacks
  import opened Runs

  /* For a reader: ownership, outstanding operations, stale replies, restarts, and the order of the rules. */

  /** Position (b, i): entry i of the VM list of batch b. */
  predicate At(s: State, b: nat, i: nat, x: nat) {
    b in s.batchData && i < |s.batchData[b].vms| && s.batchData[b].vms[i] == x
  }

  /** In every state of every history no VM occurs twice across all batch lists and handles; an owned pool VM
      has a belief that fits its owner; and every READY or OCCUPIED pool VM has its owner. */
  lemma Ownership(run: seq<State>, k: nat)
    requires IsRun(run) && k < |run|
    ensures var s := run[k];
            && (forall b: nat, i: nat, c: nat, j: nat, x: nat :: At(s, b, i, x) && At(s, c, j, x) ==> b == c && i == j)
            && (forall h: nat, g: nat, x: nat :: Held(s, h, x) && Held(s, g, x) ==> h == g)
            && (forall b: nat, h: nat, x: nat :: Listed(s, b, x) ==> !Held(s, h, x))
            && (forall b: nat, x: nat :: Listed(s, b, x) && x in s.pool ==>
                  InState(s, x, WAIT) || InState(s, x, READY) || InState(s, x, ERROR))
            && (forall h: nat, x: nat :: Held(s, h, x) && x in s.pool ==>
                  InState(s, x, OCCUPIED) || InState(s, x, ERROR) || (s.restored && x !in s.rpc && InState(s, x, WAIT)))
            && (forall x :: x in s.pool && InState(s, x, READY) ==> exists b :: Listed(s, b, x))
            && (forall x :: x in s.pool && InState(s, x, OCCUPIED) ==> exists h :: Held(s, h, x))
  {
    var s := run[k];
    AlwaysInv(run, k);
    OneOwnerMeans(s);
    BeliefMeans(s);
  }

  lemma OneOwnerMeans(s: State)
    requires Inv(s)
    ensures forall b: nat, i: nat, c: nat, j: nat, x: nat :: At(s, b, i, x) && At(s, c, j, x) ==> b == c && i == j
    ensures forall h: nat, g: nat, x: nat :: Held(s, h, x) && Held(s, g, x) ==> h == g
    ensures forall b: nat, h: nat, x: nat :: Listed(s, b, x) ==> !Held(s, h, x)
  {
    forall b: nat, i: nat, c: nat, j: nat, x: nat | At(s, b, i, x) && At(s, c, j, x) ensures b == c && i == j {
      assert VmOk(ViewOf(s, x)) && b in ViewOf(s, x).batches && c in ViewOf(s, x).batches;
    }
    forall h: nat, g: nat, x: nat | Held(s, h, x) && Held(s, g, x) ensures h == g {
      assert VmOk(ViewOf(s, x)) && h in ViewOf(s, x).handles && g in ViewOf(s, x).handles;
    }
    forall b: nat, h: nat, x: nat | Listed(s, b, x) ensures !Held(s, h, x) {
      assert VmOk(ViewOf(s, x)) && b in ViewOf(s, x).batches;
      assert Held(s, h, x) ==> h in ViewOf(s, x).handles;
    }
  }

  lemma BeliefMeans(s: State)
    requires Inv(s)
    ensures forall b: nat, x: nat :: Listed(s, b, x) && x in s.pool ==>
              InState(s, x, WAIT) || InState(s, x, READY) || InState(s, x, ERROR)
    ensures forall h: nat, x: nat :: Held(s, h, x) && x in s.pool ==>
              InState(s, x, OCCUPIED) || InState(s, x, ERROR) || (s.restored && x !in s.rpc && InState(s, x, WAIT))
    ensures forall x :: x in s.pool && InState(s, x, READY) ==> exists b :: Listed(s, b, x)
    ensures forall x :: x in s.pool && InState(s, x, OCCUPIED) ==> exists h :: Held(s, h, x)
  {
    forall b: nat, x: nat | Listed(s, b, x) && x in s.pool
      ensures InState(s, x, WAIT) || InState(s, x, READY) || InState(s, x, ERROR)
    {
      assert VmOk(ViewOf(s, x)) && b in ViewOf(s, x).batches;
    }
    forall h: nat, x: nat | Held(s, h, x) && x in s.pool
      ensures InState(s, x, OCCUPIED) || InState(s, x, ERROR) || (s.restored && x !in s.rpc && InState(s, x, WAIT))
    {
      assert VmOk(ViewOf(s, x)) && h in ViewOf(s, x).handles;
    }
    forall x | x in s.pool && InState(s, x, READY) ensures exists b :: Listed(s, b, x) {
      assert VmOk(ViewOf(s, x));
      var b :| b in ViewOf(s, x).batches;
      assert Listed(s, b, x);
    }
    forall x | x in s.pool && InState(s, x, OCCUPIED) ensures exists h :: Held(s, h, x) {
      assert VmOk(ViewOf(s, x));
      var h :| h in ViewOf(s, x).handles;
      assert Held(s, h, x);
    }
  }

  /** Operation op of x is outstanding and its token is the current version of x. */
  predicate Current(s: State, x: nat, op: Op) {
    op in s.ops && IsTask(op) && op.vmid == x && x in s.vms && op.ver == s.vms[x].version
  }

  /** In every state of every history each VM has at most one prepare or cleanup outstanding,
      and a pool VM with a stub is WAIT exactly when one with a current token is. */
  lemma InFlight(run: seq<State>, k: nat)
    requires IsRun(run) && k < |run|
    ensures var s := run[k];
            && (forall p, q :: p in s.ops && q in s.ops && IsTask(p) && IsTask(q) && p.vmid == q.vmid ==> p == q)
            && (forall x :: x in s.pool && (s.restored ==> x in s.rpc) ==>
                  (InState(s, x, WAIT) <==> exists op :: Current(s, x, op)))
  {
    var s := run[k];
    AlwaysInv(run, k);
    forall p, q | p in s.ops && q in s.ops && IsTask(p) && IsTask(q) && p.vmid == q.vmid ensures p == q {
      assert VmOk(ViewOf(s, p.vmid));
      assert p in ViewOf(s, p.vmid).ops && q in ViewOf(s, p.vmid).ops;
    }
    forall x | x in s.pool && (s.restored ==> x in s.rpc)
      ensures InState(s, x, WAIT) <==> exists op :: Current(s, x, op)
    {
      WaitMeans(s, x);
    }
  }

  lemma WaitMeans(s: State, x: nat)
    requires Inv(s) && x in s.pool && (s.restored ==> x in s.rpc)
    ensures InState(s, x, WAIT) <==> exists op :: Current(s, x, op)
  {
    var v := ViewOf(s, x);
    assert VmOk(v);
    if InState(s, x, WAIT) {
      assert Awaited(v);
      var op :| op in v.ops && IsTask(op) && op.ver == s.vms[x].version;
      assert Current(s, x, op);
    }
    if op :| Current(s, x, op) {
      assert op in v.ops;
    }
  }

  /** In every state of every history, whatever waits for a batch names one that exists: ids in the preparation
      queue and in the pending locks are never left dangling by a deletion, and ids are below their counters. */
  lemma References(run: seq<State>, k: nat)
    requires IsRun(run) && k < |run|
    ensures var s := run[k];
            && (forall b :: b in s.prepQueue ==> b in s.batches)
            && (forall p :: p in s.pendingLocks ==> p.batchId in s.batches)
            && (forall b :: b in s.batches ==> b < s.nextBatchID)
            && (forall h :: h in s.handles ==> h < s.nextHandle)
            && (forall x :: x in s.pool ==> x < s.nextVMID)
  {
    AlwaysInv(run, k);
    forall x | x in run[k].pool ensures x < run[k].nextVMID {
      Known(run[k], x);
    }
  }

  /** In every state of every history the pending locks are the unassigned handles, one each, in request order. */
  lemma LocksAreUnassignedHandles(run: seq<State>, k: nat)
    requires IsRun(run) && k < |run|
    ensures var s := run[k];
            && Increasing(s.handles)
            && (forall i, j :: 0 <= i < j < |s.pendingLocks| ==> s.pendingLocks[i].handle < s.pendingLocks[j].handle)
            && (forall h :: (exists p :: p in s.pendingLocks && p.handle == h)
                       <==> (h in s.handles && h in s.handleData && s.handleData[h].vmid.None?))
  {
    AlwaysInv(run, k);
    var s := run[k];
    forall h | h in s.handles && s.handleData[h].vmid.None? ensures exists p :: p in s.pendingLocks && p.handle == h {
      assert PendingHandle(s.pendingLocks, h);
    }
  }

  /** The cleanup of a pool VM lands unless the VM was put in ERROR meanwhile; then nothing changes. */
  lemma CleanupLands(s: State, x: nat, ver: nat, outcome: Outcome, now: int)
    requires Inv(s) && Cleanup(x, ver) in s.ops && x in s.pool
    ensures x in s.vms && s.vms[x].state in {WAIT, ERROR}
    ensures var t := CleanupDone(s, x, ver, outcome, now);
            if s.vms[x].state == WAIT
            then InState(t, x, if outcome == Replied(FREE_VM) then FREE else ERROR)
            else t.vms == s.vms
  {
    assert VmOk(ViewOf(s, x)) && Cleanup(x, ver) in ViewOf(s, x).ops;
  }

  /** A prepare that lands makes the VM READY or ERROR; one that its batch no longer wants is cleaned up at once. */
  lemma PrepareLands(s: State, x: nat, ver: nat, b: nat, outcome: Outcome, now: int)
    requires Inv(s) && Prepare(x, ver, b) in s.ops && x in s.pool
    ensures x in s.vms && s.vms[x].state in {WAIT, ERROR}
    ensures var r := PrepareDone(s, x, ver, b, outcome, now);
            && r.Done? && x in r.next.vms
            && if outcome.Replied? && !Listed(s, b, x)
               then InState(r.next, x, WAIT) && Cleanup(x, r.next.vms[x].version) in r.next.ops
               else if s.vms[x].state == WAIT
               then InState(r.next, x, if outcome == Replied(READY_VM) then READY else ERROR)
               else r.next.vms == s.vms
  {
    assert VmOk(ViewOf(s, x)) && Prepare(x, ver, b) in ViewOf(s, x).ops;
    if outcome.Replied? && !Listed(s, b, x) {
      UnwantedCleaned(s, x, ver, b, outcome.state, now);
    }
  }

  lemma UnwantedCleaned(s: State, x: nat, ver: nat, b: nat, st: VmState, now: int)
    requires !Listed(s, b, x) && x in s.vms && x in s.rpc
    ensures var r := PrepareDone(s, x, ver, b, Replied(st), now);
            r.Done? && InState(r.next, x, WAIT) && Cleanup(x, r.next.vms[x].version) in r.next.ops
  {
  }

  /** A matching ping reply that arrives after its VM has left the state it saw changes nothing at all. */
  lemma StalePingHarmless(s: State, x: nat, ver: nat, seen: BeliefState, result: VmState, now: int)
    requires Inv(s) && Ping(x, ver, seen) in s.ops && PingMatches(seen, result) && !InState(s, x, seen)
    ensures PingReply(s, x, ver, seen, result, now) == s
  {
    assert VmOk(ViewOf(s, x)) && Ping(x, ver, seen) in ViewOf(s, x).ops;
    if x in s.vms {
      assert s.vms[x := s.vms[x].VerRefresh(ver, now)] == s.vms;
    }
  }

  /** A boot or check-in that completes after its VM has moved on leaves the belief alone. */
  lemma StaleStartHarmless(s: State, x: nat, ver: nat, hasServer: bool, now: int)
    requires Inv(s) && WF(s) && x in s.pool
    ensures Boot(x) in s.ops && !InState(s, x, CREATING) ==>
              BootDone(s, x, true, now).vms == s.vms[x := s.vms[x].(hasServer := true)]
    ensures Checkin(x, ver) in s.ops && !Starting(s, x) ==>
              CheckinDone(s, x, ver, hasServer, now).vms == s.vms[x := s.vms[x].(hasServer := hasServer)]
  {
    assert VmOk(ViewOf(s, x));
    assert Boot(x) in s.ops ==> Boot(x) in ViewOf(s, x).ops;
    assert Checkin(x, ver) in s.ops ==> Checkin(x, ver) in ViewOf(s, x).ops;
  }

  lemma CheckedInOk(v: VmView, x: nat, hasServer: bool, now: int)
    requires VmOk(v) && v.inPool
    ensures var vm := v.vm.value;
            var w := v.(ops := v.ops + {Checkin(x, vm.version)}, stub := true,
                        vm := Some(vm.(hasServer := hasServer).Set(FREE, now)));
            VmOk(w) <==> NoTask(v) && v.batches == {} && v.handles == {}
  {
    var vm := v.vm.value;
    var w := v.(ops := v.ops + {Checkin(x, vm.version)}, stub := true,
                vm := Some(vm.(hasServer := hasServer).Set(FREE, now)));
    assert forall op :: op in v.ops ==> op in w.ops;
  }

  /** Why a VM may check in only while it starts: a check-in answered at once keeps the invariant exactly when
      nothing owns the VM and no operation on it is outstanding. */
  lemma CheckinSafeExactly(s: State, x: nat, hasServer: bool, now: int)
    requires Inv(s) && WF(s) && x in s.pool
    ensures var t := CheckinDone(CheckinReceived(s, x), x, s.vms[x].version, hasServer, now);
            Inv(t) <==> NoTask(ViewOf(s, x)) && ViewOf(s, x).batches == {} && ViewOf(s, x).handles == {}
  {
    var s1 := CheckinReceived(s, x);
    var t := CheckinDone(s1, x, s.vms[x].version, hasServer, now);
    var v := ViewOf(s, x);
    assert VmOk(v);
    Known(s, x);
    OpsChange(s.ops, Checkin(x, s.vms[x].version));
    assert ViewOf(s1, x) == v.(ops := v.ops + {Checkin(x, s.vms[x].version)});
    CheckinDoneView(s1, x, s.vms[x].version, hasServer, now);
    CheckedInOk(v, x, hasServer, now);
    assert Inv(t) ==> VmOk(ViewOf(t, x));
    if VmOk(ViewOf(t, x)) {
      OneVmChanges(s, t, x);
    }
  }

  /** A restart keeps batches, queue, locks, handles, ids and sizes; a stable VM stays as it was,
      any other pool VM is in ERROR; nothing is outstanding. */
  lemma RestartKeeps(saved: State, now: int)
    requires Inv(saved) && WF(saved)
    ensures var t := Load(saved, now);
            && Inv(t)
            && t.pool == saved.pool && t.nextVMID == saved.nextVMID
            && t.batches == saved.batches && t.batchData == saved.batchData && t.nextBatchID == saved.nextBatchID
            && t.prepQueue == saved.prepQueue && t.pendingLocks == saved.pendingLocks
            && t.handles == saved.handles && t.handleData == saved.handleData && t.nextHandle == saved.nextHandle
            && t.size == saved.size && t.ops == {}
            && (forall b :: b in saved.batchData ==> Ledger(t, b) == Ledger(saved, b))
            && (forall x :: x in t.pool ==>
                  InState(t, x, if Stable(saved.vms[x].state) then saved.vms[x].state else ERROR))
            && (forall x :: x in t.rpc <==> x in t.pool && Stable(saved.vms[x].state))
  {
    LoadInv(saved, now);
  }

  // ---------------------------------------------------------------- what the order of the rules buys

  predicate SameCleanups(s: State, t: State) {
    forall op :: op in t.ops && op.Cleanup? ==> op in s.ops
  }

  lemma OthersSendNoCleanup(s: State, now: int, rule: Rule)
    requires WF(s) && !Try(s, now, rule).Idle? && rule != ReleaseRule && rule != HandleExpireRule
    ensures SameCleanups(s, Try(s, now, rule).next)
  {
    match rule {
      case PoolRule => PoolFrame(s, now);
      case TimeoutRule => TimeoutFrame(s, now);
      case PrepareRule =>
      case ReplaceRule =>
      case BootRule =>
      case AssignRule =>
      case DropHandleRule =>
      case BatchCleanupRule =>
    }
  }

  /** VM x is taken from a batch that has too many while it is idle and READY. */
  ghost predicate Surrendered(s: State, x: nat) {
    && x in s.pool && InState(s, x, READY) && x in s.rpc && NoTask(ViewOf(s, x))
    && exists b :: Listed(s, b, x) && Ledger(s, b) < 0
  }

  /** VM x was held by a handle that is overdue. */
  predicate HeldTooLong(s: State, x: nat, now: int) {
    exists h :: h in s.handleData && HandleExpired(s, h, now) && Held(s, h, x)
  }

  lemma ReleaseOneCleans(s: State, b: nat, now: int, op: Op)
    requires Inv(s) && NoneLost(s) && b in s.batches && s.batchData[b].vms != [] && Ledger(s, b) < 0
    requires op.Cleanup? && op in ReleaseOne(s, b, now).next.ops && op !in s.ops
    ensures Surrendered(s, op.vmid)
  {
    InvWF(s);
    ListedKnown(s, b);
    var vms := s.batchData[b].vms;
    var j := First(vms, x => x !in s.vms || InState(s, x, WAIT));
    if j == |vms| {
      ReleaseCleansReadyVm(s, b);
      assert Listed(s, b, vms[0]);
    }
  }

  lemma ReleaseRuleCleans(s: State, now: int, op: Op)
    requires Inv(s) && WF(s) && NoneLost(s) && !RuleRelease(s, now).Idle?
    requires op.Cleanup? && op in RuleRelease(s, now).next.ops && op !in s.ops
    ensures Surrendered(s, op.vmid)
  {
    var b := s.batches[First(s.batches, b => Unbalanced(s, b))];
    if Ledger(s, b) < 0 && b !in s.prepQueue {
      ReleaseOneCleans(s, b, now, op);
    }
  }

  lemma ExpireCleans(s: State, now: int, op: Op)
    requires WF(s) && !RuleHandleExpire(s, now).Idle?
    requires op.Cleanup? && op in RuleHandleExpire(s, now).next.ops && op !in s.ops
    ensures HeldTooLong(s, op.vmid, now)
  {
    var h := s.handles[First(s.handles, h => HandleExpired(s, h, now))];
    assert h in s.handles && HandleExpired(s, h, now);
    if s.handleData[h].vmid.Some? {
      assert Held(s, h, s.handleData[h].vmid.value);
    }
  }

  /** Whatever valid state the cascade runs in, a VM it sends a clean-up was surrendered by a batch, in the pool,
      READY, with a record, a stub and nothing outstanding, or was held by an overdue handle. */
  lemma CascadeCleansIdleVms(s: State, now: int, op: Op)
    requires Inv(s) && WF(s) && !RunRules(s, now).Idle?
    requires op.Cleanup? && op in RunRules(s, now).next.ops && op !in s.ops
    ensures Surrendered(s, op.vmid) || HeldTooLong(s, op.vmid, now)
  {
    var rule := WhichRule(s, now);
    AfterReplace(s, now, rule);
    if rule == ReleaseRule {
      ReleaseRuleCleans(s, now, op);
    } else if rule == HandleExpireRule {
      ExpireCleans(s, now, op);
    } else {
      OthersSendNoCleanup(s, now, rule);
    }
  }

  lemma OthersKeepBatches(s: State, now: int, rule: Rule)
    requires WF(s) && !Try(s, now, rule).Idle? && rule != BatchCleanupRule
    ensures Try(s, now, rule).next.batches == s.batches
  {
    match rule {
      case PoolRule => PoolFrame(s, now);
      case TimeoutRule => TimeoutFrame(s, now);
      case ReleaseRule => ReleaseRuleFrame(s, now);
      case HandleExpireRule => ReleaseKeepsBatches(s, s.handles[First(s.handles, h => HandleExpired(s, h, now))], now);
      case PrepareRule =>
      case ReplaceRule =>
      case BootRule =>
      case AssignRule =>
      case DropHandleRule =>
    }
  }

  lemma ReleaseKeepsBatches(s: State, h: nat, now: int)
    ensures ReleaseVM(s, h, now).next.batches == s.batches
  {
    if h in s.handleData && s.handleData[h].vmid.Some? {
      CleanupFrame(s, s.handleData[h].vmid.value, now);
    }
  }

  /** Whatever valid state the cascade runs in, a batch it deletes is cancelled, and no queued preparation,
      pending lock or VM list refers to it. */
  lemma CascadeDeletesUnreferenced(s: State, now: int, b: nat)
    requires Inv(s) && WF(s) && !RunRules(s, now).Idle?
    requires b in s.batches && b !in RunRules(s, now).next.batches
    ensures s.batchData[b].markDelete && s.batchData[b].vms == []
    ensures b !in s.prepQueue && !LockPending(s, b)
  {
    var rule := WhichRule(s, now);
    AfterReplace(s, now, rule);
    if rule != BatchCleanupRule {
      OthersKeepBatches(s, now, rule);
    } else {
      assert Deletable(s, b);
      DeletedUnreferenced(s, b);
    }
  }
}
