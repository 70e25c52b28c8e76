/** When no rule fires: an exact description of the quiescent states. */
module Quiescence {
  import opened Collections
  import opened VerStates
  import opened Scheduler
  import opened Invariant
  import opened Steps

  // ---------------------------------------------------------------- the limits, spelled out

  /** FREE for longer than the linger time. */
  predicate FreeTooLong(vm: Vm, linger: int, now: int) {
    vm.state == FREE && now - vm.changeTime > linger
  }

  /** Refreshed within the limit of its state. */
  predicate OnTime(vm: Vm, cfg: Config, now: int) {
    var age := now - vm.refreshTime;
    && (vm.state == CREATING ==> age <= cfg.openstack)
    && (vm.state == BOOTING ==> age <= cfg.boot)
    && (vm.state == FREE || vm.state == READY || vm.state == OCCUPIED ==> age <= cfg.update)
    && (vm.state == WAIT ==> age <= cfg.operation)
    && (vm.state == ERROR ==> age <= 0)
  }

  /** Past the deadline a client has set. */
  predicate Overdue(info: HandleInfo, now: int) {
    info.expireTime.Some? && info.expireTime.value < now
  }

  /** The pool VMs that are being created or booted. */
  function StartingVms(s: State): set<nat> {
    set x | x in s.pool && (InState(s, x, CREATING) || InState(s, x, BOOTING))
  }

  function StartingOf(s: State, xs: seq<nat>): set<nat> {
    set x | x in xs && (InState(s, x, CREATING) || InState(s, x, BOOTING))
  }

  lemma StartingGrows(s: State, xs: seq<nat>, y: nat)
    requires y !in xs
    ensures |StartingOf(s, xs + [y])|
         == |StartingOf(s, xs)| + if InState(s, y, CREATING) || InState(s, y, BOOTING) then 1 else 0
  {
    assert StartingOf(s, xs + [y])
        == StartingOf(s, xs) + if InState(s, y, CREATING) || InState(s, y, BOOTING) then {y} else {};
  }

  lemma {:induction false} CountIsStarting(s: State, xs: seq<nat>)
    requires Distinct(xs)
    ensures CountStarting(s, xs) == |StartingOf(s, xs)|
  {
    if xs == [] {
    } else {
      var rest := xs[..|xs| - 1];
      assert xs == rest + [xs[|xs| - 1]];
      CountIsStarting(s, rest);
      StartingGrows(s, rest, xs[|xs| - 1]);
    }
  }

  /** The count of the boot rule is the number of starting pool VMs. */
  lemma CountsStarting(s: State)
    requires Distinct(s.pool)
    ensures CountStarting(s, s.pool) == |StartingVms(s)|
  {
    CountIsStarting(s, s.pool);
    assert StartingOf(s, s.pool) == StartingVms(s);
  }

  /** The pool has its minimum, nothing above it lingers, above the maximum nothing is left to shut down,
      and every VM is on time. */
  ghost predicate PoolSettled(s: State, now: int) {
    && |s.pool| >= s.size.min
    && (|s.pool| > s.size.min ==>
          forall x :: x in s.pool && x in s.vms ==> !FreeTooLong(s.vms[x], s.size.linger, now))
    && (|s.pool| > s.size.max ==> forall x :: x in s.pool ==> !InState(s, x, FREE) && !InState(s, x, BOOTING))
    && (forall x :: x in s.pool && x in s.vms ==> OnTime(s.vms[x], s.cfg, now))
  }

  /** A waiting preparation finds no FREE VM, and either the pool is full or enough VMs are starting. */
  ghost predicate QueueSettled(s: State) {
    s.prepQueue != [] ==>
      && (forall x :: x in s.pool ==> !InState(s, x, FREE))
      && (|s.pool| >= s.size.max || |s.prepQueue| <= |StartingVms(s)|)
  }

  /** Every batch has exactly what it is owed, in live VMs, and no finished batch is left. */
  ghost predicate BatchesSettled(s: State) {
    && (forall b :: b in s.batchData ==> Ledger(s, b) == 0)
    && (forall b: nat, x: nat :: Listed(s, b, x) ==> x in s.pool && !InState(s, x, ERROR))
    && (forall b :: b in s.batchData && s.batchData[b].markDelete && s.batchData[b].size == 0 ==>
          s.batchData[b].vms != [] || LockPending(s, b))
  }

  /** No lock waits while its batch has a READY VM; every assigned handle has its VM; no handle is overdue. */
  ghost predicate HandlesSettled(s: State, now: int) {
    && (forall p, x :: p in s.pendingLocks && Listed(s, p.batchId, x) && x in s.pool ==> !InState(s, x, READY))
    && (forall h: nat, x: nat :: Held(s, h, x) ==> x in s.pool)
    && (forall h :: h in s.handleData ==> !Overdue(s.handleData[h], now))
  }

  ghost predicate Settled(s: State, now: int)
    requires WF(s)
  {
    PoolSettled(s, now) && QueueSettled(s) && BatchesSettled(s) && HandlesSettled(s, now)
  }

  /** What the timeout rule does nothing about: every pool VM within the limit of its state. */
  lemma TimeoutIdleExactly(s: State, now: int)
    requires WF(s)
    ensures RuleTimeout(s, now).Idle? <==> forall x :: x in s.pool && x in s.vms ==> OnTime(s.vms[x], s.cfg, now)
  {
  }

  lemma PoolRuleIdleExactly(s: State, now: int)
    requires WF(s)
    ensures RulePool(s, now).Idle?
       <==> && |s.pool| >= s.size.min
            && (|s.pool| > s.size.min ==>
                  forall x :: x in s.pool && x in s.vms ==> !FreeTooLong(s.vms[x], s.size.linger, now))
            && (|s.pool| > s.size.max ==>
                  forall x :: x in s.pool ==> !InState(s, x, FREE) && !InState(s, x, BOOTING))
  {
    assert forall x :: x in s.pool ==> (Lingering(s, x, now) <==> FreeTooLong(s.vms[x], s.size.linger, now));
  }

  lemma PoolIdle(s: State, now: int)
    requires WF(s)
    ensures RulePool(s, now).Idle? && RuleTimeout(s, now).Idle? <==> PoolSettled(s, now)
  {
    PoolRuleIdleExactly(s, now);
    TimeoutIdleExactly(s, now);
  }

  /** The boot rule fires exactly when the pool has room, no VM is FREE, and more preparations wait than VMs start. */
  lemma BootRuleFiresExactly(s: State, now: int)
    requires WF(s) && Distinct(s.pool)
    ensures RuleBoot(s, now).Fired?
       <==> && |s.pool| < s.size.max && (forall x :: x in s.pool ==> !InState(s, x, FREE))
            && |s.prepQueue| > |StartingVms(s)|
    ensures !RuleBoot(s, now).Failed?
  {
    CountsStarting(s);
  }

  lemma QueueIdle(s: State, now: int)
    requires WF(s) && Distinct(s.pool)
    ensures RulePrepare(s, now).Idle? && RuleBoot(s, now).Idle? <==> QueueSettled(s)
  {
    BootRuleFiresExactly(s, now);
  }

  lemma BatchesIdle(s: State, now: int)
    requires WF(s) && Structure(s)
    ensures RuleReplace(s).Idle? && RuleRelease(s, now).Idle? && RuleBatchCleanup(s).Idle? <==> BatchesSettled(s)
  {
    IdleMeans(s, now);
    assert RuleBatchCleanup(s).Idle? <==> forall b :: b in s.batches ==> !Deletable(s, b);
    if BatchesSettled(s) {
      forall b | b in s.batches ensures !HasLost(s, b) && !Unbalanced(s, b) && !Deletable(s, b) {
        assert forall x :: x in s.batchData[b].vms ==> Listed(s, b, x);
      }
    }
    if NoneLost(s) && Balanced(s) && RuleBatchCleanup(s).Idle? {
      forall b: nat, x: nat | Listed(s, b, x) ensures x in s.pool && !InState(s, x, ERROR) {
        assert !HasLost(s, b);
        assert !Lost(s, x);
      }
      forall b | b in s.batchData ensures Ledger(s, b) == 0 && !Deletable(s, b) {
        assert !Unbalanced(s, b);
      }
    }
  }

  lemma HandlesIdle(s: State, now: int)
    requires WF(s) && Structure(s)
    ensures RuleAssign(s, now).Idle? && RuleDropHandle(s).Idle? && RuleHandleExpire(s, now).Idle?
            <==> HandlesSettled(s, now)
  {
    AssignIdle(s, now);
    DropHandleIdle(s);
    ExpireIdle(s, now);
  }

  lemma DropHandleIdle(s: State)
    requires WF(s) && Structure(s)
    ensures RuleDropHandle(s).Idle? <==> forall h: nat, x: nat :: Held(s, h, x) ==> x in s.pool
  {
    if RuleDropHandle(s).Idle? {
      forall h: nat, x: nat | Held(s, h, x) ensures x in s.pool {
        assert !Orphan(s, h);
      }
    } else {
      var h := s.handles[First(s.handles, h => Orphan(s, h))];
      assert Held(s, h, s.handleData[h].vmid.value);
    }
  }

  lemma ExpireIdle(s: State, now: int)
    requires WF(s) && Structure(s)
    ensures RuleHandleExpire(s, now).Idle? <==> forall h :: h in s.handleData ==> !Overdue(s.handleData[h], now)
  {
  }

  lemma AssignIdle(s: State, now: int)
    requires WF(s)
    ensures RuleAssign(s, now).Idle?
            <==> forall p, x :: p in s.pendingLocks && Listed(s, p.batchId, x) && x in s.pool ==> !InState(s, x, READY)
  {
    if RuleAssign(s, now).Idle? {
      forall p, x | p in s.pendingLocks && Listed(s, p.batchId, x) && x in s.pool ensures !InState(s, x, READY) {
        assert !HasLockable(s, p.batchId);
        assert !Lockable(s, x);
      }
    } else {
      var i := First(s.pendingLocks, (p: PendingLock) => HasLockable(s, p.batchId));
      var p := s.pendingLocks[i];
      var x :| x in s.batchData[p.batchId].vms && Lockable(s, x);
      assert p in s.pendingLocks && Listed(s, p.batchId, x);
    }
  }

  lemma Idles(s: State, now: int, rule: Rule)
    requires WF(s) && Try(s, now, rule).Idle?
    ensures rule == PoolRule ==> RulePool(s, now).Idle?
    ensures rule == PrepareRule ==> RulePrepare(s, now).Idle?
    ensures rule == ReplaceRule ==> RuleReplace(s).Idle?
    ensures rule == BootRule ==> RuleBoot(s, now).Idle?
    ensures rule == AssignRule ==> RuleAssign(s, now).Idle?
    ensures rule == DropHandleRule ==> RuleDropHandle(s).Idle?
    ensures rule == ReleaseRule ==> RuleRelease(s, now).Idle?
    ensures rule == TimeoutRule ==> RuleTimeout(s, now).Idle?
    ensures rule == BatchCleanupRule ==> RuleBatchCleanup(s).Idle?
    ensures rule == HandleExpireRule ==> RuleHandleExpire(s, now).Idle?
  {
  }

  lemma SettledIdle(s: State, now: int, rule: Rule)
    requires WF(s) && Structure(s) && Settled(s, now)
    ensures Try(s, now, rule).Idle?
  {
    match rule {
      case PoolRule | TimeoutRule => PoolIdle(s, now);
      case PrepareRule | BootRule => QueueIdle(s, now);
      case ReplaceRule | ReleaseRule | BatchCleanupRule => BatchesIdle(s, now);
      case AssignRule | DropHandleRule | HandleExpireRule => HandlesIdle(s, now);
    }
  }

  /** No rule fires in exactly the settled states. */
  lemma QuiescentExactly(s: State, now: int)
    requires WF(s) && Structure(s)
    ensures Quiescent(s, now) <==> Settled(s, now)
  {
    AllIdle(s, now);
    if Quiescent(s, now) {
      Idles(s, now, PoolRule); Idles(s, now, TimeoutRule);
      Idles(s, now, PrepareRule); Idles(s, now, BootRule);
      Idles(s, now, ReplaceRule); Idles(s, now, ReleaseRule); Idles(s, now, BatchCleanupRule);
      Idles(s, now, AssignRule); Idles(s, now, DropHandleRule); Idles(s, now, HandleExpireRule);
      PoolIdle(s, now);
      QueueIdle(s, now);
      BatchesIdle(s, now);
      HandlesIdle(s, now);
    } else if Settled(s, now) {
      forall rule ensures Try(s, now, rule).Idle? {
        SettledIdle(s, now, rule);
      }
    }
  }

  /** At rest a lock is waited for, not forgotten: the batch is owed exactly the preparations still queued and
      the VMs it lists, and each of those is in the pool, in WAIT, with its preparation for this batch running. */
  lemma LocksCovered(s: State, now: int, b: nat)
    requires Inv(s) && WF(s) && Quiescent(s, now) && LockPending(s, b)
    ensures b in s.batchData
    ensures 0 < LockCount(s.pendingLocks, b)
         && s.batchData[b].size + LockCount(s.pendingLocks, b) == |s.batchData[b].vms| + Occurrences(s, b)
    ensures forall x :: x in s.batchData[b].vms ==>
              x in s.pool && InState(s, x, WAIT) && Prepare(x, s.vms[x].version, b) in s.ops
  {
    QuiescentExactly(s, now);
    LockCountPositive(s.pendingLocks, b);
    assert Ledger(s, b) == 0;
    forall x | x in s.batchData[b].vms
      ensures x in s.pool && InState(s, x, WAIT) && Prepare(x, s.vms[x].version, b) in s.ops
    {
      assert Listed(s, b, x);
      ListedAtRest(s, b, x);
    }
  }

  lemma ListedAtRest(s: State, b: nat, x: nat)
    requires Inv(s) && BatchesSettled(s) && Listed(s, b, x) && !InState(s, x, READY)
    ensures x in s.pool && InState(s, x, WAIT) && Prepare(x, s.vms[x].version, b) in s.ops
  {
    var v := ViewOf(s, x);
    assert VmOk(v) && b in v.batches;
    assert Awaited(v);
    var op :| op in v.ops && IsTask(op) && op.ver == s.vms[x].version;
    assert op == Prepare(x, s.vms[x].version, b);
  }
}
