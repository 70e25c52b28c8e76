/** What each operation, and each rule, leaves alone, once for all that reason about it. */
module Frames {
  import opened Collections
  import opened VerStates
  import opened Scheduler
  import opened Invariant
  import opened Steps

  lemma KillFrame(s: State, x: nat, now: int)
    requires x in s.vms
    ensures var t := KillVM(s, x, now);
            && t == s.(pool := Without(s.pool, x), vms := t.vms, ops := t.ops, scheduled := t.scheduled)
            && t.ops <= s.ops + {Kill(x)}
  {
  }

  /** At most one record changes, to WAIT. */
  predicate Waits(s: State, t: State, now: int) {
    && t.vms.Keys == s.vms.Keys
    && (forall y :: y in s.vms ==> t.vms[y] == s.vms[y] || t.vms[y] == s.vms[y].Set(WAIT, now))
  }

  lemma CleanupFrame(s: State, x: nat, now: int)
    ensures var t := CleanupVM(s, x, now).next;
            t == s.(vms := t.vms, ops := t.ops, scheduled := t.scheduled) && Waits(s, t, now)
  {
  }

  lemma BootDoneFrame(s: State, x: nat, ok: bool, now: int)
    requires WF(s)
    ensures var t := BootDone(s, x, ok, now);
            && t == s.(pool := t.pool, vms := t.vms, ops := t.ops, scheduled := t.scheduled)
            && (t.pool == s.pool || t.pool == Without(s.pool, x))
  {
  }

  lemma VerSetFrame(s: State, x: nat, ver: nat, st: BeliefState, now: int)
    ensures var t := VerSetVm(s, x, ver, st, now); t == s.(vms := t.vms)
  {
  }

  lemma PrepareDoneFrame(s: State, x: nat, ver: nat, b: nat, outcome: Outcome, now: int)
    ensures var t := PrepareDone(s, x, ver, b, outcome, now).next;
            t == s.(vms := t.vms, ops := t.ops, scheduled := t.scheduled)
  {
    var s1 := s.(ops := s.ops - {Prepare(x, ver, b)});
    var st := if outcome == Replied(READY_VM) then READY else ERROR;
    var s2 := VerSetVm(s1, x, ver, st, now);
    VerSetFrame(s1, x, ver, st, now);
    if outcome.Replied? {
      CleanupFrame(s2, x, now);
    }
  }

  lemma CleanupDoneFrame(s: State, x: nat, ver: nat, outcome: Outcome, now: int)
    ensures var t := CleanupDone(s, x, ver, outcome, now);
            t == s.(vms := t.vms, ops := t.ops, scheduled := t.scheduled)
  {
  }

  lemma PingReplyFrame(s: State, x: nat, ver: nat, seen: BeliefState, result: VmState, now: int)
    ensures var t := PingReply(s, x, ver, seen, result, now);
            t == s.(vms := t.vms, scheduled := t.scheduled)
  {
  }

  lemma CheckinDoneFrame(s: State, x: nat, ver: nat, hasServer: bool, now: int)
    ensures var t := CheckinDone(s, x, ver, hasServer, now);
            t == s.(vms := t.vms, rpc := t.rpc, scheduled := t.scheduled)
  {
  }

  lemma BootCheckFrame(s: State, x: nat, now: int)
    ensures var t := BootCheckFailed(s, x, now).next;
            && t == s.(pool := t.pool, vms := t.vms, ops := t.ops, scheduled := t.scheduled)
            && (t.pool == s.pool || t.pool == Without(s.pool, x))
  {
    if x in s.vms {
      KillFrame(s, x, now);
    }
  }

  /** No prepare or cleanup call goes out. */
  predicate NoNewTasks(s: State, t: State) {
    forall op :: op in t.ops && IsTask(op) ==> op in s.ops
  }

  /** The pool rule touches the pool and its records, and grows the pool only below its minimum. */
  lemma PoolFrame(s: State, now: int)
    requires WF(s) && !RulePool(s, now).Idle?
    ensures var t := RulePool(s, now).next;
            && t == s.(nextVMID := t.nextVMID, pool := t.pool, vms := t.vms, ops := t.ops, scheduled := t.scheduled)
            && (|t.pool| <= |s.pool| || (|t.pool| == |s.pool| + 1 && |s.pool| < s.size.min))
            && NoNewTasks(s, t)
  {
    if |s.pool| >= s.size.min {
      KillFrame(s, Victim(s, now).value, now);
    }
  }

  lemma TimeoutFrame(s: State, now: int)
    requires WF(s) && !RuleTimeout(s, now).Idle?
    ensures var t := RuleTimeout(s, now).next;
            && t == s.(pool := t.pool, vms := t.vms, ops := t.ops, scheduled := t.scheduled)
            && |t.pool| <= |s.pool| && NoNewTasks(s, t)
  {
    KillFrame(s, s.pool[First(s.pool, x => Expired(s, x, now))], now);
  }

  /** The same batches, up to the VMs they list. */
  predicate SameOrders(s: State, t: State) {
    && t.batchData.Keys == s.batchData.Keys
    && (forall b :: b in s.batchData ==> t.batchData[b].(vms := []) == s.batchData[b].(vms := []))
  }

  lemma UnlistFrame(s: State, b: nat, j: nat)
    requires b in s.batchData && j < |s.batchData[b].vms|
    ensures var t := Unlist(s, b, j); t == s.(batchData := t.batchData) && SameOrders(s, t)
  {
  }

  lemma ReleaseOneFrame(s: State, b: nat, now: int)
    requires b in s.batchData && s.batchData[b].vms != [] && !ReleaseOne(s, b, now).Idle?
    ensures var t := ReleaseOne(s, b, now).next;
            && t == s.(batchData := t.batchData, vms := t.vms, ops := t.ops, scheduled := t.scheduled)
            && SameOrders(s, t) && Waits(s, t, now)
  {
    var vms := s.batchData[b].vms;
    var j := First(vms, x => x !in s.vms || InState(s, x, WAIT));
    if j < |vms| {
      UnlistFrame(s, b, j);
    } else {
      UnlistFrame(s, b, 0);
      CleanupFrame(Unlist(s, b, 0), vms[0], now);
    }
  }

  /** The release rule touches only VM lists, the queue and, for one clean-up, a record. */
  lemma ReleaseRuleFrame(s: State, now: int)
    requires WF(s) && !RuleRelease(s, now).Idle?
    ensures var t := RuleRelease(s, now).next;
            && t == s.(batchData := t.batchData, prepQueue := t.prepQueue,
                       vms := t.vms, ops := t.ops, scheduled := t.scheduled)
            && SameOrders(s, t) && Waits(s, t, now)
  {
    var b := s.batches[First(s.batches, b => Unbalanced(s, b))];
    if Ledger(s, b) < 0 && b !in s.prepQueue {
      ReleaseOneFrame(s, b, now);
    }
  }

  // ---------------------------------------------------------------- what the rules never do

  ghost predicate Shrinks(s: State, t: State) {
    && t.size == s.size && t.cfg == s.cfg && t.restored == s.restored
    && t.nextHandle == s.nextHandle && t.nextBatchID == s.nextBatchID
    && (forall h :: h in t.handleData ==> h in s.handleData)
    && (forall h :: h in t.handles ==> h in s.handles)
    && (forall p :: p in t.pendingLocks ==> p in s.pendingLocks)
    && (forall b :: b in t.batchData ==>
          b in s.batchData && t.batchData[b].(vms := []) == s.batchData[b].(vms := []))
  }

  lemma AssignShrinks(s: State, now: int)
    requires WF(s) && RuleAssign(s, now).Fired?
    ensures Shrinks(s, RuleAssign(s, now).next)
  {
  }

  lemma ReleaseShrinks(s: State, h: nat, now: int)
    ensures Shrinks(s, ReleaseVM(s, h, now).next)
  {
  }

  lemma RuleShrinks(s: State, now: int, rule: Rule)
    requires WF(s) && !Try(s, now, rule).Idle?
    ensures Shrinks(s, Try(s, now, rule).next)
  {
    match rule {
      case PoolRule => PoolFrame(s, now);
      case TimeoutRule => TimeoutFrame(s, now);
      case PrepareRule =>
      case ReplaceRule =>
      case BootRule =>
      case AssignRule => AssignShrinks(s, now);
      case DropHandleRule =>
      case ReleaseRule => ReleaseRuleFrame(s, now);
      case BatchCleanupRule =>
      case HandleExpireRule => ReleaseShrinks(s, s.handles[First(s.handles, h => HandleExpired(s, h, now))], now);
    }
  }

  lemma RulesShrink(s: State, now: int)
    requires WF(s) && !RunRules(s, now).Idle?
    ensures Shrinks(s, RunRules(s, now).next)
  {
    var rule := WhichRule(s, now);
    RuleShrinks(s, now, rule);
  }
}
