/** With the clock stopped and no other event, the rule engine comes to rest. */
module Termination {
  import opened Collections
  import opened VerStates
  import opened Scheduler
  import opened Invariant
  import opened Frames
  import opened Steps
  import opened Ledgers

  // ---------------------------------------------------------------- the measure

  /** VMs of the pool that a rule may still shut down or take. */
  function Killable(s: State, now: int): set<nat> {
    set x | x in s.pool && (InState(s, x, FREE) || InState(s, x, BOOTING) || Expired(s, x, now))
  }

  function Abs(n: int): nat {
    if n < 0 then -n else n
  }

  function Imbalance(s: State, bs: seq<nat>): nat
    requires forall b :: b in bs ==> b in s.batchData
  {
    if bs == [] then 0 else Abs(Ledger(s, bs[0])) + Imbalance(s, bs[1..])
  }

  function ListedVms(s: State): set<nat> {
    set b, x | b in s.batchData && x in s.batchData[b].vms :: x
  }

  /** How many VMs the pool may still grow by. */
  function Room(s: State): nat {
    var cap := if s.size.min > s.size.max then s.size.min else s.size.max;
    if |s.pool| < cap then cap - |s.pool| else 0
  }

  /** t is below s in the lexicographic order of
      (handles, pending locks, killable VMs, batches, imbalance, listed VMs, room). */
  ghost predicate Below(t: State, s: State, now: int)
    requires WF(s) && WF(t)
  {
    || |t.handles| < |s.handles|
    || (|t.handles| == |s.handles| &&
        (|| |t.pendingLocks| < |s.pendingLocks|
         || (|t.pendingLocks| == |s.pendingLocks| &&
             (|| |Killable(t, now)| < |Killable(s, now)|
              || (|Killable(t, now)| <= |Killable(s, now)| && BelowInBatches(t, s))))))
  }

  ghost predicate BelowInBatches(t: State, s: State)
    requires WF(s) && WF(t)
  {
    || |t.batches| < |s.batches|
    || (|t.batches| == |s.batches| &&
        (|| Imbalance(t, t.batches) < Imbalance(s, s.batches)
         || (Imbalance(t, t.batches) == Imbalance(s, s.batches) &&
             (|| |ListedVms(t)| < |ListedVms(s)|
              || (|ListedVms(t)| == |ListedVms(s)| && Room(t) < Room(s))))))
  }

  // ---------------------------------------------------------------- what each rule does to it

  lemma {:induction false} ImbalanceSame(s: State, t: State, bs: seq<nat>)
    requires forall b :: b in bs ==> b in s.batchData && b in t.batchData && Ledger(s, b) == Ledger(t, b)
    ensures Imbalance(t, bs) == Imbalance(s, bs)
  {
    if bs == [] {
    } else {
      ImbalanceSame(s, t, bs[1..]);
    }
  }

  lemma {:induction false} ImbalanceStep(s: State, t: State, bs: seq<nat>, c: nat)
    requires Distinct(bs) && c in bs
    requires forall b :: b in bs ==> b in s.batchData && b in t.batchData
    requires forall b :: b in bs ==> Ledger(t, b) == if b == c then TowardsZero(Ledger(s, b)) else Ledger(s, b)
    requires Ledger(s, c) != 0
    ensures Imbalance(t, bs) == Imbalance(s, bs) - 1
  {
    if bs[0] == c {
      assert c !in bs[1..];
      ImbalanceSame(s, t, bs[1..]);
    } else {
      ImbalanceStep(s, t, bs[1..], c);
    }
  }

  lemma KillBelow(s: State, x: nat, now: int)
    requires WF(s) && x in s.pool && x in Killable(s, now) && WF(KillVM(s, x, now))
    ensures Below(KillVM(s, x, now), s, now)
  {
    var t := KillVM(s, x, now);
    forall y | y in Killable(t, now) ensures y in Killable(s, now) && y != x {
      assert y in t.pool && t.vms[y] == s.vms[y];
    }
    SubsetSize(Killable(t, now), Killable(s, now));
  }

  lemma BootBelow(s: State, now: int)
    requires WF(s) && Structure(s) && Unseen(ViewOf(s, s.nextVMID)) && WF(BootNewVM(s, now))
    requires |s.pool| < s.size.min || |s.pool| < s.size.max
    ensures Below(BootNewVM(s, now), s, now)
  {
    var t := BootNewVM(s, now);
    assert t.vms[s.nextVMID] == NewVm(CREATING, now);
    forall y | y in Killable(t, now) ensures y in Killable(s, now) {
      assert y != s.nextVMID && t.vms[y] == s.vms[y];
    }
    SubsetSize(Killable(t, now), Killable(s, now));
    ImbalanceSame(s, t, s.batches);
    assert ListedVms(t) == ListedVms(s);
  }

  lemma PrepareBelow(s: State, x: nat, now: int)
    requires WF(s) && s.prepQueue != [] && x in s.pool && InState(s, x, FREE) && WF(PrepareNext(s, x, now))
    ensures Below(PrepareNext(s, x, now), s, now)
  {
    var t := PrepareNext(s, x, now);
    RefreshedNotKillable(s.vms[x], s.cfg, WAIT, now);
    forall y | y in Killable(t, now) ensures y in Killable(s, now) && y != x {
      assert y != x ==> t.vms[y] == s.vms[y];
    }
    assert x in Killable(s, now);
    SubsetSize(Killable(t, now), Killable(s, now));
  }

  lemma RefreshedNotKillable(vm: Vm, cfg: Config, st: BeliefState, now: int)
    ensures !vm.Set(st, now).TimedOut(cfg, now)
  {
  }

  lemma ReplaceBelowInBatches(s: State)
    requires Inv(s) && WF(s) && RuleReplace(s).Fired? && WF(RuleReplace(s).next)
    ensures BelowInBatches(RuleReplace(s).next, s)
  {
    var t := RuleReplace(s).next;
    var b := s.batches[First(s.batches, b => HasLost(s, b))];
    var j := First(s.batchData[b].vms, x => Lost(s, x));
    forall c | c in s.batches ensures c in t.batchData && Ledger(t, c) == Ledger(s, c) {
      ReplaceKeeps(s, c);
    }
    ImbalanceSame(s, t, s.batches);
    UnlistShrinks(s, b, j);
    assert ListedVms(t) == ListedVms(Unlist(s, b, j));
  }

  lemma ReplaceBelow(s: State, now: int)
    requires WF(s) && RuleReplace(s).Fired? && WF(RuleReplace(s).next)
    requires BelowInBatches(RuleReplace(s).next, s)
    ensures Below(RuleReplace(s).next, s, now)
  {
    assert Killable(RuleReplace(s).next, now) == Killable(s, now);
  }

  lemma UnlistShrinks(s: State, b: nat, j: nat)
    requires Inv(s) && b in s.batchData && j < |s.batchData[b].vms|
    ensures |ListedVms(Unlist(s, b, j))| < |ListedVms(s)|
  {
    var t := Unlist(s, b, j);
    var x := s.batchData[b].vms[j];
    RemoveAtDistinct(s.batchData[b].vms, j);
    assert VmOk(ViewOf(s, x)) && b in ViewOf(s, x).batches;
    forall y | y in ListedVms(t) ensures y in ListedVms(s) && y != x {
      var c :| c in t.batchData && y in t.batchData[c].vms;
      assert y in s.batchData[c].vms;
      assert y == x ==> c in ViewOf(s, x).batches;
    }
    assert x in ListedVms(s);
    SubsetSize(ListedVms(t), ListedVms(s));
  }

  lemma ReleaseBelow(s: State, now: int)
    requires Inv(s) && WF(s) && NoneLost(s) && RuleRelease(s, now).Fired? && WF(RuleRelease(s, now).next)
    ensures Below(RuleRelease(s, now).next, s, now)
  {
    var t := RuleRelease(s, now).next;
    IdleMeans(s, now);
    ReleaseRuleFrame(s, now);
    forall y | y in Killable(t, now) ensures y in Killable(s, now) {
      if t.vms[y] != s.vms[y] {
        RefreshedNotKillable(s.vms[y], s.cfg, WAIT, now);
      }
    }
    SubsetSize(Killable(t, now), Killable(s, now));
    forall b | b in s.batches
      ensures b in t.batchData
      ensures Ledger(t, b) == if b == Target(s) then TowardsZero(Ledger(s, b)) else Ledger(s, b)
    {
      ReleaseRuleMoves(s, now, b);
    }
    ImbalanceStep(s, t, s.batches, Target(s));
  }

  lemma BatchCleanupBelow(s: State, now: int)
    requires WF(s) && RuleBatchCleanup(s).Fired? && WF(RuleBatchCleanup(s).next)
    ensures Below(RuleBatchCleanup(s).next, s, now)
  {
    assert Killable(RuleBatchCleanup(s).next, now) == Killable(s, now);
  }

  lemma ReleaseVMBelow(s: State, h: nat, now: int)
    requires h in s.handles && ReleaseVM(s, h, now).Done? && h in s.handleData
    requires s.handleData[h].vmid.None? ==> exists p :: p in s.pendingLocks && p.handle == h
    ensures |ReleaseVM(s, h, now).next.handles| < |s.handles|
  {
  }

  lemma ExpireBelow(s: State, now: int)
    requires WF(s) && Structure(s) && RuleHandleExpire(s, now).Fired? && WF(RuleHandleExpire(s, now).next)
    ensures Below(RuleHandleExpire(s, now).next, s, now)
  {
    var h := s.handles[First(s.handles, h => HandleExpired(s, h, now))];
    assert s.handleData[h].vmid.None? ==> PendingHandle(s.pendingLocks, h);
    ReleaseVMBelow(s, h, now);
  }

  lemma RuleBelow(s: State, now: int, rule: Rule)
    requires Inv(s) && WF(s) && Try(s, now, rule).Fired? && WF(Try(s, now, rule).next)
    requires rule == ReleaseRule ==> NoneLost(s)
    ensures Below(Try(s, now, rule).next, s, now)
  {
    assert Unseen(ViewOf(s, s.nextVMID));
    match rule {
      case PoolRule =>
        if |s.pool| < s.size.min {
          BootBelow(s, now);
        } else {
          KillBelow(s, Victim(s, now).value, now);
        }
      case PrepareRule => PrepareBelow(s, s.pool[First(s.pool, x => InState(s, x, FREE))], now);
      case ReplaceRule => ReplaceBelowInBatches(s); ReplaceBelow(s, now);
      case BootRule => BootBelow(s, now);
      case AssignRule =>
      case DropHandleRule =>
      case ReleaseRule => ReleaseBelow(s, now);
      case TimeoutRule => KillBelow(s, s.pool[First(s.pool, x => Expired(s, x, now))], now);
      case BatchCleanupRule => BatchCleanupBelow(s, now);
      case HandleExpireRule => ExpireBelow(s, now);
    }
  }

  /** Every firing goes down in the measure, so the cascade ends. */
  lemma CascadeDescends(s: State, now: int)
    requires Inv(s) && WF(s) && RunRules(s, now).Fired?
    ensures WF(RunRules(s, now).next) && Below(RunRules(s, now).next, s, now)
  {
    RulesInv(s, now);
    InvWF(RunRules(s, now).next);
    var rule := WhichRule(s, now);
    AfterReplace(s, now, rule);
    RuleBelow(s, now, rule);
  }

  // ---------------------------------------------------------------- running to rest

  lemma UnscheduledSame(s: State, t: State, now: int)
    requires WF(s) && WF(t) && Below(t, s.(scheduled := false), now)
    ensures Below(t.(scheduled := true), s, now)
  {
    var s0 := s.(scheduled := false);
    var t1 := t.(scheduled := true);
    ImbalanceSame(s, s0, s.batches);
    ImbalanceSame(t, t1, t.batches);
    assert Killable(s0, now) == Killable(s, now) && Killable(t1, now) == Killable(t, now);
    assert ListedVms(s0) == ListedVms(s) && ListedVms(t1) == ListedVms(t);
  }

  lemma ExecuteDescends(s: State, now: int)
    requires Inv(s) && WF(s) && ExecuteRules(s, now).Done? && ExecuteRules(s, now).next.scheduled
    ensures Inv(ExecuteRules(s, now).next) && WF(ExecuteRules(s, now).next)
    ensures Below(ExecuteRules(s, now).next, s, now)
  {
    var s0 := s.(scheduled := false);
    SameViews(s, s0);
    ExecuteRulesInv(s, now);
    InvWF(ExecuteRules(s, now).next);
    CascadeDescends(s0, now);
    UnscheduledSame(s, RunRules(s0, now).next, now);
  }

  lemma IdleStops(s: State, now: int)
    requires Inv(s) && WF(s) && ExecuteRules(s, now).Done? && !ExecuteRules(s, now).next.scheduled
    ensures ExecuteRules(s, now).next == s.(scheduled := false) && Quiescent(s.(scheduled := false), now)
    ensures Inv(s.(scheduled := false))
  {
    SameViews(s, s.(scheduled := false));
  }

  /** The event loop with nothing else to do: executeRules again and again while it is scheduled.
      That this function terminates is the claim; its measure is the one of Below. */
  function Settle(s: State, now: int): (r: Effect)
    requires Inv(s) && WF(s)
    ensures Inv(r.next) && WF(r.next)
    ensures r.Done? ==> !r.next.scheduled && (s.scheduled ==> Quiescent(r.next, now))
    decreases |s.handles|, |s.pendingLocks|, |Killable(s, now)|, |s.batches|,
              Imbalance(s, s.batches), |ListedVms(s)|, Room(s), s.scheduled
  {
    if !s.scheduled then Done(s) else
    var r := ExecuteRules(s, now);
    if r.Threw? then ExecuteRulesInv(s, now); InvWF(r.next); r
    else if r.next.scheduled then ExecuteDescends(s, now); Settle(r.next, now)
    else IdleStops(s, now); r
  }

  lemma SettleStep(s: State, now: int)
    requires Inv(s) && WF(s) && s.scheduled
    ensures var r := ExecuteRules(s, now);
            && Inv(r.next) && WF(r.next)
            && Settle(s, now) == if r.Threw? || !r.next.scheduled then r else Settle(r.next, now)
  {
    ExecuteRulesInv(s, now);
    InvWF(ExecuteRules(s, now).next);
  }

  // ---------------------------------------------------------------- when the cascade throws

  /** A held pool VM without a stub that is not overdue itself: no rule takes it from its handle. */
  predicate Stranded(v: VmView, cfg: Config, now: int) {
    v.inPool && !v.stub && v.handles != {} && v.vm.Some? && !v.vm.value.TimedOut(cfg, now)
  }

  /** An overdue handle holds such a VM. */
  ghost predicate Doomed(s: State, now: int) {
    exists h: nat, x: nat :: DoomedBy(s, h, x, now)
  }

  predicate DoomedBy(s: State, h: nat, x: nat, now: int) {
    Held(s, h, x) && HandleExpired(s, h, now) && x in s.pool && x !in s.rpc && !Expired(s, x, now)
  }

  /** From s to t handles may go, and then keep their deadlines; only VMs that are not stranded change. */
  ghost predicate StrandsKept(s: State, t: State, now: int) {
    && t.cfg == s.cfg
    && (forall h :: h in t.handleData ==> h in s.handleData && t.handleData[h].expireTime == s.handleData[h].expireTime)
    && (forall x: nat :: StrandKept(ViewOf(s, x), ViewOf(t, x), s.cfg, now))
  }

  predicate StrandKept(v: VmView, u: VmView, cfg: Config, now: int) {
    u == v || (!Stranded(v, cfg, now) && !Stranded(u, cfg, now))
  }

  lemma DoomedIsStranded(s: State, h: nat, x: nat, now: int)
    requires WF(s)
    ensures DoomedBy(s, h, x, now)
       <==> h in ViewOf(s, x).handles && HandleExpired(s, h, now) && Stranded(ViewOf(s, x), s.cfg, now)
  {
  }

  lemma DoomKept(s: State, t: State, now: int)
    requires StrandsKept(s, t, now) && WF(s) && WF(t)
    ensures Doomed(t, now) <==> Doomed(s, now)
  {
    forall h: nat, x: nat ensures DoomedBy(t, h, x, now) <==> DoomedBy(s, h, x, now) {
      DoomedIsStranded(s, h, x, now);
      DoomedIsStranded(t, h, x, now);
      assert StrandKept(ViewOf(s, x), ViewOf(t, x), s.cfg, now);
    }
  }

  /** A rule that changes one VM, which is stranded neither before nor after. */
  lemma OneKept(s: State, t: State, y: nat, now: int)
    requires t.cfg == s.cfg
    requires forall h :: h in t.handleData ==>
               h in s.handleData && t.handleData[h].expireTime == s.handleData[h].expireTime
    requires forall x: nat :: x != y ==> ViewOf(t, x) == ViewOf(s, x)
    requires StrandKept(ViewOf(s, y), ViewOf(t, y), s.cfg, now)
    ensures StrandsKept(s, t, now)
  {
  }

  lemma BootKept(s: State, now: int)
    requires Inv(s)
    ensures StrandsKept(s, BootNewVM(s, now), now)
  {
    var y := s.nextVMID;
    OpsChange(s.ops, Boot(y));
    assert Unseen(ViewOf(s, y));
    assert ViewOf(BootNewVM(s, now), y).handles == {};
    OneKept(s, BootNewVM(s, now), y, now);
  }

  /** The rules shut down only VMs no handle holds, or overdue ones. */
  lemma KillKept(s: State, y: nat, now: int)
    requires Inv(s) && WF(s) && y in s.pool
    requires InState(s, y, FREE) || InState(s, y, BOOTING) || Expired(s, y, now)
    ensures StrandsKept(s, KillVM(s, y, now), now)
  {
    assert VmOk(ViewOf(s, y));
    KillFrame(s, y, now);
    KillView(s, y, now);
    OneKept(s, KillVM(s, y, now), y, now);
  }

  lemma PrepareKept(s: State, y: nat, now: int)
    requires Inv(s) && WF(s) && s.prepQueue != [] && y in s.pool && InState(s, y, FREE)
    ensures StrandsKept(s, PrepareNext(s, y, now), now)
  {
    PrepareView(s, y, now);
    OneKept(s, PrepareNext(s, y, now), y, now);
  }

  lemma ReplaceKept(s: State, now: int)
    requires Inv(s) && WF(s) && RuleReplace(s).Fired?
    ensures StrandsKept(s, RuleReplace(s).next, now)
  {
    var b := s.batches[First(s.batches, b => HasLost(s, b))];
    var j := First(s.batchData[b].vms, x => Lost(s, x));
    UnlistKept(s, b, j, now);
    var u := Unlist(s, b, j);
    assert forall x: nat :: ViewOf(RuleReplace(s).next, x) == ViewOf(u, x);
  }

  lemma UnlistKept(s: State, b: nat, j: nat, now: int)
    requires Inv(s) && b in s.batchData && j < |s.batchData[b].vms|
    ensures StrandsKept(s, Unlist(s, b, j), now)
  {
    var y := s.batchData[b].vms[j];
    assert VmOk(ViewOf(s, y)) && b in ViewOf(s, y).batches;
    UnlistView(s, b, j);
    OneKept(s, Unlist(s, b, j), y, now);
  }

  lemma AssignKept(s: State, now: int)
    requires Inv(s) && WF(s) && RuleAssign(s, now).Fired?
    ensures StrandsKept(s, RuleAssign(s, now).next, now)
  {
    var p := s.pendingLocks[First(s.pendingLocks, (p: PendingLock) => HasLockable(s, p.batchId))];
    var x := s.batchData[p.batchId].vms[First(s.batchData[p.batchId].vms, x => Lockable(s, x))];
    AssignInv(s, now);
    AssignDeadlines(s, now);
    assert VmOk(ViewOf(s, x));
    ReadyKept(ViewOf(s, x), p.handle, s.cfg, now);
    OneKept(s, RuleAssign(s, now).next, x, now);
  }

  lemma AssignDeadlines(s: State, now: int)
    requires WF(s) && RuleAssign(s, now).Fired?
    ensures var t := RuleAssign(s, now).next;
            && t.cfg == s.cfg
            && forall h :: h in t.handleData ==>
                 h in s.handleData && t.handleData[h].expireTime == s.handleData[h].expireTime
  {
  }

  lemma ReadyKept(v: VmView, h: nat, cfg: Config, now: int)
    requires VmOk(v) && v.inPool && v.vm.value.state == READY
    ensures StrandKept(v, v.(vm := Some(v.vm.value.Set(OCCUPIED, now)), batches := {}, handles := {h}), cfg, now)
  {
  }

  lemma DropHandleKept(s: State, now: int)
    requires Inv(s) && WF(s) && RuleDropHandle(s).Fired?
    ensures StrandsKept(s, RuleDropHandle(s).next, now)
  {
    var h := s.handles[First(s.handles, h => Orphan(s, h))];
    DropHandleView(s);
    OneKept(s, RuleDropHandle(s).next, s.handleData[h].vmid.value, now);
  }

  lemma ReleaseOneKept(s: State, b: nat, now: int)
    requires Inv(s) && WF(s) && NoneLost(s) && b in s.batches && s.batchData[b].vms != []
    ensures StrandsKept(s, ReleaseOne(s, b, now).next, now)
  {
    ListedKnown(s, b);
    var vms := s.batchData[b].vms;
    var j := First(vms, x => x !in s.vms || InState(s, x, WAIT));
    if j < |vms| {
      UnlistKept(s, b, j, now);
    } else {
      ReleaseCleansReadyVm(s, b);
      assert VmOk(ViewOf(s, vms[0]));
      UnlistView(s, b, 0);
      CleanupFrame(Unlist(s, b, 0), vms[0], now);
      CleanupView(Unlist(s, b, 0), vms[0], now);
      OneKept(s, ReleaseOne(s, b, now).next, vms[0], now);
    }
  }

  lemma ReleaseKept(s: State, now: int)
    requires Inv(s) && WF(s) && NoneLost(s) && RuleRelease(s, now).Fired?
    ensures StrandsKept(s, RuleRelease(s, now).next, now)
  {
    var b := s.batches[First(s.batches, b => Unbalanced(s, b))];
    if Ledger(s, b) > 0 || b in s.prepQueue {
      assert forall x: nat :: ViewOf(RuleRelease(s, now).next, x) == ViewOf(s, x);
    } else {
      ReleaseOneKept(s, b, now);
    }
  }

  lemma BatchCleanupKept(s: State, now: int)
    requires Inv(s) && WF(s) && RuleBatchCleanup(s).Fired?
    ensures StrandsKept(s, RuleBatchCleanup(s).next, now)
  {
    var t := RuleBatchCleanup(s).next;
    forall x: nat ensures ViewOf(t, x) == ViewOf(s, x) {
      assert BatchesOf(t.batchData, x) == BatchesOf(s.batchData, x);
    }
  }

  /** A release that completes gives back a VM with a stub. */
  lemma ReleaseVMKept(s: State, h: nat, now: int)
    requires Inv(s) && h in s.handleData && ReleaseVM(s, h, now).Done?
    ensures StrandsKept(s, ReleaseVM(s, h, now).next, now)
  {
    if s.handleData[h].vmid.Some? {
      var y := s.handleData[h].vmid.value;
      assert VmOk(ViewOf(s, y));
      CleanupFrame(s, y, now);
      ReleaseView(s, h, now);
      OneKept(s, ReleaseVM(s, h, now).next, y, now);
    } else {
      var i := ReleaseWaitingIs(s, h, now);
      ForgetViews(s, h);
      var t := ReleaseVM(s, h, now).next;
      assert forall x: nat :: ViewOf(t, x) == ViewOf(s, x);
    }
  }

  lemma RuleKept(s: State, now: int, rule: Rule)
    requires Inv(s) && WF(s) && Try(s, now, rule).Fired?
    requires rule == ReleaseRule ==> NoneLost(s)
    ensures StrandsKept(s, Try(s, now, rule).next, now)
  {
    match rule {
      case PoolRule =>
        if |s.pool| < s.size.min {
          BootKept(s, now);
        } else {
          KillKept(s, Victim(s, now).value, now);
        }
      case PrepareRule => PrepareKept(s, s.pool[First(s.pool, x => InState(s, x, FREE))], now);
      case ReplaceRule => ReplaceKept(s, now);
      case BootRule => BootKept(s, now);
      case AssignRule => AssignKept(s, now);
      case DropHandleRule => DropHandleKept(s, now);
      case ReleaseRule => ReleaseKept(s, now);
      case TimeoutRule => KillKept(s, s.pool[First(s.pool, x => Expired(s, x, now))], now);
      case BatchCleanupRule => BatchCleanupKept(s, now);
      case HandleExpireRule => ReleaseVMKept(s, s.handles[First(s.handles, h => HandleExpired(s, h, now))], now);
    }
  }

  /** No rule that fires dooms or saves the cascade. */
  lemma FiringKeepsDoom(s: State, now: int)
    requires Inv(s) && WF(s) && RunRules(s, now).Fired?
    ensures Doomed(RunRules(s, now).next, now) <==> Doomed(s, now)
  {
    RulesInv(s, now);
    InvWF(RunRules(s, now).next);
    var rule := WhichRule(s, now);
    AfterReplace(s, now, rule);
    RuleKept(s, now, rule);
    DoomKept(s, RunRules(s, now).next, now);
  }

  /** A tick throws only in a doomed state, and so only after a restart. */
  lemma ThrowsOnlyUnstubbed(s: State, now: int)
    requires Inv(s) && WF(s) && RunRules(s, now).Failed?
    ensures s.restored && Doomed(s, now)
    ensures exists h: nat, x: nat :: Held(s, h, x) && HandleExpired(s, h, now) && x in s.pool && x !in s.rpc
  {
    var rule := WhichRule(s, now);
    AfterReplace(s, now, rule);
    RuleInv(s, now, rule);
    var h := s.handles[First(s.handles, h => HandleExpired(s, h, now))];
    var x := s.handleData[h].vmid.value;
    assert Held(s, h, x) && !Orphan(s, h);
    assert VmOk(ViewOf(s, x)) && h in ViewOf(s, x).handles;
    assert Try(s, now, TimeoutRule).Idle?;
    NoneOverdue(s, now);
    assert DoomedBy(s, h, x, now);
  }

  lemma NoneOverdue(s: State, now: int)
    requires WF(s) && Try(s, now, TimeoutRule).Idle?
    ensures forall x :: x in s.pool ==> !Expired(s, x, now)
  {
  }

  /** At rest no handle is overdue. */
  lemma RestNotDoomed(s: State, now: int)
    requires Structure(s) && WF(s) && Quiescent(s, now)
    ensures !Doomed(s, now)
  {
    AllIdle(s, now);
    assert Try(s, now, HandleExpireRule).Idle?;
    assert forall h :: h in s.handles ==> !HandleExpired(s, h, now);
  }

  /** A handle can be doomed only after a restart. */
  lemma DoomNeedsRestart(s: State, now: int)
    requires Inv(s) && (!s.restored || s.handles == [])
    ensures !Doomed(s, now)
  {
    forall h: nat, x: nat ensures !DoomedBy(s, h, x, now) {
      assert VmOk(ViewOf(s, x));
      assert Held(s, h, x) ==> h in ViewOf(s, x).handles;
    }
  }

  /** One tick: it stops in a state that is not doomed, it throws in a doomed one, and otherwise it decides nothing. */
  lemma TickKeepsDoom(s: State, now: int)
    requires Inv(s) && WF(s)
    ensures var r := ExecuteRules(s, now);
            && (r.Threw? ==> Doomed(s, now))
            && (r.Done? && !r.next.scheduled ==> !Doomed(s, now))
            && (r.Done? && r.next.scheduled ==> (Doomed(r.next, now) <==> Doomed(s, now)))
  {
    var s0 := s.(scheduled := false);
    SameViews(s, s0);
    assert Doomed(s0, now) <==> Doomed(s, now) by {
      assert forall h: nat, x: nat :: DoomedBy(s0, h, x, now) <==> DoomedBy(s, h, x, now);
    }
    match RunRules(s0, now) {
      case Idle => RestNotDoomed(s0, now);
      case Fired(n) =>
        FiringKeepsDoom(s0, now);
        assert forall h: nat, x: nat :: DoomedBy(n.(scheduled := true), h, x, now) <==> DoomedBy(n, h, x, now);
      case Failed(_) => ThrowsOnlyUnstubbed(s0, now);
    }
  }

  /** The scheduled cascade ends in an exception if and only if some overdue handle holds a pool VM that has no
      stub and is not overdue itself; otherwise it comes to rest. */
  lemma {:induction false} ThrowsExactly(s: State, now: int)
    requires Inv(s) && WF(s)
    ensures Settle(s, now).Threw? <==> s.scheduled && Doomed(s, now)
    decreases |s.handles|, |s.pendingLocks|, |Killable(s, now)|, |s.batches|,
              Imbalance(s, s.batches), |ListedVms(s)|, Room(s), s.scheduled
  {
    if !s.scheduled {
    } else {
      SettleStep(s, now);
      TickKeepsDoom(s, now);
      var r := ExecuteRules(s, now);
      if r.Done? && r.next.scheduled {
        ExecuteDescends(s, now);
        ThrowsExactly(r.next, now);
      }
    }
  }

  lemma ShrinksTwice(s: State, t: State, u: State)
    requires Shrinks(s, t) && Shrinks(t, u)
    ensures Shrinks(s, u)
  {
  }

  lemma ExecuteShrinks(s: State, now: int)
    requires Inv(s) && WF(s) && ExecuteRules(s, now).Done?
    ensures Shrinks(s, ExecuteRules(s, now).next)
  {
    var s0 := s.(scheduled := false);
    SameViews(s, s0);
    if RunRules(s0, now).Fired? {
      RulesShrink(s0, now);
    }
  }

  /** Where the cascade comes to rest, it has created nothing. */
  lemma {:induction false} SettleShrinks(s: State, now: int)
    requires Inv(s) && WF(s) && Settle(s, now).Done?
    ensures Shrinks(s, Settle(s, now).next)
    decreases |s.handles|, |s.pendingLocks|, |Killable(s, now)|, |s.batches|,
              Imbalance(s, s.batches), |ListedVms(s)|, Room(s), s.scheduled
  {
    if !s.scheduled {
    } else {
      SettleStep(s, now);
      var t := ExecuteRules(s, now).next;
      ExecuteShrinks(s, now);
      if t.scheduled {
        ExecuteDescends(s, now);
        SettleShrinks(t, now);
        ShrinksTwice(s, t, Settle(t, now).next);
      }
    }
  }

  /** The scheduled cascade runs to rest, in a state where no rule fires, if and only if it is not doomed. */
  lemma SettleCompletes(s: State, now: int)
    requires Inv(s) && WF(s)
    ensures Settle(s, now).Done? <==> !(s.scheduled && Doomed(s, now))
    ensures Settle(s, now).Done? ==> Shrinks(s, Settle(s, now).next)
    ensures Settle(s, now).Done? && s.scheduled ==> Quiescent(Settle(s, now).next, now)
  {
    ThrowsExactly(s, now);
    if Settle(s, now).Done? {
      SettleShrinks(s, now);
    }
  }
}
