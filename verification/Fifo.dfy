/** Locks are served in request order, and handles are never reused. */
module Fifo {
  import opened Collections
  import opened Scheduler
  import opened Invariant
  import opened Frames
  import opened Steps
  import opened Callbacks
  import opened Runs
  import opened Ledgers

  /** From s to t no old handle comes back and no old lock is re-made; and of two locks that waited on the same
      batch in s, the later one is not served while the earlier one still waits. */
  ghost predicate InOrder(s: State, t: State) {
    && s.nextHandle <= t.nextHandle
    && (forall h :: h in t.handleData && h < s.nextHandle ==> h in s.handleData)
    && (forall h: nat, b: nat :: WaitsFor(t, h, b) && h < s.nextHandle ==> WaitsFor(s, h, b))
    && (forall g: nat, h: nat, b: nat ::
          g < h && WaitsFor(s, g, b) && WaitsFor(s, h, b) && WaitsFor(t, g, b) && h in t.handleData ==>
            WaitsFor(t, h, b))
  }

  lemma SameLocksInOrder(s: State, t: State)
    requires t.pendingLocks == s.pendingLocks && t.handleData.Keys <= s.handleData.Keys && t.nextHandle == s.nextHandle
    ensures InOrder(s, t)
  {
    assert forall h: nat, b: nat :: WaitsFor(t, h, b) <==> WaitsFor(s, h, b);
  }

  lemma InOrderTwice(s: State, t: State, u: State)
    requires Inv(s) && InOrder(s, t) && InOrder(t, u)
    ensures InOrder(s, u)
  {
    forall g: nat, h: nat, b: nat
      | g < h && WaitsFor(s, g, b) && WaitsFor(s, h, b) && WaitsFor(u, g, b) && h in u.handleData
      ensures WaitsFor(u, h, b)
    {
      WaitingKnown(s, g, b);
      WaitingKnown(s, h, b);
      assert WaitsFor(t, g, b);
    }
  }

  lemma WaitingKnown(s: State, h: nat, b: nat)
    requires HandlesOk(s.handles, s.handleData, s.nextHandle, s.pendingLocks) && WaitsFor(s, h, b)
    ensures h in s.handleData && h < s.nextHandle
  {
  }

  lemma LockInOrder(s: State, b: nat)
    requires Inv(s)
    ensures InOrder(s, LockVM(s, b).next)
  {
    var t := LockVM(s, b).next;
    assert forall p :: p in s.pendingLocks ==> p in t.pendingLocks;
    assert forall p :: p in t.pendingLocks ==> p in s.pendingLocks || p.handle == s.nextHandle;
  }

  /** Each handle has at most one pending lock. */
  lemma OneLock(locks: seq<PendingLock>, p: PendingLock, q: PendingLock)
    requires forall i, j :: 0 <= i < j < |locks| ==> locks[i].handle < locks[j].handle
    requires p in locks && q in locks
    ensures p.handle == q.handle ==> p == q
  {
    var i :| 0 <= i < |locks| && locks[i] == p;
    var j :| 0 <= j < |locks| && locks[j] == q;
    assert i < j || j < i || i == j;
  }

  /** Dropping lock i together with its handle. */
  lemma DropInOrder(s: State, t: State, i: nat)
    requires HandlesOk(s.handles, s.handleData, s.nextHandle, s.pendingLocks) && i < |s.pendingLocks|
    requires t.pendingLocks == RemoveAt(s.pendingLocks, i) && t.nextHandle == s.nextHandle
    requires t.handleData == s.handleData - {s.pendingLocks[i].handle}
    ensures InOrder(s, t)
  {
    LocksWithout(s.pendingLocks, i);
  }

  lemma ReleaseInOrder(s: State, h: nat, now: int)
    requires Inv(s)
    ensures InOrder(s, ReleaseVM(s, h, now).next)
  {
    var t := ReleaseVM(s, h, now).next;
    if h in s.handleData && s.handleData[h].vmid.None? {
      assert PendingHandle(s.pendingLocks, h);
      DropInOrder(s, t, First(s.pendingLocks, (p: PendingLock) => p.handle == h));
    } else {
      SameLocksInOrder(s, t);
    }
  }

  lemma {:induction false} ReleaseAllInOrder(s: State, hs: seq<nat>, now: int)
    requires Inv(s)
    ensures InOrder(s, ReleaseAll(s, hs, now).next)
    decreases |hs|
  {
    if hs == [] {
      SameLocksInOrder(s, s);
    } else {
      var r := ReleaseVM(s, hs[0], now);
      ReleaseInOrder(s, hs[0], now);
      ReleaseInv(s, hs[0], now);
      if r.Done? {
        ReleaseAllInOrder(r.next, hs[1..], now);
        InOrderTwice(s, r.next, ReleaseAll(r.next, hs[1..], now).next);
      }
    }
  }

  lemma {:induction false} CancelAllInOrder(s: State, bs: seq<nat>)
    ensures var t := CancelAll(s, bs).next;
            t.pendingLocks == s.pendingLocks && t.handleData == s.handleData && t.nextHandle == s.nextHandle
    decreases |bs|
  {
    if bs == [] {
    } else if CancelBatch(s, bs[0]).Done? {
      CancelAllInOrder(CancelBatch(s, bs[0]).next, bs[1..]);
    }
  }

  lemma ShutdownInOrder(s: State, now: int)
    requires Inv(s)
    ensures InOrder(s, Shutdown(s, now).next)
  {
    ReleaseAllInOrder(s, s.handles, now);
    var r1 := ReleaseAll(s, s.handles, now);
    if r1.Done? {
      CancelAllInOrder(r1.next, s.batches);
      var t := Shutdown(s, now).next;
      SameLocksInOrder(r1.next, t);
      InOrderTwice(s, r1.next, t);
    }
  }

  /** The lock rule takes the first lock whose batch has a READY VM, so no earlier lock waits on that batch. */
  lemma AssignInOrder(s: State, now: int)
    requires Inv(s) && WF(s) && RuleAssign(s, now).Fired?
    ensures InOrder(s, RuleAssign(s, now).next)
  {
    var i := First(s.pendingLocks, (p: PendingLock) => HasLockable(s, p.batchId));
    FirstWaits(s, i);
    RemainingInOrder(s, RuleAssign(s, now).next, i);
  }

  lemma FirstWaits(s: State, i: nat)
    requires HandlesOk(s.handles, s.handleData, s.nextHandle, s.pendingLocks) && i < |s.pendingLocks|
    requires i == First(s.pendingLocks, (p: PendingLock) => HasLockable(s, p.batchId))
    ensures forall g: nat :: g < s.pendingLocks[i].handle ==> !WaitsFor(s, g, s.pendingLocks[i].batchId)
  {
    var lock := s.pendingLocks[i];
    forall p | p in s.pendingLocks && p.handle < lock.handle ensures p.batchId != lock.batchId {
      var k :| 0 <= k < |s.pendingLocks| && s.pendingLocks[k] == p;
      assert k < i;
    }
  }

  lemma RemainingInOrder(s: State, t: State, i: nat)
    requires HandlesOk(s.handles, s.handleData, s.nextHandle, s.pendingLocks) && i < |s.pendingLocks|
    requires t.pendingLocks == RemoveAt(s.pendingLocks, i) && t.nextHandle == s.nextHandle
    requires t.handleData.Keys == s.handleData.Keys
    requires forall g: nat :: g < s.pendingLocks[i].handle ==> !WaitsFor(s, g, s.pendingLocks[i].batchId)
    ensures InOrder(s, t)
  {
    LocksWithout(s.pendingLocks, i);
    forall g: nat, h: nat, b: nat | g < h && WaitsFor(s, g, b) && WaitsFor(s, h, b) && WaitsFor(t, g, b)
      ensures WaitsFor(t, h, b)
    {
      var p :| p in s.pendingLocks && p.handle == h && p.batchId == b;
      OneLock(s.pendingLocks, p, s.pendingLocks[i]);
    }
  }

  lemma RuleInOrder(s: State, now: int, rule: Rule)
    requires Inv(s) && WF(s) && !Try(s, now, rule).Idle?
    ensures InOrder(s, Try(s, now, rule).next)
  {
    if rule == AssignRule {
      AssignInOrder(s, now);
    } else if rule == HandleExpireRule {
      ReleaseInOrder(s, s.handles[First(s.handles, h => HandleExpired(s, h, now))], now);
    } else {
      OtherRulesKeepLocks(s, now, rule);
      SameLocksInOrder(s, Try(s, now, rule).next);
    }
  }

  lemma OtherRulesKeepLocks(s: State, now: int, rule: Rule)
    requires WF(s) && !Try(s, now, rule).Idle? && rule != AssignRule && rule != HandleExpireRule
    ensures var t := Try(s, now, rule).next;
            t.pendingLocks == s.pendingLocks && t.handleData.Keys <= s.handleData.Keys && t.nextHandle == s.nextHandle
  {
    match rule {
      case PoolRule => PoolFrame(s, now);
      case TimeoutRule => TimeoutFrame(s, now);
      case ReleaseRule => ReleaseRuleFrame(s, now);
      case _ =>
    }
  }

  lemma RulesInOrder(s: State, now: int)
    requires Inv(s) && WF(s)
    ensures InOrder(s, ExecuteRules(s, now).next)
  {
    var s0 := s.(scheduled := false);
    SameViews(s, s0);
    SameLocksInOrder(s, s0);
    if !RunRules(s0, now).Idle? {
      var rule := WhichRule(s0, now);
      RuleInOrder(s0, now, rule);
      RescheduledInOrder(s, s0, RunRules(s0, now).next, ExecuteRules(s, now).next);
    }
  }

  lemma RescheduledInOrder(s: State, s0: State, t0: State, t: State)
    requires InOrder(s0, t0) && s0 == s.(scheduled := false) && t0.(scheduled := true) == t.(scheduled := true)
    ensures InOrder(s, t)
  {
    assert forall h: nat, b: nat :: WaitsFor(s, h, b) <==> WaitsFor(s0, h, b);
    assert forall h: nat, b: nat :: WaitsFor(t, h, b) <==> WaitsFor(t0, h, b);
  }

  lemma StepInOrder(s: State, e: Event, now: int)
    requires Inv(s) && WF(s)
    ensures InOrder(s, Apply(s, e, now).next)
  {
    if !IsRequest(e) && e != EvRules {
      CallbackFrame(s, e, now);
      SameLocksInOrder(s, Apply(s, e, now).next);
    } else {
      RequestInOrder(s, e, now);
    }
  }

  lemma RequestInOrder(s: State, e: Event, now: int)
    requires Inv(s) && WF(s) && (IsRequest(e) || e == EvRules)
    ensures InOrder(s, Apply(s, e, now).next)
  {
    match e {
      case EvRules => RulesInOrder(s, now);
      case EvLock(b) => LockInOrder(s, b);
      case EvRelease(h) => ReleaseInOrder(s, h, now); SameLocksInOrder(s, s);
      case EvShutdown => ShutdownInOrder(s, now);
      case EvPrepareBatch(size) => SameLocksInOrder(s, PrepareBatch(s, size));
      case EvCancel(b) => SameLocksInOrder(s, Apply(s, e, now).next);
      case EvPoolSize(min, max, linger) => SameLocksInOrder(s, RequestPoolSize(s, min, max, linger));
      case EvRenew(h, time) => SameLocksInOrder(s, RenewExpire(s, h, time, now));
    }
  }

  /** A run on from a valid state: events, and restarts from the checkpoint of the latest state. */
  ghost predicate IsStretch(run: seq<State>) {
    && run != [] && Inv(run[0]) && WF(run[0])
    && forall i :: 0 < i < |run| ==> StepsAt(run, i)
  }

  ghost predicate StepsAt(run: seq<State>, i: nat)
    requires 0 < i < |run|
  {
    Related(run[i - 1], run[i])
  }

  ghost predicate Related(s: State, t: State) {
    (exists e, now :: Next(s, e, now, t)) || Restarted(s, t)
  }

  ghost predicate Restarted(s: State, t: State) {
    WF(s) && exists now: int :: t == Load(s, now)
  }

  lemma RestartInOrder(s: State, t: State)
    requires Inv(s) && WF(s) && Restarted(s, t)
    ensures Inv(t) && WF(t) && InOrder(s, t)
  {
    var now: int :| t == Load(s, now);
    LoadInv(s, now);
    InvWF(t);
    SameLocksInOrder(s, t);
  }

  lemma RelatedInOrder(s: State, t: State)
    requires Inv(s) && WF(s) && Related(s, t)
    ensures Inv(t) && WF(t) && InOrder(s, t)
  {
    if e, now :| Next(s, e, now, t) {
      StepInv(s, e, now);
      StepInOrder(s, e, now);
    } else {
      RestartInOrder(s, t);
    }
  }

  lemma {:induction false} StretchInOrder(run: seq<State>, k: nat)
    requires IsStretch(run) && k < |run|
    ensures Inv(run[k]) && WF(run[k]) && InOrder(run[0], run[k])
    decreases k
  {
    if k == 0 {
      SameLocksInOrder(run[0], run[0]);
    } else {
      StretchInOrder(run, k - 1);
      assert StepsAt(run, k);
      RelatedInOrder(run[k - 1], run[k]);
      InOrderTwice(run[0], run[k - 1], run[k]);
    }
  }

  /** If two locks wait on one batch and later the younger one has its VM, the older one no longer waits:
      it was served before, or released. */
  lemma ServedInRequestOrder(run: seq<State>, k: nat, g: nat, h: nat, b: nat)
    requires IsStretch(run) && k < |run|
    requires g < h && WaitsFor(run[0], g, b) && WaitsFor(run[0], h, b)
    requires h in run[k].handleData && run[k].handleData[h].vmid.Some?
    ensures !WaitsFor(run[k], g, b)
    ensures g in run[k].handleData ==> run[k].handleData[g].vmid.Some?
  {
    StretchInOrder(run, k);
    assert !WaitsFor(run[k], h, b);
    if g in run[k].handleData && run[k].handleData[g].vmid.None? {
      StillWaits(run[0], run[k], g, b);
    }
  }

  /** A handle that is still unassigned still waits for the batch it was made for. */
  lemma StillWaits(s: State, t: State, g: nat, b: nat)
    requires HandlesOk(s.handles, s.handleData, s.nextHandle, s.pendingLocks)
    requires HandlesOk(t.handles, t.handleData, t.nextHandle, t.pendingLocks)
    requires InOrder(s, t) && WaitsFor(s, g, b) && g in t.handleData && t.handleData[g].vmid.None?
    ensures WaitsFor(t, g, b)
  {
    WaitingKnown(s, g, b);
    assert PendingHandle(t.pendingLocks, g);
    var p :| p in t.pendingLocks && p.handle == g;
    assert WaitsFor(t, g, p.batchId);
    var q :| q in s.pendingLocks && q.handle == g && q.batchId == b;
    var r :| r in s.pendingLocks && r.handle == g && r.batchId == p.batchId;
    OneLock(s.pendingLocks, q, r);
  }
}
