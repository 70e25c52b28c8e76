/** The shutdown request: when it completes, and what the rules then leave. */
module Stopping {
  import opened Collections
  import opened VerStates
  import opened Scheduler
  import opened Invariant
  import opened Frames
  import opened Steps
  import opened Runs
  import opened Callbacks
  import opened Quiescence
  import opened Ledgers
  import opened Termination

  /** VM x can be cleaned up: it has a record and an RPC stub. */
  predicate Cleanable(s: State, x: nat) {
    x in s.vms && x in s.rpc
  }

  ghost predicate AllCleanable(s: State, hs: seq<nat>) {
    forall h: nat, x: nat :: h in hs && Held(s, h, x) ==> Cleanable(s, x)
  }

  lemma ReleaseShape(s: State, h: nat, now: int)
    requires Inv(s) && h in s.handleData
    ensures var r := ReleaseVM(s, h, now);
            && (r.Done? <==> forall x: nat :: Held(s, h, x) ==> Cleanable(s, x))
            && (r.Done? ==> r.next.handles == Without(s.handles, h) && r.next.handleData == s.handleData - {h})
            && r.next.vms.Keys == s.vms.Keys && r.next.rpc == s.rpc
            && r.next.batches == s.batches && r.next.batchData == s.batchData
  {
    if s.handleData[h].vmid.Some? {
      var x := s.handleData[h].vmid.value;
      assert Held(s, h, x);
      CleanupFrame(s, x, now);
    } else {
      assert PendingHandle(s.pendingLocks, h);
    }
  }

  lemma HeldElsewhere(s: State, h: nat, g: nat, x: nat, now: int)
    requires Inv(s) && h in s.handleData && ReleaseVM(s, h, now).Done? && g != h
    ensures Held(ReleaseVM(s, h, now).next, g, x) <==> Held(s, g, x)
    ensures Cleanable(ReleaseVM(s, h, now).next, x) <==> Cleanable(s, x)
  {
    ReleaseShape(s, h, now);
  }

  lemma RestCleanable(s: State, hs: seq<nat>, now: int)
    requires Inv(s) && hs != [] && Distinct(hs) && (forall h :: h in hs ==> h in s.handleData)
    requires ReleaseVM(s, hs[0], now).Done?
    ensures AllCleanable(ReleaseVM(s, hs[0], now).next, hs[1..]) <==> AllCleanable(s, hs)
  {
    var t := ReleaseVM(s, hs[0], now).next;
    ReleaseShape(s, hs[0], now);
    if AllCleanable(s, hs) {
      forall h: nat, x: nat | h in hs[1..] && Held(t, h, x) ensures Cleanable(t, x) {
        HeldElsewhere(s, hs[0], h, x, now);
      }
    }
    if AllCleanable(t, hs[1..]) {
      forall h: nat, x: nat | h in hs && Held(s, h, x) ensures Cleanable(s, x) {
        if h != hs[0] {
          HeldElsewhere(s, hs[0], h, x, now);
        }
      }
    }
  }

  lemma {:induction false} ReleaseAllCompletes(s: State, hs: seq<nat>, now: int)
    requires Inv(s) && Distinct(hs) && forall h :: h in hs ==> h in s.handleData
    ensures ReleaseAll(s, hs, now).Done? <==> AllCleanable(s, hs)
    decreases |hs|
  {
    if hs == [] {
    } else {
      ReleaseShape(s, hs[0], now);
      ReleaseInv(s, hs[0], now);
      if ReleaseVM(s, hs[0], now).Done? {
        assert hs[0] !in hs[1..];
        RestCleanable(s, hs, now);
        ReleaseAllCompletes(ReleaseVM(s, hs[0], now).next, hs[1..], now);
      }
    }
  }

  lemma {:induction false} ReleaseAllShape(s: State, hs: seq<nat>, now: int)
    requires Inv(s) && Distinct(hs) && forall h :: h in hs ==> h in s.handleData
    ensures var r := ReleaseAll(s, hs, now);
            && (r.Done? ==> forall h :: h in r.next.handles <==> h in s.handles && h !in hs)
            && r.next.batches == s.batches && r.next.batchData == s.batchData
    decreases |hs|
  {
    if hs == [] {
    } else {
      ReleaseShape(s, hs[0], now);
      ReleaseInv(s, hs[0], now);
      if ReleaseVM(s, hs[0], now).Done? {
        assert hs[0] !in hs[1..];
        ReleaseAllShape(ReleaseVM(s, hs[0], now).next, hs[1..], now);
      }
    }
  }

  lemma {:induction false} CancelAllShape(s: State, bs: seq<nat>)
    requires forall b :: b in bs ==> b in s.batchData
    ensures var r := CancelAll(s, bs);
            && r.Done?
            && r.next.handles == s.handles && r.next.batchData.Keys == s.batchData.Keys
            && (forall b :: b in s.batchData ==>
                  r.next.batchData[b].(vms := [])
                  == if b in bs then Batch(0, [], true) else s.batchData[b].(vms := []))
    decreases |bs|
  {
    if bs == [] {
    } else {
      CancelAllShape(CancelBatch(s, bs[0]).next, bs[1..]);
    }
  }

  /** The state that a completed shutdown leaves: no handles, all batches cancelled, a pool that may hold nothing. */
  ghost predicate Draining(s: State) {
    && s.handles == [] && s.size == PoolSize(0, 0, 0)
    && forall b :: b in s.batchData ==> s.batchData[b].(vms := []) == Batch(0, [], true)
  }

  /** The shutdown request completes exactly when every held VM has a record and a stub;
      otherwise releaseVM throws at the first handle where it is missing. */
  lemma ShutdownCompletesExactly(s: State, now: int)
    requires Inv(s)
    ensures Shutdown(s, now).Done? <==> AllCleanable(s, s.handles)
    ensures Shutdown(s, now).Done? ==> Draining(Shutdown(s, now).next) && Shutdown(s, now).next.scheduled
  {
    IncreasingDistinct(s.handles);
    ReleaseAllCompletes(s, s.handles, now);
    ReleaseAllShape(s, s.handles, now);
    var r1 := ReleaseAll(s, s.handles, now);
    if r1.Done? {
      CancelAllShape(r1.next, s.batches);
      var r2 := CancelAll(r1.next, s.batches);
      HeadIn(r2.next.handles);
    }
  }

  /** A restart strands a handle whose VM was saved in ERROR: the VM comes back without a stub, so neither its
      release nor a shutdown completes, and it stays held, now in WAIT. */
  lemma RestartStrandsHeldVm(s: State, h: nat, x: nat, t0: int, now: int)
    requires Inv(s) && WF(s) && Held(s, h, x) && x in s.pool && InState(s, x, ERROR)
    ensures var t := Load(s, t0);
            && ReleaseVM(t, h, now).Threw? && Shutdown(t, now).Threw?
            && Held(ReleaseVM(t, h, now).next, h, x) && InState(ReleaseVM(t, h, now).next, x, WAIT)
  {
    LoadInv(s, t0);
    var t := Load(s, t0);
    assert h in t.handles && Held(t, h, x) && !Cleanable(t, x);
    ShutdownCompletesExactly(t, now);
  }

  /** After a restart a shutdown completes exactly when every held VM was saved in the pool in a stable state. */
  lemma ShutdownAfterRestart(s: State, t0: int, now: int)
    requires Inv(s) && WF(s)
    ensures Shutdown(Load(s, t0), now).Done?
       <==> forall h: nat, x: nat :: Held(s, h, x) ==> x in s.pool && Stable(s.vms[x].state)
  {
    LoadInv(s, t0);
    var t := Load(s, t0);
    ShutdownCompletesExactly(t, now);
    assert forall h: nat, x: nat :: Held(t, h, x) <==> Held(s, h, x);
    assert forall h: nat, x: nat :: Held(s, h, x) ==> h in t.handles;
    assert forall x: nat :: Cleanable(t, x) <==> x in s.pool && Stable(s.vms[x].state);
  }

  /** A restart, the failed release of a stranded handle, then a tick once the handle is overdue: the tick throws
      as well, since the VM it must clean up is neither cleaned up nor overdue. */
  lemma RestartDoomsCascade(s: State, h: nat, x: nat, t0: int, t1: int, now: int)
    requires Inv(s) && WF(s) && Held(s, h, x) && x in s.pool && InState(s, x, ERROR)
    requires HandleExpired(s, h, now) && now - t1 <= s.cfg.operation
    ensures var u := ReleaseVM(Load(s, t0), h, t1).next.(scheduled := true);
            Inv(u) && WF(u) && Settle(u, now).Threw?
  {
    LoadInv(s, t0);
    var t := Load(s, t0);
    var n := ReleaseVM(t, h, t1).next;
    var u := n.(scheduled := true);
    ReleaseInv(t, h, t1);
    SameViews(n, u);
    InvWF(u);
    assert DoomedBy(u, h, x, now);
    ThrowsExactly(u, now);
  }

  // ---------------------------------------------------------------- the ledgers of a shutdown

  /** Handle h holds a VM that cannot be cleaned up. */
  predicate Stuck(s: State, h: nat) {
    h in s.handleData && s.handleData[h].vmid.Some? && !Cleanable(s, s.handleData[h].vmid.value)
  }

  /** How many of the handles, up to the first stuck one, wait for batch b. */
  function WaitersBeforeStuck(s: State, hs: seq<nat>, b: nat): nat {
    if hs == [] || Stuck(s, hs[0]) then 0
    else (if WaitsFor(s, hs[0], b) then 1 else 0) + WaitersBeforeStuck(s, hs[1..], b)
  }

  /** Releasing one handle leaves the others as they were. */
  lemma ReleaseKeepsOthers(s: State, h: nat, g: nat, b: nat, now: int)
    requires Inv(s) && h in s.handleData && g != h && ReleaseVM(s, h, now).Done?
    ensures var t := ReleaseVM(s, h, now).next;
            (Stuck(t, g) <==> Stuck(s, g)) && (WaitsFor(t, g, b) <==> WaitsFor(s, g, b))
  {
    ReleaseShape(s, h, now);
    if s.handleData[h].vmid.Some? {
      CleanupFrame(s, s.handleData[h].vmid.value, now);
    } else {
      assert PendingHandle(s.pendingLocks, h);
      LocksWithout(s.pendingLocks, First(s.pendingLocks, (p: PendingLock) => p.handle == h));
    }
  }

  lemma {:induction false} WaitersKept(s: State, h: nat, hs: seq<nat>, b: nat, now: int)
    requires Inv(s) && h in s.handleData && h !in hs && ReleaseVM(s, h, now).Done?
    ensures WaitersBeforeStuck(ReleaseVM(s, h, now).next, hs, b) == WaitersBeforeStuck(s, hs, b)
    decreases |hs|
  {
    if hs == [] {
    } else {
      ReleaseKeepsOthers(s, h, hs[0], b, now);
      WaitersKept(s, h, hs[1..], b, now);
    }
  }

  lemma {:induction false} ReleaseAllMoves(s: State, hs: seq<nat>, b: nat, now: int)
    requires Inv(s) && Distinct(hs) && (forall h :: h in hs ==> h in s.handleData) && b in s.batchData
    ensures var t := ReleaseAll(s, hs, now).next;
            b in t.batchData && Ledger(t, b) == Ledger(s, b) - WaitersBeforeStuck(s, hs, b)
    decreases |hs|
  {
    if hs == [] {
    } else {
      ReleaseFirstMoves(s, hs, b, now);
      var r := ReleaseVM(s, hs[0], now);
      if r.Done? {
        ReleaseAllMoves(r.next, hs[1..], b, now);
      }
    }
  }

  lemma ReleaseFirstMoves(s: State, hs: seq<nat>, b: nat, now: int)
    requires Inv(s) && hs != [] && Distinct(hs) && (forall h :: h in hs ==> h in s.handleData) && b in s.batchData
    ensures var r := ReleaseVM(s, hs[0], now);
            && Inv(r.next) && b in r.next.batchData
            && (r.Done? ==> forall h :: h in hs[1..] ==> h in r.next.handleData)
            && Ledger(r.next, b) - (if r.Done? then WaitersBeforeStuck(r.next, hs[1..], b) else 0)
               == Ledger(s, b) - WaitersBeforeStuck(s, hs, b)
  {
    var h := hs[0];
    ReleaseShape(s, h, now);
    ReleaseInv(s, h, now);
    ReleaseMoves(s, h, now, b);
    StuckExactly(s, h, now);
    if Stuck(s, h) {
      assert !WaitsFor(s, h, b);
    } else {
      assert h !in hs[1..];
      WaitersKept(s, h, hs[1..], b, now);
    }
  }

  lemma StuckExactly(s: State, h: nat, now: int)
    requires Inv(s) && h in s.handleData
    ensures ReleaseVM(s, h, now).Threw? <==> Stuck(s, h)
  {
    ReleaseShape(s, h, now);
    assert s.handleData[h].vmid.Some? ==> Held(s, h, s.handleData[h].vmid.value);
  }

  lemma {:induction false} CancelAllMoves(s: State, bs: seq<nat>, b: nat)
    requires Distinct(bs) && b in s.batchData && forall c :: c in bs ==> c in s.batchData
    ensures var t := CancelAll(s, bs).next;
            b in t.batchData && Ledger(t, b) == Ledger(s, b) - if b in bs then s.batchData[b].size else 0
    decreases |bs|
  {
    if bs == [] {
    } else {
      var t := CancelBatch(s, bs[0]).next;
      CancelMoves(s, bs[0], b);
      assert bs[0] !in bs[1..];
      CancelAllMoves(t, bs[1..], b);
    }
  }

  /** A shutdown lowers a ledger by one for each handle it releases that waits for the batch, and, when it
      completes, by the size left. */
  lemma ShutdownMoves(s: State, now: int, b: nat)
    requires Inv(s) && b in s.batchData
    ensures var r := Shutdown(s, now);
            && b in r.next.batchData
            && Ledger(r.next, b) == Ledger(s, b) - WaitersBeforeStuck(s, s.handles, b)
                                    - if r.Done? then s.batchData[b].size else 0
  {
    IncreasingDistinct(s.handles);
    ReleaseAllShape(s, s.handles, now);
    ReleaseAllMoves(s, s.handles, b, now);
    var r1 := ReleaseAll(s, s.handles, now);
    if r1.Done? {
      CancelAllShape(r1.next, s.batches);
      CancelAllMoves(r1.next, s.batches, b);
    }
  }

  /** In a quiescent state of a process that was not restored, a shutdown always completes. */
  lemma QuiescentShutdownCompletes(s: State, now: int)
    requires Inv(s) && WF(s) && Quiescent(s, now) && !s.restored
    ensures Shutdown(s, now).Done?
  {
    QuiescentExactly(s, now);
    forall h: nat, x: nat | h in s.handles && Held(s, h, x) ensures Cleanable(s, x) {
      assert VmOk(ViewOf(s, x)) && h in ViewOf(s, x).handles;
    }
    ShutdownCompletesExactly(s, now);
  }

  /** A pool VM that survives a shutdown: still being created, in its last operation,
      or put in ERROR at this very instant. */
  predicate Leftover(vm: Vm, now: int) {
    vm.state == CREATING || vm.state == WAIT || (vm.state == ERROR && vm.refreshTime >= now)
  }

  /** A state at rest after a shutdown holds nothing but leftovers. */
  lemma DrainedAtRest(s: State, now: int)
    requires Inv(s) && WF(s) && Draining(s) && Quiescent(s, now)
    ensures s.handles == [] && s.pendingLocks == [] && s.batches == [] && s.prepQueue == []
    ensures forall x :: x in s.pool ==> x in s.vms && Leftover(s.vms[x], now)
  {
    QuiescentExactly(s, now);
    NoLocks(s);
    NoBatches(s, now);
    forall x | x in s.pool ensures x in s.vms && Leftover(s.vms[x], now) {
      assert VmOk(ViewOf(s, x));
      assert ViewOf(s, x).batches == {} && ViewOf(s, x).handles == {};
      assert OnTime(s.vms[x], s.cfg, now);
    }
  }

  lemma NoLocks(s: State)
    requires Structure(s) && s.handles == []
    ensures s.pendingLocks == [] && s.handleData == map[]
  {
    HeadIn(s.pendingLocks);
  }

  lemma CancelledEmpty(s: State, b: nat)
    requires b in s.batchData && s.batchData[b].size == 0 && s.pendingLocks == [] && Ledger(s, b) == 0
    ensures s.batchData[b].vms == [] && !LockPending(s, b)
  {
    assert LockCount(s.pendingLocks, b) == 0;
  }

  lemma CancelledAllEmpty(s: State)
    requires Draining(s) && s.pendingLocks == [] && forall b :: b in s.batchData ==> Ledger(s, b) == 0
    ensures forall b :: b in s.batchData ==> s.batchData[b] == Batch(0, [], true) && !LockPending(s, b)
  {
    forall b | b in s.batchData ensures s.batchData[b] == Batch(0, [], true) && !LockPending(s, b) {
      assert s.batchData[b].(vms := []) == Batch(0, [], true);
      CancelledEmpty(s, b);
    }
  }

  lemma NoBatches(s: State, now: int)
    requires Structure(s) && Draining(s) && BatchesSettled(s) && s.pendingLocks == []
    ensures s.batches == [] && s.batchData == map[] && s.prepQueue == []
  {
    CancelledAllEmpty(s);
    assert s.batchData == map[];
    HeadIn(s.batches);
    HeadIn(s.prepQueue);
  }

  /** Shutdown, run to rest: no handles, locks, batches or queued preparations remain,
      and the pool keeps only leftovers. */
  lemma ShutdownEmpties(s: State, now: int)
    requires Inv(s) && Shutdown(s, now).Done?
    ensures Inv(Shutdown(s, now).next) && WF(Shutdown(s, now).next)
    ensures var r := Settle(Shutdown(s, now).next, now);
            && r.Done?
            && r.next.handles == [] && r.next.pendingLocks == [] && r.next.batches == [] && r.next.prepQueue == []
            && forall x :: x in r.next.pool ==> x in r.next.vms && Leftover(r.next.vms[x], now)
  {
    var t := Shutdown(s, now).next;
    ShutdownInv(s, now);
    InvWF(t);
    ShutdownCompletesExactly(s, now);
    DoomNeedsRestart(t, now);
    SettleCompletes(t, now);
    var u := Settle(t, now).next;
    HeadIn(u.handles);
    DrainedAtRest(u, now);
  }

  // ---------------------------------------------------------------- cancelling one batch

  /** Against the documentation, a cancelled batch can still be locked from while it exists: the lock is accepted
      and raises what the batch is owed. */
  lemma CancelledStillLockable(s: State, b: nat)
    requires Inv(s) && WF(s) && b in s.batchData
    ensures var c := CancelBatch(s, b).next;
            var r := LockVM(c, b);
            && r.Done? && b in r.next.batchData && Ledger(r.next, b) == Ledger(c, b) + 1
            && WaitsFor(r.next, s.nextHandle, b)
  {
    var c := CancelBatch(s, b).next;
    CancelInv(s, b);
    InvWF(c);
    LockMoves(c, b, b);
    assert PendingLock(b, s.nextHandle) in LockVM(c, b).next.pendingLocks;
  }

  /** At rest the documentation holds but for locks that came in time: a cancelled batch can be locked from
      if and only if an earlier lock still waits on it. */
  lemma CancelledAtRest(s: State, b: nat, now: int)
    requires Inv(s) && WF(s) && Quiescent(s, now)
    requires b in s.batchData ==> s.batchData[b].markDelete
    ensures LockVM(s, b).Done? <==> LockPending(s, b)
  {
    QuiescentExactly(s, now);
    LockCountPositive(s.pendingLocks, b);
    assert b in s.batchData ==> Ledger(s, b) == 0;
  }
}
