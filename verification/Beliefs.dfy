/** Belief soundness. */
module Beliefs {
  import opened Collections
  import opened VerStates
  import opened Scheduler
  import opened Invariant
  import opened Steps
  import opened Callbacks
  import opened Runs
  import opened VmProtocol
  import opened VmSteps

  /* Over every interleaving of the scheduler's events, the VMs' own steps and the replies between them, the
     belief about a pool VM agrees with the state the VM is in. */

  // ---------------------------------------------------------------- steps of the controller

  lemma CallsOfNew(calls: map<Op, Phase>, before: set<Op>, after: set<Op>, x: nat)
    ensures CallsOf(calls + NewCalls(before, after), x)
         == CallsOf(calls, x) + NewCalls(OpsOf(before, x), OpsOf(after, x))
  {
  }

  /** The world after a legitimate step of the controller that consumes no answer. */
  function AfterStep(w: World, t: State): World {
    World(t, w.machines, w.calls + NewCalls(w.s.ops, t.ops))
  }

  lemma StepSound(w: World, t: State)
    requires WorldInv(w) && LegitStep(w.s, t) && Inv(t)
    ensures WorldInv(AfterStep(w, t))
  {
    InvWF(t);
    forall x: nat ensures SoundAt(AfterStep(w, t), x) {
      assert SoundAt(w, x) && VmOk(ViewOf(w.s, x)) && VmOk(ViewOf(t, x));
      assert x >= t.nextVMID ==> Unseen(ViewOf(t, x));
      CallsOfNew(w.calls, w.s.ops, t.ops, x);
      LegitSound(ViewOf(w.s, x), ViewOf(t, x), MachineOf(w, x), CallsOf(w.calls, x),
                 x >= w.s.nextVMID, x >= t.nextVMID);
    }
  }

  lemma AfterTwoSteps(w: World, t: State, u: State)
    requires w.s.ops <= t.ops <= u.ops
    ensures AfterStep(AfterStep(w, t), u) == AfterStep(w, u)
  {
    NewTwice(w.s.ops, t.ops, u.ops, w.calls);
  }

  lemma NewTwice(a: set<Op>, b: set<Op>, c: set<Op>, calls: map<Op, Phase>)
    requires a <= b <= c
    ensures calls + NewCalls(a, b) + NewCalls(b, c) == calls + NewCalls(a, c)
  {
  }

  lemma ReleaseAdds(s: State, h: nat, now: int)
    ensures s.ops <= ReleaseVM(s, h, now).next.ops
  {
  }

  lemma {:induction false} ReleaseAllSound(w: World, hs: seq<nat>, now: int)
    requires WorldInv(w)
    ensures var t := ReleaseAll(w.s, hs, now).next; WorldInv(AfterStep(w, t)) && w.s.ops <= t.ops
    decreases |hs|
  {
    if hs == [] {
      StepSoundSame(w, w.s);
    } else {
      ReleaseLegit(w.s, hs[0], now);
      ReleaseInv(w.s, hs[0], now);
      var r := ReleaseVM(w.s, hs[0], now);
      StepSound(w, r.next);
      ReleaseAdds(w.s, hs[0], now);
      if r.Done? {
        ReleaseAllSound(AfterStep(w, r.next), hs[1..], now);
        AfterTwoSteps(w, r.next, ReleaseAll(r.next, hs[1..], now).next);
      }
    }
  }

  lemma StepSoundSame(w: World, t: State)
    requires WorldInv(w) && Inv(t) && w.s.nextVMID == t.nextVMID && t.restored == w.s.restored
    requires forall x: nat :: ViewOf(t, x) == ViewOf(w.s, x)
    ensures WorldInv(AfterStep(w, t))
  {
    SameLegit(w.s, t);
    StepSound(w, t);
  }

  lemma {:induction false} CancelAllSound(w: World, bs: seq<nat>)
    requires WorldInv(w)
    ensures var t := CancelAll(w.s, bs).next; WorldInv(AfterStep(w, t)) && w.s.ops == t.ops
    decreases |bs|
  {
    if bs == [] {
      StepSoundSame(w, w.s);
    } else {
      CancelLegit(w.s, bs[0]);
      CancelInv(w.s, bs[0]);
      var r := CancelBatch(w.s, bs[0]);
      StepSound(w, r.next);
      if r.Done? {
        CancelAllSound(AfterStep(w, r.next), bs[1..]);
        AfterTwoSteps(w, r.next, CancelAll(r.next, bs[1..]).next);
      }
    }
  }

  lemma ShutdownSound(w: World, now: int)
    requires WorldInv(w)
    ensures WorldInv(AfterStep(w, Shutdown(w.s, now).next))
  {
    ReleaseAllSound(w, w.s.handles, now);
    var r1 := ReleaseAll(w.s, w.s.handles, now);
    if r1.Done? {
      var w1 := AfterStep(w, r1.next);
      CancelAllSound(w1, w.s.batches);
      var r2 := CancelAll(r1.next, w.s.batches);
      AfterTwoSteps(w, r1.next, r2.next);
      if r2.Done? {
        PoolSizeSound(AfterStep(w, r2.next));
        AfterTwoSteps(w, r2.next, SetPoolSize(r2.next, 0, 0, 0));
      }
    }
  }

  lemma PoolSizeSound(w: World)
    requires WorldInv(w)
    ensures WorldInv(AfterStep(w, SetPoolSize(w.s, 0, 0, 0)))
  {
    SetPoolSizeInv(w.s, 0, 0, 0);
    StepSoundSame(w, SetPoolSize(w.s, 0, 0, 0));
  }

  lemma RequestSound(w: World, e: Event, now: int)
    requires WorldInv(w) && Enabled(w.s, e)
    requires IsRequest(e)
    ensures WorldInv(AfterStep(w, Apply(w.s, e, now).next))
  {
    var s := w.s;
    RequestInv(s, e, now);
    if e.EvShutdown? {
      ShutdownSound(w, now);
    } else {
      RequestLegit(s, e, now);
      StepSound(w, Apply(s, e, now).next);
    }
  }

  lemma RequestLegit(s: State, e: Event, now: int)
    requires Inv(s) && WF(s) && !s.restored
    requires IsRequest(e) && !e.EvShutdown?
    ensures LegitStep(s, Apply(s, e, now).next)
  {
    match e
    case EvPrepareBatch(size) => PrepareBatchLegit(s, size);
    case EvLock(b) => LockLegit(s, b);
    case EvRelease(h) =>
      ReleaseLegit(s, h, now);
      SameLegit(s, s);
    case EvCancel(b) =>
      CancelLegit(s, b);
      SameLegit(s, s);
    case EvPoolSize(min, max, linger) => SameLegit(s, RequestPoolSize(s, min, max, linger));
    case EvRenew(h, time) => RenewLegit(s, h, time, now);
  }

  // ---------------------------------------------------------------- check-ins and answers

  /** The check-in the environment assumption is about: no earlier one, so the VM is still starting. */
  lemma CheckinWhileStarting(w: World, x: nat)
    requires WorldInv(w) && !MachineOf(w, x).checkedIn
    ensures Enabled(w.s, EvCheckin(x))
  {
    assert SoundAt(w, x) && VmOk(ViewOf(w.s, x));
  }

  /** A move that touches one VM keeps the world sound if it keeps that VM sound. */
  lemma OneSound(w: World, u: World, y: nat)
    requires WorldInv(w) && Inv(u.s) && w.s.nextVMID <= u.s.nextVMID && u.s.restored == w.s.restored
    requires forall x: nat :: x != y ==>
               && ViewOf(u.s, x) == ViewOf(w.s, x) && MachineOf(u, x) == MachineOf(w, x)
               && CallsOf(u.calls, x) == CallsOf(w.calls, x)
    requires SoundAt(u, y)
    ensures WorldInv(u)
  {
    InvWF(u.s);
    forall x: nat ensures SoundAt(u, x) {
      assert SoundAt(w, x);
    }
  }

  lemma CallsElsewhere(calls: map<Op, Phase>, gone: set<Op>, before: set<Op>, after: set<Op>, y: nat)
    requires forall op :: op in gone ==> op.vmid == y
    requires forall x: nat :: x != y ==> OpsOf(before, x) == OpsOf(after, x)
    ensures forall x: nat :: x != y ==> CallsOf((calls - gone) + NewCalls(before, after), x) == CallsOf(calls, x)
    ensures CallsOf((calls - gone) + NewCalls(before, after), y)
         == (CallsOf(calls, y) - gone) + NewCalls(OpsOf(before, y), OpsOf(after, y))
  {
    forall x: nat | x != y ensures CallsOf((calls - gone) + NewCalls(before, after), x) == CallsOf(calls, x) {
      assert forall op :: op in after && op.vmid == x ==> op in OpsOf(after, x);
    }
  }

  lemma CheckinSound(w: World, x: nat, now: int)
    requires WorldInv(w) && Can(w, Controller(EvCheckin(x), now))
    ensures WorldInv(Do(w, Controller(EvCheckin(x), now)))
  {
    var s := w.s;
    var u := Do(w, Controller(EvCheckin(x), now));
    CheckinWhileStarting(w, x);
    CheckinReceivedInv(s, x);
    CheckinReceivedView(s, x);
    CallsElsewhere(w.calls, {}, s.ops, u.s.ops, x);
    assert SoundAt(w, x);
    assert CallsOf(u.calls, x) == CallsOf(w.calls, x);
    OneSound(w, u, x);
  }

  lemma CheckinReceivedView(s: State, x: nat)
    requires WF(s)
    ensures var t := CheckinReceived(s, x);
            && (forall y: nat :: y != x ==> ViewOf(t, y) == ViewOf(s, y))
            && NewCalls(OpsOf(s.ops, x), OpsOf(t.ops, x)) == map[]
            && ViewOf(t, x) == if x !in s.pool then ViewOf(s, x)
                               else ViewOf(s, x).(ops := ViewOf(s, x).ops + {Checkin(x, s.vms[x].version)})
  {
    if x in s.pool {
      OpsChange(s.ops, Checkin(x, s.vms[x].version));
    }
  }

  /** An answer: the belief becomes FREE or READY only when that is the state the VM is in. */
  lemma AnswerSound(v: VmView, m: Machine, calls: map<Op, Phase>, op: Op, r: VmState, st: BeliefState, now: int)
    requires VmOk(v) && Sound(v, m, calls, false) && op in v.ops && IsTask(op)
    requires op in calls && calls[op] == Answered(r)
    requires st == ERROR || (st == READY && r == READY_VM) || (st == FREE && r == FREE_VM)
    ensures Sound(Finished(v, op, st, now), m, calls - {op}, false)
    ensures v.inPool ==> calls - {op} == map[]
  {
    var u := Finished(v, op, st, now);
    FinishedOk(v, op, st, now);
    if v.inPool {
      assert calls.Keys == {op};
      assert calls - {op} == map[];
    }
  }

  /** The IP change fails first: the call goes on, but the VM is not used again. */
  lemma IpFailedSound(v: VmView, m: Machine, calls: map<Op, Phase>, op: Op, now: int)
    requires VmOk(v) && Sound(v, m, calls, false) && op in v.ops && IsTask(op)
    ensures Sound(Finished(v, op, ERROR, now), m, calls, false)
  {
    FinishedOk(v, op, ERROR, now);
  }

  /** A prepare its batch no longer wants is answered with a clean-up call at once. */
  lemma AnswerThenCleanupSound(v: VmView, m: Machine, calls: map<Op, Phase>, op: Op, r: VmState, st: BeliefState,
                               now: int, y: nat)
    requires VmOk(v) && Sound(v, m, calls, false) && op in v.ops && op.Prepare?
    requires op in calls && calls[op] == Answered(r)
    requires v.vm.Some? && (st == ERROR || (st == READY && r == READY_VM))
    ensures var vm := v.vm.value.VerSet(op.ver, st, now);
            var u := Finished(v, op, st, now).(vm := Some(vm.Set(WAIT, now)),
                                               ops := v.ops - {op} + {Cleanup(y, vm.version + 1)});
            Sound(u, m, (calls - {op}) + NewCalls(v.ops, u.ops), false)
  {
    var u1 := Finished(v, op, st, now);
    var vm := u1.vm.value;
    var clean := Cleanup(y, vm.version + 1);
    var u := u1.(vm := Some(vm.Set(WAIT, now)), ops := u1.ops + {clean});
    AnswerSound(v, m, calls, op, r, st, now);
    assert clean in u.ops;
    assert u.ops - v.ops == u.ops - u1.ops;
    FinishedOk(v, op, st, now);
    if v.inPool {
      SendsSound(u1, u, m, calls - {op});
    }
  }

  lemma PrepareDoneCleansView(s: State, op: Op, r: VmState, now: int)
    requires op.Prepare? && op.vmid in s.vms && op.vmid in s.rpc
    requires op.batchId !in s.batches || !Listed(s, op.batchId, op.vmid)
    ensures var t := PrepareDone(s, op.vmid, op.ver, op.batchId, Replied(r), now).next;
            && (forall y: nat :: y != op.vmid ==> ViewOf(t, y) == ViewOf(s, y))
            && ViewOf(t, op.vmid) == Recycled(ViewOf(s, op.vmid), op, r, now)
  {
    var st := if r == READY_VM then READY else ERROR;
    FinishView(s, op, st, now);
    CleanupView(VerSetVm(s.(ops := s.ops - {op}), op.vmid, op.ver, st, now), op.vmid, now);
  }

  /** The view of the VM once its unwanted prepare is answered with a clean-up. */
  function Recycled(v: VmView, op: Op, r: VmState, now: int): VmView
    requires op.Prepare? && v.vm.Some?
  {
    var st := if r == READY_VM then READY else ERROR;
    var vm := v.vm.value.VerSet(op.ver, st, now);
    Finished(v, op, st, now).(vm := Some(vm.Set(WAIT, now)), ops := v.ops - {op} + {Cleanup(op.vmid, vm.version + 1)})
  }

  lemma RecycledHere(w: World, op: Op, r: VmState, now: int, u: World)
    requires WorldInv(w) && op.Prepare? && op in w.s.ops && AnsweredWith(w, op, r) && op.vmid in w.s.vms
    requires Inv(u.s) && u.s.nextVMID == w.s.nextVMID && u.s.restored == w.s.restored && u.machines == w.machines
    requires u.calls == (w.calls - {op}) + NewCalls(w.s.ops, u.s.ops)
    requires forall x: nat :: x != op.vmid ==> ViewOf(u.s, x) == ViewOf(w.s, x)
    requires ViewOf(u.s, op.vmid) == Recycled(ViewOf(w.s, op.vmid), op, r, now)
    ensures WorldInv(u)
  {
    var x := op.vmid;
    var v := ViewOf(w.s, x);
    assert VmOk(v) && op in v.ops && SoundAt(w, x);
    Known(w.s, x);
    forall y: nat | y != x ensures OpsOf(w.s.ops, y) == OpsOf(u.s.ops, y) {
      assert ViewOf(u.s, y) == ViewOf(w.s, y);
    }
    CallsElsewhere(w.calls, {op}, w.s.ops, u.s.ops, x);
    var st := if r == READY_VM then READY else ERROR;
    AnswerThenCleanupSound(v, MachineOf(w, x), CallsOf(w.calls, x), op, r, st, now, x);
    OneSound(w, u, x);
  }

  lemma PrepareDoneCleansSound(w: World, op: Op, r: VmState, now: int)
    requires op.Prepare? && op.vmid in w.s.vms && (op.batchId !in w.s.batches || !Listed(w.s, op.batchId, op.vmid))
    requires WorldInv(w) && Can(w, Controller(EvPrepareDone(op.vmid, op.ver, op.batchId, Replied(r)), now))
    ensures WorldInv(Do(w, Controller(EvPrepareDone(op.vmid, op.ver, op.batchId, Replied(r)), now)))
  {
    var e := EvPrepareDone(op.vmid, op.ver, op.batchId, Replied(r));
    assert VmOk(ViewOf(w.s, op.vmid)) && op in ViewOf(w.s, op.vmid).ops;
    PrepareDoneInv(w.s, op.vmid, op.ver, op.batchId, Replied(r), now);
    PrepareDoneCleansView(w.s, op, r, now);
    RecycledHere(w, op, r, now, Do(w, Controller(e, now)));
  }

  lemma PrepareDoneView(s: State, x: nat, ver: nat, b: nat, outcome: Outcome, now: int)
    requires outcome.IpFailed? || x !in s.vms || !(b !in s.batches || !Listed(s, b, x))
    ensures var op := Prepare(x, ver, b);
            var t := PrepareDone(s, x, ver, b, outcome, now).next;
            && (forall y: nat :: y != x ==> ViewOf(t, y) == ViewOf(s, y))
            && ViewOf(t, x) == Finished(ViewOf(s, x), op, if outcome == Replied(READY_VM) then READY else ERROR, now)
  {
    FinishView(s, Prepare(x, ver, b), if outcome == Replied(READY_VM) then READY else ERROR, now);
  }

  lemma PrepareDoneSound(w: World, x: nat, ver: nat, b: nat, outcome: Outcome, now: int)
    requires WorldInv(w) && Can(w, Controller(EvPrepareDone(x, ver, b, outcome), now))
    ensures WorldInv(Do(w, Controller(EvPrepareDone(x, ver, b, outcome), now)))
  {
    var s := w.s;
    if outcome.Replied? && x in s.vms && (b !in s.batches || !Listed(s, b, x)) {
      PrepareDoneCleansSound(w, Prepare(x, ver, b), outcome.state, now);
    } else {
      var e := EvPrepareDone(x, ver, b, outcome);
      PrepareDoneView(s, x, ver, b, outcome, now);
      PrepareDoneInv(s, x, ver, b, outcome, now);
      FinishedHere(w, Prepare(x, ver, b), outcome, if outcome == Replied(READY_VM) then READY else ERROR, now,
                   Do(w, Controller(e, now)));
    }
  }

  /** An operation ends without a further call. */
  lemma FinishedHere(w: World, op: Op, outcome: Outcome, st: BeliefState, now: int, u: World)
    requires WorldInv(w) && IsTask(op) && op in w.s.ops && (outcome.Replied? ==> AnsweredWith(w, op, outcome.state))
    requires st == ERROR || (st == READY && outcome == Replied(READY_VM)) || (st == FREE && outcome == Replied(FREE_VM))
    requires Inv(u.s) && u.s.nextVMID == w.s.nextVMID && u.s.restored == w.s.restored && u.machines == w.machines
    requires u.s.ops == w.s.ops - {op}
    requires u.calls == (w.calls - if outcome.Replied? then {op} else {}) + NewCalls(w.s.ops, u.s.ops)
    requires forall x: nat :: x != op.vmid ==> ViewOf(u.s, x) == ViewOf(w.s, x)
    requires ViewOf(u.s, op.vmid) == Finished(ViewOf(w.s, op.vmid), op, st, now)
    ensures WorldInv(u)
  {
    var x := op.vmid;
    var v := ViewOf(w.s, x);
    var gone := if outcome.Replied? then {op} else {};
    assert VmOk(v) && op in v.ops && SoundAt(w, x);
    Known(w.s, x);
    CallsDropped(w.calls, gone, w.s.ops, op);
    FinishedSound(v, MachineOf(w, x), CallsOf(w.calls, x), op, outcome, st, now);
    OneSound(w, u, x);
  }

  lemma FinishedSound(v: VmView, m: Machine, calls: map<Op, Phase>, op: Op, outcome: Outcome, st: BeliefState, now: int)
    requires VmOk(v) && Sound(v, m, calls, false) && op in v.ops && IsTask(op)
    requires outcome.Replied? ==> op in calls && calls[op] == Answered(outcome.state)
    requires st == ERROR || (st == READY && outcome == Replied(READY_VM)) || (st == FREE && outcome == Replied(FREE_VM))
    ensures Sound(Finished(v, op, st, now), m, calls - if outcome.Replied? then {op} else {}, false)
  {
    if outcome.Replied? {
      AnswerSound(v, m, calls, op, outcome.state, st, now);
    } else {
      IpFailedSound(v, m, calls, op, now);
      assert calls - {} == calls;
    }
  }

  lemma CallsDropped(calls: map<Op, Phase>, gone: set<Op>, ops: set<Op>, op: Op)
    requires gone <= {op}
    ensures var after := (calls - gone) + NewCalls(ops, ops - {op});
            && (forall x: nat :: x != op.vmid ==> CallsOf(after, x) == CallsOf(calls, x))
            && CallsOf(after, op.vmid) == CallsOf(calls, op.vmid) - gone
  {
    OthersKeepOps(ops, op);
    CallsElsewhere(calls, gone, ops, ops - {op}, op.vmid);
  }

  lemma OthersKeepOps(ops: set<Op>, op: Op)
    ensures forall x: nat :: x != op.vmid ==> OpsOf(ops, x) == OpsOf(ops - {op}, x)
    ensures OpsOf(ops - {op}, op.vmid) == OpsOf(ops, op.vmid) - {op}
  {
    forall x: nat | x != op.vmid ensures OpsOf(ops, x) == OpsOf(ops - {op}, x) {
      assert op !in OpsOf(ops, x);
    }
  }

  lemma CleanupDoneSound(w: World, x: nat, ver: nat, outcome: Outcome, now: int)
    requires WorldInv(w) && Can(w, Controller(EvCleanupDone(x, ver, outcome), now))
    ensures WorldInv(Do(w, Controller(EvCleanupDone(x, ver, outcome), now)))
  {
    var e := EvCleanupDone(x, ver, outcome);
    var st := if outcome == Replied(FREE_VM) then FREE else ERROR;
    FinishView(w.s, Cleanup(x, ver), st, now);
    CleanupDoneInv(w.s, x, ver, outcome, now);
    FinishedHere(w, Cleanup(x, ver), outcome, st, now, Do(w, Controller(e, now)));
  }

  // ---------------------------------------------------------------- steps of a VM

  lemma CallsUpdate(calls: map<Op, Phase>, op: Op, phase: Phase)
    ensures forall x: nat :: x != op.vmid ==> CallsOf(calls[op := phase], x) == CallsOf(calls, x)
    ensures CallsOf(calls[op := phase], op.vmid) == CallsOf(calls, op.vmid)[op := phase]
  {
  }

  lemma BootEndsSound(w: World, x: nat, ok: bool)
    requires WorldInv(w) && Can(w, BootEnds(x, ok))
    ensures WorldInv(Do(w, BootEnds(x, ok)))
  {
    assert SoundAt(w, x) && VmOk(ViewOf(w.s, x));
    OneSound(w, Do(w, BootEnds(x, ok)), x);
  }

  lemma ReceivesSound(w: World, op: Op)
    requires WorldInv(w) && Can(w, Receives(op))
    ensures WorldInv(Do(w, Receives(op)))
  {
    var u := Do(w, Receives(op));
    CallsUpdate(w.calls, op, Running);
    assert SoundAt(w, op.vmid) && op in CallsOf(w.calls, op.vmid);
    OneSound(w, u, op.vmid);
  }

  lemma EndsSound(w: World, op: Op, result: Option<nat>)
    requires WorldInv(w) && Can(w, Ends(op, result))
    ensures WorldInv(Do(w, Ends(op, result)))
  {
    var u := Do(w, Ends(op, result));
    CallsUpdate(w.calls, op, u.calls[op]);
    assert SoundAt(w, op.vmid) && op in CallsOf(w.calls, op.vmid);
    OneSound(w, u, op.vmid);
  }

  // ---------------------------------------------------------------- the theorem

  lemma CallbackLegit(s: State, e: Event, now: int)
    requires Inv(s) && WF(s) && !s.restored && Enabled(s, e) && !IsRequest(e)
    requires !e.EvCheckin? && !e.EvPrepareDone? && !e.EvCleanupDone?
    ensures LegitStep(s, Apply(s, e, now).next)
  {
    match e {
      case EvTick => SameLegit(s, s.(scheduled := true));
      case EvRules => ExecuteRulesLegit(s, now);
      case EvPingVMs => PingVMsLegit(s);
      case EvBootDone(x, ok) => BootDoneLegit(s, x, ok, now);
      case EvCheckinDone(x, ver, hasServer) => CheckinDoneLegit(s, x, ver, hasServer, now);
      case EvPingReply(x, ver, seen, result) => PingReplyLegit(s, x, ver, seen, result, now);
      case EvBootCheckFailed(x) => BootCheckFailedLegit(s, x, now);
      case EvKillDone(x) => KillDoneLegit(s, x);
    }
  }

  /** A completion or request that is neither a check-in nor an answer. */
  lemma PlainSound(w: World, e: Event, now: int)
    requires WorldInv(w) && Enabled(w.s, e) && !e.EvCheckin? && !e.EvPrepareDone? && !e.EvCleanupDone?
    ensures WorldInv(AfterStep(w, Apply(w.s, e, now).next))
  {
    if IsRequest(e) {
      RequestSound(w, e, now);
    } else {
      StepInv(w.s, e, now);
      CallbackLegit(w.s, e, now);
      StepSound(w, Apply(w.s, e, now).next);
    }
  }

  lemma PlainDo(w: World, e: Event, now: int)
    requires WF(w.s) && !e.EvCheckin? && !e.EvPrepareDone? && !e.EvCleanupDone?
    ensures Do(w, Controller(e, now)) == AfterStep(w, Apply(w.s, e, now).next)
  {
    assert w.calls - {} == w.calls;
  }

  lemma ControllerSound(w: World, e: Event, now: int)
    requires WorldInv(w) && Can(w, Controller(e, now))
    ensures WorldInv(Do(w, Controller(e, now)))
  {
    match e {
      case EvCheckin(x) => CheckinSound(w, x, now);
      case EvPrepareDone(x, ver, b, outcome) => PrepareDoneSound(w, x, ver, b, outcome, now);
      case EvCleanupDone(x, ver, outcome) => CleanupDoneSound(w, x, ver, outcome, now);
      case _ =>
        PlainDo(w, e, now);
        PlainSound(w, e, now);
    }
  }

  lemma MoveSound(w: World, mv: WorldMove)
    requires WorldInv(w) && Can(w, mv)
    ensures WorldInv(Do(w, mv))
  {
    match mv
    case Controller(e, now) => ControllerSound(w, e, now);
    case BootEnds(x, ok) => BootEndsSound(w, x, ok);
    case Receives(op) => ReceivesSound(w, op);
    case Ends(op, result) => EndsSound(w, op, result);
  }

  ghost predicate Moved(w: World, u: World) {
    WF(w.s) && exists mv :: Can(w, mv) && u == Do(w, mv)
  }

  /** One run of the controller process with its VMs, from nothing. */
  ghost predicate IsWorldRun(run: seq<World>) {
    && run != []
    && run[0] == World(Init(run[0].s.cfg), map[], map[])
    && forall i, j :: 0 <= i < |run| && j == i + 1 < |run| ==> Moved(run[i], run[j])
  }

  lemma {:induction false} AlwaysSound(run: seq<World>, k: nat)
    requires IsWorldRun(run) && k < |run|
    ensures WorldInv(run[k])
    decreases k
  {
    if k == 0 {
      InitInv(run[0].s.cfg);
      InvWF(run[0].s);
    } else {
      AlwaysSound(run, k - 1);
      assert Moved(run[k - 1], run[k]);
      var mv :| Can(run[k - 1], mv) && run[k] == Do(run[k - 1], mv);
      MoveSound(run[k - 1], mv);
    }
  }

  /** Belief soundness. In every reachable world, a pool VM believed FREE is FREE if and only if its initial boot
      did not fail; one believed READY or OCCUPIED is READY and holds the payload of its session; no call to it
      is under way. */
  lemma BeliefsAreSound(run: seq<World>, k: nat, x: nat)
    requires IsWorldRun(run) && k < |run| && x in run[k].s.pool
    ensures var w := run[k];
            var m := MachineOf(w, x);
            && (InState(w.s, x, FREE) ==> (m.state == FREE_VM <==> m.boot != Broken))
            && (InState(w.s, x, READY) || InState(w.s, x, OCCUPIED) ==> m.state == READY_VM && m.session.Some?)
            && (x in w.s.vms && Stable(w.s.vms[x].state) ==> forall op :: op in w.calls ==> op.vmid != x)
  {
    var w := run[k];
    AlwaysSound(run, k);
    assert SoundAt(w, x) && VmOk(ViewOf(w.s, x));
    forall op | op in w.calls && op.vmid == x ensures op in CallsOf(w.calls, x) {
    }
  }

  /** A pool VM never works on two calls: while an operation on it is outstanding, that is its only call; a call
      the controller has given up stays only with a VM believed to be in ERROR that no handle holds. */
  lemma OneCallAtATime(run: seq<World>, k: nat, p: Op, q: Op)
    requires IsWorldRun(run) && k < |run| && p in run[k].calls && q in run[k].calls && p.vmid == q.vmid
    requires p.vmid in run[k].s.pool
    ensures var s := run[k].s;
            && (p in s.ops && IsTask(p) ==> p == q)
            && ((forall op :: op in s.ops && IsTask(op) ==> op.vmid != p.vmid) ==>
                  InState(s, p.vmid, ERROR) && forall h :: !Held(s, h, p.vmid))
  {
    var w := run[k];
    var x := p.vmid;
    AlwaysSound(run, k);
    assert SoundAt(w, x) && VmOk(ViewOf(w.s, x));
    assert p in CallsOf(w.calls, x) && q in CallsOf(w.calls, x);
    assert p in w.s.ops ==> p in ViewOf(w.s, x).ops;
    assert forall h :: Held(w.s, h, x) ==> h in ViewOf(w.s, x).handles;
  }

  /** The assumption the scheduler makes about check-ins is met by the VMs: each one reports only while the
      controller still believes it to be starting. */
  lemma CheckinsAreTimely(run: seq<World>, k: nat, x: nat, now: int)
    requires IsWorldRun(run) && k < |run| && Can(run[k], Controller(EvCheckin(x), now))
    ensures Enabled(run[k].s, EvCheckin(x))
  {
    AlwaysSound(run, k);
    CheckinWhileStarting(run[k], x);
  }

  /** Why the successful boot matters: a VM whose boot fails checks in all the same and is believed FREE. */
  lemma BrokenBelievedFree(w: World, x: nat, now: int)
    requires WorldInv(w) && x in w.s.pool && Starting(w.s, x) && MachineOf(w, x).boot == Booting
    ensures var w1 := Do(w, BootEnds(x, false));
            var w2 := Do(w1, Controller(EvCheckin(x), now));
            var e := EvCheckinDone(x, w.s.vms[x].version, true);
            && Can(w, BootEnds(x, false)) && Can(w1, Controller(EvCheckin(x), now))
            && WF(w2.s) && Can(w2, Controller(e, now))
            && InState(Do(w2, Controller(e, now)).s, x, FREE)
            && MachineOf(Do(w2, Controller(e, now)), x).state == ERROR_VM
  {
    assert SoundAt(w, x);
    BootEndsSound(w, x, false);
    CheckinSound(Do(w, BootEnds(x, false)), x, now);
  }

  // ---------------------------------------------------------------- pings

  /** No known VM enters the pool again, and the version of one that stays never goes back. */
  ghost predicate Ages(s: State, t: State) {
    && s.nextVMID <= t.nextVMID
    && (forall x :: x in t.pool && x < s.nextVMID ==>
          x in s.pool && (x in s.vms && x in t.vms ==> s.vms[x].version <= t.vms[x].version))
  }

  /** The same about one view. */
  predicate ViewAges(v: VmView, u: VmView) {
    u.inPool ==> v.inPool && (v.vm.Some? && u.vm.Some? ==> v.vm.value.version <= u.vm.value.version)
  }

  lemma ViewsAge(s: State, t: State)
    requires s.nextVMID <= t.nextVMID
    requires forall x: nat :: x < s.nextVMID ==> ViewAges(ViewOf(s, x), ViewOf(t, x))
    ensures Ages(s, t)
  {
    forall x | x in t.pool && x < s.nextVMID
      ensures x in s.pool && (x in s.vms && x in t.vms ==> s.vms[x].version <= t.vms[x].version)
    {
      assert ViewAges(ViewOf(s, x), ViewOf(t, x));
    }
  }

  lemma LegitAges(s: State, t: State)
    requires LegitStep(s, t) && Inv(t)
    ensures Ages(s, t)
  {
    forall x: nat | x < s.nextVMID ensures ViewAges(ViewOf(s, x), ViewOf(t, x)) {
      assert Legit(ViewOf(s, x), ViewOf(t, x), false) && VmOk(ViewOf(t, x));
    }
    ViewsAge(s, t);
  }

  lemma AgesTwice(s: State, t: State, u: State)
    requires Ages(s, t) && Ages(t, u) && Inv(t)
    ensures Ages(s, u)
  {
    InvWF(t);
  }

  lemma {:induction false} ReleaseAllAges(s: State, hs: seq<nat>, now: int)
    requires Inv(s) && !s.restored
    ensures var t := ReleaseAll(s, hs, now).next; Inv(t) && !t.restored && Ages(s, t)
    decreases |hs|
  {
    if hs == [] {
    } else {
      var r := ReleaseVM(s, hs[0], now);
      ReleaseInv(s, hs[0], now);
      ReleaseLegit(s, hs[0], now);
      LegitAges(s, r.next);
      if r.Done? {
        ReleaseAllAges(r.next, hs[1..], now);
        AgesTwice(s, r.next, ReleaseAll(r.next, hs[1..], now).next);
      }
    }
  }

  lemma {:induction false} CancelAllAges(s: State, bs: seq<nat>)
    ensures var t := CancelAll(s, bs).next; t.pool == s.pool && t.vms == s.vms && t.nextVMID == s.nextVMID
    decreases |bs|
  {
    if bs == [] {
    } else if CancelBatch(s, bs[0]).Done? {
      CancelAllAges(CancelBatch(s, bs[0]).next, bs[1..]);
    }
  }

  lemma ShutdownAges(s: State, now: int)
    requires Inv(s) && !s.restored
    ensures Ages(s, Shutdown(s, now).next)
  {
    ReleaseAllAges(s, s.handles, now);
    var r1 := ReleaseAll(s, s.handles, now);
    if r1.Done? {
      CancelAllAges(r1.next, s.batches);
    }
  }

  lemma PrepareDoneAges(s: State, op: Op, outcome: Outcome, now: int)
    requires Inv(s) && op.Prepare? && op in s.ops
    ensures Ages(s, PrepareDone(s, op.vmid, op.ver, op.batchId, outcome, now).next)
  {
    var x := op.vmid;
    assert VmOk(ViewOf(s, x)) && op in ViewOf(s, x).ops;
    if outcome.Replied? && x in s.vms && (op.batchId !in s.batches || !Listed(s, op.batchId, x)) {
      PrepareDoneCleansView(s, op, outcome.state, now);
    } else {
      PrepareDoneView(s, x, op.ver, op.batchId, outcome, now);
    }
    ViewsAge(s, PrepareDone(s, x, op.ver, op.batchId, outcome, now).next);
  }

  lemma CleanupDoneAges(s: State, x: nat, ver: nat, outcome: Outcome, now: int)
    ensures Ages(s, CleanupDone(s, x, ver, outcome, now))
  {
    var st := if outcome == Replied(FREE_VM) then FREE else ERROR;
    FinishView(s, Cleanup(x, ver), st, now);
    ViewsAge(s, CleanupDone(s, x, ver, outcome, now));
  }

  lemma PlainAges(s: State, e: Event, now: int)
    requires Inv(s) && WF(s) && !s.restored && Enabled(s, e)
    requires !e.EvShutdown? && !e.EvCheckin? && !e.EvPrepareDone? && !e.EvCleanupDone?
    ensures Ages(s, Apply(s, e, now).next)
  {
    if IsRequest(e) {
      RequestLegit(s, e, now);
    } else {
      CallbackLegit(s, e, now);
    }
    StepInv(s, e, now);
    LegitAges(s, Apply(s, e, now).next);
  }

  lemma EventAges(s: State, e: Event, now: int)
    requires Inv(s) && WF(s) && !s.restored && Enabled(s, e)
    ensures Ages(s, Apply(s, e, now).next)
  {
    match e {
      case EvShutdown => ShutdownAges(s, now);
      case EvCheckin(x) => assert Apply(s, e, now).next.vms == s.vms;
      case EvPrepareDone(x, ver, b, outcome) => PrepareDoneAges(s, Prepare(x, ver, b), outcome, now);
      case EvCleanupDone(x, ver, outcome) => CleanupDoneAges(s, x, ver, outcome, now);
      case _ => PlainAges(s, e, now);
    }
  }

  lemma MoveAges(w: World, mv: WorldMove)
    requires WorldInv(w) && Can(w, mv)
    ensures Ages(w.s, Do(w, mv).s)
  {
    if mv.Controller? {
      if mv.e.EvCheckin? {
        CheckinWhileStarting(w, mv.e.x);
      }
      EventAges(w.s, mv.e, mv.now);
    }
  }

  lemma {:induction false} RunAges(run: seq<World>, j: nat, k: nat)
    requires IsWorldRun(run) && j <= k < |run|
    ensures Ages(run[j].s, run[k].s)
    decreases k - j
  {
    if j == k {
    } else {
      RunAges(run, j, k - 1);
      AlwaysSound(run, k - 1);
      assert Moved(run[k - 1], run[k]);
      var mv :| Can(run[k - 1], mv) && run[k] == Do(run[k - 1], mv);
      MoveAges(run[k - 1], mv);
      AgesTwice(run[j].s, run[k - 1].s, run[k].s);
    }
  }

  /** What a VM answers to a ping that is outstanding fits the belief the ping was sent for, if the belief has
      not moved on by then. */
  lemma AnswerFits(w: World, x: nat, ver: nat, seen: BeliefState)
    requires WorldInv(w) && Ping(x, ver, seen) in w.s.ops && x in w.s.pool && MachineOf(w, x).boot == Up
    ensures x in w.s.vms && ver <= w.s.vms[x].version
    ensures w.s.vms[x].version == ver ==> PingMatches(seen, MachineOf(w, x).state)
  {
    assert SoundAt(w, x) && VmOk(ViewOf(w.s, x));
    assert Ping(x, ver, seen) in ViewOf(w.s, x).ops;
  }

  /** A ping answered in state j and heard of in state k: when its token is still current in k, the answer
      refreshes the belief, so a VM that tells the truth is never put in ERROR by a current ping. */
  lemma NoFalseAlarm(run: seq<World>, j: nat, k: nat, x: nat, ver: nat, seen: BeliefState, now: int)
    requires IsWorldRun(run) && j <= k < |run| && x in run[k].s.pool && x in run[k].s.vms
    requires Ping(x, ver, seen) in run[j].s.ops && MachineOf(run[j], x).boot == Up
    requires run[k].s.vms[x].version == ver
    ensures var s := run[k].s;
            PingReply(s, x, ver, seen, MachineOf(run[j], x).state, now)
            == s.(vms := s.vms[x := s.vms[x].Refresh(now)])
  {
    AlwaysSound(run, j);
    RunAges(run, j, k);
    assert VmOk(ViewOf(run[j].s, x)) && Ping(x, ver, seen) in ViewOf(run[j].s, x).ops;
    Known(run[j].s, x);
    AnswerFits(run[j], x, ver, seen);
  }

  /** The token protects only answers that match: a ping sent while the VM was believed FREE, and answered while
      the VM works on the prepare that came after it, puts a working VM in ERROR. */
  lemma BusyFalseAlarm(w: World, x: nat, ver: nat, op: Op, now: int)
    requires WorldInv(w) && x in w.s.pool && Ping(x, ver, FREE) in w.s.ops
    requires op.Prepare? && op.vmid == x && op in w.s.ops && Can(w, Receives(op))
    ensures var u := Do(w, Receives(op));
            && MachineOf(u, x).boot == Up && MachineOf(u, x).state == BUSY
            && Can(u, Controller(EvPingReply(x, ver, FREE, MachineOf(u, x).state), now))
            && InState(PingReply(u.s, x, ver, FREE, MachineOf(u, x).state, now), x, ERROR)
  {
    assert VmOk(ViewOf(w.s, x));
  }

  lemma PrepareFires(s: State, x: nat, now: int)
    requires Inv(s) && WF(s) && s.prepQueue != [] && RulePool(s.(scheduled := false), now).Idle?
    requires x in s.pool && InState(s, x, FREE) && x == s.pool[First(s.pool, y => InState(s, y, FREE))]
    ensures ExecuteRules(s, now) == Done(PrepareNext(s.(scheduled := false), x, now).(scheduled := true))
  {
    var s0 := s.(scheduled := false);
    FirstIs(s.pool, y => InState(s0, y, FREE), First(s.pool, y => InState(s, y, FREE)));
    assert RulePrepare(s0, now) == Fired(PrepareNext(s0, x, now));
    SecondRuns(s0, now);
  }

  lemma SecondRuns(s: State, now: int)
    requires WF(s) && RulePool(s, now).Idle? && !RulePrepare(s, now).Idle?
    ensures RunRules(s, now) == RulePrepare(s, now)
  {
    assert Try(s, now, ORDER[0]).Idle?;
    assert ORDER[1..][0] == PrepareRule;
    assert RunFrom(s, now, ORDER[1..]) == RulePrepare(s, now);
  }

  /** The tick sends the prepare call of the FREE VM, which is the only call to it. */
  lemma PrepareSent(w: World, x: nat, now: int)
    requires WorldInv(w) && w.s.prepQueue != [] && w.s.scheduled && RulePool(w.s.(scheduled := false), now).Idle?
    requires x in w.s.pool && InState(w.s, x, FREE) && x == w.s.pool[First(w.s.pool, y => InState(w.s, y, FREE))]
    ensures var u := Do(w, Controller(EvRules, now));
            var op := Prepare(x, w.s.vms[x].version + 1, w.s.prepQueue[0]);
            && u.s.pool == w.s.pool && u.machines == w.machines
            && u.s.ops == w.s.ops + {op} && op in u.calls && u.calls[op] == Phase.Sent
  {
    PrepareFires(w.s, x, now);
    assert VmOk(ViewOf(w.s, x));
    PreparedOk(ViewOf(w.s, x), x, w.s.prepQueue[0], now);
    var op := Prepare(x, w.s.vms[x].version + 1, w.s.prepQueue[0]);
    assert op in w.s.ops ==> op in ViewOf(w.s, x).ops;
    assert IsTask(op);
  }

  /** It comes about in the ordinary course: while a ping is outstanding the next tick prepares the FREE VM, the
      call arrives, and then the answer to the ping. */
  lemma PingDuringPrepare(w: World, x: nat, ver: nat, t1: int, now: int)
    requires WorldInv(w) && w.s.prepQueue != [] && w.s.scheduled && MachineOf(w, x).boot == Up
    requires x in w.s.pool && InState(w.s, x, FREE) && x == w.s.pool[First(w.s.pool, y => InState(w.s, y, FREE))]
    requires RulePool(w.s.(scheduled := false), t1).Idle? && Ping(x, ver, FREE) in w.s.ops
    ensures var u := Do(w, Controller(EvRules, t1));
            var op := Prepare(x, w.s.vms[x].version + 1, w.s.prepQueue[0]);
            && x in u.s.pool && WF(u.s) && Ping(x, ver, FREE) in u.s.ops && Can(u, Receives(op))
            && InState(PingReply(u.s, x, ver, FREE, MachineOf(Do(u, Receives(op)), x).state, now), x, ERROR)
  {
    MoveSound(w, Controller(EvRules, t1));
    PrepareSent(w, x, t1);
    var op := Prepare(x, w.s.vms[x].version + 1, w.s.prepQueue[0]);
    BusyFalseAlarm(Do(w, Controller(EvRules, t1)), x, ver, op, now);
  }

  // ---------------------------------------------------------------- the payload of a session

  /** What each move of a VM does to it. */
  lemma VmMoves(w: World, x: nat, ok: bool, op: Op, result: Option<nat>)
    requires WF(w.s)
    ensures var m := MachineOf(w, x);
            MachineOf(Do(w, BootEnds(x, ok)), x)
            == Machine(if ok then Up else Broken, if ok then FREE_VM else ERROR_VM, m.session, m.checkedIn)
    ensures var m := MachineOf(w, op.vmid);
            var u := Do(w, Receives(op));
            MachineOf(u, op.vmid) == Machine(m.boot, BUSY, m.session, m.checkedIn) && u.calls == w.calls[op := Running]
    ensures var m := MachineOf(w, op.vmid);
            var u := Do(w, Ends(op, result));
            var st := if result.None? then ERROR_VM else if op.Prepare? then READY_VM else FREE_VM;
            && MachineOf(u, op.vmid)
               == Machine(m.boot, st, if op.Prepare? && result.Some? then result else m.session, m.checkedIn)
            && u.calls == w.calls[op := Answered(st)]
  {
  }

  /** The payload of the last prepare of x that succeeded. */
  function LastPayload(x: nat, moves: seq<WorldMove>): Option<nat> {
    if moves == [] then None
    else
      var last := moves[|moves| - 1];
      if last.Ends? && last.op.Prepare? && last.op.vmid == x && last.result.Some? then last.result
      else LastPayload(x, moves[..|moves| - 1])
  }

  /** The moves lead through the worlds of the run, from nothing. */
  ghost predicate PlayedBy(run: seq<World>, moves: seq<WorldMove>) {
    && |run| == |moves| + 1
    && run[0] == World(Init(run[0].s.cfg), map[], map[])
    && forall i: nat :: i < |moves| ==> PlayedAt(run, moves, i)
  }

  ghost predicate PlayedAt(run: seq<World>, moves: seq<WorldMove>, i: nat)
    requires i < |moves| && |run| == |moves| + 1
  {
    WF(run[i].s) && Can(run[i], moves[i]) && run[i + 1] == Do(run[i], moves[i])
  }

  /** No move but the end of a successful prepare of x touches the session of x. */
  lemma SessionStep(w: World, mv: WorldMove, x: nat)
    requires WF(w.s)
    ensures MachineOf(Do(w, mv), x).session
         == if mv.Ends? && mv.op.Prepare? && mv.op.vmid == x && mv.result.Some? then mv.result
            else MachineOf(w, x).session
  {
  }

  /** At every point of a run, the session a VM holds is the result of its last successful prepare, so that is the
      payload a cleanup starting now works on. */
  lemma {:induction false} SessionIsLast(run: seq<World>, moves: seq<WorldMove>, k: nat, x: nat)
    requires PlayedBy(run, moves) && k < |run|
    ensures MachineOf(run[k], x).session == LastPayload(x, moves[..k])
    decreases k
  {
    if k == 0 {
    } else {
      SessionIsLast(run, moves, k - 1, x);
      assert PlayedAt(run, moves, k - 1);
      SessionStep(run[k - 1], moves[k - 1], x);
      assert moves[..k][..k - 1] == moves[..k - 1];
    }
  }

  /** Such a run is a run of worlds, so a VM believed READY or OCCUPIED holds the payload of its last successful
      prepare. */
  lemma SessionOfBelief(run: seq<World>, moves: seq<WorldMove>, k: nat, x: nat)
    requires PlayedBy(run, moves) && k < |run| && x in run[k].s.pool
    requires InState(run[k].s, x, READY) || InState(run[k].s, x, OCCUPIED)
    ensures LastPayload(x, moves[..k]).Some? && MachineOf(run[k], x).session == LastPayload(x, moves[..k])
  {
    forall i, j | 0 <= i < |run| && j == i + 1 < |run| ensures Moved(run[i], run[j]) {
      assert PlayedAt(run, moves, i);
    }
    SessionIsLast(run, moves, k, x);
    BeliefsAreSound(run, k, x);
  }
}
