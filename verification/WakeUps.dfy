/** Lost wake-ups: which steps leave the rules unscheduled while one of them could fire. */
module WakeUps {
  import opened Collections
  import opened VerStates
  import opened Scheduler
  import opened Invariant
  import opened Frames
  import opened Steps
  import opened Runs
  import opened Quiescence
  import opened Termination

  /** The record of a pool VM in t gives the rules no more reason to act at time tau than its record in s:
      the same, only refreshed, or set to WAIT from a state no rule acts on. */
  predicate CalmerVm(v: Vm, w: Vm, tau: int) {
    || w == v
    || (w.refreshTime >= tau && w.state == v.state && w.changeTime == v.changeTime)
    || (w.refreshTime >= tau && w.state == WAIT && v.state in {ERROR, WAIT})
  }

  predicate CalmerHandle(h: HandleInfo, k: HandleInfo, tau: int) {
    k.vmid == h.vmid && (k == h || (k.expireTime.Some? && tau <= k.expireTime.value))
  }

  ghost predicate Calmer(s: State, t: State, tau: int) {
    && t.cfg == s.cfg && t.size == s.size && t.pool == s.pool
    && (forall x :: x in s.pool ==> x in s.vms && x in t.vms && CalmerVm(s.vms[x], t.vms[x], tau))
    && t.batches == s.batches && t.batchData == s.batchData && t.prepQueue == s.prepQueue
    && t.pendingLocks == s.pendingLocks && t.handles == s.handles && t.handleData.Keys == s.handleData.Keys
    && (forall h :: h in s.handleData ==> CalmerHandle(s.handleData[h], t.handleData[h], tau))
  }

  lemma CalmerPool(s: State, t: State, tau: int)
    requires Calmer(s, t, tau) && WF(s)
    ensures PoolSettled(s, tau) ==> PoolSettled(t, tau)
    ensures QueueSettled(s) ==> QueueSettled(t)
  {
    forall x | x in s.pool
      ensures InState(t, x, FREE) ==> InState(s, x, FREE) && t.vms[x].changeTime == s.vms[x].changeTime
      ensures InState(t, x, CREATING) <==> InState(s, x, CREATING)
      ensures InState(t, x, BOOTING) <==> InState(s, x, BOOTING)
      ensures OnTime(s.vms[x], s.cfg, tau) ==> OnTime(t.vms[x], t.cfg, tau)
    {
    }
    assert StartingVms(t) == StartingVms(s);
  }

  lemma CalmerOwners(s: State, t: State, tau: int)
    requires Calmer(s, t, tau) && WF(s)
    ensures BatchesSettled(s) ==> BatchesSettled(t)
    ensures HandlesSettled(s, tau) ==> HandlesSettled(t, tau)
  {
    forall x | x in s.pool
      ensures InState(t, x, ERROR) ==> InState(s, x, ERROR)
      ensures InState(t, x, READY) ==> InState(s, x, READY)
    {
    }
    assert forall h: nat, x: nat :: Held(t, h, x) <==> Held(s, h, x);
    assert forall b: nat, x: nat :: Listed(t, b, x) <==> Listed(s, b, x);
    assert forall b :: b in s.batchData ==> Ledger(t, b) == Ledger(s, b);
    assert forall h :: h in s.handleData && Overdue(t.handleData[h], tau) ==> Overdue(s.handleData[h], tau);
  }

  lemma ThrownReleaseCalmer(s: State, h: nat, now: int, tau: int)
    requires Inv(s) && tau <= now && ReleaseVM(s, h, now).Threw?
    ensures Calmer(s, ReleaseVM(s, h, now).next, tau)
  {
    InvWF(s);
    if h in s.handleData && s.handleData[h].vmid.Some? {
      var x := s.handleData[h].vmid.value;
      assert VmOk(ViewOf(s, x)) && h in ViewOf(s, x).handles;
    }
  }

  lemma {:induction false} ReleaseAllScheduled(s: State, hs: seq<nat>, now: int)
    requires s.scheduled
    ensures ReleaseAll(s, hs, now).next.scheduled
    decreases |hs|
  {
    if hs == [] {
    } else if ReleaseVM(s, hs[0], now).Done? {
      ReleaseAllScheduled(ReleaseVM(s, hs[0], now).next, hs[1..], now);
    }
  }

  lemma {:induction false} CancelAllScheduled(s: State, bs: seq<nat>)
    requires s.scheduled
    ensures CancelAll(s, bs).next.scheduled
    decreases |bs|
  {
    if bs == [] {
    } else if CancelBatch(s, bs[0]).Done? {
      CancelAllScheduled(CancelBatch(s, bs[0]).next, bs[1..]);
    }
  }

  lemma ShutdownWakes(s: State, now: int, tau: int)
    requires Inv(s) && tau <= now
    ensures var t := Shutdown(s, now).next; t.scheduled || Calmer(s, t, tau)
  {
    InvWF(s);
    if s.handles != [] {
      var r := ReleaseVM(s, s.handles[0], now);
      if r.Threw? {
        ThrownReleaseCalmer(s, s.handles[0], now, tau);
      } else {
        ReleaseAllScheduled(r.next, s.handles[1..], now);
      }
    }
    var r1 := ReleaseAll(s, s.handles, now);
    if r1.Done? && s.batches != [] {
      HeadIn(s.batches);
      if CancelBatch(r1.next, s.batches[0]).Done? {
        CancelAllScheduled(CancelBatch(r1.next, s.batches[0]).next, s.batches[1..]);
      }
    }
  }

  lemma PrepareDoneWakes(s: State, x: nat, ver: nat, b: nat, outcome: Outcome, now: int, tau: int)
    requires Inv(s) && Prepare(x, ver, b) in s.ops
    ensures var t := PrepareDone(s, x, ver, b, outcome, now).next; t.scheduled || Calmer(s, t, tau)
  {
    InvWF(s);
    assert VmOk(ViewOf(s, x)) && Prepare(x, ver, b) in ViewOf(s, x).ops;
  }

  lemma BootDoneWakes(s: State, x: nat, ok: bool, now: int, tau: int)
    requires Inv(s) && WF(s)
    ensures var t := BootDone(s, x, ok, now); t.scheduled || Calmer(s, t, tau)
  {
  }

  lemma PingReplyWakes(s: State, x: nat, ver: nat, seen: BeliefState, result: VmState, now: int, tau: int)
    requires Inv(s) && WF(s) && tau <= now
    ensures var t := PingReply(s, x, ver, seen, result, now); t.scheduled || Calmer(s, t, tau)
  {
  }

  lemma CallbackWakes(s: State, e: Event, now: int, tau: int)
    requires Inv(s) && WF(s) && Enabled(s, e) && e != EvRules && !IsRequest(e) && tau <= now
    ensures var t := Apply(s, e, now).next; t.scheduled || Calmer(s, t, tau)
  {
    match e {
      case EvBootDone(x, ok) => BootDoneWakes(s, x, ok, now, tau);
      case EvPrepareDone(x, ver, b, outcome) => PrepareDoneWakes(s, x, ver, b, outcome, now, tau);
      case EvPingReply(x, ver, seen, result) => PingReplyWakes(s, x, ver, seen, result, now, tau);
      case _ =>
    }
  }

  lemma LockWakes(s: State, b: nat, tau: int)
    requires WF(s)
    ensures var t := LockVM(s, b).next; t.scheduled || Calmer(s, t, tau)
  {
  }

  /** A request to renew an expiry time does not schedule the rules. It goes unnoticed exactly when the
      rules were not scheduled, the handle exists and its new deadline is past already. */
  lemma RenewNoticedExactly(s: State, h: nat, time: int, now: int, tau: int)
    requires Inv(s) && WF(s) && tau <= now && Quiescent(s, tau)
    ensures var t := RenewExpire(s, h, time, now);
            && WF(t)
            && (t.scheduled || Quiescent(t, tau) <==> s.scheduled || h !in s.handles || tau <= now + time)
  {
    var t := RenewExpire(s, h, time, now);
    StepInv(s, EvRenew(h, time), now);
    QuiescentExactly(s, tau);
    QuiescentExactly(t, tau);
    if h in s.handles && tau > now + time {
      assert Overdue(t.handleData[h], tau);
    } else {
      RenewCalmer(s, h, time, now, tau);
      CalmerPool(s, t, tau);
      CalmerOwners(s, t, tau);
    }
  }

  lemma RenewCalmer(s: State, h: nat, time: int, now: int, tau: int)
    requires WF(s) && (h !in s.handles || tau <= now + time)
    ensures Calmer(s, RenewExpire(s, h, time, now), tau)
  {
  }

  lemma RequestWakes(s: State, e: Event, now: int, tau: int)
    requires Inv(s) && WF(s) && IsRequest(e) && !e.EvRenew? && tau <= now
    ensures var t := Apply(s, e, now).next; t.scheduled || Calmer(s, t, tau)
  {
    match e {
      case EvLock(b) => LockWakes(s, b, tau);
      case EvRelease(h) =>
        if h in s.handles && ReleaseVM(s, h, now).Threw? {
          ThrownReleaseCalmer(s, h, now, tau);
        }
      case EvShutdown => ShutdownWakes(s, now, tau);
      case EvPrepareBatch(_) =>
      case EvCancel(_) =>
      case EvPoolSize(_, _, _) =>
    }
  }

  /** An event leaves the rules unscheduled while one of them could fire. */
  predicate Unnoticed(s: State, e: Event, now: int, tau: int) {
    e.EvRenew? && !s.scheduled && e.h in s.handles && now + e.time < tau
  }

  /** If no rule could fire at time tau, then after any later event either the rules are scheduled
      or still no rule could fire at tau, if and only if the event is not a renewal to a deadline before tau. */
  lemma NoLostWakeUp(s: State, e: Event, now: int, tau: int)
    requires Inv(s) && WF(s) && Enabled(s, e) && tau <= now
    requires Quiescent(s, tau)
    ensures var t := Apply(s, e, now).next;
            WF(t) && (t.scheduled || Quiescent(t, tau) <==> !Unnoticed(s, e, now, tau))
  {
    StepInv(s, e, now);
    if e.EvRenew? {
      RenewNoticedExactly(s, e.h, e.time, now, tau);
    } else if e.EvRules? {
      TickWakes(s, now, tau);
    } else {
      OthersWake(s, e, now, tau);
    }
  }

  lemma CalmerQuiescent(s: State, t: State, tau: int)
    requires Inv(s) && WF(s) && Inv(t) && WF(t) && Calmer(s, t, tau) && Quiescent(s, tau)
    ensures Quiescent(t, tau)
  {
    QuiescentExactly(s, tau);
    CalmerPool(s, t, tau);
    CalmerOwners(s, t, tau);
    QuiescentExactly(t, tau);
  }

  /** A tick that throws leaves no rule more to do at an earlier time than there was. */
  lemma TickWakes(s: State, now: int, tau: int)
    requires Inv(s) && WF(s) && tau <= now && Quiescent(s, tau)
    requires Inv(ExecuteRules(s, now).next) && WF(ExecuteRules(s, now).next)
    ensures var t := ExecuteRules(s, now).next; t.scheduled || Quiescent(t, tau)
  {
    var s0 := s.(scheduled := false);
    UnscheduledQuiescent(s, tau);
    if RunRules(s0, now).Failed? {
      FailedWakes(s0, now, tau);
    }
  }

  lemma UnscheduledQuiescent(s: State, tau: int)
    requires Inv(s) && WF(s) && Quiescent(s, tau)
    ensures var s0 := s.(scheduled := false); Inv(s0) && WF(s0) && Quiescent(s0, tau)
  {
    SameViews(s, s.(scheduled := false));
    CalmerQuiescent(s, s.(scheduled := false), tau);
  }

  lemma FailedWakes(s: State, now: int, tau: int)
    requires Inv(s) && WF(s) && tau <= now && Quiescent(s, tau) && RunRules(s, now).Failed?
    requires Inv(RunRules(s, now).next) && WF(RunRules(s, now).next)
    ensures Quiescent(RunRules(s, now).next, tau)
  {
    FailedIsRelease(s, now);
    ThrownReleaseCalmer(s, s.handles[First(s.handles, h => HandleExpired(s, h, now))], now, tau);
    CalmerQuiescent(s, RunRules(s, now).next, tau);
  }

  /** Only the release of the first overdue handle can throw. */
  lemma FailedIsRelease(s: State, now: int)
    requires Inv(s) && WF(s) && RunRules(s, now).Failed?
    ensures var i := First(s.handles, h => HandleExpired(s, h, now));
            i < |s.handles| && RunRules(s, now) == RuleHandleExpire(s, now)
            && ReleaseVM(s, s.handles[i], now) == Threw(RunRules(s, now).next)
  {
    var rule := WhichRule(s, now);
    AfterReplace(s, now, rule);
    RuleInv(s, now, rule);
  }

  /** After a tick the rules are scheduled, or none can fire at its time, if and only if it did not throw. */
  lemma TickRestsExactly(s: State, now: int)
    requires Inv(s) && WF(s)
    ensures var r := ExecuteRules(s, now);
            WF(r.next) && (r.next.scheduled || Quiescent(r.next, now) <==> r.Done?)
  {
    var s0 := s.(scheduled := false);
    SameViews(s, s0);
    ExecuteRulesInv(s, now);
    InvWF(ExecuteRules(s, now).next);
    if RunRules(s0, now).Failed? {
      FailedIsRelease(s0, now);
      ThrownStillOverdue(s0, s0.handles[First(s0.handles, h => HandleExpired(s0, h, now))], now);
    }
  }

  lemma ThrownStillOverdue(s: State, h: nat, now: int)
    requires Inv(s) && h in s.handles && HandleExpired(s, h, now) && ReleaseVM(s, h, now).Threw?
    requires Inv(ReleaseVM(s, h, now).next) && WF(ReleaseVM(s, h, now).next)
    ensures !Quiescent(ReleaseVM(s, h, now).next, now)
  {
    var t := ReleaseVM(s, h, now).next;
    QuiescentExactly(t, now);
    assert h in t.handleData && Overdue(t.handleData[h], now);
  }

  lemma OthersWake(s: State, e: Event, now: int, tau: int)
    requires Inv(s) && WF(s) && Enabled(s, e) && e != EvRules && !e.EvRenew? && tau <= now && Quiescent(s, tau)
    requires Inv(Apply(s, e, now).next) && WF(Apply(s, e, now).next)
    ensures var t := Apply(s, e, now).next; t.scheduled || Quiescent(t, tau)
  {
    var t := Apply(s, e, now).next;
    if IsRequest(e) {
      RequestWakes(s, e, now, tau);
    } else {
      CallbackWakes(s, e, now, tau);
    }
    if Calmer(s, t, tau) {
      CalmerQuiescent(s, t, tau);
    }
  }

  // ---------------------------------------------------------------- over a run

  /** The rules are scheduled, or none of them could fire at time tau. */
  ghost predicate Alert(s: State, tau: int)
    requires WF(s)
  {
    s.scheduled || Quiescent(s, tau)
  }

  /** The two ways out: a renewal nobody notices, and a tick that throws. */
  predicate Slips(s: State, e: Event, now: int, tau: int)
    requires WF(s)
  {
    Unnoticed(s, e, now, tau) || (e.EvRules? && ExecuteRules(s, now).Threw?)
  }

  /** The time of the last tick. */
  function Ticked(e: Event, now: int, tau: int): int {
    if e.EvRules? then now else tau
  }

  lemma StaysScheduled(s: State, e: Event, now: int)
    requires Inv(s) && WF(s) && Enabled(s, e) && !e.EvRules? && s.scheduled
    ensures Apply(s, e, now).next.scheduled
  {
    if e.EvShutdown? {
      ShutdownStaysScheduled(s, now);
    } else if e.EvRelease? {
      ReleaseAllScheduled(s, [e.h], now);
    } else if e.EvBootCheckFailed? {
      BootCheckFrame(s, e.x, now);
    }
  }

  lemma ShutdownStaysScheduled(s: State, now: int)
    requires s.scheduled
    ensures Shutdown(s, now).next.scheduled
  {
    ReleaseAllScheduled(s, s.handles, now);
    var r1 := ReleaseAll(s, s.handles, now);
    if r1.Done? {
      CancelAllScheduled(r1.next, s.batches);
    }
  }

  /** One step: the rules stay alert, as of the last tick, exactly unless they slip. */
  lemma AlertExactly(s: State, e: Event, now: int, tau: int)
    requires Inv(s) && WF(s) && Enabled(s, e) && tau <= now && Alert(s, tau)
    ensures var t := Apply(s, e, now).next;
            WF(t) && (Alert(t, Ticked(e, now, tau)) <==> !Slips(s, e, now, tau))
  {
    StepInv(s, e, now);
    if e.EvRules? {
      TickRestsExactly(s, now);
    } else if s.scheduled {
      StaysScheduled(s, e, now);
    } else {
      NoLostWakeUp(s, e, now, tau);
    }
  }

  /** A state of a run, the time of its last tick and the time it was reached. */
  datatype Moment = Moment(s: State, tick: int, clock: int)

  /** The next moment: an event no earlier than the last one, at which nothing slips. */
  ghost predicate Onward(m: Moment, n: Moment) {
    exists e: Event :: OnwardBy(m, e, n)
  }

  ghost predicate OnwardBy(m: Moment, e: Event, n: Moment) {
    && m.clock <= n.clock && Next(m.s, e, n.clock, n.s) && !Slips(m.s, e, n.clock, m.tick)
    && n.tick == Ticked(e, n.clock, m.tick)
  }

  ghost predicate AlertAt(m: Moment) {
    Inv(m.s) && WF(m.s) && m.tick <= m.clock && Alert(m.s, m.tick)
  }

  lemma OnwardAlert(m: Moment, n: Moment)
    requires AlertAt(m) && Onward(m, n)
    ensures AlertAt(n)
  {
    var e :| OnwardBy(m, e, n);
    StepInv(m.s, e, n.clock);
    AlertExactly(m.s, e, n.clock, m.tick);
  }

  /** Over any run in which nothing slips the rules are always scheduled, or none of them could have fired at
      the last tick: between ticks only the passing of time can enable a rule. */
  lemma {:induction false} AlwaysAlert(run: seq<Moment>, k: nat)
    requires k < |run| && AlertAt(run[0])
    requires forall i, j :: 0 <= i < |run| && j == i + 1 < |run| ==> Onward(run[i], run[j])
    ensures AlertAt(run[k])
    decreases k
  {
    if k == 0 {
    } else {
      AlwaysAlert(run, k - 1);
      assert Onward(run[k - 1], run[k]);
      OnwardAlert(run[k - 1], run[k]);
    }
  }

  /** A new process starts alert. */
  lemma AlertFromStart(cfg: Config, now: int)
    ensures AlertAt(Moment(Init(cfg), now, now))
  {
    InitInv(cfg);
    InvWF(Init(cfg));
    QuiescentExactly(Init(cfg), now);
  }

  /** The timer makes any process alert again, also a restarted one. */
  lemma AlertAgain(s: State, now: int)
    requires Inv(s) && WF(s)
    ensures AlertAt(Moment(Apply(s, EvTick, now).next, now, now))
  {
    StepInv(s, EvTick, now);
  }

  // ---------------------------------------------------------------- a wake-up that is lost

  /** The requests prepare-batch/0 and lock/1, from nothing. */
  function Asked(cfg: Config): State {
    LockVM(PrepareBatch(Init(cfg), 0), 1).next
  }

  /** One lock waiting on an empty batch, its preparation queued, in a pool that may hold nothing. */
  function Waiting(cfg: Config): State {
    Asked(cfg).(prepQueue := [1], scheduled := false)
  }

  lemma AskedInv(cfg: Config)
    ensures Inv(Asked(cfg)) && WF(Asked(cfg))
  {
    InitInv(cfg);
    PrepareBatchInv(Init(cfg), 0);
    LockInv(PrepareBatch(Init(cfg), 0), 1);
    InvWF(Asked(cfg));
  }

  lemma WaitingInv(cfg: Config)
    ensures Inv(Waiting(cfg)) && WF(Waiting(cfg))
  {
    AskedInv(cfg);
    SameViews(Asked(cfg), Waiting(cfg));
    InvWF(Waiting(cfg));
  }

  lemma WaitingSettled(cfg: Config, now: int)
    requires WF(Waiting(cfg))
    ensures Settled(Waiting(cfg), now)
  {
    var s := Waiting(cfg);
    assert LockBatches(s.pendingLocks) == [1];
    assert s.batchData == map[1 := Batch(0, [], false)];
  }

  lemma WaitingQuiescent(cfg: Config, now: int)
    ensures var s := Waiting(cfg); Inv(s) && WF(s) && Quiescent(s, now) && s.handles == [1]
  {
    WaitingInv(cfg);
    WaitingSettled(cfg, now);
    QuiescentExactly(Waiting(cfg), now);
  }

  lemma AskedShape(cfg: Config)
    ensures var s := Asked(cfg).(scheduled := false);
            && WF(s) && s.batches == [1] && s.prepQueue == [] && s.pool == []
            && Ledger(s, 1) == 1 && s.batchData[1].vms == []
            && s.handles == [1] && s.handleData[1].vmid.None? && s.pendingLocks == [PendingLock(1, 1)]
  {
    AskedInv(cfg);
    AskedFields(cfg);
    assert LockBatches([PendingLock(1, 1)]) == [1];
  }

  lemma AskedFields(cfg: Config)
    ensures var s := Asked(cfg);
            && s.batches == [1] && s.batchData == map[1 := Batch(0, [], false)] && s.prepQueue == [] && s.pool == []
            && s.handles == [1] && s.handleData == map[1 := HandleInfo(None, None)]
            && s.pendingLocks == [PendingLock(1, 1)] && s.size == PoolSize(0, 0, 0)
  {
  }

  lemma AskedIdle(cfg: Config, now: int, rule: Rule)
    requires Rank(rule) < Rank(ReleaseRule) && WF(Asked(cfg).(scheduled := false))
    ensures Try(Asked(cfg).(scheduled := false), now, rule).Idle?
  {
    var s := Asked(cfg).(scheduled := false);
    AskedFields(cfg);
    match rule {
      case PoolRule => EmptyPoolIdle(s, now);
      case PrepareRule =>
      case ReplaceRule =>
      case BootRule =>
      case AssignRule =>
      case DropHandleRule =>
    }
  }

  lemma EmptyPoolIdle(s: State, now: int)
    requires WF(s) && s.pool == [] && s.size.min == 0
    ensures RulePool(s, now).Idle?
  {
  }

  lemma AskedReleases(cfg: Config, now: int)
    ensures var s := Asked(cfg).(scheduled := false);
            WF(s) && RuleRelease(s, now) == Fired(Waiting(cfg))
  {
    var s := Asked(cfg).(scheduled := false);
    AskedShape(cfg);
    assert Unbalanced(s, s.batches[0]);
  }

  /** Only the release rule acts on the two requests: it queues the preparation the lock needs. */
  lemma AskedFires(cfg: Config, now: int)
    ensures var s := Asked(cfg).(scheduled := false);
            WF(s) && RunRules(s, now) == Fired(Waiting(cfg))
  {
    var s := Asked(cfg).(scheduled := false);
    AskedShape(cfg);
    AskedReleases(cfg, now);
    AllIdle(s, now);
    assert !Try(s, now, ReleaseRule).Idle?;
    var rule := WhichRule(s, now);
    if Rank(rule) < Rank(ReleaseRule) {
      AskedIdle(cfg, now, rule);
    } else {
      AfterReplace(s, now, rule);
      assert Unbalanced(s, s.batches[0]);
    }
  }

  /** So the waiting state is where the two requests come to rest. */
  lemma WaitingReached(cfg: Config, now: int)
    ensures Inv(Asked(cfg)) && WF(Asked(cfg)) && Settle(Asked(cfg), now) == Done(Waiting(cfg))
  {
    AskedInv(cfg);
    AskedFires(cfg, now);
    SettleStep(Asked(cfg), now);
    var s := Waiting(cfg).(scheduled := true);
    WaitingInv(cfg);
    WaitingQuiescent(cfg, now);
    assert s.(scheduled := false) == Waiting(cfg);
    SettleStep(s, now);
  }

  /** renew-expire/1/-1 makes the handle overdue, and nothing is scheduled to see it. */
  lemma MissedExpiry(cfg: Config, now: int)
    ensures var s := Waiting(cfg);
            var t := RenewExpire(s, 1, -1, now);
            && Inv(Asked(cfg)) && WF(Asked(cfg)) && Settle(Asked(cfg), now) == Done(s)
            && WF(s) && Quiescent(s, now) && !s.scheduled
            && WF(t) && !t.scheduled && !Quiescent(t, now)
  {
    WaitingReached(cfg, now);
    WaitingQuiescent(cfg, now);
    RenewNoticedExactly(Waiting(cfg), 1, -1, now, now);
  }
}
