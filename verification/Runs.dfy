/** Runs: any interleaving of requests, rule ticks, completions and restarts. */
module Runs {
  import opened VerStates
  import opened Scheduler
  import opened Invariant
  import opened Frames
  import opened Steps
  import opened Callbacks

  datatype Event =
    | EvPrepareBatch(size: nat)
    | EvLock(b: nat)
    | EvRelease(h: nat)
    | EvCancel(b: nat)
    | EvPoolSize(min: int, max: int, linger: int)
    | EvRenew(h: nat, time: int)
    | EvShutdown
    | EvTick                 // setInterval(checkRules)
    | EvRules                // executeRules
    | EvPingVMs
    | EvBootDone(x: nat, ok: bool)
    | EvCheckin(x: nat)
    | EvCheckinDone(x: nat, ver: nat, hasServer: bool)
    | EvPrepareDone(x: nat, ver: nat, b: nat, outcome: Outcome)
    | EvCleanupDone(x: nat, ver: nat, outcome: Outcome)
    | EvPingReply(x: nat, ver: nat, seen: BeliefState, result: VmState)
    | EvBootCheckFailed(x: nat)
    | EvKillDone(x: nat)

  /** A completion needs an outstanding call. A VM checks in only while it is being created or booted
      (vm-interface.js checks in once, at the end of the boot). */
  predicate Enabled(s: State, e: Event) {
    match e
    case EvBootDone(x, _) => Boot(x) in s.ops
    case EvCheckin(x) => x in s.pool ==> Starting(s, x)
    case EvCheckinDone(x, ver, _) => Checkin(x, ver) in s.ops
    case EvPrepareDone(x, ver, b, _) => Prepare(x, ver, b) in s.ops
    case EvCleanupDone(x, ver, _) => Cleanup(x, ver) in s.ops
    case EvPingReply(x, ver, seen, _) => Ping(x, ver, seen) in s.ops
    case EvBootCheckFailed(x) => BootCheck(x) in s.ops
    case EvKillDone(x) => Kill(x) in s.ops
    case EvRules => s.scheduled
    case _ => true
  }

  function Apply(s: State, e: Event, now: int): Effect
    requires WF(s)
  {
    match e
    case EvPrepareBatch(size) => Done(PrepareBatch(s, size))
    case EvLock(b) => LockVM(s, b)
    case EvRelease(h) => if h in s.handles then ReleaseVM(s, h, now) else Done(s)
    case EvCancel(b) => if b in s.batches then CancelBatch(s, b) else Done(s)
    case EvPoolSize(min, max, linger) => Done(RequestPoolSize(s, min, max, linger))
    case EvRenew(h, time) => Done(RenewExpire(s, h, time, now))
    case EvShutdown => Shutdown(s, now)
    case EvTick => Done(s.(scheduled := true))
    case EvRules => ExecuteRules(s, now)
    case EvPingVMs => Done(PingVMs(s))
    case EvBootDone(x, ok) => Done(BootDone(s, x, ok, now))
    case EvCheckin(x) => Done(CheckinReceived(s, x))
    case EvCheckinDone(x, ver, hasServer) => Done(CheckinDone(s, x, ver, hasServer, now))
    case EvPrepareDone(x, ver, b, outcome) => PrepareDone(s, x, ver, b, outcome, now)
    case EvCleanupDone(x, ver, outcome) => Done(CleanupDone(s, x, ver, outcome, now))
    case EvPingReply(x, ver, seen, result) => Done(PingReply(s, x, ver, seen, result, now))
    case EvBootCheckFailed(x) => BootCheckFailed(s, x, now)
    case EvKillDone(x) => Done(KillDone(s, x))
  }

  predicate IsRequest(e: Event) {
    e.EvPrepareBatch? || e.EvLock? || e.EvRelease? || e.EvCancel? || e.EvPoolSize? || e.EvRenew? || e.EvShutdown?
  }

  /** A completion, a tick or a round of pings leaves batches, locks, handles, queue and sizes alone,
      and never grows the pool. */
  lemma CallbackFrame(s: State, e: Event, now: int)
    requires WF(s) && !IsRequest(e) && e != EvRules
    ensures var t := Apply(s, e, now).next;
            && t == s.(pool := t.pool, vms := t.vms, rpc := t.rpc, ops := t.ops, scheduled := t.scheduled)
            && |t.pool| <= |s.pool|
  {
    match e {
      case EvPrepareDone(x, ver, b, outcome) => PrepareDoneFrame(s, x, ver, b, outcome, now);
      case EvBootDone(x, ok) => BootDoneFrame(s, x, ok, now);
      case EvBootCheckFailed(x) => BootCheckFrame(s, x, now);
      case EvCleanupDone(x, ver, outcome) => CleanupDoneFrame(s, x, ver, outcome, now);
      case EvPingReply(x, ver, seen, result) => PingReplyFrame(s, x, ver, seen, result, now);
      case EvCheckinDone(x, ver, hasServer) => CheckinDoneFrame(s, x, ver, hasServer, now);
      case _ =>
    }
  }

  lemma {:induction false} ReleaseAllInv(s: State, hs: seq<nat>, now: int)
    requires Inv(s)
    ensures Inv(ReleaseAll(s, hs, now).next)
    decreases |hs|
  {
    if hs == [] {
    } else {
      ReleaseInv(s, hs[0], now);
      var r := ReleaseVM(s, hs[0], now);
      if r.Done? {
        ReleaseAllInv(r.next, hs[1..], now);
      }
    }
  }

  lemma {:induction false} CancelAllInv(s: State, bs: seq<nat>)
    requires Inv(s)
    ensures Inv(CancelAll(s, bs).next)
    decreases |bs|
  {
    if bs == [] {
    } else {
      CancelInv(s, bs[0]);
      var r := CancelBatch(s, bs[0]);
      if r.Done? {
        CancelAllInv(r.next, bs[1..]);
      }
    }
  }

  lemma ShutdownInv(s: State, now: int)
    requires Inv(s)
    ensures Inv(Shutdown(s, now).next)
  {
    ReleaseAllInv(s, s.handles, now);
    var r1 := ReleaseAll(s, s.handles, now);
    if r1.Done? {
      CancelAllInv(r1.next, s.batches);
      var r2 := CancelAll(r1.next, s.batches);
      if r2.Done? {
        SetPoolSizeInv(r2.next, 0, 0, 0);
      }
    }
  }

  lemma RequestInv(s: State, e: Event, now: int)
    requires Inv(s) && WF(s) && Enabled(s, e)
    requires IsRequest(e)
    ensures Inv(Apply(s, e, now).next)
  {
    match e
    case EvPrepareBatch(size) => PrepareBatchInv(s, size);
    case EvLock(b) => LockInv(s, b);
    case EvRelease(h) => ReleaseInv(s, h, now);
    case EvCancel(b) => CancelInv(s, b);
    case EvPoolSize(min, max, linger) =>
      if !(min > max || min < 0 || max < 0) {
        SetPoolSizeInv(s, min, if max > s.cfg.maxAllowed then s.cfg.maxAllowed else max, linger);
      }
    case EvRenew(h, time) => RenewInv(s, h, time, now);
    case EvShutdown => ShutdownInv(s, now);
  }

  /** The invariant is inductive: every enabled event keeps it, also one that ends in an exception. */
  lemma StepInv(s: State, e: Event, now: int)
    requires Inv(s) && WF(s) && Enabled(s, e)
    ensures Inv(Apply(s, e, now).next) && WF(Apply(s, e, now).next)
  {
    match e {
      case EvTick => SameViews(s, s.(scheduled := true));
      case EvRules => ExecuteRulesInv(s, now);
      case EvPingVMs => PingVMsInv(s);
      case EvBootDone(x, ok) => BootDoneInv(s, x, ok, now);
      case EvCheckin(x) => CheckinReceivedInv(s, x);
      case EvCheckinDone(x, ver, hasServer) => CheckinDoneInv(s, x, ver, hasServer, now);
      case EvPrepareDone(x, ver, b, outcome) => PrepareDoneInv(s, x, ver, b, outcome, now);
      case EvCleanupDone(x, ver, outcome) => CleanupDoneInv(s, x, ver, outcome, now);
      case EvPingReply(x, ver, seen, result) => PingReplyInv(s, x, ver, seen, result, now);
      case EvBootCheckFailed(x) => BootCheckFailedInv(s, x, now);
      case EvKillDone(x) => KillDoneInv(s, x);
      case _ => RequestInv(s, e, now);
    }
    InvWF(Apply(s, e, now).next);
  }

  /** What happens next in a run: an event, or a restart from a checkpoint of some earlier state. */
  datatype Move = Happens(e: Event) | Restart(saved: nat)

  ghost predicate Next(s: State, e: Event, now: int, t: State) {
    WF(s) && Enabled(s, e) && t == Apply(s, e, now).next
  }

  ghost predicate Moves(run: seq<State>, m: Move, now: int, t: State) {
    match m
    case Happens(e) => run != [] && Next(run[|run| - 1], e, now, t)
    case Restart(i) => i < |run| && WF(run[i]) && t == Load(run[i], now)
  }

  /** A history: it starts from nothing, and each state follows from the ones before it. */
  ghost predicate IsRun(run: seq<State>) {
    && run != []
    && run[0] == Init(run[0].cfg)
    && forall i :: 0 < i < |run| ==> Follows(run, i)
  }

  ghost predicate Follows(run: seq<State>, i: nat)
    requires 0 < i < |run|
  {
    exists m, now :: Moves(run[..i], m, now, run[i])
  }

  lemma MoveInv(run: seq<State>, m: Move, now: int, t: State)
    requires forall i :: 0 <= i < |run| ==> Inv(run[i])
    requires Moves(run, m, now, t)
    ensures Inv(t)
  {
    match m {
      case Happens(e) => StepInv(run[|run| - 1], e, now);
      case Restart(j) => LoadInv(run[j], now);
    }
  }

  /** The invariant holds in every state of every history. */
  lemma {:induction false} AlwaysInv(run: seq<State>, i: nat)
    requires IsRun(run) && i < |run|
    ensures Inv(run[i])
    decreases i
  {
    if i == 0 {
      InitInv(run[0].cfg);
    } else {
      assert Follows(run, i);
      var m, now :| Moves(run[..i], m, now, run[i]);
      forall j | 0 <= j < i ensures Inv(run[..i][j]) {
        AlwaysInv(run, j);
      }
      MoveInv(run[..i], m, now, run[i]);
    }
  }
}
