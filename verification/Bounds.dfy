/** How large and how small the pool gets. */
module Bounds {
  import opened Collections
  import opened VerStates
  import opened Scheduler
  import opened Invariant
  import opened Steps
  import opened Callbacks
  import opened Runs
  import opened Frames
  import opened Fifo

  function Larger(a: nat, b: nat): nat {
    if a > b then a else b
  }

  function Cap(size: PoolSize): nat {
    Larger(size.min, size.max)
  }

  /** The pool grows only up to its cap, and the configured size stays. */
  ghost predicate Bounded(s: State, t: State) {
    t.size == s.size && |t.pool| <= Larger(|s.pool|, Cap(s.size))
  }

  lemma RuleBounded(s: State, now: int, rule: Rule)
    requires WF(s) && !Try(s, now, rule).Idle?
    ensures Bounded(s, Try(s, now, rule).next)
  {
    match rule {
      case PoolRule => PoolFrame(s, now);
      case TimeoutRule => TimeoutFrame(s, now);
      case ReleaseRule => ReleaseRuleFrame(s, now);
      case _ =>
    }
  }

  lemma ExecuteBounded(s: State, now: int)
    requires WF(s)
    ensures Bounded(s, ExecuteRules(s, now).next)
  {
    var s0 := s.(scheduled := false);
    if !RunRules(s0, now).Idle? {
      var rule := WhichRule(s0, now);
      RuleBounded(s0, now, rule);
    }
  }

  lemma StepBounded(s: State, e: Event, now: int)
    requires WF(s) && !e.EvPoolSize? && !e.EvShutdown?
    ensures Bounded(s, Apply(s, e, now).next)
  {
    if e.EvRules? {
      ExecuteBounded(s, now);
    } else if !IsRequest(e) {
      CallbackFrame(s, e, now);
    } else {
      RequestKeepsPool(s, e, now);
    }
  }

  lemma RequestKeepsPool(s: State, e: Event, now: int)
    requires WF(s) && IsRequest(e) && !e.EvPoolSize? && !e.EvShutdown?
    ensures var t := Apply(s, e, now).next; t.pool == s.pool && t.size == s.size
  {
  }

  /** A stretch in which the pool size is not set again. */
  ghost predicate SizeKept(run: seq<State>) {
    && run != [] && Inv(run[0]) && WF(run[0])
    && forall i :: 0 < i < |run| ==> SizeKeptAt(run, i)
  }

  ghost predicate SizeKeptAt(run: seq<State>, i: nat)
    requires 0 < i < |run|
  {
    RelatedQuietly(run[i - 1], run[i])
  }

  ghost predicate RelatedQuietly(s: State, t: State) {
    exists e, now :: Next(s, e, now, t) && !e.EvPoolSize? && !e.EvShutdown?
  }

  lemma QuietAt(run: seq<State>, k: nat)
    requires SizeKept(run) && 0 < k < |run|
    ensures RelatedQuietly(run[k - 1], run[k])
  {
    assert SizeKeptAt(run, k);
  }

  lemma BoundedNext(s: State, t: State, u: State)
    requires WF(t) && Bounded(s, t) && RelatedQuietly(t, u)
    ensures Bounded(s, u)
  {
    var e, now :| Next(t, e, now, u) && !e.EvPoolSize? && !e.EvShutdown?;
    StepBounded(t, e, now);
  }

  lemma QuietIsStretch(run: seq<State>)
    requires SizeKept(run)
    ensures IsStretch(run)
  {
    forall i | 0 < i < |run| ensures StepsAt(run, i) {
      QuietAt(run, i);
    }
  }

  lemma QuietBounded(run: seq<State>, k: nat)
    requires SizeKept(run) && 0 < k < |run| && Bounded(run[0], run[k - 1])
    ensures Bounded(run[0], run[k])
  {
    QuietIsStretch(run);
    StretchInOrder(run, k - 1);
    QuietAt(run, k);
    BoundedNext(run[0], run[k - 1], run[k]);
  }

  /** Between two settings of the pool size, the pool never exceeds the larger of the cap
      and its length when the size was set. */
  lemma {:induction false} PoolNeverExceeds(run: seq<State>, k: nat)
    requires SizeKept(run) && k < |run|
    ensures Inv(run[k]) && WF(run[k]) && Bounded(run[0], run[k])
    decreases k
  {
    QuietIsStretch(run);
    StretchInOrder(run, k);
    if k == 0 {
    } else {
      PoolNeverExceeds(run, k - 1);
      QuietBounded(run, k);
    }
  }

  /** The pool rule shuts a VM down; it takes the pool below its minimum exactly when the pool was at it,
      and then the maximum is set below the minimum. */
  lemma ShutDownKeepsMinimumExactly(s: State, now: int)
    requires Inv(s) && WF(s) && |s.pool| >= s.size.min && RulePool(s, now).Fired?
    ensures var t := RulePool(s, now).next;
            && |t.pool| == |s.pool| - 1
            && (|t.pool| < s.size.min <==> |s.pool| == s.size.min)
            && (|t.pool| < s.size.min ==> s.size.max < s.size.min)
  {
    WithoutDistinct(s.pool, Victim(s, now).value);
  }

  /** With min <= max the pool rule never shuts a VM down that the minimum needs. */
  lemma MinimumKept(s: State, now: int)
    requires Inv(s) && WF(s) && s.size.min <= s.size.max && s.size.min <= |s.pool|
    ensures RulePool(s, now).Fired? ==> s.size.min <= |RulePool(s, now).next.pool|
  {
    if RulePool(s, now).Fired? {
      ShutDownKeepsMinimumExactly(s, now);
    }
  }

  /** An accepted request leaves min <= max exactly when its minimum is within the allowed size,
      because only the maximum is clamped. */
  lemma RequestOrderedExactly(s: State, min: int, max: int, linger: int)
    requires 0 <= min <= max
    ensures var t := RequestPoolSize(s, min, max, linger);
            t.size.min == min && (t.size.min <= t.size.max <==> min <= s.cfg.maxAllowed)
  {
  }

  /** A request for 2 to 2 VMs where 1 is allowed: the two VMs it must keep are shut down again
      while they boot, and the pool is back below its minimum. */
  lemma ClampedBelowMinimum(cfg: Config, now: int)
    requires cfg.maxAllowed == 1
    ensures var s := Booted(cfg, now);
            && Inv(s) && WF(s) && |s.pool| == s.size.min && RulePool(s, now).Fired?
            && |RulePool(s, now).next.pool| < s.size.min
  {
    var s := Booted(cfg, now);
    BootedInv(cfg, now);
    assert s.pool == [1, 2] && s.vms[1].state == BOOTING && s.vms[2].state == BOOTING;
    assert InState(s, s.pool[0], BOOTING);
    assert s.pool[0] in s.pool;
    assert Victim(s, now).Some?;
  }

  lemma BootedInv(cfg: Config, now: int)
    ensures Inv(Booted(cfg, now)) && WF(Booted(cfg, now))
  {
    var s0 := RequestPoolSize(Init(cfg), 2, 2, 0);
    var s1 := BootNewVM(s0, now);
    var s2 := BootNewVM(s1, now);
    var s3 := BootDone(s2, 1, true, now);
    InitInv(cfg);
    InvWF(Init(cfg));
    RequestInv(Init(cfg), EvPoolSize(2, 2, 0), now);
    BootInv(s0, now);
    BootInv(s1, now);
    InvWF(s2);
    BootDoneInv(s2, 1, true, now);
    InvWF(s3);
    BootDoneInv(s3, 2, true, now);
    InvWF(Booted(cfg, now));
  }

  /** From nothing: the request, two boots, and both boots reported by the cloud. */
  function Booted(cfg: Config, now: int): State {
    var s0 := RequestPoolSize(Init(cfg), 2, 2, 0);
    var s2 := BootNewVM(BootNewVM(s0, now), now);
    BootDone(BootDone(s2, 1, true, now), 2, true, now)
  }
}
