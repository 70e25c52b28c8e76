/** The batch ledger: what each operation does to
    (size + pending locks) - (VMs + queued preparations) of every batch. */
module Ledgers {
  import opened Collections
  import opened VerStates
  import opened Scheduler
  import opened Invariant
  import opened Frames
  import opened Steps
  import opened Runs

  /** Neither batches, locks nor the preparation queue differ. */
  predicate SameBatches(s: State, t: State) {
    t.batchData == s.batchData && t.pendingLocks == s.pendingLocks && t.prepQueue == s.prepQueue
  }

  lemma CountRemove(q: seq<nat>, i: nat, b: nat)
    requires i < |q|
    ensures multiset(RemoveAt(q, i))[b] == multiset(q)[b] - (if q[i] == b then 1 else 0)
  {
    assert q == q[..i] + [q[i]] + q[i + 1..];
  }

  lemma LocksRemove(locks: seq<PendingLock>, i: nat, b: nat)
    requires i < |locks|
    ensures LockCount(RemoveAt(locks, i), b) == LockCount(locks, b) - (if locks[i].batchId == b then 1 else 0)
  {
    assert LockBatches(RemoveAt(locks, i)) == RemoveAt(LockBatches(locks), i);
    CountRemove(LockBatches(locks), i, b);
  }

  lemma PrepareKeeps(s: State, x: nat, now: int, b: nat)
    requires WF(s) && s.prepQueue != [] && x in s.vms && x in s.rpc && b in s.batchData
    ensures Ledger(PrepareNext(s, x, now), b) == Ledger(s, b)
  {
    CountRemove(s.prepQueue, 0, b);
    assert RemoveAt(s.prepQueue, 0) == s.prepQueue[1..];
  }

  lemma ReplaceKeeps(s: State, b: nat)
    requires WF(s) && RuleReplace(s).Fired? && b in s.batchData
    ensures Ledger(RuleReplace(s).next, b) == Ledger(s, b)
  {
  }

  lemma AssignKeeps(s: State, now: int, b: nat)
    requires WF(s) && RuleAssign(s, now).Fired? && b in s.batchData
    ensures Ledger(RuleAssign(s, now).next, b) == Ledger(s, b)
  {
    LocksRemove(s.pendingLocks, First(s.pendingLocks, (p: PendingLock) => HasLockable(s, p.batchId)), b);
  }

  /** Locking takes from the batch's size while there is any, so only a lock beyond it raises the debt. */
  lemma LockMoves(s: State, k: nat, b: nat)
    requires WF(s) && b in s.batchData
    ensures Ledger(LockVM(s, k).next, b)
            == Ledger(s, b) + if k == b && s.batchData[b].size == 0 then 1 else 0
  {
    if k in s.batchData {
      assert LockBatches(s.pendingLocks + [PendingLock(k, s.nextHandle)]) == LockBatches(s.pendingLocks) + [k];
    }
  }

  /** Handle h waits for a VM of batch b. */
  predicate WaitsFor(s: State, h: nat, b: nat) {
    exists p :: p in s.pendingLocks && p.handle == h && p.batchId == b
  }

  lemma ReleaseMoves(s: State, h: nat, now: int, b: nat)
    requires HandlesOk(s.handles, s.handleData, s.nextHandle, s.pendingLocks) && b in s.batchData
    ensures b in ReleaseVM(s, h, now).next.batchData
    ensures Ledger(ReleaseVM(s, h, now).next, b) == Ledger(s, b) - if WaitsFor(s, h, b) then 1 else 0
  {
    if h in s.handleData {
      if s.handleData[h].vmid.Some? {
        CleanupFrame(s, s.handleData[h].vmid.value, now);
      } else {
        ReleaseWaitingMoves(s, h, now, b);
      }
    }
  }

  lemma ReleaseWaitingMoves(s: State, h: nat, now: int, b: nat)
    requires HandlesOk(s.handles, s.handleData, s.nextHandle, s.pendingLocks) && b in s.batchData
    requires h in s.handleData && s.handleData[h].vmid.None?
    ensures b in ReleaseVM(s, h, now).next.batchData
    ensures Ledger(ReleaseVM(s, h, now).next, b) == Ledger(s, b) - if WaitsFor(s, h, b) then 1 else 0
  {
    var i := ReleaseWaitingIs(s, h, now);
    LocksRemove(s.pendingLocks, i, b);
    assert s.pendingLocks[i] in s.pendingLocks;
  }

  lemma CancelMoves(s: State, k: nat, b: nat)
    requires b in s.batchData
    ensures Ledger(CancelBatch(s, k).next, b) == Ledger(s, b) - if k == b then s.batchData[b].size else 0
  {
  }

  lemma NewBatchBalanced(s: State, size: nat, b: nat)
    requires Structure(s) && (b in s.batchData || b == s.nextBatchID)
    ensures Ledger(PrepareBatch(s, size), b) == if b in s.batchData then Ledger(s, b) else 0
  {
    var copies := seq(size, _ => s.nextBatchID);
    CopiesCount(size, s.nextBatchID, b);
    LockCountPositive(s.pendingLocks, b);
    assert b == s.nextBatchID ==> b !in s.prepQueue;
  }

  lemma {:induction false} CopiesCount(size: nat, c: nat, b: nat)
    ensures multiset(seq(size, _ => c))[b] == if b == c then size else 0
  {
    if size == 0 {
    } else {
      CopiesCount(size - 1, c, b);
      assert seq<nat>(size, _ => c) == seq<nat>(size - 1, _ => c) + [c];
    }
  }

  /** The batch the release rule works on: the first unbalanced one. */
  function Target(s: State): nat
    requires WF(s) && !Balanced(s)
  {
    s.batches[First(s.batches, b => Unbalanced(s, b))]
  }

  function TowardsZero(n: int): int {
    if n > 0 then n - 1 else if n < 0 then n + 1 else 0
  }

  lemma ReleaseRuleMoves(s: State, now: int, b: nat)
    requires WF(s) && NoneLost(s) && !Balanced(s) && b in s.batchData
    ensures !RuleRelease(s, now).Idle? && b in RuleRelease(s, now).next.batchData
    ensures Ledger(RuleRelease(s, now).next, b) == if b == Target(s) then TowardsZero(Ledger(s, b)) else Ledger(s, b)
  {
    var c := Target(s);
    if Ledger(s, c) > 0 || c in s.prepQueue {
      RequeueMoves(s, now, b);
    } else {
      ListedKnown(s, c);
      ReleaseOneMoves(s, c, now, b);
    }
  }

  lemma RequeueMoves(s: State, now: int, b: nat)
    requires WF(s) && !Balanced(s) && b in s.batchData && (Ledger(s, Target(s)) > 0 || Target(s) in s.prepQueue)
    ensures !RuleRelease(s, now).Idle? && b in RuleRelease(s, now).next.batchData
    ensures Ledger(RuleRelease(s, now).next, b) == if b == Target(s) then TowardsZero(Ledger(s, b)) else Ledger(s, b)
  {
    var c := Target(s);
    if Ledger(s, c) > 0 {
      QueueMoves(s, s.prepQueue + [c], b);
    } else {
      var i := LastIndex(s.prepQueue, c);
      CountRemove(s.prepQueue, i, b);
      QueueMoves(s, RemoveAt(s.prepQueue, i), b);
    }
  }

  lemma QueueMoves(s: State, queue: seq<nat>, b: nat)
    requires b in s.batchData
    ensures Ledger(s.(prepQueue := queue), b) == Ledger(s, b) + multiset(s.prepQueue)[b] - multiset(queue)[b]
  {
  }

  lemma UnlistMoves(s: State, c: nat, j: nat, b: nat)
    requires c in s.batchData && j < |s.batchData[c].vms| && b in s.batchData
    ensures Ledger(Unlist(s, c, j), b) == Ledger(s, b) + if b == c then 1 else 0
  {
  }

  lemma ReleaseOneMoves(s: State, c: nat, now: int, b: nat)
    requires c in s.batchData && s.batchData[c].vms != [] && b in s.batchData
    requires forall x :: x in s.batchData[c].vms ==> x in s.vms
    ensures !ReleaseOne(s, c, now).Idle? && b in ReleaseOne(s, c, now).next.batchData
    ensures Ledger(ReleaseOne(s, c, now).next, b) == Ledger(s, b) + if b == c then 1 else 0
  {
    var vms := s.batchData[c].vms;
    var j := First(vms, x => x !in s.vms || InState(s, x, WAIT));
    if j < |vms| {
      UnlistMoves(s, c, j, b);
    } else {
      UnlistMoves(s, c, 0, b);
      CleanupFrame(Unlist(s, c, 0), vms[0], now);
    }
  }

  /** What one firing of a rule does to the ledger of b: nothing, unless it is the release rule at b,
      one step towards zero, or the expiry of a handle that still waits for b. */
  ghost predicate Moved(s: State, t: State, now: int, rule: Rule, b: nat)
    requires WF(s) && b in s.batchData && b in t.batchData
  {
    var d := Ledger(t, b) - Ledger(s, b);
    || d == 0
    || (rule == ReleaseRule && !Balanced(s) && b == Target(s) && Ledger(t, b) == TowardsZero(Ledger(s, b)))
    || (rule == HandleExpireRule && d == -1 && exists h :: HandleExpired(s, h, now) && WaitsFor(s, h, b))
  }

  lemma BatchCleanupKeeps(s: State, b: nat)
    requires WF(s) && RuleBatchCleanup(s).Fired? && b in s.batchData && b in RuleBatchCleanup(s).next.batchData
    ensures Ledger(RuleBatchCleanup(s).next, b) == Ledger(s, b)
  {
  }

  lemma ExpireMoves(s: State, now: int, b: nat)
    requires WF(s) && Structure(s) && !RuleHandleExpire(s, now).Idle? && b in s.batchData
    ensures b in RuleHandleExpire(s, now).next.batchData
    ensures Moved(s, RuleHandleExpire(s, now).next, now, HandleExpireRule, b)
  {
    ReleaseMoves(s, s.handles[First(s.handles, h => HandleExpired(s, h, now))], now, b);
  }

  lemma RuleMoves(s: State, now: int, rule: Rule, b: nat)
    requires WF(s) && Structure(s) && !Try(s, now, rule).Idle?
    requires b in s.batchData && b in Try(s, now, rule).next.batchData
    requires rule == ReleaseRule ==> NoneLost(s)
    ensures Moved(s, Try(s, now, rule).next, now, rule, b)
  {
    match rule {
      case PoolRule => PoolFrame(s, now);
      case TimeoutRule => TimeoutFrame(s, now);
      case PrepareRule => PrepareKeeps(s, s.pool[First(s.pool, x => InState(s, x, FREE))], now, b);
      case ReplaceRule => ReplaceKeeps(s, b);
      case BootRule => assert SameBatches(s, RuleBoot(s, now).next);
      case AssignRule => AssignKeeps(s, now, b);
      case DropHandleRule => assert SameBatches(s, RuleDropHandle(s).next);
      case ReleaseRule => ReleaseRuleMoves(s, now, b);
      case BatchCleanupRule => BatchCleanupKeeps(s, b);
      case HandleExpireRule => ExpireMoves(s, now, b);
    }
  }

  lemma RulesMove(s: State, now: int, b: nat) returns (rule: Rule)
    requires WF(s) && Structure(s) && !RunRules(s, now).Idle?
    requires b in s.batchData && b in RunRules(s, now).next.batchData
    ensures RunRules(s, now) == Try(s, now, rule) && Outranked(s, now, rule)
    ensures Moved(s, RunRules(s, now).next, now, rule, b)
  {
    rule := WhichRule(s, now);
    AfterReplace(s, now, rule);
    RuleMoves(s, now, rule, b);
  }

  /** How much an event other than a rule tick or a shutdown moves the ledger of a batch. */
  function Drift(s: State, e: Event, b: nat): int
    requires b in s.batchData
  {
    match e
    case EvLock(k) => if k == b && s.batchData[b].size == 0 then 1 else 0
    case EvRelease(h) => if WaitsFor(s, h, b) then -1 else 0
    case EvCancel(k) => if k == b then 0 - s.batchData[b].size else 0
    case _ => 0
  }

  /** Only a lock beyond the size, the release of a waiting handle and a cancellation move a ledger;
      no completion, ping, kill, boot, check-in or new batch does. */
  lemma EventsMove(s: State, e: Event, now: int, b: nat)
    requires Structure(s) && WF(s) && b in s.batchData && e != EvRules && e != EvShutdown
    ensures var t := Apply(s, e, now).next;
            b in t.batchData && Ledger(t, b) == Ledger(s, b) + Drift(s, e, b)
  {
    if !IsRequest(e) {
      CallbackFrame(s, e, now);
    } else {
      RequestsMove(s, e, now, b);
    }
  }

  lemma SettingsKeep(s: State, e: Event, now: int)
    requires WF(s) && (e.EvPoolSize? || e.EvRenew?)
    ensures SameBatches(s, Apply(s, e, now).next)
  {
  }

  lemma RequestsMove(s: State, e: Event, now: int, b: nat)
    requires Structure(s) && WF(s) && b in s.batchData && IsRequest(e) && e != EvShutdown
    ensures var t := Apply(s, e, now).next;
            b in t.batchData && Ledger(t, b) == Ledger(s, b) + Drift(s, e, b)
  {
    match e {
      case EvPrepareBatch(size) => NewBatchBalanced(s, size, b);
      case EvLock(k) => LockMoves(s, k, b);
      case EvRelease(h) =>
        if h in s.handles {
          ReleaseMoves(s, h, now, b);
        }
      case EvCancel(k) => CancelMoves(s, k, b);
      case EvPoolSize(_, _, _) => SettingsKeep(s, e, now);
      case EvRenew(_, _) => SettingsKeep(s, e, now);
    }
  }
}
