/** The invariant of the scheduler: four structural parts, and one statement about each VM as the
    whole system sees it (its VmView). */
module Invariant {
  import opened Collections
  import opened VerStates
  import opened Scheduler

  // ---------------------------------------------------------------- what the system says about one VM

  /** One VM: in the pool or not, its record, whether it has an RPC stub, the outstanding calls about it,
      the batches that list it and the handles that hold it. */
  datatype VmView = VmView(
    inPool: bool, vm: Option<Vm>, stub: bool, ops: set<Op>, batches: set<nat>, handles: set<nat>, restored: bool)

  function OpsOf(ops: set<Op>, x: nat): set<Op> {
    set op | op in ops && op.vmid == x
  }

  function BatchesOf(batchData: map<nat, Batch>, x: nat): set<nat> {
    set b | b in batchData && x in batchData[b].vms
  }

  function HandlesOf(handleData: map<nat, HandleInfo>, x: nat): set<nat> {
    set h | h in handleData && handleData[h].vmid == Some(x)
  }

  function ViewOf(s: State, x: nat): VmView {
    VmView(x in s.pool, if x in s.vms then Some(s.vms[x]) else None, x in s.rpc,
           OpsOf(s.ops, x), BatchesOf(s.batchData, x), HandlesOf(s.handleData, x), s.restored)
  }

  predicate IsTask(op: Op) {
    op.Prepare? || op.Cleanup?
  }

  ghost predicate AtMostOne<T(!new)>(s: set<T>) {
    forall a, b :: a in s && b in s ==> a == b
  }

  /** No batch and handle share the VM, no two batches, and no two handles. */
  ghost predicate OneOwner(v: VmView) {
    AtMostOne(v.batches) && AtMostOne(v.handles) && (v.batches == {} || v.handles == {})
  }

  /** The belief about a pool VM fits its owner; a READY or OCCUPIED VM has one. A held VM can be stuck in WAIT
      only when it has no RPC stub, which only a restart can cause. */
  ghost predicate BeliefFits(v: VmView) {
    v.inPool ==>
      && v.vm.Some?
      && var st := v.vm.value.state;
      && st != KILLING
      && (v.batches != {} ==> st in {WAIT, READY, ERROR})
      && (v.handles != {} ==> st in {OCCUPIED, ERROR} || (st == WAIT && !v.stub))
      && (st == READY ==> v.batches != {})
      && (st == OCCUPIED ==> v.handles != {})
      && (!v.stub ==> st in {CREATING, BOOTING, ERROR} || (st == WAIT && v.handles != {}))
  }

  /** Until a restart, every VM that has checked in has a stub, and so has every held VM. */
  ghost predicate StubFits(v: VmView) {
    !v.restored ==>
      && (v.inPool && v.vm.Some? && !v.stub ==> v.vm.value.state in {CREATING, BOOTING})
      && (v.handles != {} ==> v.stub)
  }

  ghost predicate NoTask(v: VmView) {
    forall op :: op in v.ops ==> !IsTask(op)
  }

  ghost predicate Awaited(v: VmView) {
    exists op :: op in v.ops && IsTask(op) && v.vm.Some? && op.ver == v.vm.value.version
  }

  /** At most one prepare or cleanup is outstanding; while it is, a pool VM is WAIT if the token is current
      and ERROR if it is stale; and a pool VM is WAIT only then. */
  ghost predicate TaskFits(v: VmView) {
    && (forall p, q :: p in v.ops && q in v.ops && IsTask(p) && IsTask(q) ==> p == q)
    && (forall op :: op in v.ops && IsTask(op) ==>
          && v.stub && v.handles == {}
          && (op.Prepare? ==> v.batches <= {op.batchId})
          && (op.Cleanup? ==> v.batches == {})
          && (v.inPool && v.vm.Some? ==>
                && op.ver <= v.vm.value.version
                && v.vm.value.state == if op.ver == v.vm.value.version then WAIT else ERROR))
    && (v.inPool && v.stub && v.vm.Some? && v.vm.value.state == WAIT ==> Awaited(v))
  }

  /** A token captured by a boot, check-in or ping is current only while the state it was captured in lasts. */
  ghost predicate TokensFit(v: VmView) {
    && (forall op :: op in v.ops && op.Kill? ==> !v.inPool)
    && (v.vm.Some? ==> forall op :: op in v.ops ==> TokenFits(v, v.vm.value, op))
  }

  ghost predicate TokenFits(v: VmView, vm: Vm, op: Op) {
    && (op.Boot? && vm.version == 0 ==> vm.state == CREATING)
    && (op.Checkin? ==>
          && op.ver <= vm.version
          && (op.ver == vm.version ==> vm.state in {CREATING, BOOTING})
          && (v.inPool && !v.stub ==> vm.state in {CREATING, BOOTING}))
    && (op.Ping? ==>
          && op.ver <= vm.version
          && v.stub
          && (op.ver == vm.version ==> vm.state == op.seen && Stable(op.seen)))
  }

  ghost predicate Unseen(v: VmView) {
    !v.inPool && v.vm.None? && v.ops == {} && v.batches == {} && v.handles == {}
  }

  ghost predicate VmOk(v: VmView) {
    OneOwner(v) && BeliefFits(v) && StubFits(v) && TaskFits(v) && TokensFit(v)
  }

  // ---------------------------------------------------------------- the lists

  /** Batch ids are listed once, name live batches and are never reused;
      so do those in the preparation queue and the pending locks. A cancelled batch has size 0. */
  ghost predicate BatchesOk(batches: seq<nat>, batchData: map<nat, Batch>, next: nat,
                            prepQueue: seq<nat>, locks: seq<PendingLock>)
  {
    && Distinct(batches)
    && (forall b :: b in batches <==> b in batchData)
    && (forall b :: b in batchData ==>
          b < next && Distinct(batchData[b].vms) && (batchData[b].markDelete ==> batchData[b].size == 0))
    && (forall b :: b in prepQueue ==> b in batchData)
    && (forall p :: p in locks ==> p.batchId in batchData)
  }

  ghost predicate PendingHandle(locks: seq<PendingLock>, h: nat) {
    exists p :: p in locks && p.handle == h
  }

  /** Handles increase and are never reused; the pending locks are the unassigned handles, in increasing order. */
  ghost predicate HandlesOk(handles: seq<nat>, handleData: map<nat, HandleInfo>, next: nat, locks: seq<PendingLock>) {
    && Increasing(handles)
    && (forall h :: h in handles <==> h in handleData)
    && (forall h :: h in handleData ==> h < next)
    && (forall i, j :: 0 <= i < j < |locks| ==> locks[i].handle < locks[j].handle)
    && (forall p :: p in locks ==> p.handle in handleData && handleData[p.handle].vmid.None?)
    && (forall h :: h in handleData && handleData[h].vmid.None? ==> PendingHandle(locks, h))
  }

  ghost predicate Structure(s: State) {
    && Distinct(s.pool)
    && BatchesOk(s.batches, s.batchData, s.nextBatchID, s.prepQueue, s.pendingLocks)
    && HandlesOk(s.handles, s.handleData, s.nextHandle, s.pendingLocks)
  }

  ghost predicate Inv(s: State) {
    && Structure(s)
    && (forall x: nat :: VmOk(ViewOf(s, x)))
    && (forall x: nat :: x >= s.nextVMID ==> Unseen(ViewOf(s, x)))
  }

  lemma InvWF(s: State)
    requires Inv(s)
    ensures WF(s)
  {
    forall x | x in s.pool ensures x in s.vms && (InState(s, x, FREE) ==> x in s.rpc) {
      assert VmOk(ViewOf(s, x));
    }
  }

  lemma InitInv(cfg: Config)
    ensures Inv(Init(cfg))
  {
  }

  // ---------------------------------------------------------------- how views change

  lemma OpsChange(ops: set<Op>, op: Op)
    ensures forall x: nat :: OpsOf(ops + {op}, x) == if x == op.vmid then OpsOf(ops, x) + {op} else OpsOf(ops, x)
    ensures forall x: nat :: OpsOf(ops - {op}, x) == OpsOf(ops, x) - {op}
  {
  }

  lemma BatchChange(batchData: map<nat, Batch>, b: nat, batch: Batch)
    ensures forall x: nat ::
              BatchesOf(batchData[b := batch], x)
              == BatchesOf(batchData, x) - {b} + (if x in batch.vms then {b} else {})
  {
  }

  lemma HandleChange(handleData: map<nat, HandleInfo>, h: nat, info: HandleInfo)
    ensures forall x: nat ::
              HandlesOf(handleData[h := info], x)
              == HandlesOf(handleData, x) - {h} + (if info.vmid == Some(x) then {h} else {})
    ensures forall x: nat :: HandlesOf(handleData - {h}, x) == HandlesOf(handleData, x) - {h}
  {
  }
}
