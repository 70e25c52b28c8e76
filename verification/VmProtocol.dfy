/** The controller and its VMs. */
module VmProtocol {
  import opened Collections
  import opened VerStates
  import opened Scheduler
  import opened Invariant
  import opened Runs

  /* The scheduler together with the VMs it talks to (vm-interface.js): what the controller believes about a VM
     against the state the VM is really in, over every interleaving of calls and replies in one process run. */

  // ---------------------------------------------------------------- the VM side

  /** The initial boot of the VM is going on, succeeded, or failed. A VM whose boot failed checks in as well,
      but serves no calls. */
  datatype BootPhase = Booting | Up | Broken

  /** One VM: vmState, the payload of its last successful prepare, and whether it has checked in. */
  datatype Machine = Machine(boot: BootPhase, state: VmState, session: Option<nat>, checkedIn: bool)

  const POWERED_ON := Machine(Booting, BUSY, None, false)

  /** Where a prepare or cleanup call is: on its way, being worked on, or answered. */
  datatype Phase = Sent | Running | Answered(state: VmState)

  datatype World = World(s: State, machines: map<nat, Machine>, calls: map<Op, Phase>)

  function MachineOf(w: World, x: nat): Machine {
    if x in w.machines then w.machines[x] else POWERED_ON
  }

  function EndBoot(m: Machine, ok: bool): Machine {
    if ok then m.(boot := Up, state := FREE_VM) else m.(boot := Broken, state := ERROR_VM)
  }

  function Begin(m: Machine): Machine {
    m.(state := BUSY)
  }

  function EndPrepare(m: Machine, result: Option<nat>): Machine {
    if result.Some? then m.(state := READY_VM, session := result) else m.(state := ERROR_VM)
  }

  function EndCleanup(m: Machine, ok: bool): Machine {
    m.(state := if ok then FREE_VM else ERROR_VM)
  }

  /** A task ends; result is the payload, or any value for a successful cleanup. */
  function End(m: Machine, op: Op, result: Option<nat>): Machine {
    if op.Prepare? then EndPrepare(m, result) else EndCleanup(m, result.Some?)
  }

  // ---------------------------------------------------------------- moves

  datatype WorldMove =
    | Controller(e: Event, now: int)
    | BootEnds(x: nat, ok: bool)
    | Receives(op: Op)
    | Ends(op: Op, result: Option<nat>)

  predicate AnsweredWith(w: World, op: Op, st: VmState) {
    op in w.calls && w.calls[op] == Answered(st)
  }

  /** The controller learns how a call ended only from its answer, and each VM checks in once, after its boot. */
  predicate Can(w: World, mv: WorldMove) {
    match mv
    case Controller(e, _) =>
      (match e
       case EvCheckin(x) => MachineOf(w, x).boot != Booting && !MachineOf(w, x).checkedIn
       case EvPrepareDone(x, ver, b, Replied(st)) => Enabled(w.s, e) && AnsweredWith(w, Prepare(x, ver, b), st)
       case EvCleanupDone(x, ver, Replied(st)) => Enabled(w.s, e) && AnsweredWith(w, Cleanup(x, ver), st)
       case _ => Enabled(w.s, e))
    case BootEnds(x, _) => MachineOf(w, x).boot == Booting
    case Receives(op) => op in w.calls && w.calls[op] == Sent && MachineOf(w, op.vmid).boot == Up
    case Ends(op, _) => op in w.calls && w.calls[op] == Running
  }

  /** The calls a step of the controller sends. */
  function NewCalls(before: set<Op>, after: set<Op>): map<Op, Phase> {
    map op | op in after - before && IsTask(op) :: Sent
  }

  function Consumed(e: Event): set<Op> {
    match e
    case EvPrepareDone(x, ver, b, Replied(_)) => {Prepare(x, ver, b)}
    case EvCleanupDone(x, ver, Replied(_)) => {Cleanup(x, ver)}
    case _ => {}
  }

  function Do(w: World, mv: WorldMove): World
    requires WF(w.s)
  {
    match mv
    case Controller(e, now) =>
      var t := Apply(w.s, e, now).next;
      World(t,
            if e.EvCheckin? then w.machines[e.x := MachineOf(w, e.x).(checkedIn := true)] else w.machines,
            (w.calls - Consumed(e)) + NewCalls(w.s.ops, t.ops))
    case BootEnds(x, ok) => w.(machines := w.machines[x := EndBoot(MachineOf(w, x), ok)])
    case Receives(op) =>
      w.(machines := w.machines[op.vmid := Begin(MachineOf(w, op.vmid))], calls := w.calls[op := Running])
    case Ends(op, result) =>
      var m := End(MachineOf(w, op.vmid), op, result);
      w.(machines := w.machines[op.vmid := m], calls := w.calls[op := Answered(m.state)])
  }

  // ---------------------------------------------------------------- the invariant

  function CallsOf(calls: map<Op, Phase>, x: nat): map<Op, Phase> {
    map op | op in calls && op.vmid == x :: calls[op]
  }

  ghost predicate CheckingIn(v: VmView) {
    exists op :: op in v.ops && op.Checkin?
  }

  ghost predicate MachineOk(m: Machine) {
    && (m.boot == Booting ==> m.state == BUSY && !m.checkedIn)
    && (m.boot == Broken ==> m.state == ERROR_VM)
    && (m.state == READY_VM ==> m.session.Some?)
  }

  /** Nothing was ever asked of the VM, and it is free once it is up. */
  ghost predicate Idling(m: Machine, calls: map<Op, Phase>) {
    calls == map[] && (m.boot == Up ==> m.state == FREE_VM)
  }

  /** What the controller believes about a pool VM, against the VM and the calls still under way. An outstanding
      operation is the only call; a call the controller no longer waits for exists only when it believes ERROR. */
  ghost predicate BeliefSound(v: VmView, m: Machine, calls: map<Op, Phase>)
    requires v.vm.Some?
  {
    var st := v.vm.value.state;
    && (!v.stub ==> calls == map[])
    && (forall op :: op in v.ops && IsTask(op) ==>
          calls.Keys == {op} && (calls[op].Answered? ==> m.state == calls[op].state))
    && (NoTask(v) ==> calls == map[] || (st == ERROR && v.handles == {}))
    && (st in {CREATING, BOOTING, FREE} ==> Idling(m, calls))
    && (st in {READY, OCCUPIED} ==> calls == map[] && m.state == READY_VM)
  }

  ghost predicate Sound(v: VmView, m: Machine, calls: map<Op, Phase>, unborn: bool) {
    && MachineOk(m)
    && (v.stub || CheckingIn(v) ==> m.checkedIn)
    && (unborn ==> Idling(m, calls))
    && (forall op :: op in calls && calls[op] != Sent ==> m.boot == Up)
    && (v.inPool && v.vm.Some? ==> BeliefSound(v, m, calls))
  }

  ghost predicate SoundAt(w: World, x: nat) {
    Sound(ViewOf(w.s, x), MachineOf(w, x), CallsOf(w.calls, x), x >= w.s.nextVMID)
  }

  ghost predicate WorldInv(w: World) {
    Inv(w.s) && WF(w.s) && !w.s.restored && forall x: nat :: SoundAt(w, x)
  }

  // ---------------------------------------------------------------- what a controller step may do to one VM

  ghost predicate Fresh(v: VmView, u: VmView, unborn: bool)
    requires u.vm.Some?
  {
    unborn && NoTask(u) && u.vm.value.state == CREATING
  }

  ghost predicate SameTasks(v: VmView, u: VmView) {
    forall op :: IsTask(op) ==> (op in v.ops <==> op in u.ops)
  }

  /** The changes of belief that need no call. */
  ghost predicate Turns(v: VmView, st: BeliefState, to: BeliefState) {
    || to == st
    || to == ERROR
    || (st == CREATING && to == BOOTING)
    || (st in {CREATING, BOOTING} && to == FREE && CheckingIn(v))
    || (st == READY && to == OCCUPIED)
  }

  ghost predicate Keeps(v: VmView, u: VmView)
    requires v.vm.Some? && u.vm.Some?
  {
    var st, to := v.vm.value.state, u.vm.value.state;
    && SameTasks(v, u) && (v.stub ==> u.stub) && (u.handles <= v.handles || st == READY)
    && Turns(v, st, to)
  }

  /** A call goes out to a VM no operation is outstanding on; it is not in ERROR unless a handle holds it. */
  ghost predicate Sends(v: VmView, u: VmView)
    requires v.vm.Some? && u.vm.Some?
  {
    && NoTask(v) && v.stub && u.stub && u.vm.value.state == WAIT
    && (v.vm.value.state != ERROR || v.handles != {})
    && exists op :: op in u.ops && IsTask(op) && u.ops == v.ops + {op}
  }

  ghost predicate Legit(v: VmView, u: VmView, unborn: bool) {
    && (u.stub || CheckingIn(u) ==> v.stub || CheckingIn(v))
    && (u.inPool && u.vm.Some? ==>
          || Fresh(v, u, unborn)
          || (v.inPool && v.vm.Some? && v.vm.value.version <= u.vm.value.version && (Keeps(v, u) || Sends(v, u))))
  }

  lemma KeepsSound(v: VmView, u: VmView, m: Machine, calls: map<Op, Phase>)
    requires VmOk(v) && Sound(v, m, calls, false) && v.inPool && v.vm.Some? && u.inPool && u.vm.Some? && Keeps(v, u)
    requires VmOk(u)
    ensures BeliefSound(u, m, calls)
  {
    assert NoTask(u) <==> NoTask(v);
  }

  lemma SendsSound(v: VmView, u: VmView, m: Machine, calls: map<Op, Phase>)
    requires calls == map[] && v.vm.Some? && u.vm.Some? && NoTask(v) && u.stub && u.vm.value.state == WAIT
    requires exists op :: op in u.ops && IsTask(op) && u.ops == v.ops + {op}
    ensures BeliefSound(u, m, calls + NewCalls(v.ops, u.ops))
  {
    var op :| op in u.ops && IsTask(op) && u.ops == v.ops + {op};
    assert NewCalls(v.ops, u.ops) == map[op := Sent];
  }

  lemma LegitSound(v: VmView, u: VmView, m: Machine, calls: map<Op, Phase>, unborn: bool, still: bool)
    requires VmOk(v) && VmOk(u) && Sound(v, m, calls, unborn) && Legit(v, u, unborn)
    requires still ==> unborn && Unseen(u)
    ensures Sound(u, m, calls + NewCalls(v.ops, u.ops), still)
  {
    var after := calls + NewCalls(v.ops, u.ops);
    assert Unseen(u) ==> NewCalls(v.ops, u.ops) == map[];
    if u.inPool && u.vm.Some? {
      if Fresh(v, u, unborn) {
        assert NewCalls(v.ops, u.ops) == map[];
      } else if Keeps(v, u) {
        assert NewCalls(v.ops, u.ops) == map[];
        KeepsSound(v, u, m, calls);
      } else {
        SendsSound(v, u, m, calls);
      }
    }
  }
}
