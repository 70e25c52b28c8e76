/** The belief the controller keeps about one VM (common.js, control-server.js verState). */
module VerStates {

  datatype BeliefState =
    | CREATING | BOOTING | WAIT | FREE | READY | OCCUPIED | ERROR | KILLING

  /** The timeouts of the configuration, in milliseconds, and the cap on the pool size. */
  datatype Config = Config(openstack: nat, boot: nat, update: nat, operation: nat, maxAllowed: nat)

  predicate Stable(st: BeliefState) {
    st in {FREE, READY, OCCUPIED}
  }

  /** One VM record as a value: its versioned belief state, and whether the cloud gave it a server. */
  datatype Vm = Vm(state: BeliefState, version: nat, refreshTime: int, changeTime: int, hasServer: bool) {

    function Refresh(now: int): Vm {
      this.(version := version + 1, refreshTime := now)
    }

    function Set(st: BeliefState, now: int): Vm {
      Refresh(now).(state := st, changeTime := if st != state then now else changeTime)
    }

    function VerSet(ver: nat, st: BeliefState, now: int): Vm {
      if version == ver then Set(st, now) else this
    }

    function VerRefresh(ver: nat, now: int): Vm {
      if version == ver then Refresh(now) else this
    }

    predicate TimedOut(cfg: Config, now: int) {
      var elapsed := now - refreshTime;
      match state
      case CREATING => cfg.openstack < elapsed
      case BOOTING => cfg.boot < elapsed
      case FREE => cfg.update < elapsed
      case READY => cfg.update < elapsed
      case OCCUPIED => cfg.update < elapsed
      case WAIT => cfg.operation < elapsed
      case ERROR => 0 < elapsed
      case KILLING => false // no timeout is configured, and comparing with undefined is false
    }
  }

  function NewVm(st: BeliefState, now: int): Vm {
    Vm(st, 0, now, now, false)
  }

  /** One use of verState: a change of state, or a refresh, at a time. */
  datatype Touch = Change(st: BeliefState, at: int) | Renewal(at: int)

  function Touched(vm: Vm, touches: seq<Touch>): Vm {
    if touches == [] then vm
    else
      var before := Touched(vm, touches[..|touches| - 1]);
      match touches[|touches| - 1]
      case Change(st, at) => before.Set(st, at)
      case Renewal(at) => before.Refresh(at)
  }

  /** Touch i puts the record in another state than it was in. */
  predicate TurnsState(vm: Vm, touches: seq<Touch>, i: nat) {
    i < |touches| && touches[i].Change? && touches[i].st != Touched(vm, touches[..i]).state
  }

  ghost predicate LastTurn(vm: Vm, touches: seq<Touch>, i: nat) {
    TurnsState(vm, touches, i) && forall j: nat :: i < j ==> !TurnsState(vm, touches, j)
  }

  /** Over any series of touches: the version counts them, the refresh time is that of the last one, and the
      change time that of the last one that turned the state. */
  lemma {:induction false} TouchesKept(vm: Vm, touches: seq<Touch>)
    ensures var w := Touched(vm, touches);
            && w.version == vm.version + |touches| && w.hasServer == vm.hasServer
            && w.refreshTime == (if touches == [] then vm.refreshTime else touches[|touches| - 1].at)
            && (forall i: nat :: LastTurn(vm, touches, i) ==>
                  w.changeTime == touches[i].at && w.state == touches[i].st)
            && ((forall i: nat :: !TurnsState(vm, touches, i)) ==> w.changeTime == vm.changeTime && w.state == vm.state)
  {
    if touches == [] {
    } else {
      var n := |touches| - 1;
      var rest := touches[..n];
      TouchesKept(vm, rest);
      forall i: nat | LastTurn(vm, touches, i)
        ensures Touched(vm, touches).changeTime == touches[i].at && Touched(vm, touches).state == touches[i].st
      {
        if i < n {
          LastTurnBefore(vm, touches, rest, i);
        }
      }
      if forall i: nat :: !TurnsState(vm, touches, i) {
        NoTurnBefore(vm, touches, rest);
      }
    }
  }

  lemma TurnBefore(vm: Vm, touches: seq<Touch>, rest: seq<Touch>, i: nat)
    requires touches != [] && rest == touches[..|touches| - 1]
    ensures TurnsState(vm, rest, i) <==> i < |rest| && TurnsState(vm, touches, i)
  {
    if i < |rest| {
      assert rest[..i] == touches[..i];
    }
  }

  lemma LastTurnBefore(vm: Vm, touches: seq<Touch>, rest: seq<Touch>, i: nat)
    requires touches != [] && rest == touches[..|touches| - 1] && i < |rest| && LastTurn(vm, touches, i)
    ensures LastTurn(vm, rest, i) && !TurnsState(vm, touches, |rest|)
  {
    forall j: nat ensures TurnsState(vm, rest, j) <==> j < |rest| && TurnsState(vm, touches, j) {
      TurnBefore(vm, touches, rest, j);
    }
  }

  lemma NoTurnBefore(vm: Vm, touches: seq<Touch>, rest: seq<Touch>)
    requires touches != [] && rest == touches[..|touches| - 1] && forall i: nat :: !TurnsState(vm, touches, i)
    ensures forall i: nat :: !TurnsState(vm, rest, i)
    ensures !TurnsState(vm, touches, |rest|)
  {
    forall i: nat ensures !TurnsState(vm, rest, i) {
      TurnBefore(vm, touches, rest, i);
    }
  }

  /** The record object the controller mutates: verState's fields together with its server. */
  class VmInfo {
    var state: BeliefState
    var version: nat
    var refreshTime: int
    var changeTime: int
    var hasServer: bool

    ghost function View(): Vm
      reads this
    {
      Vm(state, version, refreshTime, changeTime, hasServer)
    }

    constructor (st: BeliefState, now: int)
      ensures View() == NewVm(st, now)
    {
      state, version, refreshTime, changeTime, hasServer := st, 0, now, now, false;
    }

    method Refresh(now: int)
      modifies this
      ensures View() == old(View()).Refresh(now)
    {
      version := version + 1;
      refreshTime := now;
    }

    method Set(newState: BeliefState, now: int) returns (ver: nat)
      modifies this
      ensures View() == old(View()).Set(newState, now)
      ensures state == newState && refreshTime == now && hasServer == old(hasServer)
      ensures changeTime == if newState == old(state) then old(changeTime) else now
      ensures ver == version == old(version) + 1
    {
      var oldState := state;
      state := newState;
      Refresh(now);
      if oldState != newState {
        changeTime := now;
      }
      ver := version;
    }

    method VerSet(ver: nat, newState: BeliefState, now: int)
      modifies this
      ensures View() == old(View()).VerSet(ver, newState, now)
      ensures ver != old(version) ==> View() == old(View())
      ensures ver == old(version) ==> state == newState && version == ver + 1 && refreshTime == now
    {
      if version == ver {
        var _ := Set(newState, now);
      }
    }

    method VerRefresh(ver: nat, now: int)
      modifies this
      ensures View() == old(View()).VerRefresh(ver, now)
      ensures state == old(state) && changeTime == old(changeTime)
      ensures if ver == old(version) then version == ver + 1 && refreshTime == now else View() == old(View())
    {
      if version == ver {
        Refresh(now);
      }
    }

    method IsRefreshTimeout(cfg: Config, now: int) returns (b: bool)
      ensures b <==> View().TimedOut(cfg, now)
      ensures state == CREATING ==> (b <==> now - refreshTime > cfg.openstack)
      ensures state == BOOTING ==> (b <==> now - refreshTime > cfg.boot)
      ensures state == FREE || state == READY || state == OCCUPIED ==> (b <==> now - refreshTime > cfg.update)
      ensures state == WAIT ==> (b <==> now - refreshTime > cfg.operation)
      ensures state == ERROR ==> (b <==> now - refreshTime > 0)
      ensures state == KILLING ==> !b
    {
      var timeout :=
        match state
        case CREATING => cfg.openstack
        case BOOTING => cfg.boot
        case FREE | READY | OCCUPIED => cfg.update
        case WAIT => cfg.operation
        case ERROR | KILLING => 0;
      b := state != KILLING && timeout < now - refreshTime;
    }
  }
}
