/** vm-interface.js as the object it is: module variables assigned by the boot sequence and the call handlers. */
module VmInterfaces {
  import opened Collections
  import opened Scheduler
  import opened VmProtocol

  class VmInterface {
    var boot: BootPhase
    var vmState: VmState
    var sessionPayload: Option<nat>
    var checkedIn: bool

    ghost function View(): Machine
      reads this
    {
      Machine(boot, vmState, sessionPayload, checkedIn)
    }

    constructor ()
      ensures View() == POWERED_ON
    {
      boot, vmState, sessionPayload, checkedIn := Booting, BUSY, None, false;
    }

    /** The callback of initial_bootup. */
    method BootEnded(ok: bool)
      modifies this
      ensures View() == EndBoot(old(View()), ok)
      ensures vmState == (if ok then FREE_VM else ERROR_VM) && boot == (if ok then Up else Broken)
      ensures sessionPayload == old(sessionPayload) && checkedIn == old(checkedIn)
    {
      if ok {
        boot, vmState := Up, FREE_VM;
      } else {
        boot, vmState := Broken, ERROR_VM;
      }
    }

    method CheckIn()
      modifies this
      ensures View() == old(View()).(checkedIn := true)
    {
      checkedIn := true;
    }

    method Ping() returns (answer: VmState)
      ensures answer == View().state
    {
      answer := vmState;
    }

    method Prepare()
      modifies this
      ensures View() == Begin(old(View())) && vmState == BUSY && sessionPayload == old(sessionPayload)
    {
      vmState := BUSY;
    }

    /** The callback of vmActions.prepare; result is None on an error. */
    method PrepareEnded(result: Option<nat>) returns (answer: VmState)
      modifies this
      ensures View() == EndPrepare(old(View()), result) && answer == View().state
      ensures answer == vmState == (if result.Some? then READY_VM else ERROR_VM)
      ensures sessionPayload == if result.Some? then result else old(sessionPayload)
    {
      if result.None? {
        vmState := ERROR_VM;
      } else {
        vmState := READY_VM;
        sessionPayload := result;
      }
      answer := vmState;
    }

    /** The payload handed to vmActions.cleanup is the one of the last successful prepare. */
    method Cleanup() returns (payload: Option<nat>)
      modifies this
      ensures View() == Begin(old(View())) && payload == old(sessionPayload)
      ensures vmState == BUSY && sessionPayload == old(sessionPayload)
    {
      vmState := BUSY;
      payload := sessionPayload;
    }

    method CleanupEnded(ok: bool) returns (answer: VmState)
      modifies this
      ensures View() == EndCleanup(old(View()), ok) && answer == View().state
      ensures answer == vmState == (if ok then FREE_VM else ERROR_VM) && sessionPayload == old(sessionPayload)
    {
      if ok {
        vmState := FREE_VM;
      } else {
        vmState := ERROR_VM;
      }
      answer := vmState;
    }
  }
}
