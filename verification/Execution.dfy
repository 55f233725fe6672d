/** The shared deadline and cancellation flag of one session
    (recon_cockpit/secure_agent/execution.py). */
module Execution {
  import opened Prelude

  /** The reasons of ExecutionStopped; the broker's budgets end a session the same way. */
  datatype Stop = SessionCancelled | SessionTimeout | BrokerCallLimit | BrokerTokenLimit | BrokerRequestLimit

  /** The control of a session has stopped it, for this reason. */
  ghost predicate Halting(control: ExecutionControl, stop: Stop)
    reads control
  {
    (stop == SessionCancelled && control.cancelled) || (stop == SessionTimeout && control.deadline <= control.now)
  }

  class ExecutionControl {
    const deadline: real
    var now: real
    var cancelled: bool

    constructor (deadline: real, now: real)
      ensures this.deadline == deadline && this.now == now && !cancelled
    {
      this.deadline, this.now, this.cancelled := deadline, now, false;
    }

    /** Time passes; an operator may cancel. Clocks never run backwards and a cancellation is never undone. */
    method Wait()
      modifies this
      ensures old(now) <= now
      ensures old(cancelled) ==> cancelled
    {
      var later: real, cancel: bool := *, *;
      if now <= later { now := later; }
      if cancel { cancelled := true; }
    }

    /** check(): passes only before the deadline of an uncancelled session. */
    method Check() returns (stop: Option<Stop>)
      modifies this
      ensures old(now) <= now && (old(cancelled) ==> cancelled)
      ensures stop.None? <==> !cancelled && now < deadline
      ensures stop == Some(SessionCancelled) <==> cancelled
      ensures stop == Some(SessionTimeout) <==> !cancelled && deadline <= now
    {
      Wait();
      if cancelled { return Some(SessionCancelled); }
      if deadline - now <= 0.0 { return Some(SessionTimeout); }
      return None;
    }
  }
}
