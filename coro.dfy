/**
 * The one-slot cooperative scheduler of the auto-upgrade coroutine.
 *
 * The game keeps four globals: the handle of the suspended coroutine (the
 * "resumer"), a ready flag, the result of the last command and the id of the
 * vehicle the last command created. Awaiters fill the slot when the coroutine
 * suspends; the per-tick pump (`HandleCoro`) empties it and resumes the coroutine
 * when the flag is set.
 *
 * The coroutine frame is replaced by a `ResumePoint` tag naming the
 * suspension point. The transitions are first given as functions on a
 * `CoroState` value (the specification); the `Scheduler` class holds the
 * globals and its methods are proved to follow those functions.
 */
module Coro {
  import opened Types

  /** A command's outcome: success with a cost, or failure with a message id. */
  datatype CommandCost = Succeeded(cost: int) | Failed(message: nat)

  /** The message id of the failure synthesised when a command cannot be sent. */
  const INVALID_STRING_ID: nat := 0xFFFF

  /** `size_t` is 64 bits wide: arithmetic on it is modulo this. */
  const SIZE_T_MODULUS: nat := 0x1_0000_0000_0000_0000

  /** A suspension point of the coroutine; stands in for a coroutine handle. */
  type ResumePoint = nat

  datatype CoroState = CoroState(
    resumer: Option<ResumePoint>,
    waitingForCallback: bool,
    commandCost: CommandCost,
    newVehicleId: VehicleID)

  /** The globals at program start: empty slot, flag clear, default (successful) cost. */
  const INITIAL_STATE := CoroState(None, false, Succeeded(0), 0)

  /** `ResetCoroState`: destroy any suspended task and clear the flag. */
  function Reset(s: CoroState): (r: CoroState)
    ensures r.resumer == None && !r.waitingForCallback
    ensures r.commandCost == s.commandCost && r.newVehicleId == s.newVehicleId
  {
    CoroState(None, false, s.commandCost, s.newVehicleId)
  }

  datatype HandleResult = HandleResult(state: CoroState, handled: bool, resumed: Option<ResumePoint>)

  /**
   * `HandleCoro`: report whether a task is suspended, and resume it when its
   * flag is set, clearing both flag and slot before it runs again.
   */
  function Handle(s: CoroState): (r: HandleResult)
    ensures r.handled <==> s.resumer.Some?
    ensures r.resumed.Some? <==> s.resumer.Some? && s.waitingForCallback
    ensures r.resumed.Some? ==> r.resumed == s.resumer && r.state.resumer.None? && !r.state.waitingForCallback
    ensures r.resumed.None? ==> r.state == s
    ensures r.state.commandCost == s.commandCost && r.state.newVehicleId == s.newVehicleId
  {
    if s.resumer.Some? then
      if s.waitingForCallback then
        HandleResult(s.(waitingForCallback := false, resumer := None), true, s.resumer)
      else
        HandleResult(s, true, None)
    else
      HandleResult(s, false, None)
  }

  /** `DoCommandPAwaiter::Callback`: store the result and the new vehicle id, set the flag. */
  function Deliver(s: CoroState, result: CommandCost, lastNewVehicle: VehicleID): (r: CoroState)
    ensures r.commandCost == result && r.newVehicleId == lastNewVehicle && r.waitingForCallback
    ensures r.resumer == s.resumer
  {
    CoroState(s.resumer, true, result, lastNewVehicle)
  }

  /** The command id without its flag bits (`static_cast<uint16>(cmd)`). */
  function CommandIndex(cmd: nat): (c: nat)
    ensures c < 0x1_0000
    ensures cmd < 0x1_0000 ==> c == cmd
  {
    cmd % 0x1_0000
  }

  /**
   * `DoCommandPAwaiter::CallbackWrapper`: a result for the town-founding
   * command goes to that command's own handler and leaves the scheduler
   * alone; every other result is delivered to the coroutine.
   */
  function DeliverVia(s: CoroState, result: CommandCost, cmd: nat, lastNewVehicle: VehicleID, foundTown: nat): (r: CoroState)
    ensures CommandIndex(cmd) == foundTown ==> r == s
    ensures CommandIndex(cmd) != foundTown ==> r == Deliver(s, result, lastNewVehicle)
  {
    if CommandIndex(cmd) == foundTown then s else Deliver(s, result, lastNewVehicle)
  }

  /**
   * `DoCommandPAwaiter::await_suspend`: take the slot, then send the command;
   * if it could not be sent while networking, a failure is delivered at once.
   * `sent` is what the command gateway returned.
   */
  function SuspendOnCommand(s: CoroState, p: ResumePoint, sent: bool, networking: bool, lastNewVehicle: VehicleID): (r: CoroState)
    requires s.resumer.None?
    ensures r.resumer == Some(p)
    ensures !sent && networking ==> r.waitingForCallback && r.commandCost == Failed(INVALID_STRING_ID)
    ensures sent || !networking ==> r == s.(resumer := Some(p))
  {
    var taken := s.(resumer := Some(p));
    if !sent && networking then Deliver(taken, Failed(INVALID_STRING_ID), lastNewVehicle) else taken
  }

  /** `WaitTickAwaiter::await_suspend`: take the slot and mark the coroutine ready at once. */
  function SuspendOnTick(s: CoroState, p: ResumePoint): (r: CoroState)
    requires s.resumer.None?
    ensures r.resumer == Some(p) && r.waitingForCallback
    ensures r.commandCost == s.commandCost && r.newVehicleId == s.newVehicleId
  {
    s.(resumer := Some(p), waitingForCallback := true)
  }

  /** A tick wait is resumed by the very next pump. */
  lemma TickResumedByNextPump(s: CoroState, p: ResumePoint)
    requires s.resumer.None?
    ensures Handle(SuspendOnTick(s, p)).resumed == Some(p)
    ensures Handle(SuspendOnTick(s, p)).state == s.(waitingForCallback := false)
  {
  }

  /** After a command wait, the coroutine resumes with exactly the delivered result. */
  lemma CommandResumesWithDeliveredResult(s: CoroState, p: ResumePoint, result: CommandCost, v: VehicleID)
    requires s.resumer.None?
    ensures var h := Handle(Deliver(SuspendOnCommand(s, p, true, true, v), result, v));
      h.resumed == Some(p) && h.state.commandCost == result && h.state.newVehicleId == v
  {
  }

  /** Everything that can happen to the scheduler. */
  datatype Event =
    | ResetEvent
    | PumpEvent
    | AwaitCommandEvent(point: ResumePoint, sent: bool, networking: bool, lastNewVehicle: VehicleID)
    | AwaitTickEvent(point: ResumePoint)
    | CallbackEvent(result: CommandCost, cmd: nat, lastNewVehicle: VehicleID)

  /**
   * A state together with how many suspensions have been made, how many were
   * resumed and how many suspended tasks were destroyed.
   */
  datatype Trace = Trace(state: CoroState, suspended: nat, resumed: nat, destroyed: nat)

  /** One event; `None` when an awaiter's `assert(!coro_resumer)` would fail. */
  function Step(t: Trace, e: Event, foundTown: nat): (r: Option<Trace>)
    ensures r.None? <==> (e.AwaitCommandEvent? || e.AwaitTickEvent?) && t.state.resumer.Some?
  {
    match e
    case ResetEvent =>
      Some(Trace(Reset(t.state), t.suspended, t.resumed,
                 t.destroyed + (if t.state.resumer.Some? then 1 else 0)))
    case PumpEvent =>
      var h := Handle(t.state);
      Some(Trace(h.state, t.suspended, t.resumed + (if h.resumed.Some? then 1 else 0), t.destroyed))
    case AwaitCommandEvent(p, sent, networking, v) =>
      if t.state.resumer.Some? then None
      else Some(Trace(SuspendOnCommand(t.state, p, sent, networking, v), t.suspended + 1, t.resumed, t.destroyed))
    case AwaitTickEvent(p) =>
      if t.state.resumer.Some? then None
      else Some(Trace(SuspendOnTick(t.state, p), t.suspended + 1, t.resumed, t.destroyed))
    case CallbackEvent(result, cmd, v) =>
      Some(Trace(DeliverVia(t.state, result, cmd, v, foundTown), t.suspended, t.resumed, t.destroyed))
  }

  function Run(t: Trace, events: seq<Event>, foundTown: nat): Option<Trace>
    decreases |events|
  {
    if events == [] then Some(t)
    else match Step(t, events[0], foundTown)
      case None => None
      case Some(t') => Run(t', events[1..], foundTown)
  }

  /** Suspensions not yet resumed or destroyed: exactly the occupancy of the slot. */
  ghost predicate OneInFlight(t: Trace) {
    t.suspended == t.resumed + t.destroyed + (if t.state.resumer.Some? then 1 else 0)
  }

  /**
   * At most one outstanding suspension: along every run in which no awaiter's
   * assertion fails, every suspension but the one in the slot has been
   * resumed or destroyed.
   */
  lemma {:induction false} RunKeepsOneInFlight(t: Trace, events: seq<Event>, foundTown: nat)
    requires OneInFlight(t)
    ensures Run(t, events, foundTown).Some? ==> OneInFlight(Run(t, events, foundTown).value)
    decreases |events|
  {
    if events != [] {
      var next := Step(t, events[0], foundTown);
      if next.Some? {
        assert OneInFlight(next.value);
        RunKeepsOneInFlight(next.value, events[1..], foundTown);
      }
    }
  }

  /** From program start, every completed run has at most one suspension in flight. */
  lemma FromStartAtMostOneOutstanding(events: seq<Event>, foundTown: nat)
    ensures var r := Run(Trace(INITIAL_STATE, 0, 0, 0), events, foundTown);
      r.Some? ==> r.value.suspended - r.value.resumed - r.value.destroyed <= 1
  {
    RunKeepsOneInFlight(Trace(INITIAL_STATE, 0, 0, 0), events, foundTown);
  }

  /** `--numticks` on a `size_t`: zero wraps to the largest value. */
  function PreDecrement(n: nat): (r: nat)
    requires n < SIZE_T_MODULUS
    ensures r < SIZE_T_MODULUS
    ensures n > 0 ==> r == n - 1
    ensures n == 0 ==> r == SIZE_T_MODULUS - 1
  {
    (n + SIZE_T_MODULUS - 1) % SIZE_T_MODULUS
  }

  /** The global scheduler state and the awaiters that drive it. */
  class Scheduler {
    var resumer: Option<ResumePoint>
    var waitingForCallback: bool
    var commandCost: CommandCost
    var newVehicleId: VehicleID

    function State(): CoroState
      reads this
    {
      CoroState(resumer, waitingForCallback, commandCost, newVehicleId)
    }

    constructor ()
      ensures State() == INITIAL_STATE
    {
      resumer, waitingForCallback := None, false;
      commandCost, newVehicleId := Succeeded(0), 0;
    }

    method ResetCoroState()
      modifies this
      ensures State() == Reset(old(State()))
    {
      if resumer.Some? {
        resumer := None;
      }
      waitingForCallback := false;
    }

    method HandleCoro() returns (handled: bool, resumed: Option<ResumePoint>)
      modifies this
      ensures HandleResult(State(), handled, resumed) == Handle(old(State()))
    {
      resumed := None;
      if resumer.Some? {
        if waitingForCallback {
          waitingForCallback := false;
          resumed, resumer := resumer, None;
        }
        return true, resumed;
      }
      return false, resumed;
    }

    method Callback(result: CommandCost, lastNewVehicle: VehicleID)
      modifies this
      ensures State() == Deliver(old(State()), result, lastNewVehicle)
    {
      commandCost := result;
      if commandCost.Failed? {
        commandCost := commandCost;
      }
      newVehicleId := lastNewVehicle;
      waitingForCallback := true;
    }

    method CallbackWrapper(result: CommandCost, cmd: nat, lastNewVehicle: VehicleID, foundTown: nat)
      returns (diverted: bool)
      modifies this
      ensures diverted <==> CommandIndex(cmd) == foundTown
      ensures State() == DeliverVia(old(State()), result, cmd, lastNewVehicle, foundTown)
    {
      if CommandIndex(cmd) == foundTown {
        return true;
      }
      Callback(result, lastNewVehicle);
      return false;
    }

    /** `DoCommandPAwaiter::await_suspend`; `sent` is the gateway's answer. */
    method AwaitCommandSuspend(p: ResumePoint, sent: bool, networking: bool, lastNewVehicle: VehicleID)
      requires resumer.None?
      modifies this
      ensures State() == SuspendOnCommand(old(State()), p, sent, networking, lastNewVehicle)
    {
      resumer := Some(p);
      if !sent && networking {
        Callback(Failed(INVALID_STRING_ID), lastNewVehicle);
      }
    }

    /** `DoCommandPAwaiter::await_resume`: the stored result, unchanged. */
    method AwaitResume() returns (c: CommandCost)
      ensures c == commandCost
    {
      c := commandCost;
    }

    method WaitTickSuspend(p: ResumePoint)
      requires resumer.None?
      modifies this
      ensures State() == SuspendOnTick(old(State()), p)
    {
      resumer := Some(p);
      waitingForCallback := true;
    }

    /**
     * `WaitTicks(n)`: pre-decrement a `size_t` counter and suspend on a tick
     * while it is positive; each suspension is resumed by the next pump.
     * For n >= 1 that is n - 1 suspensions (n == 0 would wrap, see
     * `PreDecrement`).
     */
    method WaitTicks(numticks: nat, p: ResumePoint) returns (suspensions: nat)
      requires 1 <= numticks < SIZE_T_MODULUS
      requires resumer.None?
      modifies this
      ensures suspensions == numticks - 1
      ensures resumer.None?
      ensures commandCost == old(commandCost) && newVehicleId == old(newVehicleId)
      ensures waitingForCallback == (old(waitingForCallback) && numticks == 1)
    {
      var n: nat := PreDecrement(numticks);
      suspensions := 0;
      while n > 0
        invariant n < SIZE_T_MODULUS
        invariant n + suspensions == numticks - 1
        invariant resumer.None?
        invariant commandCost == old(commandCost) && newVehicleId == old(newVehicleId)
        invariant waitingForCallback == (old(waitingForCallback) && suspensions == 0)
      {
        WaitTickSuspend(p);
        var handled, resumed := HandleCoro();
        assert resumed == Some(p);
        suspensions := suspensions + 1;
        n := PreDecrement(n);
      }
    }
  }
}
