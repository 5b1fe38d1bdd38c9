/** The polling life cycle of the server's data engine
    (server/utils/dataNormalizer.js, `scheduleNextUpdate`, `startPolling`,
    `stopPolling`, `getCurrentState`). `setTimeout` becomes an explicit pending
    timer, and the asynchronous cycle is split into the moment it starts and
    the moment it settles, so that stops and starts can interleave with cycles
    in flight as they can on the event loop. */
module Polling {
  import opened Common
  import SE = ServerEngine

  /** The engine: its state record, the `isPolling` flag, the delay of the
      one pending `setTimeout` callback (if any), and how many cycles have
      started and not yet settled. */
  datatype Engine = Engine(current: SE.BioState, isPolling: bool, timer: Option<int>, inFlight: nat)

  /** The constructor: default state, not polling, nothing pending. */
  function NewEngine(now: int): (e: Engine)
    ensures !e.isPolling && e.timer.None? && e.inFlight == 0
    ensures e.current == SE.InitialState(now)
  {
    Engine(SE.InitialState(now), false, None, 0)
  }

  /** `scheduleNextUpdate(delay)`: ignored when not polling; otherwise any
      pending callback is cleared and replaced by one for `delay`. */
  function ScheduleNextUpdate(e: Engine, delay: int): (e': Engine)
    ensures !e.isPolling ==> e' == e
    ensures e.isPolling ==> e' == e.(timer := Some(delay))
  {
    if !e.isPolling then e else e.(timer := Some(delay))
  }

  /** `startPolling`: a no-op while polling; otherwise it sets the flag and
      starts a cycle at once. */
  function StartPolling(e: Engine): (e': Engine)
    ensures e.isPolling ==> e' == e
    ensures !e.isPolling ==> e'.isPolling && e'.inFlight == e.inFlight + 1
    ensures e'.timer == e.timer && e'.current == e.current
  {
    if e.isPolling then e else e.(isPolling := true, inFlight := e.inFlight + 1)
  }

  /** `stopPolling`: clears the flag and the pending callback. A cycle in
      flight is not cancelled. */
  function StopPolling(e: Engine): (e': Engine)
    ensures !e'.isPolling && e'.timer.None?
    ensures e'.current == e.current && e'.inFlight == e.inFlight
  {
    e.(isPolling := false, timer := None)
  }

  /** The pending callback fires and starts a cycle. With nothing pending
      there is nothing to fire. */
  function TimerFires(e: Engine): (e': Engine)
    ensures e.timer.None? ==> e' == e
    ensures e.timer.Some? ==> e'.timer.None? && e'.inFlight == e.inFlight + 1
    ensures e'.isPolling == e.isPolling && e'.current == e.current
  {
    if e.timer.None? then e else e.(timer := None, inFlight := e.inFlight + 1)
  }

  /** A cycle in flight settles. An aborted cycle is a rejected promise that
      nothing catches: it leaves the record and the timer as they were and
      schedules no retry. A completed one replaces the whole record and then
      asks for the next cycle, which `ScheduleNextUpdate` refuses once polling
      has stopped. */
  function CycleSettles(e: Engine, outcome: SE.CycleOutcome): (e': Engine)
    ensures e.inFlight == 0 ==> e' == e
    ensures e.inFlight > 0 && outcome.Aborted? ==> e' == e.(inFlight := e.inFlight - 1)
    ensures e.inFlight > 0 && outcome.Completed? ==>
      && e'.current == outcome.state
      && e'.isPolling == e.isPolling
      && e'.inFlight == e.inFlight - 1
      && e'.timer == (if e.isPolling then Some(outcome.nextInterval) else e.timer)
  {
    if e.inFlight == 0 then e
    else
      var settled := e.(inFlight := e.inFlight - 1);
      match outcome
      case Aborted => settled
      case Completed(state, next) => ScheduleNextUpdate(settled.(current := state), next)
  }

  /** `getCurrentState`: a field-equal copy of the record. */
  function GetCurrentState(e: Engine): (s: SE.BioState)
    ensures s.meta == e.current.meta && s.weather == e.current.weather
    ensures s.environment == e.current.environment && s.transport == e.current.transport
  {
    SE.GetCurrentState(e.current)
  }

  // ---------------------------------------------------------------------
  // Event traces
  // ---------------------------------------------------------------------

  datatype Event = Start | Stop | Fire | Settle(outcome: SE.CycleOutcome)

  function Step(e: Engine, ev: Event): Engine
  {
    match ev
    case Start => StartPolling(e)
    case Stop => StopPolling(e)
    case Fire => TimerFires(e)
    case Settle(o) => CycleSettles(e, o)
  }

  function Run(e: Engine, evs: seq<Event>): Engine
    decreases |evs|
  {
    if |evs| == 0 then e else Run(Step(e, evs[0]), evs[1..])
  }

  /** A callback is pending only while polling. */
  ghost predicate Inv(e: Engine)
  {
    e.timer.Some? ==> e.isPolling
  }

  lemma StepPreservesInv(e: Engine, ev: Event)
    requires Inv(e)
    ensures Inv(Step(e, ev))
  {
  }

  /** Every reachable engine keeps the invariant: no callback is ever left
      pending on a stopped engine. */
  lemma {:induction false} RunPreservesInv(e: Engine, evs: seq<Event>)
    requires Inv(e)
    ensures Inv(Run(e, evs))
    decreases |evs|
  {
    if |evs| > 0 {
      StepPreservesInv(e, evs[0]);
      RunPreservesInv(Step(e, evs[0]), evs[1..]);
    }
  }

  /** Starting twice in a row is the same as starting once. */
  lemma StartIdempotent(e: Engine)
    ensures StartPolling(StartPolling(e)) == StartPolling(e)
    ensures StartPolling(e).inFlight <= e.inFlight + 1
  {
  }

  /** Two requests to schedule leave only the second one pending. */
  lemma ScheduleReplaces(e: Engine, d1: int, d2: int)
    requires e.isPolling
    ensures ScheduleNextUpdate(ScheduleNextUpdate(e, d1), d2).timer == Some(d2)
  {
  }

  /** After `stopPolling`, whatever cycles settle and whatever the clock does,
      no callback is scheduled and no new cycle starts until the next
      `startPolling`. Cycles already in flight may still replace the state. */
  lemma {:induction false} NoCycleAfterStop(e: Engine, evs: seq<Event>)
    requires forall i :: 0 <= i < |evs| ==> evs[i] != Start
    ensures var e' := Run(StopPolling(e), evs);
            !e'.isPolling && e'.timer.None? && e'.inFlight <= e.inFlight
    decreases |evs|
  {
    if |evs| > 0 {
      var s := StopPolling(e);
      var next := Step(s, evs[0]);
      assert next == StopPolling(next);
      assert forall i :: 0 <= i < |evs[1..]| ==> evs[1..][i] == evs[i + 1];
      NoCycleAfterStop(next, evs[1..]);
    }
  }

  /** A cycle that rejects before the state assignment neither replaces the
      state nor reschedules. */
  lemma AbortedCycleChangesNothing(e: Engine)
    requires e.inFlight > 0
    ensures CycleSettles(e, SE.Aborted).current == e.current
    ensures CycleSettles(e, SE.Aborted).timer == e.timer
  {
  }

  /** An engine with nothing pending and nothing in flight stays so over any
      events without a `startPolling`: nothing fires, nothing settles, the
      record is kept, and it is polling afterwards exactly when it was and no
      `stopPolling` came. */
  lemma {:induction false} IdleStaysIdle(e: Engine, evs: seq<Event>)
    requires e.timer.None? && e.inFlight == 0
    requires forall i :: 0 <= i < |evs| ==> evs[i] != Start
    ensures var e' := Run(e, evs);
            && e'.timer.None? && e'.inFlight == 0 && e'.current == e.current
            && (e'.isPolling <==> e.isPolling && forall i :: 0 <= i < |evs| ==> evs[i] != Stop)
    decreases |evs|
  {
    if |evs| > 0 {
      var next := Step(e, evs[0]);
      assert forall i :: 0 <= i < |evs[1..]| ==> evs[1..][i] == evs[i + 1];
      IdleStaysIdle(next, evs[1..]);
      if evs[0] != Stop {
        assert next == e;
      }
    }
  }

  /** The code never retries: when the only cycle of a polling engine rejects,
      no cycle ever starts again. `isPolling` stays set with nothing pending,
      so until a `stopPolling` every `startPolling` is a no-op as well. */
  lemma {:induction false} AbortStallsPolling(e: Engine, evs: seq<Event>)
    requires e.isPolling && e.timer.None? && e.inFlight == 1
    requires forall i :: 0 <= i < |evs| ==> evs[i] != Start && evs[i] != Stop
    ensures var e' := Run(CycleSettles(e, SE.Aborted), evs);
            && e'.isPolling && e'.timer.None? && e'.inFlight == 0 && e'.current == e.current
            && StartPolling(e') == e'
  {
    IdleStaysIdle(CycleSettles(e, SE.Aborted), evs);
  }
}
