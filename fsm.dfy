/**
 * The deployment state machine of fsm/fsm.go: two states, "closed" and
 * "running", and two events, "start" (closed to running) and "finish"
 * (running to closed), applied with looplab/fsm's rules.
 */
module Fsm {
  import opened Wrappers

  datatype State = Closed | Running
  {
    /** The state's name as looplab/fsm reports it from Current(). */
    function Name(): string
    {
      match this
      case Closed => "closed"
      case Running => "running"
    }
  }

  const StartEvent := "start"
  const FinishEvent := "finish"

  /**
   * One looplab/fsm event. A known event fired from a state outside its
   * source list is an InvalidEventError; an event name that is not in the
   * table is an UnknownEventError. Either way the state does not move.
   */
  function Transition(s: State, event: string): (r: Result<State>)
    ensures r.Ok? <==> (event == StartEvent && s == Closed) || (event == FinishEvent && s == Running)
    ensures r.Ok? && event == StartEvent ==> r.value == Running
    ensures r.Ok? && event == FinishEvent ==> r.value == Closed
  {
    if event == StartEvent || event == FinishEvent then
      if (event == StartEvent && s == Closed) || (event == FinishEvent && s == Running) then
        Ok(if event == StartEvent then Running else Closed)
      else
        Err(Message("event " + event + " inappropriate in current state " + s.Name()))
    else
      Err(Message("event " + event + " does not exist"))
  }

  /** Fires `events` in order and stops at the first refused one. */
  function Fire(s: State, events: seq<string>): Result<State>
    decreases |events|
  {
    if events == [] then Ok(s)
    else
      match Transition(s, events[0])
      case Ok(t) => Fire(t, events[1..])
      case Err(e) => Err(e)
  }

  /** The event expected at position i of a run that starts in s. */
  function Expected(s: State, i: nat): string
  {
    if (i % 2 == 0) == (s == Closed) then StartEvent else FinishEvent
  }

  /** Every event is the one that the alternation from s calls for. */
  ghost predicate Alternates(s: State, events: seq<string>)
  {
    forall i :: 0 <= i < |events| ==> events[i] == Expected(s, i)
  }

  /** The state reached after n accepted events from s. */
  function After(s: State, n: nat): State
  {
    if n % 2 == 0 then s else if s == Closed then Running else Closed
  }

  /**
   * A run of events is accepted in full exactly when it alternates
   * start/finish from the current state, and it then ends in the state the
   * parity of its length predicts.
   */
  lemma {:induction false} FireAlternates(s: State, events: seq<string>)
    ensures Fire(s, events).Ok? <==> Alternates(s, events)
    ensures Fire(s, events).Ok? ==> Fire(s, events).value == After(s, |events|)
    decreases |events|
  {
    if events != [] {
      var rest := events[1..];
      var t := if s == Closed then Running else Closed;
      FireAlternates(t, rest);
      if Transition(s, events[0]).Ok? {
        assert Transition(s, events[0]).value == t;
        assert Alternates(s, events) <==> Alternates(t, rest) by {
          forall i | 0 <= i < |rest|
            ensures Expected(s, i + 1) == Expected(t, i)
          {
          }
          if Alternates(t, rest) {
            forall i | 0 <= i < |events|
              ensures events[i] == Expected(s, i)
            {
              if i > 0 {
                assert events[i] == rest[i - 1];
                assert Expected(s, i) == Expected(t, i - 1);
              }
            }
          }
          if Alternates(s, events) {
            forall i | 0 <= i < |rest|
              ensures rest[i] == Expected(t, i)
            {
              assert rest[i] == events[i + 1];
            }
          }
        }
      } else {
        assert events[0] != Expected(s, 0);
      }
    }
  }

  /** From closed, no accepted run has two "start"s without a "finish" between them. */
  lemma NoDoubleStart(events: seq<string>, i: nat)
    requires Fire(Closed, events).Ok?
    requires i + 1 < |events| && events[i] == StartEvent
    ensures events[i + 1] == FinishEvent
  {
    FireAlternates(Closed, events);
    assert events[i] == Expected(Closed, i);
    assert events[i + 1] == Expected(Closed, i + 1);
  }

  /** "start" followed by "finish" brings a closed machine back to closed. */
  lemma StartThenFinish()
    ensures Fire(Closed, [StartEvent, FinishEvent]) == Ok(Closed)
  {
    assert [StartEvent, FinishEvent][1..] == [FinishEvent];
    assert [FinishEvent][1..] == [];
    assert Fire(Running, [FinishEvent]) == Fire(Closed, []);
  }

  /** The line the enter_state callback logs when `to` enters `dst`. */
  function EnterStateLine(to: string, dst: State): string
  {
    "the state changed " + to + " to " + dst.Name() + "\n"
  }

  /** fsm.go's Deploy: the target label and the machine's current state. */
  class Deploy {
    const to: string
    var current: State

    /** NewDeploy(to): the machine starts closed. */
    constructor (to: string)
      ensures this.to == to
      ensures current == Closed
    {
      this.to := to;
      current := Closed;
    }

    /** FSM.Current(): always one of the two names. */
    function Current(): (name: string)
      reads this
      ensures name == "closed" || name == "running"
      ensures name == "closed" <==> current == Closed
    {
      current.Name()
    }

    /**
     * FSM.Event(name). On an accepted event the state moves and the
     * enter_state callback logs one line, which is returned in `logged`; a
     * refused event leaves the state as it was. `to` never changes.
     */
    method Event(name: string) returns (err: Option<Error>, logged: Option<string>)
      modifies this
      ensures Transition(old(current), name).Ok? ==>
        current == Transition(old(current), name).value && err.None? &&
        logged == Some(EnterStateLine(to, current))
      ensures Transition(old(current), name).Err? ==>
        current == old(current) && err == Some(Transition(old(current), name).error) && logged.None?
    {
      match Transition(current, name)
      case Ok(s) =>
        current := s;
        err := None;
        logged := Some(EnterStateLine(to, s));
      case Err(e) =>
        err := Some(e);
        logged := None;
    }
  }
}
