/**
 * The player's finite-state machine: four states, seven events and a closed
 * transition table (src/machines/playerStateMachine.js). The lookups are
 * pure functions; a machine instance is a class whose `Send` and `Reset`
 * overwrite the current state and whose `Send` notifies every subscribed
 * listener once, in subscription order.
 */
module PlayerStateMachine {
  import opened Wrappers
  import Seqs

  datatype State = Idle | Countdown | Playing | Paused
  datatype Event = Play | PlayImmediate | Pause | Resume | Stop | CountdownTick | CountdownComplete

  /** The string value each state has in `PlayerStates`. */
  function StateName(s: State): string {
    match s
    case Idle => "idle"
    case Countdown => "countdown"
    case Playing => "playing"
    case Paused => "paused"
  }

  /** The string value each event has in `PlayerEvents`. */
  function EventName(e: Event): string {
    match e
    case Play => "PLAY"
    case PlayImmediate => "PLAY_IMMEDIATE"
    case Pause => "PAUSE"
    case Resume => "RESUME"
    case Stop => "STOP"
    case CountdownTick => "COUNTDOWN_TICK"
    case CountdownComplete => "COUNTDOWN_COMPLETE"
  }

  /** Which state, if any, a state string names: the inverse of `StateName`. */
  function ParseState(name: string): (r: Option<State>)
    ensures r.Some? ==> StateName(r.value) == name
    ensures r.None? ==> forall s: State :: StateName(s) != name
  {
    if name == "idle" then Some(Idle)
    else if name == "countdown" then Some(Countdown)
    else if name == "playing" then Some(Playing)
    else if name == "paused" then Some(Paused)
    else None
  }

  /** Which event, if any, an event string names: the inverse of `EventName`. */
  function ParseEvent(name: string): (r: Option<Event>)
    ensures r.Some? ==> EventName(r.value) == name
    ensures r.None? ==> forall e: Event :: EventName(e) != name
  {
    if name == "PLAY" then Some(Play)
    else if name == "PLAY_IMMEDIATE" then Some(PlayImmediate)
    else if name == "PAUSE" then Some(Pause)
    else if name == "RESUME" then Some(Resume)
    else if name == "STOP" then Some(Stop)
    else if name == "COUNTDOWN_TICK" then Some(CountdownTick)
    else if name == "COUNTDOWN_COMPLETE" then Some(CountdownComplete)
    else None
  }

  /** The `transitions` table: the target of `e` from `s`, or `None` when the pair is not listed. */
  function NextState(s: State, e: Event): (r: Option<State>)
    ensures r == Some(Idle) <==> e == Stop && s != Idle
    ensures r == Some(Countdown) <==> (s == Idle && e == Play) || (s == Countdown && e == CountdownTick)
    ensures r == Some(Playing) <==>
              (s == Idle && e == PlayImmediate) || (s == Countdown && e == CountdownComplete) || (s == Paused && e == Resume)
    ensures r == Some(Paused) <==> s == Playing && e == Pause
  {
    match (s, e)
    case (Idle, Play) => Some(Countdown)
    case (Idle, PlayImmediate) => Some(Playing)
    case (Countdown, Stop) => Some(Idle)
    case (Countdown, CountdownTick) => Some(Countdown)
    case (Countdown, CountdownComplete) => Some(Playing)
    case (Playing, Stop) => Some(Idle)
    case (Playing, Pause) => Some(Paused)
    case (Paused, Resume) => Some(Playing)
    case (Paused, Stop) => Some(Idle)
    case _ => None
  }

  /** The keys of one row of the table, in the order the source lists them (`Object.keys`). */
  function EventsFrom(s: State): (es: seq<Event>)
    ensures forall e :: e in es <==> NextState(s, e).Some?
    ensures forall i, j :: 0 <= i < j < |es| ==> es[i] != es[j]
  {
    match s
    case Idle => [Play, PlayImmediate]
    case Countdown => [Stop, CountdownTick, CountdownComplete]
    case Playing => [Stop, Pause]
    case Paused => [Resume, Stop]
  }

  /** A transition from a known state on an event given by its string; unknown event strings are rejected. */
  function Lookup(s: State, eventName: string): (r: Option<State>)
    ensures ParseEvent(eventName).None? ==> r.None?
    ensures ParseEvent(eventName).Some? ==> r == NextState(s, ParseEvent(eventName).value)
    ensures r.Some? ==> ParseEvent(eventName).Some? && NextState(s, ParseEvent(eventName).value) == r
  {
    match ParseEvent(eventName)
    case None => None
    case Some(e) => NextState(s, e)
  }

  /**
   * `getNextState`: a state or event name the table does not define gives
   * `None` (the source's `null`). Names that `Object.prototype` or the
   * values found there define, as state names or as event names, are not
   * modelled; they are treated as unknown here.
   */
  function GetNextState(stateName: string, eventName: string): (r: Option<State>)
    ensures ParseState(stateName).None? ==> r.None?
    ensures ParseEvent(eventName).None? ==> r.None?
    ensures forall s: State, e: Event :: stateName == StateName(s) && eventName == EventName(e) ==> r == NextState(s, e)
  {
    match ParseState(stateName)
    case None => None
    case Some(s) => Lookup(s, eventName)
  }

  /** `canTransition`: holds exactly for the event strings `getAvailableEvents` lists for the state. */
  function CanTransition(stateName: string, eventName: string): (ok: bool)
    ensures ok <==> GetNextState(stateName, eventName).Some?
    ensures ok <==> exists e :: e in AvailableEvents(stateName) && EventName(e) == eventName
  {
    AvailableEventsExact(stateName);
    GetNextState(stateName, eventName).Some?
  }

  /** `getAvailableEvents`: the events with a defined transition, `[]` for an unknown state. */
  function AvailableEvents(stateName: string): (es: seq<Event>)
    ensures ParseState(stateName).None? ==> es == []
  {
    match ParseState(stateName)
    case None => []
    case Some(s) => EventsFrom(s)
  }

  /** The listed events are exactly those with a transition, each listed once. */
  lemma AvailableEventsExact(stateName: string)
    ensures forall e :: e in AvailableEvents(stateName) <==> GetNextState(stateName, EventName(e)).Some?
    ensures forall i, j :: 0 <= i < j < |AvailableEvents(stateName)| ==>
              AvailableEvents(stateName)[i] != AvailableEvents(stateName)[j]
  {
    forall e: Event ensures ParseEvent(EventName(e)) == Some(e) {
      ParseEventName(e);
    }
  }

  lemma ParseEventName(e: Event)
    ensures ParseEvent(EventName(e)) == Some(e)
  {
  }

  /**
   * The table has exactly nine entries: the rows list 2 + 3 + 2 + 2 distinct
   * events, and an event is listed in a row iff the table defines it there.
   */
  lemma {:induction false} NineTransitions()
    ensures |EventsFrom(Idle)| + |EventsFrom(Countdown)| + |EventsFrom(Playing)| + |EventsFrom(Paused)| == 9
    ensures forall s, e :: e in EventsFrom(s) <==> NextState(s, e).Some?
  {
  }

  /** STOP returns every active state to Idle and is rejected in Idle. */
  lemma StopReturnsToIdle(s: State)
    ensures NextState(s, Stop) == if s == Idle then None else Some(Idle)
  {
  }

  /** Idle is left only by PLAY or PLAY_IMMEDIATE. */
  lemma IdleExits(e: Event)
    ensures NextState(Idle, e).Some? <==> e == Play || e == PlayImmediate
  {
  }

  type ListenerId = nat

  /** The argument a listener receives: `{ prevState, event, nextState }`. */
  datatype Change = Change(prevState: State, event: Event, nextState: State)

  /** One listener call, recorded in the order it happened. */
  datatype Notification = Notification(listener: ListenerId, change: Change)

  /** The calls `listeners.forEach(fn => fn(change))` makes, in iteration order. */
  function NotifyAll(ls: seq<ListenerId>, c: Change): (ns: seq<Notification>)
    ensures |ns| == |ls|
    ensures forall i :: 0 <= i < |ls| ==> ns[i] == Notification(ls[i], c)
  {
    if ls == [] then [] else NotifyAll(ls[..|ls| - 1], c) + [Notification(ls[|ls| - 1], c)]
  }

  /** `createPlayerStateMachine`: the closed-over `currentState` and `listeners` set. */
  class Machine {
    const initial: State
    var current: State
    /** The `Set` of listeners, in insertion order (the order `forEach` visits them). */
    var listeners: seq<ListenerId>
    /** Every listener call made so far. */
    var notifications: seq<Notification>

    ghost predicate Valid()
      reads this
    {
      forall i, j :: 0 <= i < j < |listeners| ==> listeners[i] != listeners[j]
    }

    constructor (initialState: State)
      ensures Valid()
      ensures initial == initialState && current == initialState
      ensures listeners == [] && notifications == []
    {
      initial := initialState;
      current := initialState;
      listeners := [];
      notifications := [];
    }

    /** `getState`: the name of the current state. */
    function GetState(): (name: string)
      reads this
      ensures ParseState(name) == Some(current)
    {
      StateName(current)
    }

    /** `canSend`: whether `Send` would accept the event in the current state. */
    function CanSend(eventName: string): (ok: bool)
      reads this
      ensures ok <==> CanTransition(StateName(current), eventName)
    {
      assert ParseState(StateName(current)) == Some(current);
      Lookup(current, eventName).Some?
    }

    /**
     * `send`: on a listed event, move to the table's target, notify each
     * listener once and answer true; otherwise answer false and change nothing.
     */
    method Send(eventName: string) returns (ok: bool)
      requires Valid()
      modifies this
      ensures Valid() && listeners == old(listeners)
      ensures ok <==> Lookup(old(current), eventName).Some?
      ensures ok ==> current == Lookup(old(current), eventName).value
      ensures ok ==>
        notifications == old(notifications) + NotifyAll(listeners, Change(old(current), ParseEvent(eventName).value, current))
      ensures !ok ==> current == old(current) && notifications == old(notifications)
    {
      var next := Lookup(current, eventName);
      if next.Some? {
        var change := Change(current, ParseEvent(eventName).value, next.value);
        current := next.value;
        var i := 0;
        while i < |listeners|
          invariant 0 <= i <= |listeners|
          invariant listeners == old(listeners) && current == next.value
          invariant notifications == old(notifications) + NotifyAll(listeners[..i], change)
        {
          assert listeners[..i + 1][..i] == listeners[..i];
          notifications := notifications + [Notification(listeners[i], change)];
          i := i + 1;
        }
        assert listeners[..i] == listeners;
        ok := true;
      } else {
        ok := false;
      }
    }

    /** `subscribe`: add a listener to the set (no effect if already present). */
    method Subscribe(fn: ListenerId)
      requires Valid()
      modifies this
      ensures Valid()
      ensures listeners == if fn in old(listeners) then old(listeners) else old(listeners) + [fn]
      ensures current == old(current) && notifications == old(notifications)
    {
      if fn !in listeners {
        listeners := listeners + [fn];
      }
    }

    /** The function `subscribe` returns: remove the listener from the set. */
    method Unsubscribe(fn: ListenerId)
      requires Valid()
      modifies this
      ensures Valid()
      ensures fn !in listeners
      ensures forall l :: l in listeners <==> l in old(listeners) && l != fn
      ensures listeners == Without(old(listeners), fn)
      ensures Seqs.IsSubsequence(listeners, old(listeners))
      ensures current == old(current) && notifications == old(notifications)
    {
      listeners := Without(listeners, fn);
    }

    /** `reset`: back to the initial state whatever happened before; listeners are not told. */
    method Reset()
      requires Valid()
      modifies this
      ensures Valid()
      ensures current == initial
      ensures listeners == old(listeners) && notifications == old(notifications)
    {
      current := initial;
    }
  }

  /** `Set.prototype.delete` on the listener list: every other listener stays, in order. */
  function Without(ls: seq<ListenerId>, fn: ListenerId): (r: seq<ListenerId>)
    ensures forall l :: l in r <==> l in ls && l != fn
    ensures Seqs.IsSubsequence(r, ls)
    ensures Seqs.NoDuplicates(ls) ==> Seqs.NoDuplicates(r)
  {
    var keep := (l: ListenerId) => l != fn;
    forall l ensures l in Seqs.Filter(keep, ls) <==> l in ls && l != fn {
      Seqs.FilterMembership(keep, ls, l);
    }
    Seqs.FilterIsSubsequence(keep, ls);
    Seqs.FilterKeepsDistinct(keep, ls);
    Seqs.Filter(keep, ls)
  }
}
