/** The transition table, its lookups, and the event histories it accepts. */
module Events {
  import opened Objects

  // ---------------------------------------------------------------- lookups, for any table

  datatype EventDesc<+S, +E> = EventDesc(name: E, src: seq<S>, dst: S)

  /** Entry `d` takes the machine out of `state` on `event`. */
  predicate Leads<S(==), E(==)>(d: EventDesc<S, E>, state: S, event: E) {
    d.name == event && state in d.src
  }

  predicate Accepts<S(==), E(==)>(table: seq<EventDesc<S, E>>, state: S, event: E) {
    exists i :: 0 <= i < |table| && Leads(table[i], state, event)
  }

  /** Position of the first entry that leads out of `state` on `event`; the length if there is none. */
  function First<S(==), E(==)>(table: seq<EventDesc<S, E>>, state: S, event: E): (i: nat)
    ensures i <= |table|
    ensures forall k :: 0 <= k < i ==> !Leads(table[k], state, event)
    ensures i < |table| ==> Leads(table[i], state, event)
    ensures i < |table| <==> Accepts(table, state, event)
  {
    if table == [] then 0
    else if Leads(table[0], state, event) then 0
    else
      var rest := First(table[1..], state, event);
      assert forall k :: 1 <= k < |table| ==> table[k] == table[1..][k - 1];
      rest + 1
  }

  method ValidateEventTransition<S(==), E(==)>(table: seq<EventDesc<S, E>>, state: S, event: E)
    returns (ok: bool)
    ensures ok <==> Accepts(table, state, event)
  {
    for i := 0 to |table|
      invariant forall k :: 0 <= k < i ==> !Leads(table[k], state, event)
    {
      if table[i].name == event {
        for j := 0 to |table[i].src|
          invariant state !in table[i].src[..j]
        {
          if table[i].src[j] == state {
            assert Leads(table[i], state, event);
            return true;
          }
        }
      }
    }
    ok := false;
  }

  method GetDestinationState<S(==), E(==)>(table: seq<EventDesc<S, E>>, state: S, event: E)
    returns (dst: Option<S>)
    ensures dst.Some? <==> Accepts(table, state, event)
    ensures dst.Some? ==> dst.value == table[First(table, state, event)].dst
  {
    for i := 0 to |table|
      invariant forall k :: 0 <= k < i ==> !Leads(table[k], state, event)
    {
      if table[i].name == event {
        for j := 0 to |table[i].src|
          invariant state !in table[i].src[..j]
        {
          if table[i].src[j] == state {
            assert Leads(table[i], state, event);
            return Some(table[i].dst);
          }
        }
      }
    }
    dst := None;
  }

  /** The list of accepted events: each once, in the order of their first entries. */
  ghost predicate Lists<S(!new), E(!new)>(events: seq<E>, table: seq<EventDesc<S, E>>, state: S, bound: nat)
    requires bound <= |table|
  {
    && (forall e :: e in events <==> First(table, state, e) < bound)
    && (forall i, j :: 0 <= i < j < |events| ==> First(table, state, events[i]) < First(table, state, events[j]))
  }

  method GetValidEventsForState<S(==, !new), E(==, !new)>(table: seq<EventDesc<S, E>>, state: S)
    returns (events: seq<E>)
    ensures forall e :: e in events <==> Accepts(table, state, e)
    ensures forall i, j :: 0 <= i < j < |events| ==> First(table, state, events[i]) < First(table, state, events[j])
  {
    events := [];
    for i := 0 to |table|
      invariant Lists(events, table, state, i)
    {
      ghost var before := events;
      var matches := false;
      for j := 0 to |table[i].src|
        invariant matches <==> state in table[i].src[..j]
        invariant !matches
      {
        if table[i].src[j] == state {
          matches := true;
          break;
        }
      }
      var name := table[i].name;
      assert matches <==> Leads(table[i], state, name);
      if matches {
        var found := false;
        for k := 0 to |events|
          invariant found <==> name in events[..k]
          invariant !found
        {
          if events[k] == name {
            found := true;
            break;
          }
        }
        if !found {
          events := events + [name];
        }
      }
      forall e
        ensures e in events <==> First(table, state, e) < i + 1
      {
        assert e in events <==> e in before || (matches && e == name);
        assert Leads(table[i], state, e) ==> e == name;
      }
    }
  }

  // ---------------------------------------------------------------- this machine

  datatype State = Shutdown | StartingUp | Ready | ShuttingDown

  datatype Event = StartNode | ShutdownNode | JobCompleted | JobFailed | JobTimeout | ForceCleanup

  const TRANSITIONS: seq<EventDesc<State, Event>> := [
    EventDesc(StartNode, [Shutdown], StartingUp),
    EventDesc(ShutdownNode, [Ready], ShuttingDown),
    EventDesc(JobCompleted, [StartingUp], Ready),
    EventDesc(JobCompleted, [ShuttingDown], Shutdown),
    EventDesc(JobFailed, [StartingUp], Shutdown),
    EventDesc(JobFailed, [ShuttingDown], Ready),
    EventDesc(JobTimeout, [StartingUp], Shutdown),
    EventDesc(JobTimeout, [ShuttingDown], Ready),
    EventDesc(ForceCleanup, [StartingUp, ShuttingDown], Shutdown)
  ]

  predicate IsTransitional(s: State) { s == StartingUp || s == ShuttingDown }

  predicate Opens(e: Event) { e == StartNode || e == ShutdownNode }

  predicate Aborts(e: Event) { e == JobFailed || e == JobTimeout }

  /** The state reached from `s` by `e`, if the machine takes it. */
  function Next(s: State, e: Event): Option<State> {
    match (s, e)
    case (Shutdown, StartNode) => Some(StartingUp)
    case (Ready, ShutdownNode) => Some(ShuttingDown)
    case (StartingUp, JobCompleted) => Some(Ready)
    case (ShuttingDown, JobCompleted) => Some(Shutdown)
    case (StartingUp, JobFailed) => Some(Shutdown)
    case (ShuttingDown, JobFailed) => Some(Ready)
    case (StartingUp, JobTimeout) => Some(Shutdown)
    case (ShuttingDown, JobTimeout) => Some(Ready)
    case (StartingUp, ForceCleanup) => Some(Shutdown)
    case (ShuttingDown, ForceCleanup) => Some(Shutdown)
    case _ => None
  }

  /** `Next` is the table, and the table leaves no choice: entries that lead out of the same
      state on the same event agree on where to. */
  lemma NextIsTheTable(s: State, e: Event)
    ensures Next(s, e).Some? <==> Accepts(TRANSITIONS, s, e)
    ensures forall i :: 0 <= i < |TRANSITIONS| && Leads(TRANSITIONS[i], s, e) ==>
              Next(s, e) == Some(TRANSITIONS[i].dst)
  {
    forall i | 0 <= i < |TRANSITIONS| && Leads(TRANSITIONS[i], s, e)
      ensures Next(s, e) == Some(TRANSITIONS[i].dst)
    {
      if i < 4 {
      } else if i < 8 {
      } else {
      }
    }
    if Next(s, e).Some? {
      var i := match e
        case StartNode => 0
        case ShutdownNode => 1
        case JobCompleted => if s == StartingUp then 2 else 3
        case JobFailed => if s == StartingUp then 4 else 5
        case JobTimeout => if s == StartingUp then 6 else 7
        case ForceCleanup => 8;
      assert Leads(TRANSITIONS[i], s, e);
    }
  }

  /** The state after a whole history; None if some event of it is refused. */
  function After(s: State, history: seq<Event>): Option<State>
    decreases |history|
  {
    if history == [] then Some(s)
    else if Next(s, history[0]).None? then None
    else After(Next(s, history[0]).value, history[1..])
  }

  // What a monitor's verdict may do to a state: it closes an open operation, and nothing else accepts it.
  lemma VerdictsClose(s: State, e: Event)
    requires e in {JobCompleted, JobFailed, JobTimeout}
    ensures Next(s, e).Some? <==> IsTransitional(s)
    ensures Next(s, e).Some? ==> !IsTransitional(Next(s, e).value)
  {
  }

  lemma {:induction false} AfterOneMore(s: State, history: seq<Event>, e: Event)
    requires After(s, history).Some?
    ensures After(s, history + [e]) == Next(After(s, history).value, e)
    decreases |history|
  {
    if history == [] {
      assert [e][1..] == [];
    } else {
      AfterOneMore(Next(s, history[0]).value, history[1..], e);
      assert (history + [e])[1..] == history[1..] + [e];
    }
  }

  /** From a stable start, accepted events open and close operations in strict alternation,
      and an operation is open exactly in a transitional state. */
  lemma {:induction false} StrictAlternation(s: State, history: seq<Event>)
    requires !IsTransitional(s) && After(s, history).Some?
    ensures forall i :: 0 <= i < |history| ==> (Opens(history[i]) <==> i % 2 == 0)
    ensures IsTransitional(After(s, history).value) <==> |history| % 2 == 1
    decreases |history|
  {
    if |history| >= 2 {
      var mid := Next(s, history[0]).value;
      assert history[1..][0] == history[1] && history[1..][1..] == history[2..];
      StrictAlternation(Next(mid, history[1]).value, history[2..]);
      forall i | 0 <= i < |history|
        ensures Opens(history[i]) <==> i % 2 == 0
      {
        if i >= 2 {
          assert history[i] == history[2..][i - 2];
        }
      }
    } else if |history| == 1 {
      assert history[1..] == [];
    }
  }

  /** The history without the operations that failed or timed out. */
  function Committed(history: seq<Event>): seq<Event> {
    if |history| < 2 then history
    else if Aborts(history[1]) then Committed(history[2..])
    else history[..2] + Committed(history[2..])
  }

  /** Operations that failed or timed out leave no trace in the state. */
  lemma {:induction false} AbortedOperationsVanish(s: State, history: seq<Event>)
    requires !IsTransitional(s) && After(s, history).Some?
    ensures After(s, Committed(history)) == After(s, history)
    ensures forall i :: 0 <= i < |Committed(history)| ==> !Aborts(Committed(history)[i])
    decreases |history|
  {
    if |history| >= 2 {
      var mid := Next(s, history[0]).value;
      assert history[1..][0] == history[1] && history[1..][1..] == history[2..];
      var t := Next(mid, history[1]).value;
      AbortedOperationsVanish(t, history[2..]);
      if !Aborts(history[1]) {
        var rest := Committed(history[2..]);
        var c := history[..2] + rest;
        assert c[0] == history[0] && c[1..][0] == history[1] && c[1..][1..] == rest;
      }
    }
  }
}
