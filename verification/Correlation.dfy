/** Correlating engine statistics, which arrive by request id in another context, with the trace that asked for them. */
module Correlation {
  import opened Common
  import opened TraceEvents
  import opened RequestTraces
  import opened EngineStats

  type RequestId = string

  // The generation that a request id currently stands for.
  datatype Handle = Handle(trace: nat, gen: nat, start: int)

  // One running generate call; untraced calls have no handle.
  datatype Call = Call(id: RequestId, handle: Option<Handle>)

  datatype State = State(active: map<RequestId, Handle>, calls: map<nat, Call>, traces: map<nat, Trace>)

  datatype Event =
    | Begin(call: nat, id: RequestId, owner: Option<nat>, t: real)
    | Stats(id: RequestId, stat: Stat, raw: Raw, at: Readings)
    | Close(call: nat, t: real)
    | Measure(trace: nat, name: Name, started: real, t: real)

  function HandleFor(s: State, k: nat, t: real): Handle
    requires k in s.traces
  {
    Handle(k, s.traces[k].nextId, NowNs(s.traces[k], t))
  }

  function Begun(s: State, call: nat, id: RequestId, owner: Option<nat>, t: real): State {
    if owner.Some? && owner.value in s.traces then
      var k := owner.value;
      var h := HandleFor(s, k, t);
      State(s.active[id := h], s.calls[call := Call(id, Some(h))], s.traces[k := BeginGeneration(s.traces[k], t)])
    else s.(calls := s.calls[call := Call(id, None)])
  }

  function Informed(s: State, id: RequestId, stat: Stat, raw: Raw, at: Readings): State {
    if id in s.active && s.active[id].trace in s.traces then
      var h := s.active[id];
      s.(traces := s.traces[h.trace := Absorb(s.traces[h.trace], h.gen, h.start, stat, raw, at)])
    else s
  }

  // Closing stamps the call's own generation, and drops whatever its id stands for.
  function Closed(s: State, call: nat, t: real): State {
    if call !in s.calls then s
    else
      var c := s.calls[call];
      var traces :=
        if c.handle.Some? && c.handle.value.trace in s.traces then
          s.traces[c.handle.value.trace := EndGeneration(s.traces[c.handle.value.trace], c.handle.value.gen, t)]
        else s.traces;
      State(s.active - {c.id}, s.calls - {call}, traces)
  }

  // A timed call of the API process, on the trace of the request it serves.
  function Measured(s: State, k: nat, name: Name, started: real, t: real): State {
    if k in s.traces then s.(traces := s.traces[k := TimedCall(s.traces[k], name, started, t)]) else s
  }

  function Next(s: State, e: Event): State {
    match e
    case Begin(call, id, owner, t) => Begun(s, call, id, owner, t)
    case Stats(id, stat, raw, at) => Informed(s, id, stat, raw, at)
    case Close(call, t) => Closed(s, call, t)
    case Measure(k, name, started, t) => Measured(s, k, name, started, t)
  }

  function Run(traces: map<nat, Trace>, h: seq<Event>): State {
    if h == [] then State(map[], map[], traces) else Next(Run(traces, h[..|h| - 1]), h[|h| - 1])
  }

  /** The patched engine: generate calls open and close entries, and statistics look them up. */
  class Adapter {
    const traces: map<nat, RequestTrace>
    var active: map<RequestId, Handle>
    var calls: map<nat, Call>

    ghost predicate Valid()
      reads this
    {
      && (forall j, k :: j in traces && k in traces && j != k ==> traces[j] != traces[k])
      && (forall id :: id in active ==> active[id].trace in traces)
      && (forall c :: c in calls && calls[c].handle.Some? ==> calls[c].handle.value.trace in traces)
    }

    ghost function View(): State
      reads this, set k | k in traces :: traces[k]
    {
      State(active, calls, map k | k in traces :: traces[k].View())
    }

    constructor (traces: map<nat, RequestTrace>)
      requires forall j, k :: j in traces && k in traces && j != k ==> traces[j] != traces[k]
      ensures Valid() && this.traces == traces && active == map[] && calls == map[]
    {
      this.traces, active, calls := traces, map[], map[];
    }

    method ObserveBegin(call: nat, id: RequestId, owner: Option<nat>, t: real)
      requires Valid()
      modifies this, if owner.Some? && owner.value in traces then {traces[owner.value]} else {}
      ensures Valid() && View() == Begun(old(View()), call, id, owner, t)
    {
      if owner.Some? && owner.value in traces {
        BeginTraced(call, id, owner.value, t);
      } else {
        calls := calls[call := Call(id, None)];
      }
    }

    // Opens a generation on one trace object; the others, being other objects, keep their view.
    method BeginOn(k: nat, t: real) returns (gen: nat, start: int)
      requires Valid() && k in traces
      modifies traces[k]
      ensures gen == old(View()).traces[k].nextId && start == NowNs(old(View()).traces[k], t)
      ensures View() == old(View()).(traces := old(View()).traces[k := BeginGeneration(old(View()).traces[k], t)])
    {
      gen, start := traces[k].Begin(t);
      assert forall j :: j in traces && j != k ==> traces[j].View() == old(traces[j].View());
    }

    method Register(call: nat, id: RequestId, h: Handle)
      requires Valid() && h.trace in traces
      modifies this
      ensures Valid()
      ensures View() == State(old(active)[id := h], old(calls)[call := Call(id, Some(h))], old(View()).traces)
    {
      active, calls := active[id := h], calls[call := Call(id, Some(h))];
      assert View().traces == old(View()).traces;
    }

    method BeginTraced(call: nat, id: RequestId, k: nat, t: real)
      requires Valid() && k in traces
      modifies this, traces[k]
      ensures Valid() && View() == Begun(old(View()), call, id, Some(k), t)
    {
      var gen, start := BeginOn(k, t);
      Register(call, id, Handle(k, gen, start));
    }

    method ObserveStats(id: RequestId, stat: Stat, raw: Raw, at: Readings)
      requires Valid()
      modifies if id in active then {traces[active[id].trace]} else {}
      ensures Valid() && View() == Informed(old(View()), id, stat, raw, at)
    {
      if id in active {
        AbsorbOn(active[id], stat, raw, at);
      }
    }

    method AbsorbOn(h: Handle, stat: Stat, raw: Raw, at: Readings)
      requires Valid() && h.trace in traces
      modifies traces[h.trace]
      ensures var before := old(View());
              View() == before.(traces := before.traces[h.trace := Absorb(before.traces[h.trace], h.gen, h.start, stat, raw, at)])
    {
      AbsorbInto(traces[h.trace], h.gen, h.start, stat, raw, at);
      assert forall j :: j in traces && j != h.trace ==> traces[j].View() == old(traces[j].View());
    }

    method ObserveClose(call: nat, t: real)
      requires Valid()
      modifies this, if call in calls && calls[call].handle.Some? then {traces[calls[call].handle.value.trace]} else {}
      ensures Valid() && View() == Closed(old(View()), call, t)
    {
      if call in calls {
        var c := calls[call];
        if c.handle.Some? {
          EndOn(c.handle.value.trace, c.handle.value.gen, t);
        }
        ghost var mid := View().traces;
        active := active - {c.id};
        calls := calls - {call};
        assert View().traces == mid;
      }
    }

    method ObserveCall(k: nat, name: Name, started: real, t: real)
      requires Valid()
      modifies if k in traces then {traces[k]} else {}
      ensures Valid() && View() == Measured(old(View()), k, name, started, t)
    {
      if k in traces {
        MeasureOn(k, name, started, t);
      }
    }

    method MeasureOn(k: nat, name: Name, started: real, t: real)
      requires Valid() && k in traces
      modifies traces[k]
      ensures View() == old(View()).(traces := old(View()).traces[k := TimedCall(old(View()).traces[k], name, started, t)])
    {
      traces[k].RecordTimedCall(name, started, t);
      assert forall j :: j in traces && j != k ==> traces[j].View() == old(traces[j].View());
    }

    method EndOn(k: nat, gen: nat, t: real)
      requires Valid() && k in traces
      modifies traces[k]
      ensures View() == old(View()).(traces := old(View()).traces[k := EndGeneration(old(View()).traces[k], gen, t)])
    {
      traces[k].End(gen, t);
      assert forall j :: j in traces && j != k ==> traces[j].View() == old(traces[j].View());
    }
  }

  // ---------- Whose event is it ----------

  datatype Flight = Flight(id: RequestId, owner: Option<nat>)

  function FlightsAfter(flights: map<nat, Flight>, e: Event): map<nat, Flight> {
    match e
    case Begin(call, id, owner, _) => flights[call := Flight(id, owner)]
    case Stats(_, _, _, _) => flights
    case Close(call, _) => flights - {call}
    case Measure(_, _, _, _) => flights
  }

  // The generate calls that have begun and not yet closed, read off the history alone.
  function Flights(h: seq<Event>): map<nat, Flight> {
    if h == [] then map[] else FlightsAfter(Flights(h[..|h| - 1]), h[|h| - 1])
  }

  ghost predicate InFlight(flights: map<nat, Flight>, id: RequestId) {
    exists c :: c in flights && flights[c].id == id
  }

  // The id is in flight for trace k, and for anything else.
  ghost predicate Ours(flights: map<nat, Flight>, id: RequestId, k: nat) {
    exists c :: c in flights && flights[c].id == id && flights[c].owner == Some(k)
  }

  ghost predicate Theirs(flights: map<nat, Flight>, id: RequestId, k: nat) {
    exists c :: c in flights && flights[c].id == id && flights[c].owner != Some(k)
  }

  // A call begins once, and a traced call belongs to a known trace.
  ghost predicate ProperBegin(flights: map<nat, Flight>, traces: map<nat, Trace>, e: Event) {
    e.Begin? ==> e.call !in flights && (e.owner.Some? ==> e.owner.value in traces)
  }

  ghost predicate Proper(traces: map<nat, Trace>, h: seq<Event>) {
    h == [] || (Proper(traces, h[..|h| - 1]) && ProperBegin(Flights(h[..|h| - 1]), traces, h[|h| - 1]))
  }

  // A call of trace k takes no id that runs for another, nor another call one that runs for k.
  ghost predicate BeginsApart(flights: map<nat, Flight>, e: Event, k: nat) {
    e.Begin? ==> if e.owner == Some(k) then !Theirs(flights, e.id, k) else !Ours(flights, e.id, k)
  }

  ghost predicate Apart(h: seq<Event>, k: nat) {
    h == [] || (Apart(h[..|h| - 1], k) && BeginsApart(Flights(h[..|h| - 1]), h[|h| - 1], k))
  }

  ghost predicate Mine(flights: map<nat, Flight>, e: Event, k: nat) {
    match e
    case Begin(_, _, owner, _) => owner == Some(k)
    case Stats(id, _, _, _) => Ours(flights, id, k)
    case Close(call, _) => call in flights && flights[call].owner == Some(k)
    case Measure(trace, _, _, _) => trace == k
  }

  // The events of one trace, in order.
  ghost function OwnEvents(h: seq<Event>, k: nat): seq<Event> {
    if h == [] then []
    else
      var n := |h| - 1;
      OwnEvents(h[..n], k) + if Mine(Flights(h[..n]), h[n], k) then [h[n]] else []
  }

  // ---------- The state follows the history ----------

  ghost predicate Follows(s: State, flights: map<nat, Flight>, traces: map<nat, Trace>) {
    && s.traces.Keys == traces.Keys && s.calls.Keys == flights.Keys
    && (forall c :: c in s.calls ==> CallFollows(s, c, flights[c]))
    && (forall id :: id in s.active ==> Held(s, id))
  }

  ghost predicate CallFollows(s: State, c: nat, f: Flight)
    requires c in s.calls
  {
    var call := s.calls[c];
    && call.id == f.id
    && (call.handle.Some? <==> f.owner.Some?)
    && (call.handle.Some? ==> call.handle.value.trace == f.owner.value && call.handle.value.trace in s.traces)
  }

  ghost predicate Held(s: State, id: RequestId)
    requires id in s.active
  {
    exists c :: c in s.calls && s.calls[c].id == id && s.calls[c].handle == Some(s.active[id])
  }

  lemma FollowsTraceChange(s: State, flights: map<nat, Flight>, traces: map<nat, Trace>, now: map<nat, Trace>)
    requires Follows(s, flights, traces) && now.Keys == s.traces.Keys
    ensures Follows(s.(traces := now), flights, traces)
  {
  }

  lemma FollowsOpen(s: State, flights: map<nat, Flight>, traces: map<nat, Trace>, call: nat, id: RequestId,
                    handle: Option<Handle>)
    requires Follows(s, flights, traces) && call !in flights
    requires handle.Some? ==> handle.value.trace in s.traces
    ensures var owner := if handle.Some? then Some(handle.value.trace) else None;
            var active := if handle.Some? then s.active[id := handle.value] else s.active;
            Follows(State(active, s.calls[call := Call(id, handle)], s.traces), flights[call := Flight(id, owner)], traces)
  {
    var active := if handle.Some? then s.active[id := handle.value] else s.active;
    var s' := State(active, s.calls[call := Call(id, handle)], s.traces);
    forall c | c in s.calls
      ensures CallFollows(s', c, flights[c])
    {
      assert CallFollows(s, c, flights[c]);
    }
    forall i | i in s'.active
      ensures Held(s', i)
    {
      if i == id && handle.Some? {
        assert s'.calls[call].id == i;
      } else {
        assert Held(s, i);
        var c :| c in s.calls && s.calls[c].id == i && s.calls[c].handle == Some(s.active[i]);
        assert c in s'.calls && s'.calls[c] == s.calls[c];
      }
    }
  }

  lemma FollowsClose(s: State, flights: map<nat, Flight>, traces: map<nat, Trace>, call: nat)
    requires Follows(s, flights, traces) && call in s.calls
    ensures Follows(State(s.active - {s.calls[call].id}, s.calls - {call}, s.traces), flights - {call}, traces)
  {
    var s' := State(s.active - {s.calls[call].id}, s.calls - {call}, s.traces);
    forall i | i in s'.active
      ensures Held(s', i)
    {
      assert Held(s, i);
      var c :| c in s.calls && s.calls[c].id == i && s.calls[c].handle == Some(s.active[i]);
      assert c in s'.calls;
    }
    forall c | c in s'.calls ensures CallFollows(s', c, flights[c]) { assert CallFollows(s, c, flights[c]); }
  }

  // The trace map after an event; its keys never change.
  function TracesAfter(s: State, e: Event): map<nat, Trace> { Next(s, e).traces }

  lemma KeysStay(s: State, flights: map<nat, Flight>, traces: map<nat, Trace>, e: Event)
    requires Follows(s, flights, traces)
    ensures TracesAfter(s, e).Keys == s.traces.Keys
  {
  }

  lemma FollowsStep(s: State, flights: map<nat, Flight>, traces: map<nat, Trace>, e: Event)
    requires Follows(s, flights, traces) && ProperBegin(flights, traces, e)
    ensures Follows(Next(s, e), FlightsAfter(flights, e), traces)
  {
    var now := TracesAfter(s, e);
    KeysStay(s, flights, traces, e);
    FollowsTraceChange(s, flights, traces, now);
    var r := s.(traces := now);
    match e
    case Begin(call, id, owner, t) =>
      var handle := if owner.Some? then Some(HandleFor(s, owner.value, t)) else None;
      FollowsOpen(r, flights, traces, call, id, handle);
    case Stats(_, _, _, _) =>
    case Close(call, t) =>
      if call in s.calls {
        FollowsClose(r, flights, traces, call);
      } else {
        assert flights - {call} == flights;
      }
    case Measure(_, _, _, _) =>
  }

  lemma {:induction false} RunFollows(traces: map<nat, Trace>, h: seq<Event>)
    requires Proper(traces, h)
    ensures Follows(Run(traces, h), Flights(h), traces)
  {
    if h == [] {
    } else {
      var n := |h| - 1;
      RunFollows(traces, h[..n]);
      FollowsStep(Run(traces, h[..n]), Flights(h[..n]), traces, h[n]);
    }
  }

  lemma {:induction false} FlightsApart(h: seq<Event>, k: nat, id: RequestId)
    requires Apart(h, k)
    ensures !(Ours(Flights(h), id, k) && Theirs(Flights(h), id, k))
  {
    if h == [] {
    } else {
      var n := |h| - 1;
      FlightsApart(h[..n], k, id);
    }
  }

  // ---------- Non-interference ----------

  // State s seen from trace k is state r.
  ghost predicate SeenFrom(s: State, r: State, k: nat) {
    && k in s.traces && k in r.traces && s.traces[k] == r.traces[k]
    && (forall id :: id in r.active <==> id in s.active && s.active[id].trace == k)
    && (forall id :: id in r.active ==> r.active[id] == s.active[id])
    && (forall c :: c in r.calls <==> c in s.calls && s.calls[c].handle.Some? && s.calls[c].handle.value.trace == k)
    && (forall c :: c in r.calls ==> r.calls[c] == s.calls[c])
  }

  // Whoever the entry of an id stands for has a running call of that id.
  lemma ActiveIsInFlight(s: State, flights: map<nat, Flight>, traces: map<nat, Trace>, id: RequestId, k: nat)
    requires Follows(s, flights, traces) && id in s.active
    ensures if s.active[id].trace == k then Ours(flights, id, k) else Theirs(flights, id, k)
  {
    assert Held(s, id);
    var c :| c in s.calls && s.calls[c].id == id && s.calls[c].handle == Some(s.active[id]);
    assert CallFollows(s, c, flights[c]);
  }

  lemma OwnBegin(s: State, r: State, e: Event, k: nat)
    requires SeenFrom(s, r, k) && e.Begin? && e.owner == Some(k)
    ensures SeenFrom(Next(s, e), Next(r, e), k)
  {
  }

  lemma OwnStats(s: State, r: State, e: Event, k: nat)
    requires SeenFrom(s, r, k) && e.Stats? && (e.id in s.active ==> s.active[e.id].trace == k)
    ensures SeenFrom(Next(s, e), Next(r, e), k)
  {
  }

  lemma OwnClose(s: State, r: State, e: Event, k: nat)
    requires SeenFrom(s, r, k) && e.Close?
    requires e.call in s.calls && s.calls[e.call].handle.Some? && s.calls[e.call].handle.value.trace == k
    ensures SeenFrom(Next(s, e), Next(r, e), k)
  {
  }

  lemma OwnMeasure(s: State, r: State, e: Event, k: nat)
    requires SeenFrom(s, r, k) && e.Measure? && e.trace == k
    ensures SeenFrom(Next(s, e), Next(r, e), k)
  {
  }

  lemma {:induction false} OwnStep(s: State, r: State, flights: map<nat, Flight>, traces: map<nat, Trace>,
                                   e: Event, k: nat)
    requires Follows(s, flights, traces) && SeenFrom(s, r, k) && Mine(flights, e, k)
    requires e.Stats? ==> !Theirs(flights, e.id, k)
    ensures SeenFrom(Next(s, e), Next(r, e), k)
  {
    match e
    case Begin(call, id, owner, t) => OwnBegin(s, r, e, k);
    case Stats(id, stat, raw, _) =>
      if id in s.active {
        ActiveIsInFlight(s, flights, traces, id, k);
      }
      OwnStats(s, r, e, k);
    case Close(call, t) =>
      assert CallFollows(s, call, flights[call]);
      OwnClose(s, r, e, k);
    case Measure(_, _, _, _) => OwnMeasure(s, r, e, k);
  }

  lemma SeenOpen(s: State, r: State, k: nat, call: nat, id: RequestId, handle: Option<Handle>, now: map<nat, Trace>)
    requires SeenFrom(s, r, k) && (id in s.active ==> s.active[id].trace != k) && call !in s.calls
    requires k in now && now[k] == s.traces[k] && (handle.Some? ==> handle.value.trace != k)
    ensures var active := if handle.Some? then s.active[id := handle.value] else s.active;
            SeenFrom(State(active, s.calls[call := Call(id, handle)], now), r, k)
  {
  }

  lemma {:induction false} OtherBegin(s: State, r: State, e: Event, k: nat)
    requires SeenFrom(s, r, k) && e.Begin? && e.owner != Some(k) && e.call !in s.calls
    requires e.id in s.active ==> s.active[e.id].trace != k
    ensures SeenFrom(Next(s, e), r, k)
  {
    var traced := e.owner.Some? && e.owner.value in s.traces;
    var handle := if traced then Some(HandleFor(s, e.owner.value, e.t)) else None;
    SeenOpen(s, r, k, e.call, e.id, handle, TracesAfter(s, e));
  }

  lemma SeenShut(s: State, r: State, k: nat, call: nat, id: RequestId, now: map<nat, Trace>)
    requires SeenFrom(s, r, k) && call !in r.calls && (id in s.active ==> s.active[id].trace != k)
    requires k in now && now[k] == s.traces[k]
    ensures SeenFrom(State(s.active - {id}, s.calls - {call}, now), r, k)
  {
  }

  lemma {:induction false} OtherClose(s: State, r: State, e: Event, k: nat)
    requires SeenFrom(s, r, k) && e.Close? && e.call in s.calls
    requires s.calls[e.call].handle.Some? ==> s.calls[e.call].handle.value.trace != k
    requires var id := s.calls[e.call].id; id in s.active ==> s.active[id].trace != k
    ensures SeenFrom(Next(s, e), r, k)
  {
    SeenShut(s, r, k, e.call, s.calls[e.call].id, TracesAfter(s, e));
  }

  lemma {:induction false} OtherStep(s: State, r: State, flights: map<nat, Flight>, traces: map<nat, Trace>,
                                     e: Event, k: nat)
    requires Follows(s, flights, traces) && SeenFrom(s, r, k) && !Mine(flights, e, k)
    requires ProperBegin(flights, traces, e) && BeginsApart(flights, e, k)
    requires forall id :: !(Ours(flights, id, k) && Theirs(flights, id, k))
    ensures SeenFrom(Next(s, e), r, k)
  {
    match e
    case Begin(call, id, owner, t) =>
      if id in s.active {
        ActiveIsInFlight(s, flights, traces, id, k);
      }
      OtherBegin(s, r, e, k);
    case Stats(id, stat, raw, _) =>
      if id in s.active {
        ActiveIsInFlight(s, flights, traces, id, k);
      }
    case Close(call, t) =>
      if call in s.calls {
        assert CallFollows(s, call, flights[call]) && Theirs(flights, s.calls[call].id, k);
        if s.calls[call].id in s.active {
          ActiveIsInFlight(s, flights, traces, s.calls[call].id, k);
        }
        OtherClose(s, r, e, k);
      }
    case Measure(_, _, _, _) =>
  }

  /**
   However generations interleave, a trace whose running ids no one else uses ends exactly as if only its own calls
   and their statistics had happened; the other traces may share ids among themselves, and so may its own calls.
  */
  lemma {:induction false} NonInterference(traces: map<nat, Trace>, h: seq<Event>, k: nat)
    requires Proper(traces, h) && Apart(h, k) && k in traces
    ensures SeenFrom(Run(traces, h), Run(traces, OwnEvents(h, k)), k)
    ensures k in Run(traces, h).traces && k in Run(traces, OwnEvents(h, k)).traces
            && Run(traces, h).traces[k] == Run(traces, OwnEvents(h, k)).traces[k]
  {
    if h == [] {
    } else {
      var n := |h| - 1;
      var before, own, e := h[..n], OwnEvents(h[..n], k), h[n];
      NonInterference(traces, before, k);
      RunFollows(traces, before);
      forall id ensures !(Ours(Flights(before), id, k) && Theirs(Flights(before), id, k)) {
        FlightsApart(before, k, id);
      }
      if Mine(Flights(before), e, k) {
        OwnStep(Run(traces, before), Run(traces, own), Flights(before), traces, e, k);
        assert (own + [e])[..|own|] == own;
      } else {
        OtherStep(Run(traces, before), Run(traces, own), Flights(before), traces, e, k);
        assert OwnEvents(h, k) == own;
      }
    }
  }

  // No two running calls share an id.
  ghost predicate Unique(h: seq<Event>) {
    h == [] || (Unique(h[..|h| - 1]) && (h[|h| - 1].Begin? ==> !InFlight(Flights(h[..|h| - 1]), h[|h| - 1].id)))
  }

  /** Ids that are unique while they run keep every trace apart. */
  lemma {:induction false} UniqueIdsKeepApart(h: seq<Event>, k: nat)
    requires Unique(h)
    ensures Apart(h, k)
  {
    if h != [] {
      UniqueIdsKeepApart(h[..|h| - 1], k);
    }
  }

  /** Statistics for an id with no running call change nothing at all. */
  lemma LateStatisticsChangeNothing(traces: map<nat, Trace>, h: seq<Event>, e: Event)
    requires Proper(traces, h) && e.Stats? && !InFlight(Flights(h), e.id)
    ensures Run(traces, h + [e]) == Run(traces, h)
  {
    RunFollows(traces, h);
    if e.id in Run(traces, h).active {
      ActiveIsInFlight(Run(traces, h), Flights(h), traces, e.id, Run(traces, h).active[e.id].trace);
    }
    assert (h + [e])[..|h|] == h;
  }

  /** Uniqueness is needed: with one id running for two traces, the first trace's statistics go to the second. */
  lemma SharedIdMisattributes(traces: map<nat, Trace>, a: nat, b: nat, id: RequestId, stat: Stat, raw: Raw,
                              t: real, at: Readings)
    requires a in traces && b in traces && a != b
    ensures var before := [Begin(0, id, Some(a), t), Begin(1, id, Some(b), t)];
            var after := before + [Stats(id, stat, raw, at)];
            && a in Run(traces, after).traces && b in Run(traces, after).traces && b in Run(traces, before).traces
            && Run(traces, after).traces[a] == BeginGeneration(traces[a], t)
            && Run(traces, after).traces[b]
               == Absorb(BeginGeneration(traces[b], t), traces[b].nextId, NowNs(traces[b], t), stat, raw, at)
  {
    var one := [Begin(0, id, Some(a), t)];
    var two := one + [Begin(1, id, Some(b), t)];
    var three := two + [Stats(id, stat, raw, at)];
    assert two == [Begin(0, id, Some(a), t), Begin(1, id, Some(b), t)];
    assert one[..0] == [] && two[..1] == one && three[..2] == two;
    assert Run(traces, []) == State(map[], map[], traces);
    var s1 := Next(Run(traces, []), one[0]);
    assert Run(traces, one) == s1;
    var s2 := Next(s1, two[1]);
    assert Run(traces, two) == s2;
    assert Run(traces, three) == Next(s2, three[2]);
  }
}
