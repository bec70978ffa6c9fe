/** The per-request trace: stage totals, generations, engine spans and measured API calls. */
module RequestTraces {
  import opened Common
  import opened Clock
  import opened TraceEvents

  datatype Aggregate = Aggregate(count: int, total: real) {
    function Add(duration: real, n: int): Aggregate {
      Aggregate(count + n, total + if duration > 0.0 then duration else 0.0)
    }
  }

  datatype Reason = MissingClock | IncompleteTimestamps | ClockSkew

  // What statistics add to a generation besides its stamps.
  datatype Detail = Detail(
    input: Option<int>,
    output: Option<int>,
    sequences: nat,
    completionStart: Option<int>,
    timelineUnavailable: Option<Reason>,
    waitingUnavailable: Option<Reason>,
    scheduleSteps: nat,
    prefillChunks: nat,
    decodeSteps: nat,
    contentionSteps: nat,
    contentionSeconds: real)

  const NO_DETAIL: Detail := Detail(None, None, 0, None, None, None, 0, 0, 0, 0, 0.0)

  datatype Trace = Trace(
    rootId: nat,
    startedNs: int,
    started: real,
    nextId: nat,
    stages: map<Name, Aggregate>,
    observations: seq<Observation>,
    apiIntervals: seq<Interval>,
    engineRequests: nat,
    details: map<nat, Detail>)

  function NewTrace(startedNs: int, started: real): Trace {
    Trace(0, startedNs, started, 1, map[], [], [], 0, map[])
  }

  function NowNs(trace: Trace, t: real): int {
    trace.startedNs + ToNanos(t - trace.started)
  }

  function AddStage(trace: Trace, stage: Name, duration: real, count: int): Trace {
    var before := if stage in trace.stages then trace.stages[stage] else Aggregate(0, 0.0);
    trace.(stages := trace.stages[stage := before.Add(duration, count)])
  }

  function StageOf(trace: Trace, name: Name): Aggregate {
    if name in trace.stages then trace.stages[name] else Aggregate(0, 0.0)
  }

  function Positive(x: real): real { if x > 0.0 then x else 0.0 }

  /** A stage gains the given count, and the duration when that is positive; the others gain nothing. */
  lemma AddStageTotals(trace: Trace, stage: Name, duration: real, count: int, name: Name)
    ensures var a, b := StageOf(trace, name), StageOf(AddStage(trace, stage, duration, count), name);
            b == if name == stage then Aggregate(a.count + count, a.total + Positive(duration)) else a
  {
  }

  function BeginGeneration(trace: Trace, t: real): Trace {
    trace.(observations := trace.observations + [Generation(trace.nextId, NowNs(trace, t), None)],
           nextId := trace.nextId + 1)
  }

  function WithEnd(observations: seq<Observation>, id: nat, end: int): (r: seq<Observation>)
    ensures |r| == |observations|
    ensures forall i :: 0 <= i < |r| ==>
              r[i] == if observations[i].Generation? && observations[i].id == id then observations[i].(closed := Some(end))
                      else observations[i]
  {
    seq(|observations|, i requires 0 <= i < |observations| =>
      if observations[i].Generation? && observations[i].id == id then observations[i].(closed := Some(end)) else observations[i])
  }

  function EndGeneration(trace: Trace, id: nat, t: real): Trace {
    trace.(observations := WithEnd(trace.observations, id, NowNs(trace, t)))
  }

  function AddSpan(trace: Trace, name: Name, start: int, end: int): Trace {
    trace.(observations := trace.observations + [Span(trace.nextId, name, start, end)], nextId := trace.nextId + 1)
  }

  function AddCall(trace: Trace, name: Name, started: real, ended: real): Trace {
    var start, end := NowNs(trace, started), NowNs(trace, ended);
    if end < start then trace
    else trace.(apiIntervals := trace.apiIntervals + [Interval(trace.nextId, name, start, end)], nextId := trace.nextId + 1)
  }

  // A timed call adds its duration to its stage and its interval to the trace.
  function TimedCall(trace: Trace, name: Name, started: real, t: real): Trace {
    AddCall(AddStage(trace, name, t - started, 1), name, started, t)
  }

  /** A timed call adds one to the count of its stage and, when time has passed, its duration to the total. */
  lemma TimedCallTotals(trace: Trace, name: Name, started: real, t: real, stage: Name)
    ensures var a, b := StageOf(trace, stage), StageOf(TimedCall(trace, name, started, t), stage);
            b == if stage == name then Aggregate(a.count + 1, a.total + Positive(t - started)) else a
  {
    AddStageTotals(trace, name, t - started, 1, stage);
  }

  function FinishedTrace(trace: Trace, t: real): Trace {
    AddStage(trace, HttpTotal, t - trace.started, 1)
  }

  function EventOf(trace: Trace): Event
    requires HttpTotal in trace.stages
  {
    Event(trace.rootId, trace.startedNs, trace.stages[HttpTotal].total, trace.observations, trace.apiIntervals)
  }

  /** Finishing adds the time since the request started to its total, once, and touches nothing else. */
  lemma FinishedTotals(trace: Trace, t: real, name: Name)
    ensures var a, b := StageOf(trace, name), StageOf(FinishedTrace(trace, t), name);
            b == if name == HttpTotal then Aggregate(a.count + 1, a.total + Positive(t - trace.started)) else a
    ensures FinishedTrace(trace, t) == trace.(stages := FinishedTrace(trace, t).stages)
  {
    AddStageTotals(trace, HttpTotal, t - trace.started, 1, name);
  }

  /** A measured call lies between its two readings, counted from the request's start, unless they are out of order. */
  lemma CallStamps(trace: Trace, name: Name, started: real, ended: real)
    ensures var a := trace.startedNs + Trunc((started - trace.started) * 1000000000.0);
            var b := trace.startedNs + Trunc((ended - trace.started) * 1000000000.0);
            AddCall(trace, name, started, ended).apiIntervals ==
            if a <= b then trace.apiIntervals + [Interval(trace.nextId, name, a, b)] else trace.apiIntervals
  {
  }

  /** The trace object. Ids are drawn from a counter, as tokens that never repeat. */
  class RequestTrace {
    const rootId: nat
    const startedNs: int
    const started: real
    var nextId: nat
    var stages: map<Name, Aggregate>
    var observations: seq<Observation>
    var apiIntervals: seq<Interval>
    var engineRequests: nat
    var details: map<nat, Detail>

    ghost function View(): Trace
      reads this
    {
      Trace(rootId, startedNs, started, nextId, stages, observations, apiIntervals, engineRequests, details)
    }

    constructor (startedNs: int, started: real)
      ensures View() == NewTrace(startedNs, started)
    {
      this.rootId, this.startedNs, this.started := 0, startedNs, started;
      nextId, stages, observations, apiIntervals, engineRequests, details := 1, map[], [], [], 0, map[];
    }

    method ReadNow(t: real) returns (now: int)
      ensures now == NowNs(View(), t)
    {
      now := startedNs + ToNanos(t - started);
    }

    method Add(stage: Name, duration: real, count: int)
      modifies this
      ensures View() == AddStage(old(View()), stage, duration, count)
    {
      if stage !in stages {
        stages := stages[stage := Aggregate(0, 0.0)];
      }
      stages := stages[stage := stages[stage].Add(duration, count)];
    }

    method Begin(t: real) returns (id: nat, start: int)
      modifies this
      ensures View() == BeginGeneration(old(View()), t)
      ensures id == old(nextId) && start == NowNs(old(View()), t)
    {
      id := nextId;
      start := ReadNow(t);
      nextId := nextId + 1;
      observations := observations + [Generation(id, start, None)];
    }

    method End(id: nat, t: real)
      modifies this
      ensures View() == EndGeneration(old(View()), id, t)
    {
      var now := ReadNow(t);
      observations := WithEnd(observations, id, now);
    }

    // The caller's stamps must be in order; anything else is an error and records nothing.
    method RecordSpan(name: Name, start: int, end: int) returns (ok: bool)
      modifies this
      ensures ok == (start <= end)
      ensures View() == if start <= end then AddSpan(old(View()), name, start, end) else old(View())
    {
      ok := start <= end;
      if ok {
        observations := observations + [Span(nextId, name, start, end)];
        nextId := nextId + 1;
      }
    }

    method RecordCall(name: Name, callStarted: real, callEnded: real)
      modifies this
      ensures View() == AddCall(old(View()), name, callStarted, callEnded)
    {
      var start := ReadNow(callStarted);
      var end := ReadNow(callEnded);
      if end >= start {
        apiIntervals := apiIntervals + [Interval(nextId, name, start, end)];
        nextId := nextId + 1;
      }
    }

    method RecordTimedCall(name: Name, callStarted: real, t: real)
      modifies this
      ensures View() == TimedCall(old(View()), name, callStarted, t)
    {
      Add(name, t - callStarted, 1);
      RecordCall(name, callStarted, t);
    }

    method Finish(t: real) returns (event: Event)
      modifies this
      ensures View() == FinishedTrace(old(View()), t)
      ensures HttpTotal in View().stages && event == EventOf(View())
    {
      Add(HttpTotal, t - started, 1);
      event := Event(rootId, startedNs, stages[HttpTotal].total, observations, apiIntervals);
    }
  }
}
