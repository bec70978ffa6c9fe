/** From the clock readings of one request to its exported, audited tree. */
module EndToEnd {
  import opened Common
  import opened Clock
  import opened TraceEvents
  import opened Timeline
  import opened Layout
  import opened TreeShape
  import opened SpanExport
  import opened TreeAudit
  import opened RequestTraces
  import EC = EngineClock
  import ES = EngineStats

  // What happens to a trace between its creation and its end, at instant t of the process clock.
  datatype Op =
    | Begin(t: real)
    | End(t: real, id: nat)
    | Call(t: real, name: Name, started: real)
    | Total(t: real, stage: Name, duration: real, count: int)
    | Stats(t: real, gen: nat, genStart: int, stat: ES.Stat, raw: ES.Raw, at: ES.Readings)

  function Apply(trace: Trace, op: Op): Trace {
    match op
    case Begin(t) => BeginGeneration(trace, t)
    case End(t, id) => EndGeneration(trace, id, t)
    case Call(t, name, started) => TimedCall(trace, name, started, t)
    case Total(_, stage, duration, count) => AddStage(trace, stage, duration, count)
    case Stats(_, gen, genStart, stat, raw, at) => ES.Absorb(trace, gen, genStart, stat, raw, at)
  }

  function Replay(trace: Trace, ops: seq<Op>): Trace {
    if ops == [] then trace else Apply(Replay(trace, ops[..|ops| - 1]), ops[|ops| - 1])
  }

  // The process clock never goes back: readings are in order, between the start and the end of the request.
  ghost predicate Timely(started: real, ops: seq<Op>, end: real) {
    if ops == [] then started <= end
    else
      var op := ops[|ops| - 1];
      op.t <= end && InTurn(op) && Timely(started, ops[..|ops| - 1], op.t)
  }

  // The readings inside one operation come no later than its last.
  predicate InTurn(op: Op) {
    && (op.Call? ==> op.started <= op.t)
    && (op.Stats? ==> op.at.timeline <= op.at.waiting <= op.at.execution <= op.t)
  }

  ghost predicate GoodGeneration(trace: Trace, o: Observation, now: real) {
    o.Generation? ==>
      && trace.startedNs <= o.start <= NowNs(trace, now)
      && (o.closed.Some? ==> o.start <= o.closed.value <= NowNs(trace, now))
  }

  ghost predicate Stamped(trace: Trace, now: real) {
    && trace.started <= now
    && (HttpTotal in trace.stages ==> trace.stages[HttpTotal].total >= 0.0)
    && forall i :: 0 <= i < |trace.observations| ==> GoodGeneration(trace, trace.observations[i], now)
  }

  ghost predicate Numbered(trace: Trace) {
    var obs, calls := trace.observations, trace.apiIntervals;
    && trace.rootId < trace.nextId
    && (forall i :: 0 <= i < |obs| ==> obs[i].id < trace.nextId && obs[i].id != trace.rootId)
    && (forall a :: 0 <= a < |calls| ==> calls[a].id < trace.nextId && calls[a].id != trace.rootId)
    && (forall a, b :: 0 <= a < b < |calls| ==> calls[a].id != calls[b].id)
    && (forall a, i :: 0 <= a < |calls| && 0 <= i < |obs| ==> calls[a].id != obs[i].id)
  }

  lemma NowNsMonotone(trace: Trace, s: real, t: real)
    requires s <= t
    ensures NowNs(trace, s) <= NowNs(trace, t)
  {
  }

  // The stamps and ids are in order at instant now.
  ghost predicate Sane(trace: Trace, now: real) { Stamped(trace, now) && Numbered(trace) }

  // Trace after is in order at instant now, and began when before did.
  ghost predicate Keeps(before: Trace, after: Trace, now: real) {
    Sane(after, now) && after.startedNs == before.startedNs && after.started == before.started
  }

  lemma AddStageSane(trace: Trace, stage: Name, duration: real, count: int, now: real)
    requires Sane(trace, now)
    ensures Keeps(trace, AddStage(trace, stage, duration, count), now)
  {
  }

  lemma AddSpanSane(trace: Trace, name: Name, start: int, end: int, now: real)
    requires Sane(trace, now)
    ensures Keeps(trace, AddSpan(trace, name, start, end), now)
  {
  }

  lemma DetailSane(trace: Trace, details: map<nat, Detail>, requests: nat, now: real)
    requires Sane(trace, now)
    ensures Keeps(trace, trace.(details := details, engineRequests := requests), now)
  {
  }

  lemma {:induction false} PhasesSane(trace: Trace, s: seq<int>, k: nat, now: real)
    requires Sane(trace, now) && |s| == 4 && k <= 3
    ensures Keeps(trace, ES.WithSpans(trace, s, k), now)
  {
    if k == 0 {
    } else {
      PhasesSane(trace, s, k - 1, now);
      AddSpanSane(ES.WithSpans(trace, s, k - 1), ES.PHASES[k - 1], s[k - 1], s[k], now);
    }
  }

  lemma TimelineSane(trace: Trace, gen: nat, genStart: int, stat: ES.Stat, raw: ES.Raw, t: real, now: real)
    requires Sane(trace, now)
    ensures var after := ES.RecordTimeline(trace, gen, genStart, stat, raw, t);
            Keeps(trace, after, now)
  {
    var d := ES.Counted(ES.DetailOf(trace, gen), stat);
    match ES.Judge(genStart, raw, NowNs(trace, t))
    case Refused(reason) =>
      DetailSane(trace, trace.details[gen := d.(timelineUnavailable := Some(reason))], trace.engineRequests, now);
    case Accepted =>
      var s := ES.Stamps(raw.clock.value, raw);
      var completed := trace.details[gen := ES.Completed(d, s)];
      DetailSane(trace, completed, trace.engineRequests, now);
      PhasesSane(trace.(details := completed), s, 3, now);
  }

  lemma WaitingSane(trace: Trace, gen: nat, genStart: int, raw: ES.Raw, at: ES.Readings, now: real)
    requires Sane(trace, now) && raw.stages.Some? && raw.clock.Some?
    requires raw.stages.value.waitingEnter.Some? && raw.stages.value.firstSchedule.Some?
    ensures var after := ES.WaitingSpan(trace, gen, genStart, raw.clock.value, raw.stages.value, at);
            Keeps(trace, after, now)
  {
    var after := ES.WaitingSpan(trace, gen, genStart, raw.clock.value, raw.stages.value, at);
    if |after.observations| == |trace.observations| {
      DetailSane(trace, after.details, trace.engineRequests, now);
    } else {
      var first := after.observations[|trace.observations|];
      AddSpanSane(trace, WaitingToFirstSchedule, first.start, first.end, now);
      if |after.observations| > |trace.observations| + 1 {
        var second := after.observations[|trace.observations| + 1];
        AddSpanSane(AddSpan(trace, WaitingToFirstSchedule, first.start, first.end), ExecuteModel, second.start, second.end, now);
      }
    }
  }

  lemma StagesSane(trace: Trace, gen: nat, genStart: int, raw: ES.Raw, at: ES.Readings, now: real)
    requires Sane(trace, now)
    ensures var after := ES.RecordStages(trace, gen, genStart, raw, at); Keeps(trace, after, now)
  {
    if raw.stages.Some? {
      var record := raw.stages.value;
      var d := ES.Described(ES.DetailOf(trace, gen), record);
      var counted := trace.(details := trace.details[gen := d]);
      DetailSane(trace, counted.details, trace.engineRequests, now);
      AddStageSane(counted, ScheduleTotal, record.scheduleSeconds, Max(1, record.scheduleSteps), now);
      var scheduled := AddStage(counted, ScheduleTotal, record.scheduleSeconds, Max(1, record.scheduleSteps));
      AddStageSane(scheduled, ExecuteModel, record.executeSeconds, Max(1, record.executeSteps), now);
      var executed := AddStage(scheduled, ExecuteModel, record.executeSeconds, Max(1, record.executeSteps));
      if raw.clock.None? || record.waitingEnter.None? || record.firstSchedule.None? {
        DetailSane(executed, executed.details[gen := d.(waitingUnavailable := Some(MissingClock))], executed.engineRequests, now);
      } else {
        WaitingSane(executed, gen, genStart, raw, at, now);
      }
    }
  }

  lemma TotalledSane(trace: Trace, stat: ES.Stat, now: real)
    requires Sane(trace, now)
    ensures Keeps(trace, ES.Totalled(trace, stat), now)
  {
  }

  /** Engine statistics, good or bad, leave the stamps and ids of a trace in order. */
  lemma AbsorbSane(trace: Trace, gen: nat, genStart: int, stat: ES.Stat, raw: ES.Raw, at: ES.Readings, now: real)
    requires Sane(trace, now)
    ensures var after := ES.Absorb(trace, gen, genStart, stat, raw, at); Keeps(trace, after, now)
  {
    var totalled := ES.Totalled(trace, stat);
    TotalledSane(trace, stat, now);
    if stat.generationTokens.Some? {
      TimelineSane(totalled, gen, genStart, stat, raw, at.timeline, now);
      StagesSane(ES.RecordTimeline(totalled, gen, genStart, stat, raw, at.timeline), gen, genStart, raw, at, now);
    }
  }

  lemma LaterSane(trace: Trace, now: real, later: real)
    requires Sane(trace, now) && now <= later
    ensures Sane(trace, later)
  {
  }

  lemma {:induction false} BeginSane(trace: Trace, op: Op)
    requires op.Begin? && Sane(trace, op.t)
    ensures Keeps(trace, Apply(trace, op), op.t)
  {
    NowNsMonotone(trace, trace.started, op.t);
    assert Keeps(trace, BeginGeneration(trace, op.t), op.t);
  }

  lemma {:induction false} EndSane(trace: Trace, op: Op)
    requires op.End? && Sane(trace, op.t)
    ensures Keeps(trace, Apply(trace, op), op.t)
  {
    assert Keeps(trace, EndGeneration(trace, op.id, op.t), op.t);
  }

  lemma {:induction false} AddIntervalSane(trace: Trace, name: Name, start: int, end: int, now: real)
    requires Sane(trace, now)
    ensures var calls := trace.apiIntervals + [Interval(trace.nextId, name, start, end)];
            Keeps(trace, trace.(apiIntervals := calls, nextId := trace.nextId + 1), now)
  {
  }

  lemma {:induction false} AddCallSane(trace: Trace, name: Name, started: real, t: real)
    requires Sane(trace, t)
    ensures Keeps(trace, AddCall(trace, name, started, t), t)
  {
    AddIntervalSane(trace, name, NowNs(trace, started), NowNs(trace, t), t);
  }

  lemma {:induction false} TimedCallSane(trace: Trace, name: Name, started: real, t: real)
    requires Sane(trace, t)
    ensures Keeps(trace, TimedCall(trace, name, started, t), t)
  {
    var counted := AddStage(trace, name, t - started, 1);
    AddStageSane(trace, name, t - started, 1, t);
    AddCallSane(counted, name, started, t);
  }

  lemma {:induction false} CallSane(trace: Trace, op: Op)
    requires op.Call? && Sane(trace, op.t)
    ensures Keeps(trace, Apply(trace, op), op.t)
  {
    TimedCallSane(trace, op.name, op.started, op.t);
  }

  lemma {:induction false} TotalSane(trace: Trace, op: Op)
    requires op.Total? && Sane(trace, op.t)
    ensures Keeps(trace, Apply(trace, op), op.t)
  {
    AddStageSane(trace, op.stage, op.duration, op.count, op.t);
  }

  lemma {:induction false} StatsSane(trace: Trace, op: Op)
    requires op.Stats? && Sane(trace, op.t)
    ensures Keeps(trace, Apply(trace, op), op.t)
  {
    AbsorbSane(trace, op.gen, op.genStart, op.stat, op.raw, op.at, op.t);
  }

  /** Whatever happens to a trace next, its stamps and ids stay in order. */
  lemma {:induction false} StepSane(trace: Trace, op: Op)
    requires Sane(trace, op.t)
    ensures Keeps(trace, Apply(trace, op), op.t)
  {
    match op
    case Begin(_) => BeginSane(trace, op);
    case End(_, _) => EndSane(trace, op);
    case Call(_, _, _) => CallSane(trace, op);
    case Total(_, _, _, _) => TotalSane(trace, op);
    case Stats(_, _, _, _, _, _) => StatsSane(trace, op);
  }

  lemma {:induction false} ReplayKeeps(startedNs: int, started: real, ops: seq<Op>, end: real)
    requires Timely(started, ops, end)
    ensures var trace := Replay(NewTrace(startedNs, started), ops);
            Sane(trace, end) && trace.startedNs == startedNs && trace.started == started
  {
    if ops == [] {
    } else {
      var n := |ops| - 1;
      var before := Replay(NewTrace(startedNs, started), ops[..n]);
      ReplayKeeps(startedNs, started, ops[..n], ops[n].t);
      StepSane(before, ops[n]);
      LaterSane(Apply(before, ops[n]), ops[n].t, end);
    }
  }

  function Finished(startedNs: int, started: real, ops: seq<Op>, end: real): Trace {
    FinishedTrace(Replay(NewTrace(startedNs, started), ops), end)
  }

  function StatsCount(ops: seq<Op>): nat {
    if ops == [] then 0 else StatsCount(ops[..|ops| - 1]) + if ops[|ops| - 1].Stats? then 1 else 0
  }

  lemma {:induction false} StepCounts(trace: Trace, op: Op)
    ensures Apply(trace, op).engineRequests == trace.engineRequests + if op.Stats? then 1 else 0
  {
    if op.Stats? && op.stat.generationTokens.Some? {
      ES.TimelineRequests(ES.Totalled(trace, op.stat), op.gen, op.genStart, op.stat, op.raw, op.at);
    }
  }

  /** A request counts each finished engine request once, whatever became of its statistics. */
  lemma {:induction false} EngineRequestsCounted(startedNs: int, started: real, ops: seq<Op>)
    ensures Replay(NewTrace(startedNs, started), ops).engineRequests == StatsCount(ops)
  {
    if ops != [] {
      var n := |ops| - 1;
      EngineRequestsCounted(startedNs, started, ops[..n]);
      StepCounts(Replay(NewTrace(startedNs, started), ops[..n]), ops[n]);
    }
  }

  /** Every run that closes its generation hands the exporter stamps that meet the builder's assumptions. */
  lemma {:induction false} RunsAreWellTimed(startedNs: int, started: real, ops: seq<Op>, end: real)
    requires 0 < startedNs && Timely(started, ops, end)
    requires Closed(EventOf(Finished(startedNs, started, ops, end)))
    ensures var trace := Finished(startedNs, started, ops, end);
            WellTimed(EventOf(trace)) && FreshIds(EventOf(trace), trace.nextId)
  {
    var before := Replay(NewTrace(startedNs, started), ops);
    ReplayKeeps(startedNs, started, ops, end);
    var event := EventOf(FinishedTrace(before, end));
    assert event.httpTotal >= end - started;
    ToNanosMonotone(end - started, event.httpTotal);
    ToNanosMonotone(0.0, event.httpTotal);
    var g := FirstGeneration(event.observations);
    if g.Some? {
      var i :| 0 <= i < |before.observations| && before.observations[i] == g.value;
      assert GoodGeneration(before, g.value, end);
    }
  }

  /**
   For every run of a request on a clock that never goes back, with its generation closed in time:
   preparation, generation and transfer add up exactly to the truncated request total; the export
   succeeds iff no moved call collides with its submit call; and what it exports passes the audit.
   */
  lemma {:induction false} EveryRunExportsExactly(startedNs: int, started: real, ops: seq<Op>, end: real,
                                                  rows: seq<Node>)
    requires 0 < startedNs && Timely(started, ops, end)
    requires Closed(EventOf(Finished(startedNs, started, ops, end)))
    ensures var trace := Finished(startedNs, started, ops, end);
            var event, uid := EventOf(trace), trace.nextId;
            && Api(event, uid).Length() + Transfer(event, uid).Length() + TotalLength(EngineSegments(event, uid))
               == ToNanos(event.httpTotal)
            && (ExportSucceeds(event, uid) <==> !Collides(Placed(event, uid)))
            && (RowsOf(event, uid, rows) ==> Sound(rows))
  {
    RunsAreWellTimed(startedNs, started, ops, end);
    var trace := Finished(startedNs, started, ops, end);
    var event, uid := EventOf(trace), trace.nextId;
    ExportSucceedsIff(event, uid);
    EngineSegmentsTile(event, uid);
    TilesTotal(EngineSegments(event, uid), GenStart(event), GenEnd(event));
    if RowsOf(event, uid, rows) {
      AuditAcceptsExports(event, uid, rows);
    }
  }

  /** A run's request is exported iff its generation was closed and no moved call collides with its submit call. */
  lemma {:induction false} EveryRunExportsIff(startedNs: int, started: real, ops: seq<Op>, end: real)
    requires 0 < startedNs && Timely(started, ops, end)
    ensures var trace := Finished(startedNs, started, ops, end);
            var event, uid := EventOf(trace), trace.nextId;
            ExportSucceeds(event, uid) <==> Closed(event) && !Collides(Placed(event, uid))
  {
    var trace := Finished(startedNs, started, ops, end);
    if Closed(EventOf(trace)) {
      RunsAreWellTimed(startedNs, started, ops, end);
      ExportSucceedsIff(EventOf(trace), trace.nextId);
    } else {
      OpenGenerationFails(EventOf(trace), trace.nextId);
    }
  }

  /** With one total recorded, at the end, the request is drawn up to the very reading that ended it. */
  lemma RequestEndsAtLastReading(startedNs: int, started: real, ops: seq<Op>, end: real)
    requires Timely(started, ops, end)
    requires HttpTotal !in Replay(NewTrace(startedNs, started), ops).stages
    ensures var trace := Finished(startedNs, started, ops, end);
            trace.stages[HttpTotal].total == end - started && Root(EventOf(trace)).end == NowNs(trace, end)
  {
    ReplayKeeps(startedNs, started, ops, end);
  }

  // ---------- A run whose export fails ----------

  const NANO: real := 0.000000001

  // Statistics whose edges the calibration puts at 60, 64, 80 and 90 nanoseconds.
  const EDGES: ES.Raw := ES.Raw(
    Some(EC.Calibration(1.0, 100, 0)),
    [Some(1.0 - 40.0 * NANO), Some(1.0 - 36.0 * NANO), Some(1.0 - 20.0 * NANO), Some(1.0 - 10.0 * NANO)],
    None)

  const COUNTS: ES.Stat := ES.Stat(Some(3), Some(2), 4.0 * NANO, 16.0 * NANO, 10.0 * NANO)

  // The generation begins; the inner call returns, then the submit call that contains it; the engine reports; the
  // generation ends.
  function OrphaningRun(inner: Name): seq<Op> {
    [ Begin(30.0 * NANO),
      Call(62.0 * NANO, inner, 40.0 * NANO),
      Call(67.0 * NANO, SubmitEngine, 35.0 * NANO),
      Stats(85.0 * NANO, 1, 40, COUNTS, EDGES, ES.Readings(84.0 * NANO, 85.0 * NANO, 85.0 * NANO)),
      End(90.0 * NANO, 1) ]
  }

  lemma ReplayOne(trace: Trace, ops: seq<Op>, op: Op)
    ensures Replay(trace, ops + [op]) == Apply(Replay(trace, ops), op)
  {
    assert (ops + [op])[..|ops|] == ops;
  }

  lemma TimelyOne(started: real, ops: seq<Op>, op: Op, end: real)
    requires Timely(started, ops, op.t) && op.t <= end && InTurn(op)
    ensures Timely(started, ops + [op], end)
  {
    assert (ops + [op])[..|ops|] == ops;
  }

  // What the failing run holds, apart from totals and details.
  ghost predicate Recorded(trace: Trace, observations: seq<Observation>, calls: seq<Interval>, nextId: nat) {
    && trace.observations == observations && trace.apiIntervals == calls
    && trace.rootId == 0 && trace.nextId == nextId && trace.startedNs == 10 && trace.started == 0.0
    && HttpTotal !in trace.stages
  }

  lemma {:induction false} OrphaningStats(trace: Trace, inner: Name)
    requires Recorded(trace, [Generation(1, 40, None)], ClippedTogether(inner).apiIntervals, 4)
    ensures Recorded(Apply(trace, OrphaningRun(inner)[3]),
                     [Generation(1, 40, None), Span(4, Queue, 60, 64), Span(5, Prefill, 64, 80), Span(6, Decode, 80, 90)],
                     ClippedTogether(inner).apiIntervals, 7)
  {
    var t := 84.0 * NANO;
    var totalled := ES.Totalled(trace, COUNTS);
    ES.TotalledFrame(trace, COUNTS);
    var s := ES.Stamps(EDGES.clock.value, EDGES);
    assert s == [60, 64, 80, 90];
    assert NowNs(totalled, t) == 94;
    ES.NewSpansOfAccepted(totalled, 1, 40, COUNTS, EDGES, t);
    var d := ES.Counted(ES.DetailOf(totalled, 1), COUNTS);
    ES.WithSpansFrame(totalled.(details := totalled.details[1 := ES.Completed(d, s)]), s, 3);
    var after := ES.RecordTimeline(totalled, 1, 40, COUNTS, EDGES, t);
    assert after.observations == totalled.observations + ES.NewSpans(totalled, after);
    assert Apply(trace, OrphaningRun(inner)[3]) == after;
  }

  lemma {:induction false} OrphaningCalls(trace: Trace, inner: Name)
    requires inner != HttpTotal
    requires Recorded(trace, [Generation(1, 40, None)], [], 2)
    ensures Recorded(Apply(Apply(trace, OrphaningRun(inner)[1]), OrphaningRun(inner)[2]),
                     [Generation(1, 40, None)], ClippedTogether(inner).apiIntervals, 4)
  {
    var one := Apply(trace, OrphaningRun(inner)[1]);
    assert one.apiIntervals == [Interval(2, inner, 50, 72)];
  }

  lemma {:induction false} OrphaningReplay(inner: Name)
    requires inner != HttpTotal
    ensures Recorded(Replay(NewTrace(10, 0.0), OrphaningRun(inner)),
                     ClippedTogether(inner).observations, ClippedTogether(inner).apiIntervals, 7)
  {
    var r, t0 := OrphaningRun(inner), NewTrace(10, 0.0);
    ReplayOne(t0, [], r[0]);
    ReplayOne(t0, [] + [r[0]], r[1]);
    ReplayOne(t0, [] + [r[0]] + [r[1]], r[2]);
    ReplayOne(t0, [] + [r[0]] + [r[1]] + [r[2]], r[3]);
    ReplayOne(t0, [] + [r[0]] + [r[1]] + [r[2]] + [r[3]], r[4]);
    assert r == [] + [r[0]] + [r[1]] + [r[2]] + [r[3]] + [r[4]];
    var begun := Apply(t0, r[0]);
    assert begun.observations == [Generation(1, 40, None)];
    OrphaningCalls(begun, inner);
    var called := Apply(Apply(begun, r[1]), r[2]);
    OrphaningStats(called, inner);
    var informed := Apply(called, r[3]);
    assert NowNs(informed, 90.0 * NANO) == 100;
    assert Apply(informed, r[4]).observations == ClippedTogether(inner).observations;
  }

  lemma {:induction false} OrphaningIsTimely(inner: Name)
    ensures Timely(0.0, OrphaningRun(inner), 100.0 * NANO)
  {
    var r := OrphaningRun(inner);
    TimelyOne(0.0, [], r[0], r[1].t);
    TimelyOne(0.0, [] + [r[0]], r[1], r[2].t);
    TimelyOne(0.0, [] + [r[0]] + [r[1]], r[2], r[3].t);
    TimelyOne(0.0, [] + [r[0]] + [r[1]] + [r[2]], r[3], r[4].t);
    TimelyOne(0.0, [] + [r[0]] + [r[1]] + [r[2]] + [r[3]], r[4], 100.0 * NANO);
    assert r == [] + [r[0]] + [r[1]] + [r[2]] + [r[3]] + [r[4]];
  }

  lemma {:induction false} OrphaningEvent(inner: Name)
    requires inner != HttpTotal
    ensures var trace := Finished(10, 0.0, OrphaningRun(inner), 100.0 * NANO);
            EventOf(trace) == ClippedTogether(inner) && trace.nextId == 7
  {
    OrphaningReplay(inner);
  }

  /** For each inner call, a proper run of the trace on a clock that never goes back, whose request can not be exported. */
  lemma {:induction false} RunCanOrphan(inner: Name)
    requires inner == InputProcess || inner == OutputProcessorAdd
    ensures Timely(0.0, OrphaningRun(inner), 100.0 * NANO)
    ensures var trace := Finished(10, 0.0, OrphaningRun(inner), 100.0 * NANO);
            Closed(EventOf(trace)) && !ExportSucceeds(EventOf(trace), trace.nextId)
  {
    OrphaningIsTimely(inner);
    OrphaningEvent(inner);
    ClippingCanOrphan(inner);
  }
}
