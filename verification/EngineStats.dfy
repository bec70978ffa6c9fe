/** Merging finished engine statistics into a request trace: stage totals, calibrated spans, engine counters. */
module EngineStats {
  import opened Common
  import opened Clock
  import opened TraceEvents
  import opened RequestTraces
  import opened EngineClock
  import SR = StageRegistry

  datatype Stat = Stat(promptTokens: Option<int>, generationTokens: Option<int>, queued: real, prefill: real, decode: real)

  // Edges that are not finite numbers are None. Headers may be missing.
  datatype Raw = Raw(clock: Option<Calibration>, edges: seq<Option<real>>, stages: Option<SR.Record>)

  // The clock is read anew for each acceptance test.
  datatype Readings = Readings(timeline: real, waiting: real, execution: real)

  predicate Usable(raw: Raw) {
    |raw.edges| == 4 && forall i :: 0 <= i < 4 ==> raw.edges[i].Some? && raw.edges[i].value > 0.0
  }

  function Stamps(c: Calibration, raw: Raw): (s: seq<int>)
    requires Usable(raw)
    ensures |s| == 4 && forall i :: 0 <= i < 4 ==> s[i] == Stamp(c, raw.edges[i].value)
  {
    seq(4, i requires 0 <= i < 4 => Stamp(c, raw.edges[i].value))
  }

  predicate InOrder(s: seq<int>)
    requires |s| == 4
  {
    s[0] <= s[1] <= s[2] <= s[3]
  }

  predicate InWindow(genStart: int, first: int, last: int, now: int) { genStart <= first <= last <= now }

  function DetailOf(trace: Trace, gen: nat): Detail {
    if gen in trace.details then trace.details[gen] else NO_DETAIL
  }

  function Plus(total: Option<int>, n: int): Option<int> {
    Some((if total.Some? then total.value else 0) + n)
  }

  function Counted(d: Detail, stat: Stat): Detail {
    d.(input := if stat.promptTokens.Some? then Plus(d.input, stat.promptTokens.value) else d.input,
       output := if stat.generationTokens.Some? then Plus(d.output, stat.generationTokens.value) else d.output,
       sequences := d.sequences + 1)
  }

  const PHASES: seq<Name> := [Queue, Prefill, Decode]

  // The first k of the three phase spans.
  function WithSpans(trace: Trace, s: seq<int>, k: nat): Trace
    requires |s| == 4 && k <= 3
  {
    if k == 0 then trace else AddSpan(WithSpans(trace, s, k - 1), PHASES[k - 1], s[k - 1], s[k])
  }

  datatype Verdict = Accepted | Refused(reason: Reason)

  function Judge(genStart: int, raw: Raw, now: int): Verdict {
    if raw.clock.None? then Refused(MissingClock)
    else if !Usable(raw) then Refused(IncompleteTimestamps)
    else
      var s := Stamps(raw.clock.value, raw);
      if InOrder(s) && InWindow(genStart, s[0], s[3], now) then Accepted else Refused(ClockSkew)
  }

  function Completed(d: Detail, s: seq<int>): Detail
    requires |s| == 4
  {
    if d.completionStart.None? then d.(completionStart := Some(s[2])) else d
  }

  // Without a token count the decode span can not be described, and an exception leaves all three spans out.
  function RecordTimeline(trace: Trace, gen: nat, genStart: int, stat: Stat, raw: Raw, t: real): Trace {
    var d := Counted(DetailOf(trace, gen), stat);
    match Judge(genStart, raw, NowNs(trace, t))
    case Refused(reason) => trace.(details := trace.details[gen := d.(timelineUnavailable := Some(reason))])
    case Accepted =>
      var s := Stamps(raw.clock.value, raw);
      var completed := trace.(details := trace.details[gen := Completed(d, s)]);
      if stat.generationTokens.None? then completed else WithSpans(completed, s, 3)
  }

  function WaitingSpan(trace: Trace, gen: nat, genStart: int, c: Calibration, record: SR.Record, at: Readings): Trace
    requires record.waitingEnter.Some? && record.firstSchedule.Some?
  {
    var start, end := Stamp(c, record.waitingEnter.value), Stamp(c, record.firstSchedule.value);
    if !InWindow(genStart, start, end, NowNs(trace, at.waiting)) then
      trace.(details := trace.details[gen := DetailOf(trace, gen).(waitingUnavailable := Some(ClockSkew))])
    else
      var waited := AddSpan(trace, WaitingToFirstSchedule, start, end);
      var runs := record.executeIntervals;
      if runs == [] then waited
      else
        var first, last := Stamp(c, runs[0].0), Stamp(c, runs[|runs| - 1].1);
        if InWindow(genStart, first, last, NowNs(trace, at.execution)) then AddSpan(waited, ExecuteModel, first, last)
        else waited
  }

  function Described(d: Detail, record: SR.Record): Detail {
    d.(scheduleSteps := record.scheduleSteps, prefillChunks := record.prefillChunks, decodeSteps := record.decodeSteps,
       contentionSteps := record.contentionSteps, contentionSeconds := record.contentionSeconds)
  }

  function RecordStages(trace: Trace, gen: nat, genStart: int, raw: Raw, at: Readings): Trace {
    if raw.stages.None? then trace
    else
      var record := raw.stages.value;
      var d := Described(DetailOf(trace, gen), record);
      var counted := trace.(details := trace.details[gen := d]);
      var scheduled := AddStage(counted, ScheduleTotal, record.scheduleSeconds, Max(1, record.scheduleSteps));
      var executed := AddStage(scheduled, ExecuteModel, record.executeSeconds, Max(1, record.executeSteps));
      if raw.clock.None? || record.waitingEnter.None? || record.firstSchedule.None? then
        executed.(details := executed.details[gen := d.(waitingUnavailable := Some(MissingClock))])
      else WaitingSpan(executed, gen, genStart, raw.clock.value, record, at)
  }

  // The stage totals that do not depend on any clock. A missing token count raises before decode is added.
  function Totalled(trace: Trace, stat: Stat): Trace {
    var counted := trace.(engineRequests := trace.engineRequests + 1);
    var queued := AddStage(counted, Queue, stat.queued, 1);
    var prefilled := AddStage(queued, Prefill, stat.prefill, 1);
    if stat.generationTokens.None? then prefilled
    else AddStage(prefilled, Decode, stat.decode, Max(0, stat.generationTokens.value - 1))
  }

  // Everything one finished engine request adds to the trace it belongs to. An exception ends it early, and is logged.
  function Absorb(trace: Trace, gen: nat, genStart: int, stat: Stat, raw: Raw, at: Readings): Trace {
    var totalled := Totalled(trace, stat);
    if stat.generationTokens.None? then totalled
    else RecordStages(RecordTimeline(totalled, gen, genStart, stat, raw, at.timeline), gen, genStart, raw, at)
  }

  /** The timeline recorder on a trace object, span by span. */
  method RecordTimelineOn(trace: RequestTrace, gen: nat, genStart: int, stat: Stat, raw: Raw, t: real)
    modifies trace
    ensures trace.View() == RecordTimeline(old(trace.View()), gen, genStart, stat, raw, t)
  {
    var d := if gen in trace.details then trace.details[gen] else NO_DETAIL;
    if stat.promptTokens.Some? {
      d := d.(input := Plus(d.input, stat.promptTokens.value));
    }
    if stat.generationTokens.Some? {
      d := d.(output := Plus(d.output, stat.generationTokens.value));
    }
    d := d.(sequences := d.sequences + 1);
    trace.details := trace.details[gen := d];
    if raw.clock.None? {
      d := d.(timelineUnavailable := Some(MissingClock));
      trace.details := trace.details[gen := d];
      assert trace.details == old(trace.details)[gen := d];
      return;
    }
    if !Usable(raw) {
      d := d.(timelineUnavailable := Some(IncompleteTimestamps));
      trace.details := trace.details[gen := d];
      assert trace.details == old(trace.details)[gen := d];
      return;
    }
    var stamps := Stamps(raw.clock.value, raw);
    var now := trace.ReadNow(t);
    if !InOrder(stamps) || !InWindow(genStart, stamps[0], stamps[3], now) {
      d := d.(timelineUnavailable := Some(ClockSkew));
      trace.details := trace.details[gen := d];
      assert trace.details == old(trace.details)[gen := d];
      return;
    }
    if d.completionStart.None? {
      d := d.(completionStart := Some(stamps[2]));
      trace.details := trace.details[gen := d];
    }
    assert trace.details == old(trace.details)[gen := d];
    if stat.generationTokens.None? {
      return;
    }
    RecordPhases(trace, stamps);
  }

  method RecordPhases(trace: RequestTrace, stamps: seq<int>)
    requires |stamps| == 4 && InOrder(stamps)
    modifies trace
    ensures trace.View() == WithSpans(old(trace.View()), stamps, 3)
  {
    for i := 0 to 3
      invariant trace.View() == WithSpans(old(trace.View()), stamps, i)
    {
      var ok := trace.RecordSpan(PHASES[i], stamps[i], stamps[i + 1]);
    }
  }

  method SetDetail(trace: RequestTrace, gen: nat, d: Detail)
    modifies trace`details
    ensures trace.details == old(trace.details)[gen := d]
  {
    trace.details := trace.details[gen := d];
  }

  /** The engine-stage recorder on a trace object. */
  method RecordStagesOn(trace: RequestTrace, gen: nat, genStart: int, raw: Raw, at: Readings)
    modifies trace
    ensures trace.View() == RecordStages(old(trace.View()), gen, genStart, raw, at)
  {
    if raw.stages.None? {
      return;
    }
    var record := raw.stages.value;
    var d := if gen in trace.details then trace.details[gen] else NO_DETAIL;
    d := d.(scheduleSteps := record.scheduleSteps, prefillChunks := record.prefillChunks, decodeSteps := record.decodeSteps);
    d := d.(contentionSteps := record.contentionSteps, contentionSeconds := record.contentionSeconds);
    SetDetail(trace, gen, d);
    trace.Add(ScheduleTotal, record.scheduleSeconds, Max(1, record.scheduleSteps));
    trace.Add(ExecuteModel, record.executeSeconds, Max(1, record.executeSteps));
    if raw.clock.None? || record.waitingEnter.None? || record.firstSchedule.None? {
      SetDetail(trace, gen, d.(waitingUnavailable := Some(MissingClock)));
      return;
    }
    RecordWaiting(trace, gen, genStart, raw.clock.value, record, at);
  }

  method RecordWaiting(trace: RequestTrace, gen: nat, genStart: int, c: Calibration, record: SR.Record, at: Readings)
    requires record.waitingEnter.Some? && record.firstSchedule.Some?
    modifies trace
    ensures trace.View() == WaitingSpan(old(trace.View()), gen, genStart, c, record, at)
  {
    var now := trace.ReadNow(at.waiting);
    var start, end := Stamp(c, record.waitingEnter.value), Stamp(c, record.firstSchedule.value);
    if !InWindow(genStart, start, end, now) {
      var d := if gen in trace.details then trace.details[gen] else NO_DETAIL;
      SetDetail(trace, gen, d.(waitingUnavailable := Some(ClockSkew)));
      return;
    }
    var ok := trace.RecordSpan(WaitingToFirstSchedule, start, end);
    var runs := record.executeIntervals;
    if runs != [] {
      var first, last := Stamp(c, runs[0].0), Stamp(c, runs[|runs| - 1].1);
      now := trace.ReadNow(at.execution);
      if InWindow(genStart, first, last, now) {
        ok := trace.RecordSpan(ExecuteModel, first, last);
      }
    }
  }

  method AddTotals(trace: RequestTrace, stat: Stat)
    modifies trace
    ensures trace.View() == Totalled(old(trace.View()), stat)
  {
    trace.engineRequests := trace.engineRequests + 1;
    trace.Add(Queue, stat.queued, 1);
    trace.Add(Prefill, stat.prefill, 1);
    if stat.generationTokens.Some? {
      trace.Add(Decode, stat.decode, Max(0, stat.generationTokens.value - 1));
    }
  }

  /** All that a finished engine request does to the trace object it was correlated with. */
  method AbsorbInto(trace: RequestTrace, gen: nat, genStart: int, stat: Stat, raw: Raw, at: Readings)
    modifies trace
    ensures trace.View() == Absorb(old(trace.View()), gen, genStart, stat, raw, at)
  {
    AddTotals(trace, stat);
    if stat.generationTokens.None? {
      return;
    }
    RecordTimelineOn(trace, gen, genStart, stat, raw, at.timeline);
    RecordStagesOn(trace, gen, genStart, raw, at);
  }

  // ---------- What the recorders record ----------

  function OrZero(n: Option<int>): int { if n.Some? then n.value else 0 }

  /**
   A timeline is accepted iff there is a clock and there are four positive edges whose stamps are in order, begin no
   earlier than the generation and end no later than now. Otherwise the reason says which of these is missing.
  */
  lemma AcceptedIff(genStart: int, raw: Raw, now: int)
    ensures var complete := |raw.edges| == 4 && forall i :: 0 <= i < 4 ==> raw.edges[i].Some? && raw.edges[i].value > 0.0;
            && (Judge(genStart, raw, now).Accepted? <==>
                  && raw.clock.Some? && complete
                  && var c, e := raw.clock.value, raw.edges;
                     genStart <= Stamp(c, e[0].value) <= Stamp(c, e[1].value) <= Stamp(c, e[2].value)
                     <= Stamp(c, e[3].value) <= now)
            && (Judge(genStart, raw, now).Refused? ==>
                  Judge(genStart, raw, now).reason ==
                  if raw.clock.None? then MissingClock else if !complete then IncompleteTimestamps else ClockSkew)
  {
  }

  // Before the first of them it has been told nothing.
  lemma UntoldGeneration(trace: Trace, gen: nat)
    requires gen !in trace.details
    ensures DetailOf(trace, gen) == Detail(None, None, 0, None, None, None, 0, 0, 0, 0, 0.0)
  {
  }

  /**
   What a generation is told of a finished request: its tokens and one more sequence; the first-token stamp of the first
   accepted timeline as the start of its completion; and the reason when the timeline was refused.
  */
  lemma TimelineDetail(trace: Trace, gen: nat, genStart: int, stat: Stat, raw: Raw, t: real)
    ensures var before, after := DetailOf(trace, gen), RecordTimeline(trace, gen, genStart, stat, raw, t);
            var d, verdict := DetailOf(after, gen), Judge(genStart, raw, NowNs(trace, t));
            && d.sequences == before.sequences + 1
            && d.input == (if stat.promptTokens.Some? then Some(OrZero(before.input) + stat.promptTokens.value) else before.input)
            && d.output ==
               (if stat.generationTokens.Some? then Some(OrZero(before.output) + stat.generationTokens.value) else before.output)
            && (verdict.Refused? ==>
                  d.timelineUnavailable == Some(verdict.reason) && d.completionStart == before.completionStart)
            && (verdict.Accepted? ==>
                  && d.timelineUnavailable == before.timelineUnavailable
                  && d.completionStart == if before.completionStart.Some? then before.completionStart
                                          else Some(Stamp(raw.clock.value, raw.edges[2].value)))
            && (forall g :: g != gen ==> DetailOf(after, g) == DetailOf(trace, g))
  {
    if Judge(genStart, raw, NowNs(trace, t)).Accepted? {
      var s := Stamps(raw.clock.value, raw);
      PhasesKeepTotals(trace.(details := trace.details[gen := Completed(Counted(DetailOf(trace, gen), stat), s)]), s, 3);
    }
  }

  /**
   What a finished request adds to the totals: its queue and prefill time once each, its decode time once for each token
   after the first.
  */
  lemma RequestTotals(trace: Trace, stat: Stat, name: Name)
    ensures var a, b := StageOf(trace, name), StageOf(Totalled(trace, stat), name);
            if name == Queue then b == Aggregate(a.count + 1, a.total + Positive(stat.queued))
            else if name == Prefill then b == Aggregate(a.count + 1, a.total + Positive(stat.prefill))
            else if name == Decode && stat.generationTokens.Some? then
              b == Aggregate(a.count + (if stat.generationTokens.value > 1 then stat.generationTokens.value - 1 else 0),
                             a.total + Positive(stat.decode))
            else b == a
    ensures Totalled(trace, stat).engineRequests == trace.engineRequests + 1
  {
    var counted := trace.(engineRequests := trace.engineRequests + 1);
    var queued := AddStage(counted, Queue, stat.queued, 1);
    AddStageTotals(counted, Queue, stat.queued, 1, name);
    AddStageTotals(queued, Prefill, stat.prefill, 1, name);
    if stat.generationTokens.Some? {
      AddStageTotals(AddStage(queued, Prefill, stat.prefill, 1), Decode, stat.decode, Max(0, stat.generationTokens.value - 1), name);
    }
  }

  // The record holds both ends of the wait, and there is a clock to convert them.
  predicate Timed(raw: Raw) {
    raw.clock.Some? && raw.stages.Some? && raw.stages.value.waitingEnter.Some? && raw.stages.value.firstSchedule.Some?
  }

  // Both ends of the wait, converted, lie in the generation's window.
  predicate WaitAccepted(trace: Trace, genStart: int, raw: Raw, at: Readings) {
    && Timed(raw)
    && genStart <= Stamp(raw.clock.value, raw.stages.value.waitingEnter.value)
                <= Stamp(raw.clock.value, raw.stages.value.firstSchedule.value) <= NowNs(trace, at.waiting)
  }

  // So do the start of the first execution kept and the end of the last.
  predicate RunsAccepted(trace: Trace, genStart: int, raw: Raw, at: Readings) {
    && raw.clock.Some? && raw.stages.Some?
    && var c, runs := raw.clock.value, raw.stages.value.executeIntervals;
       runs != [] && genStart <= Stamp(c, runs[0].0) <= Stamp(c, runs[|runs| - 1].1) <= NowNs(trace, at.execution)
  }

  function WaitSpan(raw: Raw, uid: nat): Observation
    requires Timed(raw)
  {
    Span(uid, WaitingToFirstSchedule, Stamp(raw.clock.value, raw.stages.value.waitingEnter.value),
         Stamp(raw.clock.value, raw.stages.value.firstSchedule.value))
  }

  function RunSpan(raw: Raw, uid: nat): Observation
    requires raw.clock.Some? && raw.stages.Some? && raw.stages.value.executeIntervals != []
  {
    var runs := raw.stages.value.executeIntervals;
    Span(uid, ExecuteModel, Stamp(raw.clock.value, runs[0].0), Stamp(raw.clock.value, runs[|runs| - 1].1))
  }

  // The wait, when it is accepted, and then the executions, when they are.
  function Waits(trace: Trace, genStart: int, raw: Raw, at: Readings, uid: nat): seq<Observation> {
    if !WaitAccepted(trace, genStart, raw, at) then []
    else if !RunsAccepted(trace, genStart, raw, at) then [WaitSpan(raw, uid)]
    else [WaitSpan(raw, uid), RunSpan(raw, uid + 1)]
  }

  /**
   The spans that the engine-stage recorder appends: from entering the queue to the first schedule, when both convert into
   the window, and then from the start of the first execution to the end of the last, when these do too.
  */
  lemma {:induction false} StageSpansRecorded(trace: Trace, gen: nat, genStart: int, raw: Raw, at: Readings)
    ensures RecordStages(trace, gen, genStart, raw, at).observations ==
            trace.observations + Waits(trace, genStart, raw, at, trace.nextId)
    ensures RecordStages(trace, gen, genStart, raw, at).nextId ==
            trace.nextId + |Waits(trace, genStart, raw, at, trace.nextId)|
  {
    if !WaitAccepted(trace, genStart, raw, at) {
      assert trace.observations + [] == trace.observations;
    }
  }

  /** What it copies into the generation: five counters of the record, and the reason when there is no waiting span. */
  lemma {:induction false} StageDetail(trace: Trace, gen: nat, genStart: int, raw: Raw, at: Readings)
    requires raw.stages.Some?
    ensures var before, after, r := DetailOf(trace, gen), RecordStages(trace, gen, genStart, raw, at), raw.stages.value;
            var d := DetailOf(after, gen);
            && d.scheduleSteps == r.scheduleSteps && d.prefillChunks == r.prefillChunks && d.decodeSteps == r.decodeSteps
            && d.contentionSteps == r.contentionSteps && d.contentionSeconds == r.contentionSeconds
            && d.waitingUnavailable == (if !Timed(raw) then Some(MissingClock)
                                        else if !WaitAccepted(trace, genStart, raw, at) then Some(ClockSkew)
                                        else before.waitingUnavailable)
            && d.input == before.input && d.output == before.output && d.sequences == before.sequences
            && d.completionStart == before.completionStart && d.timelineUnavailable == before.timelineUnavailable
            && (forall g :: g != gen ==> DetailOf(after, g) == DetailOf(trace, g))
  {
  }

  lemma {:induction false} WaitingKeepsTotals(trace: Trace, gen: nat, genStart: int, raw: Raw, at: Readings)
    requires Timed(raw)
    ensures WaitingSpan(trace, gen, genStart, raw.clock.value, raw.stages.value, at).stages == trace.stages
  {
  }

  /** What it adds to the totals: the scheduling and execution time of the record, over at least one step each. */
  lemma {:induction false} StageTotalsAdded(trace: Trace, gen: nat, genStart: int, raw: Raw, at: Readings, name: Name)
    requires raw.stages.Some?
    ensures var a, b := StageOf(trace, name), StageOf(RecordStages(trace, gen, genStart, raw, at), name);
            var r := raw.stages.value;
            if name == ScheduleTotal then
              b == Aggregate(a.count + (if r.scheduleSteps > 1 then r.scheduleSteps else 1), a.total + Positive(r.scheduleSeconds))
            else if name == ExecuteModel then
              b == Aggregate(a.count + (if r.executeSteps > 1 then r.executeSteps else 1), a.total + Positive(r.executeSeconds))
            else b == a
  {
    var r := raw.stages.value;
    var counted := trace.(details := trace.details[gen := Described(DetailOf(trace, gen), r)]);
    var scheduled := AddStage(counted, ScheduleTotal, r.scheduleSeconds, Max(1, r.scheduleSteps));
    AddStageTotals(counted, ScheduleTotal, r.scheduleSeconds, Max(1, r.scheduleSteps), name);
    AddStageTotals(scheduled, ExecuteModel, r.executeSeconds, Max(1, r.executeSteps), name);
    if Timed(raw) {
      WaitingKeepsTotals(AddStage(scheduled, ExecuteModel, r.executeSeconds, Max(1, r.executeSteps)), gen, genStart, raw, at);
    }
  }

  // ---------- What an accepted timeline promises ----------

  function PhaseSpans(trace: Trace, s: seq<int>): (r: seq<Observation>)
    requires |s| == 4
  {
    [ Span(trace.nextId, Queue, s[0], s[1]),
      Span(trace.nextId + 1, Prefill, s[1], s[2]),
      Span(trace.nextId + 2, Decode, s[2], s[3]) ]
  }

  lemma ThreeSpansAdded(trace: Trace, s: seq<int>)
    requires |s| == 4
    ensures WithSpans(trace, s, 3).observations == trace.observations + PhaseSpans(trace, s)
  {
    var one, two := WithSpans(trace, s, 1), WithSpans(trace, s, 2);
    assert one == AddSpan(WithSpans(trace, s, 0), Queue, s[0], s[1]);
    assert two == AddSpan(one, Prefill, s[1], s[2]);
    assert WithSpans(trace, s, 3) == AddSpan(two, Decode, s[2], s[3]);
  }

  // Adding spans changes the observations and the next id, and nothing else.
  lemma {:induction false} WithSpansFrame(trace: Trace, s: seq<int>, k: nat)
    requires |s| == 4 && k <= 3
    ensures var after := WithSpans(trace, s, k);
            after == trace.(observations := after.observations, nextId := trace.nextId + k)
  {
    if k > 0 {
      WithSpansFrame(trace, s, k - 1);
    }
  }

  // The spans that the recorder appended.
  function NewSpans(before: Trace, after: Trace): seq<Observation>
    requires |before.observations| <= |after.observations|
  {
    after.observations[|before.observations|..]
  }

  lemma NewSpansOfAccepted(trace: Trace, gen: nat, genStart: int, stat: Stat, raw: Raw, t: real)
    requires Judge(genStart, raw, NowNs(trace, t)).Accepted? && stat.generationTokens.Some?
    ensures var after := RecordTimeline(trace, gen, genStart, stat, raw, t);
            && |trace.observations| <= |after.observations|
            && trace.observations <= after.observations
            && NewSpans(trace, after) == PhaseSpans(trace, Stamps(raw.clock.value, raw))
  {
    var s := Stamps(raw.clock.value, raw);
    var d := Counted(DetailOf(trace, gen), stat);
    ThreeSpansAdded(trace.(details := trace.details[gen := Completed(d, s)]), s);
  }

  // The i-th new span runs from one converted engine edge to the next.
  lemma NewSpanAt(trace: Trace, gen: nat, genStart: int, stat: Stat, raw: Raw, t: real, i: nat)
    requires Judge(genStart, raw, NowNs(trace, t)).Accepted? && stat.generationTokens.Some? && i < 3
    ensures var after := RecordTimeline(trace, gen, genStart, stat, raw, t);
            && trace.observations <= after.observations && |NewSpans(trace, after)| == 3
            && NewSpans(trace, after)[i] == Span(trace.nextId + i, PHASES[i],
                                                 Stamp(raw.clock.value, raw.edges[i].value),
                                                 Stamp(raw.clock.value, raw.edges[i + 1].value))
  {
    NewSpansOfAccepted(trace, gen, genStart, stat, raw, t);
  }

  // No queue, prefill or decode span is among these.
  predicate NoPhases(observations: seq<Observation>) {
    forall i :: 0 <= i < |observations| ==> forall k :: 0 <= k < 3 ==> !Named(observations[i], PHASES[k])
  }

  predicate Accepts(trace: Trace, genStart: int, stat: Stat, raw: Raw, at: Readings) {
    stat.generationTokens.Some? && Judge(genStart, raw, NowNs(trace, at.timeline)).Accepted?
  }

  /**
   The timeline recorder appends the three phases, with the ids that come next, iff they are accepted and there is a token
   count, and leaves the clock of the trace alone.
  */
  lemma {:induction false} TimelineFrame(trace: Trace, gen: nat, genStart: int, stat: Stat, raw: Raw, at: Readings)
    ensures var after := RecordTimeline(trace, gen, genStart, stat, raw, at.timeline);
            var accepted := Accepts(trace, genStart, stat, raw, at);
            && after.startedNs == trace.startedNs && after.started == trace.started
            && after.nextId == trace.nextId + (if accepted then 3 else 0)
            && after.observations ==
               if accepted then trace.observations + PhaseSpans(trace, Stamps(raw.clock.value, raw)) else trace.observations
  {
    if Accepts(trace, genStart, stat, raw, at) {
      var s := Stamps(raw.clock.value, raw);
      var completed := trace.(details := trace.details[gen := Completed(Counted(DetailOf(trace, gen), stat), s)]);
      WithSpansFrame(completed, s, 3);
      ThreeSpansAdded(completed, s);
    }
  }

  lemma {:induction false} TotalledFrame(trace: Trace, stat: Stat)
    ensures var after := Totalled(trace, stat);
            after == trace.(stages := after.stages, engineRequests := trace.engineRequests + 1)
  {
  }

  // Adding totals changes neither what is accepted nor the spans that acceptance adds.
  lemma {:induction false} TotalledSpans(trace: Trace, genStart: int, stat: Stat, raw: Raw, at: Readings)
    ensures var totalled := Totalled(trace, stat);
            && totalled.observations == trace.observations && totalled.nextId == trace.nextId
            && totalled.startedNs == trace.startedNs && totalled.started == trace.started
            && Accepts(totalled, genStart, stat, raw, at) == Accepts(trace, genStart, stat, raw, at)
            && forall s: seq<int> :: |s| == 4 ==> PhaseSpans(totalled, s) == PhaseSpans(trace, s)
  {
    TotalledFrame(trace, stat);
  }

  // Neither recorder counts the request again.
  lemma {:induction false} TimelineRequests(trace: Trace, gen: nat, genStart: int, stat: Stat, raw: Raw, at: Readings)
    requires stat.generationTokens.Some?
    ensures RecordStages(RecordTimeline(trace, gen, genStart, stat, raw, at.timeline), gen, genStart, raw, at).engineRequests
            == trace.engineRequests
  {
    if Accepts(trace, genStart, stat, raw, at) {
      var s := Stamps(raw.clock.value, raw);
      WithSpansFrame(trace.(details := trace.details[gen := Completed(Counted(DetailOf(trace, gen), stat), s)]), s, 3);
    }
  }

  // The spans that one finished engine request adds to its trace: three phases, a wait, and an execution span, each
  // when its stamps are accepted; none without a token count.
  function PhasesOf(trace: Trace, genStart: int, stat: Stat, raw: Raw, at: Readings): seq<Observation> {
    if Accepts(trace, genStart, stat, raw, at) then PhaseSpans(trace, Stamps(raw.clock.value, raw)) else []
  }

  function WaitOf(trace: Trace, genStart: int, stat: Stat, raw: Raw, at: Readings): seq<Observation> {
    if stat.generationTokens.None? then []
    else Waits(trace, genStart, raw, at, trace.nextId + |PhasesOf(trace, genStart, stat, raw, at)|)
  }

  lemma {:induction false} WaitsAreNoPhases(trace: Trace, genStart: int, raw: Raw, at: Readings, uid: nat)
    ensures NoPhases(Waits(trace, genStart, raw, at, uid))
  {
  }

  lemma WaitsByClock(a: Trace, b: Trace, genStart: int, raw: Raw, at: Readings, uid: nat)
    requires a.startedNs == b.startedNs && a.started == b.started
    ensures Waits(a, genStart, raw, at, uid) == Waits(b, genStart, raw, at, uid)
  {
  }

  lemma {:induction false} TimedObservations(trace: Trace, gen: nat, genStart: int, stat: Stat, raw: Raw, at: Readings)
    requires stat.generationTokens.Some?
    ensures var timed := RecordTimeline(Totalled(trace, stat), gen, genStart, stat, raw, at.timeline);
            && timed.startedNs == trace.startedNs && timed.started == trace.started
            && timed.nextId == trace.nextId + |PhasesOf(trace, genStart, stat, raw, at)|
            && timed.observations == trace.observations + PhasesOf(trace, genStart, stat, raw, at)
  {
    TotalledSpans(trace, genStart, stat, raw, at);
    TimelineFrame(Totalled(trace, stat), gen, genStart, stat, raw, at);
    assert trace.observations + [] == trace.observations;
  }

  // The observations and ids of a trace after these spans were appended.
  predicate Appended(before: Trace, after: Trace, spans: seq<Observation>) {
    after.observations == before.observations + spans && after.nextId == before.nextId + |spans|
  }

  lemma {:induction false} CountedAppends(trace: Trace, gen: nat, genStart: int, stat: Stat, raw: Raw, at: Readings)
    requires stat.generationTokens.Some?
    ensures Appended(trace, Absorb(trace, gen, genStart, stat, raw, at),
                     PhasesOf(trace, genStart, stat, raw, at) + WaitOf(trace, genStart, stat, raw, at))
  {
    var timed := RecordTimeline(Totalled(trace, stat), gen, genStart, stat, raw, at.timeline);
    TimedObservations(trace, gen, genStart, stat, raw, at);
    StageSpansRecorded(timed, gen, genStart, raw, at);
    WaitsByClock(timed, trace, genStart, raw, at, timed.nextId);
    ghost var phases, waits := PhasesOf(trace, genStart, stat, raw, at), WaitOf(trace, genStart, stat, raw, at);
    assert trace.observations + phases + waits == trace.observations + (phases + waits);
  }

  /** What finished statistics append to the observations of their trace, whatever becomes of them. */
  lemma {:induction false} AbsorbAppends(trace: Trace, gen: nat, genStart: int, stat: Stat, raw: Raw, at: Readings)
    ensures Appended(trace, Absorb(trace, gen, genStart, stat, raw, at),
                     PhasesOf(trace, genStart, stat, raw, at) + WaitOf(trace, genStart, stat, raw, at))
    ensures NoPhases(WaitOf(trace, genStart, stat, raw, at))
  {
    if stat.generationTokens.None? {
      TotalledFrame(trace, stat);
      assert trace.observations + ([] + []) == trace.observations;
    } else {
      CountedAppends(trace, gen, genStart, stat, raw, at);
      WaitsAreNoPhases(trace, genStart, raw, at, trace.nextId + |PhasesOf(trace, genStart, stat, raw, at)|);
    }
  }

  /**
   Accepted queue, prefill and decode spans chain end to end inside the generation's window, so they add up
   to last minus first.
  */
  lemma AcceptedSpansChain(trace: Trace, gen: nat, genStart: int, stat: Stat, raw: Raw, t: real)
    requires Judge(genStart, raw, NowNs(trace, t)).Accepted? && stat.generationTokens.Some?
    ensures var after := RecordTimeline(trace, gen, genStart, stat, raw, t);
            && trace.observations <= after.observations
            && var s := NewSpans(trace, after);
               && |s| == 3 && s[0].Span? && s[1].Span? && s[2].Span?
               && s[0].name == Queue && s[1].name == Prefill && s[2].name == Decode
               && genStart <= s[0].start <= s[0].end == s[1].start <= s[1].end == s[2].start <= s[2].end <= NowNs(trace, t)
  {
    NewSpansOfAccepted(trace, gen, genStart, stat, raw, t);
  }

  /**
   Whatever the calibration error, each accepted span lasts within two nanoseconds of the engine's
   own figure, and within one when its edges precede the calibration.
   */
  lemma AcceptedDurationsAreTrue(trace: Trace, gen: nat, genStart: int, stat: Stat, raw: Raw, t: real, i: nat)
    requires Judge(genStart, raw, NowNs(trace, t)).Accepted? && stat.generationTokens.Some? && i < 3
    ensures var after := RecordTimeline(trace, gen, genStart, stat, raw, t);
            && trace.observations <= after.observations && |NewSpans(trace, after)| == 3 && NewSpans(trace, after)[i].Span?
            && var s, a, b := NewSpans(trace, after)[i], raw.edges[i].value, raw.edges[i + 1].value;
               && Abs((s.end - s.start) as real - (b - a) * NANOS) < 2.0
               && (a <= raw.clock.value.mono && b <= raw.clock.value.mono ==> Abs((s.end - s.start) as real - (b - a) * NANOS) < 1.0)
  {
    NewSpanAt(trace, gen, genStart, stat, raw, t, i);
    StampDuration(raw.clock.value, raw.edges[i].value, raw.edges[i + 1].value);
  }

  /** Edges the engine reports in order are refused only when they fall outside the window. */
  lemma OrderedEdgesNeedOnlyTheWindow(genStart: int, raw: Raw, now: int)
    requires raw.clock.Some? && Usable(raw)
    requires forall i :: 0 <= i < 3 ==> raw.edges[i].value <= raw.edges[i + 1].value
    ensures Judge(genStart, raw, now).Accepted? <==>
            genStart <= Stamp(raw.clock.value, raw.edges[0].value) && Stamp(raw.clock.value, raw.edges[3].value) <= now
  {
  }

  /** A waiting interval measured by the registry is likewise refused only by the window. */
  lemma RegistryWaitNeedsOnlyTheWindow(h: seq<SR.Event>, id: SR.RequestId, c: Calibration, genStart: int, now: int)
    requires SR.Monotonic(h) && id in SR.Run(h) && SR.Run(h)[id].firstSchedule.Some?
    ensures var record := SR.Run(h)[id];
            && record.waitingEnter.Some?
            && var start, end := Stamp(c, record.waitingEnter.value), Stamp(c, record.firstSchedule.value);
               InWindow(genStart, start, end, now) <==> genStart <= start && end <= now
  {
    SR.WaitingPrecedesSchedule(h, id);
    var record := SR.Run(h)[id];
    StampMonotone(c, record.waitingEnter.value, record.firstSchedule.value);
  }

  /** Each end of an accepted span is within the calibration bound of the true wall time of its engine edge. */
  lemma AcceptedSpansAreTrue(trace: Trace, gen: nat, genStart: int, stat: Stat, raw: Raw, t: real,
                             before: int, wall: int, after: int, m: real, offset: real, i: nat)
    requires Judge(genStart, raw, NowNs(trace, t)).Accepted? && stat.generationTokens.Some? && i < 3
    requires raw.clock.value == Sample(before, wall, after)
    requires before as real <= m <= after as real && wall as real == m + offset
    ensures var done := RecordTimeline(trace, gen, genStart, stat, raw, t);
            && |trace.observations| <= |done.observations|
            && |NewSpans(trace, done)| == 3
            && var s := NewSpans(trace, done)[i];
               && s.Span?
               && Abs(s.start as real - (raw.edges[i].value * NANOS + offset)) < (after - before) as real / 2.0 + 1.0
               && Abs(s.end as real - (raw.edges[i + 1].value * NANOS + offset)) < (after - before) as real / 2.0 + 1.0
  {
    NewSpanAt(trace, gen, genStart, stat, raw, t, i);
    CalibrationBound(before, wall, after, m, offset, raw.edges[i].value);
    CalibrationBound(before, wall, after, m, offset, raw.edges[i + 1].value);
  }

  // ---------- Accumulation over parallel sequences ----------

  datatype Arrival = Arrival(stat: Stat, raw: Raw, at: Readings)

  function AbsorbAll(trace: Trace, gen: nat, genStart: int, arrivals: seq<Arrival>): Trace {
    if arrivals == [] then trace
    else
      var a := arrivals[|arrivals| - 1];
      Absorb(AbsorbAll(trace, gen, genStart, arrivals[..|arrivals| - 1]), gen, genStart, a.stat, a.raw, a.at)
  }

  // What a list of finished engine requests comes to.
  datatype Bill = Bill(requests: nat, input: int, output: int, queued: real, prefill: real, decode: real, decodeTokens: int)

  // A request whose token count is missing is counted, with its queue and prefill time, and nothing else of it is.
  function OneMore(b: Bill, s: Stat): Bill {
    var timed :=
      b.(requests := b.requests + 1, queued := b.queued + Positive(s.queued), prefill := b.prefill + Positive(s.prefill));
    if s.generationTokens.None? then timed
    else
      timed.(input := b.input + OrZero(s.promptTokens), output := b.output + s.generationTokens.value,
             decode := b.decode + Positive(s.decode), decodeTokens := b.decodeTokens + Max(0, s.generationTokens.value - 1))
  }

  function BillOf(arrivals: seq<Arrival>): Bill {
    if arrivals == [] then Bill(0, 0, 0, 0.0, 0.0, 0.0, 0)
    else OneMore(BillOf(arrivals[..|arrivals| - 1]), arrivals[|arrivals| - 1].stat)
  }

  function Together(a: Bill, b: Bill): Bill {
    Bill(a.requests + b.requests, a.input + b.input, a.output + b.output, a.queued + b.queued,
         a.prefill + b.prefill, a.decode + b.decode, a.decodeTokens + b.decodeTokens)
  }

  // The running totals of one generation and its trace.
  function TotalsOf(trace: Trace, gen: nat): Bill {
    var d := DetailOf(trace, gen);
    Bill(trace.engineRequests, OrZero(d.input), OrZero(d.output), StageOf(trace, Queue).total, StageOf(trace, Prefill).total,
         StageOf(trace, Decode).total, StageOf(trace, Decode).count)
  }

  lemma PhasesKeepTotals(trace: Trace, s: seq<int>, k: nat)
    requires |s| == 4 && k <= 3
    ensures var after := WithSpans(trace, s, k);
            after.details == trace.details && after.stages == trace.stages && after.engineRequests == trace.engineRequests
  {
  }

  lemma TimelineTotals(trace: Trace, gen: nat, genStart: int, stat: Stat, raw: Raw, t: real)
    ensures var a, b := TotalsOf(trace, gen), TotalsOf(RecordTimeline(trace, gen, genStart, stat, raw, t), gen);
            b == a.(input := a.input + OrZero(stat.promptTokens), output := a.output + OrZero(stat.generationTokens))
  {
    if Judge(genStart, raw, NowNs(trace, t)).Accepted? {
      var s := Stamps(raw.clock.value, raw);
      var d := Counted(DetailOf(trace, gen), stat);
      PhasesKeepTotals(trace.(details := trace.details[gen := Completed(d, s)]), s, 3);
    }
  }

  lemma StagesKeepTotals(trace: Trace, gen: nat, genStart: int, raw: Raw, at: Readings)
    ensures TotalsOf(RecordStages(trace, gen, genStart, raw, at), gen) == TotalsOf(trace, gen)
  {
  }

  lemma StageTotals(trace: Trace, gen: nat, stat: Stat)
    ensures var b, after := TotalsOf(trace, gen), TotalsOf(Totalled(trace, stat), gen);
            after == OneMore(b, stat).(input := b.input, output := b.output)
  {
  }

  lemma AbsorbTotals(trace: Trace, gen: nat, genStart: int, stat: Stat, raw: Raw, at: Readings)
    ensures TotalsOf(Absorb(trace, gen, genStart, stat, raw, at), gen) == OneMore(TotalsOf(trace, gen), stat)
  {
    var totalled := Totalled(trace, stat);
    StageTotals(trace, gen, stat);
    if stat.generationTokens.Some? {
      TimelineTotals(totalled, gen, genStart, stat, raw, at.timeline);
      StagesKeepTotals(RecordTimeline(totalled, gen, genStart, stat, raw, at.timeline), gen, genStart, raw, at);
    }
  }

  /**
   However many sequences a generation ran, and whatever became of their timelines, its usage, the
   stage totals and the request count are exactly the sums over those sequences.
   */
  lemma {:induction false} TotalsAccumulate(trace: Trace, gen: nat, genStart: int, arrivals: seq<Arrival>)
    ensures TotalsOf(AbsorbAll(trace, gen, genStart, arrivals), gen) == Together(TotalsOf(trace, gen), BillOf(arrivals))
  {
    if arrivals == [] {
    } else {
      var n := |arrivals| - 1;
      var a := arrivals[n];
      TotalsAccumulate(trace, gen, genStart, arrivals[..n]);
      AbsorbTotals(AbsorbAll(trace, gen, genStart, arrivals[..n]), gen, genStart, a.stat, a.raw, a.at);
    }
  }
}
