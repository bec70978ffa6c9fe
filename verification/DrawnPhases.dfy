/** Which engine stages a run ends up drawing: those of the last statistics that the recorder accepted. */
module DrawnPhases {
  import opened Common
  import opened Clock
  import opened TraceEvents
  import opened Timeline
  import opened Layout
  import opened RequestTraces
  import opened EndToEnd
  import EC = EngineClock
  import ES = EngineStats

  // ---------- The phases that a list of observations holds ----------

  predicate Stamped(span: Option<Observation>, start: int, end: int) {
    span.Some? && span.value.Span? && span.value.start == start && span.value.end == end
  }

  // The last queue, prefill and decode spans run from each stamp to the next.
  predicate HoldsPhases(observations: seq<Observation>, s: seq<int>) {
    && |s| == 4
    && Stamped(LastSpan(observations, Queue), s[0], s[1])
    && Stamped(LastSpan(observations, Prefill), s[1], s[2])
    && Stamped(LastSpan(observations, Decode), s[2], s[3])
  }

  predicate SamePhases(before: seq<Observation>, after: seq<Observation>) {
    && LastSpan(after, Queue) == LastSpan(before, Queue)
    && LastSpan(after, Prefill) == LastSpan(before, Prefill)
    && LastSpan(after, Decode) == LastSpan(before, Decode)
  }

  // Observations were appended or closed, and no phase was added.
  ghost predicate PhasesUntouched(before: seq<Observation>, after: seq<Observation>) {
    forall k :: 0 <= k < 3 ==> SameSpans(before, after, ES.PHASES[k])
  }

  lemma UntouchedPhasesStay(before: seq<Observation>, after: seq<Observation>)
    requires PhasesUntouched(before, after)
    ensures SamePhases(before, after)
  {
    assert ES.PHASES[0] == Queue && ES.PHASES[1] == Prefill && ES.PHASES[2] == Decode;
    SameSpansKeepLast(before, after, ES.PHASES[0]);
    SameSpansKeepLast(before, after, ES.PHASES[1]);
    SameSpansKeepLast(before, after, ES.PHASES[2]);
  }

  lemma {:induction false} TailKeepsPhases(observations: seq<Observation>, tail: seq<Observation>)
    requires ES.NoPhases(tail)
    ensures SamePhases(observations, observations + tail)
  {
    var all := observations + tail;
    forall k | 0 <= k < 3
      ensures SameSpans(observations, all, ES.PHASES[k])
    {
      forall i | |observations| <= i < |all| ensures !Named(all[i], ES.PHASES[k]) {
        assert all[i] == tail[i - |observations|];
      }
    }
    UntouchedPhasesStay(observations, all);
  }

  lemma {:induction false} NewPhasesHold(before: seq<Observation>, trace: Trace, s: seq<int>)
    requires |s| == 4
    ensures HoldsPhases(before + ES.PhaseSpans(trace, s), s)
  {
    var all, phases, n := before + ES.PhaseSpans(trace, s), ES.PhaseSpans(trace, s), |before|;
    assert all[n] == phases[0] && all[n + 1] == phases[1] && all[n + 2] == phases[2];
    LastSpanIs(all, Queue, n);
    LastSpanIs(all, Prefill, n + 1);
    LastSpanIs(all, Decode, n + 2);
  }

  // ---------- One operation ----------

  predicate AcceptedStats(trace: Trace, op: Op) {
    op.Stats? && ES.Accepts(trace, op.genStart, op.stat, op.raw, op.at)
  }

  function StampsOf(op: Op): (s: seq<int>)
    requires op.Stats? && op.raw.clock.Some? && ES.Usable(op.raw)
    ensures |s| == 4
  {
    ES.Stamps(op.raw.clock.value, op.raw)
  }

  // The observations after these were appended: first phases or none, and then spans that are no phases.
  lemma {:induction false} AppendedPhases(before: seq<Observation>, trace: Trace, s: Option<seq<int>>, waits: seq<Observation>)
    requires ES.NoPhases(waits) && (s.Some? ==> |s.value| == 4)
    ensures var after := before + ((if s.Some? then ES.PhaseSpans(trace, s.value) else []) + waits);
            if s.Some? then HoldsPhases(after, s.value) else SamePhases(before, after)
  {
    var phases := if s.Some? then ES.PhaseSpans(trace, s.value) else [];
    assert before + (phases + waits) == (before + phases) + waits;
    TailKeepsPhases(before + phases, waits);
    if s.Some? {
      NewPhasesHold(before, trace, s.value);
    } else {
      assert before + [] == before;
    }
  }

  lemma {:induction false} StatsPhases(trace: Trace, op: Op)
    requires op.Stats?
    ensures var after := Apply(trace, op).observations;
            if AcceptedStats(trace, op) then HoldsPhases(after, StampsOf(op)) else SamePhases(trace.observations, after)
  {
    ES.AbsorbAppends(trace, op.gen, op.genStart, op.stat, op.raw, op.at);
    AppendedPhases(trace.observations, trace, if AcceptedStats(trace, op) then Some(StampsOf(op)) else None,
                   ES.WaitOf(trace, op.genStart, op.stat, op.raw, op.at));
  }

  /** Accepted statistics replace all three phases at once; nothing else touches any of them. */
  lemma {:induction false} StepPhases(trace: Trace, op: Op)
    ensures var after := Apply(trace, op).observations;
            if AcceptedStats(trace, op) then HoldsPhases(after, StampsOf(op)) else SamePhases(trace.observations, after)
  {
    if op.Stats? {
      StatsPhases(trace, op);
    } else {
      assert PhasesUntouched(trace.observations, Apply(trace, op).observations);
      UntouchedPhasesStay(trace.observations, Apply(trace, op).observations);
    }
  }

  predicate Together(observations: seq<Observation>) {
    && (LastSpan(observations, Prefill).Some? <==> LastSpan(observations, Decode).Some?)
    && (LastSpan(observations, Prefill).Some? <==> LastSpan(observations, Queue).Some?)
  }

  /** No run records a prefill span without a queue span and a decode span, or one of those without it. */
  lemma {:induction false} PhasesComeTogether(startedNs: int, started: real, ops: seq<Op>)
    ensures Together(Replay(NewTrace(startedNs, started), ops).observations)
  {
    if ops == [] {
    } else {
      var n := |ops| - 1;
      PhasesComeTogether(startedNs, started, ops[..n]);
      StepPhases(Replay(NewTrace(startedNs, started), ops[..n]), ops[n]);
    }
  }

  // ---------- The wait measured by the registry ----------

  predicate AcceptedWait(trace: Trace, op: Op) {
    op.Stats? && op.stat.generationTokens.Some? && ES.WaitAccepted(trace, op.genStart, op.raw, op.at)
  }

  // When the registry saw the request enter the queue, and when it was first scheduled.
  function EnteredAt(op: Op): int
    requires op.Stats? && ES.Timed(op.raw)
  {
    EC.Stamp(op.raw.clock.value, op.raw.stages.value.waitingEnter.value)
  }

  function ScheduledAt(op: Op): int
    requires op.Stats? && ES.Timed(op.raw)
  {
    EC.Stamp(op.raw.clock.value, op.raw.stages.value.firstSchedule.value)
  }

  lemma {:induction false} NewWaitHolds(before: seq<Observation>, waits: seq<Observation>)
    requires waits != [] && Named(waits[0], WaitingToFirstSchedule)
    requires forall i :: 1 <= i < |waits| ==> !Named(waits[i], WaitingToFirstSchedule)
    ensures LastSpan(before + waits, WaitingToFirstSchedule) == Some(waits[0])
  {
    LastSpanIs(before + waits, WaitingToFirstSchedule, |before|);
  }

  lemma {:induction false} NoWaitAdded(before: seq<Observation>, added: seq<Observation>)
    requires forall i :: 0 <= i < |added| ==> !Named(added[i], WaitingToFirstSchedule)
    ensures SameSpans(before, before + added, WaitingToFirstSchedule)
  {
  }

  lemma {:induction false} WaitsOf(trace: Trace, op: Op)
    requires op.Stats?
    ensures var phases := ES.PhasesOf(trace, op.genStart, op.stat, op.raw, op.at);
            var waits := ES.WaitOf(trace, op.genStart, op.stat, op.raw, op.at);
            && (forall i :: 0 <= i < |phases| ==> !Named(phases[i], WaitingToFirstSchedule))
            && (forall i :: 1 <= i < |waits| ==> !Named(waits[i], WaitingToFirstSchedule))
            && (AcceptedWait(trace, op) ==> waits != [] && Named(waits[0], WaitingToFirstSchedule)
                                            && Stamped(Some(waits[0]), EnteredAt(op), ScheduledAt(op)))
            && (!AcceptedWait(trace, op) ==> waits == [])
  {
  }

  lemma {:induction false} StatsWait(trace: Trace, op: Op)
    requires op.Stats?
    ensures var before, after := trace.observations, Apply(trace, op).observations;
            if AcceptedWait(trace, op)
            then Stamped(LastSpan(after, WaitingToFirstSchedule), EnteredAt(op), ScheduledAt(op))
            else SameSpans(before, after, WaitingToFirstSchedule)
  {
    var phases := ES.PhasesOf(trace, op.genStart, op.stat, op.raw, op.at);
    var waits := ES.WaitOf(trace, op.genStart, op.stat, op.raw, op.at);
    ES.AbsorbAppends(trace, op.gen, op.genStart, op.stat, op.raw, op.at);
    WaitsOf(trace, op);
    assert trace.observations + (phases + waits) == (trace.observations + phases) + waits;
    if AcceptedWait(trace, op) {
      NewWaitHolds(trace.observations + phases, waits);
    } else {
      assert phases + waits == phases;
      NoWaitAdded(trace.observations, phases);
    }
  }

  /** An accepted measurement of the wait replaces the one before; nothing else touches it. */
  lemma {:induction false} StepWait(trace: Trace, op: Op)
    ensures var before, after := trace.observations, Apply(trace, op).observations;
            if AcceptedWait(trace, op)
            then Stamped(LastSpan(after, WaitingToFirstSchedule), EnteredAt(op), ScheduledAt(op))
            else LastSpan(after, WaitingToFirstSchedule) == LastSpan(before, WaitingToFirstSchedule)
  {
    if op.Stats? {
      StatsWait(trace, op);
    }
    if !AcceptedWait(trace, op) {
      assert SameSpans(trace.observations, Apply(trace, op).observations, WaitingToFirstSchedule);
      SameSpansKeepLast(trace.observations, Apply(trace, op).observations, WaitingToFirstSchedule);
    }
  }

  // Operation j of the run brings an accepted measurement of the wait.
  ghost predicate WaitsAt(startedNs: int, started: real, ops: seq<Op>, j: nat) {
    j < |ops| && AcceptedWait(Replay(NewTrace(startedNs, started), ops[..j]), ops[j])
  }

  ghost predicate LastWait(startedNs: int, started: real, ops: seq<Op>, w: nat) {
    WaitsAt(startedNs, started, ops, w) && forall j :: w < j < |ops| ==> !WaitsAt(startedNs, started, ops, j)
  }

  // The wait was measured last by some operation of the run, or by none.
  ghost predicate WaitRead(startedNs: int, started: real, ops: seq<Op>, wait: Option<Observation>) {
    if wait.None? then forall j :: 0 <= j < |ops| ==> !WaitsAt(startedNs, started, ops, j)
    else exists w: nat :: LastWait(startedNs, started, ops, w) && Stamped(wait, EnteredAt(ops[w]), ScheduledAt(ops[w]))
  }

  lemma WaitsAtPrefix(startedNs: int, started: real, ops: seq<Op>, op: Op, j: nat)
    requires j < |ops|
    ensures WaitsAt(startedNs, started, ops + [op], j) <==> WaitsAt(startedNs, started, ops, j)
  {
    assert (ops + [op])[..j] == ops[..j];
  }

  lemma {:induction false} WaitReadStays(startedNs: int, started: real, ops: seq<Op>, op: Op, wait: Option<Observation>)
    requires WaitRead(startedNs, started, ops, wait) && !WaitsAt(startedNs, started, ops + [op], |ops|)
    ensures WaitRead(startedNs, started, ops + [op], wait)
  {
    forall j | 0 <= j < |ops|
      ensures WaitsAt(startedNs, started, ops + [op], j) <==> WaitsAt(startedNs, started, ops, j)
    {
      WaitsAtPrefix(startedNs, started, ops, op, j);
    }
    if wait.Some? {
      var w: nat :| LastWait(startedNs, started, ops, w) && Stamped(wait, EnteredAt(ops[w]), ScheduledAt(ops[w]));
      assert (ops + [op])[w] == ops[w];
      assert LastWait(startedNs, started, ops + [op], w);
    }
  }

  lemma {:induction false} WaitReadAnew(startedNs: int, started: real, ops: seq<Op>, wait: Option<Observation>)
    requires ops != [] && WaitsAt(startedNs, started, ops, |ops| - 1)
    requires Stamped(wait, EnteredAt(ops[|ops| - 1]), ScheduledAt(ops[|ops| - 1]))
    ensures WaitRead(startedNs, started, ops, wait)
  {
    assert LastWait(startedNs, started, ops, |ops| - 1);
  }

  /** After any run the recorded wait is that of the last operation whose measurement was accepted, if there was one. */
  lemma {:induction false} LastWaitIsRecorded(startedNs: int, started: real, ops: seq<Op>)
    ensures WaitRead(startedNs, started, ops,
                     LastSpan(Replay(NewTrace(startedNs, started), ops).observations, WaitingToFirstSchedule))
  {
    if ops == [] {
    } else {
      var n := |ops| - 1;
      LastWaitIsRecorded(startedNs, started, ops[..n]);
      StepWait(Replay(NewTrace(startedNs, started), ops[..n]), ops[n]);
      assert ops == ops[..n] + [ops[n]];
      var wait := LastSpan(Replay(NewTrace(startedNs, started), ops).observations, WaitingToFirstSchedule);
      if WaitsAt(startedNs, started, ops, n) {
        WaitReadAnew(startedNs, started, ops, wait);
      } else {
        WaitReadStays(startedNs, started, ops[..n], ops[n], wait);
      }
    }
  }

  // ---------- The generation they belong to ----------

  // The first generation is the one at index i; when it has been closed, that was no earlier than the floor.
  ghost predicate OpenUntil(trace: Trace, i: nat, id: nat, start: int, floor: int) {
    && FirstGenerationAt(trace.observations, i)
    && var g := trace.observations[i];
       g.id == id && g.start == start && (g.closed.Some? ==> floor <= g.closed.value)
  }

  lemma {:induction false} AppendKeepsOpen(trace: Trace, after: Trace, i: nat, id: nat, start: int, floor: int)
    requires OpenUntil(trace, i, id, start, floor) && trace.observations <= after.observations
    ensures OpenUntil(after, i, id, start, floor)
  {
  }

  lemma {:induction false} StepKeepsOpen(trace: Trace, op: Op, i: nat, id: nat, start: int, floor: int)
    requires OpenUntil(trace, i, id, start, floor) && floor <= NowNs(trace, op.t)
    ensures OpenUntil(Apply(trace, op), i, id, start, floor)
  {
    match op
    case Stats(_, gen, genStart, stat, raw, at) =>
      ES.AbsorbAppends(trace, gen, genStart, stat, raw, at);
      AppendKeepsOpen(trace, Apply(trace, op), i, id, start, floor);
    case End(t, closing) =>
    case Begin(_) => AppendKeepsOpen(trace, Apply(trace, op), i, id, start, floor);
    case Call(_, _, _) => AppendKeepsOpen(trace, Apply(trace, op), i, id, start, floor);
    case Total(_, _, _, _) => AppendKeepsOpen(trace, Apply(trace, op), i, id, start, floor);
  }

  lemma {:induction false} TimelyOrder(started: real, ops: seq<Op>, end: real, i: nat)
    requires Timely(started, ops, end) && i < |ops|
    ensures ops[i].t <= end && InTurn(ops[i])
  {
    var n := |ops| - 1;
    if i < n {
      TimelyOrder(started, ops[..n], ops[n].t, i);
    }
  }

  // ---------- Whole runs ----------

  // Operation i is the last accepted statistics of the run, and they are those of the first generation, still open.
  ghost predicate LastAccepted(startedNs: int, started: real, ops: seq<Op>, i: nat) {
    && i < |ops|
    && AcceptedStats(Replay(NewTrace(startedNs, started), ops[..i]), ops[i])
    && (forall j :: i < j < |ops| ==> !AcceptedStats(Replay(NewTrace(startedNs, started), ops[..j]), ops[j]))
    && var g := FirstGeneration(Replay(NewTrace(startedNs, started), ops[..i]).observations);
       g.Some? && g.value.closed.None? && g.value.start == ops[i].genStart
  }

  // What the run keeps from then on: the phases, and the generation that they lie in.
  ghost predicate Settled(trace: Trace, op: Op, g: nat, id: nat, floor: int)
    requires op.Stats? && op.raw.clock.Some? && ES.Usable(op.raw)
  {
    HoldsPhases(trace.observations, StampsOf(op)) && OpenUntil(trace, g, id, op.genStart, floor)
  }

  lemma {:induction false} AcceptedSettle(trace: Trace, op: Op, floor: int) returns (g: nat, id: nat)
    requires AcceptedStats(trace, op) && floor <= NowNs(trace, op.t)
    requires var g := FirstGeneration(trace.observations);
             g.Some? && g.value.closed.None? && g.value.start == op.genStart
    ensures Settled(Apply(trace, op), op, g, id, floor)
  {
    StepPhases(trace, op);
    g :| 0 <= g < |trace.observations| && trace.observations[g] == FirstGeneration(trace.observations).value
         && trace.observations[g].Generation? && forall j :: 0 <= j < g ==> !trace.observations[j].Generation?;
    id := trace.observations[g].id;
    StepKeepsOpen(trace, op, g, id, op.genStart, floor);
  }

  lemma {:induction false} AcceptedSettles(startedNs: int, started: real, ops: seq<Op>, end: real, i: nat)
    returns (g: nat, id: nat)
    requires Timely(started, ops, end) && LastAccepted(startedNs, started, ops, i) && |ops| == i + 1
    ensures Settled(Replay(NewTrace(startedNs, started), ops), ops[i], g, id, NowNs(NewTrace(startedNs, started), ops[i].t))
  {
    ReplayKeeps(startedNs, started, ops[..i], ops[i].t);
    g, id := AcceptedSettle(Replay(NewTrace(startedNs, started), ops[..i]), ops[i],
                            NowNs(NewTrace(startedNs, started), ops[i].t));
  }

  lemma {:induction false} LastAcceptedBefore(startedNs: int, started: real, ops: seq<Op>, i: nat)
    requires LastAccepted(startedNs, started, ops, i) && i < |ops| - 1
    ensures LastAccepted(startedNs, started, ops[..|ops| - 1], i)
    ensures !AcceptedStats(Replay(NewTrace(startedNs, started), ops[..|ops| - 1]), ops[|ops| - 1])
  {
    var init := ops[..|ops| - 1];
    assert init[..i] == ops[..i];
    forall j | i < j < |init|
      ensures !AcceptedStats(Replay(NewTrace(startedNs, started), init[..j]), init[j])
    {
      assert init[..j] == ops[..j];
    }
  }

  lemma {:induction false} SettledStep(trace: Trace, op: Op, g: nat, id: nat, floor: int, next: Op)
    requires op.Stats? && op.raw.clock.Some? && ES.Usable(op.raw) && Settled(trace, op, g, id, floor)
    requires !AcceptedStats(trace, next) && floor <= NowNs(trace, next.t)
    ensures Settled(Apply(trace, next), op, g, id, floor)
  {
    StepPhases(trace, next);
    StepKeepsOpen(trace, next, g, id, op.genStart, floor);
  }

  lemma {:induction false} LaterReading(startedNs: int, started: real, ops: seq<Op>, end: real, i: nat)
    requires Timely(started, ops, end) && i < |ops| - 1
    ensures Timely(started, ops[..|ops| - 1], ops[|ops| - 1].t)
    ensures NowNs(NewTrace(startedNs, started), ops[i].t)
            <= NowNs(Replay(NewTrace(startedNs, started), ops[..|ops| - 1]), ops[|ops| - 1].t)
  {
    var init, next := ops[..|ops| - 1], ops[|ops| - 1];
    ReplayKeeps(startedNs, started, init, next.t);
    TimelyOrder(started, init, next.t, i);
    NowNsMonotone(NewTrace(startedNs, started), ops[i].t, next.t);
  }

  lemma {:induction false} SettledStays(startedNs: int, started: real, ops: seq<Op>, end: real, i: nat)
    returns (g: nat, id: nat)
    requires Timely(started, ops, end) && LastAccepted(startedNs, started, ops, i)
    ensures Settled(Replay(NewTrace(startedNs, started), ops), ops[i], g, id, NowNs(NewTrace(startedNs, started), ops[i].t))
  {
    if i == |ops| - 1 {
      g, id := AcceptedSettles(startedNs, started, ops, end, i);
    } else {
      LastAcceptedBefore(startedNs, started, ops, i);
      LaterReading(startedNs, started, ops, end, i);
      g, id := SettledStays(startedNs, started, ops[..|ops| - 1], ops[|ops| - 1].t, i);
      assert ops[..|ops| - 1][i] == ops[i];
      SettledStep(Replay(NewTrace(startedNs, started), ops[..|ops| - 1]), ops[i], g, id,
                  NowNs(NewTrace(startedNs, started), ops[i].t), ops[|ops| - 1]);
    }
  }

  // ---------- The drawn stages ----------

  // Where waiting is drawn from: the registry's own measurement when there is one, else the queue span.
  function WaitingStart(observations: seq<Observation>, queued: int): int {
    var calibrated := LastSpan(observations, WaitingToFirstSchedule);
    if calibrated.Some? then calibrated.value.start else queued
  }

  // The stage bounds that these stamps give. Where waiting starts no later than prefill they are the stamps themselves.
  function PhaseCuts(genStart: int, waiting: int, s: seq<int>, genEnd: int): (cuts: seq<int>)
    requires |s| == 4
    ensures |cuts| == 6
    ensures genStart <= waiting <= s[1] && ES.InOrder(s) && s[3] <= genEnd ==>
              cuts == [genStart, waiting, s[1], s[2], s[3], genEnd]
  {
    var w := Clamp(waiting, genStart, genEnd);
    [genStart, w, Max(w, s[1]), Max(w, s[2]), Max(w, s[3]), genEnd]
  }

  lemma {:induction false} CutPointIs(cuts: seq<int>, k: nat, m: int)
    requires |cuts| == 6 && k <= 5 && cuts[0] <= cuts[5]
    requires k == 0 ==> m == cuts[0]
    requires k > 0 ==> m == Max(CutPoint(cuts, k - 1), Clamp(cuts[k], cuts[0], cuts[5]))
    requires k > 1 ==> Clamp(cuts[k - 1], cuts[0], cuts[5]) <= CutPoint(cuts, k - 1)
    ensures CutPoint(cuts, k) == m
  {
    if k > 0 {
      CursorStep(cuts, k);
    }
  }

  lemma {:induction false} PhaseCutPoints(cuts: seq<int>, s: seq<int>, k: nat)
    requires |cuts| == 6 && |s| == 4 && k <= 5 && ES.InOrder(s)
    requires cuts[0] <= s[0] && s[3] <= cuts[5] && cuts[2..5] == s[1..]
    ensures CutPoint(cuts, k) == PhaseCuts(cuts[0], cuts[1], s, cuts[5])[k]
  {
    assert cuts[2] == cuts[2..5][0] == s[1] && cuts[3] == cuts[2..5][1] == s[2] && cuts[4] == cuts[2..5][2] == s[3];
    if k > 0 {
      PhaseCutPoints(cuts, s, k - 1);
    }
    CutPointIs(cuts, k, PhaseCuts(cuts[0], cuts[1], s, cuts[5])[k]);
  }

  /**
   Phases inside the generation are drawn exactly: each stage between its own stamps, except that a waiting span which
   starts after prefill pushes the stages behind it.
  */
  lemma {:induction false} HeldPhasesAreDrawn(observations: seq<Observation>, s: seq<int>, genStart: int, genEnd: int,
                                              parent: nat, uid: nat, k: nat)
    requires HoldsPhases(observations, s) && ES.InOrder(s) && genStart <= s[0] && s[3] <= genEnd && k < 5
    ensures var cuts := PhaseCuts(genStart, WaitingStart(observations, s[0]), s, genEnd);
            DrawnExactly(StageSegments(Edges(observations, genStart, genEnd), parent, uid), STAGES[k], cuts[k], cuts[k + 1])
  {
    var edges := Edges(observations, genStart, genEnd);
    assert edges[1] == WaitingStart(observations, s[0]);
    assert edges[2..5] == s[1..];
    PhaseCutPoints(edges, s, k);
    PhaseCutPoints(edges, s, k + 1);
    StagesAreDrawnExactly(edges, parent, uid, k);
  }

  lemma {:induction false} SettledEvent(trace: Trace, op: Op, g: nat, id: nat, floor: int, end: real)
    requires op.Stats? && op.raw.clock.Some? && ES.Usable(op.raw)
    requires Settled(trace, op, g, id, floor) && 0 < floor && Closed(EventOf(FinishedTrace(trace, end)))
    ensures var event := EventOf(FinishedTrace(trace, end));
            && event.observations == trace.observations
            && FirstGeneration(event.observations) == Some(trace.observations[g])
            && GenStart(event) == op.genStart && floor <= GenEnd(event)
  {
    FirstGenerationIs(trace.observations, g);
  }

  lemma {:induction false} TimelyPrefix(started: real, ops: seq<Op>, end: real, i: nat)
    requires Timely(started, ops, end) && i < |ops|
    ensures Timely(started, ops[..i], ops[i].t)
  {
    var n := |ops| - 1;
    if i < n {
      TimelyPrefix(started, ops[..n], ops[n].t, i);
      assert ops[..n][..i] == ops[..i];
    }
  }

  // What acceptance says about the stamps.
  lemma {:induction false} AcceptedInTime(startedNs: int, started: real, ops: seq<Op>, end: real, i: nat)
    requires 0 < startedNs && Timely(started, ops, end) && LastAccepted(startedNs, started, ops, i)
    ensures var s := StampsOf(ops[i]);
            ES.InOrder(s) && ops[i].genStart <= s[0] && s[3] <= NowNs(NewTrace(startedNs, started), ops[i].t)
    ensures 0 < NowNs(NewTrace(startedNs, started), ops[i].t)
  {
    TimelyOrder(started, ops, end, i);
    TimelyPrefix(started, ops, end, i);
    ReplayKeeps(startedNs, started, ops[..i], ops[i].t);
    NowNsMonotone(NewTrace(startedNs, started), ops[i].at.timeline, ops[i].t);
    NowNsMonotone(NewTrace(startedNs, started), started, ops[i].t);
  }

  // The five engine stages, where these stamps put them.
  ghost predicate StagesDrawn(segments: seq<Node>, genStart: int, waiting: int, s: seq<int>, genEnd: int)
    requires |s| == 4
  {
    var w := Max(genStart, Min(waiting, genEnd));
    && DrawnExactly(segments, EngineHandoff, genStart, w)
    && DrawnExactly(segments, WaitingToFirstSchedule, w, Max(w, s[1]))
    && DrawnExactly(segments, Prefill, Max(w, s[1]), Max(w, s[2]))
    && DrawnExactly(segments, Decode, Max(w, s[2]), Max(w, s[3]))
    && DrawnExactly(segments, EngineFinalize, Max(w, s[3]), genEnd)
  }

  // The request's stages are drawn from this operation's stamps, its wait from what the registry measured last.
  ghost predicate PhasesDrawn(event: Event, op: Op, wait: Option<Observation>, uid: nat)
    requires op.Stats? && op.raw.clock.Some? && ES.Usable(op.raw) && (wait.Some? ==> wait.value.Span?)
  {
    var s := StampsOf(op);
    && GenStart(event) == op.genStart <= s[0] && s[3] <= GenEnd(event)
    && StagesDrawn(EngineSegments(event, uid), op.genStart, if wait.Some? then wait.value.start else s[0], s, GenEnd(event))
  }

  ghost predicate StageAt(segments: seq<Node>, cuts: seq<int>, k: nat)
    requires |cuts| == 6 && k < 5
  {
    DrawnExactly(segments, STAGES[k], cuts[k], cuts[k + 1])
  }

  lemma {:induction false} StagesByName(segments: seq<Node>, genStart: int, waiting: int, s: seq<int>, genEnd: int)
    requires |s| == 4
    requires forall k :: 0 <= k < 5 ==> StageAt(segments, PhaseCuts(genStart, waiting, s, genEnd), k)
    ensures StagesDrawn(segments, genStart, waiting, s, genEnd)
  {
    var cuts := PhaseCuts(genStart, waiting, s, genEnd);
    assert StageAt(segments, cuts, 0) && StageAt(segments, cuts, 1) && StageAt(segments, cuts, 2)
           && StageAt(segments, cuts, 3) && StageAt(segments, cuts, 4);
  }

  lemma {:induction false} HeldStagesAreDrawn(observations: seq<Observation>, s: seq<int>, genStart: int, genEnd: int,
                                              parent: nat, uid: nat)
    requires HoldsPhases(observations, s) && ES.InOrder(s) && genStart <= s[0] && s[3] <= genEnd
    ensures StagesDrawn(StageSegments(Edges(observations, genStart, genEnd), parent, uid), genStart,
                        WaitingStart(observations, s[0]), s, genEnd)
  {
    var segments := StageSegments(Edges(observations, genStart, genEnd), parent, uid);
    forall k | 0 <= k < 5
      ensures StageAt(segments, PhaseCuts(genStart, WaitingStart(observations, s[0]), s, genEnd), k)
    {
      HeldPhasesAreDrawn(observations, s, genStart, genEnd, parent, uid, k);
    }
    StagesByName(segments, genStart, WaitingStart(observations, s[0]), s, genEnd);
  }

  lemma {:induction false} SettledIsDrawn(trace: Trace, op: Op, g: nat, id: nat, floor: int, end: real, uid: nat)
    requires op.Stats? && op.raw.clock.Some? && ES.Usable(op.raw)
    requires Settled(trace, op, g, id, floor) && 0 < floor && Closed(EventOf(FinishedTrace(trace, end)))
    requires ES.InOrder(StampsOf(op)) && op.genStart <= StampsOf(op)[0] && StampsOf(op)[3] <= floor
    ensures PhasesDrawn(EventOf(FinishedTrace(trace, end)), op, LastSpan(trace.observations, WaitingToFirstSchedule), uid)
  {
    SettledEvent(trace, op, g, id, floor, end);
    var event := EventOf(FinishedTrace(trace, end));
    HeldStagesAreDrawn(event.observations, StampsOf(op), GenStart(event), GenEnd(event),
                       FirstGeneration(event.observations).value.id, uid + 2);
  }

  /**
   In every run on a clock that never goes back, the statistics that were accepted last, while the first generation
   was open, are what the engine stages of the exported request show, to the nanosecond. Waiting is drawn from the
   moment the request entered the queue by the last measurement accepted from the registry, or from the queue
   stamp when there was none. Refused statistics, and other generations that begin or end, make no difference.
  */
  lemma {:induction false} AcceptedPhasesAreDrawn(startedNs: int, started: real, ops: seq<Op>, end: real,
                                                  i: nat, uid: nat) returns (wait: Option<Observation>)
    requires 0 < startedNs && Timely(started, ops, end) && LastAccepted(startedNs, started, ops, i)
    requires Closed(EventOf(Finished(startedNs, started, ops, end)))
    ensures WaitRead(startedNs, started, ops, wait) && (wait.Some? ==> wait.value.Span?)
    ensures PhasesDrawn(EventOf(Finished(startedNs, started, ops, end)), ops[i], wait, uid)
  {
    wait := LastSpan(Replay(NewTrace(startedNs, started), ops).observations, WaitingToFirstSchedule);
    LastWaitIsRecorded(startedNs, started, ops);
    var g, id := SettledStays(startedNs, started, ops, end, i);
    AcceptedInTime(startedNs, started, ops, end, i);
    SettledIsDrawn(Replay(NewTrace(startedNs, started), ops), ops[i], g, id, NowNs(NewTrace(startedNs, started), ops[i].t),
                   end, uid);
  }
}
