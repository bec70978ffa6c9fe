/** Closing: every call stamps the generation it began, so a request whose calls have closed can be exported. */
module ClosedGenerations {
  import opened Common
  import opened Clock
  import opened TraceEvents
  import opened Timeline
  import opened Layout
  import opened TreeShape
  import opened SpanExport
  import opened TreeAudit
  import opened RequestTraces
  import opened EndToEnd
  import opened CorrelatedRuns
  import CR = Correlation
  import ES = EngineStats

  // ---------- The open generations of a trace ----------

  // Recorded ids are below the next one and never repeat.
  ghost predicate IdsApart(trace: Trace) {
    var obs := trace.observations;
    && (forall i :: 0 <= i < |obs| ==> obs[i].id < trace.nextId)
    && (forall i, j :: 0 <= i < j < |obs| ==> obs[i].id != obs[j].id)
  }

  ghost predicate OpenAt(trace: Trace, i: nat, gen: nat, start: int) {
    i < |trace.observations| && trace.observations[i] == Generation(gen, start, None)
  }

  ghost predicate Holds(trace: Trace, handle: CR.Handle) {
    exists i: nat :: OpenAt(trace, i, handle.gen, handle.start)
  }

  ghost predicate RunsFor(calls: map<nat, CR.Call>, c: nat, k: nat) {
    c in calls && calls[c].handle.Some? && calls[c].handle.value.trace == k
  }

  ghost predicate HasRunner(calls: map<nat, CR.Call>, k: nat, o: Observation) {
    exists c :: RunsFor(calls, c, k) && calls[c].handle.value.gen == o.id && calls[c].handle.value.start == o.start
  }

  // The open generations of a trace are those of its running calls, one each.
  ghost predicate Tracked(trace: Trace, calls: map<nat, CR.Call>, k: nat) {
    var obs := trace.observations;
    && IdsApart(trace)
    && (forall c :: RunsFor(calls, c, k) ==> Holds(trace, calls[c].handle.value))
    && (forall c, d :: RunsFor(calls, c, k) && RunsFor(calls, d, k) && c != d ==>
          calls[c].handle.value.gen != calls[d].handle.value.gen)
    && (forall i :: 0 <= i < |obs| && obs[i].Generation? && obs[i].closed.None? ==> HasRunner(calls, k, obs[i]))
  }

  // Spans were added, with new ids.
  ghost predicate Grown(before: Trace, after: Trace) {
    && before.observations <= after.observations && before.nextId <= after.nextId
    && (forall i :: |before.observations| <= i < |after.observations| ==> after.observations[i].Span?)
    && (forall i :: |before.observations| <= i < |after.observations| ==>
          before.nextId <= after.observations[i].id < after.nextId)
    && (forall i, j :: |before.observations| <= i < j < |after.observations| ==>
          after.observations[i].id != after.observations[j].id)
  }

  lemma {:induction false} GrownStaysTracked(before: Trace, after: Trace, calls: map<nat, CR.Call>, k: nat)
    requires Tracked(before, calls, k) && Grown(before, after)
    ensures Tracked(after, calls, k)
  {
    forall c | RunsFor(calls, c, k)
      ensures Holds(after, calls[c].handle.value)
    {
      var i: nat :| OpenAt(before, i, calls[c].handle.value.gen, calls[c].handle.value.start);
      assert OpenAt(after, i, calls[c].handle.value.gen, calls[c].handle.value.start);
    }
  }

  lemma {:induction false} AppendGrows(before: Trace, after: Trace, added: seq<Observation>)
    requires after.observations == before.observations + added && after.nextId == before.nextId + |added|
    requires forall j :: 0 <= j < |added| ==> added[j].Span? && added[j].id == before.nextId + j
    ensures Grown(before, after)
  {
    var n := |before.observations|;
    forall i | n <= i < |after.observations|
      ensures after.observations[i].Span? && after.observations[i].id == before.nextId + (i - n)
    {
      assert after.observations[i] == added[i - n];
    }
  }

  lemma {:induction false} AddedIds(trace: Trace, genStart: int, stat: ES.Stat, raw: ES.Raw, at: ES.Readings)
    ensures var added := ES.PhasesOf(trace, genStart, stat, raw, at) + ES.WaitOf(trace, genStart, stat, raw, at);
            forall j :: 0 <= j < |added| ==> added[j].Span? && added[j].id == trace.nextId + j
  {
    var phases, waits := ES.PhasesOf(trace, genStart, stat, raw, at), ES.WaitOf(trace, genStart, stat, raw, at);
    assert forall j :: 0 <= j < |phases| ==> phases[j].Span? && phases[j].id == trace.nextId + j;
    assert forall j :: 0 <= j < |waits| ==> waits[j].Span? && waits[j].id == trace.nextId + |phases| + j;
  }

  lemma {:induction false} AbsorbGrows(trace: Trace, gen: nat, genStart: int, stat: ES.Stat, raw: ES.Raw, at: ES.Readings)
    ensures Grown(trace, ES.Absorb(trace, gen, genStart, stat, raw, at))
  {
    var phases, waits := ES.PhasesOf(trace, genStart, stat, raw, at), ES.WaitOf(trace, genStart, stat, raw, at);
    ES.AbsorbAppends(trace, gen, genStart, stat, raw, at);
    AddedIds(trace, genStart, stat, raw, at);
    AppendGrows(trace, ES.Absorb(trace, gen, genStart, stat, raw, at), phases + waits);
  }

  // The calls that run for trace k are the same.
  ghost predicate SameRunners(before: map<nat, CR.Call>, after: map<nat, CR.Call>, k: nat) {
    forall c :: (RunsFor(before, c, k) <==> RunsFor(after, c, k)) && (RunsFor(before, c, k) ==> after[c] == before[c])
  }

  lemma {:induction false} SameRunnersTracked(trace: Trace, before: map<nat, CR.Call>, after: map<nat, CR.Call>, k: nat)
    requires Tracked(trace, before, k) && SameRunners(before, after, k)
    ensures Tracked(trace, after, k)
  {
    forall i | 0 <= i < |trace.observations| && trace.observations[i].Generation? && trace.observations[i].closed.None?
      ensures HasRunner(after, k, trace.observations[i])
    {
      var c :| RunsFor(before, c, k) && before[c].handle.value.gen == trace.observations[i].id
               && before[c].handle.value.start == trace.observations[i].start;
      assert RunsFor(after, c, k);
    }
  }

  lemma {:induction false} BegunIsTracked(trace: Trace, calls: map<nat, CR.Call>, k: nat, call: nat,
                                         id: CR.RequestId, t: real)
    requires Tracked(trace, calls, k) && call !in calls
    ensures var handle := CR.Handle(k, trace.nextId, NowNs(trace, t));
            Tracked(BeginGeneration(trace, t), calls[call := CR.Call(id, Some(handle))], k)
  {
    var handle := CR.Handle(k, trace.nextId, NowNs(trace, t));
    var now, after := calls[call := CR.Call(id, Some(handle))], BeginGeneration(trace, t);
    var n := |trace.observations|;
    assert OpenAt(after, n, handle.gen, handle.start);
    forall c | RunsFor(now, c, k) && c != call
      ensures Holds(after, now[c].handle.value) && now[c].handle.value.gen < trace.nextId
    {
      assert RunsFor(calls, c, k);
      var i: nat :| OpenAt(trace, i, now[c].handle.value.gen, now[c].handle.value.start);
      assert OpenAt(after, i, now[c].handle.value.gen, now[c].handle.value.start);
      assert trace.observations[i].id < trace.nextId;
    }
    forall i | 0 <= i <= n && after.observations[i].Generation? && after.observations[i].closed.None?
      ensures HasRunner(now, k, after.observations[i])
    {
      if i < n {
        assert HasRunner(calls, k, trace.observations[i]);
        var c :| RunsFor(calls, c, k) && calls[c].handle.value.gen == trace.observations[i].id
                 && calls[c].handle.value.start == trace.observations[i].start;
        assert RunsFor(now, c, k);
      } else {
        assert RunsFor(now, call, k);
      }
    }
  }

  // What a close does to the trace: the one observation that its call began is stamped, and no other changes.
  ghost predicate Stamps(before: Trace, after: Trace, gen: nat, start: int, end: int) {
    && |after.observations| == |before.observations|
    && exists p: nat :: OpenAt(before, p, gen, start)
                        && after.observations == before.observations[p := Generation(gen, start, Some(end))]
  }

  lemma {:induction false} EndStamps(trace: Trace, calls: map<nat, CR.Call>, k: nat, call: nat, t: real)
    requires Tracked(trace, calls, k) && RunsFor(calls, call, k)
    ensures var handle := calls[call].handle.value;
            Stamps(trace, EndGeneration(trace, handle.gen, t), handle.gen, handle.start, NowNs(trace, t))
  {
    var handle, after := calls[call].handle.value, EndGeneration(trace, calls[call].handle.value.gen, t);
    assert Holds(trace, handle);
    var p: nat :| OpenAt(trace, p, handle.gen, handle.start);
    assert after.observations == trace.observations[p := Generation(handle.gen, handle.start, Some(NowNs(trace, t)))];
  }

  lemma {:induction false} ClosedIsTracked(trace: Trace, calls: map<nat, CR.Call>, k: nat, call: nat, t: real)
    requires Tracked(trace, calls, k) && RunsFor(calls, call, k)
    ensures Tracked(EndGeneration(trace, calls[call].handle.value.gen, t), calls - {call}, k)
  {
    var gen, now := calls[call].handle.value.gen, calls - {call};
    var after := EndGeneration(trace, gen, t);
    forall c | RunsFor(now, c, k)
      ensures Holds(after, now[c].handle.value)
    {
      assert RunsFor(calls, c, k);
      var i: nat :| OpenAt(trace, i, now[c].handle.value.gen, now[c].handle.value.start);
      assert OpenAt(after, i, now[c].handle.value.gen, now[c].handle.value.start);
    }
    forall i | 0 <= i < |after.observations| && after.observations[i].Generation? && after.observations[i].closed.None?
      ensures HasRunner(now, k, after.observations[i])
    {
      assert HasRunner(calls, k, trace.observations[i]);
      var c :| RunsFor(calls, c, k) && calls[c].handle.value.gen == trace.observations[i].id
               && calls[c].handle.value.start == trace.observations[i].start;
      assert RunsFor(now, c, k);
    }
  }

  ghost predicate TrackedIn(s: CR.State, k: nat) {
    k in s.traces && Tracked(s.traces[k], s.calls, k)
  }

  lemma {:induction false} TrackedBegin(s: CR.State, e: CR.Event, k: nat)
    requires TrackedIn(s, k) && e.Begin? && e.call !in s.calls
    ensures TrackedIn(CR.Next(s, e), k)
  {
    if e.owner == Some(k) {
      BegunIsTracked(s.traces[k], s.calls, k, e.call, e.id, e.t);
    } else {
      SameRunnersTracked(s.traces[k], s.calls, CR.Next(s, e).calls, k);
    }
  }

  lemma {:induction false} TrackedStats(s: CR.State, e: CR.Event, k: nat)
    requires TrackedIn(s, k) && e.Stats?
    ensures TrackedIn(CR.Next(s, e), k)
  {
    if e.id in s.active && s.active[e.id].trace == k {
      var holder := s.active[e.id];
      AbsorbGrows(s.traces[k], holder.gen, holder.start, e.stat, e.raw, e.at);
      GrownStaysTracked(s.traces[k], CR.Next(s, e).traces[k], s.calls, k);
    }
  }

  lemma {:induction false} TrackedClose(s: CR.State, e: CR.Event, k: nat)
    requires TrackedIn(s, k) && e.Close?
    ensures TrackedIn(CR.Next(s, e), k)
  {
    if RunsFor(s.calls, e.call, k) {
      ClosedIsTracked(s.traces[k], s.calls, k, e.call, e.t);
    } else {
      SameRunnersTracked(s.traces[k], s.calls, CR.Next(s, e).calls, k);
    }
  }

  lemma {:induction false} TrackedMeasure(s: CR.State, e: CR.Event, k: nat)
    requires TrackedIn(s, k) && e.Measure?
    ensures TrackedIn(CR.Next(s, e), k)
  {
    GrownStaysTracked(s.traces[k], CR.Next(s, e).traces[k], s.calls, k);
  }

  lemma {:induction false} RunTracks(traces: map<nat, Trace>, h: seq<CR.Event>, k: nat)
    requires CR.Proper(traces, h) && k in traces && traces[k].observations == []
    ensures TrackedIn(CR.Run(traces, h), k)
  {
    if h == [] {
    } else {
      var before, e := h[..|h| - 1], h[|h| - 1];
      var s := CR.Run(traces, before);
      RunTracks(traces, before, k);
      RunRefines(traces, before);
      match e
      case Begin(call, _, _, _) =>
        assert CallRefines(traces, s, before, call);
        TrackedBegin(s, e, k);
      case Stats(_, _, _, _) => TrackedStats(s, e, k);
      case Close(_, _) => TrackedClose(s, e, k);
      case Measure(_, _, _, _) => TrackedMeasure(s, e, k);
    }
  }

  // ---------- What the exporter gets ----------

  // Of all traces only the one that opened this generation changed, and only in that it is stamped.
  ghost predicate OnlyStamped(before: map<nat, Trace>, after: map<nat, Trace>, begun: CR.Handle, end: int) {
    && before.Keys == after.Keys && begun.trace in before
    && Stamps(before[begun.trace], after[begun.trace], begun.gen, begun.start, end)
    && (forall j :: j in before && j != begun.trace ==> after[j] == before[j])
  }

  lemma {:induction false} CloseStamps(s: CR.State, call: nat, t: real, begun: CR.Handle)
    requires TrackedIn(s, begun.trace) && RunsFor(s.calls, call, begun.trace) && s.calls[call].handle == Some(begun)
    ensures OnlyStamped(s.traces, CR.Next(s, CR.Close(call, t)).traces, begun, NowNs(s.traces[begun.trace], t))
  {
    EndStamps(s.traces[begun.trace], s.calls, begun.trace, call, t);
  }

  lemma RunOfMore(traces: map<nat, Trace>, h: seq<CR.Event>, e: CR.Event)
    ensures CR.Run(traces, h + [e]) == CR.Next(CR.Run(traces, h), e)
  {
    assert (h + [e])[..|h|] == h;
  }

  lemma {:induction false} ReadingOf(traces: map<nat, Trace>, h: seq<CR.Event>, k: nat, t: real)
    requires k in traces
    ensures k in CR.Run(traces, h).traces
    ensures NowNs(CR.Run(traces, h).traces[k], t) == traces[k].startedNs + Trunc((t - traces[k].started) * 1000000000.0)
  {
    EachTraceReplays(traces, h, k);
    ReplayClock(traces[k], OpsOf(traces, h, k));
  }

  lemma {:induction false} RunningCall(traces: map<nat, Trace>, h: seq<CR.Event>, call: nat)
    requires GenerationOf(traces, h, call).Some?
    ensures var s, begun := CR.Run(traces, h), GenerationOf(traces, h, call).value;
            RunsFor(s.calls, call, begun.trace) && s.calls[call].handle == Some(begun) && begun.trace in traces
  {
    RunRefines(traces, h);
    assert CallRefines(traces, CR.Run(traces, h), h, call);
  }

  /**
   Closing a running call stamps the generation that its own begin opened, with the reading of the close counted from
   the start of its request; no other observation of that trace changes, and no other trace at all.
  */
  lemma {:induction false} CloseStampsOwnGeneration(traces: map<nat, Trace>, h: seq<CR.Event>, call: nat, t: real,
                                                    begun: CR.Handle)
    requires CR.Proper(traces, h) && GenerationOf(traces, h, call) == Some(begun)
    requires begun.trace in traces && traces[begun.trace].observations == []
    ensures OnlyStamped(CR.Run(traces, h).traces, CR.Run(traces, h + [CR.Close(call, t)]).traces, begun,
                        traces[begun.trace].startedNs + Trunc((t - traces[begun.trace].started) * 1000000000.0))
  {
    RunningCall(traces, h, call);
    RunTracks(traces, h, begun.trace);
    ReadingOf(traces, h, begun.trace, t);
    RunOfMore(traces, h, CR.Close(call, t));
    CloseStamps(CR.Run(traces, h), call, t, begun);
  }

  // No call that the trace asked for is still running.
  ghost predicate AllClosed(traces: map<nat, Trace>, h: seq<CR.Event>, k: nat) {
    forall c: nat :: GenerationOf(traces, h, c).Some? ==> GenerationOf(traces, h, c).value.trace != k
  }

  /** Once all calls of a trace have closed, every generation it recorded has its end. */
  lemma {:induction false} ClosedCallsCloseGenerations(traces: map<nat, Trace>, h: seq<CR.Event>, k: nat)
    requires CR.Proper(traces, h) && k in traces && traces[k].observations == [] && AllClosed(traces, h, k)
    ensures k in CR.Run(traces, h).traces
    ensures forall i :: 0 <= i < |CR.Run(traces, h).traces[k].observations| ==>
              CR.Run(traces, h).traces[k].observations[i].Generation? ==>
              CR.Run(traces, h).traces[k].observations[i].closed.Some?
  {
    var s := CR.Run(traces, h);
    RunTracks(traces, h, k);
    RunRefines(traces, h);
    forall c ensures !RunsFor(s.calls, c, k) {
      assert CallRefines(traces, s, h, c);
    }
  }

  // The event handed on when request k finishes after this history, and the ids still free then.
  ghost function TraceAfter(traces: map<nat, Trace>, h: seq<CR.Event>, k: nat, end: real): Trace
    requires k in CR.Run(traces, h).traces
  {
    FinishedTrace(CR.Run(traces, h).traces[k], end)
  }

  /**
   A request that finishes amid others, with all its calls closed and on a clock that never went back for it, meets the
   builder's assumptions: its parts add up exactly to its total, it is exported iff no inner call collides with its
   submit call, and what is exported passes the audit.
  */
  lemma {:induction false} EveryClosedRequestExports(traces: map<nat, Trace>, h: seq<CR.Event>, k: nat, startedNs: int,
                                                     started: real, end: real, rows: seq<Node>)
    requires CR.Proper(traces, h) && k in traces && traces[k] == NewTrace(startedNs, started) && 0 < startedNs
    requires AllClosed(traces, h, k) && Timely(started, OpsOf(traces, h, k), end)
    ensures k in CR.Run(traces, h).traces
    ensures var trace := TraceAfter(traces, h, k, end);
            var event, uid := EventOf(trace), trace.nextId;
            && Api(event, uid).Length() + Transfer(event, uid).Length() + TotalLength(EngineSegments(event, uid))
               == ToNanos(event.httpTotal)
            && (ExportSucceeds(event, uid) <==> !Collides(Placed(event, uid)))
            && (RowsOf(event, uid, rows) ==> Sound(rows))
  {
    EachTraceReplays(traces, h, k);
    ClosedCallsCloseGenerations(traces, h, k);
    EveryRunExportsExactly(startedNs, started, OpsOf(traces, h, k), end, rows);
  }
}
