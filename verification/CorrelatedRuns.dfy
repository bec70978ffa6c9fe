/** Concurrent requests, one by one: through all the interleaving, each trace goes through exactly its own operations. */
module CorrelatedRuns {
  import opened Common
  import opened Clock
  import opened TraceEvents
  import opened RequestTraces
  import opened EndToEnd
  import CR = Correlation
  import ES = EngineStats

  // ---------- The operations of one trace, read off the history ----------

  // What an event means to trace k: one operation, or none. Statistics go to whom their id stands for, a close to the
  // generation that its call began.
  ghost function OpOf(traces: map<nat, Trace>, h: seq<CR.Event>, e: CR.Event, k: nat): Option<Op>
    decreases 2 * |h| + 1
  {
    match e
    case Begin(_, _, owner, t) => if owner == Some(k) then Some(Op.Begin(t)) else None
    case Stats(id, stat, raw, at) =>
      var holder := HolderOf(traces, h, id);
      if holder.Some? && holder.value.trace == k
      then Some(Op.Stats(at.execution, holder.value.gen, holder.value.start, stat, raw, at)) else None
    case Close(call, t) =>
      var begun := GenerationOf(traces, h, call);
      if begun.Some? && begun.value.trace == k then Some(Op.End(t, begun.value.gen)) else None
    case Measure(trace, name, started, t) => if trace == k then Some(Op.Call(t, name, started)) else None
  }

  // The operations on trace k, in order.
  ghost function OpsOf(traces: map<nat, Trace>, h: seq<CR.Event>, k: nat): seq<Op>
    decreases 2 * |h|
  {
    if h == [] then []
    else
      var before := h[..|h| - 1];
      OpsOf(traces, before, k)
      + match OpOf(traces, before, h[|h| - 1], k) case Some(op) => [op] case None => []
  }

  // The generation that a traced begin opens: the next id of its trace, stamped with the reading.
  ghost function Opened(traces: map<nat, Trace>, h: seq<CR.Event>, k: nat, t: real): CR.Handle
    requires k in traces
    decreases 2 * |h| + 1
  {
    CR.Handle(k, Replay(traces[k], OpsOf(traces, h, k)).nextId, NowNs(traces[k], t))
  }

  // The generation of a running call.
  ghost function GenerationOf(traces: map<nat, Trace>, h: seq<CR.Event>, call: nat): Option<CR.Handle>
    decreases 2 * |h|
  {
    if h == [] then None
    else
      var before, e := h[..|h| - 1], h[|h| - 1];
      if e.Begin? && e.call == call then
        if e.owner.Some? && e.owner.value in traces then Some(Opened(traces, before, e.owner.value, e.t)) else None
      else if e.Close? && e.call == call then None
      else GenerationOf(traces, before, call)
  }

  // The generation of the last traced call to take the id, until any call of that id closes.
  ghost function HolderOf(traces: map<nat, Trace>, h: seq<CR.Event>, id: CR.RequestId): Option<CR.Handle>
    decreases 2 * |h|
  {
    if h == [] then None
    else
      var before, e := h[..|h| - 1], h[|h| - 1];
      if e.Begin? && e.id == id && e.owner.Some? && e.owner.value in traces then
        Some(Opened(traces, before, e.owner.value, e.t))
      else if e.Close? && e.call in CR.Flights(before) && CR.Flights(before)[e.call].id == id then None
      else HolderOf(traces, before, id)
  }

  // ---------- Refinement ----------

  lemma {:induction false} ApplyClock(trace: Trace, op: Op)
    ensures Apply(trace, op).startedNs == trace.startedNs && Apply(trace, op).started == trace.started
  {
    if op.Stats? && op.stat.generationTokens.Some? {
      ES.TimedObservations(trace, op.gen, op.genStart, op.stat, op.raw, op.at);
    }
  }

  lemma {:induction false} ReplayClock(trace: Trace, ops: seq<Op>)
    ensures Replay(trace, ops).startedNs == trace.startedNs && Replay(trace, ops).started == trace.started
  {
    if ops != [] {
      var n := |ops| - 1;
      ReplayClock(trace, ops[..n]);
      ApplyClock(Replay(trace, ops[..n]), ops[n]);
    }
  }

  ghost predicate TracesRefine(traces: map<nat, Trace>, s: CR.State, h: seq<CR.Event>) {
    && s.traces.Keys == traces.Keys
    && forall k :: k in traces ==> s.traces[k] == Replay(traces[k], OpsOf(traces, h, k))
  }

  // What a running call is known to be.
  ghost predicate CallRefines(traces: map<nat, Trace>, s: CR.State, h: seq<CR.Event>, c: nat) {
    && (c in s.calls <==> c in CR.Flights(h))
    && GenerationOf(traces, h, c) == (if c in s.calls then s.calls[c].handle else None)
    && (c in s.calls ==> s.calls[c].id == CR.Flights(h)[c].id)
    && (c in s.calls && s.calls[c].handle.Some? ==> s.calls[c].handle.value.trace in traces)
  }

  ghost predicate CallsRefine(traces: map<nat, Trace>, s: CR.State, h: seq<CR.Event>) {
    forall c: nat :: CallRefines(traces, s, h, c)
  }

  ghost predicate HoldersRefine(traces: map<nat, Trace>, s: CR.State, h: seq<CR.Event>) {
    && (forall id :: if id in s.active then HolderOf(traces, h, id) == Some(s.active[id]) else HolderOf(traces, h, id).None?)
    && (forall id :: id in s.active ==> s.active[id].trace in traces)
  }

  ghost predicate Refines(traces: map<nat, Trace>, s: CR.State, h: seq<CR.Event>) {
    TracesRefine(traces, s, h) && CallsRefine(traces, s, h) && HoldersRefine(traces, s, h)
  }

  lemma {:induction false} HandleRefines(traces: map<nat, Trace>, s: CR.State, h: seq<CR.Event>, k: nat, t: real)
    requires TracesRefine(traces, s, h) && k in traces
    ensures CR.HandleFor(s, k, t) == Opened(traces, h, k, t)
  {
    ReplayClock(traces[k], OpsOf(traces, h, k));
  }

  ghost function Stepped(trace: Trace, op: Option<Op>): Trace {
    match op
    case Some(op) => Apply(trace, op)
    case None => trace
  }

  // Trace k takes its own step, or none.
  ghost predicate Steps(traces: map<nat, Trace>, s: CR.State, h: seq<CR.Event>, e: CR.Event, k: nat)
    requires k in s.traces
  {
    k in CR.Next(s, e).traces && CR.Next(s, e).traces[k] == Stepped(s.traces[k], OpOf(traces, h, e, k))
  }

  lemma {:induction false} BeginStep(traces: map<nat, Trace>, s: CR.State, h: seq<CR.Event>, e: CR.Event, k: nat)
    requires k in s.traces && e.Begin?
    ensures Steps(traces, s, h, e, k)
  {
  }

  lemma {:induction false} MeasureStep(traces: map<nat, Trace>, s: CR.State, h: seq<CR.Event>, e: CR.Event, k: nat)
    requires k in s.traces && e.Measure?
    ensures Steps(traces, s, h, e, k)
  {
  }

  lemma {:induction false} StatsStep(traces: map<nat, Trace>, s: CR.State, h: seq<CR.Event>, e: CR.Event, k: nat)
    requires k in s.traces && e.Stats?
    requires if e.id in s.active then HolderOf(traces, h, e.id) == Some(s.active[e.id]) else HolderOf(traces, h, e.id).None?
    requires e.id in s.active ==> s.active[e.id].trace in s.traces
    ensures Steps(traces, s, h, e, k)
  {
  }

  lemma {:induction false} CloseStep(traces: map<nat, Trace>, s: CR.State, h: seq<CR.Event>, e: CR.Event, k: nat)
    requires k in s.traces && e.Close?
    requires GenerationOf(traces, h, e.call) == if e.call in s.calls then s.calls[e.call].handle else None
    requires e.call in s.calls && s.calls[e.call].handle.Some? ==> s.calls[e.call].handle.value.trace in s.traces
    ensures Steps(traces, s, h, e, k)
  {
  }

  lemma {:induction false} TraceStep(traces: map<nat, Trace>, s: CR.State, h: seq<CR.Event>, e: CR.Event, k: nat)
    requires Refines(traces, s, h) && k in s.traces
    ensures Steps(traces, s, h, e, k)
  {
    match e
    case Begin(_, _, _, _) => BeginStep(traces, s, h, e, k);
    case Stats(_, _, _, _) => StatsStep(traces, s, h, e, k);
    case Close(call, _) =>
      assert CallRefines(traces, s, h, call);
      CloseStep(traces, s, h, e, k);
    case Measure(_, _, _, _) => MeasureStep(traces, s, h, e, k);
  }

  lemma {:induction false} OpsOfMore(traces: map<nat, Trace>, h: seq<CR.Event>, e: CR.Event, k: nat, trace: Trace)
    ensures Replay(trace, OpsOf(traces, h + [e], k)) == Stepped(Replay(trace, OpsOf(traces, h, k)), OpOf(traces, h, e, k))
  {
    assert (h + [e])[..|h|] == h;
    var op := OpOf(traces, h, e, k);
    if op.Some? {
      ReplayOne(trace, OpsOf(traces, h, k), op.value);
    } else {
      assert OpsOf(traces, h, k) + [] == OpsOf(traces, h, k);
    }
  }

  lemma {:induction false} KeysStay(traces: map<nat, Trace>, s: CR.State, h: seq<CR.Event>, e: CR.Event)
    requires Refines(traces, s, h)
    ensures CR.Next(s, e).traces.Keys == s.traces.Keys
  {
  }

  lemma {:induction false} TracesStep(traces: map<nat, Trace>, s: CR.State, h: seq<CR.Event>, e: CR.Event)
    requires Refines(traces, s, h)
    ensures TracesRefine(traces, CR.Next(s, e), h + [e])
  {
    KeysStay(traces, s, h, e);
    forall k | k in traces
      ensures k in CR.Next(s, e).traces && CR.Next(s, e).traces[k] == Replay(traces[k], OpsOf(traces, h + [e], k))
    {
      TraceStep(traces, s, h, e, k);
      OpsOfMore(traces, h, e, k, traces[k]);
    }
  }

  lemma {:induction false} CallBegins(traces: map<nat, Trace>, s: CR.State, h: seq<CR.Event>, e: CR.Event, c: nat)
    requires Refines(traces, s, h) && e.Begin?
    ensures CallRefines(traces, CR.Next(s, e), h + [e], c)
  {
    assert (h + [e])[..|h|] == h;
    assert CallRefines(traces, s, h, c);
    if e.owner.Some? && e.owner.value in traces {
      HandleRefines(traces, s, h, e.owner.value, e.t);
    }
  }

  lemma {:induction false} CallStays(traces: map<nat, Trace>, s: CR.State, h: seq<CR.Event>, e: CR.Event, c: nat)
    requires Refines(traces, s, h) && !e.Begin?
    ensures CallRefines(traces, CR.Next(s, e), h + [e], c)
  {
    assert (h + [e])[..|h|] == h;
    assert CallRefines(traces, s, h, c);
  }

  lemma {:induction false} CallsStep(traces: map<nat, Trace>, s: CR.State, h: seq<CR.Event>, e: CR.Event)
    requires Refines(traces, s, h)
    ensures CallsRefine(traces, CR.Next(s, e), h + [e])
  {
    forall c: nat
      ensures CallRefines(traces, CR.Next(s, e), h + [e], c)
    {
      if e.Begin? {
        CallBegins(traces, s, h, e, c);
      } else {
        CallStays(traces, s, h, e, c);
      }
    }
  }

  lemma {:induction false} HoldersBegin(traces: map<nat, Trace>, s: CR.State, h: seq<CR.Event>, e: CR.Event)
    requires Refines(traces, s, h) && e.Begin?
    ensures HoldersRefine(traces, CR.Next(s, e), h + [e])
  {
    assert (h + [e])[..|h|] == h;
    if e.owner.Some? && e.owner.value in traces {
      HandleRefines(traces, s, h, e.owner.value, e.t);
    }
  }

  lemma {:induction false} HoldersClose(traces: map<nat, Trace>, s: CR.State, h: seq<CR.Event>, e: CR.Event)
    requires Refines(traces, s, h) && e.Close?
    ensures HoldersRefine(traces, CR.Next(s, e), h + [e])
  {
    assert (h + [e])[..|h|] == h;
    assert CallRefines(traces, s, h, e.call);
  }

  lemma {:induction false} HoldersStep(traces: map<nat, Trace>, s: CR.State, h: seq<CR.Event>, e: CR.Event)
    requires Refines(traces, s, h)
    ensures HoldersRefine(traces, CR.Next(s, e), h + [e])
  {
    if e.Begin? {
      HoldersBegin(traces, s, h, e);
    } else if e.Close? {
      HoldersClose(traces, s, h, e);
    } else {
      assert (h + [e])[..|h|] == h;
    }
  }

  lemma {:induction false} RunRefines(traces: map<nat, Trace>, h: seq<CR.Event>)
    ensures Refines(traces, CR.Run(traces, h), h)
  {
    if h == [] {
    } else {
      var before, e := h[..|h| - 1], h[|h| - 1];
      RunRefines(traces, before);
      assert h == before + [e];
      TracesStep(traces, CR.Run(traces, before), before, e);
      CallsStep(traces, CR.Run(traces, before), before, e);
      HoldersStep(traces, CR.Run(traces, before), before, e);
    }
  }

  /** However requests interleave, each trace ends as if its own operations alone had been replayed on it, in order. */
  lemma {:induction false} EachTraceReplays(traces: map<nat, Trace>, h: seq<CR.Event>, k: nat)
    requires k in traces
    ensures k in CR.Run(traces, h).traces && CR.Run(traces, h).traces[k] == Replay(traces[k], OpsOf(traces, h, k))
  {
    RunRefines(traces, h);
  }
}
