/** The finished request record that the exporter receives, and the span nodes it builds from it. */
module TraceEvents {
  import opened Common
  import opened Clock

  datatype Name =
    | ServeRequest
    | GenerateResponse
    | ApiPrepare
    | ResponseTransfer
    | EngineHandoff
    | WaitingToFirstSchedule
    | Queue
    | Prefill
    | Decode
    | EngineFinalize
    | SubmitEngine
    | InputProcess
    | OutputProcessorAdd
    | HttpTotal
    | ScheduleTotal
    | ExecuteModel
    | OtherName(tag: nat)

  // A span to export. Stamps are nanoseconds since the Unix epoch.
  datatype Node = Node(id: nat, parent: Option<nat>, name: Name, start: int, end: int) {
    function Length(): int { end - start }

    predicate Positive() { start < end }

    predicate Holds(t: int) { start <= t < end }

    predicate Within(outer: Node) { outer.start <= start && end <= outer.end }
  }

  // What a request trace records: generations (open until their end is set) and engine spans.
  datatype Observation =
    | Generation(id: nat, start: int, closed: Option<int>)
    | Span(id: nat, name: Name, start: int, end: int)

  // One measured call in the API process.
  datatype Interval = Interval(id: nat, name: Name, start: int, end: int)

  datatype Event = Event(
    rootId: nat,
    startedNs: int,
    httpTotal: real,
    observations: seq<Observation>,
    apiIntervals: seq<Interval>)

  function Root(event: Event): Node {
    Node(event.rootId, None, ServeRequest, event.startedNs, event.startedNs + ToNanos(event.httpTotal))
  }

  // Exporting goes by the first generation of the request; later ones are not drawn.
  function FirstGeneration(observations: seq<Observation>): (g: Option<Observation>)
    ensures g.Some? ==> exists i :: 0 <= i < |observations| && observations[i] == g.value && g.value.Generation?
                                    && forall j :: 0 <= j < i ==> !observations[j].Generation?
    ensures g.None? ==> forall i :: 0 <= i < |observations| ==> !observations[i].Generation?
  {
    if observations == [] then None
    else if observations[0].Generation? then Some(observations[0])
    else
      var g := FirstGeneration(observations[1..]);
      assert forall j :: 0 < j < |observations| ==> observations[j] == observations[1..][j - 1];
      assert g.Some? ==> exists i :: 0 <= i < |observations[1..]| && observations[1..][i] == g.value && g.value.Generation?
                                     && (forall j :: 0 <= j < i ==> !observations[1..][j].Generation?)
                                     && observations[i + 1] == g.value;
      g
  }

  predicate Named(o: Observation, name: Name) { o.Span? && o.name == name }

  // A dictionary keyed by span name keeps the last span of each name.
  function LastSpan(observations: seq<Observation>, name: Name): (s: Option<Observation>)
    ensures s.Some? ==> exists i :: 0 <= i < |observations| && observations[i] == s.value && Named(s.value, name)
                                    && forall j :: i < j < |observations| ==> !Named(observations[j], name)
    ensures s.None? ==> forall i :: 0 <= i < |observations| ==> !Named(observations[i], name)
  {
    if observations == [] then None
    else
      var n := |observations| - 1;
      if Named(observations[n], name) then Some(observations[n])
      else LastSpan(observations[..n], name)
  }

  // The observation at i is the last span of its name.
  ghost predicate LastAt(observations: seq<Observation>, name: Name, i: nat) {
    && i < |observations| && Named(observations[i], name)
    && forall j :: i < j < |observations| ==> !Named(observations[j], name)
  }

  lemma LastSpanIs(observations: seq<Observation>, name: Name, i: nat)
    requires LastAt(observations, name, i)
    ensures LastSpan(observations, name) == Some(observations[i])
  {
  }

  // Observations were appended or closed, and no span of this name was added.
  ghost predicate SameSpans(before: seq<Observation>, after: seq<Observation>, name: Name) {
    && |before| <= |after|
    && (forall i :: 0 <= i < |before| ==> if before[i].Span? then after[i] == before[i] else !after[i].Span?)
    && (forall i :: |before| <= i < |after| ==> !Named(after[i], name))
  }

  lemma SameSpansKeepLast(before: seq<Observation>, after: seq<Observation>, name: Name)
    requires SameSpans(before, after, name)
    ensures LastSpan(after, name) == LastSpan(before, name)
  {
    var last := LastSpan(before, name);
    if last.Some? {
      var i :| 0 <= i < |before| && before[i] == last.value && Named(last.value, name)
               && forall j :: i < j < |before| ==> !Named(before[j], name);
      LastSpanIs(after, name, i);
    }
  }

  // The i-th observation is the first generation.
  ghost predicate FirstGenerationAt(observations: seq<Observation>, i: nat) {
    && i < |observations| && observations[i].Generation?
    && forall j :: 0 <= j < i ==> !observations[j].Generation?
  }

  lemma FirstGenerationIs(observations: seq<Observation>, i: nat)
    requires FirstGenerationAt(observations, i)
    ensures FirstGeneration(observations) == Some(observations[i])
  {
  }
}
