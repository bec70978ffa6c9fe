/** Nesting of measured API calls in the timeline, and the whole node list of one request. */
module Layout {
  import opened Common
  import opened TraceEvents
  import opened StableSort
  import opened Timeline

  // The generation never received an end stamp: ordering the nodes fails.
  datatype ExportError = UnclosedGeneration | MissingParent(parent: nat)

  // ---------- Placing one measured call ----------

  // The i-th segment is c, holds the instant, and no earlier one does.
  ghost predicate HoldsFirst(containers: seq<Node>, i: nat, c: Node, t: int) {
    && i < |containers| && containers[i] == c && c.Holds(t)
    && forall j :: 0 <= j < i ==> !containers[j].Holds(t)
  }

  ghost predicate FirstHolding(containers: seq<Node>, c: Node, t: int)
    ensures FirstHolding(containers, c, t) ==> c in containers && c.Holds(t)
  {
    exists i: nat :: HoldsFirst(containers, i, c, t)
  }

  function Container(containers: seq<Node>, t: int): (c: Option<Node>)
    ensures c.Some? ==> FirstHolding(containers, c.value, t)
    ensures c.None? ==> forall x :: x in containers ==> !x.Holds(t)
  {
    if containers == [] then None
    else if containers[0].Holds(t) then
      assert HoldsFirst(containers, 0, containers[0], t);
      Some(containers[0])
    else
      var c := Container(containers[1..], t);
      assert c.Some? ==> exists i :: 0 <= i < |containers[1..]| && HoldsFirst(containers[1..], i, c.value, t)
                                     && HoldsFirst(containers, i + 1, c.value, t);
      c
  }

  function Midpoint(call: Interval): int { (call.start + call.end) / 2 }

  // The call clipped to the segment that holds its midpoint.
  function Place(containers: seq<Node>, call: Interval): Option<Node> {
    match Container(containers, Midpoint(call))
    case None => None
    case Some(c) =>
      var start, end := Max(call.start, c.start), Min(call.end, c.end);
      if end <= start then None else Some(Node(call.id, Some(c.id), call.name, start, end))
  }

  function PlaceAll(containers: seq<Node>, calls: seq<Interval>): seq<Node> {
    if calls == [] then []
    else
      var n := |calls| - 1;
      var before := PlaceAll(containers, calls[..n]);
      match Place(containers, calls[n])
      case None => before
      case Some(detail) => before + [detail]
  }

  // ---------- Moving details under the submit call ----------

  function LastIndex(placed: seq<Node>, name: Name): (k: Option<nat>)
    ensures k.Some? ==> k.value < |placed| && placed[k.value].name == name
    ensures k.Some? ==> forall j :: k.value < j < |placed| ==> placed[j].name != name
    ensures k.None? ==> forall j :: 0 <= j < |placed| ==> placed[j].name != name
  {
    if placed == [] then None
    else
      var n := |placed| - 1;
      if placed[n].name == name then Some(n) else LastIndex(placed[..n], name)
  }

  predicate Movable(name: Name) { name == InputProcess || name == OutputProcessorAdd }

  // The k-th detail is the last of its name and lies inside the last submit call.
  predicate Moves(placed: seq<Node>, k: nat)
    requires k < |placed|
  {
    var submit := LastIndex(placed, SubmitEngine);
    && Movable(placed[k].name)
    && LastIndex(placed, placed[k].name) == Some(k)
    && submit.Some?
    && placed[k].Within(placed[submit.value])
  }

  function Moved(placed: seq<Node>, k: nat): Node
    requires k < |placed|
  {
    if Moves(placed, k) then placed[k].(parent := Some(placed[LastIndex(placed, SubmitEngine).value].id))
    else placed[k]
  }

  function Details(placed: seq<Node>): (ds: seq<Node>)
    ensures |ds| == |placed| && forall k :: 0 <= k < |ds| ==> ds[k] == Moved(placed, k)
  {
    seq(|placed|, k requires 0 <= k < |placed| => Moved(placed, k))
  }

  // ---------- The whole list ----------

  function Api(event: Event, uid: nat): Node {
    Node(uid, Some(event.rootId), ApiPrepare, event.startedNs, GenStart(event))
  }

  function Transfer(event: Event, uid: nat): Node {
    Node(uid + 1, Some(event.rootId), ResponseTransfer, GenEnd(event), Root(event).end)
  }

  // A generation still open has no end; zero stands in, and the list is never returned.
  function GenerationNode(event: Event, g: Observation): Node
    requires g.Generation?
  {
    Node(g.id, Some(event.rootId), GenerateResponse, g.start, if g.closed.Some? then g.closed.value else 0)
  }

  function Cuts(event: Event): (cuts: seq<int>)
    ensures |cuts| == 6 && cuts[0] == GenStart(event) && cuts[5] == GenEnd(event)
  {
    Edges(event.observations, GenStart(event), GenEnd(event))
  }

  function EngineSegments(event: Event, uid: nat): seq<Node> {
    match FirstGeneration(event.observations)
    case None => []
    case Some(g) => StageSegments(Cuts(event), g.id, uid + 2)
  }

  function Containers(event: Event, uid: nat): seq<Node> {
    [Api(event, uid), Transfer(event, uid)] + EngineSegments(event, uid)
  }

  function Head(event: Event, uid: nat): seq<Node> {
    [Root(event), Api(event, uid)]
    + (if Transfer(event, uid).Positive() then [Transfer(event, uid)] else [])
    + (match FirstGeneration(event.observations)
       case None => []
       case Some(g) => [GenerationNode(event, g)])
  }

  function Spine(event: Event, uid: nat): seq<Node> {
    Head(event, uid) + EngineSegments(event, uid)
  }

  function Placed(event: Event, uid: nat): seq<Node> {
    PlaceAll(Containers(event, uid), event.apiIntervals)
  }

  function Unsorted(event: Event, uid: nat): (u: seq<Node>)
    ensures |u| >= 2 && u[0] == Root(event)
  {
    Spine(event, uid) + Details(Placed(event, uid))
  }

  predicate Closed(event: Event) {
    var g := FirstGeneration(event.observations);
    g.Some? ==> g.value.closed.Some?
  }

  function Nodes(event: Event, uid: nat): Result<seq<Node>, ExportError> {
    if Closed(event) then
      var u := Unsorted(event, uid);
      Success([u[0]] + Sort(u[1..]))
    else Failure(UnclosedGeneration)
  }

  /** The builder, loop by loop. Moving a detail rewrites the node already in the list. */
  method TimelineNodes(event: Event, uid: nat) returns (r: Result<seq<Node>, ExportError>)
    ensures r == Nodes(event, uid)
  {
    var root := Root(event);
    var generation := FirstGeneration(event.observations);
    var genStart, genEnd := GenStart(event), GenEnd(event);
    var api := Node(uid, Some(root.id), ApiPrepare, root.start, genStart);
    var transfer := Node(uid + 1, Some(root.id), ResponseTransfer, genEnd, root.end);
    var nodes := [root, api];
    if transfer.end > transfer.start {
      nodes := nodes + [transfer];
    }
    var containers := [api, transfer];
    if generation.Some? {
      var g := generation.value;
      nodes := nodes + [GenerationNode(event, g)];
      var cuts := Edges(event.observations, genStart, genEnd);
      var boundaries := Boundaries(cuts);
      var segments := CutStages(boundaries, genStart, genEnd, g.id, uid + 2);
      nodes := nodes + segments;
      containers := containers + segments;
    }
    assert containers == Containers(event, uid);
    assert nodes == Spine(event, uid);
    nodes := AddDetails(nodes, containers, event.apiIntervals);
    if generation.Some? && generation.value.closed.None? {
      return Failure(UnclosedGeneration);
    }
    return Success([nodes[0]] + Sort(nodes[1..]));
  }

  method CutStages(boundaries: seq<Boundary>, genStart: int, genEnd: int, parent: nat,
                   uid: nat) returns (segments: seq<Node>)
    ensures segments == Segments(boundaries, genStart, genEnd, parent, uid)
  {
    segments := [];
    var seen := [genStart];
    for k := 0 to |boundaries|
      invariant |seen| == k + 1 && seen[k] == Cursor(boundaries[..k], genStart, genEnd)
      invariant segments == Segments(boundaries[..k], genStart, genEnd, parent, uid)
    {
      assert boundaries[..k + 1][..k] == boundaries[..k];
      var start := Max(boundaries[k].start, seen[|seen| - 1]);
      var end := Max(start, Min(boundaries[k].end, genEnd));
      seen := seen + [end];
      if end > start {
        segments := segments + [Node(uid + |segments|, Some(parent), boundaries[k].name, start, end)];
      }
    }
    assert boundaries[..|boundaries|] == boundaries;
  }

  // An index of the node list stands for the shared reference to the node placed there.
  ghost predicate Indexes(slots: map<Name, nat>, base: nat, placed: seq<Node>) {
    forall name :: if name in slots then LastIndex(placed, name).Some? && slots[name] == base + LastIndex(placed, name).value
                                       else LastIndex(placed, name).None?
  }

  lemma IndexesOfMore(slots: map<Name, nat>, base: nat, placed: seq<Node>, detail: Node)
    requires Indexes(slots, base, placed)
    ensures Indexes(slots[detail.name := base + |placed|], base, placed + [detail])
  {
    assert (placed + [detail])[..|placed|] == placed;
  }

  lemma PlaceNext(containers: seq<Node>, calls: seq<Interval>, i: nat)
    requires i < |calls|
    ensures var before, placed := PlaceAll(containers, calls[..i]), Place(containers, calls[i]);
            PlaceAll(containers, calls[..i + 1]) == if placed.Some? then before + [placed.value] else before
  {
    assert calls[..i + 1][..i] == calls[..i];
  }

  method PlaceCall(containers: seq<Node>, call: Interval) returns (detail: Option<Node>)
    ensures detail == Place(containers, call)
  {
    var container := Container(containers, Midpoint(call));
    if container.None? {
      return None;
    }
    var start, end := Max(call.start, container.value.start), Min(call.end, container.value.end);
    if end <= start {
      return None;
    }
    return Some(Node(call.id, Some(container.value.id), call.name, start, end));
  }

  method PlaceDetails(spine: seq<Node>, containers: seq<Node>, calls: seq<Interval>)
    returns (nodes: seq<Node>, slots: map<Name, nat>, ghost placed: seq<Node>)
    ensures placed == PlaceAll(containers, calls)
    ensures nodes == spine + PlaceAll(containers, calls) && Indexes(slots, |spine|, PlaceAll(containers, calls))
  {
    nodes, slots, placed := spine, map[], [];
    for i := 0 to |calls|
      invariant placed == PlaceAll(containers, calls[..i])
      invariant nodes == spine + placed
      invariant Indexes(slots, |spine|, placed)
    {
      PlaceNext(containers, calls, i);
      var detail := PlaceCall(containers, calls[i]);
      if detail.Some? {
        IndexesOfMore(slots, |spine|, placed, detail.value);
        slots := slots[detail.value.name := |nodes|];
        nodes := nodes + [detail.value];
        placed := placed + [detail.value];
      }
    }
    assert calls[..|calls|] == calls;
  }

  method AddDetails(spine: seq<Node>, containers: seq<Node>, calls: seq<Interval>) returns (nodes: seq<Node>)
    ensures nodes == spine + Details(PlaceAll(containers, calls))
  {
    var slots;
    ghost var placed;
    nodes, slots, placed := PlaceDetails(spine, containers, calls);
    assert nodes[..|spine|] == spine && nodes[|spine|..] == placed;
    nodes := MoveDetails(nodes, |spine|, placed, slots, calls);
    forall k | 0 <= k < |placed|
      ensures nodes[|spine| + k] == Moved(placed, k)
    {
      var a := PlacedFrom(containers, calls, k);
      assert NameAmong(calls, calls[a].name);
    }
    assert nodes == spine + Details(placed);
  }

  ghost predicate NameAmong(calls: seq<Interval>, name: Name) {
    exists a :: 0 <= a < |calls| && calls[a].name == name
  }

  lemma {:induction false} PlacedFrom(containers: seq<Node>, calls: seq<Interval>, k: nat) returns (a: nat)
    requires k < |PlaceAll(containers, calls)|
    ensures a < |calls| && Place(containers, calls[a]) == Some(PlaceAll(containers, calls)[k])
  {
    var n := |calls| - 1;
    if k < |PlaceAll(containers, calls[..n])| {
      a := PlacedFrom(containers, calls[..n], k);
    } else {
      a := n;
    }
  }

  method MoveDetails(listed: seq<Node>, base: nat, ghost placed: seq<Node>, slots: map<Name, nat>, calls: seq<Interval>)
    returns (nodes: seq<Node>)
    requires |listed| == base + |placed| && listed[base..] == placed
    requires Indexes(slots, base, placed)
    ensures |nodes| == |listed| && nodes[..base] == listed[..base]
    ensures forall k :: 0 <= k < |placed| ==>
              nodes[base + k] == if NameAmong(calls, placed[k].name) then Moved(placed, k) else placed[k]
  {
    nodes := listed;
    for i := 0 to |calls|
      invariant |nodes| == |listed| && nodes[..base] == listed[..base]
      invariant forall k :: 0 <= k < |placed| ==>
                  nodes[base + k] == if NameAmong(calls[..i], placed[k].name) then Moved(placed, k) else placed[k]
    {
      var name := calls[i].name;
      forall k | 0 <= k < |placed|
        ensures NameAmong(calls[..i + 1], placed[k].name) <==> NameAmong(calls[..i], placed[k].name) || placed[k].name == name
      {
        assert calls[..i + 1] == calls[..i] + [calls[i]];
        if NameAmong(calls[..i], placed[k].name) {
          var a :| 0 <= a < i && calls[..i][a].name == placed[k].name;
          assert calls[..i + 1][a].name == placed[k].name;
        }
        assert calls[..i + 1][i].name == name;
      }
      if Movable(name) && name in slots && SubmitEngine in slots {
        var detail, submit := nodes[slots[name]], nodes[slots[SubmitEngine]];
        if submit.start <= detail.start && detail.end <= submit.end {
          nodes := nodes[slots[name] := detail.(parent := Some(submit.id))];
        }
      }
    }
    assert calls[..|calls|] == calls;
  }
}
