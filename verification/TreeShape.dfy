/** What the node list of a well-timed request looks like: disjoint containers, nested intervals, known parents. */
module TreeShape {
  import opened Common
  import opened Clock
  import opened TraceEvents
  import opened Timeline
  import opened Layout

  // The stamps a request trace records: the first generation is closed and lies inside the request.
  ghost predicate WellTimed(event: Event) {
    var root, g := Root(event), FirstGeneration(event.observations);
    && 0 < root.start <= root.end
    && (g.Some? ==> g.value.closed.Some? && root.start <= g.value.start <= g.value.closed.value <= root.end)
  }

  // Every recorded id is distinct, and smaller than the ids still to be drawn.
  ghost predicate FreshIds(event: Event, uid: nat) {
    var calls, g := event.apiIntervals, FirstGeneration(event.observations);
    && event.rootId < uid
    && (g.Some? ==> g.value.id < uid && g.value.id != event.rootId)
    && (forall a :: 0 <= a < |calls| ==>
          calls[a].id < uid && calls[a].id != event.rootId && (g.Some? ==> calls[a].id != g.value.id))
    && (forall a, b :: 0 <= a < b < |calls| ==> calls[a].id != calls[b].id)
  }

  // ---------- Containers ----------

  lemma EngineSegmentsTile(event: Event, uid: nat)
    requires WellTimed(event)
    ensures Tiles(EngineSegments(event, uid), GenStart(event), GenEnd(event))
  {
    var g := FirstGeneration(event.observations);
    if g.Some? {
      StagesPartitionGeneration(Cuts(event), g.value.id, uid + 2);
    }
  }

  ghost predicate HeldOnce(nodes: seq<Node>, t: int) {
    && (exists i :: 0 <= i < |nodes| && nodes[i].Holds(t))
    && (forall i, j :: (0 <= i < |nodes| && nodes[i].Holds(t) && 0 <= j < |nodes| && nodes[j].Holds(t)) ==> i == j)
  }

  ghost predicate NotHeld(nodes: seq<Node>, t: int) {
    forall i :: 0 <= i < |nodes| ==> !nodes[i].Holds(t)
  }

  // An opening part, a closing part, and a tiling of what lies between them.
  lemma ThreeParts(opening: Node, closing: Node, middle: seq<Node>, t: int)
    requires opening.start <= opening.end <= closing.start <= closing.end
    requires Tiles(middle, opening.end, closing.start)
    ensures var all := [opening, closing] + middle;
            if opening.start <= t < closing.end then HeldOnce(all, t) else NotHeld(all, t)
  {
    var all := [opening, closing] + middle;
    TilesHoldOnce(middle, opening.end, closing.start, t);
    TilesInside(middle, opening.end, closing.start);
    forall k | 2 <= k < |all|
      ensures all[k] == middle[k - 2] && opening.end <= all[k].start && all[k].end <= closing.start
    {
      assert middle[k - 2] in middle;
    }
    if opening.start <= t < opening.end {
      assert all[0].Holds(t);
    } else if closing.start <= t < closing.end {
      assert all[1].Holds(t);
    } else if opening.end <= t < closing.start {
      var i :| 0 <= i < |middle| && middle[i].Holds(t);
      assert all[i + 2].Holds(t);
    }
  }

  /**
   The API, engine and transfer segments share out the request: each of its instants lies in exactly one, no
   other in any.
  */
  lemma ContainersPartitionRoot(event: Event, uid: nat, t: int)
    requires WellTimed(event)
    ensures if Root(event).Holds(t) then HeldOnce(Containers(event, uid), t) else NotHeld(Containers(event, uid), t)
  {
    EngineSegmentsTile(event, uid);
    ThreeParts(Api(event, uid), Transfer(event, uid), EngineSegments(event, uid), t);
  }

  lemma SameContainer(containers: seq<Node>, t: int, c: Node, d: Node)
    requires HeldOnce(containers, t) && c in containers && d in containers && c.Holds(t) && d.Holds(t)
    ensures c == d
  {
  }

  /** Clipping keeps a call's own midpoint, so the drawn detail is a non-empty part of the call and of its container. */
  lemma PlaceKeepsMidpoint(containers: seq<Node>, call: Interval)
    requires Place(containers, call).Some?
    ensures var d := Place(containers, call).value;
            var c := Container(containers, Midpoint(call));
            && c.Some? && d.parent == Some(c.value.id) && d.Within(c.value)
            && call.start <= d.start && d.end <= call.end && d.Holds(Midpoint(call))
            && (forall t :: d.Holds(t) <==> call.start <= t < call.end && c.value.Holds(t))
  {
  }

  /** A measured call is drawn iff it has positive length and its midpoint falls in the request. */
  lemma PlacedIff(event: Event, uid: nat, call: Interval)
    requires WellTimed(event)
    ensures Place(Containers(event, uid), call).Some? <==>
            call.start < call.end
            && event.startedNs <= (call.start + call.end) / 2 < event.startedNs + ToNanos(event.httpTotal)
  {
    ContainersPartitionRoot(event, uid, Midpoint(call));
    if Root(event).Holds(Midpoint(call)) {
      var i :| 0 <= i < |Containers(event, uid)| && Containers(event, uid)[i].Holds(Midpoint(call));
    }
  }

  /** A detail moved under the submit call had been placed in the same segment as the submit call. */
  lemma MovedSharesContainer(event: Event, uid: nat, k: nat)
    requires WellTimed(event) && k < |Placed(event, uid)| && Moves(Placed(event, uid), k)
    ensures Placed(event, uid)[LastIndex(Placed(event, uid), SubmitEngine).value].parent == Placed(event, uid)[k].parent
  {
    var placed, cs := Placed(event, uid), Containers(event, uid);
    var s := LastIndex(placed, SubmitEngine).value;
    var a := PlacedFrom(cs, event.apiIntervals, k);
    var b := PlacedFrom(cs, event.apiIntervals, s);
    var call, submit := event.apiIntervals[a], event.apiIntervals[b];
    var t := Midpoint(call);
    PlaceKeepsMidpoint(cs, call);
    PlaceKeepsMidpoint(cs, submit);
    assert placed[s].Holds(t);
    ContainersPartitionRoot(event, uid, t);
    SameContainer(cs, t, Container(cs, t).value, Container(cs, Midpoint(submit)).value);
  }

  // ---------- Distinct ids ----------

  ghost predicate DistinctIds(nodes: seq<Node>) {
    forall i, j :: 0 <= i < j < |nodes| ==> nodes[i].id != nodes[j].id
  }

  ghost predicate NumberedFrom(nodes: seq<Node>, uid: nat) {
    forall i :: 0 <= i < |nodes| ==> nodes[i].id == uid + i
  }

  lemma {:induction false} SegmentIds(bs: seq<Boundary>, lo: int, hi: int, parent: nat, uid: nat)
    ensures NumberedFrom(Segments(bs, lo, hi, parent, uid), uid)
  {
    if bs == [] {
    } else {
      var before, all := Segments(bs[..|bs| - 1], lo, hi, parent, uid), Segments(bs, lo, hi, parent, uid);
      SegmentIds(bs[..|bs| - 1], lo, hi, parent, uid);
      if all != before {
        forall i | 0 <= i < |all| ensures all[i].id == uid + i {
          assert i < |before| ==> all[i] == before[i];
        }
      }
    }
  }

  lemma {:induction false} PlacedIds(containers: seq<Node>, calls: seq<Interval>)
    requires forall a, b :: 0 <= a < b < |calls| ==> calls[a].id != calls[b].id
    ensures DistinctIds(PlaceAll(containers, calls))
  {
    if calls != [] {
      var n := |calls| - 1;
      var before, all := PlaceAll(containers, calls[..n]), PlaceAll(containers, calls);
      PlacedIds(containers, calls[..n]);
      if all != before {
        forall k | 0 <= k < |before|
          ensures before[k].id != calls[n].id
        {
          var a := PlacedFrom(containers, calls[..n], k);
        }
      }
    }
  }

  lemma JoinIds(a: seq<Node>, b: seq<Node>)
    requires DistinctIds(a) && DistinctIds(b)
    requires forall i, j :: 0 <= i < |a| && 0 <= j < |b| ==> a[i].id != b[j].id
    ensures DistinctIds(a + b)
  {
  }

  lemma {:induction false} HeadIds(event: Event, uid: nat)
    requires FreshIds(event, uid)
    ensures DistinctIds(Head(event, uid))
    ensures forall i :: 0 <= i < |Head(event, uid)| ==> Head(event, uid)[i].id < uid + 2
    ensures forall s :: s in Head(event, uid) ==>
              s.id >= uid || s.id == event.rootId
              || (FirstGeneration(event.observations).Some? && s.id == FirstGeneration(event.observations).value.id)
  {
  }

  lemma {:induction false} EngineIds(event: Event, uid: nat)
    ensures NumberedFrom(EngineSegments(event, uid), uid + 2)
  {
    var g := FirstGeneration(event.observations);
    if g.Some? {
      SegmentIds(Boundaries(Cuts(event)), GenStart(event), GenEnd(event), g.value.id, uid + 2);
    }
  }

  lemma {:induction false} SpineIds(event: Event, uid: nat)
    requires FreshIds(event, uid)
    ensures DistinctIds(Spine(event, uid))
    ensures forall s :: s in Spine(event, uid) ==>
              s.id >= uid || s.id == event.rootId
              || (FirstGeneration(event.observations).Some? && s.id == FirstGeneration(event.observations).value.id)
  {
    HeadIds(event, uid);
    EngineIds(event, uid);
    JoinIds(Head(event, uid), EngineSegments(event, uid));
  }

  lemma UnsortedIds(event: Event, uid: nat)
    requires FreshIds(event, uid)
    ensures DistinctIds(Unsorted(event, uid))
  {
    var spine, placed := Spine(event, uid), Placed(event, uid);
    var details := Details(placed);
    SpineIds(event, uid);
    PlacedIds(Containers(event, uid), event.apiIntervals);
    assert forall k :: 0 <= k < |details| ==> details[k].id == placed[k].id;
    forall i, k | 0 <= i < |spine| && 0 <= k < |details|
      ensures spine[i].id != details[k].id
    {
      var a := PlacedFrom(Containers(event, uid), event.apiIntervals, k);
      assert spine[i] in spine;
    }
    JoinIds(spine, details);
  }

  // ---------- Parents ----------

  // Node j is the parent of node i, encloses it, and stands before it unless i was moved.
  ghost predicate ParentAt(nodes: seq<Node>, i: nat, j: nat) {
    && i < |nodes| && j < |nodes| && i != j
    && nodes[i].parent == Some(nodes[j].id)
    && nodes[i].Within(nodes[j])
  }

  // ---------- Which details move, in the words of the trace ----------

  ghost predicate LastNamed(placed: seq<Node>, k: nat, name: Name) {
    k < |placed| && placed[k].name == name && forall j :: k < j < |placed| ==> placed[j].name != name
  }

  // The k-th detail is the last input_process or output_processor_add, and lies inside the last submit_engine, the s-th.
  ghost predicate InsideSubmit(placed: seq<Node>, k: nat, s: nat) {
    && (LastNamed(placed, k, InputProcess) || LastNamed(placed, k, OutputProcessorAdd))
    && LastNamed(placed, s, SubmitEngine)
    && placed[s].start <= placed[k].start && placed[k].end <= placed[s].end
  }

  lemma LastIndexIs(placed: seq<Node>, k: nat, name: Name)
    requires k < |placed|
    ensures LastIndex(placed, name) == Some(k) <==> LastNamed(placed, k, name)
  {
  }

  lemma InsideSubmitMoves(placed: seq<Node>, k: nat, s: nat)
    requires InsideSubmit(placed, k, s)
    ensures Moves(placed, k) && LastIndex(placed, SubmitEngine) == Some(s)
  {
    LastIndexIs(placed, k, placed[k].name);
    LastIndexIs(placed, s, SubmitEngine);
  }

  lemma MovesInsideSubmit(placed: seq<Node>, k: nat)
    requires k < |placed| && Moves(placed, k)
    ensures InsideSubmit(placed, k, LastIndex(placed, SubmitEngine).value)
  {
    LastIndexIs(placed, k, placed[k].name);
    LastIndexIs(placed, LastIndex(placed, SubmitEngine).value, SubmitEngine);
  }

  // The k-th detail lies inside a submit call of exactly its own interval that was recorded after it.
  ghost predicate CollidesWith(placed: seq<Node>, k: nat, s: nat) {
    InsideSubmit(placed, k, s) && k < s && placed[k].start == placed[s].start && placed[k].end == placed[s].end
  }

  ghost predicate Collides(placed: seq<Node>) {
    exists k: nat, s: nat :: CollidesWith(placed, k, s)
  }

  lemma SegmentStage(event: Event, uid: nat, s: Node) returns (k: nat)
    requires s in EngineSegments(event, uid)
    ensures k < 5 && s.name == STAGES[k] && s.parent == Some(FirstGeneration(event.observations).value.id)
  {
    BoundariesLinked(Cuts(event), 5);
    assert Boundaries(Cuts(event))[..5] == Boundaries(Cuts(event));
    var g := FirstGeneration(event.observations).value;
    k := SegmentOrigin(Boundaries(Cuts(event)), GenStart(event), GenEnd(event), g.id, uid + 2, s);
  }

  // Only the root and the generation carry the names of the two levels that must add up.
  predicate Partitioned(name: Name) { name == ServeRequest || name == GenerateResponse }

  ghost predicate ParentKind(event: Event, p: Node) {
    var g := FirstGeneration(event.observations);
    p == Root(event) || (g.Some? && p == GenerationNode(event, g.value)) || !Partitioned(p.name)
  }

  lemma SpineParent(event: Event, uid: nat, i: nat) returns (j: nat)
    requires WellTimed(event) && 0 < i < |Spine(event, uid)|
    ensures j < i && ParentAt(Spine(event, uid), i, j) && ParentKind(event, Spine(event, uid)[j])
    ensures if i < |Head(event, uid)| then j == 0 else 0 < j < |Head(event, uid)|
  {
    var head, segments, spine := Head(event, uid), EngineSegments(event, uid), Spine(event, uid);
    if i < |head| {
      j := 0;
    } else {
      var g := FirstGeneration(event.observations).value;
      EngineSegmentsTile(event, uid);
      TilesInside(segments, GenStart(event), GenEnd(event));
      assert spine[i] == segments[i - |head|] && spine[i] in segments;
      var o := SegmentStage(event, uid, spine[i]);
      j := |head| - 1;
    }
  }

  lemma ContainerOnSpine(event: Event, uid: nat, c: Node) returns (j: nat)
    requires c in Containers(event, uid) && c.Positive()
    requires WellTimed(event)
    ensures j < |Spine(event, uid)| && Spine(event, uid)[j] == c && !Partitioned(c.name)
  {
    var head, spine := Head(event, uid), Spine(event, uid);
    if c == Api(event, uid) {
      j := 1;
    } else if c == Transfer(event, uid) {
      j := 2;
    } else {
      var k :| 0 <= k < |EngineSegments(event, uid)| && EngineSegments(event, uid)[k] == c;
      var o := SegmentStage(event, uid, c);
      j := |head| + k;
    }
  }

  lemma DetailContainer(event: Event, uid: nat, k: nat) returns (j: nat)
    requires WellTimed(event) && k < |Placed(event, uid)|
    ensures j < |Spine(event, uid)| && !Partitioned(Spine(event, uid)[j].name)
    ensures var d := Placed(event, uid)[k];
            d.Positive() && d.parent == Some(Spine(event, uid)[j].id) && d.Within(Spine(event, uid)[j])
  {
    var cs := Containers(event, uid);
    var a := PlacedFrom(cs, event.apiIntervals, k);
    PlaceKeepsMidpoint(cs, event.apiIntervals[a]);
    j := ContainerOnSpine(event, uid, Container(cs, Midpoint(event.apiIntervals[a])).value);
  }

  lemma DetailPositive(event: Event, uid: nat, k: nat)
    requires WellTimed(event) && k < |Placed(event, uid)|
    ensures Placed(event, uid)[k].Positive()
  {
    var j := DetailContainer(event, uid, k);
  }

  lemma SpineStamps(event: Event, uid: nat, i: nat)
    requires WellTimed(event) && i < |Spine(event, uid)|
    ensures 0 < Spine(event, uid)[i].start <= Spine(event, uid)[i].end
  {
    var head, segments := Head(event, uid), EngineSegments(event, uid);
    EngineSegmentsTile(event, uid);
    TilesInside(segments, GenStart(event), GenEnd(event));
    assert i >= |head| ==> Spine(event, uid)[i] in segments;
  }

  lemma {:induction false} OrderedStamps(event: Event, uid: nat, i: nat)
    requires WellTimed(event) && i < |Unsorted(event, uid)|
    ensures 0 < Unsorted(event, uid)[i].start <= Unsorted(event, uid)[i].end
  {
    var n := |Spine(event, uid)|;
    if i < n {
      SpineStamps(event, uid, i);
    } else {
      var j := DetailContainer(event, uid, i - n);
      SpineStamps(event, uid, j);
      assert Unsorted(event, uid)[i] == Details(Placed(event, uid))[i - n];
    }
  }

  lemma DetailAt(event: Event, uid: nat, k: nat)
    requires k < |Placed(event, uid)|
    ensures var n, placed := |Spine(event, uid)|, Placed(event, uid);
            && |Unsorted(event, uid)| == n + |placed|
            && Unsorted(event, uid)[n + k].start == placed[k].start && Unsorted(event, uid)[n + k].end == placed[k].end
  {
  }

  // Where the parent of node i stands: before it among the segments, or, when i was moved, at the last submit call.
  ghost predicate ParentIndex(event: Event, uid: nat, i: nat, j: nat)
    requires i < |Unsorted(event, uid)|
  {
    var n, placed := |Spine(event, uid)|, Placed(event, uid);
    if n <= i && Moves(placed, i - n) then j == n + LastIndex(placed, SubmitEngine).value else j < i && j < n
  }

  lemma MovedParent(event: Event, uid: nat, k: nat) returns (j: nat)
    requires k < |Placed(event, uid)| && Moves(Placed(event, uid), k)
    ensures j == |Spine(event, uid)| + LastIndex(Placed(event, uid), SubmitEngine).value
    ensures ParentAt(Unsorted(event, uid), |Spine(event, uid)| + k, j) && !Partitioned(Unsorted(event, uid)[j].name)
  {
    var spine, placed := Spine(event, uid), Placed(event, uid);
    var s := LastIndex(placed, SubmitEngine).value;
    var u := spine + Details(placed);
    j := |spine| + s;
    assert u[|spine| + k] == Details(placed)[k] && u[j] == Details(placed)[s] && s != k;
  }

  lemma UnmovedParent(event: Event, uid: nat, k: nat) returns (j: nat)
    requires WellTimed(event) && k < |Placed(event, uid)| && !Moves(Placed(event, uid), k)
    ensures j < |Spine(event, uid)|
    ensures ParentAt(Unsorted(event, uid), |Spine(event, uid)| + k, j) && !Partitioned(Unsorted(event, uid)[j].name)
  {
    var spine, placed := Spine(event, uid), Placed(event, uid);
    var u := spine + Details(placed);
    assert u[|spine| + k] == Details(placed)[k];
    j := DetailContainer(event, uid, k);
    assert u[j] == spine[j];
  }

  lemma DetailParent(event: Event, uid: nat, k: nat) returns (j: nat)
    requires WellTimed(event) && k < |Placed(event, uid)|
    ensures ParentAt(Unsorted(event, uid), |Spine(event, uid)| + k, j)
    ensures ParentKind(event, Unsorted(event, uid)[j]) && ParentIndex(event, uid, |Spine(event, uid)| + k, j)
  {
    if Moves(Placed(event, uid), k) {
      j := MovedParent(event, uid, k);
    } else {
      j := UnmovedParent(event, uid, k);
    }
  }

  lemma ParentAtPrefix(a: seq<Node>, b: seq<Node>, i: nat, j: nat)
    requires ParentAt(a, i, j)
    ensures ParentAt(a + b, i, j) && (a + b)[j] == a[j]
  {
  }

  lemma SpineParentInAll(event: Event, uid: nat, i: nat) returns (j: nat)
    requires WellTimed(event) && 0 < i < |Spine(event, uid)|
    ensures ParentAt(Unsorted(event, uid), i, j) && ParentKind(event, Unsorted(event, uid)[j])
            && ParentIndex(event, uid, i, j)
    ensures if i < |Head(event, uid)| then j == 0 else 0 < j < |Head(event, uid)|
  {
    j := SpineParent(event, uid, i);
    ParentAtPrefix(Spine(event, uid), Details(Placed(event, uid)), i, j);
  }

  lemma UnsortedLength(event: Event, uid: nat)
    ensures |Unsorted(event, uid)| == |Spine(event, uid)| + |Placed(event, uid)|
  {
  }

  lemma {:induction false} ListedDetailParent(event: Event, uid: nat, i: nat) returns (j: nat)
    requires WellTimed(event) && |Spine(event, uid)| <= i < |Spine(event, uid)| + |Placed(event, uid)|
    ensures ParentAt(Unsorted(event, uid), i, j) && ParentKind(event, Unsorted(event, uid)[j])
            && ParentIndex(event, uid, i, j)
  {
    var k: nat := i - |Spine(event, uid)|;
    j := DetailParent(event, uid, k);
    assert i == |Spine(event, uid)| + k;
  }

  /**
   Every node but the root has its parent in the list and lies inside it; the parent stands first, or is the
   submit call.
  */
  lemma {:induction false} EveryNodeHasParent(event: Event, uid: nat, i: nat) returns (j: nat)
    requires WellTimed(event) && 0 < i < |Unsorted(event, uid)|
    ensures ParentAt(Unsorted(event, uid), i, j) && ParentKind(event, Unsorted(event, uid)[j])
            && ParentIndex(event, uid, i, j)
  {
    UnsortedLength(event, uid);
    if i < |Spine(event, uid)| {
      j := SpineParentInAll(event, uid, i);
    } else {
      j := ListedDetailParent(event, uid, i);
    }
  }

  // Where the k-th detail goes: under the submit call that it lies inside, or else where it was placed.
  ghost predicate GoesTo(placed: seq<Node>, k: nat, parent: Option<nat>)
    requires k < |placed|
  {
    && (forall s: nat :: InsideSubmit(placed, k, s) ==> parent == Some(placed[s].id))
    && ((forall s: nat :: !InsideSubmit(placed, k, s)) ==> parent == placed[k].parent)
  }

  lemma {:induction false} MovedGoesTo(placed: seq<Node>, k: nat)
    requires k < |placed|
    ensures GoesTo(placed, k, Moved(placed, k).parent)
    ensures Moved(placed, k) == placed[k].(parent := Moved(placed, k).parent)
  {
    forall s: nat | InsideSubmit(placed, k, s)
      ensures Moved(placed, k).parent == Some(placed[s].id)
    {
      InsideSubmitMoves(placed, k, s);
    }
    if Moves(placed, k) {
      MovesInsideSubmit(placed, k);
    }
  }

  lemma {:induction false} ListedDetail(event: Event, uid: nat, k: nat)
    requires k < |Placed(event, uid)|
    ensures |Spine(event, uid)| + k < |Unsorted(event, uid)|
    ensures Unsorted(event, uid)[|Spine(event, uid)| + k] == Moved(Placed(event, uid), k)
  {
    assert Unsorted(event, uid)[|Spine(event, uid)| + k] == Details(Placed(event, uid))[k];
  }

  // The k-th detail is this call, cut to this segment, in which its midpoint lies.
  ghost predicate CutTo(call: Interval, c: Node, d: Node) {
    && c.start <= (call.start + call.end) / 2 < c.end
    && d.id == call.id && d.name == call.name && d.parent == Some(c.id)
    && d.start == Max(call.start, c.start) && d.end == Min(call.end, c.end)
  }

  lemma {:induction false} PlacedCut(containers: seq<Node>, calls: seq<Interval>, k: nat) returns (a: nat, c: Node)
    requires k < |PlaceAll(containers, calls)|
    ensures a < |calls| && c in containers && CutTo(calls[a], c, PlaceAll(containers, calls)[k])
  {
    a := PlacedFrom(containers, calls, k);
    c := Container(containers, Midpoint(calls[a])).value;
  }

  /**
   A drawn detail is a measured call, cut to the first segment that holds the call's midpoint. In the node list its
   parent is the last submit call when it is the last input_process or output_processor_add and lies inside that
   call, and otherwise that segment.
  */
  lemma {:induction false} DetailIsNested(event: Event, uid: nat, k: nat) returns (a: nat, c: Node)
    requires k < |Placed(event, uid)|
    ensures a < |event.apiIntervals| && c in Containers(event, uid)
    ensures CutTo(event.apiIntervals[a], c, Placed(event, uid)[k])
    ensures |Spine(event, uid)| + k < |Unsorted(event, uid)|
    ensures var d := Unsorted(event, uid)[|Spine(event, uid)| + k];
            GoesTo(Placed(event, uid), k, d.parent) && d == Placed(event, uid)[k].(parent := d.parent)
  {
    a, c := PlacedCut(Containers(event, uid), event.apiIntervals, k);
    ListedDetail(event, uid, k);
    MovedGoesTo(Placed(event, uid), k);
  }

  // The a-th call is placed after the placed ones among those before it.
  lemma {:induction false} PlacedAt(containers: seq<Node>, calls: seq<Interval>, a: nat)
    requires a < |calls| && Place(containers, calls[a]).Some?
    ensures var k := |PlaceAll(containers, calls[..a])|;
            k < |PlaceAll(containers, calls)| && PlaceAll(containers, calls)[k] == Place(containers, calls[a]).value
  {
    var n := |calls| - 1;
    if a < n {
      PlacedAt(containers, calls[..n], a);
      assert calls[..n][..a] == calls[..a];
    }
  }

  /**
   Every measured call of positive length whose midpoint falls in the request is drawn, in the order of recording
   among the details, and those are the only details.
  */
  lemma {:induction false} CallIsDrawn(event: Event, uid: nat, a: nat) returns (k: nat)
    requires WellTimed(event) && a < |event.apiIntervals|
    requires var call := event.apiIntervals[a];
             call.start < call.end
             && event.startedNs <= (call.start + call.end) / 2 < event.startedNs + ToNanos(event.httpTotal)
    ensures k == |PlaceAll(Containers(event, uid), event.apiIntervals[..a])| < |Placed(event, uid)|
    ensures Placed(event, uid)[k].id == event.apiIntervals[a].id && Placed(event, uid)[k].name == event.apiIntervals[a].name
  {
    PlacedIff(event, uid, event.apiIntervals[a]);
    PlacedAt(Containers(event, uid), event.apiIntervals, a);
    k := |PlaceAll(Containers(event, uid), event.apiIntervals[..a])|;
  }

  // What the request is cut into: api_prepare up to the start of the generation, generate-response, and
  // response_transfer from its end, when that leaves any time. Without a generation all of it is api_prepare.
  function Parts(event: Event, uid: nat): seq<Node>
    requires WellTimed(event)
  {
    var end := event.startedNs + ToNanos(event.httpTotal);
    [Node(event.rootId, None, ServeRequest, event.startedNs, end)]
    + match FirstGeneration(event.observations)
      case None => [Node(uid, Some(event.rootId), ApiPrepare, event.startedNs, end)]
      case Some(g) =>
        [Node(uid, Some(event.rootId), ApiPrepare, event.startedNs, g.start)]
        + (if g.closed.value < end then [Node(uid + 1, Some(event.rootId), ResponseTransfer, g.closed.value, end)] else [])
        + [Node(g.id, Some(event.rootId), GenerateResponse, g.start, g.closed.value)]
  }

  lemma {:induction false} HeadIsParts(event: Event, uid: nat)
    requires WellTimed(event)
    ensures Head(event, uid) == Parts(event, uid)
  {
  }

  /** The node list starts with the request and the parts it is cut into, at the generation's own stamps. */
  lemma {:induction false} RequestIsCut(event: Event, uid: nat)
    requires WellTimed(event)
    ensures Parts(event, uid) <= Unsorted(event, uid)
  {
    HeadIsParts(event, uid);
  }

  // ---------- The way to the root ----------

  // From node i, following parents leads to the first node in at most the given number of steps.
  ghost predicate Climbs(nodes: seq<Node>, i: nat, steps: nat)
    decreases steps
  {
    && i < |nodes|
    && (i == 0 || (steps > 0 && exists j: nat :: ParentAt(nodes, i, j) && Climbs(nodes, j, steps - 1)))
  }

  ghost predicate ParentBelow(nodes: seq<Node>, ranks: seq<nat>, i: nat)
    requires i < |nodes| == |ranks|
  {
    exists j: nat :: ParentAt(nodes, i, j) && ranks[j] < ranks[i]
  }

  /** Where every node has a parent of lower rank, following parents leads to the first node. */
  lemma {:induction false} RanksClimb(nodes: seq<Node>, ranks: seq<nat>, i: nat, steps: nat)
    requires i < |nodes| == |ranks| && ranks[i] <= steps
    requires forall k :: 0 < k < |nodes| ==> ParentBelow(nodes, ranks, k)
    ensures Climbs(nodes, i, steps)
    decreases steps
  {
    if i > 0 {
      assert ParentBelow(nodes, ranks, i);
      var j: nat :| ParentAt(nodes, i, j) && ranks[j] < ranks[i];
      RanksClimb(nodes, ranks, j, steps - 1);
    }
  }

  // The root, the segments of the request, those of the generation, details, and moved details.
  ghost function Rank(head: nat, spine: nat, placed: seq<Node>, i: nat): (r: nat)
    requires i < spine + |placed|
    ensures r <= 4
  {
    if i == 0 then 0
    else if i < head then 1
    else if i < spine then 2
    else if Moves(placed, i - spine) then 4
    else 3
  }

  ghost function RankOf(event: Event, uid: nat, i: nat): (r: nat)
    requires i < |Unsorted(event, uid)|
    ensures r <= 4
  {
    Rank(|Head(event, uid)|, |Spine(event, uid)|, Placed(event, uid), i)
  }

  // A moved detail goes under the submit call, which does not move; any other goes under a segment.
  lemma DetailRank(head: nat, spine: nat, placed: seq<Node>, k: nat, j: nat)
    requires k < |placed| && 0 < head <= spine
    requires if Moves(placed, k) then j == spine + LastIndex(placed, SubmitEngine).value else j < spine
    ensures Rank(head, spine, placed, j) < Rank(head, spine, placed, spine + k)
  {
    if Moves(placed, k) {
      assert !Moves(placed, j - spine);
    }
  }

  lemma SpineRankLower(event: Event, uid: nat, i: nat) returns (j: nat)
    requires WellTimed(event) && 0 < i < |Spine(event, uid)|
    ensures ParentAt(Unsorted(event, uid), i, j) && RankOf(event, uid, j) < RankOf(event, uid, i)
  {
    j := SpineParentInAll(event, uid, i);
  }

  lemma DetailRankLower(event: Event, uid: nat, k: nat) returns (j: nat)
    requires WellTimed(event) && k < |Placed(event, uid)|
    ensures ParentAt(Unsorted(event, uid), |Spine(event, uid)| + k, j)
    ensures RankOf(event, uid, j) < RankOf(event, uid, |Spine(event, uid)| + k)
  {
    j := DetailParent(event, uid, k);
    DetailRank(|Head(event, uid)|, |Spine(event, uid)|, Placed(event, uid), k, j);
  }

  ghost predicate RanksOf(event: Event, uid: nat, ranks: seq<nat>) {
    |ranks| == |Unsorted(event, uid)| && forall k :: 0 <= k < |ranks| ==> ranks[k] == RankOf(event, uid, k)
  }

  lemma {:induction false} SpineBelow(event: Event, uid: nat, ranks: seq<nat>, i: nat)
    requires WellTimed(event) && RanksOf(event, uid, ranks) && 0 < i < |Spine(event, uid)|
    ensures ParentBelow(Unsorted(event, uid), ranks, i)
  {
    var j := SpineRankLower(event, uid, i);
    assert ranks[j] < ranks[i];
  }

  lemma {:induction false} DetailBelow(event: Event, uid: nat, ranks: seq<nat>, k: nat, i: nat)
    requires WellTimed(event) && RanksOf(event, uid, ranks)
    requires k < |Placed(event, uid)| && i == |Spine(event, uid)| + k
    ensures ParentBelow(Unsorted(event, uid), ranks, i)
  {
    var j := DetailRankLower(event, uid, k);
    assert ranks[j] < ranks[i];
  }

  lemma {:induction false} ParentRanksLower(event: Event, uid: nat, ranks: seq<nat>, i: nat)
    requires WellTimed(event) && RanksOf(event, uid, ranks) && 0 < i < |Spine(event, uid)| + |Placed(event, uid)|
    ensures i < |Unsorted(event, uid)| && ParentBelow(Unsorted(event, uid), ranks, i)
  {
    if i < |Spine(event, uid)| {
      SpineBelow(event, uid, ranks, i);
    } else {
      DetailBelow(event, uid, ranks, i - |Spine(event, uid)|, i);
    }
  }

  /** Re-parenting keeps the nodes one tree: from every node, following parents leads to the root within four steps. */
  lemma {:induction false} EveryNodeReachesRoot(event: Event, uid: nat, i: nat)
    requires WellTimed(event) && i < |Unsorted(event, uid)|
    ensures Climbs(Unsorted(event, uid), i, 4)
  {
    UnsortedLength(event, uid);
    var n := |Unsorted(event, uid)|;
    var ranks: seq<nat> := seq(n, k requires 0 <= k < n => RankOf(event, uid, k));
    forall k | 0 < k < n
      ensures ParentBelow(Unsorted(event, uid), ranks, k)
    {
      ParentRanksLower(event, uid, ranks, k);
    }
    RanksClimb(Unsorted(event, uid), ranks, i, 4);
  }
}
