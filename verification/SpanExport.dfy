/**
 The sink: it drops empty nodes, opens a span for each node under its parent's context, and closes them in
 reverse.
*/
module SpanExport {
  import opened Common
  import opened Clock
  import opened TraceEvents
  import opened StableSort
  import opened Timeline
  import opened Layout
  import opened TreeShape

  // An end of zero counts as missing and falls back to the end of the request.
  function ExportedEnd(node: Node, rootEnd: int): int {
    if node.end == 0 then rootEnd else node.end
  }

  predicate Kept(node: Node, rootEnd: int) { ExportedEnd(node, rootEnd) > node.start }

  function Keep(nodes: seq<Node>, rootEnd: int): seq<Node> {
    if nodes == [] then []
    else
      var n := |nodes| - 1;
      Keep(nodes[..n], rootEnd) + if Kept(nodes[n], rootEnd) then [nodes[n]] else []
  }

  function SpanOf(node: Node, rootEnd: int): Node {
    node.(end := ExportedEnd(node, rootEnd))
  }

  // Spans end in the reverse of the order they were opened, and the batch lists them as they end.
  function Batch(nodes: seq<Node>, rootEnd: int): seq<Node> {
    if nodes == [] then [] else Batch(nodes[1..], rootEnd) + [SpanOf(nodes[0], rootEnd)]
  }

  ghost predicate ParentKnown(nodes: seq<Node>, i: nat)
    requires i < |nodes|
  {
    nodes[i].parent.Some? ==> exists j :: 0 <= j < i && nodes[j].id == nodes[i].parent.value
  }

  ghost predicate ParentsFirst(nodes: seq<Node>) {
    forall i :: 0 <= i < |nodes| ==> ParentKnown(nodes, i)
  }

  /** The span walk succeeds iff each node's parent was opened before it; it fails at the first one that was not. */
  method Walk(nodes: seq<Node>, rootEnd: int) returns (r: Result<seq<Node>, ExportError>)
    ensures r.Success? <==> ParentsFirst(nodes)
    ensures r.Success? ==> r.value == Batch(nodes, rootEnd)
    ensures r.Failure? ==> exists i :: 0 <= i < |nodes| && nodes[i].parent.Some? && !ParentKnown(nodes, i)
                                       && r.error == MissingParent(nodes[i].parent.value)
  {
    var contexts: set<nat> := {};
    var begun: seq<Node> := [];
    for i := 0 to |nodes|
      invariant forall id :: id in contexts <==> exists j :: 0 <= j < i && nodes[j].id == id
      invariant |begun| == i && forall j :: 0 <= j < i ==> begun[j] == SpanOf(nodes[j], rootEnd)
      invariant forall j :: 0 <= j < i ==> ParentKnown(nodes, j)
    {
      if nodes[i].parent.Some? && nodes[i].parent.value !in contexts {
        assert !ParentKnown(nodes, i);
        return Failure(MissingParent(nodes[i].parent.value));
      }
      contexts := contexts + {nodes[i].id};
      begun := begun + [SpanOf(nodes[i], rootEnd)];
    }
    var completed: seq<Node> := [];
    var k := |begun|;
    while k > 0
      invariant 0 <= k <= |begun|
      invariant completed == Batch(nodes[k..], rootEnd)
    {
      k := k - 1;
      assert nodes[k..][1..] == nodes[k + 1..];
      completed := completed + [begun[k]];
    }
    assert nodes[0..] == nodes;
    return Success(completed);
  }

  ghost predicate ExportSucceeds(event: Event, uid: nat) {
    var nodes := Nodes(event, uid);
    nodes.Success? && ParentsFirst(Keep(nodes.value, Root(event).end))
  }

  method Export(event: Event, uid: nat) returns (r: Result<seq<Node>, ExportError>)
    ensures r.Success? <==> ExportSucceeds(event, uid)
    ensures r.Success? ==> r.value == Batch(Keep(Nodes(event, uid).value, Root(event).end), Root(event).end)
  {
    var built := TimelineNodes(event, uid);
    if built.Failure? {
      return built;
    }
    var rootEnd := Root(event).end;
    var valid: seq<Node> := [];
    for i := 0 to |built.value|
      invariant valid == Keep(built.value[..i], rootEnd)
    {
      assert built.value[..i + 1][..i] == built.value[..i];
      if ExportedEnd(built.value[i], rootEnd) > built.value[i].start {
        valid := valid + [built.value[i]];
      }
    }
    assert built.value[..|built.value|] == built.value;
    r := Walk(valid, rootEnd);
  }

  // ---------- Filtering ----------

  lemma {:induction false} KeepMembers(nodes: seq<Node>, rootEnd: int, x: Node)
    ensures x in Keep(nodes, rootEnd) <==> x in nodes && Kept(x, rootEnd)
  {
    if nodes == [] {
    } else {
      var n := |nodes| - 1;
      KeepMembers(nodes[..n], rootEnd, x);
      assert nodes == nodes[..n] + [nodes[n]];
    }
  }

  lemma {:induction false} BatchMembers(nodes: seq<Node>, rootEnd: int, x: Node)
    ensures x in Batch(nodes, rootEnd) <==> exists y :: y in nodes && x == SpanOf(y, rootEnd)
  {
    if nodes == [] {
    } else {
      BatchMembers(nodes[1..], rootEnd, x);
      assert nodes == [nodes[0]] + nodes[1..];
      if y :| y in nodes[1..] && x == SpanOf(y, rootEnd) {
        assert y in nodes;
      }
    }
  }

  /** A node is exported iff it has time, and then as it is; an end of zero stands for the end of the request. */
  lemma {:induction false} ExportedIff(nodes: seq<Node>, rootEnd: int, x: Node)
    ensures x in Batch(Keep(nodes, rootEnd), rootEnd) <==>
            exists y :: y in nodes && x == y.(end := if y.end == 0 then rootEnd else y.end) && y.start < x.end
  {
    BatchMembers(Keep(nodes, rootEnd), rootEnd, x);
    forall y: Node ensures y in Keep(nodes, rootEnd) <==> y in nodes && Kept(y, rootEnd) {
      KeepMembers(nodes, rootEnd, y);
    }
    if y :| y in nodes && x == y.(end := if y.end == 0 then rootEnd else y.end) && y.start < x.end {
      assert y in Keep(nodes, rootEnd) && x == SpanOf(y, rootEnd);
    }
  }

  lemma {:induction false} KeepPrecedes(nodes: seq<Node>, rootEnd: int, a: Node, b: Node)
    requires Precedes(nodes, a, b) && Kept(a, rootEnd) && Kept(b, rootEnd)
    ensures Precedes(Keep(nodes, rootEnd), a, b)
  {
    var n := |nodes| - 1;
    var p, q :| 0 <= p < q < |nodes| && nodes[p] == a && nodes[q] == b;
    var before, all := Keep(nodes[..n], rootEnd), Keep(nodes, rootEnd);
    if q < n {
      assert nodes[..n][p] == a && nodes[..n][q] == b;
      KeepPrecedes(nodes[..n], rootEnd, a, b);
      var i, j :| 0 <= i < j < |before| && before[i] == a && before[j] == b;
      assert all[i] == a && all[j] == b;
    } else {
      assert nodes[..n][p] == a;
      KeepMembers(nodes[..n], rootEnd, a);
      var i :| 0 <= i < |before| && before[i] == a;
      assert all[i] == a && all[|before|] == b;
    }
  }

  lemma {:induction false} KeepDistinct(nodes: seq<Node>, rootEnd: int)
    requires DistinctIds(nodes)
    ensures DistinctIds(Keep(nodes, rootEnd))
  {
    if nodes == [] {
    } else {
      var n := |nodes| - 1;
      KeepDistinct(nodes[..n], rootEnd);
      forall x | x in Keep(nodes[..n], rootEnd)
        ensures x.id != nodes[n].id
      {
        KeepMembers(nodes[..n], rootEnd, x);
      }
    }
  }

  lemma {:induction false} SortDistinct(nodes: seq<Node>)
    requires DistinctIds(nodes)
    ensures DistinctIds(Sort(nodes))
  {
    if nodes == [] {
    } else {
      SortDistinct(nodes[1..]);
      var t := Sort(nodes[1..]);
      forall x | x in t
        ensures x.id != nodes[0].id
      {
        SortMembers(nodes[1..], x);
      }
    }
  }

  // ---------- Parents before children, for any node tree ----------

  function InOrder(u: seq<Node>): seq<Node>
    requires u != []
  {
    [u[0]] + Sort(u[1..])
  }

  ghost predicate HasParent(u: seq<Node>, i: nat) {
    exists j: nat :: ParentAt(u, i, j)
  }

  // Every node but the first has an enclosing parent in the list, and ends are never mistaken for missing.
  ghost predicate Nested(u: seq<Node>) {
    && u != [] && u[0].parent.None? && DistinctIds(u)
    && (forall i :: 0 <= i < |u| ==> 0 < u[i].end)
    && (forall i :: 0 < i < |u| ==> HasParent(u, i))
  }

  ghost predicate Rooted(u: seq<Node>, i: nat) {
    exists steps: nat :: Climbs(u, i, steps)
  }

  // Besides, following parents leads to the first node from everywhere, so there is no cycle.
  ghost predicate Tree(u: seq<Node>) {
    Nested(u) && forall i :: 0 <= i < |u| ==> Rooted(u, i)
  }

  // A child listed before its parent with exactly the parent's interval.
  ghost predicate Late(u: seq<Node>, i: nat, j: nat) {
    ParentAt(u, i, j) && i < j && u[i].Positive() && u[i].start == u[j].start && u[i].end == u[j].end
  }

  lemma InOrderIds(u: seq<Node>)
    requires u != [] && DistinctIds(u)
    ensures DistinctIds(InOrder(u))
  {
    SortDistinct(u[1..]);
    forall x | x in Sort(u[1..])
      ensures x.id != u[0].id
    {
      SortMembers(u[1..], x);
    }
  }

  lemma InOrderMembers(u: seq<Node>, x: Node)
    requires u != []
    ensures x in InOrder(u) <==> x in u
  {
    assert u == [u[0]] + u[1..];
    SortMembers(u[1..], x);
  }

  lemma InOrderPlaces(u: seq<Node>, i: nat, j: nat)
    requires i < |u| && 0 < j < |u| && i != j && KeyLeq(u[i], u[j])
    requires i < j || !KeyLeq(u[j], u[i])
    ensures Precedes(InOrder(u), u[i], u[j])
  {
    var out, sorted := InOrder(u), Sort(u[1..]);
    if i == 0 {
      SortMembers(u[1..], u[j]);
      assert u[j] == u[1..][j - 1];
      var q :| 0 <= q < |sorted| && sorted[q] == u[j];
      assert out[0] == u[i] && out[q + 1] == u[j];
    } else {
      SortPlaces(u[1..], i - 1, j - 1);
      var p, q :| 0 <= p < q < |sorted| && sorted[p] == u[i] && sorted[q] == u[j];
      assert out[p + 1] == u[i] && out[q + 1] == u[j];
    }
  }

  lemma KeptParentKnown(u: seq<Node>, rootEnd: int, i: nat)
    requires Nested(u) && (forall i, j :: !Late(u, i, j))
    requires i < |Keep(InOrder(u), rootEnd)|
    ensures ParentKnown(Keep(InOrder(u), rootEnd), i)
  {
    var out := InOrder(u);
    var kept := Keep(out, rootEnd);
    var x := kept[i];
    if x.parent.Some? {
      KeepMembers(out, rootEnd, x);
      InOrderMembers(u, x);
      var k :| 0 <= k < |u| && u[k] == x;
      assert HasParent(u, k);
      var j: nat :| ParentAt(u, k, j);
      assert !Late(u, k, j);
      InOrderPlaces(u, j, k);
      KeepPrecedes(out, rootEnd, u[j], x);
      InOrderIds(u);
      KeepDistinct(out, rootEnd);
      var p, q :| 0 <= p < q < |kept| && kept[p] == u[j] && kept[q] == x;
      assert q == i;
    }
  }

  lemma LateOrphans(u: seq<Node>, rootEnd: int, i: nat, j: nat)
    requires Nested(u) && Late(u, i, j)
    ensures !ParentsFirst(Keep(InOrder(u), rootEnd))
  {
    var out := InOrder(u);
    var kept := Keep(out, rootEnd);
    InOrderPlaces(u, i, j);
    KeepPrecedes(out, rootEnd, u[i], u[j]);
    InOrderIds(u);
    KeepDistinct(out, rootEnd);
    var p, q :| 0 <= p < q < |kept| && kept[p] == u[i] && kept[q] == u[j];
    assert !ParentKnown(kept, p);
  }

  /**
   Sorting by start and length puts parents first among nested intervals iff no equal-interval child
   was listed early.
  */
  lemma TreeWalkIff(u: seq<Node>, rootEnd: int)
    requires Nested(u)
    ensures ParentsFirst(Keep(InOrder(u), rootEnd)) <==> !exists i, j :: Late(u, i, j)
  {
    if i, j :| Late(u, i, j) {
      LateOrphans(u, rootEnd, i, j);
    } else {
      forall i | 0 <= i < |Keep(InOrder(u), rootEnd)|
        ensures ParentKnown(Keep(InOrder(u), rootEnd), i)
      {
        KeptParentKnown(u, rootEnd, i);
      }
    }
  }

  // ---------- The exported request ----------

  /** The node list of a well-timed request is one tree of nested intervals. */
  lemma UnsortedIsTree(event: Event, uid: nat)
    requires WellTimed(event) && FreshIds(event, uid)
    ensures Tree(Unsorted(event, uid))
  {
    var u := Unsorted(event, uid);
    UnsortedIds(event, uid);
    forall i | 0 <= i < |u|
      ensures 0 < u[i].end && (0 < i ==> HasParent(u, i)) && Rooted(u, i)
    {
      OrderedStamps(event, uid, i);
      EveryNodeReachesRoot(event, uid, i);
      if 0 < i {
        var j := EveryNodeHasParent(event, uid, i);
      }
    }
  }

  lemma {:induction false} CollisionIsLate(event: Event, uid: nat, k: nat, s: nat)
    requires WellTimed(event) && CollidesWith(Placed(event, uid), k, s)
    ensures exists i, j :: Late(Unsorted(event, uid), i, j)
  {
    var n := |Spine(event, uid)|;
    InsideSubmitMoves(Placed(event, uid), k, s);
    var j := DetailParent(event, uid, k);
    DetailPositive(event, uid, k);
    DetailAt(event, uid, k);
    DetailAt(event, uid, s);
    assert j == n + s;
    assert Late(Unsorted(event, uid), n + k, n + s);
  }

  lemma SameId(u: seq<Node>, i: nat, j: nat)
    requires DistinctIds(u) && i < |u| && j < |u| && u[i].id == u[j].id
    ensures i == j
  {
  }

  lemma LateIsMoved(event: Event, uid: nat, i: nat, j: nat)
    requires WellTimed(event) && FreshIds(event, uid) && Late(Unsorted(event, uid), i, j)
    ensures var n, placed := |Spine(event, uid)|, Placed(event, uid);
            n <= i < n + |placed| && Moves(placed, i - n) && j == n + LastIndex(placed, SubmitEngine).value
  {
    var m := EveryNodeHasParent(event, uid, i);
    UnsortedIds(event, uid);
    SameId(Unsorted(event, uid), m, j);
  }

  lemma LateIsCollision(event: Event, uid: nat, i: nat, j: nat)
    requires WellTimed(event) && FreshIds(event, uid) && Late(Unsorted(event, uid), i, j)
    ensures Collides(Placed(event, uid))
  {
    LateIsMoved(event, uid, i, j);
    var k, s := i - |Spine(event, uid)|, LastIndex(Placed(event, uid), SubmitEngine).value;
    DetailAt(event, uid, k);
    DetailAt(event, uid, s);
    MovesInsideSubmit(Placed(event, uid), k);
    assert CollidesWith(Placed(event, uid), k, s);
  }

  /**
   A closed, well-timed request exports, with no span opened before its parent, iff the last input_process and the
   last output_processor_add were not recorded before a last submit_engine of exactly the same clipped interval.
   */
  lemma ExportSucceedsIff(event: Event, uid: nat)
    requires WellTimed(event) && FreshIds(event, uid)
    ensures ExportSucceeds(event, uid) <==> !Collides(Placed(event, uid))
  {
    var u, placed := Unsorted(event, uid), Placed(event, uid);
    assert Nodes(event, uid) == Success(InOrder(u));
    UnsortedIsTree(event, uid);
    TreeWalkIff(u, Root(event).end);
    if k: nat, s: nat :| CollidesWith(placed, k, s) {
      CollisionIsLate(event, uid, k, s);
    } else if i, j :| Late(u, i, j) {
      LateIsCollision(event, uid, i, j);
    }
  }

  lemma {:induction false} BatchIsReversed(nodes: seq<Node>, rootEnd: int, i: nat)
    requires i < |nodes|
    ensures |Batch(nodes, rootEnd)| == |nodes|
    ensures Batch(nodes, rootEnd)[|nodes| - 1 - i] == SpanOf(nodes[i], rootEnd)
  {
    if |nodes| > 1 {
      BatchIsReversed(nodes[1..], rootEnd, if i == 0 then 0 else i - 1);
    }
  }

  /** In the batch every span ends before its parent does. */
  lemma ChildrenEndFirst(nodes: seq<Node>, rootEnd: int, q: nat)
    requires ParentsFirst(nodes) && q < |Batch(nodes, rootEnd)| == |nodes|
    requires Batch(nodes, rootEnd)[q].parent.Some?
    ensures var batch := Batch(nodes, rootEnd);
            exists p :: q < p < |batch| && Some(batch[p].id) == batch[q].parent
  {
    var i := |nodes| - 1 - q;
    BatchIsReversed(nodes, rootEnd, i);
    assert ParentKnown(nodes, i);
    var j :| 0 <= j < i && nodes[j].id == nodes[i].parent.value;
    BatchIsReversed(nodes, rootEnd, j);
    assert Some(Batch(nodes, rootEnd)[|nodes| - 1 - j].id) == Batch(nodes, rootEnd)[q].parent;
  }

  /** A request whose generation is still open never exports. */
  lemma OpenGenerationFails(event: Event, uid: nat)
    requires !Closed(event)
    ensures !ExportSucceeds(event, uid)
  {
  }

  // Both calls straddle the waiting segment from 60 to 64, in which the midpoint of each lies: clipping makes
  // them equal. The inner call, strictly inside the submit call, is recorded first, as the timing wrappers do.
  function ClippedTogether(inner: Name): Event {
    Event(0, 10, 0.0000001,
          [Generation(1, 40, Some(100)), Span(4, Queue, 60, 64), Span(5, Prefill, 64, 80), Span(6, Decode, 80, 90)],
          [Interval(2, inner, 50, 72), Interval(3, SubmitEngine, 45, 77)])
  }

  function ClippedCalls(container: nat, inner: Name): seq<Node> {
    [Node(2, Some(container), inner, 60, 64), Node(3, Some(container), SubmitEngine, 60, 64)]
  }

  lemma ClippedFacts(inner: Name)
    ensures WellTimed(ClippedTogether(inner)) && FreshIds(ClippedTogether(inner), 7)
    ensures GenStart(ClippedTogether(inner)) == 40 && GenEnd(ClippedTogether(inner)) == 100
    ensures Root(ClippedTogether(inner)) == Node(0, None, ServeRequest, 10, 110)
  {
  }

  lemma {:induction false} ClippedCuts(inner: Name)
    ensures Cuts(ClippedTogether(inner)) == [40, 60, 64, 80, 90, 100]
  {
    var observations := ClippedTogether(inner).observations;
    ClippedFacts(inner);
    assert LastSpan(observations, WaitingToFirstSchedule).None?;
    LastSpanIs(observations, Queue, 1);
    LastSpanIs(observations, Prefill, 2);
    LastSpanIs(observations, Decode, 3);
  }

  // The waiting segment holds the midpoint of both calls.
  lemma {:induction false} ClippedContainer(inner: Name) returns (c: Node)
    ensures c.start == 60 && c.end == 64 && Container(Containers(ClippedTogether(inner), 7), 61) == Some(c)
  {
    ClippedFacts(inner);
    ClippedCuts(inner);
    OrderedStagesAreExact(Cuts(ClippedTogether(inner)), 1, 9, 1);
    c :| c in StageSegments(Cuts(ClippedTogether(inner)), 1, 9) && c.name == STAGES[1] && c.start == 60 && c.end == 64;
    assert c in EngineSegments(ClippedTogether(inner), 7);
    var containers := Containers(ClippedTogether(inner), 7);
    assert c in containers && c.Holds(61);
    ContainersPartitionRoot(ClippedTogether(inner), 7, 61);
    SameContainer(containers, 61, c, Container(containers, 61).value);
  }

  lemma {:induction false} ClippedPlacement(containers: seq<Node>, c: Node, inner: Name)
    requires c.start == 60 && c.end == 64 && Container(containers, 61) == Some(c)
    ensures PlaceAll(containers, ClippedTogether(inner).apiIntervals) == ClippedCalls(c.id, inner)
  {
    var calls, clipped := ClippedTogether(inner).apiIntervals, ClippedCalls(c.id, inner);
    assert Place(containers, calls[0]) == Some(clipped[0]) && Place(containers, calls[1]) == Some(clipped[1]);
    assert calls[..1] == [calls[0]] && calls[..1][..0] == [];
    assert PlaceAll(containers, calls[..0]) == [];
    assert PlaceAll(containers, calls[..1]) == [clipped[0]];
  }

  lemma ClippedCollide(container: nat, inner: Name)
    requires inner == InputProcess || inner == OutputProcessorAdd
    ensures Collides(ClippedCalls(container, inner))
  {
    assert CollidesWith(ClippedCalls(container, inner), 0, 1);
  }

  /** For either inner call: a well-timed request, the call strictly inside its submit call, and an export that fails. */
  lemma {:induction false} ClippingCanOrphan(inner: Name)
    requires inner == InputProcess || inner == OutputProcessorAdd
    ensures WellTimed(ClippedTogether(inner)) && FreshIds(ClippedTogether(inner), 7)
    ensures !ExportSucceeds(ClippedTogether(inner), 7)
  {
    ClippedFacts(inner);
    var c := ClippedContainer(inner);
    ClippedPlacement(Containers(ClippedTogether(inner), 7), c, inner);
    ClippedCollide(c.id, inner);
    ExportSucceedsIff(ClippedTogether(inner), 7);
  }
}
