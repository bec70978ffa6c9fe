/** The structural audit of an exported trace: children inside parents, and two levels that add up exactly. */
module TreeAudit {
  import opened Common
  import opened TraceEvents
  import opened StableSort
  import opened Timeline
  import opened Layout
  import opened TreeShape
  import opened SpanExport

  // A dictionary built from the rows keeps the last row of each id.
  function ById(rows: seq<Node>): (m: map<nat, Node>)
    ensures forall id :: id in m <==> exists i :: 0 <= i < |rows| && rows[i].id == id
    ensures forall id :: id in m ==> m[id] in rows && m[id].id == id
  {
    if rows == [] then map[]
    else
      var n := |rows| - 1;
      var before := ById(rows[..n]);
      assert forall i :: 0 <= i < n ==> rows[..n][i] == rows[i];
      before[rows[n].id := rows[n]]
  }

  function Share(row: Node, parent: nat): int {
    if row.parent == Some(parent) then row.Length() else 0
  }

  // The summed lengths of the rows under one parent.
  function ChildrenTotal(rows: seq<Node>, parent: nat): int {
    if rows == [] then 0
    else ChildrenTotal(rows[..|rows| - 1], parent) + Share(rows[|rows| - 1], parent)
  }

  ghost predicate HasChild(rows: seq<Node>, parent: nat) {
    exists i :: 0 <= i < |rows| && rows[i].parent == Some(parent)
  }

  ghost predicate RowInside(rows: seq<Node>, row: Node) {
    && row.start <= row.end
    && (row.parent.Some? && row.parent.value in ById(rows) ==> row.Within(ById(rows)[row.parent.value]))
  }

  ghost predicate LevelAddsUp(rows: seq<Node>, id: nat)
    requires id in ById(rows)
  {
    HasChild(rows, id) && Partitioned(ById(rows)[id].name) ==> ChildrenTotal(rows, id) == ById(rows)[id].Length()
  }

  ghost predicate Sound(rows: seq<Node>) {
    && (forall i :: 0 <= i < |rows| ==> RowInside(rows, rows[i]))
    && (forall id :: id in ById(rows) ==> LevelAddsUp(rows, id))
  }

  /** The audit loops, without their tolerance: they accept exactly the sound row lists. */
  method Audit(rows: seq<Node>) returns (ok: bool)
    ensures ok <==> Sound(rows)
  {
    var byId := ById(rows);
    var inside := AuditRows(rows, byId);
    if !inside {
      return false;
    }
    var totals := SumChildren(rows, byId);
    ok := AuditLevels(rows, byId, totals);
  }

  method AuditRows(rows: seq<Node>, byId: map<nat, Node>) returns (ok: bool)
    requires byId == ById(rows)
    ensures ok <==> forall i :: 0 <= i < |rows| ==> RowInside(rows, rows[i])
  {
    for i := 0 to |rows|
      invariant forall j :: 0 <= j < i ==> RowInside(rows, rows[j])
    {
      if rows[i].end < rows[i].start {
        assert !RowInside(rows, rows[i]);
        return false;
      }
      if rows[i].parent.Some? && rows[i].parent.value in byId {
        var parent := byId[rows[i].parent.value];
        if !(parent.start <= rows[i].start && rows[i].end <= parent.end) {
          assert !RowInside(rows, rows[i]);
          return false;
        }
      }
    }
    return true;
  }

  // The totals gathered so far: one entry for each listed parent with a child among the rows seen.
  ghost predicate Totals(totals: map<nat, int>, byId: map<nat, Node>, seen: seq<Node>) {
    && (forall id: nat :: id in totals <==> id in byId && HasChild(seen, id))
    && (forall id: nat :: id in totals ==> totals[id] == ChildrenTotal(seen, id))
    && (forall id: nat :: !HasChild(seen, id) ==> ChildrenTotal(seen, id) == 0)
  }

  method SumChildren(rows: seq<Node>, byId: map<nat, Node>) returns (totals: map<nat, int>)
    ensures Totals(totals, byId, rows)
  {
    totals := map[];
    for i := 0 to |rows|
      invariant Totals(totals, byId, rows[..i])
    {
      NextChild(rows, i);
      if rows[i].parent.Some? && rows[i].parent.value in byId {
        var p := rows[i].parent.value;
        totals := totals[p := (if p in totals then totals[p] else 0) + rows[i].end - rows[i].start];
      }
    }
    assert rows[..|rows|] == rows;
  }

  method AuditLevels(rows: seq<Node>, byId: map<nat, Node>, totals: map<nat, int>) returns (ok: bool)
    requires byId == ById(rows) && Totals(totals, byId, rows)
    ensures ok <==> forall id :: id in ById(rows) ==> LevelAddsUp(rows, id)
  {
    var left := totals.Keys;
    while left != {}
      invariant left <= totals.Keys
      invariant forall id :: id in totals.Keys - left ==> LevelAddsUp(rows, id)
      decreases left
    {
      var id :| id in left;
      if Partitioned(byId[id].name) && totals[id] != byId[id].end - byId[id].start {
        assert !LevelAddsUp(rows, id);
        return false;
      }
      left := left - {id};
    }
    return true;
  }

  lemma NextChild(rows: seq<Node>, i: nat)
    requires i < |rows|
    ensures forall id: nat :: ChildrenTotal(rows[..i + 1], id) == ChildrenTotal(rows[..i], id) + Share(rows[i], id)
    ensures forall id: nat :: HasChild(rows[..i + 1], id) <==> HasChild(rows[..i], id) || rows[i].parent == Some(id)
  {
    assert rows[..i + 1][..i] == rows[..i];
    assert rows[..i + 1][i] == rows[i];
    forall id: nat
      ensures HasChild(rows[..i + 1], id) <==> HasChild(rows[..i], id) || rows[i].parent == Some(id)
    {
      if j :| 0 <= j < i && rows[..i][j].parent == Some(id) {
        assert rows[..i + 1][j].parent == Some(id);
      }
    }
  }

  lemma RowOfId(rows: seq<Node>, j: nat)
    requires DistinctIds(rows) && j < |rows|
    ensures rows[j].id in ById(rows) && ById(rows)[rows[j].id] == rows[j]
  {
    assert rows[j].id in ById(rows);
    var row := ById(rows)[rows[j].id];
    var i: nat :| i < |rows| && rows[i] == row;
    SameId(rows, i, j);
  }

  // No row ends before it starts or leaves its parent.
  ghost predicate Inside(rows: seq<Node>) {
    && (forall i :: 0 <= i < |rows| ==> rows[i].start <= rows[i].end)
    && (forall i, j :: 0 <= i < |rows| && 0 <= j < |rows| && rows[i].parent == Some(rows[j].id) ==>
          rows[j].start <= rows[i].start && rows[i].end <= rows[j].end)
  }

  // The children of serve-request and of generate-response, where there are any, add up to it.
  ghost predicate AddUp(rows: seq<Node>) {
    forall row :: row in rows && HasChild(rows, row.id) ==>
      (row.name == ServeRequest || row.name == GenerateResponse ==> ChildrenTotal(rows, row.id) == row.end - row.start)
  }

  lemma {:induction false} InsideIff(rows: seq<Node>)
    requires DistinctIds(rows)
    ensures Inside(rows) <==> forall i :: 0 <= i < |rows| ==> RowInside(rows, rows[i])
  {
    forall j | 0 <= j < |rows| ensures rows[j].id in ById(rows) && ById(rows)[rows[j].id] == rows[j] { RowOfId(rows, j); }
    if forall i :: 0 <= i < |rows| ==> RowInside(rows, rows[i]) {
      forall i, j | 0 <= i < |rows| && 0 <= j < |rows| && rows[i].parent == Some(rows[j].id)
        ensures rows[j].start <= rows[i].start && rows[i].end <= rows[j].end
      {
        assert RowInside(rows, rows[i]);
      }
    }
  }

  lemma {:induction false} AddUpIff(rows: seq<Node>)
    requires DistinctIds(rows)
    ensures AddUp(rows) <==> forall id :: id in ById(rows) ==> LevelAddsUp(rows, id)
  {
    forall j | 0 <= j < |rows| ensures rows[j].id in ById(rows) && ById(rows)[rows[j].id] == rows[j] { RowOfId(rows, j); }
    if forall id :: id in ById(rows) ==> LevelAddsUp(rows, id) {
      forall row | row in rows && HasChild(rows, row.id)
        ensures row.name == ServeRequest || row.name == GenerateResponse ==> ChildrenTotal(rows, row.id) == row.end - row.start
      {
        assert LevelAddsUp(rows, row.id);
      }
    }
  }

  /**
   What the audit accepts, for rows with distinct ids: none ends before it starts or leaves its parent, and the children
   of serve-request and of generate-response add up to it.
  */
  lemma {:induction false} SoundIff(rows: seq<Node>)
    requires DistinctIds(rows)
    ensures Sound(rows) <==> Inside(rows) && AddUp(rows)
  {
    InsideIff(rows);
    AddUpIff(rows);
  }

  // ---------- Sums do not depend on the order of rows ----------

  lemma {:induction false} TotalOfConcat(a: seq<Node>, b: seq<Node>, parent: nat)
    ensures ChildrenTotal(a + b, parent) == ChildrenTotal(a, parent) + ChildrenTotal(b, parent)
  {
    if b == [] {
      assert a + b == a;
    } else {
      var n := |b| - 1;
      TotalOfConcat(a, b[..n], parent);
      assert (a + b)[..|a + b| - 1] == a + b[..n];
    }
  }

  lemma TotalOfOne(x: Node, parent: nat)
    ensures ChildrenTotal([x], parent) == Share(x, parent)
  {
  }

  lemma {:induction false} TotalPermutes(a: seq<Node>, b: seq<Node>, parent: nat)
    requires multiset(a) == multiset(b)
    ensures ChildrenTotal(a, parent) == ChildrenTotal(b, parent)
    decreases |a|
  {
    if a == [] {
      assert |b| == |multiset(b)| == 0;
    } else {
      var n := |a| - 1;
      var x := a[n];
      assert a == a[..n] + [x];
      assert x in multiset(b);
      var k :| 0 <= k < |b| && b[k] == x;
      var rest := b[..k] + b[k + 1..];
      assert b == b[..k] + [x] + b[k + 1..];
      assert multiset(a[..n]) == multiset(a) - multiset{x};
      assert multiset(rest) == multiset(b) - multiset{x};
      TotalPermutes(a[..n], rest, parent);
      TotalOfConcat(b[..k], b[k + 1..], parent);
      TotalOfConcat(b[..k] + [x], b[k + 1..], parent);
      TotalOfConcat(b[..k], [x], parent);
      TotalOfOne(x, parent);
    }
  }

  lemma {:induction false} TotalOfKept(nodes: seq<Node>, rootEnd: int, parent: nat)
    requires forall x :: x in nodes ==> 0 < x.end && x.start <= x.end
    ensures ChildrenTotal(Keep(nodes, rootEnd), parent) == ChildrenTotal(nodes, parent)
  {
    if nodes == [] {
    } else {
      var n := |nodes| - 1;
      TotalOfKept(nodes[..n], rootEnd, parent);
      TotalOfConcat(Keep(nodes[..n], rootEnd), [nodes[n]], parent);
      TotalOfOne(nodes[n], parent);
      assert Keep(nodes[..n], rootEnd) + [] == Keep(nodes[..n], rootEnd);
    }
  }

  lemma {:induction false} NoChildren(nodes: seq<Node>, parent: nat)
    requires forall x :: x in nodes ==> x.parent != Some(parent)
    ensures ChildrenTotal(nodes, parent) == 0
  {
    if nodes != [] {
      NoChildren(nodes[..|nodes| - 1], parent);
    }
  }

  lemma {:induction false} AllChildren(nodes: seq<Node>, parent: nat)
    requires forall x :: x in nodes ==> x.parent == Some(parent)
    ensures ChildrenTotal(nodes, parent) == TotalLength(nodes)
  {
    if nodes != [] {
      AllChildren(nodes[..|nodes| - 1], parent);
    }
  }

  // ---------- The two levels of a request ----------

  lemma DetailParents(event: Event, uid: nat, d: Node)
    requires WellTimed(event) && FreshIds(event, uid) && d in Details(Placed(event, uid))
    ensures d.parent.Some? && d.parent.value != event.rootId
    ensures var g := FirstGeneration(event.observations); g.Some? ==> d.parent.value != g.value.id
  {
    var placed, n := Placed(event, uid), |Spine(event, uid)|;
    var k :| 0 <= k < |placed| && Details(placed)[k] == d;
    if Moves(placed, k) {
      var a := PlacedFrom(Containers(event, uid), event.apiIntervals, LastIndex(placed, SubmitEngine).value);
    } else {
      var j := DetailContainer(event, uid, k);
      SpineIds(event, uid);
      assert Spine(event, uid)[0] == Root(event);
      var g := FirstGeneration(event.observations);
      if g.Some? {
        var i := |Head(event, uid)| - 1;
        assert Spine(event, uid)[i] == GenerationNode(event, g.value);
      }
    }
  }

  lemma HeadTotals(event: Event, uid: nat)
    requires WellTimed(event) && FreshIds(event, uid)
    ensures ChildrenTotal(Head(event, uid), event.rootId) == Root(event).Length()
    ensures var g := FirstGeneration(event.observations); g.Some? ==> ChildrenTotal(Head(event, uid), g.value.id) == 0
  {
    var g := FirstGeneration(event.observations);
    var root, api, transfer := Root(event), Api(event, uid), Transfer(event, uid);
    var tr := if transfer.Positive() then [transfer] else [];
    var gn := if g.Some? then [GenerationNode(event, g.value)] else [];
    assert Head(event, uid) == [root] + [api] + tr + gn;
    var p := event.rootId;
    TotalOfConcat([root] + [api] + tr, gn, p);
    TotalOfConcat([root] + [api], tr, p);
    TotalOfConcat([root], [api], p);
    TotalOfOne(root, p);
    TotalOfOne(api, p);
    TotalOfOne(transfer, p);
    if g.Some? {
      TotalOfOne(GenerationNode(event, g.value), p);
      NoChildren(Head(event, uid), g.value.id);
    }
  }

  lemma UnsortedTotals(event: Event, uid: nat)
    requires WellTimed(event) && FreshIds(event, uid)
    ensures ChildrenTotal(Unsorted(event, uid), event.rootId) == Root(event).Length()
    ensures var g := FirstGeneration(event.observations);
            g.Some? ==> ChildrenTotal(Unsorted(event, uid), g.value.id) == GenerationNode(event, g.value).Length()
  {
    var head, segments, details := Head(event, uid), EngineSegments(event, uid), Details(Placed(event, uid));
    HeadTotals(event, uid);
    EngineSegmentsTile(event, uid);
    TilesTotal(segments, GenStart(event), GenEnd(event));
    forall d | d in details ensures d.parent != Some(event.rootId) { DetailParents(event, uid, d); }
    NoChildren(details, event.rootId);
    TotalOfConcat(head + segments, details, event.rootId);
    TotalOfConcat(head, segments, event.rootId);
    var g := FirstGeneration(event.observations);
    if g.Some? {
      var id := g.value.id;
      forall s | s in segments ensures s.parent == Some(id) { var k := SegmentStage(event, uid, s); }
      forall d | d in details ensures d.parent != Some(id) { DetailParents(event, uid, d); }
      AllChildren(segments, id);
      NoChildren(segments, event.rootId);
      NoChildren(details, id);
      TotalOfConcat(head + segments, details, id);
      TotalOfConcat(head, segments, id);
    } else {
      NoChildren(segments, event.rootId);
    }
  }

  // ---------- Every exported tree passes ----------

  // Rows as a reader gets them: the exported spans in any order.
  ghost predicate RowsOf(event: Event, uid: nat, rows: seq<Node>) {
    var rootEnd := Root(event).end;
    ExportSucceeds(event, uid) && multiset(rows) == multiset(Batch(Keep(Nodes(event, uid).value, rootEnd), rootEnd))
  }

  lemma {:induction false} BatchIsPermutation(nodes: seq<Node>, rootEnd: int)
    requires forall x :: x in nodes ==> 0 < x.end
    ensures multiset(Batch(nodes, rootEnd)) == multiset(nodes)
  {
    if nodes == [] {
    } else {
      BatchIsPermutation(nodes[1..], rootEnd);
      assert nodes == [nodes[0]] + nodes[1..];
    }
  }

  lemma SameMembers(a: seq<Node>, b: seq<Node>, x: Node)
    requires multiset(a) == multiset(b)
    ensures x in a <==> x in b
  {
    assert x in a <==> x in multiset(a);
    assert x in b <==> x in multiset(b);
  }

  lemma InOrderPermutes(u: seq<Node>)
    requires u != []
    ensures multiset(InOrder(u)) == multiset(u)
  {
    SortIsOrderedPermutation(u[1..]);
    assert u == [u[0]] + u[1..];
  }

  // What the exported rows have in common with the unsorted node list.
  lemma {:induction false} BatchFacts(u: seq<Node>, rootEnd: int, rows: seq<Node>)
    requires u != [] && forall x :: x in u ==> 0 < x.end && x.start <= x.end
    requires multiset(rows) == multiset(Batch(Keep(InOrder(u), rootEnd), rootEnd))
    ensures forall x :: x in rows <==> x in u && x.Positive()
    ensures forall p: nat :: ChildrenTotal(rows, p) == ChildrenTotal(u, p)
  {
    var out := InOrder(u);
    var kept := Keep(out, rootEnd);
    InOrderPermutes(u);
    forall x: Node ensures (x in out <==> x in u) && (x in kept <==> x in out && Kept(x, rootEnd)) {
      SameMembers(out, u, x);
      KeepMembers(out, rootEnd, x);
    }
    BatchIsPermutation(kept, rootEnd);
    forall x: Node ensures x in rows <==> x in kept {
      SameMembers(rows, kept, x);
    }
    forall p: nat ensures ChildrenTotal(rows, p) == ChildrenTotal(u, p) {
      TotalPermutes(rows, kept, p);
      TotalOfKept(out, rootEnd, p);
      TotalPermutes(out, u, p);
    }
  }

  lemma RowFacts(event: Event, uid: nat, rows: seq<Node>)
    requires WellTimed(event) && FreshIds(event, uid) && RowsOf(event, uid, rows)
    ensures forall x :: x in rows <==> x in Unsorted(event, uid) && x.Positive()
    ensures forall p: nat :: ChildrenTotal(rows, p) == ChildrenTotal(Unsorted(event, uid), p)
  {
    var u := Unsorted(event, uid);
    assert Nodes(event, uid) == Success(InOrder(u));
    forall x | x in u ensures 0 < x.end && x.start <= x.end {
      var i :| 0 <= i < |u| && u[i] == x;
      OrderedStamps(event, uid, i);
    }
    BatchFacts(u, Root(event).end, rows);
  }

  lemma SameNode(u: seq<Node>, x: Node, y: Node)
    requires DistinctIds(u) && x in u && y in u && x.id == y.id
    ensures x == y
  {
  }

  /** The audit accepts every exported request, exactly and in whatever order its rows come back. */
  lemma {:induction false} AuditAcceptsExports(event: Event, uid: nat, rows: seq<Node>)
    requires WellTimed(event) && FreshIds(event, uid) && RowsOf(event, uid, rows)
    ensures Sound(rows)
  {
    var u := Unsorted(event, uid);
    RowFacts(event, uid, rows);
    UnsortedIds(event, uid);
    forall i | 0 <= i < |rows|
      ensures RowInside(rows, rows[i])
    {
      RowInsideParent(event, uid, rows, rows[i]);
    }
    forall id | id in ById(rows)
      ensures LevelAddsUp(rows, id)
    {
      var p := ById(rows)[id];
      if HasChild(rows, id) && Partitioned(p.name) {
        var i :| 0 <= i < |rows| && rows[i].parent == Some(id);
        PartitionedParent(event, uid, rows[i], p);
        UnsortedTotals(event, uid);
      }
    }
  }

  lemma {:induction false} RowInsideParent(event: Event, uid: nat, rows: seq<Node>, x: Node)
    requires WellTimed(event) && FreshIds(event, uid) && x in rows
    requires forall y :: y in rows <==> y in Unsorted(event, uid) && y.Positive()
    ensures RowInside(rows, x)
  {
    var u := Unsorted(event, uid);
    if x.parent.Some? && x.parent.value in ById(rows) {
      var k :| 0 <= k < |u| && u[k] == x;
      var j := EveryNodeHasParent(event, uid, k);
      UnsortedIds(event, uid);
      SameNode(u, ById(rows)[x.parent.value], u[j]);
    }
  }

  lemma PartitionedParent(event: Event, uid: nat, x: Node, p: Node)
    requires WellTimed(event) && FreshIds(event, uid) && x in Unsorted(event, uid) && p in Unsorted(event, uid)
    requires x.parent == Some(p.id) && Partitioned(p.name)
    ensures var g := FirstGeneration(event.observations);
            p == Root(event) || (g.Some? && p == GenerationNode(event, g.value))
  {
    var u := Unsorted(event, uid);
    var k :| 0 <= k < |u| && u[k] == x;
    var j := EveryNodeHasParent(event, uid, k);
    UnsortedIds(event, uid);
    SameNode(u, p, u[j]);
  }
}
