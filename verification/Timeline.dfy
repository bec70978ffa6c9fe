/**
 The timeline builder: it cuts a request into API, generation and transfer segments, cuts the
 generation into engine stages, and nests the measured API calls inside those segments.
 */
module Timeline {
  import opened Common
  import opened Clock
  import opened TraceEvents
  import opened StableSort

  function Clamp(value: int, lo: int, hi: int): int { Max(lo, Min(value, hi)) }

  // ---------- Generation bounds and engine edges ----------

  function GenStart(event: Event): int {
    match FirstGeneration(event.observations)
    case Some(g) => g.start
    case None => Root(event).end
  }

  // An unset end, and an end of zero, both count as missing.
  function GenEnd(event: Event): int {
    match FirstGeneration(event.observations)
    case Some(g) => if g.closed.Some? && g.closed.value != 0 then g.closed.value else Root(event).end
    case None => Root(event).end
  }

  /**
   The generation starts and ends where it was recorded to; without an end, or with an end of zero, it lasts as long as
   the request, and without a generation the request is over before one could start.
  */
  lemma GenerationBounds(event: Event)
    ensures var end := event.startedNs + ToNanos(event.httpTotal);
            match FirstGeneration(event.observations)
            case None => GenStart(event) == GenEnd(event) == end
            case Some(g) =>
              GenStart(event) == g.start
              && GenEnd(event) == if g.closed == None || g.closed == Some(0) then end else g.closed.value
  {
  }

  const STAGES: seq<Name> := [EngineHandoff, WaitingToFirstSchedule, Prefill, Decode, EngineFinalize]

  // Where waiting starts: the registry's own measurement when there is one, else the queue span.
  function Waiting(observations: seq<Observation>): Option<Observation> {
    var calibrated := LastSpan(observations, WaitingToFirstSchedule);
    if calibrated.Some? then calibrated else LastSpan(observations, Queue)
  }

  // The six edges of the five stages: generation start, waiting, prefill, decode, end of decode, generation end.
  // A missing edge falls onto the one before it.
  function Edges(observations: seq<Observation>, genStart: int, genEnd: int): (cuts: seq<int>)
    ensures |cuts| == 6 && cuts[0] == genStart && cuts[5] == genEnd
    ensures cuts[1] == match Waiting(observations) case Some(w) => w.start case None => cuts[0]
    ensures cuts[2] == match LastSpan(observations, Prefill) case Some(p) => p.start case None => cuts[1]
    ensures cuts[3] == match LastSpan(observations, Decode) case Some(d) => d.start case None => cuts[2]
    ensures LastSpan(observations, Decode).Some? ==> cuts[4] == LastSpan(observations, Decode).value.end
    ensures LastSpan(observations, Decode).None? ==>
              cuts[4] == match LastSpan(observations, Prefill) case Some(p) => p.end case None => cuts[3]
  {
    var waiting := Waiting(observations);
    var prefill := LastSpan(observations, Prefill);
    var decode := LastSpan(observations, Decode);
    var w := if waiting.Some? then waiting.value.start else genStart;
    var p := if prefill.Some? then prefill.value.start else w;
    var d := if decode.Some? then decode.value.start else p;
    var e := if decode.Some? then decode.value.end else if prefill.Some? then prefill.value.end else d;
    [genStart, w, p, d, e, genEnd]
  }

  datatype Boundary = Boundary(name: Name, start: int, end: int)

  function Boundaries(cuts: seq<int>): (bs: seq<Boundary>)
    requires |cuts| == 6
    ensures |bs| == 5
  {
    var lo, hi := cuts[0], cuts[5];
    [ Boundary(STAGES[0], lo, Clamp(cuts[1], lo, hi)),
      Boundary(STAGES[1], Clamp(cuts[1], lo, hi), Clamp(cuts[2], lo, hi)),
      Boundary(STAGES[2], Clamp(cuts[2], lo, hi), Clamp(cuts[3], lo, hi)),
      Boundary(STAGES[3], Clamp(cuts[3], lo, hi), Clamp(cuts[4], lo, hi)),
      Boundary(STAGES[4], Clamp(cuts[4], lo, hi), hi) ]
  }

  // ---------- The cursor over the boundaries ----------

  function Cursor(bs: seq<Boundary>, lo: int, hi: int): int {
    if bs == [] then lo
    else
      var last := bs[|bs| - 1];
      Max(Max(last.start, Cursor(bs[..|bs| - 1], lo, hi)), Min(last.end, hi))
  }

  function Segments(bs: seq<Boundary>, lo: int, hi: int, parent: nat, uid: nat): seq<Node> {
    if bs == [] then []
    else
      var last := bs[|bs| - 1];
      var before := Segments(bs[..|bs| - 1], lo, hi, parent, uid);
      var start := Max(last.start, Cursor(bs[..|bs| - 1], lo, hi));
      var end := Max(start, Min(last.end, hi));
      if end <= start then before
      else before + [Node(uid + |before|, Some(parent), last.name, start, end)]
  }

  // Segments laid end to end from lo to hi, each of positive length.
  ghost predicate Tiles(segments: seq<Node>, lo: int, hi: int) {
    if segments == [] then lo == hi
    else
      var last := segments[|segments| - 1];
      last.Positive() && last.end == hi && Tiles(segments[..|segments| - 1], lo, last.start)
  }

  function TotalLength(nodes: seq<Node>): int {
    if nodes == [] then 0
    else TotalLength(nodes[..|nodes| - 1]) + nodes[|nodes| - 1].Length()
  }

  // Every boundary starts no later than the cursor that those before it leave behind.
  ghost predicate Linked(bs: seq<Boundary>, lo: int, hi: int) {
    bs == [] ||
    (var init := bs[..|bs| - 1];
     Linked(init, lo, hi) && bs[|bs| - 1].start <= Cursor(init, lo, hi))
  }

  lemma {:induction false} CursorRises(bs: seq<Boundary>, lo: int, hi: int)
    ensures lo <= Cursor(bs, lo, hi)
    ensures bs != [] ==> Min(bs[|bs| - 1].end, hi) <= Cursor(bs, lo, hi)
  {
    if bs == [] {
    } else {
      CursorRises(bs[..|bs| - 1], lo, hi);
    }
  }

  lemma TilesMore(segments: seq<Node>, lo: int, hi: int, s: Node)
    requires Tiles(segments, lo, hi) && s.Positive() && s.start == hi
    ensures Tiles(segments + [s], lo, s.end)
  {
    assert (segments + [s])[..|segments|] == segments;
  }

  lemma {:induction false} SegmentsTile(bs: seq<Boundary>, lo: int, hi: int, parent: nat, uid: nat)
    requires Linked(bs, lo, hi)
    ensures Tiles(Segments(bs, lo, hi, parent, uid), lo, Cursor(bs, lo, hi))
  {
    if bs == [] {
    } else {
      var last, init := bs[|bs| - 1], bs[..|bs| - 1];
      var before, at := Segments(init, lo, hi, parent, uid), Cursor(init, lo, hi);
      SegmentsTile(init, lo, hi, parent, uid);
      var end := Max(at, Min(last.end, hi));
      assert Cursor(bs, lo, hi) == end;
      if at < end {
        TilesMore(before, lo, at, Node(uid + |before|, Some(parent), last.name, at, end));
      }
    }
  }

  lemma {:induction false} BoundariesLinked(cuts: seq<int>, k: nat)
    requires |cuts| == 6 && k <= 5
    ensures Linked(Boundaries(cuts)[..k], cuts[0], cuts[5])
  {
    var bs := Boundaries(cuts);
    if k == 0 {
    } else {
      BoundariesLinked(cuts, k - 1);
      assert bs[..k][..k - 1] == bs[..k - 1];
      CursorRises(bs[..k - 1], cuts[0], cuts[5]);
      assert k > 1 ==> bs[..k - 1][k - 2] == bs[k - 2];
    }
  }

  lemma {:induction false} TilesTotal(segments: seq<Node>, lo: int, hi: int)
    requires Tiles(segments, lo, hi)
    ensures lo <= hi && TotalLength(segments) == hi - lo
  {
    if segments != [] {
      TilesTotal(segments[..|segments| - 1], lo, segments[|segments| - 1].start);
    }
  }

  lemma {:induction false} TilesInside(segments: seq<Node>, lo: int, hi: int)
    requires Tiles(segments, lo, hi)
    ensures forall s :: s in segments ==> s.Positive() && lo <= s.start && s.end <= hi
  {
    if segments != [] {
      var n := |segments| - 1;
      TilesInside(segments[..n], lo, segments[n].start);
      TilesTotal(segments[..n], lo, segments[n].start);
      assert segments == segments[..n] + [segments[n]];
    }
  }

  /** In a tiling, each instant of the range lies in exactly one segment, and no other instant in any. */
  lemma {:induction false} TilesHoldOnce(segments: seq<Node>, lo: int, hi: int, t: int)
    requires Tiles(segments, lo, hi)
    ensures lo <= t < hi <==> exists i :: 0 <= i < |segments| && segments[i].Holds(t)
    ensures forall i, j ::
              (0 <= i < |segments| && segments[i].Holds(t) && 0 <= j < |segments| && segments[j].Holds(t)) ==> i == j
  {
    if segments != [] {
      var n := |segments| - 1;
      var init, last := segments[..n], segments[n];
      TilesHoldOnce(init, lo, last.start, t);
      TilesTotal(init, lo, last.start);
      if lo <= t < hi {
        if t < last.start {
          var i :| 0 <= i < |init| && init[i].Holds(t);
          assert segments[i].Holds(t);
        } else {
          assert segments[n].Holds(t);
        }
      }
      forall i | 0 <= i < |segments| && segments[i].Holds(t)
        ensures lo <= t < hi && (i < n ==> init[i].Holds(t) && t < last.start)
      {
        if i < n { assert init[i].Holds(t); }
      }
    }
  }

  // ---------- What the cursor computes ----------

  ghost predicate IsMaximum(m: int, s: seq<int>) {
    m in s && forall x :: x in s ==> x <= m
  }

  // The cut points clamped to the generation.
  function Clamped(cuts: seq<int>): (c: seq<int>)
    requires |cuts| == 6
    ensures |c| == 6 && forall k :: 0 <= k < 6 ==> c[k] == Clamp(cuts[k], cuts[0], cuts[5])
  {
    seq(6, k requires 0 <= k < 6 => Clamp(cuts[k], cuts[0], cuts[5]))
  }

  lemma {:induction false} CursorStep(cuts: seq<int>, k: nat)
    requires |cuts| == 6 && 0 < k <= 5 && cuts[0] <= cuts[5]
    ensures var bs := Boundaries(cuts);
            Cursor(bs[..k], cuts[0], cuts[5])
            == Max(Max(bs[k - 1].start, Cursor(bs[..k - 1], cuts[0], cuts[5])), Clamped(cuts)[k])
  {
    var bs := Boundaries(cuts);
    assert bs[..k][..k - 1] == bs[..k - 1];
    assert bs[..k][k - 1] == bs[k - 1];
    assert Min(bs[k - 1].end, cuts[5]) == Clamped(cuts)[k];
  }

  lemma MaximumOfMore(m: int, s: seq<int>, x: int)
    requires IsMaximum(m, s)
    ensures IsMaximum(Max(m, x), s + [x])
  {
  }

  /** The k-th cut point is the largest of the first k + 1 clamped edges, in whatever order the edges come. */
  lemma {:induction false} CursorIsRunningMaximum(cuts: seq<int>, k: nat)
    requires |cuts| == 6 && k <= 5 && cuts[0] <= cuts[5]
    ensures IsMaximum(Cursor(Boundaries(cuts)[..k], cuts[0], cuts[5]), Clamped(cuts)[..k + 1])
  {
    var bs, c := Boundaries(cuts), Clamped(cuts);
    if k == 0 {
      assert c[..1] == [c[0]];
    } else {
      var m := Cursor(bs[..k - 1], cuts[0], cuts[5]);
      CursorIsRunningMaximum(cuts, k - 1);
      CursorStep(cuts, k);
      assert bs[k - 1].start == c[k - 1] && c[k - 1] == c[..k][k - 1];
      MaximumOfMore(m, c[..k], c[k]);
      assert c[..k + 1] == c[..k] + [c[k]];
    }
  }

  /** Seen from an instant t of the generation, the cursor is at or before t while no edge so far lies after t. */
  lemma CursorAgainstInstant(cuts: seq<int>, k: nat, t: int)
    requires |cuts| == 6 && k <= 5 && cuts[0] <= t < cuts[5]
    ensures Cursor(Boundaries(cuts)[..k], cuts[0], cuts[5]) <= t <==> forall j :: 1 <= j <= k ==> cuts[j] <= t
  {
    CursorIsRunningMaximum(cuts, k);
    var c := Clamped(cuts)[..k + 1];
    var m := Cursor(Boundaries(cuts)[..k], cuts[0], cuts[5]);
    if m <= t {
      forall j | 1 <= j <= k ensures cuts[j] <= t { assert c[j] in c; }
    } else {
      var j :| 0 <= j < |c| && c[j] == m;
      assert cuts[j] > t;
    }
  }

  lemma {:induction false} SegmentOrigin(bs: seq<Boundary>, lo: int, hi: int, parent: nat, uid: nat,
                                         s: Node) returns (i: nat)
    requires Linked(bs, lo, hi) && s in Segments(bs, lo, hi, parent, uid)
    ensures i < |bs| && s.name == bs[i].name && s.parent == Some(parent)
    ensures s.start == Cursor(bs[..i], lo, hi) && s.end == Cursor(bs[..i + 1], lo, hi)
  {
    var n := |bs| - 1;
    var init := bs[..n];
    if s in Segments(init, lo, hi, parent, uid) {
      i := SegmentOrigin(init, lo, hi, parent, uid, s);
      assert init[..i] == bs[..i] && init[..i + 1] == bs[..i + 1];
    } else {
      i := n;
      CursorRises(init, lo, hi);
      assert bs[..n + 1] == bs;
    }
  }

  lemma {:induction false} SegmentExists(bs: seq<Boundary>, lo: int, hi: int, parent: nat, uid: nat,
                                         i: nat) returns (s: Node)
    requires Linked(bs, lo, hi) && i < |bs| && Cursor(bs[..i], lo, hi) < Cursor(bs[..i + 1], lo, hi)
    ensures s in Segments(bs, lo, hi, parent, uid) && s.name == bs[i].name
    ensures s.start == Cursor(bs[..i], lo, hi) && s.end == Cursor(bs[..i + 1], lo, hi)
  {
    var n := |bs| - 1;
    var init := bs[..n];
    if i < n {
      assert init[..i] == bs[..i] && init[..i + 1] == bs[..i + 1];
      s := SegmentExists(init, lo, hi, parent, uid, i);
    } else {
      CursorRises(init, lo, hi);
      assert bs[..n + 1] == bs;
      var all := Segments(bs, lo, hi, parent, uid);
      s := all[|all| - 1];
    }
  }

  // ---------- The partition of the generation ----------

  function StageSegments(cuts: seq<int>, parent: nat, uid: nat): seq<Node>
    requires |cuts| == 6
  {
    Segments(Boundaries(cuts), cuts[0], cuts[5], parent, uid)
  }

  // The stage that owns instant t: the first one whose closing edge lies after t.
  function OwningStage(cuts: seq<int>, t: int): (k: nat)
    requires |cuts| == 6 && t < cuts[5]
    ensures k < 5 && t < cuts[k + 1] && forall j :: 1 <= j <= k ==> cuts[j] <= t
  {
    if t < cuts[1] then 0
    else if t < cuts[2] then 1
    else if t < cuts[3] then 2
    else if t < cuts[4] then 3
    else 4
  }

  /** Whatever the edges, the stage segments tile the generation and their lengths add up to it exactly. */
  lemma StagesPartitionGeneration(cuts: seq<int>, parent: nat, uid: nat)
    requires |cuts| == 6
    ensures Tiles(StageSegments(cuts, parent, uid), cuts[0], Max(cuts[0], cuts[5]))
    ensures TotalLength(StageSegments(cuts, parent, uid)) == Max(0, cuts[5] - cuts[0])
  {
    var bs := Boundaries(cuts);
    var lo, hi := cuts[0], cuts[5];
    BoundariesLinked(cuts, 5);
    assert Boundaries(cuts)[..5] == Boundaries(cuts);
    SegmentsTile(bs, lo, hi, parent, uid);
    assert bs[..5] == bs;
    if lo <= hi {
      CursorIsRunningMaximum(cuts, 5);
      assert Clamped(cuts)[..6][5] == hi;
    } else {
      BackwardCursor(bs, lo, hi);
    }
    TilesTotal(StageSegments(cuts, parent, uid), lo, Max(lo, hi));
  }

  lemma {:induction false} BackwardCursor(bs: seq<Boundary>, lo: int, hi: int)
    requires hi < lo && Linked(bs, lo, hi)
    ensures Cursor(bs, lo, hi) == lo
  {
    if bs == [] {
    } else {
      BackwardCursor(bs[..|bs| - 1], lo, hi);
    }
  }

  /** Each instant of the generation is charged to one stage: the first whose closing edge lies after it. */
  lemma StageOwnsInstant(cuts: seq<int>, parent: nat, uid: nat, t: int)
    requires |cuts| == 6 && cuts[0] <= t < cuts[5]
    ensures exists s :: s in StageSegments(cuts, parent, uid) && s.Holds(t)
    ensures forall s :: s in StageSegments(cuts, parent, uid) && s.Holds(t) ==> s.name == STAGES[OwningStage(cuts, t)]
  {
    var segments := StageSegments(cuts, parent, uid);
    StagesPartitionGeneration(cuts, parent, uid);
    TilesHoldOnce(segments, cuts[0], cuts[5], t);
    BoundariesLinked(cuts, 5);
    assert Boundaries(cuts)[..5] == Boundaries(cuts);
    forall s | s in segments && s.Holds(t)
      ensures s.name == STAGES[OwningStage(cuts, t)]
    {
      var i := SegmentOrigin(Boundaries(cuts), cuts[0], cuts[5], parent, uid, s);
      CursorAgainstInstant(cuts, i, t);
      CursorAgainstInstant(cuts, i + 1, t);
    }
  }

  ghost predicate Ordered(cuts: seq<int>) {
    |cuts| == 6 && cuts[0] <= cuts[1] <= cuts[2] <= cuts[3] <= cuts[4] <= cuts[5]
  }

  lemma {:induction false} OrderedCursor(cuts: seq<int>, k: nat)
    requires Ordered(cuts) && k <= 5
    ensures Cursor(Boundaries(cuts)[..k], cuts[0], cuts[5]) == cuts[k]
  {
    if k == 0 {
    } else {
      OrderedCursor(cuts, k - 1);
      CursorStep(cuts, k);
    }
  }

  /** Edges reported in order and inside the generation are drawn exactly as reported. */
  lemma OrderedStagesAreExact(cuts: seq<int>, parent: nat, uid: nat, k: nat)
    requires Ordered(cuts) && k < 5 && cuts[k] < cuts[k + 1]
    ensures exists s :: s in StageSegments(cuts, parent, uid) && s.name == STAGES[k]
                        && s.start == cuts[k] && s.end == cuts[k + 1]
  {
    BoundariesLinked(cuts, 5);
    assert Boundaries(cuts)[..5] == Boundaries(cuts);
    OrderedCursor(cuts, k);
    OrderedCursor(cuts, k + 1);
    var s := SegmentExists(Boundaries(cuts), cuts[0], cuts[5], parent, uid, k);
  }

  lemma SegmentOfStage(cuts: seq<int>, parent: nat, uid: nat, s: Node) returns (i: nat)
    requires |cuts| == 6 && s in StageSegments(cuts, parent, uid)
    ensures i < 5 && s.name == STAGES[i] && s.Positive() && cuts[0] <= s.start && s.end <= Max(cuts[0], cuts[5])
    ensures s.start == Cursor(Boundaries(cuts)[..i], cuts[0], cuts[5])
    ensures s.end == Cursor(Boundaries(cuts)[..i + 1], cuts[0], cuts[5])
  {
    BoundariesLinked(cuts, 5);
    assert Boundaries(cuts)[..5] == Boundaries(cuts);
    i := SegmentOrigin(Boundaries(cuts), cuts[0], cuts[5], parent, uid, s);
    StagesPartitionGeneration(cuts, parent, uid);
    TilesInside(StageSegments(cuts, parent, uid), cuts[0], Max(cuts[0], cuts[5]));
  }

  // The stage is drawn from a to b, once, or not at all when that is no time.
  ghost predicate DrawnExactly(segments: seq<Node>, name: Name, a: int, b: int) {
    && (a < b <==> exists s :: s in segments && s.name == name)
    && (forall s :: s in segments && s.name == name ==> s.start == a && s.end == b)
  }

  // Where stage k starts, and the one before it ends.
  function CutPoint(cuts: seq<int>, k: nat): int
    requires |cuts| == 6 && k <= 5
  {
    Cursor(Boundaries(cuts)[..k], cuts[0], cuts[5])
  }

  lemma {:induction false} StageAtCutPoints(cuts: seq<int>, parent: nat, uid: nat, s: Node, k: nat)
    requires |cuts| == 6 && k < 5 && s in StageSegments(cuts, parent, uid) && s.name == STAGES[k]
    ensures s.Positive() && s.start == CutPoint(cuts, k) && s.end == CutPoint(cuts, k + 1)
  {
    var i := SegmentOfStage(cuts, parent, uid, s);
    assert i == k;
  }

  lemma {:induction false} StageIsDrawn(cuts: seq<int>, parent: nat, uid: nat, k: nat)
    requires |cuts| == 6 && k < 5 && CutPoint(cuts, k) < CutPoint(cuts, k + 1)
    ensures exists s :: s in StageSegments(cuts, parent, uid) && s.name == STAGES[k]
  {
    BoundariesLinked(cuts, 5);
    assert Boundaries(cuts)[..5] == Boundaries(cuts);
    var s := SegmentExists(Boundaries(cuts), cuts[0], cuts[5], parent, uid, k);
  }

  /** Each stage is drawn from its cut point to the next, or not at all when they coincide. */
  lemma {:induction false} StagesAreDrawnExactly(cuts: seq<int>, parent: nat, uid: nat, k: nat)
    requires |cuts| == 6 && k < 5
    ensures DrawnExactly(StageSegments(cuts, parent, uid), STAGES[k], CutPoint(cuts, k), CutPoint(cuts, k + 1))
  {
    if CutPoint(cuts, k) < CutPoint(cuts, k + 1) {
      StageIsDrawn(cuts, parent, uid, k);
    }
    forall s | s in StageSegments(cuts, parent, uid) && s.name == STAGES[k]
      ensures s.Positive() && s.start == CutPoint(cuts, k) && s.end == CutPoint(cuts, k + 1)
    {
      StageAtCutPoints(cuts, parent, uid, s, k);
    }
  }

  /** Whatever order the edges come in, a stage is drawn only between its own two edges. */
  lemma StageWithinItsEdges(cuts: seq<int>, parent: nat, uid: nat, s: Node, k: nat)
    requires |cuts| == 6 && k < 5 && s in StageSegments(cuts, parent, uid) && s.name == STAGES[k]
    ensures cuts[k] <= s.start < s.end <= cuts[k + 1]
  {
    var i := SegmentOfStage(cuts, parent, uid, s);
    assert s.Holds(s.start) && s.Holds(s.end - 1);
    StageOwnsInstant(cuts, parent, uid, s.start);
    StageOwnsInstant(cuts, parent, uid, s.end - 1);
    assert STAGES[OwningStage(cuts, s.start)] == STAGES[OwningStage(cuts, s.end - 1)] == STAGES[k];
  }

  /** A missing span leaves no time for the stage before it: none is drawn. */
  lemma MissingSpanDrawsNoStage(observations: seq<Observation>, genStart: int, genEnd: int, parent: nat,
                                uid: nat, s: Node)
    requires s in StageSegments(Edges(observations, genStart, genEnd), parent, uid)
    ensures Waiting(observations).None? ==> s.name != EngineHandoff
    ensures LastSpan(observations, Prefill).None? ==> s.name != WaitingToFirstSchedule
    ensures LastSpan(observations, Decode).None? ==> s.name != Prefill
  {
    var cuts := Edges(observations, genStart, genEnd);
    var i := SegmentOfStage(cuts, parent, uid, s);
    StageWithinItsEdges(cuts, parent, uid, s, i);
  }

  ghost predicate NoEngineSpans(observations: seq<Observation>) {
    forall i :: 0 <= i < |observations| ==>
      && !Named(observations[i], WaitingToFirstSchedule) && !Named(observations[i], Queue)
      && !Named(observations[i], Prefill) && !Named(observations[i], Decode)
  }

  /** A generation with no engine spans is drawn as one finalize segment, all of it. */
  lemma UnknownStagesAreFinalize(observations: seq<Observation>, genStart: int, genEnd: int, parent: nat, uid: nat)
    requires genStart < genEnd && NoEngineSpans(observations)
    ensures var segments := StageSegments(Edges(observations, genStart, genEnd), parent, uid);
            |segments| == 1 && segments[0].name == EngineFinalize
            && segments[0].start == genStart && segments[0].end == genEnd
  {
    var cuts := Edges(observations, genStart, genEnd);
    var segments := StageSegments(cuts, parent, uid);
    OrderedStagesAreExact(cuts, parent, uid, 4);
    StagesPartitionGeneration(cuts, parent, uid);
    TilesHoldOnce(segments, genStart, genEnd, genStart);
    forall i | 0 <= i < |segments|
      ensures segments[i].Holds(genStart) && segments[i].name == EngineFinalize && segments[i].end == genEnd
    {
      var k := SegmentOfStage(cuts, parent, uid, segments[i]);
      StageWithinItsEdges(cuts, parent, uid, segments[i], k);
      OrderedCursor(cuts, k);
      OrderedCursor(cuts, k + 1);
    }
  }

  ghost predicate DrawnAs(segments: seq<Node>, t: int, name: Name) {
    exists s :: s in segments && s.Holds(t) && s.name == name
  }

  /**
   An instant of the recorded prefill, in the generation and once waiting has begun, is drawn as
   prefill iff a decode span was recorded and starts later.
  */
  lemma PrefillDrawnIff(observations: seq<Observation>, genStart: int, genEnd: int, parent: nat, uid: nat, t: int)
    requires genStart <= t < genEnd && Edges(observations, genStart, genEnd)[1] <= t
    requires var prefill := LastSpan(observations, Prefill);
             prefill.Some? && prefill.value.start <= t < prefill.value.end
    ensures var decode := LastSpan(observations, Decode);
            DrawnAs(StageSegments(Edges(observations, genStart, genEnd), parent, uid), t, Prefill)
            <==> decode.Some? && t < decode.value.start
  {
    var cuts := Edges(observations, genStart, genEnd);
    StageOwnsInstant(cuts, parent, uid, t);
    assert STAGES[OwningStage(cuts, t)] == Prefill <==> cuts[2] <= t < cuts[3];
  }
}
