/** The stable sort that orders nodes by start, longest first among equal starts. */
module StableSort {
  import opened TraceEvents

  predicate KeyLeq(a: Node, b: Node) {
    a.start < b.start || (a.start == b.start && b.Length() <= a.Length())
  }

  ghost predicate Sorted(s: seq<Node>) {
    forall i, j :: 0 <= i < j < |s| ==> KeyLeq(s[i], s[j])
  }

  ghost predicate Precedes(s: seq<Node>, a: Node, b: Node) {
    exists p, q :: 0 <= p < q < |s| && s[p] == a && s[q] == b
  }

  function Slot(x: Node, s: seq<Node>): (p: nat)
    ensures p <= |s|
    ensures forall q :: 0 <= q < p ==> !KeyLeq(x, s[q])
    ensures p < |s| ==> KeyLeq(x, s[p])
  {
    if s == [] || KeyLeq(x, s[0]) then 0 else 1 + Slot(x, s[1..])
  }

  function Insert(x: Node, s: seq<Node>): seq<Node> {
    var p := Slot(x, s);
    s[..p] + [x] + s[p..]
  }

  function Sort(s: seq<Node>): seq<Node> {
    if s == [] then [] else Insert(s[0], Sort(s[1..]))
  }

  lemma InsertKeepsMembers(x: Node, s: seq<Node>)
    ensures multiset(Insert(x, s)) == multiset(s) + multiset{x}
  {
    var p := Slot(x, s);
    assert s == s[..p] + s[p..];
  }

  lemma InsertKeepsOrder(x: Node, s: seq<Node>)
    requires Sorted(s)
    ensures Sorted(Insert(x, s))
  {
  }

  lemma {:induction false} SortIsOrderedPermutation(s: seq<Node>)
    ensures Sorted(Sort(s)) && multiset(Sort(s)) == multiset(s)
  {
    if s == [] {
    } else {
      SortIsOrderedPermutation(s[1..]);
      InsertKeepsOrder(s[0], Sort(s[1..]));
      InsertKeepsMembers(s[0], Sort(s[1..]));
      assert s == [s[0]] + s[1..];
    }
  }

  /** The result is a permutation in which starts do not decrease and, among equal starts, the longest comes first. */
  lemma {:induction false} SortByStart(s: seq<Node>, i: nat, j: nat)
    requires i < j < |Sort(s)|
    ensures multiset(Sort(s)) == multiset(s)
    ensures Sort(s)[i].start <= Sort(s)[j].start
    ensures Sort(s)[i].start == Sort(s)[j].start ==> Sort(s)[j].end <= Sort(s)[i].end
  {
    SortIsOrderedPermutation(s);
  }

  lemma SortMembers(s: seq<Node>, x: Node)
    ensures x in Sort(s) <==> x in s
  {
  }

  lemma InsertPrecedes(x: Node, s: seq<Node>, a: Node, b: Node)
    requires Precedes(s, a, b)
    ensures Precedes(Insert(x, s), a, b)
  {
    var p, q :| 0 <= p < q < |s| && s[p] == a && s[q] == b;
    var k := Slot(x, s);
    var out := Insert(x, s);
    var p' := if p < k then p else p + 1;
    var q' := if q < k then q else q + 1;
    assert out[p'] == a && out[q'] == b;
  }

  lemma InsertedBefore(x: Node, s: seq<Node>, b: Node)
    requires Sorted(s) && b in s && KeyLeq(x, b)
    ensures Precedes(Insert(x, s), x, b)
  {
    var k, out := Slot(x, s), Insert(x, s);
    var q :| 0 <= q < |s| && s[q] == b;
    assert q >= k;
    assert out[k] == x && out[q + 1] == b;
  }

  lemma SlotIsFirst(x: Node, s: seq<Node>, p: nat)
    requires Sorted(s) && Slot(x, s) <= p < |s|
    ensures KeyLeq(x, s[p])
  {
    var k := Slot(x, s);
    assert k == p || KeyLeq(s[k], s[p]);
  }

  lemma InsertedAfter(x: Node, s: seq<Node>, a: Node)
    requires Sorted(s) && a in s && !KeyLeq(x, a)
    ensures Precedes(Insert(x, s), a, x)
  {
    var k, out := Slot(x, s), Insert(x, s);
    var p :| 0 <= p < |s| && s[p] == a;
    if k <= p {
      SlotIsFirst(x, s, p);
    } else {
      assert out[p] == a && out[k] == x;
    }
  }

  /** An element goes before another when its key is smaller, or equal and it stood earlier in the input. */
  lemma {:induction false} SortPlaces(s: seq<Node>, i: nat, j: nat)
    requires i < |s| && j < |s| && i != j
    requires KeyLeq(s[i], s[j])
    requires i < j || !KeyLeq(s[j], s[i])
    ensures Precedes(Sort(s), s[i], s[j])
  {
    var rest := s[1..];
    SortIsOrderedPermutation(rest);
    if i == 0 {
      assert s[j] == rest[j - 1];
      SortMembers(rest, s[j]);
      InsertedBefore(s[0], Sort(rest), s[j]);
    } else if j == 0 {
      assert s[i] == rest[i - 1];
      SortMembers(rest, s[i]);
      InsertedAfter(s[0], Sort(rest), s[i]);
    } else {
      SortPlaces(rest, i - 1, j - 1);
      InsertPrecedes(s[0], Sort(rest), s[i], s[j]);
    }
  }
}
