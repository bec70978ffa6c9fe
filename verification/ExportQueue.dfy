/**
 The bounded background exporter as interleaved steps of many producers, one worker and any number
 of closers. A producer reads the stop flag and puts its event in two separate steps.
 */
module ExportQueue {
  import opened Common
  import opened TraceEvents

  // Where the worker stands: reading the stop flag, testing for emptiness, fetching, exporting, or gone.
  datatype Worker = AtStopFlag | AtEmptyTest | AtGet | Exporting(event: Event) | Exited

  // pending holds the events of producers between their two steps; accepted and delivered record
  // what was put and what the sink was handed, in order. acceptedBeforeStop and late record how many
  // events had been put, and which were pending, when the flag was first set.
  datatype State = State(
    capacity: nat,
    queue: seq<Event>,
    pending: multiset<Event>,
    stopping: bool,
    worker: Worker,
    offered: nat,
    exported: nat,
    failed: nat,
    dropped: nat,
    accepted: seq<Event>,
    delivered: seq<Event>,
    acceptedBeforeStop: nat,
    late: multiset<Event>)

  function Initial(capacity: nat): State {
    State(capacity, [], multiset{}, false, AtStopFlag, 0, 0, 0, 0, [], [], 0, multiset{})
  }

  datatype Action =
    | Offer(event: Event)
    | Put(event: Event)
    | ReadStopFlag
    | TestEmpty
    | Get
    | SinkDone(raised: bool)
    | Stop

  predicate Enabled(s: State, a: Action) {
    match a
    case Offer(_) => true
    case Put(event) => event in s.pending
    case ReadStopFlag => s.worker.AtStopFlag?
    case TestEmpty => s.worker.AtEmptyTest?
    case Get => s.worker.AtGet?
    case SinkDone(_) => s.worker.Exporting?
    case Stop => true
  }

  function Next(s: State, a: Action): State
    requires Enabled(s, a)
  {
    match a
    case Offer(event) =>
      var t := s.(offered := s.offered + 1);
      if s.stopping then t.(dropped := s.dropped + 1) else t.(pending := s.pending + multiset{event})
    case Put(event) =>
      var t := s.(pending := s.pending - multiset{event});
      if |s.queue| >= s.capacity then t.(dropped := s.dropped + 1)
      else t.(queue := s.queue + [event], accepted := s.accepted + [event])
    case ReadStopFlag => s.(worker := if s.stopping then AtEmptyTest else AtGet)
    case TestEmpty => s.(worker := if s.queue == [] then Exited else AtGet)
    case Get =>
      if s.queue == [] then s.(worker := AtStopFlag)
      else s.(queue := s.queue[1..], worker := Exporting(s.queue[0]), delivered := s.delivered + [s.queue[0]])
    case SinkDone(raised) =>
      var t := s.(worker := AtStopFlag);
      if raised then t.(failed := s.failed + 1) else t.(exported := s.exported + 1)
    case Stop =>
      if s.stopping then s
      else s.(stopping := true, acceptedBeforeStop := |s.accepted|, late := s.pending)
  }

  // The state after a run, in which a step that is not enabled does nothing.
  function After(s: State, run: seq<Action>): State {
    if run == [] then s
    else
      var t := After(s, run[..|run| - 1]);
      if Enabled(t, run[|run| - 1]) then Next(t, run[|run| - 1]) else t
  }

  ghost predicate Legal(s: State, run: seq<Action>) {
    run == [] || (Legal(s, run[..|run| - 1]) && Enabled(After(s, run[..|run| - 1]), run[|run| - 1]))
  }

  /** The filter object; each method is one atomic step, except Process and FetchOne, which are several together. */
  class ExportFilter {
    const capacity: nat
    var queue: seq<Event>
    var dropped: nat
    var failed: nat
    var stopping: bool
    var worker: Worker
    ghost var history: State

    ghost predicate Valid()
      reads this
    {
      && history.capacity == capacity && history.queue == queue && history.dropped == dropped
      && history.failed == failed && history.stopping == stopping && history.worker == worker
    }

    constructor (capacity: nat)
      requires capacity >= 1
      ensures Valid() && history == Initial(capacity)
    {
      this.capacity, queue, dropped, failed, stopping, worker := capacity, [], 0, 0, false, AtStopFlag;
      history := Initial(capacity);
    }

    // The first half of an offer; go tells the producer to put the event next.
    method CheckStop(event: Event) returns (go: bool)
      requires Valid()
      modifies this
      ensures Valid() && history == Next(old(history), Offer(event)) && go == !old(stopping)
    {
      go := !stopping;
      if stopping {
        dropped := dropped + 1;
      }
      history := Next(history, Offer(event));
    }

    method PutNowait(event: Event)
      requires Valid() && event in history.pending
      modifies this
      ensures Valid() && history == Next(old(history), Put(event))
    {
      if |queue| < capacity {
        queue := queue + [event];
      } else {
        dropped := dropped + 1;
      }
      history := Next(history, Put(event));
    }

    // An offer that no other step interrupts.
    method Process(event: Event)
      requires Valid()
      modifies this
      ensures Valid()
      ensures queue == if old(stopping) || |old(queue)| >= capacity then old(queue) else old(queue) + [event]
      ensures dropped == old(dropped) + if old(stopping) || |old(queue)| >= capacity then 1 else 0
    {
      var go := CheckStop(event);
      if go {
        PutNowait(event);
      }
    }

    // The worker's loop, one shared read at a time: the stop flag, then emptiness when it is set, then the fetch.
    method ReadStop()
      requires Valid() && worker.AtStopFlag?
      modifies this
      ensures Valid() && history == Next(old(history), ReadStopFlag)
    {
      worker := if stopping then AtEmptyTest else AtGet;
      history := Next(history, ReadStopFlag);
    }

    method TestQueue()
      requires Valid() && worker.AtEmptyTest?
      modifies this
      ensures Valid() && history == Next(old(history), TestEmpty)
    {
      worker := if queue == [] then Exited else AtGet;
      history := Next(history, TestEmpty);
    }

    method GetNext() returns (event: Option<Event>)
      requires Valid() && worker.AtGet?
      modifies this
      ensures Valid() && history == Next(old(history), Get)
      ensures event == if old(queue) == [] then None else Some(old(queue)[0])
    {
      if queue == [] {
        event, worker := None, AtStopFlag;
      } else {
        event, worker, queue := Some(queue[0]), Exporting(queue[0]), queue[1..];
      }
      history := Next(history, Get);
    }

    // A pass of the loop that no other step interrupts: up to its fetch, or out of the loop.
    method FetchOne() returns (event: Option<Event>)
      requires Valid() && worker.AtStopFlag?
      modifies this
      ensures Valid()
      ensures event == if old(queue) == [] then None else Some(old(queue)[0])
      ensures queue == if old(queue) == [] then [] else old(queue)[1..]
      ensures worker == if old(queue) != [] then Exporting(old(queue)[0]) else if stopping then Exited else AtStopFlag
      ensures stopping == old(stopping) && history.accepted == old(history).accepted
      ensures history.delivered == old(history).delivered + if event.Some? then [event.value] else []
    {
      event := None;
      ReadStop();
      if worker.AtEmptyTest? {
        TestQueue();
      }
      if worker.AtGet? {
        event := GetNext();
      }
    }

    method SinkReturned(raised: bool)
      requires Valid() && worker.Exporting?
      modifies this
      ensures Valid() && history == Next(old(history), SinkDone(raised))
    {
      if raised {
        failed := failed + 1;
      }
      worker := AtStopFlag;
      history := Next(history, SinkDone(raised));
    }

    // What close does before it waits, and what it reports when the wait is over.
    method RequestStop()
      requires Valid()
      modifies this
      ensures Valid() && history == Next(old(history), Stop)
    {
      stopping := true;
      history := Next(history, Stop);
    }

    method IsDone() returns (done: bool)
      ensures done == worker.Exited?
    {
      done := worker.Exited?;
    }
  }

  // ---------- What every step keeps ----------

  function InHand(s: State): nat { if s.worker.Exporting? then 1 else 0 }

  ghost predicate Balanced(s: State) {
    && s.offered == s.exported + s.failed + s.dropped + |s.queue| + InHand(s) + |s.pending|
    && |s.delivered| == s.exported + s.failed + InHand(s)
  }

  ghost predicate InOrder(s: State) {
    && |s.queue| <= s.capacity
    && s.accepted == s.delivered + s.queue
    && (s.worker.Exporting? ==> s.delivered != [] && s.delivered[|s.delivered| - 1] == s.worker.event)
  }

  ghost predicate StopsLate(s: State) {
    && (!s.stopping ==> !s.worker.AtEmptyTest? && !s.worker.Exited?)
    && (s.stopping ==>
          s.acceptedBeforeStop <= |s.accepted|
          && multiset(s.accepted[s.acceptedBeforeStop..]) + s.pending <= s.late)
    && (s.worker.Exited? ==> s.acceptedBeforeStop <= |s.delivered|)
  }

  ghost predicate Good(s: State) { Balanced(s) && InOrder(s) && StopsLate(s) }

  lemma BalancedStep(s: State, a: Action)
    requires Enabled(s, a) && Balanced(s)
    ensures Balanced(Next(s, a))
  {
  }

  lemma InOrderStep(s: State, a: Action)
    requires Enabled(s, a) && InOrder(s)
    ensures InOrder(Next(s, a))
  {
    if a.Get? && s.queue != [] {
      assert s.queue == [s.queue[0]] + s.queue[1..];
    }
  }

  lemma StopsLateStep(s: State, a: Action)
    requires Enabled(s, a) && InOrder(s) && StopsLate(s)
    ensures StopsLate(Next(s, a))
  {
    if a.Put? && s.stopping && |s.queue| < s.capacity {
      var n := s.acceptedBeforeStop;
      assert (s.accepted + [a.event])[n..] == s.accepted[n..] + [a.event];
      assert s.pending == (s.pending - multiset{a.event}) + multiset{a.event};
    } else if a.Stop? && !s.stopping {
      assert s.accepted[|s.accepted|..] == [];
    }
  }

  lemma {:induction false} RunKeepsGood(s: State, run: seq<Action>)
    requires Legal(s, run) && Good(s)
    ensures Good(After(s, run)) && After(s, run).capacity == s.capacity
  {
    if run == [] {
    } else {
      var n := |run| - 1;
      RunKeepsGood(s, run[..n]);
      BalancedStep(After(s, run[..n]), run[n]);
      InOrderStep(After(s, run[..n]), run[n]);
      StopsLateStep(After(s, run[..n]), run[n]);
    }
  }

  // A run of a fresh exporter.
  ghost predicate LegalFromStart(capacity: nat, run: seq<Action>) {
    capacity >= 1 && Legal(Initial(capacity), run)
  }

  function Reached(capacity: nat, run: seq<Action>): State { After(Initial(capacity), run) }

  lemma {:induction false} ReachedIsGood(capacity: nat, run: seq<Action>)
    requires LegalFromStart(capacity, run)
    ensures Good(Reached(capacity, run)) && Reached(capacity, run).capacity == capacity
  {
    assert Initial(capacity).accepted[0..] == [];
    RunKeepsGood(Initial(capacity), run);
  }

  /** In every reachable state each offer is accounted for once, and the queue is bounded. */
  lemma {:induction false} OffersAreConserved(capacity: nat, run: seq<Action>)
    requires LegalFromStart(capacity, run)
    ensures var s := Reached(capacity, run);
            && s.offered == s.exported + s.failed + s.dropped + |s.queue| + InHand(s) + |s.pending|
            && |s.queue| <= capacity
  {
    ReachedIsGood(capacity, run);
  }

  /** The sink has been handed exactly a prefix of what was accepted, in order, once each, whatever it raised. */
  lemma {:induction false} SinkSeesPrefix(capacity: nat, run: seq<Action>)
    requires LegalFromStart(capacity, run)
    ensures var s := Reached(capacity, run);
            && s.delivered <= s.accepted && s.accepted[|s.delivered|..] == s.queue
            && s.exported + s.failed + InHand(s) == |s.delivered|
  {
    ReachedIsGood(capacity, run);
  }

  // ---------- What the counters count, read off the run alone ----------

  // The calls of the sink that ended this way.
  function SinkCalls(run: seq<Action>, raised: bool): nat {
    if run == [] then 0 else SinkCalls(run[..|run| - 1], raised) + if run[|run| - 1] == SinkDone(raised) then 1 else 0
  }

  function Offers(run: seq<Action>): nat {
    if run == [] then 0 else Offers(run[..|run| - 1]) + if run[|run| - 1].Offer? then 1 else 0
  }

  // How many events a queue of this capacity holds after these puts and fetches.
  function Held(capacity: nat, run: seq<Action>): nat {
    if run == [] then 0
    else
      var before, a := Held(capacity, run[..|run| - 1]), run[|run| - 1];
      if a.Put? && before < capacity then before + 1
      else if a.Get? && before > 0 then before - 1
      else before
  }

  // The events of the puts that found room, in order.
  function Admitted(capacity: nat, run: seq<Action>): seq<Event> {
    if run == [] then []
    else
      var before, a := run[..|run| - 1], run[|run| - 1];
      Admitted(capacity, before) + if a.Put? && Held(capacity, before) < capacity then [a.event] else []
  }

  // The offers made after the stop request, and the puts that found the queue full.
  function Refused(capacity: nat, run: seq<Action>): nat {
    if run == [] then 0
    else
      var before, a := run[..|run| - 1], run[|run| - 1];
      Refused(capacity, before)
      + if (a.Offer? && Stop in before) || (a.Put? && Held(capacity, before) == capacity) then 1 else 0
  }

  ghost predicate QueueRead(s: State, capacity: nat, run: seq<Action>) {
    && s.capacity == capacity && |s.queue| == Held(capacity, run) <= capacity
    && s.accepted == Admitted(capacity, run)
    && (s.stopping <==> Stop in run)
  }

  ghost predicate CountersRead(s: State, capacity: nat, run: seq<Action>) {
    && s.failed == SinkCalls(run, true) && s.exported == SinkCalls(run, false)
    && s.dropped == Refused(capacity, run) && s.offered == Offers(run)
  }

  lemma QueueReadStep(s: State, capacity: nat, run: seq<Action>, a: Action)
    requires Enabled(s, a) && QueueRead(s, capacity, run)
    ensures QueueRead(Next(s, a), capacity, run + [a])
  {
    assert (run + [a])[..|run|] == run;
    assert Stop in run + [a] <==> Stop in run || a == Stop;
  }

  lemma CountersReadStep(s: State, capacity: nat, run: seq<Action>, a: Action)
    requires Enabled(s, a) && QueueRead(s, capacity, run) && CountersRead(s, capacity, run)
    ensures CountersRead(Next(s, a), capacity, run + [a])
  {
    assert (run + [a])[..|run|] == run;
  }

  /**
   Over every run each counter is the number of steps of its kind, and what was accepted are the events of the puts
   that found room.
  */
  lemma {:induction false} CountersAreExact(capacity: nat, run: seq<Action>)
    requires LegalFromStart(capacity, run)
    ensures QueueRead(Reached(capacity, run), capacity, run) && CountersRead(Reached(capacity, run), capacity, run)
  {
    if run == [] {
    } else {
      var before, a := run[..|run| - 1], run[|run| - 1];
      CountersAreExact(capacity, before);
      QueueReadStep(Reached(capacity, before), capacity, before, a);
      CountersReadStep(Reached(capacity, before), capacity, before, a);
      assert run == before + [a];
    }
  }

  // ---------- Shutdown ----------

  /** The worker leaves only when the flag is set and it finds the queue empty. */
  lemma {:induction false} ExitNeedsStopAndEmpty(capacity: nat, run: seq<Action>, a: Action)
    requires LegalFromStart(capacity, run)
    ensures var s := Reached(capacity, run);
            Enabled(s, a) && !s.worker.Exited? && Next(s, a).worker.Exited? ==> s.stopping && s.queue == []
  {
    ReachedIsGood(capacity, run);
  }

  lemma SuffixIsSmaller(s: seq<Event>, i: nat, j: nat)
    requires i <= j <= |s|
    ensures multiset(s[j..]) <= multiset(s[i..])
  {
    assert s[i..] == s[i..j] + s[j..];
  }

  /** Once the worker is gone, whatever is or will be left in the queue was pending when the flag was set. */
  lemma {:induction false} StrandedWerePending(capacity: nat, run: seq<Action>)
    requires LegalFromStart(capacity, run)
    ensures var s := Reached(capacity, run);
            s.worker.Exited? ==> multiset(s.queue) + s.pending <= s.late && |s.queue| + |s.pending| <= |s.late|
  {
    ReachedIsGood(capacity, run);
    var s := Reached(capacity, run);
    if s.worker.Exited? {
      SuffixIsSmaller(s.accepted, s.acceptedBeforeStop, |s.delivered|);
      assert s.accepted[|s.delivered|..] == s.queue;
      CardinalityMonotone(multiset(s.queue) + s.pending, s.late);
    }
  }

  lemma CardinalityMonotone(a: multiset<Event>, b: multiset<Event>)
    requires a <= b
    ensures |a| <= |b|
  {
    assert b == a + (b - a);
  }

  lemma {:induction false} QuietStaysQuiet(s: State, run: seq<Action>)
    requires Legal(s, run) && s.worker.Exited? && s.stopping && s.pending == multiset{} && s.queue == []
    ensures After(s, run).queue == [] && After(s, run).worker.Exited? && After(s, run).stopping
    ensures After(s, run).pending == multiset{}
  {
    if run != [] {
      QuietStaysQuiet(s, run[..|run| - 1]);
    }
  }

  ghost predicate CanStrand(s: State) {
    exists run :: Legal(s, run) && After(s, run).queue != []
  }

  /**
   A finished worker with an empty queue can still leave an event behind iff a producer is between its check
   and its put.
  */
  lemma {:induction false} StrandsIffPending(capacity: nat, run: seq<Action>)
    requires LegalFromStart(capacity, run)
    ensures var s := Reached(capacity, run);
            s.worker.Exited? && s.queue == [] ==> (CanStrand(s) <==> s.pending != multiset{})
  {
    ReachedIsGood(capacity, run);
    var s := Reached(capacity, run);
    if s.worker.Exited? && s.queue == [] {
      StrandsIffPendingAt(s);
    }
  }

  lemma StrandsIffPendingAt(s: State)
    requires Good(s) && s.capacity >= 1 && s.worker.Exited? && s.queue == []
    ensures CanStrand(s) <==> s.pending != multiset{}
  {
    if s.pending != multiset{} {
      var event :| event in s.pending;
      RunOfOneMore(s, [], Put(event));
      assert After(s, [] + [Put(event)]).queue == [event];
    } else {
      forall run | Legal(s, run) ensures After(s, run).queue == [] {
        QuietStaysQuiet(s, run);
      }
    }
  }

  lemma RunOfOneMore(s: State, run: seq<Action>, a: Action)
    requires Legal(s, run) && Enabled(After(s, run), a)
    ensures Legal(s, run + [a]) && After(s, run + [a]) == Next(After(s, run), a)
  {
    assert (run + [a])[..|run|] == run;
  }

  function LosingRun(event: Event): seq<Action> {
    [Offer(event), Stop, ReadStopFlag, TestEmpty, Put(event)]
  }

  lemma LosingPrefix(event: Event)
    ensures var run := [Offer(event), Stop, ReadStopFlag, TestEmpty];
            var s := After(Initial(1), run);
            Legal(Initial(1), run) && s.worker.Exited? && s.queue == [] && s.accepted == [] && s.dropped == 0
            && s.capacity == 1 && s.pending == multiset{event}
  {
    var s0 := Initial(1);
    var r1, r2, r3 := [Offer(event)], [Offer(event), Stop], [Offer(event), Stop, ReadStopFlag];
    RunOfOneMore(s0, [], Offer(event));
    assert [] + [Offer(event)] == r1;
    RunOfOneMore(s0, r1, Stop);
    assert r1 + [Stop] == r2;
    RunOfOneMore(s0, r2, ReadStopFlag);
    assert r2 + [ReadStopFlag] == r3;
    RunOfOneMore(s0, r3, TestEmpty);
    assert r3 + [TestEmpty] == [Offer(event), Stop, ReadStopFlag, TestEmpty];
  }

  /** The gap is real: an accepted event can outlive a worker that has already reported itself done. */
  lemma {:induction false} AcceptedEventCanBeLost(event: Event)
    ensures LegalFromStart(1, LosingRun(event))
    ensures var s := Reached(1, LosingRun(event));
            s.worker.Exited? && s.queue == [event] && s.accepted == [event] && s.dropped == 0
  {
    LosingPrefix(event);
    var run := [Offer(event), Stop, ReadStopFlag, TestEmpty];
    RunOfOneMore(Initial(1), run, Put(event));
    assert run + [Put(event)] == LosingRun(event);
  }

  // ---------- Draining ----------

  predicate ByWorker(a: Action) { a.ReadStopFlag? || a.TestEmpty? || a.Get? || a.SinkDone? }

  // The steps the worker still needs once nothing more can be put.
  function Remaining(s: State): nat {
    var n := 4 * |s.queue|;
    match s.worker
    case Exited => 0
    case AtStopFlag => n + 2
    case AtEmptyTest => n + 1
    case AtGet => if s.queue == [] then 3 else n
    case Exporting(_) => n + 3
  }

  ghost predicate Draining(s: State) { s.stopping && s.pending == multiset{} }

  function WorkerSteps(run: seq<Action>): nat {
    if run == [] then 0 else WorkerSteps(run[..|run| - 1]) + if ByWorker(run[|run| - 1]) then 1 else 0
  }

  /**
   With the flag set and no put outstanding, each worker step uses up one of a bounded number, and no other
   step adds any.
  */
  lemma DrainStep(s: State, a: Action)
    requires Draining(s) && Enabled(s, a)
    ensures Draining(Next(s, a))
    ensures if ByWorker(a) then Remaining(Next(s, a)) < Remaining(s) else Remaining(Next(s, a)) == Remaining(s)
  {
  }

  lemma {:induction false} DrainBound(s: State, run: seq<Action>)
    requires Draining(s) && Legal(s, run)
    ensures Draining(After(s, run)) && WorkerSteps(run) + Remaining(After(s, run)) <= Remaining(s)
  {
    if run == [] {
    } else {
      var n := |run| - 1;
      DrainBound(s, run[..n]);
      DrainStep(After(s, run[..n]), run[n]);
    }
  }

  // The worker is over, or has a step to take.
  ghost predicate OverOrAble(s: State) {
    s.worker.Exited? || exists a :: ByWorker(a) && Enabled(s, a)
  }

  lemma WorkerIsAble(s: State)
    ensures OverOrAble(s)
  {
    match s.worker
    case Exited =>
    case AtStopFlag => assert Enabled(s, ReadStopFlag) && ByWorker(ReadStopFlag);
    case AtEmptyTest => assert Enabled(s, TestEmpty) && ByWorker(TestEmpty);
    case AtGet => assert Enabled(s, Get) && ByWorker(Get);
    case Exporting(_) => assert Enabled(s, SinkDone(false)) && ByWorker(SinkDone(false));
  }

  /**
   From any reachable draining state: a worker that is not gone can always step, it takes at most
   Remaining steps in any run, and when it has gone every accepted event was handed to the sink.
   */
  lemma {:induction false} DrainCompletes(capacity: nat, run: seq<Action>, more: seq<Action>)
    requires LegalFromStart(capacity, run) && Legal(Reached(capacity, run), more)
    ensures var s := Reached(capacity, run);
            var t := After(s, more);
            Draining(s) && !s.worker.Exited? ==>
              && WorkerSteps(more) <= Remaining(s)
              && OverOrAble(t)
              && (t.worker.Exited? ==> t.queue == [] && t.delivered == t.accepted)
  {
    var s := Reached(capacity, run);
    ReachedIsGood(capacity, run);
    RunKeepsGood(s, more);
    WorkerIsAble(After(s, more));
    if Draining(s) && !s.worker.Exited? {
      DrainBound(s, more);
      ExitedIsEmpty(s, more);
    }
  }

  lemma ExitStep(s: State, a: Action)
    requires Draining(s) && Enabled(s, a) && (s.worker.Exited? ==> s.queue == [])
    ensures Next(s, a).worker.Exited? ==> Next(s, a).queue == []
  {
  }

  lemma {:induction false} ExitedIsEmpty(s: State, run: seq<Action>)
    requires Draining(s) && !s.worker.Exited? && Legal(s, run)
    ensures After(s, run).worker.Exited? ==> After(s, run).queue == []
  {
    if run == [] {
    } else {
      var n := |run| - 1;
      ExitedIsEmpty(s, run[..n]);
      DrainBound(s, run[..n]);
      ExitStep(After(s, run[..n]), run[n]);
    }
  }
}
