/** The metric pusher: its life cycle, and the timestamps it puts on successive samples. */
module RemoteWriter {
  import opened Common

  const NANOS_PER_MILLI: int := 1000000

  // The push loop: not created, at its loop test, awaiting the health check, pushing, waiting, pushing its
  // last sample, over.
  datatype Phase = NotStarted | AtLoopTest | Checking | Pushing | Waiting | Finishing | Done

  // One attempted push, with the wall-clock reading it was made at.
  datatype Sample = Sample(alive: nat, healthy: nat, timestamp: int, millis: int, sent: bool)

  datatype State = State(
    lastTimestamp: int,
    alive: nat,
    healthy: nat,
    failures: nat,
    stop: bool,
    phase: Phase,
    pushes: seq<Sample>)

  const INITIAL: State := State(0, 0, 0, 0, false, NotStarted, [])

  datatype Action =
    | Start
    | RequestStop
    | LoopTest
    | HealthChecked(healthy: bool)
    | Push(wallNs: int, sent: bool)
    | WaitOver

  predicate Enabled(s: State, a: Action) {
    match a
    case Start => true
    case RequestStop => true
    case LoopTest => s.phase.AtLoopTest?
    case HealthChecked(_) => s.phase.Checking?
    case Push(_, _) => s.phase.Pushing? || s.phase.Finishing?
    case WaitOver => s.phase.Waiting?
  }

  function Next(s: State, a: Action): State
    requires Enabled(s, a)
  {
    match a
    case Start => if s.phase.NotStarted? then s.(alive := 1, phase := AtLoopTest) else s
    case RequestStop => s.(stop := true)
    case LoopTest => if s.stop then s.(alive := 0, healthy := 0, phase := Finishing) else s.(phase := Checking)
    case HealthChecked(healthy) => s.(healthy := if healthy then 1 else 0, phase := Pushing)
    case Push(wallNs, sent) =>
      var millis := wallNs / NANOS_PER_MILLI;
      var timestamp := Max(s.lastTimestamp + 1, millis);
      s.(lastTimestamp := timestamp,
         failures := s.failures + if sent then 0 else 1,
         phase := if s.phase.Pushing? then Waiting else Done,
         pushes := s.pushes + [Sample(s.alive, s.healthy, timestamp, millis, sent)])
    case WaitOver => s.(phase := AtLoopTest)
  }

  function After(s: State, run: seq<Action>): State {
    if run == [] then s
    else
      var t := After(s, run[..|run| - 1]);
      if Enabled(t, run[|run| - 1]) then Next(t, run[|run| - 1]) else t
  }

  ghost predicate Legal(s: State, run: seq<Action>) {
    run == [] || (Legal(s, run[..|run| - 1]) && Enabled(After(s, run[..|run| - 1]), run[|run| - 1]))
  }

  /** The writer object. Its push loop is the sequence of calls that the phases allow. */
  class Writer {
    var lastTimestamp: int
    var alive: nat
    var healthy: nat
    var failures: nat
    var stop: bool
    var phase: Phase
    ghost var pushes: seq<Sample>

    ghost function View(): State
      reads this
    {
      State(lastTimestamp, alive, healthy, failures, stop, phase, pushes)
    }

    constructor ()
      ensures View() == INITIAL
    {
      lastTimestamp, alive, healthy, failures, stop, phase, pushes := 0, 0, 0, 0, false, NotStarted, [];
    }

    method StartLoop()
      modifies this
      ensures View() == Next(old(View()), Start)
    {
      if phase.NotStarted? {
        alive := 1;
        phase := AtLoopTest;
      }
    }

    // Closing sets the flag; it must wait for the push loop exactly when there is one.
    method Close() returns (mustWait: bool)
      modifies this
      ensures View() == Next(old(View()), RequestStop) && mustWait == !phase.NotStarted?
    {
      stop := true;
      mustWait := !phase.NotStarted?;
    }

    method TestLoop()
      requires phase.AtLoopTest?
      modifies this
      ensures View() == Next(old(View()), LoopTest)
    {
      if !stop {
        phase := Checking;
      } else {
        alive := 0;
        healthy := 0;
        phase := Finishing;
      }
    }

    method FinishHealthCheck(result: bool)
      requires phase.Checking?
      modifies this
      ensures View() == Next(old(View()), HealthChecked(result))
    {
      healthy := if result then 1 else 0;
      phase := Pushing;
    }

    // The timestamp moves before the post, so a failed post has used it up.
    method PushSnapshot(wallNs: int, sent: bool)
      requires phase.Pushing? || phase.Finishing?
      modifies this
      ensures View() == Next(old(View()), Push(wallNs, sent))
    {
      lastTimestamp := Max(lastTimestamp + 1, wallNs / NANOS_PER_MILLI);
      pushes := pushes + [Sample(alive, healthy, lastTimestamp, wallNs / NANOS_PER_MILLI, sent)];
      if !sent {
        failures := failures + 1;
      }
      phase := if phase.Pushing? then Waiting else Done;
    }

    method EndWait()
      requires phase.Waiting?
      modifies this
      ensures View() == Next(old(View()), WaitOver)
    {
      phase := AtLoopTest;
    }
  }

  // ---------- Life cycle ----------

  function Failed(pushes: seq<Sample>): nat {
    if pushes == [] then 0
    else Failed(pushes[..|pushes| - 1]) + if pushes[|pushes| - 1].sent then 0 else 1
  }

  // Samples say alive until the last, which says neither alive nor healthy.
  ghost predicate WellEnded(s: State) {
    var n := |s.pushes|;
    && (s.phase.NotStarted? ==> n == 0)
    && (s.phase.Finishing? ==> s.stop && s.alive == 0 && s.healthy == 0)
    && (!s.phase.NotStarted? && !s.phase.Finishing? && !s.phase.Done? ==> s.alive == 1)
    && (s.phase.Done? ==> n > 0 && s.stop && s.pushes[n - 1].alive == 0 && s.pushes[n - 1].healthy == 0)
    && (forall i :: 0 <= i < n ==> i < n - (if s.phase.Done? then 1 else 0) ==> s.pushes[i].alive == 1)
    && s.failures == Failed(s.pushes)
  }

  lemma WellEndedStep(s: State, a: Action)
    requires Enabled(s, a) && WellEnded(s)
    ensures WellEnded(Next(s, a))
  {
  }

  // ---------- Timestamps ----------

  // The n-th timestamp, counting from zero, is at least n + 1 and at least each earlier reading plus the pushes since.
  ghost predicate Floor(pushes: seq<Sample>, n: nat)
    requires n < |pushes|
  {
    && n + 1 <= pushes[n].timestamp
    && (forall i :: 0 <= i <= n ==> pushes[i].millis + (n - i) <= pushes[n].timestamp)
  }

  // And it is one of those.
  ghost predicate Reached(pushes: seq<Sample>, n: nat)
    requires n < |pushes|
  {
    pushes[n].timestamp == n + 1 || exists i :: 0 <= i <= n && pushes[n].timestamp == pushes[i].millis + (n - i)
  }

  ghost predicate Clocked(s: State) {
    && s.lastTimestamp == (if s.pushes == [] then 0 else s.pushes[|s.pushes| - 1].timestamp)
    && (forall n :: 0 <= n < |s.pushes| ==> Floor(s.pushes, n) && Reached(s.pushes, n))
    && (forall i, j :: 0 <= i < j < |s.pushes| ==> s.pushes[i].timestamp < s.pushes[j].timestamp)
  }

  lemma ClockedStep(s: State, a: Action)
    requires Enabled(s, a) && Clocked(s)
    ensures Clocked(Next(s, a))
  {
    if a.Push? {
      var t := Next(s, a);
      var n := |s.pushes|;
      forall k | 0 <= k < n ensures Floor(t.pushes, k) && Reached(t.pushes, k) {
        assert Floor(s.pushes, k) && Reached(s.pushes, k);
        if i :| 0 <= i <= k && s.pushes[k].timestamp == s.pushes[i].millis + (k - i) {
          assert t.pushes[k].timestamp == t.pushes[i].millis + (k - i);
        }
      }
      NewestPush(s, t);
    }
  }

  lemma NewestPush(s: State, t: State)
    requires Clocked(s) && |t.pushes| == |s.pushes| + 1 && t.pushes[..|s.pushes|] == s.pushes
    requires var p := t.pushes[|s.pushes|]; p.timestamp == Max(s.lastTimestamp + 1, p.millis)
    ensures Floor(t.pushes, |s.pushes|) && Reached(t.pushes, |s.pushes|)
  {
    var n := |s.pushes|;
    assert forall i :: 0 <= i < n ==> t.pushes[i] == s.pushes[i];
    var p := t.pushes[n];
    if n > 0 {
      assert Floor(s.pushes, n - 1) && Reached(s.pushes, n - 1);
      if p.timestamp != p.millis + (n - n) && p.timestamp != n + 1 {
        var i :| 0 <= i <= n - 1 && s.pushes[n - 1].timestamp == s.pushes[i].millis + (n - 1 - i);
        assert p.timestamp == t.pushes[i].millis + (n - i);
      }
    }
    assert p.timestamp == p.millis ==> p.timestamp == t.pushes[n].millis + (n - n);
  }

  lemma {:induction false} RunKeeps(run: seq<Action>)
    requires Legal(INITIAL, run)
    ensures WellEnded(After(INITIAL, run)) && Clocked(After(INITIAL, run))
  {
    if run == [] {
    } else {
      var n := |run| - 1;
      RunKeeps(run[..n]);
      WellEndedStep(After(INITIAL, run[..n]), run[n]);
      ClockedStep(After(INITIAL, run[..n]), run[n]);
    }
  }

  /**
   Over every run, whatever the wall clock reads and whichever pushes fail, the n-th timestamp is the
   larger of n and the best of the readings so far plus the pushes since.
  */
  lemma {:induction false} TimestampClosedForm(run: seq<Action>, j: nat)
    requires Legal(INITIAL, run) && j < |After(INITIAL, run).pushes|
    ensures Floor(After(INITIAL, run).pushes, j) && Reached(After(INITIAL, run).pushes, j)
  {
    RunKeeps(run);
  }

  /** Timestamps of successive pushes strictly increase, though the wall clock may go back and pushes may fail. */
  lemma {:induction false} TimestampsStrictlyIncrease(run: seq<Action>, i: nat, j: nat)
    requires Legal(INITIAL, run) && i < j < |After(INITIAL, run).pushes|
    ensures After(INITIAL, run).pushes[i].timestamp < After(INITIAL, run).pushes[j].timestamp
  {
    RunKeeps(run);
  }

  // ---------- What a push carries, read off the run alone ----------

  function PushCount(run: seq<Action>): nat {
    if run == [] then 0 else PushCount(run[..|run| - 1]) + if run[|run| - 1].Push? then 1 else 0
  }

  // The result of the last health check.
  function LastCheck(run: seq<Action>): Option<bool> {
    if run == [] then None
    else if run[|run| - 1].HealthChecked? then Some(run[|run| - 1].healthy)
    else LastCheck(run[..|run| - 1])
  }

  // The health checks since the last push.
  function ChecksSincePush(run: seq<Action>): nat {
    if run == [] || run[|run| - 1].Push? then 0
    else ChecksSincePush(run[..|run| - 1]) + if run[|run| - 1].HealthChecked? then 1 else 0
  }

  // The loop's phase tells how many checks there were, and what the gauges show.
  ghost predicate Shows(s: State, run: seq<Action>) {
    && |s.pushes| == PushCount(run)
    && (s.phase.NotStarted? || s.phase.AtLoopTest? || s.phase.Checking? ==> ChecksSincePush(run) == 0)
    && (s.phase.Waiting? || s.phase.Finishing? || s.phase.Done? ==> ChecksSincePush(run) == 0)
    && (s.phase.Pushing? ==> ChecksSincePush(run) == 1 && s.healthy == if LastCheck(run) == Some(true) then 1 else 0)
  }

  lemma {:induction false} RunShows(run: seq<Action>)
    requires Legal(INITIAL, run)
    ensures Shows(After(INITIAL, run), run)
  {
    if run == [] {
    } else {
      RunShows(run[..|run| - 1]);
    }
  }

  lemma {:induction false} LegalPrefix(s: State, run: seq<Action>, i: nat)
    requires Legal(s, run) && i <= |run|
    ensures Legal(s, run[..i])
  {
    if i == |run| {
      assert run[..i] == run;
    } else {
      LegalPrefix(s, run[..|run| - 1], i);
      assert run[..|run| - 1][..i] == run[..i];
    }
  }

  lemma {:induction false} PushesStay(s: State, run: seq<Action>, i: nat)
    requires i <= |run|
    ensures After(s, run[..i]).pushes <= After(s, run).pushes
  {
    if i == |run| {
      assert run[..i] == run;
    } else {
      var n := |run| - 1;
      PushesStay(s, run[..n], i);
      assert run[..n][..i] == run[..i];
    }
  }

  /**
   The sample that a push of any run leaves behind: in the loop it is alive, and healthy iff the one health check since
   the last push succeeded; the last one is neither. It holds the clock reading in milliseconds and what became of the post.
  */
  lemma {:induction false} PushCarriesLastCheck(run: seq<Action>, i: nat)
    requires Legal(INITIAL, run) && i < |run| && run[i].Push?
    ensures PushCount(run[..i]) < |After(INITIAL, run).pushes|
    ensures var before, sample := After(INITIAL, run[..i]), After(INITIAL, run).pushes[PushCount(run[..i])];
            && sample.millis == run[i].wallNs / 1000000 && sample.sent == run[i].sent
            && (before.phase.Pushing? ==>
                  ChecksSincePush(run[..i]) == 1 && sample.alive == 1
                  && sample.healthy == if LastCheck(run[..i]) == Some(true) then 1 else 0)
            && (!before.phase.Pushing? ==>
                  ChecksSincePush(run[..i]) == 0 && before.stop && sample.alive == 0 && sample.healthy == 0)
  {
    LegalPrefix(INITIAL, run, i);
    LegalPrefix(INITIAL, run, i + 1);
    assert run[..i + 1][..i] == run[..i];
    RunShows(run[..i]);
    RunKeeps(run[..i]);
    PushesStay(INITIAL, run, i + 1);
  }

  /** Every run attempts samples that are alive, until at most one last sample that is neither alive nor healthy. */
  lemma {:induction false} AliveThenGone(run: seq<Action>)
    requires Legal(INITIAL, run)
    ensures var s := After(INITIAL, run);
            var n := |s.pushes|;
            && s.failures == Failed(s.pushes)
            && (!s.phase.Done? ==> forall i :: 0 <= i < n ==> s.pushes[i].alive == 1)
            && (s.phase.Done? ==>
                  n > 0 && s.pushes[n - 1].alive == 0 && s.pushes[n - 1].healthy == 0
                  && forall i :: 0 <= i < n - 1 ==> s.pushes[i].alive == 1)
  {
    RunKeeps(run);
  }

  // ---------- Stopping ----------

  // A close returns at once when there is no push loop, and otherwise when the loop is over.
  predicate CloseReturns(s: State) { s.stop && (s.phase.NotStarted? || s.phase.Done?) }

  // The steps the push loop takes itself; a start and a stop request come from outside.
  predicate OwnStep(a: Action) { !a.Start? && !a.RequestStop? }

  function OwnSteps(run: seq<Action>): nat {
    if run == [] then 0 else OwnSteps(run[..|run| - 1]) + if OwnStep(run[|run| - 1]) then 1 else 0
  }

  // The loop's own steps, and its pushes, from a phase to the end once the stop flag is set.
  function StepsLeft(phase: Phase): nat
    requires !phase.NotStarted?
  {
    match phase
    case Checking => 5
    case Pushing => 4
    case Waiting => 3
    case AtLoopTest => 2
    case Finishing => 1
    case Done => 0
  }

  function PushesLeft(phase: Phase): nat
    requires !phase.NotStarted?
  {
    match phase
    case Checking => 2
    case Pushing => 2
    case Waiting => 1
    case AtLoopTest => 1
    case Finishing => 1
    case Done => 0
  }

  /**
   Once a stop is requested of a started writer, every run is accounted for exactly: the loop's own steps and
   pushes so far, and those still left, add up to what was left when the flag was set.
  */
  lemma {:induction false} StopIsBounded(s: State, run: seq<Action>)
    requires s.stop && !s.phase.NotStarted? && Legal(s, run)
    ensures var t := After(s, run);
            && t.stop && !t.phase.NotStarted?
            && OwnSteps(run) + StepsLeft(t.phase) == StepsLeft(s.phase)
            && |t.pushes| + PushesLeft(t.phase) == |s.pushes| + PushesLeft(s.phase)
  {
    if run != [] {
      StopIsBounded(s, run[..|run| - 1]);
    }
  }

  ghost predicate CanStep(s: State) {
    exists a :: OwnStep(a) && Enabled(s, a)
  }

  lemma {:induction false} WellEndedRun(s: State, run: seq<Action>)
    requires WellEnded(s) && Legal(s, run)
    ensures WellEnded(After(s, run))
  {
    if run != [] {
      WellEndedRun(s, run[..|run| - 1]);
      WellEndedStep(After(s, run[..|run| - 1]), run[|run| - 1]);
    }
  }

  /**
   So after a stop request the loop is over within five of its own steps and two pushes; until it is over it can
   always take the next one, and a close that waits for it returns.
  */
  lemma {:induction false} StopCompletes(before: seq<Action>, rest: seq<Action>)
    requires Legal(INITIAL, before) && !After(INITIAL, before).phase.NotStarted?
    requires Legal(Next(After(INITIAL, before), RequestStop), rest)
    ensures var s, t := After(INITIAL, before), After(Next(After(INITIAL, before), RequestStop), rest);
            && OwnSteps(rest) <= 5 && |t.pushes| <= |s.pushes| + 2
            && (CanStep(t) <==> !t.phase.Done?)
            && (CloseReturns(t) <==> t.phase.Done?)
            && (t.phase.Done? <==> OwnSteps(rest) == StepsLeft(s.phase))
            && (t.phase.Done? ==> t.pushes != [] && t.pushes[|t.pushes| - 1].alive == 0)
  {
    var s := Next(After(INITIAL, before), RequestStop);
    var t := After(s, rest);
    StopIsBounded(s, rest);
    RunKeeps(before);
    WellEndedStep(After(INITIAL, before), RequestStop);
    WellEndedRun(s, rest);
    match t.phase
    case Checking => assert OwnStep(HealthChecked(true)) && Enabled(t, HealthChecked(true));
    case Pushing => assert OwnStep(Push(0, true)) && Enabled(t, Push(0, true));
    case Waiting => assert OwnStep(WaitOver) && Enabled(t, WaitOver);
    case AtLoopTest => assert OwnStep(LoopTest) && Enabled(t, LoopTest);
    case Finishing => assert OwnStep(Push(0, true)) && Enabled(t, Push(0, true));
    case Done =>
  }

  // ---------- After close ----------

  ghost predicate CanPushMore(s: State) {
    exists run :: Legal(s, run) && |After(s, run).pushes| > |s.pushes|
  }

  lemma {:induction false} DoneIsFinal(s: State, run: seq<Action>)
    requires Legal(s, run) && s.phase.Done?
    ensures After(s, run).phase.Done? && After(s, run).pushes == s.pushes
  {
    if run != [] {
      DoneIsFinal(s, run[..|run| - 1]);
    }
  }

  lemma OneMore(s: State, run: seq<Action>, a: Action)
    requires Legal(s, run) && Enabled(After(s, run), a)
    ensures Legal(s, run + [a]) && After(s, run + [a]) == Next(After(s, run), a)
  {
    assert (run + [a])[..|run|] == run;
  }

  /** After a close has returned a push is still possible iff the writer had never been started. */
  lemma PushAfterCloseIff(s: State)
    requires CloseReturns(s)
    ensures CanPushMore(s) <==> s.phase.NotStarted?
  {
    if s.phase.NotStarted? {
      OneMore(s, [], Start);
      OneMore(s, [] + [Start], LoopTest);
      var run := [] + [Start] + [LoopTest];
      OneMore(s, run, Push(0, true));
      assert |After(s, run + [Push(0, true)]).pushes| == |s.pushes| + 1;
    } else {
      forall run | Legal(s, run) ensures |After(s, run).pushes| == |s.pushes| {
        DoneIsFinal(s, run);
      }
    }
  }

  /** A run from the start: the writer is closed, the close returns at once, and then it is started and pushes. */
  lemma ClosedWriterStillPushes()
    ensures var run := [RequestStop, Start, LoopTest, Push(0, true)];
            && Legal(INITIAL, run)
            && CloseReturns(After(INITIAL, run[..1])) && After(INITIAL, run[..1]).pushes == []
            && |After(INITIAL, run).pushes| == 1
  {
    OneMore(INITIAL, [], RequestStop);
    OneMore(INITIAL, [] + [RequestStop], Start);
    OneMore(INITIAL, [] + [RequestStop] + [Start], LoopTest);
    OneMore(INITIAL, [] + [RequestStop] + [Start] + [LoopTest], Push(0, true));
    var run := [RequestStop, Start, LoopTest, Push(0, true)];
    assert run == [] + [RequestStop] + [Start] + [LoopTest] + [Push(0, true)];
    assert run[..1] == [] + [RequestStop];
  }
}
