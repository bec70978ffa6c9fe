/** The HTTP middleware: the status of one request, and the requests in flight. */
module RequestLifecycle {
  import opened Common
  import opened CapturedContent

  datatype Status = Ok | Error | Cancelled

  // What passes between the server and the application, as the middleware sees it.
  datatype Message =
    | Disconnect
    | Received
    | ResponseStart(code: int)
    | ResponseBody(nonEmpty: bool, more: bool)
    | Sent

  datatype Outcome = Returned | CancelledError | Raised

  datatype Request = Request(status: Status, complete: bool, firstBody: bool)

  const FRESH: Request := Request(Ok, false, false)

  function Seen(r: Request, m: Message): Request {
    match m
    case Disconnect => if r.complete then r else r.(status := Cancelled)
    case Received => r
    case ResponseStart(code) => if code >= 400 then r.(status := Error) else r
    case ResponseBody(nonEmpty, more) => r.(firstBody := r.firstBody || nonEmpty, complete := !more)
    case Sent => r
  }

  function Ended(r: Request, outcome: Outcome): Status {
    match outcome
    case Returned => if !r.complete && r.status == Ok then Cancelled else r.status
    case CancelledError => Cancelled
    case Raised => Error
  }

  function Fold(ms: seq<Message>): Request {
    if ms == [] then FRESH else Seen(Fold(ms[..|ms| - 1]), ms[|ms| - 1])
  }

  function FinalStatus(ms: seq<Message>, outcome: Outcome): Status { Ended(Fold(ms), outcome) }

  /** The per-request wrapper, fed message by message. */
  class Tracer {
    var status: Status
    var complete: bool
    var firstBody: bool

    ghost function View(): Request
      reads this
    {
      Request(status, complete, firstBody)
    }

    constructor ()
      ensures View() == FRESH
    {
      status, complete, firstBody := Ok, false, false;
    }

    method TracedReceive(m: Message)
      requires m.Disconnect? || m.Received?
      modifies this
      ensures View() == Seen(old(View()), m)
    {
      if m.Disconnect? {
        if !complete {
          status := Cancelled;
        }
      }
    }

    method TracedSend(m: Message)
      requires m.ResponseStart? || m.ResponseBody? || m.Sent?
      modifies this
      ensures View() == Seen(old(View()), m)
    {
      if m.ResponseStart? {
        if m.code >= 400 {
          status := Error;
        }
      }
      if m.ResponseBody? {
        if m.nonEmpty && !firstBody {
          firstBody := true;
        }
        complete := !m.more;
      }
    }

    method Finish(outcome: Outcome) returns (final: Status)
      modifies this
      ensures final == Ended(old(View()), outcome) && status == final
    {
      if outcome.Returned? {
        if !complete && status == Ok {
          status := Cancelled;
        }
      } else if outcome.CancelledError? {
        status := Cancelled;
      } else {
        status := Error;
      }
      final := status;
    }
  }

  // ---------- What a status means ----------

  // Message i is the last body message, and it is final.
  ghost predicate AnsweredAt(ms: seq<Message>, i: nat) {
    i < |ms| && ms[i].ResponseBody? && !ms[i].more && forall j :: i < j < |ms| ==> !ms[j].ResponseBody?
  }

  ghost predicate Answered(ms: seq<Message>) {
    exists i: nat :: AnsweredAt(ms, i)
  }

  // Message i turns the status away from ok: an error response, or a disconnect before the answer was complete.
  ghost predicate Spoils(ms: seq<Message>, i: nat)
    requires i < |ms|
  {
    (ms[i].ResponseStart? && ms[i].code >= 400) || (ms[i].Disconnect? && !Answered(ms[..i]))
  }

  ghost predicate Unspoilt(ms: seq<Message>) {
    forall i :: 0 <= i < |ms| ==> !Spoils(ms, i)
  }

  lemma AnsweredOfMore(ms: seq<Message>, m: Message)
    ensures Answered(ms + [m]) <==> if m.ResponseBody? then !m.more else Answered(ms)
  {
    var all := ms + [m];
    assert all[|ms|] == m;
    if m.ResponseBody? {
      if !m.more {
        assert AnsweredAt(all, |ms|);
      }
    } else {
      if i: nat :| AnsweredAt(ms, i) {
        assert AnsweredAt(all, i);
      }
      if i: nat :| AnsweredAt(all, i) {
        assert forall j :: i <= j < |ms| ==> ms[j] == all[j];
        assert AnsweredAt(ms, i);
      }
    }
  }

  lemma {:induction false} CompleteMeansAnswered(ms: seq<Message>)
    ensures Fold(ms).complete <==> Answered(ms)
  {
    if ms == [] {
    } else {
      var n := |ms| - 1;
      CompleteMeansAnswered(ms[..n]);
      AnsweredOfMore(ms[..n], ms[n]);
      assert ms == ms[..n] + [ms[n]];
    }
  }

  /** The first body is noted once a body message was not empty. */
  lemma {:induction false} FirstBodyIff(ms: seq<Message>)
    ensures Fold(ms).firstBody <==> exists i :: 0 <= i < |ms| && ms[i].ResponseBody? && ms[i].nonEmpty
  {
    if ms == [] {
    } else {
      FirstBodyIff(ms[..|ms| - 1]);
      assert ms == ms[..|ms| - 1] + [ms[|ms| - 1]];
    }
  }

  // Message i is the last that spoils, and it leaves this status.
  ghost predicate LastSpoil(ms: seq<Message>, i: nat, status: Status) {
    && i < |ms| && Spoils(ms, i) && (forall j :: i < j < |ms| ==> !Spoils(ms, j))
    && status == if ms[i].ResponseStart? then Error else Cancelled
  }

  // The status is what the last spoiling message left, or ok when there was none.
  ghost predicate LeftBy(ms: seq<Message>, status: Status) {
    if status == Ok then Unspoilt(ms) else exists i: nat :: LastSpoil(ms, i, status)
  }

  lemma SpoilsInPrefix(ms: seq<Message>, m: Message, i: nat)
    requires i < |ms|
    ensures Spoils(ms + [m], i) <==> Spoils(ms, i)
  {
    assert (ms + [m])[..i] == ms[..i];
  }

  lemma LeftByOfMore(ms: seq<Message>, m: Message, status: Status)
    requires LeftBy(ms, status)
    ensures LeftBy(ms + [m], if Spoils(ms + [m], |ms|) then (if m.ResponseStart? then Error else Cancelled) else status)
  {
    var all := ms + [m];
    forall i | 0 <= i < |ms| ensures Spoils(all, i) <==> Spoils(ms, i) {
      SpoilsInPrefix(ms, m, i);
    }
    if Spoils(all, |ms|) {
      assert LastSpoil(all, |ms|, if m.ResponseStart? then Error else Cancelled);
    } else if status != Ok {
      var i: nat :| LastSpoil(ms, i, status);
      assert LastSpoil(all, i, status);
    }
  }

  lemma {:induction false} StatusIsLastSpoil(ms: seq<Message>)
    ensures LeftBy(ms, Fold(ms).status)
  {
    if ms == [] {
    } else {
      var n := |ms| - 1;
      var init, m := ms[..n], ms[n];
      StatusIsLastSpoil(init);
      CompleteMeansAnswered(init);
      assert ms == init + [m] && (init + [m])[..n] == init;
      LeftByOfMore(init, m, Fold(init).status);
    }
  }

  /**
   A request is reported ok iff the application returned, no response started with an error code, no
   disconnect came before the answer was complete, and the last body message was final.
   */
  lemma OkIff(ms: seq<Message>, outcome: Outcome)
    ensures FinalStatus(ms, outcome) == Ok <==>
            outcome.Returned? && Answered(ms) && Unspoilt(ms)
  {
    StatusIsLastSpoil(ms);
    CompleteMeansAnswered(ms);
  }

  /**
   Every other status is explained: by the exception, by the last spoiling message, or by an answer left
   unfinished.
  */
  lemma OtherStatuses(ms: seq<Message>, outcome: Outcome)
    ensures outcome.Raised? ==> FinalStatus(ms, outcome) == Error
    ensures outcome.CancelledError? ==> FinalStatus(ms, outcome) == Cancelled
    ensures outcome.Returned? && FinalStatus(ms, outcome) != Ok ==>
              if Unspoilt(ms) then FinalStatus(ms, outcome) == Cancelled && !Answered(ms)
              else LeftBy(ms, FinalStatus(ms, outcome))
  {
    StatusIsLastSpoil(ms);
    CompleteMeansAnswered(ms);
  }

  // ---------- Requests in flight ----------

  // A request ends with what content capture holds of its response, or with None when capture is off.
  datatype Action =
    | Arrive(id: nat)
    | Pass(id: nat, message: Message)
    | Finish(id: nat, outcome: Outcome, captured: Option<Body>)

  datatype Server = Server(open: map<nat, Request>, inflight: int, emitted: seq<(nat, Status)>)

  // Winding up reads the captured response first. When that raises, the gauge stays up and nothing is emitted.
  function WoundUp(s: Server, id: nat, outcome: Outcome, captured: Option<Body>): Server
    requires id in s.open
  {
    if captured.Some? && Extract(captured.value).Failure? then s.(open := s.open - {id})
    else Server(s.open - {id}, s.inflight - 1, s.emitted + [(id, Ended(s.open[id], outcome))])
  }

  function Next(s: Server, a: Action): Server {
    match a
    case Arrive(id) => s.(open := s.open[id := FRESH], inflight := s.inflight + 1)
    case Pass(id, m) => if id in s.open then s.(open := s.open[id := Seen(s.open[id], m)]) else s
    case Finish(id, outcome, captured) => if id in s.open then WoundUp(s, id, outcome, captured) else s
  }

  function Run(h: seq<Action>): Server {
    if h == [] then Server(map[], 0, []) else Next(Run(h[..|h| - 1]), h[|h| - 1])
  }

  // One request's own story.
  datatype Story =
    | Unseen
    | Open(messages: seq<Message>)
    | Over(messages: seq<Message>, outcome: Outcome, captured: Option<Body>)

  function StoryOf(h: seq<Action>, id: nat): Story {
    if h == [] then Unseen
    else
      var before, a := StoryOf(h[..|h| - 1], id), h[|h| - 1];
      if a.id != id then before
      else
        match a
        case Arrive(_) => if before.Unseen? then Open([]) else before
        case Pass(_, m) => if before.Open? then Open(before.messages + [m]) else before
        case Finish(_, outcome, captured) => if before.Open? then Over(before.messages, outcome, captured) else before
  }

  // Request identities are never reused.
  ghost predicate Distinct(h: seq<Action>) {
    h == [] || (Distinct(h[..|h| - 1]) && (h[|h| - 1].Arrive? ==> StoryOf(h[..|h| - 1], h[|h| - 1].id).Unseen?))
  }

  // A captured response that can not be read.
  ghost predicate Unreadable(captured: Option<Body>) { captured.Some? && Raises(captured.value) }

  // Action i ends a request that was open.
  ghost predicate EndsAt(h: seq<Action>, i: nat)
    requires i < |h|
  {
    h[i].Finish? && StoryOf(h[..i], h[i].id).Open?
  }

  ghost predicate LosesAt(h: seq<Action>, i: nat)
    requires i < |h|
  {
    EndsAt(h, i) && Unreadable(h[i].captured)
  }

  ghost function Finishes(h: seq<Action>): nat {
    if h == [] then 0 else Finishes(h[..|h| - 1]) + if EndsAt(h, |h| - 1) then 1 else 0
  }

  ghost function Lost(h: seq<Action>): nat {
    if h == [] then 0 else Lost(h[..|h| - 1]) + if LosesAt(h, |h| - 1) then 1 else 0
  }

  function EmittedFor(emitted: seq<(nat, Status)>, id: nat): seq<Status> {
    if emitted == [] then []
    else
      var e := emitted[|emitted| - 1];
      EmittedFor(emitted[..|emitted| - 1], id) + if e.0 == id then [e.1] else []
  }

  lemma EmittedForMore(emitted: seq<(nat, Status)>, e: (nat, Status), id: nat)
    ensures EmittedFor(emitted + [e], id) == EmittedFor(emitted, id) + if e.0 == id then [e.1] else []
  {
    assert (emitted + [e])[..|emitted|] == emitted;
  }

  ghost predicate Tells(s: Server, id: nat, story: Story) {
    && (id in s.open <==> story.Open?)
    && (story.Open? ==> s.open[id] == Fold(story.messages))
    && EmittedFor(s.emitted, id) ==
       if story.Over? && !Unreadable(story.captured) then [FinalStatus(story.messages, story.outcome)] else []
  }

  lemma RaisingIffUnreadable(captured: Option<Body>)
    ensures captured.Some? && Extract(captured.value).Failure? <==> Unreadable(captured)
  {
    if captured.Some? {
      ExtractFailsIff(captured.value);
    }
  }

  /**
   However requests interleave, each gets its own status, from its own messages alone, in exactly one emitted event,
   or in none when its captured response can not be read.
  */
  lemma {:induction false} EachRequestEmitsOnce(h: seq<Action>, id: nat)
    requires Distinct(h)
    ensures Tells(Run(h), id, StoryOf(h, id))
  {
    if h == [] {
    } else {
      var before, a := h[..|h| - 1], h[|h| - 1];
      EachRequestEmitsOnce(before, id);
      var s := Run(before);
      if a.Finish? && a.id in s.open {
        RaisingIffUnreadable(a.captured);
        EmittedForMore(s.emitted, (a.id, Ended(s.open[a.id], a.outcome)), id);
      }
      if a.Pass? && a.id == id && StoryOf(before, id).Open? {
        var ms := StoryOf(before, id).messages;
        assert (ms + [a.message])[..|ms|] == ms;
      }
    }
  }

  /**
   The in-flight gauge counts the open requests and, besides, every request whose response could not be read; those
   are the finished requests with no event.
  */
  lemma {:induction false} InflightCounts(h: seq<Action>)
    requires Distinct(h)
    ensures Run(h).inflight == |Run(h).open| + Lost(h)
    ensures |Run(h).emitted| + Lost(h) == Finishes(h)
  {
    if h == [] {
    } else {
      var before, a := h[..|h| - 1], h[|h| - 1];
      InflightCounts(before);
      EachRequestEmitsOnce(before, a.id);
      var s := Run(before);
      if a.Arrive? {
        assert Run(h).open.Keys == s.open.Keys + {a.id};
      } else if a.Pass? && a.id in s.open {
        assert Run(h).open.Keys == s.open.Keys;
      } else if a.Finish? && a.id in s.open {
        RaisingIffUnreadable(a.captured);
        assert Run(h).open.Keys == s.open.Keys - {a.id};
      }
    }
  }

  lemma {:induction false} LostNoneIff(h: seq<Action>)
    ensures Lost(h) == 0 <==> forall i :: 0 <= i < |h| ==> !LosesAt(h, i)
  {
    if h == [] {
    } else {
      var n := |h| - 1;
      LostNoneIff(h[..n]);
      forall i | 0 <= i < n ensures LosesAt(h[..n], i) <==> LosesAt(h, i) {
        assert h[..n][..i] == h[..i];
      }
    }
  }

  /**
   The gauge equals the number of open requests, and every finished request has emitted its event, iff no request
   ended with a captured response that can not be read.
  */
  lemma InflightExactIff(h: seq<Action>)
    requires Distinct(h)
    ensures Run(h).inflight == |Run(h).open| <==> forall i :: 0 <= i < |h| ==> !LosesAt(h, i)
    ensures |Run(h).emitted| == Finishes(h) <==> forall i :: 0 <= i < |h| ==> !LosesAt(h, i)
  {
    InflightCounts(h);
    LostNoneIff(h);
  }

  // A single request, answered and finished, whose captured body is an empty JSON list.
  const LEAKING_RUN: seq<Action> :=
    [ Arrive(0), Pass(0, ResponseStart(200)), Pass(0, ResponseBody(true, false)),
      Finish(0, Returned, Some(Document("[]", Some(JArray([]))))) ]

  lemma RunOfMore(h: seq<Action>, a: Action)
    ensures Run(h + [a]) == Next(Run(h), a)
    ensures Distinct(h) && (a.Arrive? ==> StoryOf(h, a.id).Unseen?) ==> Distinct(h + [a])
  {
    assert (h + [a])[..|h|] == h;
  }

  /** With no request open the gauge still says one, and the request that was answered emits no event. */
  lemma GaugeCanLeak()
    ensures Distinct(LEAKING_RUN) && Run(LEAKING_RUN) == Server(map[], 1, [])
  {
    var r := LEAKING_RUN;
    RunOfMore([], r[0]);
    RunOfMore([] + [r[0]], r[1]);
    RunOfMore([] + [r[0]] + [r[1]], r[2]);
    RunOfMore([] + [r[0]] + [r[1]] + [r[2]], r[3]);
    assert r == [] + [r[0]] + [r[1]] + [r[2]] + [r[3]];
    assert Extract(r[3].captured.value).Failure?;
    assert Run(r).open == map[];
  }
}
