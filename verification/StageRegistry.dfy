/** The EngineCore registry of per-request stage records, and the history it summarises. */
module StageRegistry {
  import opened Common

  type RequestId = string

  datatype Record = Record(
    waitingEnter: Option<real>,
    firstSchedule: Option<real>,
    scheduleSteps: nat,
    prefillChunks: nat,
    decodeSteps: nat,
    scheduleSeconds: real,
    executeSeconds: real,
    executeSteps: nat,
    contentionSteps: nat,
    contentionSeconds: real,
    prefillDone: bool,
    executeIntervals: seq<(real, real)>)

  const NEW_RECORD: Record := Record(None, None, 0, 0, 0, 0.0, 0.0, 0, 0, 0.0, false, [])
  const INTERVAL_LIMIT: nat := 512

  // The four calls that touch the registry. A schedule call names the tokens it gave each request.
  datatype Event =
    | Add(id: RequestId, now: real)
    | Schedule(tokens: map<RequestId, int>, duration: real, now: real)
    | Execute(ids: set<RequestId>, started: real, ended: real)
    | Finish(id: RequestId)

  // ---------- One record ----------

  function Entered(record: Record, now: real): Record {
    if record.waitingEnter.None? then record.(waitingEnter := Some(now)) else record
  }

  function Stepped(record: Record, tokens: int, duration: real, now: real): Record {
    var r := record.(
      firstSchedule := if record.firstSchedule.None? then Some(now) else record.firstSchedule,
      scheduleSteps := record.scheduleSteps + 1,
      scheduleSeconds := record.scheduleSeconds + duration);
    if tokens > 1 then r.(prefillChunks := r.prefillChunks + 1)
    else r.(decodeSteps := r.decodeSteps + 1, prefillDone := true)
  }

  function Contended(record: Record, duration: real): Record {
    if record.firstSchedule.Some? && !record.prefillDone
    then record.(contentionSteps := record.contentionSteps + 1, contentionSeconds := record.contentionSeconds + duration)
    else record
  }

  function Executed(record: Record, started: real, ended: real): Record {
    record.(
      executeSeconds := record.executeSeconds + (ended - started),
      executeSteps := record.executeSteps + 1,
      executeIntervals :=
        if |record.executeIntervals| < INTERVAL_LIMIT then record.executeIntervals + [(started, ended)]
        else record.executeIntervals)
  }

  // ---------- The whole registry ----------

  function Next(reg: map<RequestId, Record>, e: Event): map<RequestId, Record> {
    match e
    case Add(id, now) => reg[id := Entered(if id in reg then reg[id] else NEW_RECORD, now)]
    case Schedule(tokens, duration, now) =>
      map id | id in reg ::
        if id in tokens then Stepped(reg[id], tokens[id], duration, now)
        else if tokens != map[] then Contended(reg[id], duration)
        else reg[id]
    case Execute(ids, started, ended) =>
      map id | id in reg :: if id in ids then Executed(reg[id], started, ended) else reg[id]
    case Finish(id) => if id == "" then reg else reg - {id}
  }

  function Run(h: seq<Event>): map<RequestId, Record> {
    if h == [] then map[] else Next(Run(h[..|h| - 1]), h[|h| - 1])
  }

  /** The registry object, updated in place by the wrapped engine calls. */
  class Registry {
    var records: map<RequestId, Record>

    constructor ()
      ensures records == map[]
    {
      records := map[];
    }

    method AddRequest(id: RequestId, now: real)
      modifies this
      ensures records == Next(old(records), Add(id, now))
    {
      if id !in records {
        records := records[id := NEW_RECORD];
      }
      if records[id].waitingEnter.None? {
        records := records[id := records[id].(waitingEnter := Some(now))];
      }
    }

    method ObserveSchedule(tokens: map<RequestId, int>, duration: real, now: real)
      modifies this
      ensures records == Next(old(records), Schedule(tokens, duration, now))
    {
      CountSteps(tokens, duration, now);
      if tokens != map[] {
        ChargeContention(tokens.Keys, duration);
      }
    }

    method CountStep(id: RequestId, scheduled: int, duration: real, now: real)
      modifies this
      ensures records ==
                if id in old(records) then old(records)[id := Stepped(old(records)[id], scheduled, duration, now)]
                         else old(records)
    {
      if id in records {
        var record := records[id];
        if record.firstSchedule.None? {
          record := record.(firstSchedule := Some(now));
        }
        record := record.(scheduleSteps := record.scheduleSteps + 1, scheduleSeconds := record.scheduleSeconds + duration);
        if scheduled > 1 {
          record := record.(prefillChunks := record.prefillChunks + 1);
        } else {
          record := record.(decodeSteps := record.decodeSteps + 1, prefillDone := true);
        }
        records := records[id := record];
      }
    }

    // Steps every scheduled request that has a record.
    method CountSteps(tokens: map<RequestId, int>, duration: real, now: real)
      modifies this
      ensures records == map id | id in old(records) ::
                           if id in tokens then Stepped(old(records)[id], tokens[id], duration, now) else old(records)[id]
    {
      var left := tokens.Keys;
      while left != {}
        invariant left <= tokens.Keys && records.Keys == old(records).Keys
        invariant forall id :: id in records ==>
                    records[id] == if id in tokens && id !in left then Stepped(old(records)[id], tokens[id], duration, now)
                                   else old(records)[id]
        decreases left
      {
        var id :| id in left;
        left := left - {id};
        CountStep(id, tokens[id], duration, now);
      }
    }

    // Every request in the middle of its prefill that this step left out waits for the step's duration.
    method ChargeContention(scheduled: set<RequestId>, duration: real)
      modifies this
      ensures records == map id | id in old(records) ::
                           if id in scheduled then old(records)[id] else Contended(old(records)[id], duration)
    {
      var left := records.Keys;
      while left != {}
        invariant left <= records.Keys && records.Keys == old(records).Keys
        invariant forall id :: id in records ==>
                    records[id] == if id in scheduled || id in left then old(records)[id]
                                   else Contended(old(records)[id], duration)
        decreases left
      {
        var id :| id in left;
        left := left - {id};
        var record := records[id];
        if record.firstSchedule.Some? && !record.prefillDone && id !in scheduled {
          records := records[id := record.(contentionSteps := record.contentionSteps + 1,
                                           contentionSeconds := record.contentionSeconds + duration)];
        }
      }
    }

    method RecordExecute(ids: set<RequestId>, started: real, ended: real)
      modifies this
      ensures records == Next(old(records), Execute(ids, started, ended))
    {
      var duration := ended - started;
      var left := ids;
      while left != {}
        invariant left <= ids && records.Keys == old(records).Keys
        invariant forall id :: id in records ==>
                    records[id] == if id in ids && id !in left then Executed(old(records)[id], started, ended)
                                   else old(records)[id]
        decreases left
      {
        var id :| id in left;
        left := left - {id};
        if id in records {
          var record := records[id];
          record := record.(executeSeconds := record.executeSeconds + duration, executeSteps := record.executeSteps + 1);
          if |record.executeIntervals| < INTERVAL_LIMIT {
            record := record.(executeIntervals := record.executeIntervals + [(started, ended)]);
          }
          records := records[id := record];
        }
      }
    }

    method AttachStages(id: RequestId) returns (payload: Option<Record>)
      modifies this
      ensures records == Next(old(records), Finish(id))
      ensures payload == if id != "" && id in old(records) then Some(old(records)[id]) else None
    {
      payload := None;
      if id != "" && id in records {
        payload := Some(records[id]);
        records := records - {id};
      }
    }
  }

  // ---------- One request's own history ----------

  // What a call means to one request; a non-empty step that leaves it out is Elsewhere.
  datatype Own =
    | Enter(now: real)
    | Step(tokens: int, duration: real, now: real)
    | Elsewhere(duration: real)
    | Ran(started: real, ended: real)

  function Seen(e: Event, id: RequestId): Option<Own> {
    match e
    case Add(i, now) => if i == id then Some(Enter(now)) else None
    case Schedule(tokens, duration, now) =>
      if id in tokens then Some(Step(tokens[id], duration, now))
      else if tokens != map[] then Some(Elsewhere(duration))
      else None
    case Execute(ids, started, ended) => if id in ids then Some(Ran(started, ended)) else None
    case Finish(_) => None
  }

  predicate Leaves(e: Event, id: RequestId) { e.Finish? && e.id == id && id != "" }

  // What the request has seen since its record was created; None when it has no record.
  function Life(h: seq<Event>, id: RequestId): Option<seq<Own>> {
    if h == [] then None
    else
      var e := h[|h| - 1];
      var before := Life(h[..|h| - 1], id);
      if Leaves(e, id) then None
      else if Seen(e, id).None? then before
      else if before.Some? then Some(before.value + [Seen(e, id).value])
      else if e.Add? then Some([Seen(e, id).value])
      else None
  }

  function OwnHistory(h: seq<Event>, id: RequestId): seq<Own> {
    if Life(h, id).Some? then Life(h, id).value else []
  }

  // ---------- Summaries in closed form ----------

  datatype Kind = AnyStep | Chunk | Small | Aside | AnyCall | AnyRun

  predicate Is(k: Kind, o: Own) {
    match k
    case AnyStep => o.Step?
    case Chunk => o.Step? && o.tokens > 1
    case Small => o.Step? && o.tokens <= 1
    case Aside => o.Elsewhere?
    case AnyCall => o.Step? || o.Elsewhere?
    case AnyRun => o.Ran?
  }

  function Seconds(o: Own): real {
    match o
    case Enter(_) => 0.0
    case Step(_, duration, _) => duration
    case Elsewhere(duration) => duration
    case Ran(started, ended) => ended - started
  }

  function Count(s: seq<Own>, k: Kind): nat {
    if s == [] then 0 else Count(s[..|s| - 1], k) + if Is(k, s[|s| - 1]) then 1 else 0
  }

  function Sum(s: seq<Own>, k: Kind): real {
    if s == [] then 0.0 else Sum(s[..|s| - 1], k) + if Is(k, s[|s| - 1]) then Seconds(s[|s| - 1]) else 0.0
  }

  // The position of the first element of a kind, or the length.
  function First(s: seq<Own>, k: Kind): (i: nat)
    ensures i <= |s| && (i < |s| ==> Is(k, s[i]))
    ensures forall j :: 0 <= j < i ==> !Is(k, s[j])
  {
    if s == [] then 0
    else
      var n := |s| - 1;
      var i := First(s[..n], k);
      assert i < n ==> s[..n][i] == s[i];
      assert forall j :: 0 <= j < i ==> s[..n][j] == s[j];
      if i < n || Is(k, s[n]) then i else n + 1
  }

  // From the first step of the request to its first step of at most one token.
  function Window(s: seq<Own>): seq<Own> {
    var first, small := First(s, AnyStep), First(s, Small);
    if first <= small then s[first..small] else []
  }

  function Intervals(s: seq<Own>): seq<(real, real)> {
    if s == [] then []
    else
      var o := s[|s| - 1];
      Intervals(s[..|s| - 1]) + if o.Ran? then [(o.started, o.ended)] else []
  }

  function FirstStepAt(s: seq<Own>): Option<real> {
    var k := First(s, AnyStep);
    if k < |s| then Some(s[k].now) else None
  }

  function FirstEnterAt(s: seq<Own>): Option<real> {
    if s != [] && s[0].Enter? then Some(s[0].now) else None
  }

  // Only the first intervals are kept.
  function Capped(runs: seq<(real, real)>): seq<(real, real)> {
    if |runs| <= INTERVAL_LIMIT then runs else runs[..INTERVAL_LIMIT]
  }

  function Summary(s: seq<Own>): Record {
    var runs := Intervals(s);
    Record(
      FirstEnterAt(s),
      FirstStepAt(s),
      Count(s, AnyStep),
      Count(s, Chunk),
      Count(s, Small),
      Sum(s, AnyStep),
      Sum(s, AnyRun),
      Count(s, AnyRun),
      Count(Window(s), Aside),
      Sum(Window(s), Aside),
      First(s, Small) < |s|,
      Capped(runs))
  }

  function Applied(record: Record, o: Own): Record {
    match o
    case Enter(now) => Entered(record, now)
    case Step(tokens, duration, now) => Stepped(record, tokens, duration, now)
    case Elsewhere(duration) => Contended(record, duration)
    case Ran(started, ended) => Executed(record, started, ended)
  }

  lemma FirstOfMore(s: seq<Own>, o: Own, k: Kind)
    ensures First(s + [o], k) == if First(s, k) < |s| || Is(k, o) then First(s, k) else |s| + 1
  {
    assert (s + [o])[..|s|] == s;
  }

  lemma CountOfMore(s: seq<Own>, o: Own, k: Kind)
    ensures Count(s + [o], k) == Count(s, k) + if Is(k, o) then 1 else 0
  {
    assert (s + [o])[..|s|] == s;
  }

  lemma SumOfMore(s: seq<Own>, o: Own, k: Kind)
    ensures Sum(s + [o], k) == Sum(s, k) + if Is(k, o) then Seconds(o) else 0.0
  {
    assert (s + [o])[..|s|] == s;
  }

  lemma FirstStepNotAfterSmall(s: seq<Own>)
    ensures First(s, AnyStep) <= First(s, Small)
  {
  }

  lemma SliceOfMore(s: seq<Own>, o: Own, i: nat, j: nat)
    requires i <= j <= |s|
    ensures (s + [o])[i..j] == s[i..j]
    ensures (s + [o])[i..|s| + 1] == s[i..|s|] + [o]
  {
  }

  // The window is still open after s, and o belongs to it.
  predicate Extends(s: seq<Own>, o: Own) {
    First(s, Small) == |s| && !Is(Small, o) && (First(s, AnyStep) < |s| || o.Step?)
  }

  lemma WindowOfMore(s: seq<Own>, o: Own)
    ensures Window(s + [o]) == if Extends(s, o) then Window(s) + [o] else Window(s)
  {
    var first, small := First(s, AnyStep), First(s, Small);
    FirstOfMore(s, o, AnyStep);
    FirstOfMore(s, o, Small);
    FirstStepNotAfterSmall(s);
    SliceOfMore(s, o, first, small);
    assert (s + [o])[|s| + 1..|s| + 1] == [];
  }

  lemma {:induction false} ContentionOfMore(s: seq<Own>, o: Own)
    ensures var counted := o.Elsewhere? && First(s, AnyStep) < |s| && First(s, Small) == |s|;
            && Count(Window(s + [o]), Aside) == Count(Window(s), Aside) + (if counted then 1 else 0)
            && Sum(Window(s + [o]), Aside) == Sum(Window(s), Aside) + (if counted then o.duration else 0.0)
  {
    WindowOfMore(s, o);
    CountOfMore(Window(s), o, Aside);
    SumOfMore(Window(s), o, Aside);
  }

  lemma StampsOfMore(s: seq<Own>, o: Own)
    ensures s != [] ==> FirstEnterAt(s + [o]) == FirstEnterAt(s)
    ensures FirstStepAt(s + [o]) == if FirstStepAt(s).None? && o.Step? then Some(o.now) else FirstStepAt(s)
  {
    FirstOfMore(s, o, AnyStep);
  }

  lemma IntervalsOfMore(s: seq<Own>, o: Own)
    ensures Intervals(s + [o]) == Intervals(s) + if o.Ran? then [(o.started, o.ended)] else []
  {
    assert (s + [o])[..|s|] == s;
  }

  lemma CappedOfMore(runs: seq<(real, real)>, run: (real, real))
    ensures Capped(runs + [run]) == if |Capped(runs)| < INTERVAL_LIMIT then Capped(runs) + [run] else Capped(runs)
  {
  }

  // The parts of a summary, so that each step of the proof looks at few of them.
  lemma ScheduleOfMore(s: seq<Own>, o: Own)
    requires s != []
    ensures Scheduled(Summary(s), Summary(s + [o]), o)
  {
    StampsOfMore(s, o);
    FirstOfMore(s, o, Small);
    CountOfMore(s, o, AnyStep);
    CountOfMore(s, o, Chunk);
    CountOfMore(s, o, Small);
    SumOfMore(s, o, AnyStep);
  }

  lemma WaitOfMore(s: seq<Own>, o: Own)
    ensures Waited(Summary(s), Summary(s + [o]), o)
  {
    ContentionOfMore(s, o);
  }

  lemma {:induction false} RunsOfMore(s: seq<Own>, o: Own)
    ensures Capped(Intervals(s + [o])) ==
            if o.Ran? && |Capped(Intervals(s))| < INTERVAL_LIMIT then Capped(Intervals(s)) + [(o.started, o.ended)]
            else Capped(Intervals(s))
  {
    IntervalsOfMore(s, o);
    if o.Ran? {
      CappedOfMore(Intervals(s), (o.started, o.ended));
    }
  }

  lemma {:induction false} ExecutionOfMore(s: seq<Own>, o: Own)
    ensures RanOn(Summary(s), Summary(s + [o]), o)
  {
    CountOfMore(s, o, AnyRun);
    SumOfMore(s, o, AnyRun);
    RunsOfMore(s, o);
  }

  // Record b is record a after one observation, field by field.
  ghost predicate Scheduled(a: Record, b: Record, o: Own) {
    && b.waitingEnter == a.waitingEnter
    && b.firstSchedule == (if a.firstSchedule.None? && o.Step? then Some(o.now) else a.firstSchedule)
    && b.scheduleSteps == a.scheduleSteps + (if o.Step? then 1 else 0)
    && b.prefillChunks == a.prefillChunks + (if Is(Chunk, o) then 1 else 0)
    && b.decodeSteps == a.decodeSteps + (if Is(Small, o) then 1 else 0)
    && b.scheduleSeconds == a.scheduleSeconds + (if o.Step? then o.duration else 0.0)
    && b.prefillDone == (a.prefillDone || Is(Small, o))
  }

  ghost predicate Waited(a: Record, b: Record, o: Own) {
    var counted := o.Elsewhere? && a.firstSchedule.Some? && !a.prefillDone;
    && b.contentionSteps == a.contentionSteps + (if counted then 1 else 0)
    && b.contentionSeconds == a.contentionSeconds + (if counted then o.duration else 0.0)
  }

  ghost predicate RanOn(a: Record, b: Record, o: Own) {
    && b.executeSeconds == a.executeSeconds + (if o.Ran? then o.ended - o.started else 0.0)
    && b.executeSteps == a.executeSteps + (if o.Ran? then 1 else 0)
    && b.executeIntervals == if o.Ran? && |a.executeIntervals| < INTERVAL_LIMIT
                             then a.executeIntervals + [(o.started, o.ended)] else a.executeIntervals
  }

  lemma FieldsApplied(a: Record, b: Record, o: Own)
    requires a.waitingEnter.Some? && Scheduled(a, b, o) && Waited(a, b, o) && RanOn(a, b, o)
    ensures b == Applied(a, o)
  {
  }

  /** Adding one observation to a history changes its summary as one update changes the record. */
  lemma SummaryOfMore(s: seq<Own>, o: Own)
    requires s != [] && s[0].Enter?
    ensures Summary(s + [o]) == Applied(Summary(s), o)
  {
    ScheduleOfMore(s, o);
    WaitOfMore(s, o);
    ExecutionOfMore(s, o);
    FieldsApplied(Summary(s), Summary(s + [o]), o);
  }

  lemma SummaryOfEntry(now: real)
    ensures Summary([Enter(now)]) == Entered(NEW_RECORD, now)
  {
    var s, o := [], Enter(now);
    assert s + [o] == [o];
    FirstOfMore(s, o, AnyStep);
    FirstOfMore(s, o, Small);
    CountOfMore(s, o, AnyStep);
    CountOfMore(s, o, Chunk);
    CountOfMore(s, o, Small);
    SumOfMore(s, o, AnyStep);
    ContentionOfMore(s, o);
    ExecutionOfMore(s, o);
  }

  // ---------- Refinement ----------

  function Lookup(reg: map<RequestId, Record>, id: RequestId): Option<Record> {
    if id in reg then Some(reg[id]) else None
  }

  /** One call acts on each request by itself, through what that request sees of it. */
  lemma NextIsPointwise(reg: map<RequestId, Record>, e: Event, id: RequestId)
    ensures Lookup(Next(reg, e), id) ==
            if Leaves(e, id) then None
            else if Seen(e, id).None? then Lookup(reg, id)
            else if id in reg then Some(Applied(reg[id], Seen(e, id).value))
            else if e.Add? then Some(Applied(NEW_RECORD, Seen(e, id).value))
            else None
  {
  }

  lemma {:induction false} LifeBegins(h: seq<Event>, id: RequestId)
    ensures Life(h, id).Some? ==> Life(h, id).value != [] && Life(h, id).value[0].Enter?
  {
    if h != [] {
      LifeBegins(h[..|h| - 1], id);
    }
  }

  /**
   After any sequence of calls a request has a record exactly while it has been added and not yet
   attached, and the record is the closed-form summary of its own history since it was added.
   */
  lemma {:induction false} RegistryRefinesHistory(h: seq<Event>, id: RequestId)
    ensures id in Run(h) <==> Life(h, id).Some?
    ensures id in Run(h) ==> Run(h)[id] == Summary(OwnHistory(h, id))
  {
    if h == [] {
    } else {
      var before, e := h[..|h| - 1], h[|h| - 1];
      RegistryRefinesHistory(before, id);
      NextIsPointwise(Run(before), e, id);
      LifeBegins(before, id);
      if Seen(e, id).Some? && !Leaves(e, id) {
        if Life(before, id).Some? {
          SummaryOfMore(Life(before, id).value, Seen(e, id).value);
        } else if e.Add? {
          SummaryOfEntry(e.now);
        }
      }
    }
  }

  /** Steps and executions of a request without a record change no record of it, before or after its life. */
  lemma AbsentStaysAbsent(h: seq<Event>, e: Event, id: RequestId)
    requires Life(h, id).None? && (e.Schedule? || e.Execute?)
    ensures id !in Run(h + [e])
  {
  }

  // ---------- Accounting ----------

  lemma {:induction false} CallsSplit(s: seq<Own>)
    ensures Count(s, AnyCall) == Count(s, AnyStep) + Count(s, Aside)
    ensures Sum(s, AnyCall) == Sum(s, AnyStep) + Sum(s, Aside)
  {
    if s == [] {
    } else {
      CallsSplit(s[..|s| - 1]);
    }
  }

  /**
   Between a request's first step and its first small step, every non-empty step is its own or counted as
   contention.
  */
  lemma ContentionIsExact(h: seq<Event>, id: RequestId)
    requires id in Run(h)
    ensures var w := Window(OwnHistory(h, id));
            && Count(w, AnyCall) == Count(w, AnyStep) + Run(h)[id].contentionSteps
            && Sum(w, AnyCall) == Sum(w, AnyStep) + Run(h)[id].contentionSeconds
  {
    RegistryRefinesHistory(h, id);
    CallsSplit(Window(OwnHistory(h, id)));
  }

  // ---------- Contention, counted over the calls themselves ----------

  // A number of scheduling steps, and how long they took together.
  datatype Tally = Tally(calls: nat, seconds: real) {
    function Add(other: Tally): Tally { Tally(calls + other.calls, seconds + other.seconds) }
  }

  function BusyShare(e: Event): Tally {
    if e.Schedule? && e.tokens != map[] then Tally(1, e.duration) else Tally(0, 0.0)
  }

  function ServedShare(e: Event, id: RequestId): Tally {
    if e.Schedule? && id in e.tokens then Tally(1, e.duration) else Tally(0, 0.0)
  }

  // The steps that scheduled anything at all.
  function Busy(h: seq<Event>): Tally {
    if h == [] then Tally(0, 0.0)
    else
      Busy(h[..|h| - 1]).Add(BusyShare(h[|h| - 1]))
  }

  // Those that scheduled one request.
  function Served(h: seq<Event>, id: RequestId): Tally {
    if h == [] then Tally(0, 0.0)
    else
      Served(h[..|h| - 1], id).Add(ServedShare(h[|h| - 1], id))
  }

  function ContentionOf(r: Record): Tally { Tally(r.contentionSteps, r.contentionSeconds) }

  // The record is there, between its first step and its first small step.
  ghost predicate MidPrefill(reg: map<RequestId, Record>, id: RequestId) {
    id in reg && reg[id].firstSchedule.Some? && !reg[id].prefillDone
  }

  predicate SmallStep(e: Event, id: RequestId) { e.Schedule? && id in e.tokens && e.tokens[id] <= 1 }

  lemma UnscheduledIsUncontended(h: seq<Event>, id: RequestId)
    requires id in Run(h) && Run(h)[id].firstSchedule.None?
    ensures ContentionOf(Run(h)[id]) == Tally(0, 0.0) && !Run(h)[id].prefillDone
  {
    RegistryRefinesHistory(h, id);
    var s := OwnHistory(h, id);
    FirstStepNotAfterSmall(s);
    assert Window(s) == [];
  }

  lemma RunOfMore(h: seq<Event>, e: Event)
    ensures Run(h + [e]) == Next(Run(h), e)
  {
    assert (h + [e])[..|h|] == h;
  }

  lemma SharesOfMore(h: seq<Event>, e: Event, id: RequestId)
    ensures Busy(h + [e]) == Busy(h).Add(BusyShare(e))
    ensures Served(h + [e], id) == Served(h, id).Add(ServedShare(e, id))
  {
    assert (h + [e])[..|h|] == h;
  }

  // The request is in the middle of its prefill, and the steps so far either served it or were contention.
  ghost predicate Balanced(busy: Tally, served: Tally, reg: map<RequestId, Record>, id: RequestId) {
    && MidPrefill(reg, id)
    && busy.calls == served.calls + reg[id].contentionSteps
    && busy.seconds == served.seconds + reg[id].contentionSeconds
  }

  lemma CallServesOrContends(busy: Tally, served: Tally, reg: map<RequestId, Record>, e: Event, id: RequestId)
    requires Balanced(busy, served, reg, id) && !SmallStep(e, id) && !Leaves(e, id)
    ensures Balanced(busy.Add(BusyShare(e)), served.Add(ServedShare(e, id)), Next(reg, e), id)
  {
    NextIsPointwise(reg, e, id);
  }

  // The next call schedules the request for the first time since its record was created.
  ghost predicate FirstServes(h: seq<Event>, id: RequestId, e: Event) {
    && id in Run(h) && Run(h)[id].firstSchedule.None?
    && e.Schedule? && id in e.tokens
  }

  ghost predicate Unsettled(calls: seq<Event>, id: RequestId) {
    forall e :: e in calls ==> !SmallStep(e, id) && !Leaves(e, id)
  }

  lemma FirstCallServes(h: seq<Event>, id: RequestId, e: Event)
    requires FirstServes(h, id, e) && !SmallStep(e, id)
    ensures Balanced(Busy([e]), Served([e], id), Run(h + [e]), id)
  {
    UnscheduledIsUncontended(h, id);
    RunOfMore(h, e);
    NextIsPointwise(Run(h), e, id);
    SharesOfMore([], e, id);
    assert [] + [e] == [e];
  }

  /**
   From the call that first schedules a request, for as long as it neither takes a small step nor finishes, the
   calls that scheduled anything are exactly those that served it and those its record counts as contention, in
   number and in duration.
  */
  lemma {:induction false} CallsServeOrContend(h: seq<Event>, id: RequestId, calls: seq<Event>)
    requires calls != [] && FirstServes(h, id, calls[0]) && Unsettled(calls, id)
    ensures Balanced(Busy(calls), Served(calls, id), Run(h + calls), id)
  {
    var n := |calls| - 1;
    var before, e := calls[..n], calls[n];
    assert calls == before + [e];
    if before == [] {
      FirstCallServes(h, id, e);
    } else {
      CallsServeOrContend(h, id, before);
      CallServesOrContends(Busy(before), Served(before, id), Run(h + before), e, id);
      RunOfMore(h + before, e);
      assert h + calls == (h + before) + [e];
    }
  }

  /** Once a request has taken a small step its contention is settled until it finishes. */
  lemma {:induction false} ContentionSettles(h: seq<Event>, id: RequestId, calls: seq<Event>)
    requires id in Run(h) && Run(h)[id].prefillDone && forall e :: e in calls ==> !Leaves(e, id)
    ensures id in Run(h + calls) && Run(h + calls)[id].prefillDone
    ensures ContentionOf(Run(h + calls)[id]) == ContentionOf(Run(h)[id])
  {
    if calls == [] {
      assert h + calls == h;
    } else {
      var n := |calls| - 1;
      ContentionSettles(h, id, calls[..n]);
      RunOfMore(h + calls[..n], calls[n]);
      assert h + calls == (h + calls[..n]) + [calls[n]];
      NextIsPointwise(Run(h + calls[..n]), calls[n], id);
    }
  }

  /**
   What a request is handed over with: when a small step ends its prefill, the contention in its record is what the
   calls from its first step up to that one come to, less those that served it, whatever follows.
  */
  lemma {:induction false} ReportedContentionIsExact(h: seq<Event>, id: RequestId, calls: seq<Event>, last: Event,
                                                     rest: seq<Event>)
    requires calls != [] && FirstServes(h, id, calls[0]) && Unsettled(calls, id)
    requires SmallStep(last, id) && forall e :: e in rest ==> !Leaves(e, id)
    ensures var now := Run(h + calls + [last] + rest);
            && id in now
            && Busy(calls).calls == Served(calls, id).calls + now[id].contentionSteps
            && Busy(calls).seconds == Served(calls, id).seconds + now[id].contentionSeconds
  {
    CallsServeOrContend(h, id, calls);
    RunOfMore(h + calls, last);
    NextIsPointwise(Run(h + calls), last, id);
    ContentionSettles(h + calls + [last], id, rest);
  }

  /** Outside that window contention does not move. */
  lemma ContentionOnlyInWindow(h: seq<Event>, e: Event, id: RequestId)
    requires id in Run(h) && id in Run(h + [e])
    requires Run(h)[id].firstSchedule.None? || Run(h)[id].prefillDone
    ensures Run(h + [e])[id].contentionSteps == Run(h)[id].contentionSteps
    ensures Run(h + [e])[id].contentionSeconds == Run(h)[id].contentionSeconds
  {
  }

  lemma {:induction false} StepsSplit(s: seq<Own>)
    ensures Count(s, AnyStep) == Count(s, Chunk) + Count(s, Small)
    ensures Count(s, AnyStep) > 0 <==> First(s, AnyStep) < |s|
    ensures Count(s, Small) > 0 <==> First(s, Small) < |s|
    ensures Count(s, AnyRun) == |Intervals(s)|
  {
    if s == [] {
    } else {
      StepsSplit(s[..|s| - 1]);
    }
  }

  function Lengths(intervals: seq<(real, real)>): real {
    if intervals == [] then 0.0
    else Lengths(intervals[..|intervals| - 1]) + (intervals[|intervals| - 1].1 - intervals[|intervals| - 1].0)
  }

  lemma {:induction false} IntervalsHoldTime(s: seq<Own>)
    ensures Lengths(Intervals(s)) == Sum(s, AnyRun)
  {
    if s == [] {
    } else {
      var before, all := Intervals(s[..|s| - 1]), Intervals(s);
      IntervalsHoldTime(s[..|s| - 1]);
      var o := s[|s| - 1];
      if o.Ran? {
        assert all == before + [(o.started, o.ended)];
        assert all[..|all| - 1] == before;
      } else {
        assert all == before;
      }
    }
  }

  ghost predicate Consistent(r: Record) {
    && r.waitingEnter.Some?
    && r.scheduleSteps == r.prefillChunks + r.decodeSteps
    && (r.firstSchedule.Some? <==> r.scheduleSteps > 0)
    && (r.prefillDone <==> r.decodeSteps > 0)
    && |r.executeIntervals| == Min(r.executeSteps, 512)
    && (r.executeSteps <= 512 ==> r.executeSeconds == Lengths(r.executeIntervals))
  }

  /**
   In every reachable registry each record's counters agree, and its total execution time is that of all its
   executions.
  */
  lemma RecordsAreConsistent(h: seq<Event>, id: RequestId)
    requires id in Run(h)
    ensures Consistent(Run(h)[id])
    ensures Run(h)[id].executeSeconds == Sum(OwnHistory(h, id), AnyRun)
  {
    RegistryRefinesHistory(h, id);
    LifeBegins(h, id);
    StepsSplit(OwnHistory(h, id));
    IntervalsHoldTime(OwnHistory(h, id));
  }

  // ---------- Waiting time ----------

  // Readings of the engine's monotonic clock never go back.
  ghost predicate Monotonic(h: seq<Event>) {
    forall i, j :: 0 <= i < j < |h| && (h[i].Add? || h[i].Schedule?) && (h[j].Add? || h[j].Schedule?) ==> h[i].now <= h[j].now
  }

  // Every record holds stamps no later than the clock.
  ghost predicate NotAfter(reg: map<RequestId, Record>, now: real) {
    forall id :: id in reg ==>
      && reg[id].waitingEnter.Some? && reg[id].waitingEnter.value <= now
      && (reg[id].firstSchedule.Some? ==> reg[id].waitingEnter.value <= reg[id].firstSchedule.value)
  }

  lemma {:induction false} StampsOrdered(h: seq<Event>, now: real)
    requires Monotonic(h) && forall i :: 0 <= i < |h| && (h[i].Add? || h[i].Schedule?) ==> h[i].now <= now
    ensures NotAfter(Run(h), now)
  {
    if h == [] {
    } else {
      var before, e := h[..|h| - 1], h[|h| - 1];
      assert forall i :: 0 <= i < |before| ==> before[i] == h[i];
      StampsOrdered(before, if e.Add? || e.Schedule? then e.now else now);
    }
  }

  /** A request enters the waiting queue no later than it is first scheduled. */
  lemma WaitingPrecedesSchedule(h: seq<Event>, id: RequestId)
    requires Monotonic(h) && id in Run(h) && Run(h)[id].firstSchedule.Some?
    ensures Run(h)[id].waitingEnter.Some? && Run(h)[id].waitingEnter.value <= Run(h)[id].firstSchedule.value
  {
    var now := LatestReading(h);
    StampsOrdered(h, now);
  }

  lemma {:induction false} LatestReading(h: seq<Event>) returns (now: real)
    ensures forall i :: 0 <= i < |h| && (h[i].Add? || h[i].Schedule?) ==> h[i].now <= now
  {
    now := 0.0;
    if h != [] {
      var before, e := h[..|h| - 1], h[|h| - 1];
      now := LatestReading(before);
      assert forall i :: 0 <= i < |before| ==> before[i] == h[i];
      if (e.Add? || e.Schedule?) && now < e.now {
        now := e.now;
      }
    }
  }
}
