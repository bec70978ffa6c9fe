# Verified model of vllm-observer

vllm-observer times each request of a vLLM server in two processes, correlates the two, and exports
an exact-looking trace. This project models the code that has to make those traces exact, and proves
what it promises: the timeline builder and the span export, the trace object that feeds them, the
calibration of engine clocks, the correlation of statistics with requests, the engine's stage
registry, the background exporter, the metric pusher and the HTTP status machine.

`dafny verify dfyconfig.toml` checks everything.

## How it is laid out

| file | models |
|---|---|
| `Timeline.dfy` | cutting the generation into engine stages with a running cursor |
| `StableSort.dfy`, `Layout.dfy` | placing and clipping measured calls, moving them under the submit call, ordering the nodes |
| `TreeShape.dfy` | disjoint containers, nested intervals and known parents of that node list |
| `SpanExport.dfy` | dropping empty nodes and opening spans parent by parent |
| `TreeAudit.dfy` | the structural part of the audit script, with zero tolerance |
| `RequestTraces.dfy`, `EndToEnd.dfy` | the trace object, and whole runs from clock readings to the audited tree |
| `DrawnPhases.dfy` | which engine stages a whole run ends up drawing, and from which stamps |
| `EngineClock.dfy`, `EngineStats.dfy` | the clock sample and its error, and merging engine statistics into a trace |
| `Correlation.dfy` | generations that run at the same time, told apart by request id |
| `CorrelatedRuns.dfy`, `ClosedGenerations.dfy` | concurrent requests brought back to the runs of each single trace, and the closing of their generations |
| `StageRegistry.dfy` | the EngineCore registry as a summary of each request's own history |
| `ExportQueue.dfy` | the bounded background exporter, step by step |
| `RemoteWriter.dfy` | the metric pusher's life cycle and timestamps |
| `RequestLifecycle.dfy`, `CapturedContent.dfy` | request status, requests in flight, and reading captured responses |

Each component that updates state has a class whose methods give the new state as a function of the
old one. The results about whole runs are lemmas about those functions, over every sequence of
steps, and they say what a run leaves behind in terms of its own steps, stamps and names. Timeline stamps are integers (nanoseconds); durations and engine times are exact reals that
are truncated toward zero where the code calls `int`. Clock readings are inputs: readings of one
process clock never decrease, wall-clock readings are free. Random ids are tokens that never repeat.

## Findings

Four promises do not hold as they stand. For each there is a concrete run that breaks it and the
exact condition under which it holds.

- The span export looks up a missing parent, and fails, when `input_process` or
  `output_processor_add` has the same clipped interval as `submit_engine` and was recorded first,
  which is the order the timing wrappers record in. Clipping can make the intervals equal although
  the measured ones differ: both calls need only straddle one short engine segment.
  `EndToEnd.RunCanOrphan` is such a run for either call, `EndToEnd.EveryRunExportsIff` and
  `SpanExport.ExportSucceedsIff` give the condition.
- An event accepted between the exporter's stop check and its put can stay in the queue after `close`
  has reported success: `ExportQueue.AcceptedEventCanBeLost`, `ExportQueue.StrandsIffPending`.
- With content capture on, the in-flight gauge never comes down again for a request whose captured
  response is JSON of a shape the parser cannot read, and that request emits no event: parsing is in
  the `finally` block, before the gauge is lowered. `RequestLifecycle.GaugeCanLeak` does it with an
  empty JSON list; `CapturedContent.ExtractFailsIff` says which bodies raise, and
  `RequestLifecycle.InflightExactIff` that the gauge and the events are exact iff no such body ended a request.
- Closing the metric pusher before it was started returns at once, and starting it afterwards still
  pushes a sample: `RemoteWriter.ClosedWriterStillPushes`, `RemoteWriter.PushAfterCloseIff`.

The builder draws the time of a prefill span as decode when no decode span came with it
(`Timeline.PrefillDrawnIff`), but the recorder adds both or neither, so no run gets there
(`DrawnPhases.PhasesComeTogether`).

## Model

| member | source | states |
|---|---|---|
| Timeline.Edges | src/vllm_observer/exporter.py:132-175 | the six stage edges: the last span of each name gives its own, a missing one falls onto the edge before it, and the outer two are the generation's bounds |
| Timeline.GenerationBounds | src/vllm_observer/exporter.py:132-134 | the generation's bounds are its stamps; a missing or zero end is the end of the request |
| Timeline.CursorIsRunningMaximum | src/vllm_observer/exporter.py:176-209 | for any edges, each cut point is the largest of the clamped edges so far |
| Timeline.SegmentsTile | src/vllm_observer/exporter.py:203-240 | segments cut from linked boundaries are positive and laid end to end |
| Timeline.StagesPartitionGeneration | src/vllm_observer/exporter.py:172-241 | for any edges, even a generation that ends before it starts, the stages tile it and their lengths add up to it exactly |
| Timeline.TilesHoldOnce | src/vllm_observer/exporter.py:125-131 | in a tiling each instant lies in exactly one segment |
| Timeline.StageOwnsInstant | src/vllm_observer/exporter.py:172-240 | each instant is charged to the first stage whose closing edge lies after it, and to no other |
| Timeline.OrderedStagesAreExact | src/vllm_observer/exporter.py:172-240 | ordered edges inside the generation are drawn exactly as observed |
| Timeline.StagesAreDrawnExactly | src/vllm_observer/exporter.py:203-240 | each stage is drawn once, from its cut point to the next, or not at all when they coincide |
| Timeline.StageWithinItsEdges | src/vllm_observer/exporter.py:203-240 | in whatever order the edges come, a stage is drawn only between its own two |
| Timeline.MissingSpanDrawsNoStage | src/vllm_observer/exporter.py:172-202 | a missing span leaves the stage before it no time, and it is not drawn |
| Timeline.UnknownStagesAreFinalize | src/vllm_observer/exporter.py:172-202 | without engine spans one finalize segment is drawn, over the whole generation |
| Timeline.PrefillDrawnIff | src/vllm_observer/exporter.py:172-240 | an instant of the recorded prefill is drawn as prefill iff a decode span was recorded and starts later |
| Layout.TimelineNodes | src/vllm_observer/exporter.py:125-287 | the builder's loops compute the specified node list, or fail when the generation has no end |
| Layout.CutStages | src/vllm_observer/exporter.py:203-240 | the boundary loop computes the specified segments |
| Layout.PlaceDetails | src/vllm_observer/exporter.py:243-266 | the detail loop appends the clipped calls and remembers the last node of each name |
| Layout.MoveDetails | src/vllm_observer/exporter.py:267-279 | the second loop rewrites the parent of exactly the details that move under the submit call, which TreeShape.DetailIsNested names |
| Layout.Container | src/vllm_observer/exporter.py:249-256 | the first segment that holds the instant, or none when there is none |
| Layout.LastIndex | src/vllm_observer/exporter.py:264-271 | the last placed detail of a name |
| StableSort.SortByStart | src/vllm_observer/exporter.py:283-286 | the sort is a permutation in which starts do not decrease and equal starts go longest first |
| StableSort.SortPlaces | src/vllm_observer/exporter.py:280-286 | a smaller key, or an equal key that stood earlier, goes first |
| TreeShape.ContainersPartitionRoot | src/vllm_observer/exporter.py:147-166 | API, transfer and engine segments share out the request: each of its instants lies in exactly one |
| TreeShape.PlaceKeepsMidpoint | src/vllm_observer/exporter.py:246-263 | a drawn call is the non-empty part of the measured call inside the segment of its midpoint |
| TreeShape.PlacedIff | src/vllm_observer/exporter.py:246-262 | a call can be placed iff it has positive length and its midpoint lies in the request |
| TreeShape.CallIsDrawn | src/vllm_observer/exporter.py:246-266 | each such call is drawn, in the order of recording |
| TreeShape.DetailIsNested | src/vllm_observer/exporter.py:246-279 | a drawn call is cut to the segment of its midpoint; its parent is the last submit_engine call iff it is the last input_process or output_processor_add and lies inside that call, and else the segment |
| TreeShape.RequestIsCut | src/vllm_observer/exporter.py:147-171 | the request is cut into api_prepare, generate-response and response_transfer at the generation's stamps |
| TreeShape.MovedSharesContainer | src/vllm_observer/exporter.py:267-279 | a call moved under the submit call had the same container |
| TreeShape.EveryNodeHasParent | src/vllm_observer/exporter.py:147-279 | every node but the root has its parent in the list and lies inside it |
| TreeShape.EveryNodeReachesRoot | src/vllm_observer/exporter.py:147-279 | re-parenting makes no cycle: from every node, following parents leads to the root within four steps |
| TreeShape.UnsortedIds | src/vllm_observer/exporter.py:147-279 | node ids are distinct |
| SpanExport.Walk | src/vllm_observer/exporter.py:465-483 | the span walk succeeds iff each parent was opened before its child, and otherwise fails at an orphan; spans end in reverse |
| SpanExport.Export | src/vllm_observer/exporter.py:416-483 | the sink succeeds iff the builder does and no span of the filtered list is an orphan |
| SpanExport.UnsortedIsTree | src/vllm_observer/exporter.py:147-279 | the node list is one acyclic tree of nested intervals with distinct ids |
| SpanExport.TreeWalkIff | src/vllm_observer/exporter.py:280-286 | for any nested intervals, the ordering puts parents first iff no child of exactly its parent's interval was listed before it |
| SpanExport.ExportedIff | src/vllm_observer/exporter.py:416-483 | a node is exported iff it has time, an end of zero standing for the end of the request |
| SpanExport.ExportSucceedsIff | src/vllm_observer/exporter.py:267-287 | a well-timed closed request exports iff no last input_process or output_processor_add was recorded before a last submit_engine of the same clipped interval |
| SpanExport.ClippingCanOrphan | src/vllm_observer/exporter.py:259-286 | for either inner call: two calls that straddle one short segment, the one strictly inside the other, make the export fail |
| SpanExport.ChildrenEndFirst | src/vllm_observer/exporter.py:660-662 | in the exported batch every span ends before its parent |
| SpanExport.OpenGenerationFails | src/vllm_observer/exporter.py:283-286 | an open generation has no sort key, so its request never exports |
| TreeAudit.Audit | scripts/verify_langfuse.py:57-108 | the audit loops accept exactly the trees whose rows lie in their parents and whose two levels add up |
| TreeAudit.SoundIff | scripts/verify_langfuse.py:57-108 | sound means: no row ends before it starts or leaves its parent, and the children of serve-request and generate-response add up to them |
| TreeAudit.TotalPermutes | scripts/verify_langfuse.py:84-108 | a level's sum does not depend on the order of rows |
| TreeAudit.UnsortedTotals | src/vllm_observer/exporter.py:147-171 | the children of the root, and of the generation, add up to it exactly |
| TreeAudit.AuditAcceptsExports | scripts/verify_langfuse.py:57-108 | every exported tree passes, exactly, in whatever order its rows are read |
| RequestTraces.RequestTrace.Begin | src/vllm_observer/core.py:66-78 | a generation is opened at the current stamp, with an id never used before |
| RequestTraces.RequestTrace.RecordSpan | src/vllm_observer/core.py:80-93 | a span is recorded iff its stamps are in order |
| RequestTraces.RequestTrace.RecordCall | src/vllm_observer/core.py:98-113 | a measured call is recorded with truncated stamps |
| RequestTraces.CallStamps | src/vllm_observer/core.py:98-113 | its stamps are the truncated nanoseconds since the request started |
| RequestTraces.AddStageTotals | src/vllm_observer/core.py:95-96 | a stage gains a count and a positive duration, and no other stage changes |
| RequestTraces.TimedCallTotals | src/vllm_observer/stages.py:103-109 | a timed call adds one to the count of its stage and its duration to the total |
| RequestTraces.RequestTrace.Finish | src/vllm_observer/core.py:115-133 | the total is added last and the event carries what was recorded |
| RequestTraces.FinishedTotals | src/vllm_observer/core.py:115-116 | finishing adds the time since the start to the total, once, and touches nothing else |
| Clock.TruncMonotone | src/vllm_observer/core.py:63-64 | truncation toward zero keeps order |
| EndToEnd.StepSane | src/vllm_observer/core.py:63-113 | every operation on a trace keeps its stamps ordered and its ids distinct |
| EndToEnd.EngineRequestsCounted | src/vllm_observer/adapter.py:121-123 | over every run each finished engine request is counted once, whatever became of its statistics |
| EndToEnd.AbsorbSane | src/vllm_observer/adapter.py:122-133 | engine statistics, good or bad, keep a trace's stamps ordered and its ids distinct |
| EndToEnd.RunsAreWellTimed | src/vllm_observer/core.py:63-133 | every run that closes its generation meets the builder's assumptions |
| EndToEnd.EveryRunExportsExactly | src/vllm_observer/exporter.py:125-171 | for every run, preparation, generation and transfer add up to the truncated total, the export succeeds iff nothing collides, and what is exported passes the audit |
| EndToEnd.EveryRunExportsIff | src/vllm_observer/exporter.py:416-483 | for every run, the request is exported iff its generation was closed and nothing collides |
| EndToEnd.RequestEndsAtLastReading | src/vllm_observer/exporter.py:416-417 | the drawn request ends at the stamp of the reading that ended it |
| DrawnPhases.StepPhases | src/vllm_observer/adapter.py:116-133 | accepted statistics replace queue, prefill and decode at once, and nothing else touches any of them |
| DrawnPhases.PhasesComeTogether | src/vllm_observer/adapter.py:47-64 | no run records one of queue, prefill and decode without the other two |
| DrawnPhases.HeldPhasesAreDrawn | src/vllm_observer/exporter.py:135-240 | phases inside the generation are drawn each between its own stamps, save that a later waiting span pushes them back |
| DrawnPhases.StepWait | src/vllm_observer/stages.py:457-476 | an accepted measurement of the wait replaces the last one, by its converted ends, and nothing else touches it |
| DrawnPhases.LastWaitIsRecorded | src/vllm_observer/stages.py:457-476 | after any run the recorded wait is that of the last operation whose measurement was accepted |
| DrawnPhases.AcceptedPhasesAreDrawn | src/vllm_observer/exporter.py:135-240 | over every run the five stages are drawn by name from the statistics accepted last for the open first generation, with waiting from the converted entry into the queue that was accepted last |
| EndToEnd.RunCanOrphan | src/vllm_observer/stages.py:76-90 | for either inner call: a run in the order `generate` produces, with both calls inside the generation, whose request cannot be exported |
| EngineClock.StampOutputs | src/vllm_observer/engine_clock.py:13-32 | finished outputs gain the three clock headers over their own; other outputs are untouched |
| EngineClock.SampleReadsBack | src/vllm_observer/adapter.py:26-31 | the API process reads back the very sample the engine took, and other headers are kept |
| EngineClock.CalibrationBound | src/vllm_observer/engine_clock.py:23-30 | a converted stamp misses the true wall time by less than half the calibration error plus one nanosecond |
| EngineClock.CalibrationBoundIsTight | src/vllm_observer/engine_clock.py:23-30 | half the calibration error is really reached |
| EngineClock.StampMonotone | src/vllm_observer/adapter.py:39-41 | conversion keeps the order of engine edges |
| EngineClock.StampDuration | src/vllm_observer/adapter.py:39-51 | a converted duration is within two nanoseconds of the raw one, within one on one side of the calibration |
| EngineStats.RecordTimelineOn | src/vllm_observer/adapter.py:16-64 | the recorder's steps give the specified trace: usage, the reason when refused, or three spans |
| EngineStats.AcceptedIff | src/vllm_observer/adapter.py:26-45 | a timeline is accepted iff there are a clock and four positive edges in order inside the window; else the reason is the first that fails |
| EngineStats.TimelineDetail | src/vllm_observer/adapter.py:17-46 | tokens and sequences are added, and the first-token stamp of the first accepted timeline starts the completion |
| EngineStats.UntoldGeneration | src/vllm_observer/core.py:66-78 | a generation starts without usage or counters |
| EngineStats.TimelineFrame | src/vllm_observer/adapter.py:47-64 | it appends the three phases iff they are accepted and there is a token count, and nothing else |
| EngineStats.RequestTotals | src/vllm_observer/adapter.py:123-128 | queue and prefill time are added once, decode time once a token after the first |
| EngineStats.RecordStagesOn | src/vllm_observer/stages.py:416-498 | the engine-stage recorder's steps give the specified trace, which the next three rows describe |
| EngineStats.StageSpansRecorded | src/vllm_observer/stages.py:444-496 | it appends the span from the converted queue entry to the converted first schedule iff these are in the window, and then that of the executions iff those are |
| EngineStats.StageDetail | src/vllm_observer/stages.py:427-463 | it copies five counters of the record, and the reason when there is no waiting span |
| EngineStats.StageTotalsAdded | src/vllm_observer/stages.py:433-442 | it adds the scheduling and execution time of the record to their totals, over at least one step each, and to no other |
| EngineStats.AbsorbInto | src/vllm_observer/adapter.py:116-133 | all that one finished engine request adds to its trace, up to the exception that a missing token count raises |
| EngineStats.AbsorbAppends | src/vllm_observer/adapter.py:122-133 | the spans it appends are exactly the accepted phases and then the accepted spans of the registry |
| EngineStats.AcceptedSpansChain | src/vllm_observer/adapter.py:39-64 | accepted spans chain from queue to decode inside the generation's window |
| EngineStats.AcceptedDurationsAreTrue | src/vllm_observer/adapter.py:39-64 | each accepted span is as long as the engine measured, to within truncation |
| EngineStats.AcceptedSpansAreTrue | src/vllm_observer/adapter.py:30-39 | both ends of an accepted span are within the calibration bound of the true wall time |
| EngineStats.TotalsAccumulate | src/vllm_observer/adapter.py:17-25 | over any parallel sequences, usage, stage totals and request count are exactly the sums, with or without token counts |
| EngineStats.OrderedEdgesNeedOnlyTheWindow | src/vllm_observer/adapter.py:36-45 | ordered edges are accepted iff they fall in the window |
| EngineStats.RegistryWaitNeedsOnlyTheWindow | src/vllm_observer/stages.py:459-463 | a waiting interval from the registry is refused only by the window |
| Correlation.Adapter.ObserveBegin | src/vllm_observer/adapter.py:87-95 | a traced call opens a generation and takes over its id; only its own trace changes |
| Correlation.Adapter.ObserveStats | src/vllm_observer/adapter.py:116-133 | statistics change only the trace their id stands for |
| Correlation.Adapter.ObserveClose | src/vllm_observer/adapter.py:107-113 | closing stamps the call's own generation, as ClosedGenerations.CloseStampsOwnGeneration says, and drops the id |
| Correlation.Adapter.ObserveCall | src/vllm_observer/stages.py:98-109 | a timed call changes only the trace of the request it serves |
| Correlation.NonInterference | src/vllm_observer/adapter.py:85-136 | a trace whose running ids no other uses ends as if only its own events had happened, whatever ids the others share |
| Correlation.UniqueIdsKeepApart | src/vllm_observer/adapter.py:93-94 | ids that are unique while they run meet that for every trace |
| CorrelatedRuns.EachTraceReplays | src/vllm_observer/adapter.py:85-136 | however requests interleave, each trace is its own operations, read off the history, replayed in order |
| ClosedGenerations.CloseStampsOwnGeneration | src/vllm_observer/adapter.py:107-113 | a close stamps the one generation that its call began with its own reading, and changes nothing else in any trace |
| ClosedGenerations.ClosedCallsCloseGenerations | src/vllm_observer/adapter.py:107-113 | once a trace's calls have closed every generation it recorded has its end |
| ClosedGenerations.EveryClosedRequestExports | src/vllm_observer/exporter.py:125-171 | a request that finishes amid others with its calls closed adds up exactly, exports iff nothing collides, and passes the audit |
| Correlation.LateStatisticsChangeNothing | src/vllm_observer/adapter.py:119-121 | statistics for an id with no running call change nothing |
| Correlation.SharedIdMisattributes | src/vllm_observer/adapter.py:93-94 | with one id in flight twice the first trace loses its statistics to the second |
| StageRegistry.Registry.AddRequest | src/vllm_observer/stages.py:206-215 | the record is created once and its entry time kept |
| StageRegistry.Registry.ObserveSchedule | src/vllm_observer/stages.py:217-255 | the two loops step scheduled requests and charge contention to those in mid-prefill |
| StageRegistry.Registry.RecordExecute | src/vllm_observer/stages.py:345-362 | an execution is added to each listed request that has a record |
| StageRegistry.Registry.AttachStages | src/vllm_observer/stages.py:372-383 | the record is handed over and removed, unless the id is empty |
| StageRegistry.SummaryOfMore | src/vllm_observer/stages.py:217-255 | the closed-form summary of a history follows each update of the record |
| StageRegistry.RegistryRefinesHistory | src/vllm_observer/stages.py:206-255 | after any calls a request has a record iff added and not yet attached, and the record is the summary of its own history |
| StageRegistry.AbsentStaysAbsent | src/vllm_observer/stages.py:224-227 | steps and executions outside a request's life have no effect on it |
| StageRegistry.ContentionIsExact | src/vllm_observer/stages.py:242-252 | between first step and first small step, all non-empty steps are the request's own or contention, in number and duration |
| StageRegistry.CallsServeOrContend | src/vllm_observer/stages.py:217-255 | counted over the calls themselves: from its first step until a small step, each call that scheduled anything served the request or is in its contention |
| StageRegistry.ReportedContentionIsExact | src/vllm_observer/stages.py:217-255 | the contention a request is handed over with is those calls less those that served it, whatever came after |
| StageRegistry.ContentionOnlyInWindow | src/vllm_observer/stages.py:246-250 | outside that window contention does not move |
| StageRegistry.RecordsAreConsistent | src/vllm_observer/stages.py:37-56 | counters agree, at most 512 intervals are kept, and total execution time is that of all executions |
| StageRegistry.WaitingPrecedesSchedule | src/vllm_observer/stages.py:206-229 | a request enters the queue no later than its first step |
| ExportQueue.ExportFilter.Process | src/vllm_observer/exporter.py:304-313 | an uninterrupted offer queues the event, or drops it when stopping or full |
| ExportQueue.ExportFilter.ReadStop | src/vllm_observer/exporter.py:315-316 | the worker's read of the stop flag, by itself |
| ExportQueue.ExportFilter.TestQueue | src/vllm_observer/exporter.py:315-316 | its test for emptiness, by itself |
| ExportQueue.ExportFilter.GetNext | src/vllm_observer/exporter.py:317-320 | its fetch: the oldest event, or back to the guard |
| ExportQueue.ExportFilter.FetchOne | src/vllm_observer/exporter.py:315-320 | an uninterrupted pass hands over the oldest event, times out, or leaves |
| ExportQueue.OffersAreConserved | src/vllm_observer/exporter.py:304-327 | in every reachable state each offer is exported, failed, dropped, queued, in hand or pending, and the queue is bounded |
| ExportQueue.CountersAreExact | src/vllm_observer/exporter.py:304-327 | over every run failed and exported are the sink's calls that raised and returned, dropped the offers after the stop and the puts that found the queue full, and accepted the puts that found room |
| ExportQueue.SinkSeesPrefix | src/vllm_observer/exporter.py:315-327 | the sink has been handed a prefix of the accepted events, in order and once each |
| ExportQueue.ExitNeedsStopAndEmpty | src/vllm_observer/exporter.py:315-316 | the worker leaves only with the flag set and the queue empty |
| ExportQueue.StrandedWerePending | src/vllm_observer/exporter.py:304-316 | what is left behind was between check and put when the flag was set |
| ExportQueue.StrandsIffPending | src/vllm_observer/exporter.py:304-332 | after the worker has gone an event can be stranded iff a producer is between check and put |
| ExportQueue.AcceptedEventCanBeLost | src/vllm_observer/exporter.py:304-332 | an accepted event can outlive the worker |
| ExportQueue.DrainCompletes | src/vllm_observer/exporter.py:315-332 | once puts have ceased the worker leaves after a bounded number of its own steps, with every accepted event delivered |
| RemoteWriter.Writer.PushSnapshot | src/vllm_observer/remote_write.py:105-120 | a push uses up a fresh timestamp whether or not it is delivered |
| RemoteWriter.TimestampClosedForm | src/vllm_observer/remote_write.py:115-120 | over every run the n-th timestamp is the larger of n and the best reading so far plus the pushes since |
| RemoteWriter.TimestampsStrictlyIncrease | src/vllm_observer/remote_write.py:115-120 | timestamps strictly increase over every run |
| RemoteWriter.PushCarriesLastCheck | src/vllm_observer/remote_write.py:115-156 | over every run a push of the loop is alive, and healthy iff the one health check since the last push succeeded; the final push is neither |
| RemoteWriter.AliveThenGone | src/vllm_observer/remote_write.py:137-156 | every run pushes alive samples and then at most one that is neither alive nor healthy; failures are counted exactly |
| RemoteWriter.StopIsBounded | src/vllm_observer/remote_write.py:142-156 | after a stop request, steps and pushes done and left add up exactly |
| RemoteWriter.StopCompletes | src/vllm_observer/remote_write.py:142-161 | the loop is over within five of its own steps and two pushes, can always take the next, and then the close returns |
| RemoteWriter.PushAfterCloseIff | src/vllm_observer/remote_write.py:137-161 | after a close has returned a push is possible iff the writer was never started |
| RemoteWriter.ClosedWriterStillPushes | src/vllm_observer/remote_write.py:137-161 | a run that closes the writer, starts it, and pushes |
| RequestLifecycle.OkIff | src/vllm_observer/middleware.py:156-208 | the status is ok iff the application returned, nothing spoiled the response, and the last body message was final |
| RequestLifecycle.OtherStatuses | src/vllm_observer/middleware.py:156-208 | every other status has its stated cause |
| RequestLifecycle.FirstBodyIff | src/vllm_observer/middleware.py:191-195 | the first body is noted once a body message was not empty |
| RequestLifecycle.Tracer.Finish | src/vllm_observer/middleware.py:199-208 | the final status of a request from its outcome |
| CapturedContent.ParseResponse | src/vllm_observer/middleware.py:232-262 | the parser's branches and loops give the specified reading, or the exception it raises |
| CapturedContent.ExtractFailsIff | src/vllm_observer/middleware.py:232-262 | it raises iff the body is JSON of a shape it cannot read |
| CapturedContent.DocumentFaults | src/vllm_observer/middleware.py:241-244 | which exception an unreadable document raises |
| CapturedContent.FalsyValues | src/vllm_observer/middleware.py:241-260 | the parsed values that count as nothing |
| CapturedContent.PlainBodies | src/vllm_observer/middleware.py:233-240 | no body reads as nothing, and a body that is not JSON as its own text |
| CapturedContent.DocumentReads | src/vllm_observer/middleware.py:236-244 | a readable document gives its first choice's content, or its own |
| CapturedContent.StreamReads | src/vllm_observer/middleware.py:245-262 | a readable stream gives the text of its chunks' pieces in order, or nothing |
| CapturedContent.StreamReadsBack | src/vllm_observer/middleware.py:245-262 | an answer streamed in any pieces is read back whole |
| RequestLifecycle.EachRequestEmitsOnce | src/vllm_observer/middleware.py:139-219 | however requests interleave, each emits exactly one event with the status of its own messages, or none when its captured response cannot be read |
| RequestLifecycle.InflightCounts | src/vllm_observer/middleware.py:152-219 | the gauge counts the open requests plus those whose response could not be read, which are the finished ones with no event |
| RequestLifecycle.InflightExactIff | src/vllm_observer/middleware.py:209-219 | the gauge is exact, and every finished request emitted, iff no request ended with a captured response that cannot be read |
| RequestLifecycle.GaugeCanLeak | src/vllm_observer/middleware.py:209-219 | one answered request with an empty JSON list for a body leaves the gauge at one and emits nothing |

## Left out

- OpenTelemetry, OTLP, protobuf, Snappy, HTTP and prometheus_client: a span is a node that is opened and closed, a push or an export succeeds or fails.
- Span attributes, names with a process prefix, milliseconds, TPOT thresholds and the environment settings: one-branch facts that change no structure.
- Metadata of spans and segments, such as token counts and calibration error: it is copied, never computed with.
- Head sampling of successful requests: the export is modelled for the requests that are kept.
- Rounding of floating point numbers: durations are exact reals, so the truncations are those of exact values.
- Import hooks, method patching and the executor wrapper's error paths: the wrapped effects are atomic steps.
- The proxy for executor futures, which the executor wrapper does not use, and the deadline guard, which rests on code outside the repository.
- Collecting captured chunks, their size limit, decoding, splitting into lines and the JSON syntax: a captured body comes with its lines and their parsed values. Request bodies, whose reading never raises, and headers.
- Lost updates of counters between threads, cancellation inside the push loop, and exceptions other than those named.
- Shared references to detail nodes: the list index of a node stands for the reference, so rewriting a node rewrites the list entry.
- The audit's check of expected names, token counts and means: only its containment and sum loops are modelled, in exact nanoseconds where the script allows a microsecond.
- RequestTraces.RequestTrace.Finish: leaves out the fields that are only copied into the event, such as the route, the payload and the user.
- ExportQueue.ExportFilter.constructor: assumes a capacity of at least one, where the code raises an error before it builds anything.
