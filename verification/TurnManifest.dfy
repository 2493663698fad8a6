/** The per-turn manifest of crates/chat-session-worker/src/lib.rs: its event list, its
    derived statuses and optional timestamps, and the finalising edit. */
module TurnManifest {
  import opened Prelude
  import opened Llm

  /** `turn_stream_mode`; the worker's parser admits the first two, the renderers take any string. */
  datatype StreamMode = Buffered | Streaming | UnknownMode

  datatype Job = Job(turnId: string, streamMode: StreamMode, startedAt: Time)

  datatype EventKind =
    | TurnStarted | ProviderRequested | ProviderResponded
    | FirstTokenEmitted | StreamCompleted | StreamFailed
    | ArtifactCommitReady | ToolCallsEmitted | ToolLoopCompleted | ToolLoopFailed
    | ArtifactCommitFailed | TurnFailed
    | AssistantMessagePersisted | TurnCompleted

  datatype TurnEvent = TurnEvent(
    kind: EventKind,
    at: Time,
    requestId: Option<string>,
    finishReason: Option<string>,
    toolTraceCount: Option<nat>)

  datatype TurnStatus = TurnPending | TurnIsFailed | TurnIsCompleted
  datatype ProviderStatus = AwaitingProvider | Responded | ProviderFailed
  datatype StreamStatus = NotStreamed | StreamPending | StreamDone | StreamBroken
  datatype ToolLoopStatus = NotRequested | LoopPending | LoopFailed | LoopCompleted
  datatype CommitStatus = NotReady | CommitPending | CommitFailed | Committed

  datatype CommitSource =
    | WorkflowEventRecoveryPersist | ResponseReadySessionUpdate | AssistantMessageCreate
    | AssistantMessageManifestUpdate | LlmInvocationPersist | ToolExecutionPersist
    | SessionContextUpdate

  datatype ToolSummary = ToolSummary(requested: nat, completed: nat, failed: nat)

  /** A recoverable copy of an answer with the instant it was captured. */
  datatype Copy = Copy(answer: Answer, capturedAt: Time)

  datatype Manifest = Manifest(
    turnId: string,
    status: TurnStatus,
    streamStatus: StreamStatus,
    commitStatus: CommitStatus,
    providerStatus: ProviderStatus,
    toolLoopStatus: ToolLoopStatus,
    requestId: Option<string>,
    requestedAt: Time,
    respondedAt: Option<Time>,
    firstTokenAt: Option<Time>,
    streamCompletedAt: Option<Time>,
    commitReadyAt: Option<Time>,
    commitFailureSource: Option<CommitSource>,
    toolCallsEmittedAt: Option<Time>,
    toolLoopSettledAt: Option<Time>,
    finishReason: Option<string>,
    messageId: Option<nat>,
    persistedAt: Option<Time>,
    toolTraceCount: nat,
    summary: Option<ToolSummary>,
    recovery: Option<Copy>,
    events: seq<TurnEvent>,
    completedAt: Option<Time>)

  // ----- Event tables -----------------------------------------------------------------

  /** One potential event and whether this turn emits it. */
  datatype Row = Row(event: TurnEvent, on: bool)

  function Emit(r: Row): seq<TurnEvent> {
    if r.on then [r.event] else []
  }

  /** The events of the rows that are switched on, in table order. */
  function Select(t: seq<Row>): seq<TurnEvent> {
    if t == [] then [] else Select(t[..|t| - 1]) + Emit(t[|t| - 1])
  }

  lemma {:induction false} SelectSnoc(t: seq<Row>, r: Row)
    ensures Select(t + [r]) == Select(t) + Emit(r)
  {
    assert (t + [r])[..|t|] == t;
  }

  lemma {:induction false} SelectNil()
    ensures Select([]) == []
  {
  }

  lemma {:induction false} SelectAppend(a: seq<Row>, b: seq<Row>)
    ensures Select(a + b) == Select(a) + Select(b)
    decreases |b|
  {
    hide Select, Emit;
    SelectNil();
    if b == [] {
      assert a + b == a;
    } else {
      var rest, last := b[..|b| - 1], b[|b| - 1];
      SelectAppend(a, rest);
      SelectSnoc(rest, last);
      SelectSnoc(a + rest, last);
      assert b == rest + [last];
      ConcatAssoc(a, rest, [last]);
      ConcatAssoc(Select(a), Select(rest), Emit(last));
    }
  }

  lemma {:induction false} SelectThree(t: seq<Row>)
    requires |t| == 3
    ensures Select(t) == Emit(t[0]) + Emit(t[1]) + Emit(t[2])
  {
    SelectSnoc(t[..2], t[2]);
    SelectSnoc(t[..1], t[1]);
    SelectSnoc(t[..0], t[0]);
    assert t == t[..2] + [t[2]] && t[..2] == t[..1] + [t[1]] && t[..1] == t[..0] + [t[0]] && t[..0] == [];
  }

  predicate Lists(es: seq<TurnEvent>, k: EventKind) {
    exists i :: 0 <= i < |es| && es[i].kind == k
  }

  predicate DistinctKinds(es: seq<TurnEvent>) {
    forall i, j :: 0 <= i < j < |es| ==> es[i].kind != es[j].kind
  }

  predicate Chronological(es: seq<TurnEvent>) {
    forall i, j :: 0 <= i < j < |es| ==> es[i].at <= es[j].at
  }

  function CountKind(es: seq<TurnEvent>, k: EventKind): nat {
    if es == [] then 0
    else CountKind(es[..|es| - 1], k) + if es[|es| - 1].kind == k then 1 else 0
  }

  predicate TableDistinct(t: seq<Row>) {
    forall i, j :: 0 <= i < j < |t| ==> t[i].event.kind != t[j].event.kind
  }

  /** Rows that are off impose no order. */
  predicate TableChronological(t: seq<Row>) {
    forall i, j :: 0 <= i < j < |t| && t[i].on && t[j].on ==> t[i].event.at <= t[j].event.at
  }

  lemma {:induction false} SelectFrom(t: seq<Row>, k: nat) returns (i: nat)
    requires k < |Select(t)|
    ensures i < |t| && t[i].on && t[i].event == Select(t)[k]
  {
    if k < |Select(t[..|t| - 1])| {
      i := SelectFrom(t[..|t| - 1], k);
    } else {
      i := |t| - 1;
    }
  }

  lemma {:induction false} SelectHas(t: seq<Row>, i: nat)
    requires i < |t| && t[i].on
    ensures Lists(Select(t), t[i].event.kind)
  {
    var es := Select(t);
    if i < |t| - 1 {
      SelectHas(t[..|t| - 1], i);
      var j :| 0 <= j < |Select(t[..|t| - 1])| && Select(t[..|t| - 1])[j].kind == t[i].event.kind;
      assert es[j].kind == t[i].event.kind;
    } else {
      assert es[|es| - 1] == t[i].event;
    }
  }

  /** A kind is listed exactly when the row that carries it is on. */
  lemma {:induction false} SelectLists(t: seq<Row>, i: nat)
    requires TableDistinct(t) && i < |t|
    ensures Lists(Select(t), t[i].event.kind) <==> t[i].on
  {
    if t[i].on {
      SelectHas(t, i);
    } else if Lists(Select(t), t[i].event.kind) {
      var j :| 0 <= j < |Select(t)| && Select(t)[j].kind == t[i].event.kind;
      var _ := SelectFrom(t, j);
    }
  }

  lemma {:induction false} SelectDistinct(t: seq<Row>)
    requires TableDistinct(t)
    ensures DistinctKinds(Select(t))
  {
    if t != [] {
      var rest := t[..|t| - 1];
      SelectDistinct(rest);
      forall k | 0 <= k < |Select(rest)| ensures Select(rest)[k].kind != t[|t| - 1].event.kind {
        var i := SelectFrom(rest, k);
        assert t[i] == rest[i];
      }
    }
  }

  lemma {:induction false} SelectChronological(t: seq<Row>)
    requires TableChronological(t)
    ensures Chronological(Select(t))
  {
    if t != [] {
      var rest := t[..|t| - 1];
      SelectChronological(rest);
      if t[|t| - 1].on {
        forall k | 0 <= k < |Select(rest)| ensures Select(rest)[k].at <= t[|t| - 1].event.at {
          var i := SelectFrom(rest, k);
          assert t[i] == rest[i];
        }
      }
    }
  }

  lemma {:induction false} SelectPrefix(t: seq<Row>, n: nat)
    requires n <= |t|
    ensures Select(t[..n]) <= Select(t)
    decreases |t|
  {
    if n < |t| {
      SelectPrefix(t[..|t| - 1], n);
      assert t[..|t| - 1][..n] == t[..n];
    } else {
      assert t[..n] == t;
    }
  }

  lemma {:induction false} CountDistinct(es: seq<TurnEvent>, k: EventKind)
    requires DistinctKinds(es)
    ensures CountKind(es, k) == if Lists(es, k) then 1 else 0
  {
    if es != [] {
      var rest := es[..|es| - 1];
      CountDistinct(rest, k);
      assert Lists(es, k) <==> Lists(rest, k) || es[|es| - 1].kind == k by {
        if Lists(rest, k) {
          var i :| 0 <= i < |rest| && rest[i].kind == k;
          assert es[i].kind == k;
        }
        if es[|es| - 1].kind == k { assert Lists(es, k); }
        if Lists(es, k) && es[|es| - 1].kind != k {
          var i :| 0 <= i < |es| && es[i].kind == k;
          assert rest[i].kind == k;
        }
      }
      if Lists(rest, k) {
        var i :| 0 <= i < |rest| && rest[i].kind == k;
        assert es[i].kind == k;
      }
    }
  }

  // ----- Derived statuses and timestamps ----------------------------------------------

  function StatusOf(runtime: Runtime): ProviderStatus {
    if Errored(runtime) then ProviderFailed else Responded
  }

  function StreamOf(mode: StreamMode, provider: ProviderStatus): StreamStatus {
    if mode != Streaming then NotStreamed
    else match provider
      case AwaitingProvider => StreamPending
      case Responded => StreamDone
      case ProviderFailed => StreamBroken
  }

  function When(b: bool, t: Time): Option<Time> {
    if b then Some(t) else None
  }

  function FirstTokenAt(mode: StreamMode, provider: ProviderStatus, t: Time): Option<Time> {
    When(mode == Streaming && provider == Responded, t)
  }

  function StreamCompletedAt(mode: StreamMode, provider: ProviderStatus, t: Time): Option<Time> {
    When(mode == Streaming && provider != AwaitingProvider, t)
  }

  function CommitReadyAt(mode: StreamMode, provider: ProviderStatus, t: Time): Option<Time> {
    if mode == Buffered && provider == Responded then Some(t)
    else When(StreamOf(mode, provider) == StreamDone, t)
  }

  function RespondedAt(runtime: Runtime, t: Time): Option<Time> {
    When(runtime.failure.None? || ReachedProvider(runtime.failure.value.kind), t)
  }

  predicate AnyCall(calls: seq<ToolCall>, status: CallStatus) {
    exists i :: 0 <= i < |calls| && calls[i].status == status
  }

  /** Unsettled work outranks failure; an empty list was never requested. */
  function LoopOf(calls: seq<ToolCall>): ToolLoopStatus {
    if calls == [] then NotRequested
    else if AnyCall(calls, Requested) then LoopPending
    else if AnyCall(calls, Failed) then LoopFailed
    else LoopCompleted
  }

  function LoopSettledAt(calls: seq<ToolCall>, t: Time): Option<Time> {
    When(LoopOf(calls) == LoopCompleted || LoopOf(calls) == LoopFailed, t)
  }

  function CountStatus(calls: seq<ToolCall>, status: CallStatus): nat {
    if calls == [] then 0
    else CountStatus(calls[..|calls| - 1], status)
         + if calls[|calls| - 1].status == status then 1 else 0
  }

  function SummaryOf(calls: seq<ToolCall>): Option<ToolSummary> {
    if calls == [] then None
    else Some(ToolSummary(CountStatus(calls, Requested), CountStatus(calls, Completed),
                          CountStatus(calls, Failed)))
  }

  lemma {:induction false} CountPositive(calls: seq<ToolCall>, status: CallStatus)
    ensures CountStatus(calls, status) > 0 <==> AnyCall(calls, status)
  {
    if calls != [] {
      var rest := calls[..|calls| - 1];
      CountPositive(rest, status);
      if AnyCall(rest, status) {
        var i :| 0 <= i < |rest| && rest[i].status == status;
        assert calls[i].status == status;
      }
      if calls[|calls| - 1].status == status {
        assert AnyCall(calls, status);
      } else if AnyCall(calls, status) {
        var i :| 0 <= i < |calls| && calls[i].status == status;
        assert rest[i].status == status;
      }
    }
  }

  /** The three counts partition the list, and alone determine the tool-loop status. */
  lemma {:induction false} CountsPartition(calls: seq<ToolCall>)
    ensures CountStatus(calls, Requested) + CountStatus(calls, Completed)
            + CountStatus(calls, Failed) == |calls|
    ensures LoopOf(calls) ==
            if |calls| == 0 then NotRequested
            else if CountStatus(calls, Requested) > 0 then LoopPending
            else if CountStatus(calls, Failed) > 0 then LoopFailed
            else LoopCompleted
  {
    CountPositive(calls, Requested);
    CountPositive(calls, Failed);
    if calls != [] {
      CountsPartition(calls[..|calls| - 1]);
    }
  }

  /** `render_tool_status_summary`: one pass with three counters. */
  method ToolStatusSummary(calls: seq<ToolCall>) returns (summary: Option<ToolSummary>)
    ensures summary == SummaryOf(calls)
    ensures summary.Some? ==>
              summary.value.requested + summary.value.completed + summary.value.failed == |calls|
  {
    if |calls| == 0 { return None; }
    var requested, completed, failed := 0, 0, 0;
    for n := 0 to |calls|
      invariant requested == CountStatus(calls[..n], Requested)
      invariant completed == CountStatus(calls[..n], Completed)
      invariant failed == CountStatus(calls[..n], Failed)
    {
      assert calls[..n + 1][..n] == calls[..n];
      match calls[n].status {
        case Requested => requested := requested + 1;
        case Completed => completed := completed + 1;
        case Failed => failed := failed + 1;
      }
    }
    assert calls[..|calls|] == calls;
    CountsPartition(calls);
    summary := Some(ToolSummary(requested, completed, failed));
  }

  /** `render_tool_loop_status`: one pass with two counters. */
  method ToolLoop(calls: seq<ToolCall>) returns (status: ToolLoopStatus)
    ensures status == LoopOf(calls)
  {
    if |calls| == 0 { return NotRequested; }
    var requested, failed := 0, 0;
    for n := 0 to |calls|
      invariant requested == CountStatus(calls[..n], Requested)
      invariant failed == CountStatus(calls[..n], Failed)
    {
      assert calls[..n + 1][..n] == calls[..n];
      match calls[n].status {
        case Requested => requested := requested + 1;
        case Completed =>
        case Failed => failed := failed + 1;
      }
    }
    assert calls[..|calls|] == calls;
    CountsPartition(calls);
    status := if requested > 0 then LoopPending else if failed > 0 then LoopFailed else LoopCompleted;
  }

  // ----- The three event renderers ------------------------------------------------------

  /** An event that repeats the provider's request id, finish reason and trace count. */
  function Detailed(kind: EventKind, at: Time, requestId: Option<string>,
                    reason: Option<string>, count: nat): TurnEvent {
    TurnEvent(kind, at, requestId, reason, Some(count))
  }

  function Told(rt: Runtime, kind: EventKind, at: Time): TurnEvent {
    Detailed(kind, at, rt.requestId, Reason(rt), rt.toolTraceCount)
  }

  function ToldFailed(rt: Option<Runtime>, kind: EventKind, at: Time): TurnEvent {
    Detailed(kind, at, FailedRequestId(rt), Some(FailedReason(rt)), FailedCount(rt))
  }

  function Bare(kind: EventKind, at: Time, requestId: Option<string>): TurnEvent {
    TurnEvent(kind, at, requestId, None, None)
  }

  function Reason(runtime: Runtime): Option<string> {
    if runtime.finishReason.Some? then Some(Wire(runtime.finishReason.value)) else None
  }

  /** The three blocks of rows that the renderers have in common. */
  function HeadRows(started: TurnEvent, requested: TurnEvent, asked: bool, responded: TurnEvent,
                    replied: bool): seq<Row> {
    [Row(started, true), Row(requested, asked), Row(responded, replied)]
  }

  function StreamRows(stream: StreamStatus, first: TurnEvent, done: TurnEvent, broken: TurnEvent): seq<Row> {
    [Row(first, stream == StreamDone), Row(done, stream == StreamDone), Row(broken, stream == StreamBroken)]
  }

  function ToolRows(traced: bool, loop: ToolLoopStatus, emitted: TurnEvent, completed: TurnEvent,
                    failed: TurnEvent): seq<Row> {
    [Row(emitted, traced), Row(completed, traced && loop == LoopCompleted), Row(failed, traced && loop == LoopFailed)]
  }

  /** The rows of `render_chat_turn_events`. */
  function MessageTable(job: Job, rt: Runtime, calls: seq<ToolCall>,
                        requestedAt: Time, respondedAt: Time): seq<Row> {
    HeadRows(Bare(TurnStarted, job.startedAt, None),
             Bare(ProviderRequested, requestedAt, rt.requestId), rt.requestId.Some?,
             Told(rt, ProviderResponded, respondedAt), true)
    + StreamRows(StreamOf(job.streamMode, StatusOf(rt)), Told(rt, FirstTokenEmitted, respondedAt),
                 Told(rt, StreamCompleted, respondedAt), Told(rt, StreamFailed, respondedAt))
    + ToolRows(rt.toolTraceCount > 0, LoopOf(calls), Told(rt, ToolCallsEmitted, respondedAt),
               Told(rt, ToolLoopCompleted, respondedAt), Told(rt, ToolLoopFailed, respondedAt))
  }

  /** The rows of `render_response_ready_session_manifest`. */
  function ReadyTable(job: Job, rt: Runtime, calls: seq<ToolCall>,
                      requestedAt: Time, respondedAt: Time): seq<Row> {
    HeadRows(Bare(TurnStarted, job.startedAt, None),
             Bare(ProviderRequested, requestedAt, rt.requestId), true,
             Told(rt, ProviderResponded, respondedAt), true)
    + StreamRows(StreamOf(job.streamMode, StatusOf(rt)), Told(rt, FirstTokenEmitted, respondedAt),
                 Told(rt, StreamCompleted, respondedAt), Told(rt, StreamFailed, respondedAt))
    + [Row(Told(rt, ArtifactCommitReady, respondedAt),
           CommitReadyAt(job.streamMode, StatusOf(rt), respondedAt).Some?)]
    + ToolRows(rt.toolTraceCount > 0, LoopOf(calls), Told(rt, ToolCallsEmitted, respondedAt),
               Told(rt, ToolLoopCompleted, respondedAt), Told(rt, ToolLoopFailed, respondedAt))
  }

  /** What the failure path knows of the provider when there may be no runtime at all. */
  function FailedStatus(rt: Option<Runtime>): ProviderStatus {
    if rt.Some? then StatusOf(rt.value) else ProviderFailed
  }

  function FailedRespondedAt(rt: Option<Runtime>, failedAt: Time): Option<Time> {
    if rt.Some? then RespondedAt(rt.value, failedAt) else None
  }

  function FailedRequestId(rt: Option<Runtime>): Option<string> {
    if rt.Some? then rt.value.requestId else None
  }

  function FailedReason(rt: Option<Runtime>): string {
    if rt.Some? && rt.value.finishReason.Some? then Wire(rt.value.finishReason.value) else "error"
  }

  function FailedCount(rt: Option<Runtime>): nat {
    if rt.Some? then rt.value.toolTraceCount else 0
  }

  /** The stream events of a failed turn are only listed if the provider responded. */
  function FailedStream(job: Job, rt: Option<Runtime>, failedAt: Time): StreamStatus {
    if job.streamMode != Streaming || FailedRespondedAt(rt, failedAt).None? then NotStreamed
    else if FailedStatus(rt) == Responded then StreamDone else StreamBroken
  }

  /** The rows of `render_failed_session_manifest`. */
  function FailedTable(job: Job, rt: Option<Runtime>, calls: seq<ToolCall>, source: Option<CommitSource>,
                       requestedAt: Time, failedAt: Time): seq<Row> {
    HeadRows(Bare(TurnStarted, job.startedAt, None),
             Bare(ProviderRequested, requestedAt, FailedRequestId(rt)), true,
             ToldFailed(rt, ProviderResponded, failedAt), FailedRespondedAt(rt, failedAt).Some?)
    + StreamRows(FailedStream(job, rt, failedAt), ToldFailed(rt, FirstTokenEmitted, failedAt),
                 ToldFailed(rt, StreamCompleted, failedAt), ToldFailed(rt, StreamFailed, failedAt))
    + [Row(ToldFailed(rt, ArtifactCommitReady, failedAt),
           CommitReadyAt(job.streamMode, FailedStatus(rt), failedAt).Some?)]
    + ToolRows(FailedCount(rt) > 0, LoopOf(calls), ToldFailed(rt, ToolCallsEmitted, failedAt),
               ToldFailed(rt, ToolLoopCompleted, failedAt), ToldFailed(rt, ToolLoopFailed, failedAt))
    + [Row(ToldFailed(rt, ArtifactCommitFailed, failedAt), source.Some?)]
    + [Row(ToldFailed(rt, TurnFailed, failedAt), true)]
  }

  /** The opening events every renderer pushes. */
  method PushHead(started: TurnEvent, requested: TurnEvent, asked: bool, responded: TurnEvent, replied: bool)
    returns (r: seq<TurnEvent>)
    ensures r == Select(HeadRows(started, requested, asked, responded, replied))
  {
    SelectThree(HeadRows(started, requested, asked, responded, replied));
    r := [started];
    if asked { r := r + [requested]; }
    if replied { r := r + [responded]; }
  }

  /** The stream events every renderer pushes. */
  method PushStream(events: seq<TurnEvent>, stream: StreamStatus,
                    first: TurnEvent, done: TurnEvent, broken: TurnEvent) returns (r: seq<TurnEvent>)
    ensures r == events + Select(StreamRows(stream, first, done, broken))
  {
    SelectThree(StreamRows(stream, first, done, broken));
    r := events;
    match stream {
      case StreamDone => r := r + [first]; r := r + [done];
      case StreamBroken => r := r + [broken];
      case _ =>
    }
  }

  /** The tool-loop events every renderer pushes. */
  method PushToolLoop(events: seq<TurnEvent>, traced: bool, calls: seq<ToolCall>,
                      emitted: TurnEvent, completed: TurnEvent, failed: TurnEvent)
    returns (r: seq<TurnEvent>)
    ensures r == events + Select(ToolRows(traced, LoopOf(calls), emitted, completed, failed))
  {
    SelectThree(ToolRows(traced, LoopOf(calls), emitted, completed, failed));
    r := events;
    if traced {
      r := r + [emitted];
      var loop := ToolLoop(calls);
      match loop {
        case LoopCompleted => r := r + [completed];
        case LoopFailed => r := r + [failed];
        case _ =>
      }
    }
  }

  /** `render_chat_turn_events`, pushing event by event. */
  method RenderMessageEvents(job: Job, rt: Runtime, calls: seq<ToolCall>,
                             requestedAt: Time, respondedAt: Time) returns (events: seq<TurnEvent>)
    ensures events == Select(MessageTable(job, rt, calls, requestedAt, respondedAt))
  {
    hide Select, HeadRows, StreamRows, ToolRows, LoopOf, StreamOf;
    events := PushHead(Bare(TurnStarted, job.startedAt, None),
                       Bare(ProviderRequested, requestedAt, rt.requestId), rt.requestId.Some?,
                       Told(rt, ProviderResponded, respondedAt), true);
    ghost var head := HeadRows(Bare(TurnStarted, job.startedAt, None),
                               Bare(ProviderRequested, requestedAt, rt.requestId), rt.requestId.Some?,
                               Told(rt, ProviderResponded, respondedAt), true);
    events := PushStream(events, StreamOf(job.streamMode, StatusOf(rt)), Told(rt, FirstTokenEmitted, respondedAt),
                         Told(rt, StreamCompleted, respondedAt), Told(rt, StreamFailed, respondedAt));
    ghost var stream := StreamRows(StreamOf(job.streamMode, StatusOf(rt)), Told(rt, FirstTokenEmitted, respondedAt),
                                   Told(rt, StreamCompleted, respondedAt), Told(rt, StreamFailed, respondedAt));
    SelectAppend(head, stream);
    events := PushToolLoop(events, rt.toolTraceCount > 0, calls, Told(rt, ToolCallsEmitted, respondedAt),
                           Told(rt, ToolLoopCompleted, respondedAt), Told(rt, ToolLoopFailed, respondedAt));
    SelectAppend(head + stream,
                 ToolRows(rt.toolTraceCount > 0, LoopOf(calls), Told(rt, ToolCallsEmitted, respondedAt),
                          Told(rt, ToolLoopCompleted, respondedAt), Told(rt, ToolLoopFailed, respondedAt)));
  }

  /** The event part of `render_response_ready_session_manifest`. */
  method RenderReadyEvents(job: Job, rt: Runtime, calls: seq<ToolCall>,
                           requestedAt: Time, respondedAt: Time) returns (events: seq<TurnEvent>)
    ensures events == Select(ReadyTable(job, rt, calls, requestedAt, respondedAt))
  {
    hide Select, HeadRows, StreamRows, ToolRows, LoopOf, StreamOf, CommitReadyAt;
    ghost var head := HeadRows(Bare(TurnStarted, job.startedAt, None),
                               Bare(ProviderRequested, requestedAt, rt.requestId), true,
                               Told(rt, ProviderResponded, respondedAt), true);
    ghost var stream := StreamRows(StreamOf(job.streamMode, StatusOf(rt)), Told(rt, FirstTokenEmitted, respondedAt),
                                   Told(rt, StreamCompleted, respondedAt), Told(rt, StreamFailed, respondedAt));
    ghost var ready := Row(Told(rt, ArtifactCommitReady, respondedAt),
                           CommitReadyAt(job.streamMode, StatusOf(rt), respondedAt).Some?);
    events := PushHead(Bare(TurnStarted, job.startedAt, None),
                       Bare(ProviderRequested, requestedAt, rt.requestId), true,
                       Told(rt, ProviderResponded, respondedAt), true);
    events := PushStream(events, StreamOf(job.streamMode, StatusOf(rt)), Told(rt, FirstTokenEmitted, respondedAt),
                         Told(rt, StreamCompleted, respondedAt), Told(rt, StreamFailed, respondedAt));
    SelectAppend(head, stream);
    if CommitReadyAt(job.streamMode, StatusOf(rt), respondedAt).Some? {
      events := events + [Told(rt, ArtifactCommitReady, respondedAt)];
    }
    SelectSnoc(head + stream, ready);
    events := PushToolLoop(events, rt.toolTraceCount > 0, calls, Told(rt, ToolCallsEmitted, respondedAt),
                           Told(rt, ToolLoopCompleted, respondedAt), Told(rt, ToolLoopFailed, respondedAt));
    SelectAppend(head + stream + [ready],
                 ToolRows(rt.toolTraceCount > 0, LoopOf(calls), Told(rt, ToolCallsEmitted, respondedAt),
                          Told(rt, ToolLoopCompleted, respondedAt), Told(rt, ToolLoopFailed, respondedAt)));
  }

  /** The event part of `render_failed_session_manifest`. */
  method RenderFailedEvents(job: Job, rt: Option<Runtime>, calls: seq<ToolCall>, source: Option<CommitSource>,
                            requestedAt: Time, failedAt: Time) returns (events: seq<TurnEvent>)
    ensures events == Select(FailedTable(job, rt, calls, source, requestedAt, failedAt))
  {
    hide Select, HeadRows, StreamRows, ToolRows, LoopOf, CommitReadyAt, FailedStatus, FailedRespondedAt, FailedCount;
    var replied := FailedRespondedAt(rt, failedAt).Some?;
    ghost var head := HeadRows(Bare(TurnStarted, job.startedAt, None),
                               Bare(ProviderRequested, requestedAt, FailedRequestId(rt)), true,
                               ToldFailed(rt, ProviderResponded, failedAt), replied);
    ghost var streamRows := StreamRows(FailedStream(job, rt, failedAt), ToldFailed(rt, FirstTokenEmitted, failedAt),
                                       ToldFailed(rt, StreamCompleted, failedAt),
                                       ToldFailed(rt, StreamFailed, failedAt));
    ghost var ready := Row(ToldFailed(rt, ArtifactCommitReady, failedAt),
                           CommitReadyAt(job.streamMode, FailedStatus(rt), failedAt).Some?);
    ghost var tools := ToolRows(FailedCount(rt) > 0, LoopOf(calls), ToldFailed(rt, ToolCallsEmitted, failedAt),
                                ToldFailed(rt, ToolLoopCompleted, failedAt), ToldFailed(rt, ToolLoopFailed, failedAt));
    events := PushHead(Bare(TurnStarted, job.startedAt, None),
                       Bare(ProviderRequested, requestedAt, FailedRequestId(rt)), true,
                       ToldFailed(rt, ProviderResponded, failedAt), replied);
    var stream := NotStreamed;
    if replied && job.streamMode == Streaming && FailedStatus(rt) == Responded {
      stream := StreamDone;
    } else if replied && job.streamMode == Streaming {
      stream := StreamBroken;
    }
    events := PushStream(events, stream, ToldFailed(rt, FirstTokenEmitted, failedAt),
                         ToldFailed(rt, StreamCompleted, failedAt), ToldFailed(rt, StreamFailed, failedAt));
    SelectAppend(head, streamRows);
    if CommitReadyAt(job.streamMode, FailedStatus(rt), failedAt).Some? {
      events := events + [ToldFailed(rt, ArtifactCommitReady, failedAt)];
    }
    SelectSnoc(head + streamRows, ready);
    events := PushToolLoop(events, FailedCount(rt) > 0, calls, ToldFailed(rt, ToolCallsEmitted, failedAt),
                           ToldFailed(rt, ToolLoopCompleted, failedAt), ToldFailed(rt, ToolLoopFailed, failedAt));
    SelectAppend(head + streamRows + [ready], tools);
    if source.Some? {
      events := events + [ToldFailed(rt, ArtifactCommitFailed, failedAt)];
    }
    SelectSnoc(head + streamRows + [ready] + tools, Row(ToldFailed(rt, ArtifactCommitFailed, failedAt), source.Some?));
    events := events + [ToldFailed(rt, TurnFailed, failedAt)];
    SelectSnoc(head + streamRows + [ready] + tools
               + [Row(ToldFailed(rt, ArtifactCommitFailed, failedAt), source.Some?)],
               Row(ToldFailed(rt, TurnFailed, failedAt), true));
  }

  // ----- Manifests ------------------------------------------------------------------------

  /** `render_chat_turn_manifest`: the turn object of a fresh assistant message. */
  function MessageTurn(job: Job, a: Answer, requestedAt: Time, respondedAt: Time): Manifest {
    var rt, calls := a.runtime, a.calls;
    var provider := StatusOf(rt);
    Manifest(
      turnId := job.turnId,
      status := TurnPending,
      streamStatus := StreamOf(job.streamMode, provider),
      commitStatus := CommitPending,
      providerStatus := provider,
      toolLoopStatus := LoopOf(calls),
      requestId := rt.requestId,
      requestedAt := requestedAt,
      respondedAt := Some(respondedAt),
      firstTokenAt := FirstTokenAt(job.streamMode, provider, respondedAt),
      streamCompletedAt := StreamCompletedAt(job.streamMode, provider, respondedAt),
      commitReadyAt := CommitReadyAt(job.streamMode, provider, respondedAt),
      commitFailureSource := None,
      toolCallsEmittedAt := When(rt.toolTraceCount > 0, respondedAt),
      toolLoopSettledAt := LoopSettledAt(calls, respondedAt),
      finishReason := Reason(rt),
      messageId := None,
      persistedAt := None,
      toolTraceCount := rt.toolTraceCount,
      summary := SummaryOf(calls),
      recovery := None,
      events := Select(MessageTable(job, rt, calls, requestedAt, respondedAt)),
      completedAt := None)
  }

  /** The `last_turn` of `render_response_ready_session_manifest`. */
  function ReadyTurn(job: Job, a: Answer, requestedAt: Time, respondedAt: Time): Manifest {
    MessageTurn(job, a, requestedAt, respondedAt).(
      recovery := Some(Copy(a, respondedAt)),
      events := Select(ReadyTable(job, a.runtime, a.calls, requestedAt, respondedAt)))
  }

  /** The `last_turn` of `render_in_flight_session_manifest`. */
  function InFlightTurn(job: Job, requestedAt: Time): Manifest {
    Manifest(
      turnId := job.turnId,
      status := TurnPending,
      streamStatus := StreamOf(job.streamMode, AwaitingProvider),
      commitStatus := NotReady,
      providerStatus := AwaitingProvider,
      toolLoopStatus := NotRequested,
      requestId := None,
      requestedAt := requestedAt,
      respondedAt := None,
      firstTokenAt := None,
      streamCompletedAt := None,
      commitReadyAt := None,
      commitFailureSource := None,
      toolCallsEmittedAt := None,
      toolLoopSettledAt := None,
      finishReason := None,
      messageId := None,
      persistedAt := None,
      toolTraceCount := 0,
      summary := None,
      recovery := None,
      events := [Bare(TurnStarted, job.startedAt, None), Bare(ProviderRequested, requestedAt, None)],
      completedAt := None)
  }

  /** The `last_turn` of `render_failed_session_manifest`; a recovery copy needs both the
      content and the runtime. */
  function FailedTurn(job: Job, content: Option<string>, rt: Option<Runtime>, calls: seq<ToolCall>,
                      source: Option<CommitSource>, requestedAt: Time, failedAt: Time): Manifest {
    var provider := FailedStatus(rt);
    Manifest(
      turnId := job.turnId,
      status := TurnIsFailed,
      streamStatus := StreamOf(job.streamMode, provider),
      commitStatus := if source.Some? then CommitFailed else NotReady,
      providerStatus := provider,
      toolLoopStatus := LoopOf(calls),
      requestId := FailedRequestId(rt),
      requestedAt := requestedAt,
      respondedAt := FailedRespondedAt(rt, failedAt),
      firstTokenAt := None,
      streamCompletedAt := StreamCompletedAt(job.streamMode, provider, failedAt),
      commitReadyAt := CommitReadyAt(job.streamMode, provider, failedAt),
      commitFailureSource := source,
      toolCallsEmittedAt := When(FailedCount(rt) > 0, failedAt),
      toolLoopSettledAt := LoopSettledAt(calls, failedAt),
      finishReason := Some(FailedReason(rt)),
      messageId := None,
      persistedAt := None,
      toolTraceCount := FailedCount(rt),
      summary := SummaryOf(calls),
      recovery := if content.Some? && rt.Some?
                  then Some(Copy(Answer(content.value, rt.value, calls), failedAt)) else None,
      events := Select(FailedTable(job, rt, calls, source, requestedAt, failedAt)),
      completedAt := Some(failedAt))
  }

  /** `finalize_assistant_message_manifest` on the turn object. */
  function Finalize(m: Manifest, messageId: nat, persistedAt: Time): Manifest {
    m.(status := TurnIsCompleted,
       messageId := Some(messageId),
       persistedAt := Some(persistedAt),
       commitStatus := Committed,
       commitFailureSource := None,
       commitReadyAt := if m.commitReadyAt.None? then Some(persistedAt) else m.commitReadyAt,
       completedAt := Some(persistedAt),
       events := m.events + [
         Detailed(AssistantMessagePersisted, persistedAt, m.requestId, m.finishReason, m.toolTraceCount),
         Detailed(TurnCompleted, persistedAt, m.requestId, m.finishReason, m.toolTraceCount)])
  }

  /** `needs_finalize` of `resume_assistant_message_manifest`. */
  predicate NeedsFinalize(m: Manifest) {
    m.persistedAt.None? || m.messageId.None?
  }

  // ----- Results ---------------------------------------------------------------------------

  /** The table of a message, at the level of detail the results below need. */
  lemma {:induction false} MessageTableShape(job: Job, rt: Runtime, calls: seq<ToolCall>,
                                             requestedAt: Time, respondedAt: Time)
    ensures var t := MessageTable(job, rt, calls, requestedAt, respondedAt);
            && |t| >= 3 && TableDistinct(t)
            && t[0].on && t[0].event.kind == TurnStarted && t[0].event.at == job.startedAt
            && t[1].on == rt.requestId.Some? && t[1].event.at == requestedAt
            && t[2].on
            && (forall i :: 2 <= i < |t| ==> t[i].event.at == respondedAt)
            && (forall i :: 0 <= i < |t| ==>
                  t[i].event.kind != AssistantMessagePersisted && t[i].event.kind != TurnCompleted)
  {
    hide LoopOf, Reason, StreamOf;
  }

  /** Rows that are on at the head of a table head its events. */
  lemma {:induction false} FirstEvents(t: seq<Row>)
    requires |t| >= 3 && t[0].on
    ensures Select(t) != [] && Select(t)[0] == t[0].event
    ensures t[1].on && t[2].on ==> |Select(t)| >= 3 && Select(t)[1] == t[1].event && Select(t)[2] == t[2].event
  {
    SelectPrefix(t, 3);
    SelectThree(t[..3]);
  }

  lemma {:induction false} MessageEventsShape(job: Job, a: Answer, requestedAt: Time, respondedAt: Time)
    ensures var es := MessageTurn(job, a, requestedAt, respondedAt).events;
            && DistinctKinds(es)
            && !Lists(es, AssistantMessagePersisted) && !Lists(es, TurnCompleted)
            && |es| >= 1 && es[0].kind == TurnStarted
  {
    hide MessageTable, Select;
    var t := MessageTable(job, a.runtime, a.calls, requestedAt, respondedAt);
    MessageTableShape(job, a.runtime, a.calls, requestedAt, respondedAt);
    SelectDistinct(t);
    FirstEvents(t);
    forall k | 0 <= k < |Select(t)|
      ensures Select(t)[k].kind != AssistantMessagePersisted && Select(t)[k].kind != TurnCompleted
    {
      var i := SelectFrom(t, k);
    }
  }

  /** Counts of the two closing events before and after finalising. */
  lemma {:induction false} FinalizeCounts(m: Manifest, id: nat, at: Time, k: EventKind)
    ensures CountKind(Finalize(m, id, at).events, k) ==
            CountKind(m.events, k) + if k in {AssistantMessagePersisted, TurnCompleted} then 1 else 0
  {
    var es := Finalize(m, id, at).events;
    assert es[..|es| - 1][..|es| - 2] == m.events;
  }

  /** Finalising twice is not finalising once: the closing events pile up. */
  lemma {:induction false} FinalizeNotIdempotent(m: Manifest, id: nat, at: Time)
    ensures Finalize(Finalize(m, id, at), id, at) != Finalize(m, id, at)
  {
    assert |Finalize(Finalize(m, id, at), id, at).events| == |m.events| + 4;
  }

  /** The finalised event list of a message: every kind at most once, from `turn_started` to
      `turn_completed`, and in time order exactly when no request event claims to be later than
      the response. On a first run the clock gives `requestedAt <= respondedAt`, so the list is
      in order; a recreated message is rendered with a fresh `requestedAt` and an old
      `respondedAt`, so it is out of order as soon as the provider reported a request id. */
  lemma {:induction false} FinalizedEvents(job: Job, a: Answer, requestedAt: Time, respondedAt: Time,
                                           id: nat, persistedAt: Time)
    requires job.startedAt <= requestedAt <= persistedAt && job.startedAt <= respondedAt <= persistedAt
    ensures var es := Finalize(MessageTurn(job, a, requestedAt, respondedAt), id, persistedAt).events;
            && DistinctKinds(es) && |es| >= 2
            && es[0].kind == TurnStarted && es[|es| - 1].kind == TurnCompleted
            && (Chronological(es) <==> a.runtime.requestId.None? || requestedAt <= respondedAt)
  {
    hide MessageTable, Select;
    var t := MessageTable(job, a.runtime, a.calls, requestedAt, respondedAt);
    var base := Select(t);
    var es := Finalize(MessageTurn(job, a, requestedAt, respondedAt), id, persistedAt).events;
    MessageTableShape(job, a.runtime, a.calls, requestedAt, respondedAt);
    MessageEventsShape(job, a, requestedAt, respondedAt);
    FirstEvents(t);
    forall k | 0 <= k < |base|
      ensures base[k].at <= persistedAt
      ensures base[k].kind != AssistantMessagePersisted && base[k].kind != TurnCompleted
    {
      var i := SelectFrom(t, k);
    }
    if a.runtime.requestId.None? || requestedAt <= respondedAt {
      SelectChronological(t);
    } else {
      assert es[1] == base[1] && es[2] == base[2];
    }
  }

  /** A response-ready manifest carries an optional timestamp exactly when it lists the matching
      event, for every consistent answer. */
  lemma {:induction false} ReadyTimestampsMatchEvents(job: Job, a: Answer, requestedAt: Time, respondedAt: Time)
    requires Consistent(a)
    ensures var m := ReadyTurn(job, a, requestedAt, respondedAt);
            && (m.respondedAt.Some? <==> Lists(m.events, ProviderResponded))
            && (m.firstTokenAt.Some? <==> Lists(m.events, FirstTokenEmitted))
            && (m.streamCompletedAt.Some? <==>
                  Lists(m.events, StreamCompleted) || Lists(m.events, StreamFailed))
            && (m.commitReadyAt.Some? <==> Lists(m.events, ArtifactCommitReady))
            && (m.toolCallsEmittedAt.Some? <==> Lists(m.events, ToolCallsEmitted))
            && (m.toolLoopSettledAt.Some? <==>
                  Lists(m.events, ToolLoopCompleted) || Lists(m.events, ToolLoopFailed))
  {
    hide Select, Lists, ReadyTable, LoopOf, SummaryOf;
    var t := ReadyTable(job, a.runtime, a.calls, requestedAt, respondedAt);
    ReadyRows(job, a, requestedAt, respondedAt);
    EmptyLoop(a.calls);
    SelectLists(t, 2);
    SelectLists(t, 3);
    SelectLists(t, 4);
    SelectLists(t, 5);
    SelectLists(t, 6);
    SelectLists(t, 7);
    SelectLists(t, 8);
    SelectLists(t, 9);
  }

  lemma {:induction false} EmptyLoop(calls: seq<ToolCall>)
    ensures LoopOf(calls) == NotRequested <==> calls == []
  {
  }

  lemma {:induction false} ReadyRows(job: Job, a: Answer, requestedAt: Time, respondedAt: Time)
    ensures var t := ReadyTable(job, a.runtime, a.calls, requestedAt, respondedAt);
            var stream := StreamOf(job.streamMode, StatusOf(a.runtime));
            var traced := a.runtime.toolTraceCount > 0;
            && |t| == 10 && TableDistinct(t)
            && t[2].event.kind == ProviderResponded && t[2].on
            && t[3].event.kind == FirstTokenEmitted && t[3].on == (stream == StreamDone)
            && t[4].event.kind == StreamCompleted && t[4].on == (stream == StreamDone)
            && t[5].event.kind == StreamFailed && t[5].on == (stream == StreamBroken)
            && t[6].event.kind == ArtifactCommitReady
            && t[6].on == CommitReadyAt(job.streamMode, StatusOf(a.runtime), respondedAt).Some?
            && t[7].event.kind == ToolCallsEmitted && t[7].on == traced
            && t[8].event.kind == ToolLoopCompleted && t[8].on == (traced && LoopOf(a.calls) == LoopCompleted)
            && t[9].event.kind == ToolLoopFailed && t[9].on == (traced && LoopOf(a.calls) == LoopFailed)
  {
    hide LoopOf, Reason, StreamOf, CommitReadyAt, StatusOf;
  }

  /** A failed manifest agrees with its events except on three fields. `first_token_at` is left
      null although the event is listed, exactly on a streamed response; `stream_completed_at`
      is set although no stream event is listed, exactly when streaming and the provider never
      responded; the tool loop's settling time is set although neither loop event is listed,
      exactly when settled calls come without a traced runtime. */
  lemma {:induction false} FailedTimestampsDiverge(job: Job, content: Option<string>, rt: Option<Runtime>,
                                                   calls: seq<ToolCall>, source: Option<CommitSource>,
                                                   requestedAt: Time, failedAt: Time)
    ensures var m := FailedTurn(job, content, rt, calls, source, requestedAt, failedAt);
            var replied := FailedRespondedAt(rt, failedAt).Some?;
            var streaming := job.streamMode == Streaming;
            && (m.respondedAt.Some? <==> Lists(m.events, ProviderResponded))
            && (m.commitReadyAt.Some? <==> Lists(m.events, ArtifactCommitReady))
            && (m.toolCallsEmittedAt.Some? <==> Lists(m.events, ToolCallsEmitted))
            && ((m.toolLoopSettledAt.Some? <==>
                   Lists(m.events, ToolLoopCompleted) || Lists(m.events, ToolLoopFailed)) <==>
                  !(FailedCount(rt) == 0 && LoopOf(calls) in {LoopCompleted, LoopFailed}))
            && ((m.firstTokenAt.Some? <==> Lists(m.events, FirstTokenEmitted)) <==>
                  !(streaming && replied && FailedStatus(rt) == Responded))
            && ((m.streamCompletedAt.Some? <==>
                   Lists(m.events, StreamCompleted) || Lists(m.events, StreamFailed)) <==>
                  !streaming || replied)
  {
    hide Select, Lists, FailedTable, LoopOf, SummaryOf, RespondedAt;
    var t := FailedTable(job, rt, calls, source, requestedAt, failedAt);
    FailedRows(job, rt, calls, source, requestedAt, failedAt);
    SelectLists(t, 2);
    SelectLists(t, 3);
    SelectLists(t, 4);
    SelectLists(t, 5);
    SelectLists(t, 6);
    SelectLists(t, 7);
    SelectLists(t, 8);
    SelectLists(t, 9);
  }

  lemma {:induction false} FailedRows(job: Job, rt: Option<Runtime>, calls: seq<ToolCall>,
                                      source: Option<CommitSource>, requestedAt: Time, failedAt: Time)
    ensures var t := FailedTable(job, rt, calls, source, requestedAt, failedAt);
            var replied := FailedRespondedAt(rt, failedAt).Some?;
            var streamed := replied && job.streamMode == Streaming;
            var traced := FailedCount(rt) > 0;
            && |t| == 12 && TableDistinct(t)
            && t[2].event.kind == ProviderResponded && t[2].on == replied
            && t[3].event.kind == FirstTokenEmitted && t[3].on == (streamed && FailedStatus(rt) == Responded)
            && t[4].event.kind == StreamCompleted && t[4].on == (streamed && FailedStatus(rt) == Responded)
            && t[5].event.kind == StreamFailed && t[5].on == (streamed && FailedStatus(rt) != Responded)
            && t[6].event.kind == ArtifactCommitReady
            && t[6].on == CommitReadyAt(job.streamMode, FailedStatus(rt), failedAt).Some?
            && t[7].event.kind == ToolCallsEmitted && t[7].on == traced
            && t[8].event.kind == ToolLoopCompleted && t[8].on == (traced && LoopOf(calls) == LoopCompleted)
            && t[9].event.kind == ToolLoopFailed && t[9].on == (traced && LoopOf(calls) == LoopFailed)
  {
    hide LoopOf, FailedReason, CommitReadyAt, FailedStatus, FailedRespondedAt, FailedCount, FailedRequestId;
  }
}
