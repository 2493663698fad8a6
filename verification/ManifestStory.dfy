/** What the per-turn manifests say, field by field and event by event, in terms of the answer or failure
    they are rendered from: every status, timestamp and event of a manifest tells the same story. */
module ManifestStory {
  import opened Prelude
  import opened Llm
  import opened TurnManifest

  // ----- Order and content of events ----------------------------------------------------------------------

  /** The order in which event kinds may appear. */
  function Rank(k: EventKind): nat {
    match k
    case TurnStarted => 0
    case ProviderRequested => 1
    case ProviderResponded => 2
    case FirstTokenEmitted => 3
    case StreamCompleted => 4
    case StreamFailed => 5
    case ArtifactCommitReady => 6
    case ToolCallsEmitted => 7
    case ToolLoopCompleted => 8
    case ToolLoopFailed => 9
    case ArtifactCommitFailed => 10
    case TurnFailed => 11
    case AssistantMessagePersisted => 12
    case TurnCompleted => 13
  }

  predicate InOrder(es: seq<TurnEvent>) {
    forall i, j :: 0 <= i < j < |es| ==> Rank(es[i].kind) < Rank(es[j].kind)
  }

  predicate TableInOrder(t: seq<Row>) {
    forall i, j :: 0 <= i < j < |t| ==> Rank(t[i].event.kind) < Rank(t[j].event.kind)
  }

  /** The event repeats what the manifest says: only the start is anonymous, the request carries the
      provider's request id, and everything after it the id, the finish reason and the trace count. */
  predicate Tells(e: TurnEvent, m: Manifest, startedAt: Time, at: Time) {
    match e.kind
    case TurnStarted => e == TurnEvent(TurnStarted, startedAt, None, None, None)
    case ProviderRequested => e == TurnEvent(ProviderRequested, m.requestedAt, m.requestId, None, None)
    case k => e == TurnEvent(k, at, m.requestId, m.finishReason, Some(m.toolTraceCount))
  }

  predicate AllTell(m: Manifest, startedAt: Time, at: Time) {
    forall i :: 0 <= i < |m.events| ==> Tells(m.events[i], m, startedAt, at)
  }

  lemma {:induction false} SelectInOrder(t: seq<Row>)
    requires TableInOrder(t)
    ensures InOrder(Select(t))
  {
    hide Rank;
    if t != [] {
      var rest := t[..|t| - 1];
      SelectInOrder(rest);
      forall k | 0 <= k < |Select(rest)| ensures Rank(Select(rest)[k].kind) < Rank(t[|t| - 1].event.kind) {
        var i := SelectFrom(rest, k);
        assert t[i] == rest[i];
      }
    }
  }

  lemma {:induction false} SelectTells(t: seq<Row>, m: Manifest, startedAt: Time, at: Time)
    requires m.events == Select(t) && forall i :: 0 <= i < |t| ==> Tells(t[i].event, m, startedAt, at)
    ensures AllTell(m, startedAt, at)
  {
    hide Tells;
    forall k | 0 <= k < |m.events| ensures Tells(m.events[k], m, startedAt, at) {
      var i := SelectFrom(t, k);
    }
  }

  // ----- Answers -------------------------------------------------------------------------------------------

  predicate Failing(a: Answer) {
    a.runtime.finishReason == Some(Error)
  }

  predicate SomeOpen(calls: seq<ToolCall>) {
    exists i :: 0 <= i < |calls| && calls[i].status == Requested
  }

  predicate SomeFailed(calls: seq<ToolCall>) {
    exists i :: 0 <= i < |calls| && calls[i].status == Failed
  }

  predicate Settled(calls: seq<ToolCall>) {
    calls != [] && !SomeOpen(calls)
  }

  /** The tool-loop fields of a manifest that lists `calls`. */
  predicate LoopFields(m: Manifest, calls: seq<ToolCall>) {
    && (m.toolLoopStatus == NotRequested <==> calls == [])
    && (m.toolLoopStatus == LoopPending <==> SomeOpen(calls))
    && (m.toolLoopStatus == LoopFailed <==> Settled(calls) && SomeFailed(calls))
    && (m.toolLoopStatus == LoopCompleted <==> Settled(calls) && !SomeFailed(calls))
    && (m.summary.None? <==> calls == [])
    && (m.summary.Some? ==>
          && m.summary.value.requested == |Having(calls, Requested)|
          && m.summary.value.completed == |Having(calls, Completed)|
          && m.summary.value.failed == |Having(calls, Failed)|)
  }

  /** Positions of the calls with a status. */
  function Having(calls: seq<ToolCall>, status: CallStatus): set<nat> {
    set i: nat | 0 <= i < |calls| && calls[i].status == status
  }

  /** The counters of the renderer count positions. */
  lemma {:induction false} CountIsCardinality(calls: seq<ToolCall>, status: CallStatus)
    ensures CountStatus(calls, status) == |Having(calls, status)|
  {
    if calls != [] {
      var rest, n := calls[..|calls| - 1], |calls| - 1;
      CountIsCardinality(rest, status);
      if calls[n].status == status {
        assert Having(calls, status) == Having(rest, status) + {n};
      } else {
        assert Having(calls, status) == Having(rest, status);
      }
    }
  }

  lemma {:induction false} LoopStory(m: Manifest, calls: seq<ToolCall>)
    requires m.toolLoopStatus == LoopOf(calls) && m.summary == SummaryOf(calls)
    ensures LoopFields(m, calls)
  {
    CountIsCardinality(calls, Requested);
    CountIsCardinality(calls, Completed);
    CountIsCardinality(calls, Failed);
  }

  /** An answer in a mode the worker knows can be committed as soon as it is there. */
  predicate Committable(job: Job, a: Answer) {
    !Failing(a) && job.streamMode != UnknownMode
  }

  /** The turn is open: nothing is committed yet. */
  predicate Unclosed(m: Manifest) {
    && m.status == TurnPending && m.commitStatus == CommitPending
    && m.messageId.None? && m.persistedAt.None? && m.completedAt.None?
  }

  /** What every rendering of an answer says, open or closed. */
  predicate AnswerFields(m: Manifest, job: Job, a: Answer, requestedAt: Time, respondedAt: Time) {
    var streaming, failing := job.streamMode == Streaming, Failing(a);
    && m.turnId == job.turnId && m.commitFailureSource.None?
    && m.requestId == a.runtime.requestId && m.toolTraceCount == a.runtime.toolTraceCount
    && m.finishReason == (if a.runtime.finishReason.None? then None else Some(Wire(a.runtime.finishReason.value)))
    && m.providerStatus == (if failing then ProviderFailed else Responded)
    && m.streamStatus == (if !streaming then NotStreamed else if failing then StreamBroken else StreamDone)
    && m.requestedAt == requestedAt && m.respondedAt == Some(respondedAt)
    && m.firstTokenAt == (if streaming && !failing then Some(respondedAt) else None)
    && m.streamCompletedAt == (if streaming then Some(respondedAt) else None)
    && m.toolCallsEmittedAt == (if a.runtime.toolTraceCount > 0 then Some(respondedAt) else None)
    && m.toolLoopSettledAt == (if Settled(a.calls) then Some(respondedAt) else None)
    && LoopFields(m, a.calls)
  }

  lemma {:induction false} LoopSettles(calls: seq<ToolCall>, at: Time)
    ensures LoopSettledAt(calls, at) == if Settled(calls) then Some(at) else None
  {
  }

  /** The turn object of a fresh reply. */
  lemma {:induction false} MessageFields(job: Job, a: Answer, requestedAt: Time, respondedAt: Time)
    ensures var m := MessageTurn(job, a, requestedAt, respondedAt);
            && AnswerFields(m, job, a, requestedAt, respondedAt) && Unclosed(m) && m.recovery.None?
            && m.commitReadyAt == (if Committable(job, a) then Some(respondedAt) else None)
  {
    hide LoopOf, SummaryOf, LoopSettledAt, MessageTable, LoopFields, Settled;
    LoopSettles(a.calls, respondedAt);
    LoopStory(MessageTurn(job, a, requestedAt, respondedAt), a.calls);
  }

  /** The response-ready manifest: the same fields, and the answer itself. */
  lemma {:induction false} ReadyFields(job: Job, a: Answer, requestedAt: Time, respondedAt: Time)
    ensures var m := ReadyTurn(job, a, requestedAt, respondedAt);
            && AnswerFields(m, job, a, requestedAt, respondedAt) && Unclosed(m) && m.recovery == Some(Copy(a, respondedAt))
            && m.commitReadyAt == (if Committable(job, a) then Some(respondedAt) else None)
  {
    hide LoopOf, SummaryOf, LoopSettledAt, MessageTable, ReadyTable, LoopFields, Settled;
    LoopSettles(a.calls, respondedAt);
    LoopStory(ReadyTurn(job, a, requestedAt, respondedAt), a.calls);
  }

  /** Which events a rendering of an answer lists. */
  predicate AnswerEvents(es: seq<TurnEvent>, job: Job, a: Answer) {
    var streaming, failing, traced := job.streamMode == Streaming, Failing(a), a.runtime.toolTraceCount > 0;
    && Lists(es, TurnStarted) && Lists(es, ProviderResponded)
    && (Lists(es, FirstTokenEmitted) <==> streaming && !failing)
    && (Lists(es, StreamCompleted) <==> streaming && !failing)
    && (Lists(es, StreamFailed) <==> streaming && failing)
    && (Lists(es, ToolCallsEmitted) <==> traced)
    && (Lists(es, ToolLoopCompleted) <==> traced && Settled(a.calls) && !SomeFailed(a.calls))
    && (Lists(es, ToolLoopFailed) <==> traced && Settled(a.calls) && SomeFailed(a.calls))
    && !Lists(es, ArtifactCommitFailed) && !Lists(es, TurnFailed)
    && !Lists(es, AssistantMessagePersisted) && !Lists(es, TurnCompleted)
  }

  lemma {:induction false} LoopVerdicts(calls: seq<ToolCall>)
    ensures LoopOf(calls) == LoopCompleted <==> Settled(calls) && !SomeFailed(calls)
    ensures LoopOf(calls) == LoopFailed <==> Settled(calls) && SomeFailed(calls)
  {
  }

  /** A kind that no row carries is not listed. */
  lemma {:induction false} NotListed(t: seq<Row>, k: EventKind)
    requires forall i :: 0 <= i < |t| ==> t[i].event.kind != k
    ensures !Lists(Select(t), k)
  {
    if j :| 0 <= j < |Select(t)| && Select(t)[j].kind == k {
      var i := SelectFrom(t, j);
    }
  }

  /** The rows of a reply's table. */
  lemma {:induction false} MessageRows(job: Job, a: Answer, requestedAt: Time, respondedAt: Time)
    ensures var t := MessageTable(job, a.runtime, a.calls, requestedAt, respondedAt);
            var streaming, failing, traced := job.streamMode == Streaming, Failing(a), a.runtime.toolTraceCount > 0;
            && |t| == 9 && TableInOrder(t)
            && t[0].event.kind == TurnStarted && t[0].on
            && t[1].event.kind == ProviderRequested && t[1].on == a.runtime.requestId.Some?
            && t[2].event.kind == ProviderResponded && t[2].on
            && t[3].event.kind == FirstTokenEmitted && t[3].on == (streaming && !failing)
            && t[4].event.kind == StreamCompleted && t[4].on == (streaming && !failing)
            && t[5].event.kind == StreamFailed && t[5].on == (streaming && failing)
            && t[6].event.kind == ToolCallsEmitted && t[6].on == traced
            && t[7].event.kind == ToolLoopCompleted && t[7].on == (traced && LoopOf(a.calls) == LoopCompleted)
            && t[8].event.kind == ToolLoopFailed && t[8].on == (traced && LoopOf(a.calls) == LoopFailed)
  {
    hide LoopOf, Reason;
  }

  lemma {:induction false} MessageTold(job: Job, a: Answer, requestedAt: Time, respondedAt: Time)
    ensures var t := MessageTable(job, a.runtime, a.calls, requestedAt, respondedAt);
            forall i :: 0 <= i < |t| ==>
              Tells(t[i].event, MessageTurn(job, a, requestedAt, respondedAt), job.startedAt, respondedAt)
  {
    hide LoopOf, SummaryOf, LoopSettledAt, Select, Reason, StreamOf, StatusOf, CommitReadyAt, FirstTokenAt,
         StreamCompletedAt;
  }

  lemma {:induction false} RankedIsDistinct(t: seq<Row>)
    requires TableInOrder(t)
    ensures TableDistinct(t)
  {
    hide Rank;
  }

  /** The event list of a fresh reply. */
  lemma {:induction false} MessageStory(job: Job, a: Answer, requestedAt: Time, respondedAt: Time)
    ensures var m := MessageTurn(job, a, requestedAt, respondedAt);
            && InOrder(m.events) && AllTell(m, job.startedAt, respondedAt) && AnswerEvents(m.events, job, a)
            && (Lists(m.events, ProviderRequested) <==> a.runtime.requestId.Some?)
            && !Lists(m.events, ArtifactCommitReady)
  {
    hide Select, Lists, MessageTable, LoopOf, Tells, Rank, Settled, SomeFailed, SummaryOf;
    var t := MessageTable(job, a.runtime, a.calls, requestedAt, respondedAt);
    MessageRows(job, a, requestedAt, respondedAt);
    MessageTold(job, a, requestedAt, respondedAt);
    LoopVerdicts(a.calls);
    SelectInOrder(t);
    SelectTells(t, MessageTurn(job, a, requestedAt, respondedAt), job.startedAt, respondedAt);
    RankedIsDistinct(t);
    SelectLists(t, 0);
    SelectLists(t, 1);
    SelectLists(t, 2);
    SelectLists(t, 3);
    SelectLists(t, 4);
    SelectLists(t, 5);
    SelectLists(t, 6);
    SelectLists(t, 7);
    SelectLists(t, 8);
    NotListed(t, ArtifactCommitReady);
    NotListed(t, ArtifactCommitFailed);
    NotListed(t, TurnFailed);
    NotListed(t, AssistantMessagePersisted);
    NotListed(t, TurnCompleted);
  }

  /** What the rows of the response-ready table carry. */
  lemma {:induction false} ReadyTold(job: Job, a: Answer, requestedAt: Time, respondedAt: Time)
    ensures var t := ReadyTable(job, a.runtime, a.calls, requestedAt, respondedAt);
            && |t| == 10 && TableInOrder(t)
            && t[0].event.kind == TurnStarted && t[0].on
            && t[1].event.kind == ProviderRequested && t[1].on
            && forall i :: 0 <= i < |t| ==>
                 Tells(t[i].event, ReadyTurn(job, a, requestedAt, respondedAt), job.startedAt, respondedAt)
  {
    hide LoopOf, SummaryOf, LoopSettledAt, Select, MessageTable;
  }

  /** The event list of a response-ready manifest. */
  lemma {:induction false} ReadyStory(job: Job, a: Answer, requestedAt: Time, respondedAt: Time)
    ensures var m := ReadyTurn(job, a, requestedAt, respondedAt);
            && InOrder(m.events) && AllTell(m, job.startedAt, respondedAt) && AnswerEvents(m.events, job, a)
            && Lists(m.events, ProviderRequested)
            && (Lists(m.events, ArtifactCommitReady) <==> Committable(job, a))
  {
    hide Select, Lists, ReadyTable, MessageTable, LoopOf, Tells, Rank, Settled, SomeFailed, SummaryOf;
    var t := ReadyTable(job, a.runtime, a.calls, requestedAt, respondedAt);
    ReadyTold(job, a, requestedAt, respondedAt);
    ReadyRows(job, a, requestedAt, respondedAt);
    LoopVerdicts(a.calls);
    SelectInOrder(t);
    SelectTells(t, ReadyTurn(job, a, requestedAt, respondedAt), job.startedAt, respondedAt);
    SelectLists(t, 0);
    SelectLists(t, 1);
    SelectLists(t, 2);
    SelectLists(t, 3);
    SelectLists(t, 4);
    SelectLists(t, 5);
    SelectLists(t, 6);
    SelectLists(t, 7);
    SelectLists(t, 8);
    SelectLists(t, 9);
    NotListed(t, ArtifactCommitFailed);
    NotListed(t, TurnFailed);
    NotListed(t, AssistantMessagePersisted);
    NotListed(t, TurnCompleted);
  }

  // ----- Turns in flight and failed turns --------------------------------------------------------------------

  /** A turn whose provider has been asked and has not answered. */
  lemma {:induction false} InFlightStory(job: Job, requestedAt: Time)
    ensures var m := InFlightTurn(job, requestedAt);
            && m.turnId == job.turnId && m.status == TurnPending && m.commitStatus == NotReady
            && m.providerStatus == AwaitingProvider && m.toolLoopStatus == NotRequested
            && m.streamStatus == (if job.streamMode == Streaming then StreamPending else NotStreamed)
            && m.requestId.None? && m.finishReason.None? && m.requestedAt == requestedAt && m.respondedAt.None?
            && m.firstTokenAt.None? && m.streamCompletedAt.None? && m.commitReadyAt.None?
            && m.commitFailureSource.None? && m.toolCallsEmittedAt.None? && m.toolLoopSettledAt.None?
            && m.messageId.None? && m.persistedAt.None? && m.completedAt.None?
            && m.toolTraceCount == 0 && m.summary.None? && m.recovery.None?
            && |m.events| == 2 && m.events[0].kind == TurnStarted && m.events[1].kind == ProviderRequested
            && AllTell(m, job.startedAt, requestedAt)
  {
  }

  /** The provider was reached: there is a runtime, and it does not stem from a request that failed or
      timed out. */
  predicate Reached(rt: Option<Runtime>) {
    && rt.Some?
    && (rt.value.failure.Some? ==> rt.value.failure.value.kind !in {RequestFailed, RequestTimeout})
  }

  /** The provider counts as failed without a runtime, and on its own error. */
  predicate ProviderBroke(rt: Option<Runtime>) {
    rt.Some? ==> rt.value.finishReason == Some(Error)
  }

  /** What a failed manifest says, for every failure. */
  lemma {:induction false} FailedFields(job: Job, content: Option<string>, rt: Option<Runtime>, calls: seq<ToolCall>,
                                        source: Option<CommitSource>, requestedAt: Time, failedAt: Time)
    ensures var m := FailedTurn(job, content, rt, calls, source, requestedAt, failedAt);
            var streaming, broke := job.streamMode == Streaming, ProviderBroke(rt);
            && m.turnId == job.turnId && m.status == TurnIsFailed
            && m.commitStatus == (if source.Some? then CommitFailed else NotReady) && m.commitFailureSource == source
            && m.messageId.None? && m.persistedAt.None? && m.completedAt == Some(failedAt)
            && m.requestId == (if rt.Some? then rt.value.requestId else None)
            && m.finishReason == Some(if rt.Some? && rt.value.finishReason.Some?
                                      then Wire(rt.value.finishReason.value) else "error")
            && m.toolTraceCount == (if rt.Some? then rt.value.toolTraceCount else 0)
            && m.providerStatus == (if broke then ProviderFailed else Responded)
            && m.streamStatus == (if !streaming then NotStreamed else if broke then StreamBroken else StreamDone)
            && m.requestedAt == requestedAt && m.respondedAt == (if Reached(rt) then Some(failedAt) else None)
            && m.firstTokenAt.None? && m.streamCompletedAt == (if streaming then Some(failedAt) else None)
            && m.commitReadyAt == (if !broke && job.streamMode != UnknownMode then Some(failedAt) else None)
            && m.toolCallsEmittedAt == (if rt.Some? && rt.value.toolTraceCount > 0 then Some(failedAt) else None)
            && m.toolLoopSettledAt == (if Settled(calls) then Some(failedAt) else None)
            && m.recovery == (if content.Some? && rt.Some?
                              then Some(Copy(Answer(content.value, rt.value, calls), failedAt)) else None)
            && LoopFields(m, calls)
  {
    hide LoopOf, SummaryOf, LoopSettledAt, FailedTable, LoopFields, Settled;
    LoopSettles(calls, failedAt);
    LoopStory(FailedTurn(job, content, rt, calls, source, requestedAt, failedAt), calls);
  }

  lemma {:induction false} FailedTold(job: Job, content: Option<string>, rt: Option<Runtime>, calls: seq<ToolCall>,
                                      source: Option<CommitSource>, requestedAt: Time, failedAt: Time)
    ensures var t := FailedTable(job, rt, calls, source, requestedAt, failedAt);
            var m := FailedTurn(job, content, rt, calls, source, requestedAt, failedAt);
            forall i :: 0 <= i < |t| ==> Tells(t[i].event, m, job.startedAt, failedAt)
  {
    hide LoopOf, SummaryOf, LoopSettledAt, Select, FailedRespondedAt, CommitReadyAt, FailedStream, FailedReason,
         FailedCount, FailedRequestId, FailedStatus, StreamOf, StreamCompletedAt;
  }

  lemma {:induction false} FailedOrder(job: Job, rt: Option<Runtime>, calls: seq<ToolCall>,
                                       source: Option<CommitSource>, requestedAt: Time, failedAt: Time)
    ensures var t := FailedTable(job, rt, calls, source, requestedAt, failedAt);
            && |t| == 12 && TableInOrder(t)
            && t[0].event.kind == TurnStarted && t[0].on
            && t[1].event.kind == ProviderRequested && t[1].on
            && t[10].event.kind == ArtifactCommitFailed && t[10].on == source.Some?
            && t[11].event.kind == TurnFailed && t[11].on
  {
    hide LoopOf, FailedRespondedAt, CommitReadyAt, FailedStream, FailedReason, FailedCount, FailedRequestId,
         FailedStatus;
  }

  /** The event list of a failed manifest, for every failure. */
  lemma {:induction false} FailedStory(job: Job, content: Option<string>, rt: Option<Runtime>, calls: seq<ToolCall>,
                                       source: Option<CommitSource>, requestedAt: Time, failedAt: Time)
    ensures var m := FailedTurn(job, content, rt, calls, source, requestedAt, failedAt);
            var streamed := job.streamMode == Streaming && Reached(rt);
            var traced := rt.Some? && rt.value.toolTraceCount > 0;
            && InOrder(m.events) && AllTell(m, job.startedAt, failedAt)
            && Lists(m.events, TurnStarted) && Lists(m.events, ProviderRequested) && Lists(m.events, TurnFailed)
            && (Lists(m.events, ProviderResponded) <==> Reached(rt))
            && (Lists(m.events, FirstTokenEmitted) <==> streamed && !ProviderBroke(rt))
            && (Lists(m.events, StreamCompleted) <==> streamed && !ProviderBroke(rt))
            && (Lists(m.events, StreamFailed) <==> streamed && ProviderBroke(rt))
            && (Lists(m.events, ArtifactCommitReady) <==> !ProviderBroke(rt) && job.streamMode != UnknownMode)
            && (Lists(m.events, ToolCallsEmitted) <==> traced)
            && (Lists(m.events, ToolLoopCompleted) <==> traced && Settled(calls) && !SomeFailed(calls))
            && (Lists(m.events, ToolLoopFailed) <==> traced && Settled(calls) && SomeFailed(calls))
            && (Lists(m.events, ArtifactCommitFailed) <==> source.Some?)
            && !Lists(m.events, AssistantMessagePersisted) && !Lists(m.events, TurnCompleted)
  {
    hide Select, Lists, FailedTable, LoopOf, Tells, Rank, Settled, SomeFailed, SummaryOf;
    var t := FailedTable(job, rt, calls, source, requestedAt, failedAt);
    FailedTold(job, content, rt, calls, source, requestedAt, failedAt);
    FailedOrder(job, rt, calls, source, requestedAt, failedAt);
    FailedRows(job, rt, calls, source, requestedAt, failedAt);
    LoopVerdicts(calls);
    SelectInOrder(t);
    SelectTells(t, FailedTurn(job, content, rt, calls, source, requestedAt, failedAt), job.startedAt, failedAt);
    SelectLists(t, 0);
    SelectLists(t, 1);
    SelectLists(t, 2);
    SelectLists(t, 3);
    SelectLists(t, 4);
    SelectLists(t, 5);
    SelectLists(t, 6);
    SelectLists(t, 7);
    SelectLists(t, 8);
    SelectLists(t, 9);
    SelectLists(t, 10);
    SelectLists(t, 11);
    NotListed(t, AssistantMessagePersisted);
    NotListed(t, TurnCompleted);
  }

  // ----- Finalised replies ------------------------------------------------------------------------------------

  function Closing(t: Manifest, k: EventKind, at: Time): TurnEvent {
    TurnEvent(k, at, t.requestId, t.finishReason, Some(t.toolTraceCount))
  }

  /** What a finalised reply at row `i` says. Readiness keeps its time if it had one; the two closing
      events follow the events of the answer. */
  predicate FinalFields(t: Manifest, job: Job, a: Answer, i: nat) {
    && t.status == TurnIsCompleted && t.commitStatus == Committed && t.messageId == Some(i)
    && t.persistedAt.Some? && t.completedAt == t.persistedAt && t.respondedAt.Some?
    && t.commitReadyAt == (if Committable(job, a) then t.respondedAt else t.persistedAt)
    && AnswerFields(t, job, a, t.requestedAt, t.respondedAt.value) && t.recovery.None?
    && |t.events| >= 2 && InOrder(t.events)
    && var n, at := |t.events| - 2, t.persistedAt.value;
       && t.events[n] == Closing(t, AssistantMessagePersisted, at) && t.events[n + 1] == Closing(t, TurnCompleted, at)
       && AllTell(t.(events := t.events[..n]), job.startedAt, t.respondedAt.value)
       && AnswerEvents(t.events[..n], job, a)
       && (Lists(t.events[..n], ProviderRequested) <==> a.runtime.requestId.Some?)
  }

  lemma {:induction false} FinalStory(job: Job, a: Answer, requestedAt: Time, respondedAt: Time, i: nat, at: Time)
    ensures FinalFields(Finalize(MessageTurn(job, a, requestedAt, respondedAt), i, at), job, a, i)
  {
    hide MessageTurn, AnswerEvents, Tells, Rank, LoopFields, Failing, Settled, Lists, InOrder, AllTell;
    var open := MessageTurn(job, a, requestedAt, respondedAt);
    var t := Finalize(open, i, at);
    MessageFields(job, a, requestedAt, respondedAt);
    MessageStory(job, a, requestedAt, respondedAt);
    MessageEventsShape(job, a, requestedAt, respondedAt);
    assert t.events[..|t.events| - 2] == open.events;
    ClosedInOrder(open.events, t.events[|t.events| - 2], t.events[|t.events| - 1]);
    assert t.events == open.events + [t.events[|t.events| - 2], t.events[|t.events| - 1]];
    SameLoop(open, t, a.calls);
    SameTelling(open, t.(events := open.events), job.startedAt, respondedAt);
  }

  /** The closing events may follow anything that does not contain them. */
  lemma {:induction false} ClosedInOrder(es: seq<TurnEvent>, e: TurnEvent, e': TurnEvent)
    requires InOrder(es) && !Lists(es, AssistantMessagePersisted) && !Lists(es, TurnCompleted)
    requires e.kind == AssistantMessagePersisted && e'.kind == TurnCompleted
    ensures InOrder(es + [e, e'])
  {
    forall i | 0 <= i < |es| ensures Rank(es[i].kind) < 12 {
      assert es[i].kind != AssistantMessagePersisted && es[i].kind != TurnCompleted;
    }
  }

  lemma {:induction false} SameLoop(m: Manifest, m': Manifest, calls: seq<ToolCall>)
    requires LoopFields(m, calls) && m'.toolLoopStatus == m.toolLoopStatus && m'.summary == m.summary
    ensures LoopFields(m', calls)
  {
  }

  lemma {:induction false} SameTelling(m: Manifest, m': Manifest, startedAt: Time, at: Time)
    requires AllTell(m, startedAt, at) && m'.events == m.events
    requires m'.requestedAt == m.requestedAt && m'.requestId == m.requestId
    requires m'.finishReason == m.finishReason && m'.toolTraceCount == m.toolTraceCount
    ensures AllTell(m', startedAt, at)
  {
    forall i | 0 <= i < |m'.events| ensures Tells(m'.events[i], m', startedAt, at) {
      assert Tells(m.events[i], m, startedAt, at);
    }
  }
}
