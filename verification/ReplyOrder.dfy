/** The instants in a turn's durable traces over whole runs: with a clock that does not run backwards,
    every stored copy and every reply is stamped between the turn's start and now, and the event list
    of a finalised reply is in time order exactly when its request is not younger than its response. */
module ReplyOrder {
  import opened Prelude
  import opened Llm
  import opened TurnManifest
  import opened TurnStore
  import opened Attempt
  import opened Safety
  import opened Outcomes
  import opened ReplyRows

  // ----- Clock ------------------------------------------------------------------------------------------

  /** The instants an attempt reads are in order and not before `now`. An attempt reads some of them
      only; the others are unconstrained by the source, so ordering them excludes nothing. */
  predicate Ticks(o: Oracle, now: Time) {
    now <= o.requestedAt <= o.completedAt <= o.readyAt <= o.persistedAt <= o.failedAt
  }

  function After(step: Step, now: Time): Time {
    if step.Work? then step.o.failedAt else now
  }

  function EndTime(now: Time, steps: seq<Step>): Time
    decreases |steps|
  {
    if steps == [] then now else EndTime(After(steps[0], now), steps[1..])
  }

  predicate Ticking(now: Time, steps: seq<Step>)
    decreases |steps|
  {
    steps == [] || ((steps[0].Work? ==> Ticks(steps[0].o, now)) && Ticking(After(steps[0], now), steps[1..]))
  }

  // ----- Copies -------------------------------------------------------------------------------------------

  predicate Within(job: Job, t: Time, now: Time) {
    job.startedAt <= t <= now
  }

  /** Every recovery copy of the turn was captured between its start and now. */
  predicate CopiesTimed(job: Job, st: Store, now: Time) {
    && (SessionCopy(st.session, job.turnId).Some? ==>
          Within(job, SessionCopy(st.session, job.turnId).value.capturedAt, now))
    && (TaskCopy(st.checkpoint, job.turnId).Some? ==>
          Within(job, TaskCopy(st.checkpoint, job.turnId).value.capturedAt, now))
    && (forall i :: 0 <= i < |st.events| && IsEventFor(st.events[i], job.turnId) ==>
          Within(job, st.events[i].createdAt, now))
  }

  lemma {:induction false} SessionTimed(job: Job, st: Store, s: Session, now: Time)
    requires CopiesTimed(job, st, now)
    requires SessionCopy(s, job.turnId).Some? ==> Within(job, SessionCopy(s, job.turnId).value.capturedAt, now)
    ensures CopiesTimed(job, st.(session := s), now)
  {
  }

  lemma {:induction false} CheckpointTimed(job: Job, st: Store, c: Option<Checkpoint>, now: Time)
    requires CopiesTimed(job, st, now)
    requires c.Some? ==> Within(job, c.value.copy.capturedAt, now)
    ensures CopiesTimed(job, st.(checkpoint := c), now)
  {
  }

  lemma {:induction false} EventTimed(job: Job, st: Store, e: EventRecord, now: Time)
    requires CopiesTimed(job, st, now) && (e.RecoveryEvent? ==> Within(job, e.createdAt, now))
    ensures CopiesTimed(job, st.(events := st.events + [e]), now)
  {
    var es := st.events + [e];
    assert forall i :: 0 <= i < |es| ==> es[i] == if i < |st.events| then st.events[i] else e;
  }

  /** Fields that hold no copy. */
  lemma {:induction false} RestTimed(job: Job, st: Store, st': Store, now: Time)
    requires CopiesTimed(job, st, now)
    requires st'.session == st.session && st'.checkpoint == st.checkpoint && st'.events == st.events
    ensures CopiesTimed(job, st', now)
  {
  }

  lemma {:induction false} DeliverTimed(job: Job, st: Store, s: Signal, now: Time)
    requires CopiesTimed(job, st, now)
    ensures CopiesTimed(job, Deliver(st, s), now)
  {
    hide CopiesTimed;
    if Transition(st.execution, s).Some? {
      EventTimed(job, st, EngineEvent, now);
      var st1 := st.(events := st.events + [EngineEvent]);
      CheckpointTimed(job, st1, None, now);
      RestTimed(job, if s == Start then st1.(checkpoint := None) else st1, Deliver(st, s), now);
    }
  }

  lemma {:induction false} FailTimed(job: Job, st: Store, o: Oracle, f: Failure, now: Time)
    requires CopiesTimed(job, st, now) && Within(job, o.failedAt, now)
    ensures CopiesTimed(job, Fail(job, st, o, f), now)
  {
    hide CopiesTimed, FailedSession, Deliver;
    var s := FailedSession(job, o, f);
    FailedSessionCopy(job, o, f);
    SessionTimed(job, st, s, now);
    var st1 := if f.preserve || !Lands(o.failedSession) then st else st.(session := s);
    DeliverTimed(job, st1, StepFailed, now);
    var st2 := PutSignal(st1, StepFailed, o.failedSignal);
    RestTimed(job, st2, PutTask(st2, TaskFailed, o.markFailed), now);
  }

  lemma {:induction false} CompleteTimed(job: Job, st: Store, o: Oracle, a: Answer, now: Time)
    requires CopiesTimed(job, st, now) && Within(job, o.failedAt, now)
    ensures CopiesTimed(job, Complete(job, st, o, a), now)
  {
    hide CopiesTimed, Fail, Deliver;
    SessionTimed(job, st, COMPLETED_SESSION, now);
    var st1 := PutSession(st, COMPLETED_SESSION, o.complete);
    FailTimed(job, st1, o, CommitFailure(a, SessionContextUpdate), now);
    DeliverTimed(job, st1, StepCompleted(true), now);
    var st2 := PutSignal(st1, StepCompleted(true), o.signal);
    FailTimed(job, st2, o, PostCommit(a), now);
    CheckpointTimed(job, st2, None, now);
    var st3 := PutCheckpoint(st2, None, o.clear);
    RestTimed(job, st3, PutTask(st3, TaskSucceeded, o.markSucceeded), now);
  }

  lemma {:induction false} RecordTimed(job: Job, st: Store, o: Oracle, i: nat, a: Answer, now: Time)
    requires CopiesTimed(job, st, now) && Within(job, o.failedAt, now)
    ensures CopiesTimed(job, Record(job, st, o, i, a), now)
  {
    hide CopiesTimed, Fail, Complete;
    var st1 := PutRecords(st, i, a, o.invocation, Refused);
    var st2 := PutRecords(st, i, a, o.invocation, o.tools);
    RestTimed(job, st, st1, now);
    RestTimed(job, st, st2, now);
    FailTimed(job, st1, o, CommitFailure(a, LlmInvocationPersist), now);
    FailTimed(job, st2, o, CommitFailure(a, ToolExecutionPersist), now);
    CompleteTimed(job, st2, o, a, now);
  }

  lemma {:induction false} FinalizeTimed(job: Job, st: Store, o: Oracle, i: nat, a: Answer, f: Failure, now: Time)
    requires i < |st.messages| && st.messages[i].manifest.turn.Some?
    requires CopiesTimed(job, st, now) && Within(job, o.failedAt, now)
    ensures CopiesTimed(job, FinalizeAt(job, st, o, i, a, f), now)
  {
    hide CopiesTimed, Fail, Record, Finalize;
    var st1 := PutManifest(st, i, Finalize(st.messages[i].manifest.turn.value, i, o.persistedAt), o.finalize);
    RestTimed(job, st, st1, now);
    FailTimed(job, st1, o, f, now);
    RecordTimed(job, st1, o, i, a, now);
  }

  lemma {:induction false} CreateTimed(job: Job, st: Store, o: Oracle, a: Answer, turn: Manifest, now: Time)
    requires CopiesTimed(job, st, now) && Within(job, o.failedAt, now)
    ensures CopiesTimed(job, Create(job, st, o, a, turn), now)
  {
    hide CopiesTimed, Fail, FinalizeAt;
    var row := ReplyRow(st.messages, a, turn);
    var more := InsertOthers(st.messages, o.others, job.turnId);
    var free := IndexFree(more, row.turnIndex);
    var st1 := st.(messages := if Lands(o.create) && free then more + [row] else more);
    RestTimed(job, st, st1, now);
    FailTimed(job, st1, o, CommitFailure(a, AssistantMessageCreate), now);
    if o.create == Done && free {
      FinalizeTimed(job, st1, o, |more|, a, CommitFailure(a, AssistantMessageManifestUpdate), now);
    }
  }

  lemma {:induction false} PublishTimed(job: Job, st: Store, o: Oracle, a: Answer, now: Time)
    requires CopiesTimed(job, st, now) && Within(job, o.failedAt, now) && Within(job, o.readyAt, now)
    ensures CopiesTimed(job, Publish(job, st, o, a), now)
  {
    hide CopiesTimed, Fail, Create, MessageTurn;
    var ready := Session(PendingReply, Some(ReadyTurn(job, a, o.requestedAt, o.readyAt)));
    SessionTimed(job, st, ready, now);
    var st1 := PutSession(st, ready, o.ready);
    FailTimed(job, st1, o, CommitFailure(a, ResponseReadySessionUpdate), now);
    CreateTimed(job, st1, o, a, MessageTurn(job, a, o.requestedAt, o.completedAt), now);
  }

  lemma {:induction false} CommitTimed(job: Job, st: Store, o: Oracle, a: Answer, now: Time)
    requires CopiesTimed(job, st, now) && Within(job, o.failedAt, now) && Within(job, o.readyAt, now)
    ensures CopiesTimed(job, Commit(job, st, o, a), now)
  {
    hide CopiesTimed, Fail, Publish;
    var c := Some(Checkpoint(job.turnId, Copy(a, o.readyAt)));
    var e := RecoveryEvent(job.turnId, a, o.readyAt);
    CheckpointTimed(job, st, c, now);
    var st1 := PutCheckpoint(st, c, o.checkpoint);
    EventTimed(job, st1, e, now);
    var st2 := PutEvent(st1, e, o.event);
    FailTimed(job, st2, o, CommitFailure(a, WorkflowEventRecoveryPersist), now);
    PublishTimed(job, st2, o, a, now);
  }

  lemma {:induction false} ProduceTimed(job: Job, st: Store, o: Oracle, now: Time)
    requires CopiesTimed(job, st, now) && Within(job, o.failedAt, now) && Within(job, o.readyAt, now)
    ensures CopiesTimed(job, Produce(job, st, o), now)
  {
    hide CopiesTimed, Fail, Commit, Generate;
    var flying := Session(PendingReply, Some(InFlightTurn(job, o.requestedAt)));
    SessionTimed(job, st, flying, now);
    var st1 := PutSession(st, flying, o.inFlight);
    var st2 := st1.(log := st1.log + Calls(o.hostCalls, o.replies));
    RestTimed(job, st1, st2, now);
    FailTimed(job, st1, o, PLAIN, now);
    match Generate(o.hostCalls, o.replies) {
      case Exhausted(rt) => FailTimed(job, st2, o, ProviderError(o.hostCalls, rt), now);
      case Generated(a) =>
        FailTimed(job, st2, o, Failure(Some(a.content), Some(a.runtime), a.calls, None, false), now);
        CommitTimed(job, st2, o, a, now);
    }
  }

  lemma {:induction false} DispatchTimed(job: Job, st: Store, o: Oracle, r: Recovery, now: Time)
    requires r.Resume? ==>
               r.at < |st.messages| && st.messages[r.at].manifest.turn.Some? && Readable(st.messages[r.at])
    requires CopiesTimed(job, st, now) && Within(job, o.failedAt, now) && Within(job, o.readyAt, now)
    ensures CopiesTimed(job, Dispatch(job, st, o, r), now)
  {
    hide CopiesTimed, Fail, FinalizeAt, Record, Create, Produce, MessageTurn;
    match r {
      case Died =>
      case Broken => FailTimed(job, st, o, PLAIN, now);
      case Resume(i) =>
        var a := AnswerOf(st.messages[i]);
        FinalizeTimed(job, st, o, i, a, PLAIN, now);
        RecordTimed(job, st, o, i, a, now);
      case Recreate(c) =>
        CreateTimed(job, st, o, c.answer, MessageTurn(job, c.answer, o.requestedAt, c.capturedAt), now);
      case Regenerate => ProduceTimed(job, st, o, now);
    }
  }

  lemma {:induction false} ProcessTimed(job: Job, strict: bool, st: Store, o: Oracle, now: Time)
    requires CopiesTimed(job, st, now) && Within(job, o.failedAt, now) && Within(job, o.readyAt, now)
    ensures CopiesTimed(job, Process(job, strict, st, o), now)
  {
    hide CopiesTimed, Fail, Dispatch, Recover;
    RestTimed(job, st, PutTask(st, TaskSucceeded, o.markSucceeded), now);
    FailTimed(job, st, o, PLAIN, now);
    DispatchTimed(job, st, o, Recover(st, job.turnId, strict, o.listEvents), now);
  }

  lemma {:induction false} RecoverTimed(job: Job, st: Store, strict: bool, k: Ack, now: Time)
    requires CopiesTimed(job, st, now) && Recover(st, job.turnId, strict, k).Recreate?
    ensures Within(job, Recover(st, job.turnId, strict, k).copy.capturedAt, now)
  {
  }

  // ----- Rows -------------------------------------------------------------------------------------------

  /** Row `i` is rendered from its own answer at instants between the turn's start and now. */
  predicate Stamped(job: Job, m: Message, i: nat, now: Time) {
    && Rendered(job, m, i)
    && var t := m.manifest.turn.value;
       && Within(job, t.requestedAt, now) && Within(job, t.respondedAt.value, now)
       && (t.persistedAt.Some? ==>
             t.requestedAt <= t.persistedAt.value <= now && t.respondedAt.value <= t.persistedAt.value)
  }

  predicate RowsTimed(job: Job, ms: seq<Message>, now: Time) {
    forall i :: 0 <= i < |ms| && IsReply(ms[i], job.turnId) ==> Stamped(job, ms[i], i, now)
  }

  lemma {:induction false} StampedLater(job: Job, m: Message, i: nat, now: Time, later: Time)
    requires Stamped(job, m, i, now) && now <= later
    ensures Stamped(job, m, i, later)
  {
    hide MessageTurn, Finalize;
  }

  lemma {:induction false} RowsLater(job: Job, ms: seq<Message>, now: Time, later: Time)
    requires RowsTimed(job, ms, now) && now <= later
    ensures RowsTimed(job, ms, later)
  {
    hide Stamped;
    forall i | 0 <= i < |ms| && IsReply(ms[i], job.turnId) ensures Stamped(job, ms[i], i, later) {
      StampedLater(job, ms[i], i, now, later);
    }
  }

  lemma {:induction false} FinalizedStamp(job: Job, m: Message, i: nat, now: Time, at: Time)
    requires Stamped(job, m, i, now) && now <= at && NeedsFinalize(m.manifest.turn.value)
    ensures Stamped(job, FinalRow(m, i, at), i, at)
  {
    FinalRendered(job, m, i, at);
    hide Rendered, NeedsFinalize, MessageTurn;
    assert m.manifest.turn.Some? && m.manifest.turn.value.respondedAt.Some?;
  }

  lemma {:induction false} FreshStamp(job: Job, ms: seq<Message>, a: Answer, requestedAt: Time, respondedAt: Time,
                                      i: nat, now: Time)
    requires Within(job, requestedAt, now) && Within(job, respondedAt, now)
    ensures Stamped(job, ReplyRow(ms, a, MessageTurn(job, a, requestedAt, respondedAt)), i, now)
    ensures NeedsFinalize(MessageTurn(job, a, requestedAt, respondedAt))
  {
    hide MessageTable, Select, NextTurnIndex;
  }

  lemma {:induction false} InsertsTimed(job: Job, ms: seq<Message>, o: Oracle, a: Answer, respondedAt: Time,
                                        ms': seq<Message>)
    requires Inserts(job.turnId, ms, o, a, MessageTurn(job, a, o.requestedAt, respondedAt), ms')
    requires RowsTimed(job, ms, o.persistedAt)
    requires Within(job, o.requestedAt, o.persistedAt) && Within(job, respondedAt, o.persistedAt)
    ensures RowsTimed(job, ms', o.persistedAt)
  {
    hide Stamped, MessageTurn, Finalize, IndexFree, NextTurnIndex, ReplyRow;
    var more := InsertOthers(ms, o.others, job.turnId);
    var row := ReplyRow(ms, a, MessageTurn(job, a, o.requestedAt, respondedAt));
    FreshStamp(job, ms, a, o.requestedAt, respondedAt, |more|, o.persistedAt);
    RowHasTurn(ms, a, MessageTurn(job, a, o.requestedAt, respondedAt));
    FinalizedStamp(job, row, |more|, o.persistedAt, o.persistedAt);
    forall i | 0 <= i < |ms'| && IsReply(ms'[i], job.turnId) ensures Stamped(job, ms'[i], i, o.persistedAt) {
      if i < |more| { assert ms'[i] == more[i] && i < |ms| && more[i] == ms[i]; }
    }
  }

  lemma {:induction false} RowHasTurn(ms: seq<Message>, a: Answer, turn: Manifest)
    ensures ReplyRow(ms, a, turn).manifest.turn == Some(turn)
  {
  }

  lemma {:induction false} ChangesTimed(job: Job, ms: seq<Message>, o: Oracle, r: Recovery, ms': seq<Message>,
                                        now: Time)
    requires Changes(job, ms, o, r, ms') && RowsTimed(job, ms, now) && Ticks(o, now) && job.startedAt <= now
    requires r.Resume? ==> r.at < |ms| && IsReply(ms[r.at], job.turnId)
    requires r.Recreate? ==> Within(job, r.copy.capturedAt, now)
    ensures RowsTimed(job, ms', o.failedAt)
  {
    hide Stamped, Inserts, MessageTurn, Finalize, RowsTimed, Generate;
    RowsLater(job, ms, now, o.persistedAt);
    if ms' != ms {
      match r {
        case Resume(i) => ResumeTimed(job, ms, o, i, now);
        case Recreate(c) => InsertsTimed(job, ms, o, c.answer, c.capturedAt, ms');
        case Regenerate => InsertsTimed(job, ms, o, Generate(o.hostCalls, o.replies).answer, o.completedAt, ms');
      }
    }
    RowsLater(job, ms', o.persistedAt, o.failedAt);
  }

  lemma {:induction false} ResumeTimed(job: Job, ms: seq<Message>, o: Oracle, i: nat, now: Time)
    requires RowsTimed(job, ms, now) && Ticks(o, now)
    requires i < |ms| && IsReply(ms[i], job.turnId) && NeedsFinalize(ms[i].manifest.turn.value)
    ensures RowsTimed(job, ms[i := FinalRow(ms[i], i, o.persistedAt)], o.persistedAt)
  {
    hide Stamped, Finalize;
    RowsLater(job, ms, now, o.persistedAt);
    FinalizedStamp(job, ms[i], i, now, o.persistedAt);
  }

  // ----- Runs ---------------------------------------------------------------------------------------------

  predicate Timed(job: Job, st: Store, now: Time) {
    job.startedAt <= now && CopiesTimed(job, st, now) && RowsTimed(job, st.messages, now)
  }

  lemma {:induction false} CopiesLater(job: Job, st: Store, now: Time, later: Time)
    requires CopiesTimed(job, st, now) && now <= later
    ensures CopiesTimed(job, st, later)
  {
  }

  lemma {:induction false} WorkTimed(job: Job, strict: bool, st: Store, o: Oracle, now: Time)
    requires Timed(job, st, now) && Ticks(o, now)
    ensures Timed(job, Process(job, strict, st, o), o.failedAt)
  {
    hide Process, Recover, CopiesTimed, RowsTimed, Changes;
    var r := Recover(st, job.turnId, strict, o.listEvents);
    CopiesLater(job, st, now, o.failedAt);
    ProcessTimed(job, strict, st, o, o.failedAt);
    ProcessRows(job, strict, st, o);
    if r.Recreate? { RecoverTimed(job, st, strict, o.listEvents, now); }
    ChangesTimed(job, st.messages, o, r, Process(job, strict, st, o).messages, now);
  }

  lemma {:induction false} OthersTimed(job: Job, ms: seq<Message>, rows: seq<Message>, now: Time)
    requires RowsTimed(job, ms, now)
    ensures RowsTimed(job, InsertOthers(ms, rows, job.turnId), now)
  {
    hide Stamped;
    var more := InsertOthers(ms, rows, job.turnId);
    forall i | 0 <= i < |more| && IsReply(more[i], job.turnId) ensures i < |ms| && more[i] == ms[i] {
    }
  }

  lemma {:induction false} NextTimed(job: Job, strict: bool, st: Store, step: Step, now: Time)
    requires Timed(job, st, now) && (step.Work? ==> Ticks(step.o, now))
    ensures Timed(job, Next(job, strict, st, step), After(step, now))
  {
    hide Process, CopiesTimed, RowsTimed, Deliver;
    match step {
      case Work(o) =>
        var st1 := st.(task := Claimed);
        RestTimed(job, st, st1, now);
        WorkTimed(job, strict, st1, o, now);
        CopiesLater(job, st, now, o.failedAt);
        RowsLater(job, st.messages, now, o.failedAt);
      case Send(s) => DeliverTimed(job, st, s, now); DeliverKeeps(st, s);
      case Requeue => RestTimed(job, st, st.(task := Queued), now);
      case OtherSession(s) => if SessionCopy(s, job.turnId).None? { SessionTimed(job, st, s, now); }
      case OtherMessages(rows) =>
        OthersTimed(job, st.messages, rows, now);
        RestTimed(job, st, Next(job, strict, st, step), now);
    }
  }

  lemma {:induction false} RunTimed(job: Job, strict: bool, st: Store, steps: seq<Step>, now: Time)
    requires Timed(job, st, now) && Ticking(now, steps)
    ensures Timed(job, Run(job, strict, st, steps), EndTime(now, steps))
    decreases |steps|
  {
    hide Timed, Next;
    if steps != [] {
      NextTimed(job, strict, st, steps[0], now);
      RunTimed(job, strict, Next(job, strict, st, steps[0]), steps[1..], After(steps[0], now));
    }
  }

  lemma {:induction false} FreshTimed(job: Job, st: Store, now: Time)
    requires Fresh(job, st) && job.startedAt <= now
    ensures Timed(job, st, now)
  {
  }

  // ----- Main results -------------------------------------------------------------------------------------

  /** The request of a reply does not claim to be younger than its response, or is not listed. */
  predicate RequestFirst(t: Manifest) {
    t.requestId.None? || (t.respondedAt.Some? && t.requestedAt <= t.respondedAt.value)
  }

  /** A complete event list: every kind once, from the turn's start to its completion. */
  predicate FullList(es: seq<TurnEvent>) {
    DistinctKinds(es) && |es| >= 2 && es[0].kind == TurnStarted && es[|es| - 1].kind == TurnCompleted
  }

  lemma {:induction false} StampedOrder(job: Job, m: Message, i: nat, now: Time)
    requires Stamped(job, m, i, now) && Finalized(m)
    ensures var t := m.manifest.turn.value;
            FullList(t.events) && (Chronological(t.events) <==> RequestFirst(t))
  {
    var t := m.manifest.turn.value;
    RenderedFinal(job, m, i);
    hide MessageTurn, Finalize, Chronological, DistinctKinds;
    FinalizedEvents(job, AnswerOf(m), t.requestedAt, t.respondedAt.value, i, t.persistedAt.value);
  }

  /** Over every run whose clock does not run backwards, with any crashes, refusals and retries: each
      finalised reply of the turn lists every event kind once, from start to completion, and in time
      order exactly if no listed request is younger than the response. */
  lemma {:induction false} ReplyOrderExactly(job: Job, strict: bool, st: Store, steps: seq<Step>, now: Time, i: nat)
    requires Fresh(job, st) && job.startedAt <= now && Ticking(now, steps)
    requires i < |Run(job, strict, st, steps).messages|
    requires var m := Run(job, strict, st, steps).messages[i]; IsReply(m, job.turnId) && Finalized(m)
    ensures var t := Run(job, strict, st, steps).messages[i].manifest.turn.value;
            FullList(t.events) && (Chronological(t.events) <==> RequestFirst(t))
  {
    hide Next, Stamped, Chronological, FullList, RequestFirst;
    FreshTimed(job, st, now);
    RunTimed(job, strict, st, steps, now);
    StampedOrder(job, Run(job, strict, st, steps).messages[i], i, EndTime(now, steps));
  }

  /** A search that finds a copy or nothing has found no reply. */
  lemma {:induction false} SearchedInVain(st: Store, turnId: string, strict: bool, k: Ack)
    requires Recover(st, turnId, strict, k).Recreate? || Recover(st, turnId, strict, k).Regenerate?
    ensures !HasReply(st.messages, turnId)
  {
    hide SessionTurn, FindTask, FindEvent;
  }

  /** The answer an attempt inserts, and the instant its response is stamped with. */
  predicate Answers(o: Oracle, r: Recovery, a: Answer, at: Time) {
    match r
    case Recreate(c) => a == c.answer && at == c.capturedAt
    case Regenerate => Generate(o.hostCalls, o.replies) == Generated(a) && at == o.completedAt
    case _ => false
  }

  /** A reply that appears during an attempt is stamped by that attempt. */
  lemma {:induction false} InsertedStamp(job: Job, strict: bool, st: Store, o: Oracle, i: nat)
    returns (a: Answer, at: Time)
    requires var r := Recover(st, job.turnId, strict, o.listEvents); r.Recreate? || r.Regenerate?
    requires var ms' := Process(job, strict, st, o).messages; i < |ms'| && IsReply(ms'[i], job.turnId)
    ensures Answers(o, Recover(st, job.turnId, strict, o.listEvents), a, at)
    ensures var m := Process(job, strict, st, o).messages[i];
            && Readable(m) && AnswerOf(m) == a
            && m.manifest.turn.value.requestedAt == o.requestedAt
            && m.manifest.turn.value.respondedAt == Some(at)
  {
    hide Process, Recover, MessageTurn, Generate, HasReply;
    var r := Recover(st, job.turnId, strict, o.listEvents);
    SearchedInVain(st, job.turnId, strict, o.listEvents);
    ProcessRows(job, strict, st, o);
    var ms' := Process(job, strict, st, o).messages;
    NewRow(job, st.messages, o, r, ms', i);
    match r {
      case Recreate(c) => a, at := c.answer, c.capturedAt;
      case Regenerate => a, at := Generate(o.hostCalls, o.replies).answer, o.completedAt;
    }
    InsertedRow(job, st.messages, o, a, at, ms', i);
  }

  lemma {:induction false} NewRow(job: Job, ms: seq<Message>, o: Oracle, r: Recovery, ms': seq<Message>, i: nat)
    requires Changes(job, ms, o, r, ms') && !HasReply(ms, job.turnId) && i < |ms'| && IsReply(ms'[i], job.turnId)
    ensures ms' != ms
  {
  }

  lemma {:induction false} InsertedRow(job: Job, ms: seq<Message>, o: Oracle, a: Answer, at: Time,
                                       ms': seq<Message>, i: nat)
    requires !HasReply(ms, job.turnId) && i < |ms'| && IsReply(ms'[i], job.turnId)
    requires Inserts(job.turnId, ms, o, a, MessageTurn(job, a, o.requestedAt, at), ms')
    ensures Readable(ms'[i]) && AnswerOf(ms'[i]) == a
    ensures ms'[i].manifest.turn.value.requestedAt == o.requestedAt
    ensures ms'[i].manifest.turn.value.respondedAt == Some(at)
  {
    hide MessageTable, Select, IndexFree, NextTurnIndex;
    var more := InsertOthers(ms, o.others, job.turnId);
    assert forall j :: 0 <= j < |more| ==> !IsReply(more[j], job.turnId);
    assert i == |more|;
  }

  /** Whatever happens later, a stamped reply keeps its stamps, and they decide the order. */
  lemma {:induction false} LaterOrder(job: Job, strict: bool, st: Store, steps: seq<Step>, now: Time, i: nat)
    requires Inv(st, job.turnId) && Timed(job, st, now) && Ticking(now, steps)
    requires i < |st.messages| && IsReply(st.messages[i], job.turnId)
    ensures var m, ms' := st.messages[i], Run(job, strict, st, steps).messages;
            && Readable(m) && m.manifest.turn.value.respondedAt.Some?
            && i < |ms'| && IsReply(ms'[i], job.turnId)
            && (Finalized(ms'[i]) ==>
                  && FullList(ms'[i].manifest.turn.value.events)
                  && (Chronological(ms'[i].manifest.turn.value.events) <==>
                      || AnswerOf(m).runtime.requestId.None?
                      || m.manifest.turn.value.requestedAt <= m.manifest.turn.value.respondedAt.value))
  {
    hide Next, Inv, Chronological, FullList;
    var end := Run(job, strict, st, steps);
    RunTimed(job, strict, st, steps, now);
    RunGood(job, strict, st, steps);
    assert KeepsRow(st.messages[i], end.messages[i]);
    if Finalized(end.messages[i]) {
      StampedOrder(job, end.messages[i], i, EndTime(now, steps));
      RenderedFinal(job, end.messages[i], i);
    }
  }

  /** An attempt in the middle of a run with a clock that does not run backwards. */
  predicate Scheduled(job: Job, strict: bool, st: Store, now: Time, before: seq<Step>, o: Oracle, after: seq<Step>) {
    && Fresh(job, st) && job.startedAt <= now
    && Ticking(now, before) && Ticks(o, EndTime(now, before)) && Ticking(o.failedAt, after)
    && Run(job, strict, st, before).task == Queued
  }

  lemma {:induction false} ScheduledAttempt(job: Job, strict: bool, st: Store, now: Time, before: seq<Step>,
                                            o: Oracle, after: seq<Step>)
    requires Scheduled(job, strict, st, now, before, o, after)
    ensures var mid := Run(job, strict, st, before);
            var left := Next(job, strict, mid, Work(o));
            && left == Process(job, strict, mid.(task := Claimed), o)
            && Timed(job, mid, EndTime(now, before)) && Timed(job, left, o.failedAt)
            && Inv(mid, job.turnId) && Inv(left, job.turnId)
            && Recover(mid.(task := Claimed), job.turnId, strict, o.listEvents) ==
               Recover(mid, job.turnId, strict, o.listEvents)
  {
    hide Process, Timed, Inv;
    var mid := Run(job, strict, st, before);
    assert Inv(st, job.turnId) by { FreshInv(job, st); }
    FreshTimed(job, st, now);
    RunTimed(job, strict, st, before, now);
    RunGood(job, strict, st, before);
    NextTimed(job, strict, mid, Work(o), EndTime(now, before));
    NextGood(job, strict, mid, Work(o));
  }

  lemma {:induction false} FreshInv(job: Job, st: Store)
    requires Fresh(job, st)
    ensures Inv(st, job.turnId)
  {
  }

  /** A reply stored by the attempt that generated its answer is, whenever and by whomever it is finalised,
      in time order. */
  lemma {:induction false} FirstRunInOrder(job: Job, strict: bool, st: Store, now: Time, before: seq<Step>,
                                           o: Oracle, after: seq<Step>, i: nat)
    requires Scheduled(job, strict, st, now, before, o, after)
    requires Recover(Run(job, strict, st, before), job.turnId, strict, o.listEvents) == Regenerate
    requires var left := Next(job, strict, Run(job, strict, st, before), Work(o));
             i < |left.messages| && IsReply(left.messages[i], job.turnId)
    ensures var ms := Run(job, strict, Next(job, strict, Run(job, strict, st, before), Work(o)), after).messages;
            && i < |ms| && IsReply(ms[i], job.turnId)
            && (Finalized(ms[i]) ==>
                  FullList(ms[i].manifest.turn.value.events) && Chronological(ms[i].manifest.turn.value.events))
  {
    hide Next, Process, Recover, Timed, Inv, Chronological, FullList, Finalized;
    var mid := Run(job, strict, st, before);
    ScheduledAttempt(job, strict, st, now, before, o, after);
    var a, at := InsertedStamp(job, strict, mid.(task := Claimed), o, i);
    LaterOrder(job, strict, Next(job, strict, mid, Work(o)), after, o.failedAt, i);
  }

  /** A reply recreated from a copy is, whenever and by whomever it is finalised, in time order exactly
      when the provider reported no request id or the fresh request time happens not to exceed the
      copy's old capture time. */
  lemma {:induction false} RecreatedOrder(job: Job, strict: bool, st: Store, now: Time, before: seq<Step>,
                                          o: Oracle, after: seq<Step>, i: nat, c: Copy)
    requires Scheduled(job, strict, st, now, before, o, after)
    requires Recover(Run(job, strict, st, before), job.turnId, strict, o.listEvents) == Recreate(c)
    requires var left := Next(job, strict, Run(job, strict, st, before), Work(o));
             i < |left.messages| && IsReply(left.messages[i], job.turnId)
    ensures Within(job, c.capturedAt, EndTime(now, before))
    ensures var ms := Run(job, strict, Next(job, strict, Run(job, strict, st, before), Work(o)), after).messages;
            && i < |ms| && IsReply(ms[i], job.turnId)
            && (Finalized(ms[i]) ==>
                  && FullList(ms[i].manifest.turn.value.events)
                  && (Chronological(ms[i].manifest.turn.value.events) <==>
                      c.answer.runtime.requestId.None? || o.requestedAt <= c.capturedAt))
  {
    hide Next, Process, Recover, CopiesTimed, RowsTimed, Inv, Chronological, FullList, Finalized;
    var mid := Run(job, strict, st, before);
    ScheduledAttempt(job, strict, st, now, before, o, after);
    RecoverTimed(job, mid, strict, o.listEvents, EndTime(now, before));
    var a, at := InsertedStamp(job, strict, mid.(task := Claimed), o, i);
    LaterOrder(job, strict, Next(job, strict, mid, Work(o)), after, o.failedAt, i);
  }

  // ----- A run that ends out of order -----------------------------------------------------------------------

  /** The process dies right after the event checkpoint of a fresh answer. */
  predicate DiesAfterEvent(o: Oracle) {
    && o.resolve == Done && o.listEvents == Done && o.inFlight == Done
    && !Crashes(o.checkpoint) && o.event == CrashAfter
  }

  lemma {:induction false} CheckpointOnly(job: Job, st: Store, o: Oracle)
    requires HoldsNone(st, job.turnId) && st.execution.status != Succeeded
    requires DiesAfterEvent(o) && ProviderSucceeds(o)
    ensures var st' := Process(job, false, st, o);
            && Checkpointed(st', job.turnId) && !HasReply(st'.messages, job.turnId)
            && st'.messages == st.messages && st'.execution == st.execution
            && Holds(st', job.turnId, Generate(o.hostCalls, o.replies).answer)
  {
    hide Recover, Fail, Publish, InFlightTurn, Generate, HoldsNone;
    RecoverNone(st, job.turnId, false, o.listEvents);
    NoneNoReply(st, job.turnId);
    ProcessDispatches(job, false, st, o);
    var a := Generate(o.hostCalls, o.replies).answer;
    var st' := Process(job, false, st, o);
    assert st'.events == st.events + [RecoveryEvent(job.turnId, a, o.readyAt)];
    assert IsEventFor(st'.events[|st.events|], job.turnId);
  }

  /** After such a death the next search recreates that answer. */
  lemma {:induction false} RecreatesAfterEvent(job: Job, st: Store, a: Answer)
    requires Inv(st, job.turnId) && Checkpointed(st, job.turnId) && !HasReply(st.messages, job.turnId)
    requires Holds(st, job.turnId, a)
    ensures var r := Recover(st, job.turnId, false, Done); r.Recreate? && r.copy.answer == a
  {
    hide Recover, HasReply;
    var b :| Sound(st, job.turnId, b) && Backed(st, b);
    assert a == b;
    EventLogIsLastResort(st, job.turnId, b, Done);
    RecoverMeaning(st, job.turnId, false, Done, b);
  }

  /** Witness run: a crash right after the event checkpoint, a requeue, and an undisturbed attempt at any
      later instant leave a finalised reply whose events are out of order. */
  lemma {:induction false} ReorderRun(job: Job, st: Store, first: Oracle, second: Oracle) returns (i: nat)
    requires Fresh(job, st) && st.task == Queued && st.execution.status == Running
    requires DiesAfterEvent(first) && ProviderSucceeds(first)
    requires Generate(first.hostCalls, first.replies).answer.runtime.requestId.Some?
    requires CommitsSucceed(second) && ProviderSucceeds(second) && InsertLands(job, st, second)
    requires Ticks(first, job.startedAt) && Ticks(second, first.failedAt) && first.failedAt < second.requestedAt
    ensures var ms := Run(job, false, st, [Work(first), Requeue, Work(second)]).messages;
            && i < |ms| && IsReply(ms[i], job.turnId) && Finalized(ms[i])
            && !Chronological(ms[i].manifest.turn.value.events)
  {
    hide Process, Inv, Chronological, FullList, Recover, HoldsNone, Holds, Checkpointed, HasReply, TurnCommitted, Generate;
    var now, before := job.startedAt, [Work(first), Requeue];
    var a := Generate(first.hostCalls, first.replies).answer;
    var claimed := st.(task := Claimed);
    FreshClaimed(job, st);
    CheckpointOnly(job, claimed, first);
    var st1 := Process(job, false, claimed, first);
    var mid := st1.(task := Queued);
    RunThree(job, st, Work(first), Requeue, Work(second));
    assert Run(job, false, st, before) == mid;
    TaskHolds(st1, Queued, job.turnId, a);
    TickingTwo(now, first);
    assert Scheduled(job, false, st, now, before, second, []);
    ScheduledAttempt(job, false, st, now, before, second, []);
    RecreatesAfterEvent(job, mid, a);
    ClaimInv(mid, job.turnId);
    var st3, at, b := Converges(job, false, mid.(task := Claimed), second);
    CommittedReply(st3, job.turnId, at, b);
    i := at;
    RecreatedOrder(job, false, st, now, before, second, [], i, Recover(mid, job.turnId, false, Done).copy);
  }

  lemma {:induction false} FreshClaimed(job: Job, st: Store)
    requires Fresh(job, st)
    ensures HoldsNone(st.(task := Claimed), job.turnId)
  {
  }

  lemma {:induction false} RunThree(job: Job, st: Store, a: Step, b: Step, c: Step)
    ensures Run(job, false, st, [a, b]) == Next(job, false, Next(job, false, st, a), b)
    ensures Run(job, false, st, [a, b, c]) == Next(job, false, Run(job, false, st, [a, b]), c)
  {
    hide Next;
    var st1 := Next(job, false, st, a);
    var st2 := Next(job, false, st1, b);
    assert [a, b, c][1..] == [b, c] && [b, c][1..] == [c] && [c][1..] == [];
    assert [a, b][1..] == [b] && [b][1..] == [];
    assert Run(job, false, st1, [b]) == Run(job, false, st2, []);
    assert Run(job, false, st1, [b, c]) == Run(job, false, st2, [c]);
    assert Run(job, false, st2, [c]) == Next(job, false, st2, c);
  }

  lemma {:induction false} TickingTwo(now: Time, o: Oracle)
    requires Ticks(o, now)
    ensures Ticking(now, [Work(o), Requeue]) && EndTime(now, [Work(o), Requeue]) == o.failedAt
  {
    assert [Work(o), Requeue][1..] == [Requeue] && [Requeue][1..] == [];
    assert Ticking(o.failedAt, [Requeue]) && EndTime(o.failedAt, [Requeue]) == o.failedAt;
  }

  lemma {:induction false} TaskHolds(st: Store, t: TaskStatus, turnId: string, a: Answer)
    requires Checkpointed(st, turnId) && Holds(st, turnId, a)
    ensures var st' := st.(task := t); Checkpointed(st', turnId) && Holds(st', turnId, a)
  {
  }

  lemma {:induction false} CommittedReply(st: Store, turnId: string, i: nat, a: Answer)
    requires TurnCommitted(st, turnId, i, a)
    ensures i < |st.messages| && IsReply(st.messages[i], turnId) && Finalized(st.messages[i])
  {
  }
}
