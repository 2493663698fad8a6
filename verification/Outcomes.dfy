/** How attempts end: convergence of an undisturbed attempt, exactly when an errored answer is
    committed, when a completed session manifest regresses, and when a held answer is lost. */
module Outcomes {
  import opened Prelude
  import opened Llm
  import opened TurnManifest
  import opened TurnStore
  import opened Attempt
  import opened Safety

  // ----- Convergence ------------------------------------------------------------------------------

  /** Every operation up to the completed session manifest succeeds; the best-effort checkpoint only
      has to leave the process alive. */
  predicate CommitsSucceed(o: Oracle) {
    && o.resolve == Done && o.listEvents == Done && o.inFlight == Done
    && !Crashes(o.checkpoint) && o.event == Done && o.ready == Done
    && o.create == Done && o.finalize == Done && o.invocation == Done && o.tools == Done
    && o.complete == Done
  }

  /** The insert of this attempt takes effect: no other writer has taken the index that the attempt
      computed when it read the table. */
  predicate InsertLands(job: Job, st: Store, o: Oracle) {
    Lands(o.create) && IndexFree(InsertOthers(st.messages, o.others, job.turnId), NextTurnIndex(st.messages))
  }

  /** Where a reply inserted by this attempt ends up. */
  function Position(job: Job, st: Store, o: Oracle): nat {
    |InsertOthers(st.messages, o.others, job.turnId)|
  }

  predicate WritesSucceed(o: Oracle) {
    && CommitsSucceed(o)
    && o.signal == Done && o.clear == Done && o.markSucceeded == Done
    && o.failedSession == Done && o.failedSignal == Done && o.markFailed == Done
  }

  /** Some profile answers, and not with an error. */
  predicate ProviderSucceeds(o: Oracle) {
    var g := Generate(o.hostCalls, o.replies);
    g.Generated? && g.answer.runtime.finishReason != Some(Error)
  }

  /** Message `i` is the finalised reply `a`, its records are in place, the session is completed. */
  predicate TurnCommitted(st: Store, turnId: string, i: nat, a: Answer) {
    && i < |st.messages| && IsReply(st.messages[i], turnId)
    && Finalized(st.messages[i]) && SaysCompleted(st.messages[i].manifest.turn.value)
    && Readable(st.messages[i]) && AnswerOf(st.messages[i]) == a
    && i in st.invocations && st.invocations[i] == a.runtime
    && i in st.toolExecutions && st.toolExecutions[i] == a.calls
    && st.session == Session(Replied, None)
  }

  /** How the row and the execution end once the turn is committed. */
  predicate ClosedOut(before: Execution, st: Store) {
    if before.status == Running
    then st.task == TaskSucceeded && st.execution.status == Succeeded && st.checkpoint.None?
    else st.task == TaskFailed && st.execution == before
  }

  /** The same, whatever became of the completion signal: a refused one fails a running execution. */
  predicate Ends(before: Execution, o: Oracle, st: Store) {
    && (WritesSucceed(o) ==> ClosedOut(before, st))
    && (o.signal == Refused && o.failedSignal == Done && before.status == Running ==>
          st.execution == before.(status := WorkflowFailed))
  }

  lemma {:induction false} RecordConverges(job: Job, st: Store, o: Oracle, i: nat, a: Answer)
    requires CommitsSucceed(o) && st.execution.status != Succeeded
    requires i < |st.messages| && IsReply(st.messages[i], job.turnId) && Finalized(st.messages[i])
    requires SaysCompleted(st.messages[i].manifest.turn.value)
    requires Readable(st.messages[i]) && AnswerOf(st.messages[i]) == a
    ensures TurnCommitted(Record(job, st, o, i, a), job.turnId, i, a)
    ensures Ends(st.execution, o, Record(job, st, o, i, a))
  {
    hide FailedSession;
    var st1 := PutRecords(st, i, a, Done, Done);
    var st2 := st1.(session := COMPLETED_SESSION);
    assert Record(job, st, o, i, a) == Complete(job, st1, o, a);
    CompletedSurvivesSignal(job, st1, o, a);
    CompleteKeeps(job, st1, o, a);
    if WritesSucceed(o) && st.execution.status == Running {
      assert Complete(job, st1, o, a) == Finish(Deliver(st2, StepCompleted(true)), o);
    } else if WritesSucceed(o) || (o.signal == Refused && o.failedSignal == Done) {
      assert Complete(job, st1, o, a) == Fail(job, st2, o, PostCommit(a));
    }
  }

  /** Completing a turn leaves messages and records alone. */
  lemma {:induction false} CompleteKeeps(job: Job, st: Store, o: Oracle, a: Answer)
    ensures var st' := Complete(job, st, o, a);
            && st'.messages == st.messages
            && st'.invocations == st.invocations && st'.toolExecutions == st.toolExecutions
  {
    hide Fail, FailedSession, Deliver;
    var st1 := PutSession(st, COMPLETED_SESSION, o.complete);
    DeliverKeeps(st1, StepCompleted(true));
    FailKeeps(job, st1, o, CommitFailure(a, SessionContextUpdate));
    FailKeeps(job, PutSignal(st1, StepCompleted(true), o.signal), o, PostCommit(a));
  }

  lemma {:induction false} FailKeeps(job: Job, st: Store, o: Oracle, f: Failure)
    ensures var st' := Fail(job, st, o, f);
            && st'.messages == st.messages
            && st'.invocations == st.invocations && st'.toolExecutions == st.toolExecutions
  {
    hide FailedSession, Deliver;
    var st1 := if f.preserve then st else PutSession(st, FailedSession(job, o, f), o.failedSession);
    DeliverKeeps(st1, StepFailed);
  }

  lemma {:induction false} DeliverKeeps(st: Store, s: Signal)
    ensures var st' := Deliver(st, s);
            && st'.messages == st.messages
            && st'.invocations == st.invocations && st'.toolExecutions == st.toolExecutions
  {
  }

  lemma {:induction false} FinalizeConverges(job: Job, st: Store, o: Oracle, i: nat, a: Answer, f: Failure)
    requires CommitsSucceed(o) && st.execution.status != Succeeded
    requires i < |st.messages| && IsReply(st.messages[i], job.turnId)
    requires Readable(st.messages[i]) && AnswerOf(st.messages[i]) == a
    ensures TurnCommitted(FinalizeAt(job, st, o, i, a, f), job.turnId, i, a)
    ensures Ends(st.execution, o, FinalizeAt(job, st, o, i, a, f))
  {
    hide Record, Fail, TurnCommitted, Ends;
    var st1 := PutManifest(st, i, Finalize(st.messages[i].manifest.turn.value, i, o.persistedAt), o.finalize);
    RecordConverges(job, st1, o, i, a);
    assert FinalizeAt(job, st, o, i, a, f) == Record(job, st1, o, i, a);
  }

  lemma {:induction false} CreateConverges(job: Job, st: Store, o: Oracle, a: Answer, turn: Manifest)
    requires CommitsSucceed(o) && st.execution.status != Succeeded && turn.turnId == job.turnId
    requires InsertLands(job, st, o)
    ensures TurnCommitted(Create(job, st, o, a, turn), job.turnId, Position(job, st, o), a)
    ensures Ends(st.execution, o, Create(job, st, o, a, turn))
  {
    hide FinalizeAt, Fail, TurnCommitted, Ends;
    var ms := InsertOthers(st.messages, o.others, job.turnId);
    var row := ReplyRow(st.messages, a, turn);
    var st1 := st.(messages := ms + [row]);
    var f := CommitFailure(a, AssistantMessageManifestUpdate);
    FinalizeConverges(job, st1, o, |ms|, a, f);
    assert Create(job, st, o, a, turn) == FinalizeAt(job, st1, o, |ms|, a, f);
  }

  lemma {:induction false} ProduceConverges(job: Job, st: Store, o: Oracle)
    requires CommitsSucceed(o) && ProviderSucceeds(o) && st.execution.status != Succeeded
    requires InsertLands(job, st, o)
    ensures var a := Generate(o.hostCalls, o.replies).answer;
            TurnCommitted(Produce(job, st, o), job.turnId, Position(job, st, o), a)
    ensures Ends(st.execution, o, Produce(job, st, o))
  {
    hide Commit, Fail, TurnCommitted, Ends, InFlightTurn, Calls, Generate, NextTurnIndex, IndexFree;
    var a := Generate(o.hostCalls, o.replies).answer;
    var flying := Session(PendingReply, Some(InFlightTurn(job, o.requestedAt)));
    var st1 := st.(session := flying, log := st.log + Calls(o.hostCalls, o.replies));
    CommitConverges(job, st1, o, a);
    assert Produce(job, st, o) == Commit(job, st1, o, a);
  }

  lemma {:induction false} CommitConverges(job: Job, st: Store, o: Oracle, a: Answer)
    requires CommitsSucceed(o) && st.execution.status != Succeeded && InsertLands(job, st, o)
    ensures TurnCommitted(Commit(job, st, o, a), job.turnId, Position(job, st, o), a)
    ensures Ends(st.execution, o, Commit(job, st, o, a))
  {
    hide Create, Fail, TurnCommitted, Ends, ReadyTurn, NextTurnIndex, IndexFree;
    var st1 := PutCheckpoint(st, Some(Checkpoint(job.turnId, Copy(a, o.readyAt))), o.checkpoint);
    var st2 := PutEvent(st1, RecoveryEvent(job.turnId, a, o.readyAt), o.event);
    var st3 := PutSession(st2, Session(PendingReply, Some(ReadyTurn(job, a, o.requestedAt, o.readyAt))), o.ready);
    var turn := MessageTurn(job, a, o.requestedAt, o.completedAt);
    CreateConverges(job, st3, o, a, turn);
    assert Commit(job, st, o, a) == Publish(job, st2, o, a);
    assert Publish(job, st2, o, a) == Create(job, st3, o, a, turn);
  }

  lemma {:induction false} DispatchConverges(job: Job, st: Store, o: Oracle, r: Recovery) returns (i: nat, a: Answer)
    requires CommitsSucceed(o) && ProviderSucceeds(o) && st.execution.status != Succeeded
    requires !r.Broken? && !r.Died? && (r.Resume? || InsertLands(job, st, o))
    requires r.Resume? ==>
               && r.at < |st.messages| && IsReply(st.messages[r.at], job.turnId) && Readable(st.messages[r.at])
               && Closed(st.messages[r.at].manifest.turn.value)
    ensures TurnCommitted(Dispatch(job, st, o, r), job.turnId, i, a)
    ensures Ends(st.execution, o, Dispatch(job, st, o, r))
  {
    hide Create, Produce, FinalizeAt, Record, Fail, TurnCommitted, Ends;
    match r {
      case Resume(at) =>
        i, a := at, AnswerOf(st.messages[at]);
        if NeedsFinalize(st.messages[at].manifest.turn.value) {
          FinalizeConverges(job, st, o, at, a, PLAIN);
        } else {
          RecordConverges(job, st, o, at, a);
        }
      case Recreate(c) =>
        i, a := Position(job, st, o), c.answer;
        CreateConverges(job, st, o, a, MessageTurn(job, a, o.requestedAt, c.capturedAt));
      case Regenerate =>
        i, a := Position(job, st, o), Generate(o.hostCalls, o.replies).answer;
        ProduceConverges(job, st, o);
    }
  }

  /** A finished turn is left alone, whatever the storage does. */
  lemma {:induction false} FinishedIsNoOp(job: Job, strict: bool, st: Store, o: Oracle)
    requires st.execution.status == Succeeded && st.task == TaskSucceeded
    ensures Process(job, strict, st, o) == st
  {
    hide Dispatch, Recover, Fail;
  }

  lemma {:induction false} ProcessDispatches(job: Job, strict: bool, st: Store, o: Oracle)
    requires st.execution.status != Succeeded && o.resolve == Done
    ensures Process(job, strict, st, o) == Dispatch(job, st, o, Recover(st, job.turnId, strict, o.listEvents))
  {
    hide Dispatch, Recover, Fail;
  }

  /** With a readable event log, the search of a reachable store always reaches a decision. */
  lemma {:induction false} RecoverDecides(st: Store, turnId: string, strict: bool)
    requires Inv(st, turnId)
    ensures var r := Recover(st, turnId, strict, Done);
            && !r.Broken? && !r.Died? && (r.Resume? <==> HasReply(st.messages, turnId))
            && (r.Resume? ==> Closed(st.messages[r.at].manifest.turn.value))
  {
    hide Recover, Sound, HoldsNone, Closed;
    if HoldsNone(st, turnId) {
      NoneNoReply(st, turnId);
      RecoverNone(st, turnId, strict, Done);
    } else {
      var b :| Sound(st, turnId, b) && Backed(st, b);
      RecoverMeaning(st, turnId, strict, Done, b);
      var r := Recover(st, turnId, strict, Done);
      if r.Resume? { ReplyClosed(st, turnId, r.at, b); }
    }
  }

  /** From every reachable unfinished store, one attempt that is undisturbed up to the completed session
      manifest, and that either resumes a reply or gets its insert in, commits the turn, whatever
      follows. If nothing disturbs it at all and the execution was
      running, it also ends succeeded with the checkpoint cleared, and every further attempt, however it
      goes, is a no-op; in any other status the engine rejects the completion signal, so the committed
      turn's row is marked failed. */
  lemma {:induction false} Converges(job: Job, strict: bool, st: Store, o: Oracle)
    returns (st': Store, i: nat, a: Answer)
    requires Inv(st, job.turnId) && st.execution.status != Succeeded
    requires CommitsSucceed(o) && ProviderSucceeds(o)
    requires HasReply(st.messages, job.turnId) || InsertLands(job, st, o)
    ensures st' == Process(job, strict, st, o)
    ensures TurnCommitted(st', job.turnId, i, a)
    ensures Ends(st.execution, o, st')
    ensures WritesSucceed(o) && st.execution.status == Running ==> forall o' :: Process(job, strict, st', o') == st'
  {
    hide Dispatch, Recover, TurnCommitted, Inv, Process, HasReply, InsertLands;
    var r := Recover(st, job.turnId, strict, o.listEvents);
    RecoverDecides(st, job.turnId, strict);
    st' := Dispatch(job, st, o, r);
    ProcessDispatches(job, strict, st, o);
    i, a := DispatchConverges(job, st, o, r);
    if WritesSucceed(o) && st.execution.status == Running {
      forall o' ensures Process(job, strict, st', o') == st' {
        FinishedIsNoOp(job, strict, st', o');
      }
    }
  }

  // ----- Order of the durable writes -----------------------------------------------------------------

  lemma {:induction false} PublishKeepsEvents(job: Job, st: Store, o: Oracle, a: Answer)
    requires Sound(st, job.turnId, a) && !HasReply(st.messages, job.turnId)
    ensures st.events <= Publish(job, st, o, a).events
  {
    hide Publish, Sound;
    EvolvesRefl(st, job.turnId);
    PublishSafe(job, st, st, o, a);
  }

  /** However the writes go, an attempt that generates an answer stores no reply before the event
      checkpoint of that answer is durable. */
  lemma {:induction false} ReplyImpliesCheckpoint(job: Job, st: Store, o: Oracle)
    requires HoldsNone(st.(session := COMPLETED_SESSION), job.turnId) && DistinctIndexes(st.messages)
    ensures HasReply(Produce(job, st, o).messages, job.turnId) ==> Checkpointed(Produce(job, st, o), job.turnId)
  {
    hide Fail, Commit;
    var flying := Session(PendingReply, Some(InFlightTurn(job, o.requestedAt)));
    var st1 := PutSession(st, flying, o.inFlight);
    var st2 := st1.(log := st1.log + Calls(o.hostCalls, o.replies));
    NoneNoReply(st.(session := COMPLETED_SESSION), job.turnId);
    FailKeeps(job, st1, o, PLAIN);
    match Generate(o.hostCalls, o.replies) {
      case Exhausted(rt) => FailKeeps(job, st2, o, ProviderError(o.hostCalls, rt));
      case Generated(a) =>
        FailKeeps(job, st2, o, Failure(Some(a.content), Some(a.runtime), a.calls, None, false));
        if o.inFlight == Done && !Errored(a.runtime) {
          CommitCheckpoints(job, st2, o, a);
        }
    }
  }

  lemma {:induction false} CommitCheckpoints(job: Job, st: Store, o: Oracle, a: Answer)
    requires HoldsNone(st, job.turnId) && DistinctIndexes(st.messages) && !Errored(a.runtime)
    ensures HasReply(Commit(job, st, o, a).messages, job.turnId) ==> Checkpointed(Commit(job, st, o, a), job.turnId)
  {
    hide Fail, Publish, Sound;
    var c := Some(Checkpoint(job.turnId, Copy(a, o.readyAt)));
    var e := RecoveryEvent(job.turnId, a, o.readyAt);
    var st1 := PutCheckpoint(st, c, o.checkpoint);
    var st2 := PutEvent(st1, e, o.event);
    NoneNoReply(st, job.turnId);
    FailKeeps(job, st2, o, CommitFailure(a, WorkflowEventRecoveryPersist));
    if !Crashes(o.checkpoint) && o.event == Done {
      NoneIsSound(st, job.turnId, a);
      EvolvesRefl(st, job.turnId);
      CheckpointSafe(st, st, c, job.turnId, a);
      EventSafe(st, st1, e, job.turnId, a);
      PublishKeepsEvents(job, st2, o, a);
      var st3 := Publish(job, st2, o, a);
      assert st2.events[|st1.events|] == e;
      assert IsEventFor(st3.events[|st1.events|], job.turnId);
    }
  }

  /** No write of a copy takes effect: neither checkpoint, nor the failed manifest that a refused
      event checkpoint leads to. */
  predicate AllCopiesLost(o: Oracle) {
    && !Lands(o.checkpoint)
    && (Crashes(o.checkpoint) || (!Lands(o.event) && (Crashes(o.event) || !Lands(o.failedSession))))
  }

  /** A freshly generated answer is lost, and so will be generated anew, exactly when none of its first
      three copies takes effect; whatever happens in the rest of the attempt, it can be recovered. */
  lemma {:induction false} AnswerLostExactly(job: Job, st: Store, o: Oracle, a: Answer)
    requires HoldsNone(st, job.turnId) && DistinctIndexes(st.messages) && !Errored(a.runtime)
    ensures Holds(Commit(job, st, o, a), job.turnId, a) <==> !AllCopiesLost(o)
  {
    hide Fail, Publish, Sound;
    var c := Some(Checkpoint(job.turnId, Copy(a, o.readyAt)));
    var e := RecoveryEvent(job.turnId, a, o.readyAt);
    var st1 := PutCheckpoint(st, c, o.checkpoint);
    var st2 := PutEvent(st1, e, o.event);
    if Crashes(o.checkpoint) || (!Lands(o.event) && Crashes(o.event)) {
      assert Commit(job, st, o, a) == st1;
    } else if !Lands(o.event) {
      var f := CommitFailure(a, WorkflowEventRecoveryPersist);
      assert Commit(job, st, o, a) == Fail(job, st1, o, f);
      FailCopies(job, st1, o, f);
      FailedSessionCopy(job, o, f);
    } else {
      CommitKeepsEvent(job, st, o, a);
    }
  }

  /** The error tail leaves messages and task checkpoint alone and adds no recovery event. */
  lemma {:induction false} FailCopies(job: Job, st: Store, o: Oracle, f: Failure)
    ensures var st' := Fail(job, st, o, f);
            && st'.messages == st.messages && st'.checkpoint == st.checkpoint
            && (st'.events == st.events || st'.events == st.events + [EngineEvent])
            && st'.session ==
               if f.preserve || !Lands(o.failedSession) then st.session else FailedSession(job, o, f)
  {
    hide FailedSession;
  }

  lemma {:induction false} CommitKeepsEvent(job: Job, st: Store, o: Oracle, a: Answer)
    requires HoldsNone(st, job.turnId) && DistinctIndexes(st.messages) && !Errored(a.runtime)
    requires !Crashes(o.checkpoint) && Lands(o.event)
    ensures Holds(Commit(job, st, o, a), job.turnId, a)
  {
    hide Fail, Publish, Sound;
    var c := Some(Checkpoint(job.turnId, Copy(a, o.readyAt)));
    var e := RecoveryEvent(job.turnId, a, o.readyAt);
    var st1 := PutCheckpoint(st, c, o.checkpoint);
    var st2 := PutEvent(st1, e, o.event);
    NoneNoReply(st, job.turnId);
    NoneIsSound(st, job.turnId, a);
    EvolvesRefl(st, job.turnId);
    CheckpointSafe(st, st, c, job.turnId, a);
    EventSafe(st, st1, e, job.turnId, a);
    PublishKeepsEvents(job, st2, o, a);
    FailCopies(job, st2, o, CommitFailure(a, WorkflowEventRecoveryPersist));
    var end := Commit(job, st, o, a);
    assert st2.events[|st1.events|] == e;
    assert end.events[|st1.events|] == e;
    assert IsEventFor(end.events[|st1.events|], job.turnId);
  }

  /** The search on any store: the last reply, the session copy, the task copy, the newest event, in this
      order; the first that exists decides, and one whose trace count is wrong, or a reply without a runtime,
      stops the attempt. */
  lemma {:induction false} RecoverExactly(st: Store, turnId: string, k: Ack)
    ensures var r := Recover(st, turnId, false, k);
            var session, task := SessionCopy(st.session, turnId), TaskCopy(st.checkpoint, turnId);
            && (forall i: nat :: IsLastReply(st.messages, turnId, i) ==>
                  r == if Acceptable(st.messages[i]) then Resume(i) else Broken)
            && (!HasReply(st.messages, turnId) && session.Some? ==>
                  r == if Consistent(session.value.answer) then Recreate(session.value) else Broken)
            && (!HasReply(st.messages, turnId) && session.None? && task.Some? ==>
                  r == if Consistent(task.value.answer) then Recreate(task.value) else Broken)
            && (!HasReply(st.messages, turnId) && session.None? && task.None? ==>
                  if Crashes(k) then r == Died
                  else if Errs(k) then r == Broken
                  else
                    && (!Checkpointed(st, turnId) ==> r == Regenerate)
                    && forall i: nat :: NewestEvent(st.events, turnId, i) ==>
                         r == if Consistent(st.events[i].answer)
                              then Recreate(Copy(st.events[i].answer, st.events[i].createdAt)) else Broken)
  {
    hide SessionCopy, TaskCopy, IsReply, IsEventFor;
    forall i: nat | IsLastReply(st.messages, turnId, i)
      ensures Recover(st, turnId, false, k) == if Acceptable(st.messages[i]) then Resume(i) else Broken
    {
      LastReplyDecides(st.messages, turnId, i);
    }
    forall i: nat | NewestEvent(st.events, turnId, i) ensures LastEvent(st.events, turnId) == Some(i) {
    }
  }

  predicate NewestEvent(es: seq<EventRecord>, turnId: string, i: nat) {
    i < |es| && IsEventFor(es[i], turnId) && forall j :: i < j < |es| ==> !IsEventFor(es[j], turnId)
  }

  /** While any other place holds a copy, the event log is not consulted, so its failure to load cannot
      stop a recovery; and the first source in the fixed order is the one used. */
  lemma {:induction false} EventLogIsLastResort(st: Store, turnId: string, a: Answer, k: Ack)
    requires Sound(st, turnId, a) && Consistent(a)
    ensures var r := Recover(st, turnId, false, k);
            var session, task := SessionCopy(st.session, turnId), TaskCopy(st.checkpoint, turnId);
            && (HasReply(st.messages, turnId) <==> r.Resume?)
            && (!HasReply(st.messages, turnId) && session.Some? ==> r == Recreate(session.value))
            && (!HasReply(st.messages, turnId) && session.None? && task.Some? ==> r == Recreate(task.value))
            && (!HasReply(st.messages, turnId) && session.None? && task.None? && k == Done ==>
                  (r.Recreate? <==> Checkpointed(st, turnId)))
  {
    hide AllClosed, OneReply, DistinctIndexes;
    RecoverMeaning(st, turnId, false, k, a);
  }

  // ----- Errored answers ----------------------------------------------------------------------------

  predicate ErroredReply(ms: seq<Message>, turnId: string) {
    exists i :: 0 <= i < |ms| && IsReply(ms[i], turnId) && Readable(ms[i])
                && ms[i].manifest.runtime.value.finishReason == Some(Error)
  }

  predicate ErroredSession(st: Store, turnId: string) {
    SessionCopy(st.session, turnId).Some?
    && SessionCopy(st.session, turnId).value.answer.runtime.finishReason == Some(Error)
  }

  lemma {:induction false} SoundDistinct(st: Store, turnId: string, a: Answer)
    requires Sound(st, turnId, a)
    ensures DistinctIndexes(st.messages)
  {
  }

  /** A store that holds nothing has no reply, whatever its session manifest says. */
  lemma {:induction false} NoneNoReply(st: Store, turnId: string)
    requires HoldsNone(st, turnId)
    ensures HoldsNone(st.(session := COMPLETED_SESSION), turnId)
    ensures !HasReply(st.messages, turnId) && !ErroredReply(st.messages, turnId)
    ensures !ErroredSession(st, turnId)
  {
  }

  /** The provider path never leaves an errored reply behind. */
  lemma {:induction false} ProduceNotErrored(job: Job, st: Store, o: Oracle)
    requires HoldsNone(st.(session := COMPLETED_SESSION), job.turnId) && DistinctIndexes(st.messages)
    ensures !ErroredReply(Produce(job, st, o).messages, job.turnId)
  {
    hide Fail, Commit, ErroredReply, Evolves;
    var flying := Session(PendingReply, Some(InFlightTurn(job, o.requestedAt)));
    var st1 := PutSession(st, flying, o.inFlight);
    NoneNoReply(st.(session := COMPLETED_SESSION), job.turnId);
    FailKeeps(job, st1, o, PLAIN);
    if o.inFlight == Done {
      var st2 := st1.(log := st1.log + Calls(o.hostCalls, o.replies));
      match Generate(o.hostCalls, o.replies) {
        case Exhausted(rt) =>
          FailKeeps(job, st2, o, ProviderError(o.hostCalls, rt));
        case Generated(a) =>
          if Errored(a.runtime) {
            FailKeeps(job, st2, o, Failure(Some(a.content), Some(a.runtime), a.calls, None, false));
          } else {
            assert HoldsNone(st2, job.turnId);
            NoneIsSound(st2, job.turnId, a);
            EvolvesRefl(st2, job.turnId);
            CommitSafe(job, st2, st2, o, a);
            ErroredReplyIsAnswer(Commit(job, st2, o, a), job.turnId, a);
          }
      }
    }
  }

  /** Whatever happens after the insert, an inserted reply stays. */
  lemma {:induction false} FinalizeKeepsReply(job: Job, st: Store, o: Oracle, i: nat, a: Answer, f: Failure)
    requires Sound(st, job.turnId, a) && Carries(f, a)
    requires i < |st.messages| && IsReply(st.messages[i], job.turnId)
    requires NeedsFinalize(st.messages[i].manifest.turn.value)
    ensures HasReply(FinalizeAt(job, st, o, i, a, f).messages, job.turnId)
  {
    hide FinalizeAt, Sound;
    EvolvesRefl(st, job.turnId);
    FinalizeAtSafe(job, st, st, o, i, a, f);
    var st' := FinalizeAt(job, st, o, i, a, f);
    assert KeepsRow(st.messages[i], st'.messages[i]);
    assert IsReply(st'.messages[i], job.turnId);
  }

  /** A reply appears exactly when the insert takes effect. */
  lemma {:induction false} CreateReplies(job: Job, st: Store, o: Oracle, a: Answer, turn: Manifest)
    requires Sound(st, job.turnId, a) && !HasReply(st.messages, job.turnId)
    requires turn.turnId == job.turnId && Closed(turn) && NeedsFinalize(turn)
    ensures HasReply(Create(job, st, o, a, turn).messages, job.turnId) <==> InsertLands(job, st, o)
  {
    hide FinalizeAt, Fail, Evolves, Sound, Closed;
    var row := ReplyRow(st.messages, a, turn);
    var ms := InsertOthers(st.messages, o.others, job.turnId);
    var put := InsertLands(job, st, o);
    var st1 := st.(messages := if put then ms + [row] else ms);
    assert HasReply(st1.messages, job.turnId) <==> put by {
      if put { assert IsReply(st1.messages[|ms|], job.turnId); }
      EvolvesRefl(st, job.turnId);
      OthersSafe(st, st, o.others, job.turnId, a);
    }
    if o.create == Done && put {
      assert Sound(st1, job.turnId, a) by {
        EvolvesRefl(st, job.turnId);
        InsertSafe(job, st, st, o.others, a, turn, put);
      }
      var f := CommitFailure(a, AssistantMessageManifestUpdate);
      FinalizeKeepsReply(job, st1, o, |ms|, a, f);
      assert Create(job, st, o, a, turn) == FinalizeAt(job, st1, o, |ms|, a, f);
    } else {
      FailKeeps(job, st1, o, CommitFailure(a, AssistantMessageCreate));
      assert Create(job, st, o, a, turn).messages == st1.messages;
    }
  }

  lemma {:induction false} ErroredReplyIsAnswer(st: Store, turnId: string, a: Answer)
    requires Sound(st, turnId, a)
    ensures ErroredReply(st.messages, turnId) <==> HasReply(st.messages, turnId) && Errored(a.runtime)
  {
    if HasReply(st.messages, turnId) {
      var i :| 0 <= i < |st.messages| && IsReply(st.messages[i], turnId);
      assert Readable(st.messages[i]) && AnswerOf(st.messages[i]) == a;
    }
  }

  /** Only the session manifest can make the worker recreate an errored answer. */
  lemma {:induction false} ErroredSource(st: Store, turnId: string, k: Ack, a: Answer)
    requires Sound(st, turnId, a) && Consistent(a) && !HasReply(st.messages, turnId)
    ensures ErroredSession(st, turnId) <==> Recover(st, turnId, false, k).Recreate? && Errored(a.runtime)
  {
    hide AllClosed, OneReply, DistinctIndexes;
  }

  /** As the worker stands, an attempt that starts without a reply commits an errored one exactly
      when the session manifest holds an errored recovery copy, the resolver works, and the insert
      takes effect: recovery never looks at the finish reason again. */
  lemma {:induction false} ErroredCommitExactly(job: Job, st: Store, o: Oracle)
    requires Inv(st, job.turnId) && !HasReply(st.messages, job.turnId)
    ensures ErroredReply(Process(job, false, st, o).messages, job.turnId) <==>
            && st.execution.status != Succeeded
            && o.resolve == Done
            && ErroredSession(st, job.turnId)
            && InsertLands(job, st, o)
  {
    hide Create, Resumed, Recover, Fail, Produce, InsertLands, HoldsNone, Sound, ErroredSession;
    var turnId := job.turnId;
    if st.execution.status == Succeeded || o.resolve != Done {
      FailKeeps(job, st, o, PLAIN);
    } else if HoldsNone(st, turnId) {
      NoneNoReply(st, turnId);
      InvDistinct(st, turnId);
      RecoverNone(st, turnId, false, o.listEvents);
      FailKeeps(job, st, o, PLAIN);
      ProduceNotErrored(job, st, o);
    } else {
      var a :| Sound(st, turnId, a) && Backed(st, a);
      var r := Recover(st, turnId, false, o.listEvents);
      SoundDistinct(st, turnId, a);
      RecoverMeaning(st, turnId, false, o.listEvents, a);
      ErroredSource(st, turnId, o.listEvents, a);
      match r {
        case Died =>
        case Broken => FailKeeps(job, st, o, PLAIN);
        case Recreate(c) => RecreateErrored(job, st, o, c, a);
        case Regenerate => ProduceNotErrored(job, st, o);
      }
      assert Process(job, false, st, o) == Dispatch(job, st, o, r);
    }
  }

  lemma {:induction false} RecreateErrored(job: Job, st: Store, o: Oracle, c: Copy, a: Answer)
    requires Sound(st, job.turnId, a) && c.answer == a && !HasReply(st.messages, job.turnId)
    ensures ErroredReply(Dispatch(job, st, o, Recreate(c)).messages, job.turnId) <==>
            Errored(a.runtime) && InsertLands(job, st, o)
  {
    hide Create, MessageTurn, Sound, Closed, InsertLands, Evolves;
    EvolvesRefl(st, job.turnId);
    FreshTurnClosed(job, a, o.requestedAt, c.capturedAt);
    var turn := MessageTurn(job, a, o.requestedAt, c.capturedAt);
    CreateReplies(job, st, o, a, turn);
    CreateSafe(job, st, st, o, a, turn);
    ErroredReplyIsAnswer(Create(job, st, o, a, turn), job.turnId, a);
  }

  /** No reply so far, so none can become errored: what is left is what this attempt inserts. */
  lemma {:induction false} StrictNotErrored(job: Job, st: Store, o: Oracle)
    requires Inv(st, job.turnId) && !ErroredReply(st.messages, job.turnId)
    ensures !ErroredReply(Process(job, true, st, o).messages, job.turnId)
  {
    hide Create, Resumed, Recover, Fail, Produce, Sound, HoldsNone, ErroredReply;
    var turnId := job.turnId;
    if st.execution.status == Succeeded || o.resolve != Done {
      FailKeeps(job, st, o, PLAIN);
    } else if HoldsNone(st, turnId) {
      NoneNoReply(st, turnId);
      InvDistinct(st, turnId);
      RecoverNone(st, turnId, true, o.listEvents);
      FailKeeps(job, st, o, PLAIN);
      ProduceNotErrored(job, st, o);
    } else {
      var a :| Sound(st, turnId, a) && Backed(st, a);
      var r := Recover(st, turnId, true, o.listEvents);
      RecoverMeaning(st, turnId, true, o.listEvents, a);
      StrictDispatch(job, st, o, r, a);
      ProcessDispatches(job, true, st, o);
    }
  }

  /** Under the strict rule only sound answers are recreated. */
  lemma {:induction false} StrictRecreates(st: Store, turnId: string, k: Ack, a: Answer)
    requires Sound(st, turnId, a) && Consistent(a) && Recover(st, turnId, true, k).Recreate?
    ensures !Errored(a.runtime)
  {
  }

  lemma {:induction false} StrictDispatch(job: Job, st: Store, o: Oracle, r: Recovery, a: Answer)
    requires Sound(st, job.turnId, a) && Consistent(a) && !ErroredReply(st.messages, job.turnId)
    requires r == Recover(st, job.turnId, true, o.listEvents)
    ensures !ErroredReply(Dispatch(job, st, o, r).messages, job.turnId)
  {
    hide Recover, Fail, Produce, Create, Resumed, Sound;
    SoundDistinct(st, job.turnId, a);
    RecoverMeaning(st, job.turnId, true, o.listEvents, a);
    match r {
      case Regenerate => ProduceNotErrored(job, st, o);
      case Died =>
      case Broken => FailKeeps(job, st, o, PLAIN);
      case _ =>
        if r.Recreate? { StrictRecreates(st, job.turnId, o.listEvents, a); }
        ErroredReplyIsAnswer(st, job.turnId, a);
        KeptAnswer(job, st, o, r, a);
    }
  }

  /** Resuming or recreating `a` leaves no reply but `a`. */
  lemma {:induction false} KeptAnswer(job: Job, st: Store, o: Oracle, r: Recovery, a: Answer)
    requires Sound(st, job.turnId, a) && !Errored(a.runtime) && r != Regenerate
    requires r.Resume? ==>
               && r.at < |st.messages| && IsReply(st.messages[r.at], job.turnId)
               && Readable(st.messages[r.at]) && AnswerOf(st.messages[r.at]) == a
    requires r.Recreate? ==> r.copy.answer == a && !HasReply(st.messages, job.turnId)
    ensures !ErroredReply(Dispatch(job, st, o, r).messages, job.turnId)
  {
    hide Dispatch, Sound, Evolves, HasReply;
    EvolvesRefl(st, job.turnId);
    DispatchSafe(job, st, o, r, a);
    ErroredReplyIsAnswer(Dispatch(job, st, o, r), job.turnId, a);
  }

  lemma {:induction false} StrictStep(job: Job, st: Store, step: Step)
    requires Inv(st, job.turnId) && !ErroredReply(st.messages, job.turnId)
    ensures !ErroredReply(Next(job, true, st, step).messages, job.turnId)
  {
    hide Process, Inv;
    match step {
      case Work(o) =>
        ClaimInv(st, job.turnId);
        StrictNotErrored(job, st.(task := Claimed), o);
      case Send(s) =>
      case Requeue =>
      case OtherSession(s) =>
      case OtherMessages(rows) =>
        var ms := InsertOthers(st.messages, rows, job.turnId);
        forall i | 0 <= i < |ms| && IsReply(ms[i], job.turnId) ensures i < |st.messages| && ms[i] == st.messages[i] {
        }
    }
  }

  /** If recovery re-checked the finish reason, no run would ever commit an errored answer. */
  lemma {:induction false} StrictNeverErrored(job: Job, st: Store, steps: seq<Step>)
    requires Inv(st, job.turnId) && !ErroredReply(st.messages, job.turnId)
    ensures !ErroredReply(Run(job, true, st, steps).messages, job.turnId)
    decreases |steps|
  {
    hide Next, Inv, ErroredReply;
    if steps != [] {
      NextGood(job, true, st, steps[0]);
      StrictStep(job, st, steps[0]);
      StrictNeverErrored(job, Next(job, true, st, steps[0]), steps[1..]);
    }
  }

  // ----- A run that commits an errored answer ---------------------------------------------------------

  /** The provider's errored answer is kept as a session recovery copy. */
  lemma {:induction false} ErroredGeneration(job: Job, st: Store, o: Oracle)
    requires HoldsNone(st, job.turnId) && st.execution.status == Running
    requires WritesSucceed(o) && Generate(o.hostCalls, o.replies).Generated?
    requires Errored(Generate(o.hostCalls, o.replies).answer.runtime)
    ensures var st' := Process(job, false, st, o);
            && ErroredSession(st', job.turnId)
            && st'.messages == st.messages
            && st'.execution == st.execution.(status := WorkflowFailed)
  {
    hide Recover, HoldsNone;
    var a := Generate(o.hostCalls, o.replies).answer;
    var f := Failure(Some(a.content), Some(a.runtime), a.calls, None, false);
    var flying := Session(PendingReply, Some(InFlightTurn(job, o.requestedAt)));
    var st1 := st.(session := flying, log := st.log + Calls(o.hostCalls, o.replies));
    RecoverNone(st, job.turnId, false, o.listEvents);
    ProcessDispatches(job, false, st, o);
    assert Produce(job, st, o) == Fail(job, st1, o, f);
    FailedSessionCopy(job, o, f);
    assert Fail(job, st1, o, f).session == FailedSession(job, o, f);
  }

  lemma {:induction false} RunFour(job: Job, strict: bool, st: Store, a: Step, b: Step, c: Step, d: Step)
    ensures Run(job, strict, st, [a, b, c, d]) ==
            Next(job, strict, Next(job, strict, Next(job, strict, Next(job, strict, st, a), b), c), d)
  {
    hide Next;
    var st1 := Next(job, strict, st, a);
    var st2 := Next(job, strict, st1, b);
    var st3 := Next(job, strict, st2, c);
    assert [a, b, c, d][1..] == [b, c, d] && [b, c, d][1..] == [c, d] && [c, d][1..] == [d] && [d][1..] == [];
    assert Run(job, strict, st, [a, b, c, d]) == Run(job, strict, st1, [b, c, d]);
    assert Run(job, strict, st1, [b, c, d]) == Run(job, strict, st2, [c, d]);
    assert Run(job, strict, st2, [c, d]) == Run(job, strict, st3, [d]);
    assert Run(job, strict, st3, [d]) == Next(job, strict, st3, d);
  }

  /** A retry of an execution whose session holds an errored copy commits that copy. */
  lemma {:induction false} ErroredCopyCommits(job: Job, st: Store, o: Oracle)
    requires Inv(st, job.turnId) && !HasReply(st.messages, job.turnId) && ErroredSession(st, job.turnId)
    requires st.execution.status == WorkflowFailed && st.execution.retries > 0
    requires WritesSucceed(o) && InsertLands(job, st, o)
    ensures ErroredReply(
              Next(job, false,
                   Next(job, false, Next(job, false, st, Send(RetryRequested)), Send(Start)),
                   Work(o)).messages,
              job.turnId)
  {
    hide Process, Inv;
    var st1 := Deliver(st, RetryRequested);
    var st2 := Deliver(st1, Start);
    assert st2.session == st.session && st2.messages == st.messages && st2.task == Queued;
    NextGood(job, false, st, Send(RetryRequested));
    NextGood(job, false, st1, Send(Start));
    ClaimInv(st2, job.turnId);
    ErroredCommitExactly(job, st2.(task := Claimed), o);
  }

  /** Witness family: whenever the provider answers with an error once, an ordinary retry of the
      failed execution commits that errored answer as the reply. */
  lemma {:induction false} ErroredRetryCommits(job: Job, st: Store, first: Oracle, second: Oracle)
    requires Fresh(job, st) && st.task == Queued && st.execution.status == Running && st.execution.retries > 0
    requires WritesSucceed(first) && WritesSucceed(second) && InsertLands(job, st, second)
    requires Generate(first.hostCalls, first.replies).Generated?
    requires Errored(Generate(first.hostCalls, first.replies).answer.runtime)
    ensures ErroredReply(
              Run(job, false, st, [Work(first), Send(RetryRequested), Send(Start), Work(second)]).messages,
              job.turnId)
  {
    hide Process, Deliver, ErroredReply;
    RunFour(job, false, st, Work(first), Send(RetryRequested), Send(Start), Work(second));
    var st1 := Next(job, false, st, Work(first));
    ErroredGeneration(job, st.(task := Claimed), first);
    NextGood(job, false, st, Work(first));
    ErroredCopyCommits(job, st1, second);
  }

  // ----- Session regress ------------------------------------------------------------------------------

  /** Within an attempt, a completed session manifest survives whatever the completion signal and
      everything after it do. */
  lemma {:induction false} CompletedSurvivesSignal(job: Job, st: Store, o: Oracle, a: Answer)
    requires o.complete == Done
    ensures Complete(job, st, o, a).session == COMPLETED_SESSION
  {
  }

  /** The first step that does not succeed on the resume path reports a failure before the session
      manifest has been completed again. */
  predicate FailsBeforeCompletion(o: Oracle) {
    || Errs(o.resolve)
    || (o.resolve == Done
        && (|| Errs(o.invocation)
            || (o.invocation == Done
                && (Errs(o.tools) || (o.tools == Done && Errs(o.complete))))))
  }

  /** A completed session of a committed turn regresses in a later attempt exactly when that attempt
      fails before completing it again and the failed manifest takes effect. */
  lemma {:induction false} SessionRegress(job: Job, st: Store, o: Oracle, a: Answer)
    requires Sound(st, job.turnId, a) && Consistent(a)
    requires HasReply(st.messages, job.turnId)
    requires forall i :: 0 <= i < |st.messages| && IsReply(st.messages[i], job.turnId) ==> Finalized(st.messages[i])
    requires st.session == COMPLETED_SESSION && st.execution.status != Succeeded
    ensures Process(job, false, st, o).session != COMPLETED_SESSION <==>
            FailsBeforeCompletion(o) && Lands(o.failedSession)
    ensures Process(job, false, st, o).session in
              {COMPLETED_SESSION, FailedSession(job, o, PLAIN),
               FailedSession(job, o, CommitFailure(a, LlmInvocationPersist)),
               FailedSession(job, o, CommitFailure(a, ToolExecutionPersist)),
               FailedSession(job, o, CommitFailure(a, SessionContextUpdate))}
  {
    hide Recover, Record, FailedSession, HasReply, Create, Produce, FinalizeAt, Fail;
    if o.resolve == Done {
      var r := Recover(st, job.turnId, false, o.listEvents);
      RecoverMeaning(st, job.turnId, false, o.listEvents, a);
      ProcessDispatches(job, false, st, o);
      assert Dispatch(job, st, o, r) == Record(job, st, o, r.at, a);
      RecordSession(job, st, o, r.at, a);
    } else {
      FailSession(job, st, o, PLAIN);
    }
  }

  lemma {:induction false} FailSession(job: Job, st: Store, o: Oracle, f: Failure)
    ensures Fail(job, st, o, f).session ==
            if f.preserve || !Lands(o.failedSession) then st.session else FailedSession(job, o, f)
    ensures FailedSession(job, o, f) != COMPLETED_SESSION
  {
  }

  lemma {:induction false} RecordSession(job: Job, st: Store, o: Oracle, i: nat, a: Answer)
    requires st.session == COMPLETED_SESSION && o.resolve == Done
    ensures Record(job, st, o, i, a).session ==
            if !FailsBeforeCompletion(o) || !Lands(o.failedSession) then COMPLETED_SESSION
            else FailedSession(job, o, CommitFailure(a,
                   if Errs(o.invocation) then LlmInvocationPersist
                   else if Errs(o.tools) then ToolExecutionPersist else SessionContextUpdate))
    ensures Record(job, st, o, i, a).session != COMPLETED_SESSION <==>
            FailsBeforeCompletion(o) && Lands(o.failedSession)
  {
    hide Fail, Complete, FailedSession;
    var st1 := PutRecords(st, i, a, o.invocation, Refused);
    var st2 := PutRecords(st, i, a, o.invocation, o.tools);
    FailSession(job, st1, o, CommitFailure(a, LlmInvocationPersist));
    FailSession(job, st2, o, CommitFailure(a, ToolExecutionPersist));
    FailSession(job, st2, o, CommitFailure(a, SessionContextUpdate));
    CompleteSession(job, st2, o, a);
  }

  lemma {:induction false} CompleteSession(job: Job, st: Store, o: Oracle, a: Answer)
    requires st.session == COMPLETED_SESSION
    ensures Complete(job, st, o, a).session ==
            if Errs(o.complete) && Lands(o.failedSession)
            then FailedSession(job, o, CommitFailure(a, SessionContextUpdate)) else COMPLETED_SESSION
  {
    hide Fail, FailedSession, Deliver;
    if o.complete == Done {
      CompletedSurvivesSignal(job, st, o, a);
    } else {
      var st1 := PutSession(st, COMPLETED_SESSION, o.complete);
      FailSession(job, st1, o, CommitFailure(a, SessionContextUpdate));
    }
  }

  /** An attempt that commits the turn but whose completion signal is refused. */
  lemma {:induction false} SignalRefused(job: Job, st: Store, o: Oracle)
    requires Inv(st, job.turnId) && st.execution.status == Running
    requires CommitsSucceed(o) && ProviderSucceeds(o) && o.signal == Refused && o.failedSignal == Done
    requires InsertLands(job, st, o)
    ensures var st' := Process(job, false, st, o);
            && st'.session == COMPLETED_SESSION
            && HasFinalReply(st'.messages, job.turnId)
            && st'.execution == st.execution.(status := WorkflowFailed)
  {
    hide Process, Inv, TurnCommitted;
    var st', i, a := Converges(job, false, st, o);
    CommittedMeans(st', job.turnId, i, a);
  }

  predicate HasFinalReply(ms: seq<Message>, turnId: string) {
    exists i :: 0 <= i < |ms| && IsReply(ms[i], turnId) && Finalized(ms[i])
  }

  lemma {:induction false} CommittedMeans(st: Store, turnId: string, i: nat, a: Answer)
    requires TurnCommitted(st, turnId, i, a)
    ensures st.session == COMPLETED_SESSION && HasFinalReply(st.messages, turnId)
  {
  }

  lemma {:induction false} RefusedSession(job: Job, st: Store, o: Oracle)
    requires st.execution.status != Succeeded && o.resolve == Refused && o.failedSession == Done
    ensures Process(job, false, st, o).session == FailedSession(job, o, PLAIN)
    ensures FailedSession(job, o, PLAIN).lastTurn.value.status == TurnIsFailed
  {
    hide Dispatch, Recover;
    FailSession(job, st, o, PLAIN);
  }

  /** Witness run: the turn is committed and the session completed, only the completion signal is
      refused; the ordinary retry then fails in the resolver and puts a failed manifest over it. */
  lemma {:induction false} RegressRun(job: Job, st: Store, first: Oracle, second: Oracle)
    requires Fresh(job, st) && st.task == Queued && st.execution.status == Running && st.execution.retries > 0
    requires CommitsSucceed(first) && ProviderSucceeds(first) && InsertLands(job, st, first)
    requires first.signal == Refused && first.failedSignal == Done
    requires second.resolve == Refused && second.failedSession == Done
    ensures var mid := Run(job, false, st, [Work(first)]);
            var end := Run(job, false, st, [Work(first), Send(RetryRequested), Send(Start), Work(second)]);
            && mid.session == COMPLETED_SESSION && HasFinalReply(mid.messages, job.turnId)
            && end.session == FailedSession(job, second, PLAIN)
            && end.session.lastTurn.value.status == TurnIsFailed
  {
    hide Process, FailedSession, HasFinalReply;
    var claimed := st.(task := Claimed);
    SignalRefused(job, claimed, first);
    assert [Work(first)][1..] == [];
    RunFour(job, false, st, Work(first), Send(RetryRequested), Send(Start), Work(second));
    var st1 := Process(job, false, claimed, first);
    assert Next(job, false, st, Work(first)) == st1;
    var st2 := Deliver(st1, RetryRequested);
    var st3 := Deliver(st2, Start);
    assert st3.execution.status == Running && st3.task == Queued;
    RefusedSession(job, st3.(task := Claimed), second);
  }

  // ----- When a held answer survives -------------------------------------------------------------------

  /** The step costs the turn its last copy: the turn is not anchored, and the step overwrites the
      session copy, or drops the task copy with the old row, while the other one is missing. An attempt
      does so exactly if it fails in the resolver and its failed manifest takes effect. */
  predicate Drops(job: Job, st: Store, step: Step) {
    var session, task := SessionCopy(st.session, job.turnId), TaskCopy(st.checkpoint, job.turnId);
    !Anchored(st, job.turnId)
    && match step
       case Work(o) =>
         && st.task == Queued && st.execution.status != Succeeded
         && Errs(o.resolve) && Lands(o.failedSession) && task.None?
       case Send(s) => s == Start && st.execution.status == Pending && session.None?
       case OtherSession(s) => SessionCopy(s, job.turnId).None? && task.None?
       case _ => false
  }

  lemma {:induction false} AnchoredHolds(st: Store, turnId: string, a: Answer)
    requires HoldsOnly(st, turnId, a) && Anchored(st, turnId)
    ensures Holds(st, turnId, a)
  {
    if HasReply(st.messages, turnId) {
      var i :| 0 <= i < |st.messages| && IsReply(st.messages[i], turnId);
      assert Readable(st.messages[i]) && AnswerOf(st.messages[i]) == a;
    }
  }

  /** Without event and reply, the answer is held by the session manifest or the task row. */
  lemma {:induction false} HeldByCopies(st: Store, turnId: string, a: Answer)
    requires HoldsOnly(st, turnId, a) && !Anchored(st, turnId)
    ensures Holds(st, turnId, a) <==>
            SessionCopy(st.session, turnId).Some? || TaskCopy(st.checkpoint, turnId).Some?
  {
  }

  lemma {:induction false} FailKeepsAnswer(job: Job, st: Store, o: Oracle, f: Failure, a: Answer)
    requires Holds(st, job.turnId, a)
    requires f.content == Some(a.content) && f.runtime == Some(a.runtime) && f.calls == a.calls
    ensures Holds(Fail(job, st, o, f), job.turnId, a)
  {
    hide Fail, FailedSession;
    FailCopies(job, st, o, f);
    FailedSessionCopy(job, o, f);
    var st' := Fail(job, st, o, f);
    if i :| 0 <= i < |st.events| && IsEventFor(st.events[i], job.turnId) && st.events[i].answer == a {
      assert st'.events[i] == st.events[i];
    }
  }

  /** Recreating a reply never loses the answer, wherever it stops. */
  lemma {:induction false} CreateKeepsAnswer(job: Job, st: Store, o: Oracle, a: Answer, turn: Manifest)
    requires Sound(st, job.turnId, a) && Holds(st, job.turnId, a) && !HasReply(st.messages, job.turnId)
    requires turn.turnId == job.turnId && Closed(turn) && NeedsFinalize(turn)
    ensures Holds(Create(job, st, o, a, turn), job.turnId, a)
  {
    hide FinalizeAt, Fail, Evolves, Sound, Closed, Holds;
    var st' := Create(job, st, o, a, turn);
    if InsertLands(job, st, o) {
      CreateReplies(job, st, o, a, turn);
      EvolvesRefl(st, job.turnId);
      CreateSafe(job, st, st, o, a, turn);
      SoundOnly(st', job.turnId, a);
      AnchoredHolds(st', job.turnId, a);
    } else {
      var st1 := st.(messages := InsertOthers(st.messages, o.others, job.turnId));
      MoreRowsHold(st, st1, job.turnId, a);
      FailKeepsAnswer(job, st1, o, CommitFailure(a, AssistantMessageCreate), a);
      assert st' == st1 || st' == Fail(job, st1, o, CommitFailure(a, AssistantMessageCreate));
    }
  }

  lemma {:induction false} SoundOnly(st: Store, turnId: string, a: Answer)
    requires Sound(st, turnId, a)
    ensures HoldsOnly(st, turnId, a)
  {
  }

  lemma {:induction false} MoreRowsHold(st: Store, st': Store, turnId: string, a: Answer)
    requires Holds(st, turnId, a) && st.messages <= st'.messages && st' == st.(messages := st'.messages)
    ensures Holds(st', turnId, a)
  {
    if i :| 0 <= i < |st.messages| && IsReply(st.messages[i], turnId)
            && Readable(st.messages[i]) && AnswerOf(st.messages[i]) == a {
      assert st'.messages[i] == st.messages[i];
    }
  }

  lemma {:induction false} WorkSurvives(job: Job, st: Store, o: Oracle, a: Answer)
    requires Sound(st, job.turnId, a) && Consistent(a) && Holds(st, job.turnId, a) && !Anchored(st, job.turnId)
    requires st.execution.status != Succeeded
    ensures Holds(Process(job, false, st, o), job.turnId, a) <==>
            !(Errs(o.resolve) && Lands(o.failedSession) && TaskCopy(st.checkpoint, job.turnId).None?)
  {
    hide Sound, Fail, Create, Produce, Resumed, Recover, Holds, Closed, MessageTurn, HasReply;
    SoundOnly(st, job.turnId, a);
    HeldByCopies(st, job.turnId, a);
    if o.resolve == Done {
      var r := Recover(st, job.turnId, false, o.listEvents);
      EventLogIsLastResort(st, job.turnId, a, o.listEvents);
      RecoverMeaning(st, job.turnId, false, o.listEvents, a);
      assert r.Recreate?;
      FreshTurnClosed(job, a, o.requestedAt, r.copy.capturedAt);
      CreateKeepsAnswer(job, st, o, a, MessageTurn(job, a, o.requestedAt, r.copy.capturedAt));
      ProcessDispatches(job, false, st, o);
    } else if Errs(o.resolve) {
      PlainFailureHolds(job, st, o, a);
    }
  }

  lemma {:induction false} PlainFailureHolds(job: Job, st: Store, o: Oracle, a: Answer)
    requires HoldsOnly(st, job.turnId, a) && Holds(st, job.turnId, a) && !Anchored(st, job.turnId)
    ensures Holds(Fail(job, st, o, PLAIN), job.turnId, a) <==>
            !(Lands(o.failedSession) && TaskCopy(st.checkpoint, job.turnId).None?)
  {
    hide Fail, FailedSession;
    FailCopies(job, st, o, PLAIN);
    FailedSessionCopy(job, o, PLAIN);
    var st' := Fail(job, st, o, PLAIN);
    forall i | 0 <= i < |st'.events| ensures !IsEventFor(st'.events[i], job.turnId) {
      if i < |st.events| { assert st'.events[i] == st.events[i]; }
    }
  }

  lemma {:induction false} OtherStepSurvives(job: Job, st: Store, step: Step, a: Answer)
    requires HoldsOnly(st, job.turnId, a) && Holds(st, job.turnId, a) && !Anchored(st, job.turnId) && !step.Work?
    ensures Holds(Next(job, false, st, step), job.turnId, a) <==> !Drops(job, st, step)
  {
    var st' := Next(job, false, st, step);
    match step {
      case Send(s) =>
        forall i | 0 <= i < |st'.events| ensures !IsEventFor(st'.events[i], job.turnId) {
          if i < |st.events| { assert st'.events[i] == st.events[i]; }
        }
      case Requeue =>
      case OtherSession(s) =>
      case OtherMessages(rows) => MoreRowsHold(st, st', job.turnId, a);
    }
  }

  /** A held answer survives a step exactly if the step does not drop it. */
  lemma {:induction false} AnswerSurvivesExactly(job: Job, st: Store, step: Step, a: Answer)
    requires Sound(st, job.turnId, a) && Backed(st, a) && Holds(st, job.turnId, a)
    ensures Holds(Next(job, false, st, step), job.turnId, a) <==> !Drops(job, st, step)
  {
    hide Sound, Process, Holds, HoldsOnly, Inv, Evolves, Anchored;
    SoundOnly(st, job.turnId, a);
    if Anchored(st, job.turnId) {
      AnchoredSurvives(job, st, step, a);
    } else if step.Work? {
      if st.task == Queued && st.execution.status != Succeeded {
        ClaimKeeps(st, job.turnId, a);
        WorkSurvives(job, st.(task := Claimed), step.o, a);
      } else {
        IdleWork(job, st, step.o, a);
      }
    } else {
      OtherStepSurvives(job, st, step, a);
    }
  }

  lemma {:induction false} ClaimKeeps(st: Store, turnId: string, a: Answer)
    requires Sound(st, turnId, a) && Holds(st, turnId, a)
    ensures var st' := st.(task := Claimed);
            Sound(st', turnId, a) && Holds(st', turnId, a) && (Anchored(st', turnId) <==> Anchored(st, turnId))
  {
  }

  lemma {:induction false} IdleWork(job: Job, st: Store, o: Oracle, a: Answer)
    requires Holds(st, job.turnId, a) && (st.task != Queued || st.execution.status == Succeeded)
    ensures Holds(Next(job, false, st, Work(o)), job.turnId, a)
  {
    hide Fail, Dispatch, Recover;
  }

  lemma {:induction false} AnchoredSurvives(job: Job, st: Store, step: Step, a: Answer)
    requires Sound(st, job.turnId, a) && Backed(st, a) && Anchored(st, job.turnId)
    ensures Holds(Next(job, false, st, step), job.turnId, a)
  {
    hide Next, Anchored;
    var st' := Next(job, false, st, step);
    NextGood(job, false, st, step);
    AnchorStays(st, st', job.turnId);
    AnchoredNotNone(st', job.turnId);
    var b :| Sound(st', job.turnId, b) && Backed(st', b);
    AnchoredHolds(st', job.turnId, b);
    AnchoredHolds(st, job.turnId, a);
    AnchoredAnswer(st, st', job.turnId, a, b);
  }

  lemma {:induction false} AnchoredNotNone(st: Store, turnId: string)
    requires Anchored(st, turnId)
    ensures !HoldsNone(st, turnId)
  {
  }

  /** The anchor is the same row or event before and after, so it names the same answer. */
  lemma {:induction false} AnchoredAnswer(st: Store, st': Store, turnId: string, a: Answer, b: Answer)
    requires HoldsOnly(st, turnId, a) && HoldsOnly(st', turnId, b)
    requires Evolves(st, st', turnId) && Anchored(st, turnId)
    ensures a == b
  {
    if i :| 0 <= i < |st.events| && IsEventFor(st.events[i], turnId) {
      assert st'.events[i] == st.events[i];
    } else {
      var i :| 0 <= i < |st.messages| && IsReply(st.messages[i], turnId);
      assert KeepsRow(st.messages[i], st'.messages[i]);
      assert IsReply(st'.messages[i], turnId);
    }
  }

  // ----- Failures without a runtime -----------------------------------------------------------------------

  /** Host tool calls that settled before every profile failed without a runtime: the failed manifest
      claims a settled tool loop that its event list knows nothing of. */
  lemma {:induction false} UntracedFailureDiverges(job: Job, st: Store, o: Oracle)
    requires HoldsNone(st, job.turnId) && st.execution.status != Succeeded
    requires o.resolve == Done && o.listEvents == Done && o.inFlight == Done && Lands(o.failedSession)
    requires Generate(o.hostCalls, o.replies) == Exhausted(None)
    requires LoopOf(o.hostCalls) in {LoopCompleted, LoopFailed}
    ensures var turn := Process(job, false, st, o).session.lastTurn;
            && turn.Some? && turn.value.toolLoopSettledAt.Some?
            && !Lists(turn.value.events, ToolLoopCompleted) && !Lists(turn.value.events, ToolLoopFailed)
  {
    hide FailedTurn, Lists, LoopOf, Process;
    ExhaustedSession(job, st, o);
    FailedStamps(job, ProviderError(o.hostCalls, None), o.requestedAt, o.failedAt);
    FailedTimestampsDiverge(job, None, None, o.hostCalls, None, o.requestedAt, o.failedAt);
  }

  /** A commit that fails after a streamed response: the first token is listed and not stamped. */
  lemma {:induction false} StreamedFailureDiverges(job: Job, st: Store, o: Oracle)
    requires HoldsNone(st, job.turnId) && st.execution.status != Succeeded && job.streamMode == Streaming
    requires o.resolve == Done && o.listEvents == Done && o.inFlight == Done && ProviderSucceeds(o)
    requires Generate(o.hostCalls, o.replies).answer.runtime.failure.None?
    requires !Crashes(o.checkpoint) && o.event == Refused && Lands(o.failedSession)
    ensures var turn := Process(job, false, st, o).session.lastTurn;
            turn.Some? && turn.value.firstTokenAt.None? && Lists(turn.value.events, FirstTokenEmitted)
  {
    hide Recover, Fail, FailedTurn, Lists, Publish, Generate;
    RecoverNone(st, job.turnId, false, o.listEvents);
    ProcessDispatches(job, false, st, o);
    var a := Generate(o.hostCalls, o.replies).answer;
    var f := CommitFailure(a, WorkflowEventRecoveryPersist);
    var flying := Session(PendingReply, Some(InFlightTurn(job, o.requestedAt)));
    var st1 := st.(session := flying, log := st.log + Calls(o.hostCalls, o.replies));
    var st2 := PutCheckpoint(st1, Some(Checkpoint(job.turnId, Copy(a, o.readyAt))), o.checkpoint);
    assert Commit(job, st1, o, a) == Fail(job, st2, o, f);
    FailSession(job, st2, o, f);
    FailedStamps(job, f, o.requestedAt, o.failedAt);
    FailedTimestampsDiverge(job, f.content, f.runtime, f.calls, f.source, o.requestedAt, o.failedAt);
  }

  /** Streaming was asked for and no profile was reached: the stream is stamped completed without an
      event. */
  lemma {:induction false} UnreachedFailureDiverges(job: Job, st: Store, o: Oracle)
    requires HoldsNone(st, job.turnId) && st.execution.status != Succeeded && job.streamMode == Streaming
    requires o.resolve == Done && o.listEvents == Done && o.inFlight == Done && Lands(o.failedSession)
    requires Generate(o.hostCalls, o.replies) == Exhausted(None)
    ensures var turn := Process(job, false, st, o).session.lastTurn;
            && turn.Some? && turn.value.streamCompletedAt.Some?
            && !Lists(turn.value.events, StreamCompleted) && !Lists(turn.value.events, StreamFailed)
  {
    hide FailedTurn, Lists, Process;
    ExhaustedSession(job, st, o);
    FailedStamps(job, ProviderError(o.hostCalls, None), o.requestedAt, o.failedAt);
    FailedTimestampsDiverge(job, None, None, o.hostCalls, None, o.requestedAt, o.failedAt);
  }

  /** What an attempt leaves in the session when every profile failed without a runtime. */
  lemma {:induction false} ExhaustedSession(job: Job, st: Store, o: Oracle)
    requires HoldsNone(st, job.turnId) && st.execution.status != Succeeded
    requires o.resolve == Done && o.listEvents == Done && o.inFlight == Done && Lands(o.failedSession)
    requires Generate(o.hostCalls, o.replies) == Exhausted(None)
    ensures Process(job, false, st, o).session.lastTurn ==
            Some(FailedTurn(job, None, None, o.hostCalls, None, o.requestedAt, o.failedAt))
  {
    hide Recover, Fail, FailedTurn, Commit, Generate;
    RecoverNone(st, job.turnId, false, o.listEvents);
    ProcessDispatches(job, false, st, o);
    var flying := Session(PendingReply, Some(InFlightTurn(job, o.requestedAt)));
    var st1 := st.(session := flying, log := st.log + Calls(o.hostCalls, o.replies));
    var f := ProviderError(o.hostCalls, None);
    assert Produce(job, st, o) == Fail(job, st1, o, f);
    FailSession(job, st1, o, f);
  }

  lemma {:induction false} FailedStamps(job: Job, f: Failure, requestedAt: Time, failedAt: Time)
    ensures var m := FailedTurn(job, f.content, f.runtime, f.calls, f.source, requestedAt, failedAt);
            && m.firstTokenAt.None?
            && (m.streamCompletedAt.Some? <==> job.streamMode == Streaming)
            && (m.toolLoopSettledAt.Some? <==> LoopOf(f.calls) in {LoopCompleted, LoopFailed})
  {
    hide LoopOf, FailedTable;
  }
}
