/** The worker's own form of an attempt: a sequence of separate updates of durable fields, each
    of which may fail or be the last before a crash. Every method is proved to leave exactly the
    store that the corresponding stage of module Attempt describes, so all results about runs
    hold of this code. */
module TurnWorker {
  import opened Prelude
  import opened Llm
  import opened TurnManifest
  import opened TurnStore
  import A = Attempt
  import S = Safety

  class Worker {
    var messages: seq<Message>
    var session: Session
    var checkpoint: Option<Checkpoint>
    var task: TaskStatus
    var events: seq<EventRecord>
    var execution: Execution
    var invocations: map<nat, Runtime>
    var toolExecutions: map<nat, seq<ToolCall>>
    var log: seq<ProviderCall>

    function View(): Store
      reads this
    {
      Store(messages, session, checkpoint, task, events, execution, invocations, toolExecutions, log)
    }

    constructor (st: Store)
      ensures View() == st
    {
      messages, session, checkpoint, task := st.messages, st.session, st.checkpoint, st.task;
      events, execution := st.events, st.execution;
      invocations, toolExecutions, log := st.invocations, st.toolExecutions, st.log;
    }

    /** `apply_workflow_signal_with_dependencies`; `ok` says whether it returned without error. */
    method ApplySignal(s: Signal, k: A.Ack) returns (ok: bool)
      modifies this
      ensures View() == A.PutSignal(old(View()), s, k)
      ensures ok == !A.SignalErrs(old(View()), s, k)
    {
      var next := Transition(execution, s);
      ok := next.Some? && !A.Errs(k);
      if next.Some? && A.Lands(k) {
        execution := next.value;
        events := events + [EngineEvent];
        if s == Start {
          task := Queued;
          checkpoint := None;
        }
      }
    }

    method ReportFailure(job: Job, o: A.Oracle, f: A.Failure)
      modifies this
      ensures View() == A.Fail(job, old(View()), o, f)
    {
      if !f.preserve {
        if A.Lands(o.failedSession) { session := A.FailedSession(job, o, f); }
        if A.Crashes(o.failedSession) { return; }
      }
      var _ := ApplySignal(StepFailed, o.failedSignal);
      if A.Crashes(o.failedSignal) { return; }
      if A.Lands(o.markFailed) { task := TaskFailed; }
    }

    method CloseTask(o: A.Oracle)
      modifies this
      ensures View() == A.Finish(old(View()), o)
    {
      if A.Lands(o.clear) { checkpoint := None; }
      if A.Crashes(o.clear) { return; }
      if A.Lands(o.markSucceeded) { task := TaskSucceeded; }
    }

    method CompleteTurn(job: Job, o: A.Oracle, a: Answer)
      modifies this
      ensures View() == A.Complete(job, old(View()), o, a)
    {
      if A.Lands(o.complete) { session := A.COMPLETED_SESSION; }
      if A.Crashes(o.complete) { return; }
      if A.Errs(o.complete) {
        ReportFailure(job, o, A.CommitFailure(a, SessionContextUpdate));
        return;
      }
      var ok := ApplySignal(StepCompleted(true), o.signal);
      if A.Crashes(o.signal) { return; }
      if !ok {
        ReportFailure(job, o, A.PostCommit(a));
        return;
      }
      CloseTask(o);
    }

    method RecordTurn(job: Job, o: A.Oracle, i: nat, a: Answer)
      modifies this
      ensures View() == A.Record(job, old(View()), o, i, a)
    {
      if A.Lands(o.invocation) { invocations := invocations[i := a.runtime]; }
      if A.Crashes(o.invocation) { return; }
      if A.Errs(o.invocation) {
        ReportFailure(job, o, A.CommitFailure(a, LlmInvocationPersist));
        return;
      }
      if A.Lands(o.tools) { toolExecutions := toolExecutions[i := a.calls]; }
      if A.Crashes(o.tools) { return; }
      if A.Errs(o.tools) {
        ReportFailure(job, o, A.CommitFailure(a, ToolExecutionPersist));
        return;
      }
      CompleteTurn(job, o, a);
    }

    method FinalizeMessage(job: Job, o: A.Oracle, i: nat, a: Answer, f: A.Failure)
      requires i < |messages| && messages[i].manifest.turn.Some?
      modifies this
      ensures View() == A.FinalizeAt(job, old(View()), o, i, a, f)
    {
      if A.Lands(o.finalize) {
        var t := Finalize(messages[i].manifest.turn.value, i, o.persistedAt);
        messages := messages[i := A.PutTurn(messages[i], t)];
      }
      if A.Crashes(o.finalize) { return; }
      if A.Errs(o.finalize) {
        ReportFailure(job, o, f);
        return;
      }
      RecordTurn(job, o, i, a);
    }

    method CreateMessage(job: Job, o: A.Oracle, a: Answer, turn: Manifest)
      modifies this
      ensures View() == A.Create(job, old(View()), o, a, turn)
    {
      var row := A.ReplyRow(messages, a, turn);
      messages := InsertOthers(messages, o.others, job.turnId);
      var free := IndexFree(messages, row.turnIndex);
      var at := |messages|;
      if A.Lands(o.create) && free { messages := messages + [row]; }
      if A.Crashes(o.create) { return; }
      if A.Errs(o.create) || !free {
        ReportFailure(job, o, A.CommitFailure(a, AssistantMessageCreate));
        return;
      }
      FinalizeMessage(job, o, at, a, A.CommitFailure(a, AssistantMessageManifestUpdate));
    }

    method PublishReply(job: Job, o: A.Oracle, a: Answer)
      modifies this
      ensures View() == A.Publish(job, old(View()), o, a)
    {
      if A.Lands(o.ready) {
        session := Session(PendingReply, Some(ReadyTurn(job, a, o.requestedAt, o.readyAt)));
      }
      if A.Crashes(o.ready) { return; }
      if A.Errs(o.ready) {
        ReportFailure(job, o, A.CommitFailure(a, ResponseReadySessionUpdate));
        return;
      }
      CreateMessage(job, o, a, MessageTurn(job, a, o.requestedAt, o.completedAt));
    }

    method CommitReply(job: Job, o: A.Oracle, a: Answer)
      modifies this
      ensures View() == A.Commit(job, old(View()), o, a)
    {
      if A.Lands(o.checkpoint) { checkpoint := Some(Checkpoint(job.turnId, Copy(a, o.readyAt))); }
      if A.Crashes(o.checkpoint) { return; }
      if A.Lands(o.event) { events := events + [RecoveryEvent(job.turnId, a, o.readyAt)]; }
      if A.Crashes(o.event) { return; }
      if A.Errs(o.event) {
        ReportFailure(job, o, A.CommitFailure(a, WorkflowEventRecoveryPersist));
        return;
      }
      PublishReply(job, o, a);
    }

    method ProduceReply(job: Job, o: A.Oracle)
      modifies this
      ensures View() == A.Produce(job, old(View()), o)
    {
      if A.Lands(o.inFlight) { session := Session(PendingReply, Some(InFlightTurn(job, o.requestedAt))); }
      if A.Crashes(o.inFlight) { return; }
      if A.Errs(o.inFlight) {
        ReportFailure(job, o, A.PLAIN);
        return;
      }
      var g, called := A.RunProfiles(o.hostCalls, o.replies);
      log := log + called;
      match g {
        case Exhausted(rt) => ReportFailure(job, o, A.ProviderError(o.hostCalls, rt));
        case Generated(a) =>
          if Errored(a.runtime) {
            ReportFailure(job, o, A.Failure(Some(a.content), Some(a.runtime), a.calls, None, false));
          } else {
            CommitReply(job, o, a);
          }
      }
    }

    method ProcessTask(job: Job, o: A.Oracle)
      modifies this
      ensures View() == A.Process(job, false, old(View()), o)
      ensures S.Inv(old(View()), job.turnId) ==> S.Good(old(View()), View(), job.turnId)
    {
      hide A.Recover, A.Fail, A.Create, A.Produce, A.FinalizeAt, A.Record, S.Good, S.Inv, MessageTurn;
      if S.Inv(View(), job.turnId) {
        S.ProcessGood(job, false, View(), o);
      }
      if execution.status == Succeeded {
        if A.Lands(o.markSucceeded) { task := TaskSucceeded; }
        return;
      }
      if A.Crashes(o.resolve) { return; }
      if A.Errs(o.resolve) {
        ReportFailure(job, o, A.PLAIN);
        return;
      }
      var r := A.Recover(View(), job.turnId, false, o.listEvents);
      match r {
        case Died =>
        case Broken => ReportFailure(job, o, A.PLAIN);
        case Resume(i) =>
          var m := messages[i];
          if NeedsFinalize(m.manifest.turn.value) {
            FinalizeMessage(job, o, i, AnswerOf(m), A.PLAIN);
          } else {
            RecordTurn(job, o, i, AnswerOf(m));
          }
        case Recreate(c) =>
          CreateMessage(job, o, c.answer, MessageTurn(job, c.answer, o.requestedAt, c.capturedAt));
        case Regenerate => ProduceReply(job, o);
      }
    }
  }
}
