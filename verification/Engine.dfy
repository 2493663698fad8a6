/** The workflow engine around the attempts: which moves it allows, and how often a turn can be started. */
module Engine {
  import opened Prelude
  import opened Llm
  import opened TurnManifest
  import opened TurnStore
  import opened Attempt
  import opened Outcomes

  /** Every move of an execution. Success needs the completion of the running step; a failed execution is
      retried while retries last and dead-lettered after; cancelling is always possible; nothing else ever
      changes the number of retries. */
  lemma {:induction false} EngineMoves(e: Execution, s: Signal)
    ensures Transition(e, s).Some? <==>
            || s == CancelRequested
            || (e.status == Pending && s == Start)
            || (e.status == Running && (s == StepCompleted(true) || s == StepFailed))
            || (e.status == WorkflowFailed && s == RetryRequested)
    ensures Transition(e, s).Some? ==>
              var e' := Transition(e, s).value;
              && (e'.status == Running <==> s == Start)
              && (e'.status == Succeeded <==> s == StepCompleted(true))
              && (e'.status == WorkflowFailed <==> s == StepFailed)
              && (e'.status == Cancelled <==> s == CancelRequested)
              && (e'.status == Pending <==> s == RetryRequested && e.retries > 0)
              && (e'.status == DeadLettered <==> s == RetryRequested && e.retries == 0)
              && e'.retries == e.retries - (if e'.status == Pending then 1 else 0)
  {
  }

  /** A delivered signal is one transaction: refused, it changes nothing; accepted, it moves the execution and
      appends an event, and only `Start` touches the task row. */
  lemma {:induction false} DeliverExactly(st: Store, s: Signal)
    ensures Transition(st.execution, s).None? ==> Deliver(st, s) == st
    ensures Transition(st.execution, s).Some? ==>
              var st' := Deliver(st, s);
              && st'.execution == Transition(st.execution, s).value && st'.events == st.events + [EngineEvent]
              && st'.session == st.session && st'.messages == st.messages && st'.log == st.log
              && (s == Start ==> st'.task == Queued && st'.checkpoint.None?)
              && (s != Start ==> st'.task == st.task && st'.checkpoint == st.checkpoint)
  {
  }

  // ----- What attempts do to the execution ----------------------------------------------------------------------

  /** An attempt leaves the execution alone, or ends its running step. */
  predicate EndsStep(e: Execution, e': Execution) {
    e' == e || (e.status == Running && (e' == e.(status := WorkflowFailed) || e' == e.(status := Succeeded)))
  }

  lemma {:induction false} FailEndsStep(job: Job, st: Store, o: Oracle, f: Failure)
    ensures Fail(job, st, o, f).execution == st.execution
            || (st.execution.status == Running
                && Fail(job, st, o, f).execution == st.execution.(status := WorkflowFailed))
  {
    hide FailedSession;
  }

  lemma {:induction false} CompleteEndsStep(job: Job, st: Store, o: Oracle, a: Answer)
    ensures EndsStep(st.execution, Complete(job, st, o, a).execution)
  {
    hide Fail;
    var st1 := PutSession(st, COMPLETED_SESSION, o.complete);
    FailEndsStep(job, st1, o, CommitFailure(a, SessionContextUpdate));
    FailEndsStep(job, PutSignal(st1, StepCompleted(true), o.signal), o, PostCommit(a));
  }

  lemma {:induction false} RecordEndsStep(job: Job, st: Store, o: Oracle, i: nat, a: Answer)
    ensures EndsStep(st.execution, Record(job, st, o, i, a).execution)
  {
    hide Fail, Complete;
    FailEndsStep(job, PutRecords(st, i, a, o.invocation, Refused), o, CommitFailure(a, LlmInvocationPersist));
    FailEndsStep(job, PutRecords(st, i, a, o.invocation, o.tools), o, CommitFailure(a, ToolExecutionPersist));
    CompleteEndsStep(job, PutRecords(st, i, a, o.invocation, o.tools), o, a);
  }

  lemma {:induction false} FinalizeEndsStep(job: Job, st: Store, o: Oracle, i: nat, a: Answer, f: Failure)
    requires i < |st.messages| && st.messages[i].manifest.turn.Some?
    ensures EndsStep(st.execution, FinalizeAt(job, st, o, i, a, f).execution)
  {
    hide Fail, Record, Finalize;
    var st1 := PutManifest(st, i, Finalize(st.messages[i].manifest.turn.value, i, o.persistedAt), o.finalize);
    FailEndsStep(job, st1, o, f);
    RecordEndsStep(job, st1, o, i, a);
  }

  lemma {:induction false} CreateEndsStep(job: Job, st: Store, o: Oracle, a: Answer, turn: Manifest)
    ensures EndsStep(st.execution, Create(job, st, o, a, turn).execution)
  {
    hide Fail, FinalizeAt, NextTurnIndex;
    var row := ReplyRow(st.messages, a, turn);
    var more := InsertOthers(st.messages, o.others, job.turnId);
    var free := IndexFree(more, row.turnIndex);
    var st1 := st.(messages := if Lands(o.create) && free then more + [row] else more);
    FailEndsStep(job, st1, o, CommitFailure(a, AssistantMessageCreate));
    if o.create == Done && free {
      FinalizeEndsStep(job, st1, o, |more|, a, CommitFailure(a, AssistantMessageManifestUpdate));
    }
  }

  lemma {:induction false} CommitEndsStep(job: Job, st: Store, o: Oracle, a: Answer)
    ensures EndsStep(st.execution, Commit(job, st, o, a).execution)
  {
    hide Fail, Create, ReadyTurn, MessageTurn;
    var ready := Session(PendingReply, Some(ReadyTurn(job, a, o.requestedAt, o.readyAt)));
    var st1 := PutCheckpoint(st, Some(Checkpoint(job.turnId, Copy(a, o.readyAt))), o.checkpoint);
    var st2 := PutEvent(st1, RecoveryEvent(job.turnId, a, o.readyAt), o.event);
    var st3 := PutSession(st2, ready, o.ready);
    FailEndsStep(job, st2, o, CommitFailure(a, WorkflowEventRecoveryPersist));
    FailEndsStep(job, st3, o, CommitFailure(a, ResponseReadySessionUpdate));
    CreateEndsStep(job, st3, o, a, MessageTurn(job, a, o.requestedAt, o.completedAt));
  }

  lemma {:induction false} ProduceEndsStep(job: Job, st: Store, o: Oracle)
    ensures EndsStep(st.execution, Produce(job, st, o).execution)
  {
    hide Fail, Commit, InFlightTurn, Generate, Calls;
    var st1 := PutSession(st, Session(PendingReply, Some(InFlightTurn(job, o.requestedAt))), o.inFlight);
    var st2 := st1.(log := st1.log + Calls(o.hostCalls, o.replies));
    FailEndsStep(job, st1, o, PLAIN);
    match Generate(o.hostCalls, o.replies) {
      case Exhausted(rt) => FailEndsStep(job, st2, o, ProviderError(o.hostCalls, rt));
      case Generated(a) =>
        FailEndsStep(job, st2, o, Failure(Some(a.content), Some(a.runtime), a.calls, None, false));
        CommitEndsStep(job, st2, o, a);
    }
  }

  lemma {:induction false} ProcessEndsStep(job: Job, strict: bool, st: Store, o: Oracle)
    ensures EndsStep(st.execution, Process(job, strict, st, o).execution)
  {
    hide Fail, Recover, Create, Produce, FinalizeAt, Record, MessageTurn;
    FailEndsStep(job, st, o, PLAIN);
    match Recover(st, job.turnId, strict, o.listEvents) {
      case Resume(i) =>
        FinalizeEndsStep(job, st, o, i, AnswerOf(st.messages[i]), PLAIN);
        RecordEndsStep(job, st, o, i, AnswerOf(st.messages[i]));
      case Recreate(c) =>
        CreateEndsStep(job, st, o, c.answer, MessageTurn(job, c.answer, o.requestedAt, c.capturedAt));
      case Regenerate => ProduceEndsStep(job, st, o);
      case _ =>
    }
  }

  /** An attempt on a turn that has already succeeded only closes its row. */
  lemma {:induction false} SucceededOnlyCloses(job: Job, strict: bool, st: Store, o: Oracle)
    requires st.execution.status == Succeeded
    ensures Process(job, strict, st, o) == st.(task := if Lands(o.markSucceeded) then TaskSucceeded else st.task)
  {
    hide Fail, Recover, Dispatch;
  }

  // ----- How often a turn can be started ---------------------------------------------------------------------------

  /** Starts that are still possible. */
  function Budget(e: Execution): nat {
    e.retries + if e.status == Pending then 1 else 0
  }

  /** The number of fresh task rows a run makes. */
  function Starts(job: Job, strict: bool, st: Store, steps: seq<Step>): nat
    decreases |steps|
  {
    if steps == [] then 0
    else (if steps[0] == Send(Start) && st.execution.status == Pending then 1 else 0)
         + Starts(job, strict, Next(job, strict, st, steps[0]), steps[1..])
  }

  lemma {:induction false} StepSpends(job: Job, strict: bool, st: Store, step: Step)
    ensures var started := if step == Send(Start) && st.execution.status == Pending then 1 else 0;
            Budget(Next(job, strict, st, step).execution) + started <= Budget(st.execution)
  {
    hide Process;
    if step.Work? { ProcessEndsStep(job, strict, st.(task := Claimed), step.o); }
  }

  /** Over every run, whatever fails, a turn is started at most once per retry, and once more if it was still
      pending: retries cannot be gained, and each start uses one up. */
  lemma {:induction false} StartsAreBounded(job: Job, strict: bool, st: Store, steps: seq<Step>)
    ensures Starts(job, strict, st, steps) + Budget(Run(job, strict, st, steps).execution) <= Budget(st.execution)
    decreases |steps|
  {
    hide Next, Budget;
    if steps != [] {
      StepSpends(job, strict, st, steps[0]);
      StartsAreBounded(job, strict, Next(job, strict, st, steps[0]), steps[1..]);
    }
  }
}
