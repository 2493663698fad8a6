/** What an attempt leaves behind: its commit is a chain of writes, and the first one that does not simply
    succeed decides what the session manifest, the execution and the task row say in the end. */
module CommitTrail {
  import opened Prelude
  import opened Llm
  import opened TurnManifest
  import opened ManifestStory
  import opened TurnStore
  import opened Attempt
  import opened Safety
  import opened Outcomes

  /** The part of the store that tells how an attempt ended. */
  datatype Ending = Ending(session: Session, execution: Execution, task: TaskStatus, checkpoint: Option<Checkpoint>)

  function EndingOf(st: Store): Ending {
    Ending(st.session, st.execution, st.task, st.checkpoint)
  }

  /** One write of the chain: how it ends, what a failure of it is called, and the session manifest it
      puts in place, if it is a write of the session. */
  datatype Write = Write(ack: Ack, source: CommitSource, puts: Option<Session>)

  /** A failed manifest that keeps the answer. */
  function KeptFailure(job: Job, o: Oracle, a: Answer, source: Option<CommitSource>): Session {
    Session(PendingReply,
            Some(FailedTurn(job, Some(a.content), Some(a.runtime), a.calls, source, o.requestedAt, o.failedAt)))
  }

  /** A failed manifest that keeps nothing. */
  function BareFailure(job: Job, o: Oracle): Session {
    Session(PendingReply, Some(FailedTurn(job, None, None, [], None, o.requestedAt, o.failedAt)))
  }

  function Flying(job: Job, o: Oracle): Session {
    Session(PendingReply, Some(InFlightTurn(job, o.requestedAt)))
  }

  /** The failure signal, if it takes effect, fails a running execution; then the row is closed. */
  function Signalled(o: Oracle, e: Ending): Ending {
    var e1 := if Lands(o.failedSignal) && e.execution.status == Running
              then e.(execution := e.execution.(status := WorkflowFailed)) else e;
    if Crashes(o.failedSignal) || !Lands(o.markFailed) then e1 else e1.(task := TaskFailed)
  }

  /** A reported failure: the failed manifest, unless that write has no effect, and then the signal. */
  function Reported(o: Oracle, e: Ending, failed: Session): Ending {
    var e1 := if Lands(o.failedSession) then e.(session := failed) else e;
    if Crashes(o.failedSession) then e1 else Signalled(o, e1)
  }

  /** The end of a completed chain: the execution succeeds and the row is cleared and closed; if the signal
      fails or the execution was not running, the failure is signalled and the session left alone. */
  function Completed(o: Oracle, e: Ending): Ending {
    var running := e.execution.status == Running;
    var e1 := if Lands(o.signal) && running then e.(execution := e.execution.(status := Succeeded)) else e;
    if Crashes(o.signal) then e1
    else if Errs(o.signal) || !running then Signalled(o, e1)
    else
      var e2 := if Lands(o.clear) then e1.(checkpoint := None) else e1;
      if Crashes(o.clear) || !Lands(o.markSucceeded) then e2 else e2.(task := TaskSucceeded)
  }

  function PutBy(w: Write, e: Ending): Ending {
    if Lands(w.ack) && w.puts.Some? then e.(session := w.puts.value) else e
  }

  /** How an attempt ends that makes a chain of writes. */
  function Trail(job: Job, o: Oracle, a: Answer, e: Ending, ws: seq<Write>): Ending
    decreases |ws|
  {
    if ws == [] then Completed(o, e)
    else if Crashes(ws[0].ack) then PutBy(ws[0], e)
    else if Errs(ws[0].ack) then Reported(o, PutBy(ws[0], e), KeptFailure(job, o, a, Some(ws[0].source)))
    else Trail(job, o, a, PutBy(ws[0], e), ws[1..])
  }

  lemma {:induction false} TrailCons(job: Job, o: Oracle, a: Answer, e: Ending, w: Write, ws: seq<Write>)
    ensures Trail(job, o, a, e, [w] + ws) ==
            if Crashes(w.ack) then PutBy(w, e)
            else if Errs(w.ack) then Reported(o, PutBy(w, e), KeptFailure(job, o, a, Some(w.source)))
            else Trail(job, o, a, PutBy(w, e), ws)
  {
    assert ([w] + ws)[1..] == ws;
  }

  lemma {:induction false} TrailNil(job: Job, o: Oracle, a: Answer, e: Ending)
    ensures Trail(job, o, a, e, []) == Completed(o, e)
  {
  }

  /** The first write that reports an error names the failure, provided that the failed manifest takes
      effect. */
  lemma {:induction false} FirstErrorNamed(job: Job, o: Oracle, a: Answer, e: Ending, ws: seq<Write>, k: nat)
    requires k < |ws| && Errs(ws[k].ack) && (forall j :: 0 <= j < k ==> ws[j].ack == Done) && Lands(o.failedSession)
    ensures Trail(job, o, a, e, ws).session == KeptFailure(job, o, a, Some(ws[k].source))
    decreases k
  {
    hide FailedTurn, Completed;
    if k > 0 { FirstErrorNamed(job, o, a, PutBy(ws[0], e), ws[1..], k - 1); }
  }

  /** Only a chain without any trouble lets the execution succeed, and only while it is running. */
  lemma {:induction false} SucceedsExactly(job: Job, o: Oracle, a: Answer, e: Ending, ws: seq<Write>)
    requires e.execution.status != Succeeded
    ensures Trail(job, o, a, e, ws).execution.status == Succeeded <==>
            && (forall j :: 0 <= j < |ws| ==> ws[j].ack == Done)
            && e.execution.status == Running && Lands(o.signal)
    decreases |ws|
  {
    if ws != [] {
      var w := ws[0];
      if w.ack == Done {
        SucceedsExactly(job, o, a, PutBy(w, e), ws[1..]);
        assert forall j :: 1 <= j < |ws| ==> ws[j] == ws[1..][j - 1];
      }
    }
  }

  // ----- The chains --------------------------------------------------------------------------------------

  /** Records of the committed reply, and the completed session. */
  function RecordWrites(o: Oracle): seq<Write> {
    [Write(o.invocation, LlmInvocationPersist, None)]
    + ([Write(o.tools, ToolExecutionPersist, None)]
       + ([Write(o.complete, SessionContextUpdate, Some(Session(Replied, None)))] + []))
  }

  /** An insert under an index that has been taken is refused. */
  function InsertAck(job: Job, ms: seq<Message>, o: Oracle): Ack {
    if Crashes(o.create) || IndexFree(InsertOthers(ms, o.others, job.turnId), NextTurnIndex(ms)) then o.create
    else Refused
  }

  /** Insert and finalise the reply, then the records. */
  function ReplyWrites(job: Job, ms: seq<Message>, o: Oracle): seq<Write> {
    [Write(InsertAck(job, ms, o), AssistantMessageCreate, None)]
    + ([Write(o.finalize, AssistantMessageManifestUpdate, None)] + RecordWrites(o))
  }

  /** The whole commit of a fresh answer. */
  function CommitWrites(job: Job, ms: seq<Message>, o: Oracle, a: Answer): seq<Write> {
    [Write(o.event, WorkflowEventRecoveryPersist, None)]
    + ([Write(o.ready, ResponseReadySessionUpdate,
              Some(Session(PendingReply, Some(ReadyTurn(job, a, o.requestedAt, o.readyAt)))))]
       + ReplyWrites(job, ms, o))
  }

  // ----- The stages follow the chains ---------------------------------------------------------------------

  lemma {:induction false} FailLeaves(job: Job, st: Store, o: Oracle, f: Failure)
    ensures EndingOf(Fail(job, st, o, f)) ==
            if f.preserve then Signalled(o, EndingOf(st))
            else Reported(o, EndingOf(st), Session(PendingReply,
                   Some(FailedTurn(job, f.content, f.runtime, f.calls, f.source, o.requestedAt, o.failedAt))))
  {
    hide FailedTurn;
  }

  lemma {:induction false} CompleteTrail(job: Job, st: Store, o: Oracle, a: Answer)
    ensures EndingOf(Complete(job, st, o, a)) ==
            Trail(job, o, a, EndingOf(st), [Write(o.complete, SessionContextUpdate, Some(Session(Replied, None)))] + [])
  {
    hide Fail, FailedTurn, Trail;
    var w := Write(o.complete, SessionContextUpdate, Some(Session(Replied, None)));
    TrailCons(job, o, a, EndingOf(st), w, []);
    TrailNil(job, o, a, PutBy(w, EndingOf(st)));
    var st1 := PutSession(st, COMPLETED_SESSION, o.complete);
    FailLeaves(job, st1, o, CommitFailure(a, SessionContextUpdate));
    FailLeaves(job, PutSignal(st1, StepCompleted(true), o.signal), o, PostCommit(a));
  }

  lemma {:induction false} RecordTrail(job: Job, st: Store, o: Oracle, i: nat, a: Answer)
    ensures EndingOf(Record(job, st, o, i, a)) == Trail(job, o, a, EndingOf(st), RecordWrites(o))
  {
    hide Fail, FailedTurn, Trail, Complete, Reported;
    var last := [Write(o.complete, SessionContextUpdate, Some(Session(Replied, None)))] + [];
    var w1, w2 := Write(o.invocation, LlmInvocationPersist, None), Write(o.tools, ToolExecutionPersist, None);
    var st1 := PutRecords(st, i, a, o.invocation, Refused);
    var st2 := PutRecords(st, i, a, o.invocation, o.tools);
    TrailCons(job, o, a, EndingOf(st), w1, [w2] + last);
    TrailCons(job, o, a, EndingOf(st), w2, last);
    FailLeaves(job, st1, o, CommitFailure(a, LlmInvocationPersist));
    FailLeaves(job, st2, o, CommitFailure(a, ToolExecutionPersist));
    CompleteTrail(job, st2, o, a);
  }

  lemma {:induction false} CreateTrail(job: Job, st: Store, o: Oracle, a: Answer, turn: Manifest)
    ensures EndingOf(Create(job, st, o, a, turn)) ==
            Trail(job, o, a, EndingOf(st), ReplyWrites(job, st.messages, o))
  {
    hide Fail, FailedTurn, Trail, Record, RecordWrites, Finalize, NextTurnIndex, Reported;
    var row := ReplyRow(st.messages, a, turn);
    var more := InsertOthers(st.messages, o.others, job.turnId);
    var free := IndexFree(more, row.turnIndex);
    var st1 := st.(messages := if Lands(o.create) && free then more + [row] else more);
    var w1 := Write(InsertAck(job, st.messages, o), AssistantMessageCreate, None);
    var w2 := Write(o.finalize, AssistantMessageManifestUpdate, None);
    TrailCons(job, o, a, EndingOf(st), w1, [w2] + RecordWrites(o));
    TrailCons(job, o, a, EndingOf(st), w2, RecordWrites(o));
    FailLeaves(job, st1, o, CommitFailure(a, AssistantMessageCreate));
    if o.create == Done && free {
      var st2 := PutManifest(st1, |more|, Finalize(turn, |more|, o.persistedAt), o.finalize);
      FailLeaves(job, st2, o, CommitFailure(a, AssistantMessageManifestUpdate));
      RecordTrail(job, st2, o, |more|, a);
    }
  }

  /** The ending a commit starts from: the best-effort checkpoint may be in place. */
  function Checkpointing(job: Job, o: Oracle, a: Answer, e: Ending): Ending {
    if Lands(o.checkpoint) then e.(checkpoint := Some(Checkpoint(job.turnId, Copy(a, o.readyAt)))) else e
  }

  lemma {:induction false} CommitEnding(job: Job, st: Store, o: Oracle, a: Answer)
    ensures EndingOf(Commit(job, st, o, a)) ==
            var e := Checkpointing(job, o, a, EndingOf(st));
            if Crashes(o.checkpoint) then e else Trail(job, o, a, e, CommitWrites(job, st.messages, o, a))
  {
    hide Fail, FailedTurn, Trail, Create, ReplyWrites, ReadyTurn, MessageTurn, Reported;
    var ready := Session(PendingReply, Some(ReadyTurn(job, a, o.requestedAt, o.readyAt)));
    var w1 := Write(o.event, WorkflowEventRecoveryPersist, None);
    var w2 := Write(o.ready, ResponseReadySessionUpdate, Some(ready));
    var st1 := PutCheckpoint(st, Some(Checkpoint(job.turnId, Copy(a, o.readyAt))), o.checkpoint);
    var st2 := PutEvent(st1, RecoveryEvent(job.turnId, a, o.readyAt), o.event);
    var st3 := PutSession(st2, ready, o.ready);
    TrailCons(job, o, a, EndingOf(st1), w1, [w2] + ReplyWrites(job, st.messages, o));
    TrailCons(job, o, a, EndingOf(st1), w2, ReplyWrites(job, st.messages, o));
    FailLeaves(job, st2, o, CommitFailure(a, WorkflowEventRecoveryPersist));
    FailLeaves(job, st3, o, CommitFailure(a, ResponseReadySessionUpdate));
    CreateTrail(job, st3, o, a, MessageTurn(job, a, o.requestedAt, o.completedAt));
  }

  // ----- Attempts --------------------------------------------------------------------------------------------

  /** What is known of a failed provider: the last error's runtime, with the host's calls counted in. */
  function LastRuntime(hostCalls: seq<ToolCall>, rs: seq<Reply>): Option<Runtime> {
    if rs == [] || rs[|rs| - 1].Text? || rs[|rs| - 1].failed.None? then None
    else if hostCalls == [] then rs[|rs| - 1].failed
    else Some(rs[|rs| - 1].failed.value.(toolTraceCount := |hostCalls|))
  }

  /** How an attempt ends that finds nothing, by what the provider does and how the chain of writes goes. */
  lemma {:induction false} GeneratingTrail(job: Job, st: Store, o: Oracle)
    requires HoldsNone(st, job.turnId) && st.execution.status != Succeeded
    requires o.resolve == Done && o.listEvents == Done
    ensures var end, g := EndingOf(Process(job, false, st, o)), Generate(o.hostCalls, o.replies);
            var e := EndingOf(st);
            var asked := if Lands(o.inFlight) then e.(session := Flying(job, o)) else e;
            if Crashes(o.inFlight) then end == asked
            else if Errs(o.inFlight) then end == Reported(o, asked, BareFailure(job, o))
            else if NobodyAnswers(o.replies) then
              end == Reported(o, asked, Session(PendingReply,
                              Some(FailedTurn(job, None, LastRuntime(o.hostCalls, o.replies), o.hostCalls, None,
                                              o.requestedAt, o.failedAt))))
            else
              && g.Generated?
              && if g.answer.runtime.finishReason == Some(Error)
                 then end == Reported(o, asked, KeptFailure(job, o, g.answer, None))
                 else
                   var started := Checkpointing(job, o, g.answer, asked);
                   if Crashes(o.checkpoint) then end == started
                   else end == Trail(job, o, g.answer, started, CommitWrites(job, st.messages, o, g.answer))
  {
    hide Recover, Fail, FailedTurn, InFlightTurn, Trail, CommitWrites, Calls, Commit, NobodyAnswers, HoldsNone,
         Reported, Checkpointing;
    RecoverNone(st, job.turnId, false, o.listEvents);
    ProcessDispatches(job, false, st, o);
    var st1 := PutSession(st, Flying(job, o), o.inFlight);
    var st2 := st1.(log := st1.log + Calls(o.hostCalls, o.replies));
    FailLeaves(job, st1, o, PLAIN);
    match Generate(o.hostCalls, o.replies) {
      case Exhausted(rt) =>
        LastFailed(o.replies);
        FailLeaves(job, st2, o, ProviderError(o.hostCalls, rt));
      case Generated(a) =>
        FailLeaves(job, st2, o, Failure(Some(a.content), Some(a.runtime), a.calls, None, false));
        CommitEnding(job, st2, o, a);
    }
  }

  lemma {:induction false} LastFailed(rs: seq<Reply>)
    ensures NobodyAnswers(rs) && rs != [] ==> rs[|rs| - 1].NoReply?
  {
  }

  /** How an attempt ends that recreates a reply from a copy. */
  lemma {:induction false} RecreatingTrail(job: Job, st: Store, o: Oracle, c: Copy)
    requires st.execution.status != Succeeded && o.resolve == Done
    requires Recover(st, job.turnId, false, o.listEvents) == Recreate(c)
    ensures EndingOf(Process(job, false, st, o)) ==
            Trail(job, o, c.answer, EndingOf(st), ReplyWrites(job, st.messages, o))
  {
    hide Recover, Create, Trail, ReplyWrites, MessageTurn;
    ProcessDispatches(job, false, st, o);
    CreateTrail(job, st, o, c.answer, MessageTurn(job, c.answer, o.requestedAt, c.capturedAt));
  }

  /** How an attempt ends that resumes a reply: a failure to finalise it keeps nothing. */
  lemma {:induction false} ResumingTrail(job: Job, st: Store, o: Oracle, i: nat)
    requires st.execution.status != Succeeded && o.resolve == Done
    requires Recover(st, job.turnId, false, o.listEvents) == Resume(i)
    ensures var end, e, a := EndingOf(Process(job, false, st, o)), EndingOf(st), AnswerOf(st.messages[i]);
            if !Finalized(st.messages[i]) && Crashes(o.finalize) then end == e
            else if !Finalized(st.messages[i]) && Errs(o.finalize) then end == Reported(o, e, BareFailure(job, o))
            else end == Trail(job, o, a, e, RecordWrites(o))
  {
    hide Recover, Trail, RecordWrites, Fail, Record, FailedTurn, Finalize, Reported;
    ProcessDispatches(job, false, st, o);
    var a := AnswerOf(st.messages[i]);
    RecordTrail(job, st, o, i, a);
    var st1 := PutManifest(st, i, Finalize(st.messages[i].manifest.turn.value, i, o.persistedAt), o.finalize);
    FailLeaves(job, st1, o, PLAIN);
    RecordTrail(job, st1, o, i, a);
  }

  /** A resolver or a search that fails keeps nothing either; a death there changes nothing. */
  lemma {:induction false} StoppedTrail(job: Job, st: Store, o: Oracle)
    requires st.execution.status != Succeeded
    ensures var end, r := EndingOf(Process(job, false, st, o)), Recover(st, job.turnId, false, o.listEvents);
            && (Errs(o.resolve) || (o.resolve == Done && r == Broken) ==>
                  end == Reported(o, EndingOf(st), BareFailure(job, o)))
            && (Crashes(o.resolve) || (o.resolve == Done && r == Died) ==> Process(job, false, st, o) == st)
  {
    hide Recover, Fail, FailedTurn, Create, Produce, Resumed, Reported;
    FailLeaves(job, st, o, PLAIN);
  }

  /** The records of a committed reply: each is there exactly if its write takes effect, the tool records
      only after the invocation. */
  lemma {:induction false} RecordsExactly(job: Job, st: Store, o: Oracle, i: nat, a: Answer)
    ensures var st' := Record(job, st, o, i, a);
            && st'.invocations == (if Lands(o.invocation) then st.invocations[i := a.runtime] else st.invocations)
            && st'.toolExecutions == (if o.invocation == Done && Lands(o.tools)
                                      then st.toolExecutions[i := a.calls] else st.toolExecutions)
  {
    hide Fail, Complete;
    FailKeeps(job, PutRecords(st, i, a, o.invocation, Refused), o, CommitFailure(a, LlmInvocationPersist));
    FailKeeps(job, PutRecords(st, i, a, o.invocation, o.tools), o, CommitFailure(a, ToolExecutionPersist));
    CompleteKeeps(job, PutRecords(st, i, a, o.invocation, o.tools), o, a);
  }

  /** The event checkpoint of a fresh answer: stored as of the moment it was ready exactly if its write is
      reached and takes effect; no other recovery event is ever written. */
  lemma {:induction false} EventExactly(job: Job, st: Store, o: Oracle)
    requires Asks(job, st, o) && ProviderSucceeds(o) && DistinctIndexes(st.messages)
    ensures var es, e := Process(job, false, st, o).events,
                         RecoveryEvent(job.turnId, Generate(o.hostCalls, o.replies).answer, o.readyAt);
            if !Crashes(o.checkpoint) && Lands(o.event) then st.events + [e] <= es
            else es == st.events || es == st.events + [EngineEvent]
  {
    hide Recover, Fail, Publish, Generate, InFlightTurn, Calls, Sound, HoldsNone;
    var a := Generate(o.hostCalls, o.replies).answer;
    var flying := Session(PendingReply, Some(InFlightTurn(job, o.requestedAt)));
    var st0 := st.(session := flying, log := st.log + Calls(o.hostCalls, o.replies));
    RecoverNone(st, job.turnId, false, o.listEvents);
    ProcessDispatches(job, false, st, o);
    assert Process(job, false, st, o) == Commit(job, st0, o, a);
    FlyingHoldsNone(job, st, o, st0.log);
    CommitEvents(job, st0, o, a);
  }

  lemma {:induction false} FlyingHoldsNone(job: Job, st: Store, o: Oracle, log: seq<ProviderCall>)
    requires HoldsNone(st, job.turnId)
    ensures HoldsNone(st.(session := Session(PendingReply, Some(InFlightTurn(job, o.requestedAt))), log := log),
                      job.turnId)
  {
  }

  lemma {:induction false} CommitEvents(job: Job, st: Store, o: Oracle, a: Answer)
    requires HoldsNone(st, job.turnId) && DistinctIndexes(st.messages) && !Errored(a.runtime)
    ensures var es, e := Commit(job, st, o, a).events, RecoveryEvent(job.turnId, a, o.readyAt);
            if !Crashes(o.checkpoint) && Lands(o.event) then st.events + [e] <= es
            else es == st.events || es == st.events + [EngineEvent]
  {
    hide Fail, Publish, Sound, HoldsNone, HasReply, DistinctIndexes, Evolves;
    var c := Some(Checkpoint(job.turnId, Copy(a, o.readyAt)));
    var e := RecoveryEvent(job.turnId, a, o.readyAt);
    var st1 := PutCheckpoint(st, c, o.checkpoint);
    var st2 := PutEvent(st1, e, o.event);
    NoneNoReply(st, job.turnId);
    NoneIsSound(st, job.turnId, a);
    EvolvesRefl(st, job.turnId);
    CheckpointSafe(st, st, c, job.turnId, a);
    EventSafe(st, st1, e, job.turnId, a);
    FailCopies(job, st2, o, CommitFailure(a, WorkflowEventRecoveryPersist));
    if !Crashes(o.checkpoint) && o.event == Done { PublishKeepsEvents(job, st2, o, a); }
  }

  // ----- Consequences ------------------------------------------------------------------------------------------

  /** The ready manifest is in place and the attempt stops before the reply is inserted. */
  predicate StopsReady(job: Job, st: Store, o: Oracle) {
    && Asks(job, st, o) && ProviderSucceeds(o) && !Crashes(o.checkpoint) && o.event == Done && Lands(o.ready)
    && (|| Crashes(o.ready)
        || (Errs(o.ready) && !Lands(o.failedSession))
        || (o.ready == Done && o.create == CrashBefore))
  }

  /** Such an attempt leaves the answer in the session manifest, as of the moment it was ready, and any later
      search that finds no reply recreates exactly that copy, whatever became of the task row and the event
      log. */
  lemma {:induction false} ReadyCopyStays(job: Job, st: Store, o: Oracle, later: Store, k: Ack)
    requires StopsReady(job, st, o)
    requires later.session == Process(job, false, st, o).session && !HasReply(later.messages, job.turnId)
    ensures var a := Generate(o.hostCalls, o.replies).answer;
            && later.session.status == PendingReply
            && SessionCopy(later.session, job.turnId) == Some(Copy(a, o.readyAt))
            && Recover(later, job.turnId, false, k) == Recreate(Copy(a, o.readyAt))
  {
    var a := Generate(o.hostCalls, o.replies).answer;
    var c := Copy(a, o.readyAt);
    ReadySession(job, st, o);
    ReadyFields(job, a, o.requestedAt, o.readyAt);
    GeneratedIsConsistent(o.hostCalls, o.replies);
    hide ReadyTurn, Process, Generate, StopsReady, AnswerFields;
    assert SessionCopy(later.session, job.turnId) == Some(c) by { hide HasReply; }
    SessionDecides(later, job.turnId, k, c);
  }

  lemma {:induction false} ReadySession(job: Job, st: Store, o: Oracle)
    requires StopsReady(job, st, o)
    ensures var a := Generate(o.hostCalls, o.replies).answer;
            && Process(job, false, st, o).session ==
               Session(PendingReply, Some(ReadyTurn(job, a, o.requestedAt, o.readyAt)))
            && ReadyTurn(job, a, o.requestedAt, o.readyAt).turnId == job.turnId
  {
    hide Process, Trail, ReplyWrites, ReadyTurn, HoldsNone, FailedTurn, Generate, AnswerFields;
    var a := Generate(o.hostCalls, o.replies).answer;
    var ready := Session(PendingReply, Some(ReadyTurn(job, a, o.requestedAt, o.readyAt)));
    var flying := Checkpointing(job, o, a, EndingOf(st).(session := Flying(job, o)));
    var w1 := Write(o.event, WorkflowEventRecoveryPersist, None);
    var w2 := Write(o.ready, ResponseReadySessionUpdate, Some(ready));
    GeneratingTrail(job, st, o);
    TrailCons(job, o, a, flying, w1, [w2] + ReplyWrites(job, st.messages, o));
    TrailCons(job, o, a, flying, w2, ReplyWrites(job, st.messages, o));
    if o.ready == Done { InsertCrash(job, o, a, flying.(session := ready), st.messages); }
    AnswerTurnId(job, a, o.requestedAt, o.readyAt);
  }

  lemma {:induction false} AnswerTurnId(job: Job, a: Answer, requestedAt: Time, respondedAt: Time)
    ensures ReadyTurn(job, a, requestedAt, respondedAt).turnId == job.turnId
  {
  }

  lemma {:induction false} InsertCrash(job: Job, o: Oracle, a: Answer, e: Ending, ms: seq<Message>)
    requires o.create == CrashBefore
    ensures Trail(job, o, a, e, ReplyWrites(job, ms, o)) == e
  {
    hide Trail, RecordWrites, IndexFree;
    TrailCons(job, o, a, e, Write(CrashBefore, AssistantMessageCreate, None),
              [Write(o.finalize, AssistantMessageManifestUpdate, None)] + RecordWrites(o));
  }

  lemma {:induction false} GeneratedIsConsistent(hostCalls: seq<ToolCall>, rs: seq<Reply>)
    ensures Generate(hostCalls, rs).Generated? ==> Consistent(Generate(hostCalls, rs).answer)
  {
  }

  /** Without a reply, a readable session copy decides the search. */
  lemma {:induction false} SessionDecides(st: Store, turnId: string, k: Ack, c: Copy)
    requires !HasReply(st.messages, turnId) && SessionCopy(st.session, turnId) == Some(c) && Consistent(c.answer)
    ensures Recover(st, turnId, false, k) == Recreate(c)
  {
    hide FindTask, FindEvent;
    assert FindMessage(st.messages, turnId) == Ok(None);
  }

  /** After all profiles failed, the session names the last one's request and reason, and counts the host's
      calls if there were any. */
  lemma {:induction false} ExhaustedNamesLast(job: Job, st: Store, o: Oracle, rt: Runtime)
    requires Asks(job, st, o) && NobodyAnswers(o.replies) && Lands(o.failedSession)
    requires o.replies != [] && o.replies[|o.replies| - 1] == NoReply(Some(rt))
    ensures var s := Process(job, false, st, o).session;
            && s.status == PendingReply && s.lastTurn.Some?
            && var t := s.lastTurn.value;
               && t.turnId == job.turnId && t.status == TurnIsFailed && t.commitFailureSource.None?
               && t.requestId == rt.requestId
               && t.finishReason == Some(if rt.finishReason.Some? then Wire(rt.finishReason.value) else "error")
               && t.toolTraceCount == (if o.hostCalls == [] then rt.toolTraceCount else |o.hostCalls|)
               && t.recovery.None?
  {
    hide Process, FailedTurn, HoldsNone, Generate, LoopFields, NobodyAnswers;
    GeneratingTrail(job, st, o);
    FailedFields(job, None, LastRuntime(o.hostCalls, o.replies), o.hostCalls, None, o.requestedAt, o.failedAt);
  }
}
