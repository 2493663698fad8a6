/** One attempt of the chat worker at a turn: `process_task` of
    crates/chat-session-worker/src/main.rs, as a function of the durable state and of how each
    of its reads and writes turns out. */
module Attempt {
  import opened Prelude
  import opened Llm
  import opened TurnManifest
  import opened TurnStore

  /** How one storage operation ends. A write may be applied and still report an error, and the
      process may die on either side of it. */
  datatype Ack = Done | AppliedButErr | Refused | CrashBefore | CrashAfter

  predicate Lands(k: Ack) { k == Done || k == AppliedButErr || k == CrashAfter }
  predicate Errs(k: Ack) { k == AppliedButErr || k == Refused }
  predicate Crashes(k: Ack) { k == CrashBefore || k == CrashAfter }

  /** One provider profile's reply to a request. */
  datatype Reply =
    | Text(text: string, runtime: Runtime, calls: seq<ToolCall>)
    | NoReply(failed: Option<Runtime>)

  /** What the environment contributes to one attempt: outcomes, instants, the host's own tool
      calls, the replies of the configured profiles, and rows other turns insert meanwhile. */
  datatype Oracle = Oracle(
    resolve: Ack, listEvents: Ack, inFlight: Ack,
    hostCalls: seq<ToolCall>, replies: seq<Reply>,
    checkpoint: Ack, event: Ack, ready: Ack,
    others: seq<Message>, create: Ack, finalize: Ack,
    invocation: Ack, tools: Ack, complete: Ack, signal: Ack,
    failedSession: Ack, failedSignal: Ack, markFailed: Ack,
    clear: Ack, markSucceeded: Ack,
    requestedAt: Time, completedAt: Time, readyAt: Time, persistedAt: Time, failedAt: Time)

  /** `ChatSessionTaskError`, without its message. */
  datatype Failure = Failure(
    content: Option<string>,
    runtime: Option<Runtime>,
    calls: seq<ToolCall>,
    source: Option<CommitSource>,
    preserve: bool)

  const PLAIN := Failure(None, None, [], None, false)

  function CommitFailure(a: Answer, source: CommitSource): Failure {
    Failure(Some(a.content), Some(a.runtime), a.calls, Some(source), false)
  }

  function PostCommit(a: Answer): Failure {
    Failure(Some(a.content), Some(a.runtime), a.calls, None, true)
  }

  // ----- Generation ---------------------------------------------------------------------------

  /** `PlaceholderChatSessionOrchestrator::generate`: host calls first, and a trace count that
      matches the merged list. */
  function MakeAnswer(hostCalls: seq<ToolCall>, r: Reply): (a: Answer)
    requires r.Text?
    ensures Consistent(a)
    ensures a.content == r.text && hostCalls <= a.calls && a.calls[|hostCalls|..] == r.calls
    ensures a.runtime.(toolTraceCount := r.runtime.toolTraceCount) == r.runtime
  {
    var calls := hostCalls + r.calls;
    Answer(r.text, r.runtime.(toolTraceCount := |calls|), calls)
  }

  /** Index of the first profile that answers. */
  function FirstAnswer(rs: seq<Reply>): (n: nat)
    ensures n <= |rs|
    ensures forall i :: 0 <= i < n ==> rs[i].NoReply?
    ensures n < |rs| ==> rs[n].Text?
  {
    if rs == [] || rs[0].Text? then 0 else 1 + FirstAnswer(rs[1..])
  }

  datatype Generation = Generated(answer: Answer) | Exhausted(runtime: Option<Runtime>)

  predicate NobodyAnswers(rs: seq<Reply>) {
    forall i :: 0 <= i < |rs| ==> rs[i].NoReply?
  }

  /** `rs[n]` is the first reply with an answer. */
  predicate AnswersFirst(rs: seq<Reply>, n: nat) {
    n < |rs| && rs[n].Text? && forall i :: 0 <= i < n ==> rs[i].NoReply?
  }

  /** Without an answer, the last profile's error is reported. */
  function Generate(hostCalls: seq<ToolCall>, rs: seq<Reply>): (g: Generation)
    ensures g.Exhausted? <==> NobodyAnswers(rs)
    ensures g.Exhausted? && rs != [] ==> g.runtime == rs[|rs| - 1].failed
    ensures g.Exhausted? && rs == [] ==> g.runtime.None?
  {
    var n := FirstAnswer(rs);
    if n < |rs| then Generated(MakeAnswer(hostCalls, rs[n]))
    else Exhausted(if rs == [] then None else rs[|rs| - 1].failed)
  }

  function Calls(hostCalls: seq<ToolCall>, rs: seq<Reply>): seq<ProviderCall> {
    var n := FirstAnswer(rs);
    seq(n, _ => Unanswered) + if n < |rs| then [Answered(MakeAnswer(hostCalls, rs[n]))] else []
  }

  /** `chat_task_error_with_tool_calls`. */
  function ProviderError(hostCalls: seq<ToolCall>, runtime: Option<Runtime>): Failure {
    Failure(
      None,
      if runtime.Some? && hostCalls != [] then Some(runtime.value.(toolTraceCount := |hostCalls|)) else runtime,
      hostCalls, None, false)
  }

  /** The fallback loop over the resolved profiles: the first answer wins, otherwise the last
      error is reported. `called` collects the requests actually made. */
  method RunProfiles(hostCalls: seq<ToolCall>, replies: seq<Reply>)
    returns (g: Generation, called: seq<ProviderCall>)
    ensures g == Generate(hostCalls, replies)
    ensures called == Calls(hostCalls, replies)
    ensures NobodyAnswers(replies) ==>
              && g == Exhausted(if replies == [] then None else replies[|replies| - 1].failed)
              && |called| == |replies| && forall i :: 0 <= i < |called| ==> called[i] == Unanswered
    ensures forall n: nat :: AnswersFirst(replies, n) ==>
              && g == Generated(MakeAnswer(hostCalls, replies[n]))
              && |called| == n + 1 && called[n] == Answered(MakeAnswer(hostCalls, replies[n]))
              && forall i :: 0 <= i < n ==> called[i] == Unanswered
  {
    var lastError: Option<Runtime> := None;
    called := [];
    for i := 0 to |replies|
      invariant forall j :: 0 <= j < i ==> replies[j].NoReply?
      invariant called == seq(i, _ => Unanswered)
      invariant lastError == if i == 0 then None else replies[i - 1].failed
    {
      match replies[i] {
        case Text(_, _, _) =>
          assert FirstAnswer(replies) == i;
          assert forall n: nat :: AnswersFirst(replies, n) ==> n == i;
          var a := MakeAnswer(hostCalls, replies[i]);
          return Generated(a), called + [Answered(a)];
        case NoReply(runtime) =>
          lastError := runtime;
          called := called + [Unanswered];
      }
    }
    assert FirstAnswer(replies) == |replies|;
    g := Exhausted(lastError);
  }

  // ----- Recovery ------------------------------------------------------------------------------

  datatype Recovery = Resume(at: nat) | Recreate(copy: Copy) | Regenerate | Broken | Died

  /** A session copy under the stricter rule that an errored answer is not worth recovering. The
      worker does not apply that rule: it runs with `strict == false`. */
  function SessionTurn(s: Session, turnId: string, strict: bool): Result<Option<Copy>> {
    match FindSession(s, turnId)
    case Ok(Some(c)) => if strict && Errored(c.answer.runtime) then Ok(None) else Ok(Some(c))
    case r => r
  }

  /** The fixed search order: message, session manifest, task payload, workflow events. The event
      log is only read when the first three hold nothing. */
  function Recover(st: Store, turnId: string, strict: bool, listEvents: Ack): (r: Recovery)
    ensures r.Resume? ==> r.at < |st.messages| && IsReply(st.messages[r.at], turnId) && Readable(st.messages[r.at])
  {
    match FindMessage(st.messages, turnId)
    case Err => Broken
    case Ok(Some(i)) => Resume(i)
    case Ok(None) =>
      match SessionTurn(st.session, turnId, strict)
      case Err => Broken
      case Ok(Some(c)) => Recreate(c)
      case Ok(None) =>
        match FindTask(st.checkpoint, turnId)
        case Err => Broken
        case Ok(Some(c)) => Recreate(c)
        case Ok(None) =>
          if Crashes(listEvents) then Died
          else if Errs(listEvents) then Broken
          else match FindEvent(st.events, turnId)
            case Err => Broken
            case Ok(Some(c)) => Recreate(c)
            case Ok(None) => Regenerate
  }

  // ----- Writes --------------------------------------------------------------------------------

  function PutSession(st: Store, s: Session, k: Ack): Store {
    if Lands(k) then st.(session := s) else st
  }

  function PutCheckpoint(st: Store, c: Option<Checkpoint>, k: Ack): Store {
    if Lands(k) then st.(checkpoint := c) else st
  }

  function PutEvent(st: Store, e: EventRecord, k: Ack): Store {
    if Lands(k) then st.(events := st.events + [e]) else st
  }

  function PutTask(st: Store, s: TaskStatus, k: Ack): Store {
    if Lands(k) then st.(task := s) else st
  }

  function PutTurn(m: Message, t: Manifest): Message {
    m.(manifest := m.manifest.(turn := Some(t)))
  }

  function PutManifest(st: Store, i: nat, t: Manifest, k: Ack): Store
    requires i < |st.messages|
  {
    if Lands(k) then st.(messages := st.messages[i := PutTurn(st.messages[i], t)]) else st
  }

  function PutRecords(st: Store, i: nat, a: Answer, invocation: Ack, tools: Ack): Store {
    st.(invocations := if Lands(invocation) then st.invocations[i := a.runtime] else st.invocations,
        toolExecutions := if Lands(tools) then st.toolExecutions[i := a.calls] else st.toolExecutions)
  }

  function PutSignal(st: Store, s: Signal, k: Ack): Store {
    if Lands(k) then Deliver(st, s) else st
  }

  /** A signal the engine rejects is an error whatever the storage does. */
  predicate SignalErrs(st: Store, s: Signal, k: Ack) {
    Errs(k) || Transition(st.execution, s).None?
  }

  // ----- Stages --------------------------------------------------------------------------------

  function FailedSession(job: Job, o: Oracle, f: Failure): Session {
    Session(PendingReply,
            Some(FailedTurn(job, f.content, f.runtime, f.calls, f.source, o.requestedAt, o.failedAt)))
  }

  /** The error tail: failed manifest unless the turn is already committed, then the failure
      signal, then the task row. */
  function Fail(job: Job, st: Store, o: Oracle, f: Failure): Store {
    var st1 := if f.preserve then st else PutSession(st, FailedSession(job, o, f), o.failedSession);
    if !f.preserve && Crashes(o.failedSession) then st1 else
    var st2 := PutSignal(st1, StepFailed, o.failedSignal);
    if Crashes(o.failedSignal) then st2 else
    PutTask(st2, TaskFailed, o.markFailed)
  }

  /** The success tail: clear the checkpoint on a best-effort basis, then close the task row. */
  function Finish(st: Store, o: Oracle): Store {
    var st1 := PutCheckpoint(st, None, o.clear);
    if Crashes(o.clear) then st1 else PutTask(st1, TaskSucceeded, o.markSucceeded)
  }

  /** `render_completed_session_manifest`. */
  const COMPLETED_SESSION := Session(Replied, None)

  /** Completed session manifest, then the completion signal. */
  function Complete(job: Job, st: Store, o: Oracle, a: Answer): Store {
    var st1 := PutSession(st, COMPLETED_SESSION, o.complete);
    if Crashes(o.complete) then st1
    else if Errs(o.complete) then Fail(job, st1, o, CommitFailure(a, SessionContextUpdate))
    else
      var st2 := PutSignal(st1, StepCompleted(true), o.signal);
      if Crashes(o.signal) then st2
      else if SignalErrs(st1, StepCompleted(true), o.signal) then Fail(job, st2, o, PostCommit(a))
      else Finish(st2, o)
  }

  /** Invocation and tool-execution records of message `i`, then completion. */
  function Record(job: Job, st: Store, o: Oracle, i: nat, a: Answer): Store {
    var st1 := PutRecords(st, i, a, o.invocation, Refused);
    if Crashes(o.invocation) then st1
    else if Errs(o.invocation) then Fail(job, st1, o, CommitFailure(a, LlmInvocationPersist))
    else
      var st2 := PutRecords(st, i, a, o.invocation, o.tools);
      if Crashes(o.tools) then st2
      else if Errs(o.tools) then Fail(job, st2, o, CommitFailure(a, ToolExecutionPersist))
      else Complete(job, st2, o, a)
  }

  /** Finalise message `i` and go on; `f` is what a failed update is reported as. */
  function FinalizeAt(job: Job, st: Store, o: Oracle, i: nat, a: Answer, f: Failure): Store
    requires i < |st.messages| && st.messages[i].manifest.turn.Some?
  {
    var st1 := PutManifest(st, i, Finalize(st.messages[i].manifest.turn.value, i, o.persistedAt), o.finalize);
    if Crashes(o.finalize) then st1
    else if Errs(o.finalize) then Fail(job, st1, o, f)
    else Record(job, st1, o, i, a)
  }

  function ReplyRow(ms: seq<Message>, a: Answer, turn: Manifest): Message {
    Message(Assistant, NextTurnIndex(ms), a.content,
            MessageManifest(Some(turn), Some(a.runtime), a.calls))
  }

  /** Insert the reply under an index computed from the rows seen at the start of the attempt. */
  function Create(job: Job, st: Store, o: Oracle, a: Answer, turn: Manifest): Store {
    var row := ReplyRow(st.messages, a, turn);
    var ms := InsertOthers(st.messages, o.others, job.turnId);
    var free := IndexFree(ms, row.turnIndex);
    var st1 := st.(messages := if Lands(o.create) && free then ms + [row] else ms);
    if Crashes(o.create) then st1
    else if Errs(o.create) || !free then Fail(job, st1, o, CommitFailure(a, AssistantMessageCreate))
    else FinalizeAt(job, st1, o, |ms|, a, CommitFailure(a, AssistantMessageManifestUpdate))
  }

  /** Response-ready session manifest, then the reply. */
  function Publish(job: Job, st: Store, o: Oracle, a: Answer): Store {
    var ready := Session(PendingReply, Some(ReadyTurn(job, a, o.requestedAt, o.readyAt)));
    var st1 := PutSession(st, ready, o.ready);
    if Crashes(o.ready) then st1
    else if Errs(o.ready) then Fail(job, st1, o, CommitFailure(a, ResponseReadySessionUpdate))
    else Create(job, st1, o, a, MessageTurn(job, a, o.requestedAt, o.completedAt))
  }

  /** Task checkpoint (best effort) and event checkpoint, then publication. */
  function Commit(job: Job, st: Store, o: Oracle, a: Answer): Store {
    var st1 := PutCheckpoint(st, Some(Checkpoint(job.turnId, Copy(a, o.readyAt))), o.checkpoint);
    if Crashes(o.checkpoint) then st1 else
    var st2 := PutEvent(st1, RecoveryEvent(job.turnId, a, o.readyAt), o.event);
    if Crashes(o.event) then st2
    else if Errs(o.event) then Fail(job, st2, o, CommitFailure(a, WorkflowEventRecoveryPersist))
    else Publish(job, st2, o, a)
  }

  /** In-flight manifest, then the provider, then the commit. */
  function Produce(job: Job, st: Store, o: Oracle): Store {
    var flying := Session(PendingReply, Some(InFlightTurn(job, o.requestedAt)));
    var st1 := PutSession(st, flying, o.inFlight);
    if Crashes(o.inFlight) then st1
    else if Errs(o.inFlight) then Fail(job, st1, o, PLAIN)
    else
      var st2 := st1.(log := st1.log + Calls(o.hostCalls, o.replies));
      match Generate(o.hostCalls, o.replies)
      case Exhausted(rt) => Fail(job, st2, o, ProviderError(o.hostCalls, rt))
      case Generated(a) =>
        if Errored(a.runtime) then
          Fail(job, st2, o, Failure(Some(a.content), Some(a.runtime), a.calls, None, false))
        else Commit(job, st2, o, a)
  }

  function Resumed(job: Job, st: Store, o: Oracle, i: nat): Store
    requires i < |st.messages| && st.messages[i].manifest.turn.Some? && Readable(st.messages[i])
  {
    var a := AnswerOf(st.messages[i]);
    if NeedsFinalize(st.messages[i].manifest.turn.value)
    then FinalizeAt(job, st, o, i, a, PLAIN)
    else Record(job, st, o, i, a)
  }

  /** Act on what the search found. */
  function Dispatch(job: Job, st: Store, o: Oracle, r: Recovery): Store
    requires r.Resume? ==>
               r.at < |st.messages| && st.messages[r.at].manifest.turn.Some? && Readable(st.messages[r.at])
  {
    match r
    case Died => st
    case Broken => Fail(job, st, o, PLAIN)
    case Resume(i) => Resumed(job, st, o, i)
    case Recreate(c) =>
      Create(job, st, o, c.answer, MessageTurn(job, c.answer, o.requestedAt, c.capturedAt))
    case Regenerate => Produce(job, st, o)
  }

  /** `process_task` on a claimed task with valid context. */
  function Process(job: Job, strict: bool, st: Store, o: Oracle): Store {
    if st.execution.status == Succeeded then PutTask(st, TaskSucceeded, o.markSucceeded)
    else if Crashes(o.resolve) then st
    else if Errs(o.resolve) then Fail(job, st, o, PLAIN)
    else Dispatch(job, st, o, Recover(st, job.turnId, strict, o.listEvents))
  }

  // ----- Runs ----------------------------------------------------------------------------------

  /** One step of a run. Attempts are serialised; between them, users and operators may signal
      the engine or requeue the row, and other turns of the session may write it. */
  datatype Step =
    | Work(o: Oracle)
    | Send(signal: Signal)
    | Requeue
    | OtherSession(session: Session)
    | OtherMessages(rows: seq<Message>)

  function Next(job: Job, strict: bool, st: Store, step: Step): Store {
    match step
    case Work(o) => if st.task == Queued then Process(job, strict, st.(task := Claimed), o) else st
    case Send(s) => Deliver(st, s)
    case Requeue => st.(task := Queued)
    case OtherSession(s) => if SessionCopy(s, job.turnId).None? then st.(session := s) else st
    case OtherMessages(rows) => st.(messages := InsertOthers(st.messages, rows, job.turnId))
  }

  function Run(job: Job, strict: bool, st: Store, steps: seq<Step>): Store
    decreases |steps|
  {
    if steps == [] then st else Run(job, strict, Next(job, strict, st, steps[0]), steps[1..])
  }

  /** A store no attempt at the turn has touched. */
  predicate Fresh(job: Job, st: Store) {
    HoldsNone(st, job.turnId) && DistinctIndexes(st.messages) && st.log == []
  }
}
