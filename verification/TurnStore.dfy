/** Durable state touched by one chat turn, and the finders that look for the turn in it.

    Rows are kept at the level of records; module RecoveryCodec shows that the JSON the worker
    really stores reads back as exactly these records. */
module TurnStore {
  import opened Prelude
  import opened Llm
  import opened TurnManifest

  datatype Role = User | Assistant

  /** `message_manifest`: rows the worker did not write may lack any part. A missing
      `tool_trace` reads as the empty list. */
  datatype MessageManifest = MessageManifest(
    turn: Option<Manifest>,
    runtime: Option<Runtime>,
    toolTrace: seq<ToolCall>)

  /** A chat message; its id is its position in the table, which only grows. */
  datatype Message = Message(role: Role, turnIndex: int, content: string, manifest: MessageManifest)

  datatype SessionStatus = PendingReply | Replied

  /** `session_manifest`; `lastTurn` is absent from a completed one. */
  datatype Session = Session(status: SessionStatus, lastTurn: Option<Manifest>)

  /** The `_chat_turn_recovery` entry of a task payload. */
  datatype Checkpoint = Checkpoint(turnId: string, copy: Copy)

  datatype EventRecord =
    | RecoveryEvent(turnId: string, answer: Answer, createdAt: Time)
    | EngineEvent

  datatype TaskStatus = Queued | Claimed | TaskSucceeded | TaskFailed

  datatype WorkflowStatus = Pending | Running | Succeeded | WorkflowFailed | Cancelled | DeadLettered

  datatype Execution = Execution(status: WorkflowStatus, retries: nat)

  /** One provider request: its answer, or a failure. */
  datatype ProviderCall = Answered(answer: Answer) | Unanswered

  /** Everything one attempt can read or write. `task` and `checkpoint` belong to the newest
      task row of the execution; `log` records provider requests and is read by nobody. */
  datatype Store = Store(
    messages: seq<Message>,
    session: Session,
    checkpoint: Option<Checkpoint>,
    task: TaskStatus,
    events: seq<EventRecord>,
    execution: Execution,
    invocations: map<nat, Runtime>,
    toolExecutions: map<nat, seq<ToolCall>>,
    log: seq<ProviderCall>)

  // ----- Copies of an answer ------------------------------------------------------------

  predicate IsReply(m: Message, turnId: string) {
    m.role == Assistant && m.manifest.turn.Some? && m.manifest.turn.value.turnId == turnId
  }

  /** A reply the worker could have written: it has a runtime. */
  predicate Readable(m: Message) {
    m.manifest.runtime.Some?
  }

  function AnswerOf(m: Message): Answer
    requires Readable(m)
  {
    Answer(m.content, m.manifest.runtime.value, m.manifest.toolTrace)
  }

  function SessionCopy(s: Session, turnId: string): Option<Copy> {
    if s.lastTurn.Some? && s.lastTurn.value.turnId == turnId then s.lastTurn.value.recovery else None
  }

  function TaskCopy(c: Option<Checkpoint>, turnId: string): Option<Copy> {
    if c.Some? && c.value.turnId == turnId then Some(c.value.copy) else None
  }

  predicate IsEventFor(e: EventRecord, turnId: string) {
    e.RecoveryEvent? && e.turnId == turnId
  }

  /** Every answer to `turnId` that some durable place still holds. */
  predicate Holds(st: Store, turnId: string, a: Answer) {
    || (exists i :: 0 <= i < |st.messages| && IsReply(st.messages[i], turnId)
                    && Readable(st.messages[i]) && AnswerOf(st.messages[i]) == a)
    || (SessionCopy(st.session, turnId).Some? && SessionCopy(st.session, turnId).value.answer == a)
    || (TaskCopy(st.checkpoint, turnId).Some? && TaskCopy(st.checkpoint, turnId).value.answer == a)
    || (exists i :: 0 <= i < |st.events| && IsEventFor(st.events[i], turnId) && st.events[i].answer == a)
  }

  predicate HoldsNone(st: Store, turnId: string) {
    && (forall i :: 0 <= i < |st.messages| ==> !IsReply(st.messages[i], turnId))
    && SessionCopy(st.session, turnId).None?
    && TaskCopy(st.checkpoint, turnId).None?
    && (forall i :: 0 <= i < |st.events| ==> !IsEventFor(st.events[i], turnId))
  }

  /** No place holds an answer other than `a`. */
  predicate HoldsOnly(st: Store, turnId: string, a: Answer) {
    && (forall i :: 0 <= i < |st.messages| && IsReply(st.messages[i], turnId) ==>
          Readable(st.messages[i]) && AnswerOf(st.messages[i]) == a)
    && (SessionCopy(st.session, turnId).Some? ==> SessionCopy(st.session, turnId).value.answer == a)
    && (TaskCopy(st.checkpoint, turnId).Some? ==> TaskCopy(st.checkpoint, turnId).value.answer == a)
    && (forall i :: 0 <= i < |st.events| && IsEventFor(st.events[i], turnId) ==> st.events[i].answer == a)
  }

  predicate Checkpointed(st: Store, turnId: string) {
    exists i :: 0 <= i < |st.events| && IsEventFor(st.events[i], turnId)
  }

  // ----- Finders --------------------------------------------------------------------------

  function Checked<T>(a: Answer, found: T): Result<Option<T>> {
    if Consistent(a) then Ok(Some(found)) else Err
  }

  /** Position of the last element that satisfies the role and turn test. */
  function LastReply(ms: seq<Message>, turnId: string): (r: Option<nat>)
    ensures r.Some? ==> r.value < |ms| && IsReply(ms[r.value], turnId)
    ensures r.Some? ==> forall i :: r.value < i < |ms| ==> !IsReply(ms[i], turnId)
    ensures r.None? ==> forall i :: 0 <= i < |ms| ==> !IsReply(ms[i], turnId)
  {
    if ms == [] then None
    else if IsReply(ms[|ms| - 1], turnId) then Some(|ms| - 1)
    else LastReply(ms[..|ms| - 1], turnId)
  }

  function LastEvent(es: seq<EventRecord>, turnId: string): (r: Option<nat>)
    ensures r.Some? ==> r.value < |es| && IsEventFor(es[r.value], turnId)
    ensures r.Some? ==> forall i :: r.value < i < |es| ==> !IsEventFor(es[i], turnId)
    ensures r.None? ==> forall i :: 0 <= i < |es| ==> !IsEventFor(es[i], turnId)
  {
    if es == [] then None
    else if IsEventFor(es[|es| - 1], turnId) then Some(|es| - 1)
    else LastEvent(es[..|es| - 1], turnId)
  }

  /** Message `i` is the last reply of the turn. */
  predicate IsLastReply(ms: seq<Message>, turnId: string, i: nat) {
    i < |ms| && IsReply(ms[i], turnId) && forall j :: i < j < |ms| ==> !IsReply(ms[j], turnId)
  }

  /** A reply the finder accepts: it can be read, and its trace count is right. */
  predicate Acceptable(m: Message) {
    Readable(m) && Consistent(AnswerOf(m))
  }

  /** `find_recoverable_assistant_message`: nothing exactly if there is no reply; otherwise the last
      reply decides, and no earlier one is used in its place. */
  function FindMessage(ms: seq<Message>, turnId: string): (r: Result<Option<nat>>)
    ensures r == Ok(None) <==> forall i :: 0 <= i < |ms| ==> !IsReply(ms[i], turnId)
    ensures r.Ok? && r.value.Some? ==> IsLastReply(ms, turnId, r.value.value) && Acceptable(ms[r.value.value])
  {
    match LastReply(ms, turnId)
    case None => Ok(None)
    case Some(i) => if Readable(ms[i]) then Checked(AnswerOf(ms[i]), i) else Err
  }

  lemma {:induction false} LastReplyDecides(ms: seq<Message>, turnId: string, i: nat)
    requires IsLastReply(ms, turnId, i)
    ensures FindMessage(ms, turnId) == if Acceptable(ms[i]) then Ok(Some(i)) else Err
  {
    assert LastReply(ms, turnId) == Some(i);
  }

  /** `find_recoverable_session_turn`. */
  function FindSession(s: Session, turnId: string): Result<Option<Copy>> {
    match SessionCopy(s, turnId)
    case None => Ok(None)
    case Some(c) => Checked(c.answer, c)
  }

  /** `find_recoverable_task_turn`. */
  function FindTask(c: Option<Checkpoint>, turnId: string): Result<Option<Copy>> {
    match TaskCopy(c, turnId)
    case None => Ok(None)
    case Some(c) => Checked(c.answer, c)
  }

  /** `find_recoverable_event_turn`. */
  function FindEvent(es: seq<EventRecord>, turnId: string): Result<Option<Copy>> {
    match LastEvent(es, turnId)
    case None => Ok(None)
    case Some(i) => Checked(es[i].answer, Copy(es[i].answer, es[i].createdAt))
  }

  // ----- The workflow engine ----------------------------------------------------------------

  /** `matches` says whether the signal's task key is the chat step's key. */
  datatype Signal =
    | Start
    | StepCompleted(matches: bool)
    | StepFailed
    | RetryRequested
    | CancelRequested
    | PublishRequested

  /** `LinearWorkflowDefinition::transition` for the one-step chat workflow. Its stage is a
      function of its status, so the stage test always passes on a running execution. */
  function Transition(e: Execution, s: Signal): Option<Execution> {
    match s
    case Start => if e.status == Pending then Some(e.(status := Running)) else None
    case StepCompleted(matches) =>
      if e.status == Running && matches then Some(e.(status := Succeeded)) else None
    case StepFailed => if e.status == Running then Some(e.(status := WorkflowFailed)) else None
    case RetryRequested =>
      if e.status != WorkflowFailed then None
      else if e.retries == 0 then Some(e.(status := DeadLettered))
      else Some(Execution(Pending, e.retries - 1))
    case CancelRequested => Some(e.(status := Cancelled))
    case PublishRequested => None
  }

  /** `apply_workflow_signal_with_dependencies`: one transaction that advances the execution,
      appends an engine event and, for `Start`, inserts a fresh task row. */
  function Deliver(st: Store, s: Signal): Store {
    match Transition(st.execution, s)
    case None => st
    case Some(e) =>
      var st' := st.(execution := e, events := st.events + [EngineEvent]);
      if s == Start then st'.(task := Queued, checkpoint := None) else st'
  }

  // ----- Turn indexes -----------------------------------------------------------------------

  /** `next_chat_message_turn_index`. */
  function NextTurnIndex(ms: seq<Message>): (n: int)
    ensures forall i :: 0 <= i < |ms| ==> ms[i].turnIndex < n
    ensures if ms == [] then n == 0 else exists i :: 0 <= i < |ms| && ms[i].turnIndex + 1 == n
  {
    if ms == [] then 0
    else if |ms| == 1 then ms[0].turnIndex + 1
    else
      var rest := NextTurnIndex(ms[..|ms| - 1]);
      var last := ms[|ms| - 1].turnIndex + 1;
      if last > rest then last else rest
  }

  /** `unique (session_id, turn_index)`. */
  predicate DistinctIndexes(ms: seq<Message>) {
    forall i, j :: 0 <= i < j < |ms| ==> ms[i].turnIndex != ms[j].turnIndex
  }

  predicate IndexFree(ms: seq<Message>, n: int) {
    forall i :: 0 <= i < |ms| ==> ms[i].turnIndex != n
  }

  /** Rows of other turns that other writers insert under the same uniqueness constraint. */
  function InsertOthers(ms: seq<Message>, others: seq<Message>, turnId: string): (r: seq<Message>)
    ensures ms <= r
    ensures forall i :: |ms| <= i < |r| ==> !IsReply(r[i], turnId)
    ensures DistinctIndexes(ms) ==> DistinctIndexes(r)
    decreases |others|
  {
    if others == [] then ms
    else if IndexFree(ms, others[0].turnIndex) && !IsReply(others[0], turnId) then
      InsertOthers(ms + [others[0]], others[1..], turnId)
    else InsertOthers(ms, others[1..], turnId)
  }
}
