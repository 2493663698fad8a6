/** What every run of the recovery protocol keeps: agreement of all copies of an answer, at most
    one reply, finalised replies never change, and no second generation once the event
    checkpoint is stored. */
module Safety {
  import opened Prelude
  import opened Llm
  import opened TurnManifest
  import opened TurnStore
  import opened Attempt

  predicate OneReply(ms: seq<Message>, turnId: string) {
    forall i, j :: 0 <= i < j < |ms| ==> !(IsReply(ms[i], turnId) && IsReply(ms[j], turnId))
  }

  /** The turn says of itself that it is completed and committed. */
  predicate SaysCompleted(t: Manifest) {
    t.status == TurnIsCompleted && t.commitStatus == Committed && t.commitFailureSource.None?
  }

  /** A finalised reply carries both closing events exactly once and says that it is completed; before,
      it carries neither. */
  predicate Closed(t: Manifest) {
    var n := if NeedsFinalize(t) then 0 else 1;
    && CountKind(t.events, AssistantMessagePersisted) == n && CountKind(t.events, TurnCompleted) == n
    && (!NeedsFinalize(t) ==> SaysCompleted(t))
  }

  predicate AllClosed(ms: seq<Message>, turnId: string) {
    forall i :: 0 <= i < |ms| && IsReply(ms[i], turnId) ==> Closed(ms[i].manifest.turn.value)
  }

  predicate HasReply(ms: seq<Message>, turnId: string) {
    exists i :: 0 <= i < |ms| && IsReply(ms[i], turnId)
  }

  /** The turn is past generation: its event checkpoint or its reply is durable. */
  predicate Anchored(st: Store, turnId: string) {
    Checkpointed(st, turnId) || HasReply(st.messages, turnId)
  }

  /** An errored answer never reaches the task row or the event log. */
  predicate ErroredStaysOut(st: Store, turnId: string, a: Answer) {
    Errored(a.runtime) ==>
      TaskCopy(st.checkpoint, turnId).None?
      && forall i :: 0 <= i < |st.events| ==> !IsEventFor(st.events[i], turnId)
  }

  /** All that is stored about the turn stems from the one answer `a`. */
  predicate Sound(st: Store, turnId: string, a: Answer) {
    && DistinctIndexes(st.messages)
    && OneReply(st.messages, turnId)
    && AllClosed(st.messages, turnId)
    && HoldsOnly(st, turnId, a)
    && ErroredStaysOut(st, turnId, a)
  }

  predicate Backed(st: Store, a: Answer) {
    Consistent(a) && Answered(a) in st.log
  }

  ghost predicate Inv(st: Store, turnId: string) {
    || (HoldsNone(st, turnId) && DistinctIndexes(st.messages))
    || exists a :: Sound(st, turnId, a) && Backed(st, a)
  }

  // ----- How stores may evolve ----------------------------------------------------------------

  predicate Finalized(m: Message) {
    m.manifest.turn.Some? && !NeedsFinalize(m.manifest.turn.value)
  }

  /** Identity and instants of a turn. */
  predicate SameTurn(t: Manifest, t': Manifest) {
    t'.turnId == t.turnId && t'.requestedAt == t.requestedAt && t'.respondedAt == t.respondedAt
  }

  /** Only an unfinalised turn object may change; text, index, runtime and trace never do. */
  predicate KeepsRow(m: Message, m': Message) {
    && m' == m.(manifest := m.manifest.(turn := m'.manifest.turn))
    && (Finalized(m) ==> m' == m)
    && (m.manifest.turn.Some? ==>
          m'.manifest.turn.Some? && SameTurn(m.manifest.turn.value, m'.manifest.turn.value))
    && (m.manifest.turn.None? ==> m'.manifest.turn.None?)
  }

  predicate KeepsRows(ms: seq<Message>, ms': seq<Message>) {
    |ms| <= |ms'| && forall i :: 0 <= i < |ms| ==> KeepsRow(ms[i], ms'[i])
  }

  /** A reply inserted since `ms` was read has an index above every row of `ms`. */
  predicate NewRepliesAbove(ms: seq<Message>, ms': seq<Message>, turnId: string) {
    forall i, j :: |ms| <= i < |ms'| && IsReply(ms'[i], turnId) && 0 <= j < |ms| ==>
      ms[j].turnIndex < ms'[i].turnIndex
  }

  predicate Evolves(st: Store, st': Store, turnId: string) {
    && KeepsRows(st.messages, st'.messages)
    && NewRepliesAbove(st.messages, st'.messages, turnId)
    && st.events <= st'.events
  }

  /** The bundle every stage preserves, relative to the store `base` the attempt started from. */
  predicate Safe(base: Store, st: Store, turnId: string, a: Answer) {
    Sound(st, turnId, a) && Evolves(base, st, turnId) && st.log == base.log
  }

  // ----- Stages ---------------------------------------------------------------------------------

  /** The failure carries no copy, or a copy of `a`. */
  predicate Carries(f: Failure, a: Answer) {
    f.content.Some? && f.runtime.Some? ==> Answer(f.content.value, f.runtime.value, f.calls) == a
  }

  lemma {:induction false} SessionSafe(base: Store, st: Store, s: Session, turnId: string, a: Answer)
    requires Safe(base, st, turnId, a)
    requires SessionCopy(s, turnId).Some? ==> SessionCopy(s, turnId).value.answer == a
    ensures Safe(base, st.(session := s), turnId, a)
  {
  }

  lemma {:induction false} CheckpointSafe(base: Store, st: Store, c: Option<Checkpoint>, turnId: string, a: Answer)
    requires Safe(base, st, turnId, a)
    requires TaskCopy(c, turnId).Some? ==> TaskCopy(c, turnId).value.answer == a && !Errored(a.runtime)
    ensures Safe(base, st.(checkpoint := c), turnId, a)
  {
  }

  lemma {:induction false} TaskSafe(base: Store, st: Store, t: TaskStatus, turnId: string, a: Answer)
    requires Safe(base, st, turnId, a)
    ensures Safe(base, st.(task := t), turnId, a)
  {
  }

  lemma {:induction false} EventSafe(base: Store, st: Store, e: EventRecord, turnId: string, a: Answer)
    requires Safe(base, st, turnId, a)
    requires IsEventFor(e, turnId) ==> e.answer == a && !Errored(a.runtime)
    ensures Safe(base, st.(events := st.events + [e]), turnId, a)
  {
    var es := st.events + [e];
    assert forall i :: 0 <= i < |es| ==> es[i] == if i < |st.events| then st.events[i] else e;
  }

  lemma {:induction false} ExecutionSafe(base: Store, st: Store, x: Execution, turnId: string, a: Answer)
    requires Safe(base, st, turnId, a)
    ensures Safe(base, st.(execution := x), turnId, a)
  {
  }

  lemma {:induction false} DeliverSafe(base: Store, st: Store, turnId: string, a: Answer, s: Signal)
    requires Safe(base, st, turnId, a)
    ensures Safe(base, Deliver(st, s), turnId, a)
  {
    if Transition(st.execution, s).Some? {
      var x := Transition(st.execution, s).value;
      ExecutionSafe(base, st, x, turnId, a);
      EventSafe(base, st.(execution := x), EngineEvent, turnId, a);
      var st1 := st.(execution := x, events := st.events + [EngineEvent]);
      TaskSafe(base, st1, Queued, turnId, a);
      CheckpointSafe(base, st1.(task := Queued), None, turnId, a);
    }
  }

  lemma {:induction false} FailedSessionCopy(job: Job, o: Oracle, f: Failure)
    ensures SessionCopy(FailedSession(job, o, f), job.turnId) ==
            if f.content.Some? && f.runtime.Some?
            then Some(Copy(Answer(f.content.value, f.runtime.value, f.calls), o.failedAt)) else None
  {
  }

  lemma {:induction false} FailSafe(job: Job, base: Store, st: Store, o: Oracle, f: Failure, a: Answer)
    requires Safe(base, st, job.turnId, a) && Carries(f, a)
    ensures Safe(base, Fail(job, st, o, f), job.turnId, a)
  {
    hide Safe, FailedSession, Deliver;
    var s := FailedSession(job, o, f);
    FailedSessionCopy(job, o, f);
    SessionSafe(base, st, s, job.turnId, a);
    var st1 := if f.preserve || !Lands(o.failedSession) then st else st.(session := s);
    FailTailSafe(base, st1, o, job.turnId, a);
  }

  lemma {:induction false} FailTailSafe(base: Store, st: Store, o: Oracle, turnId: string, a: Answer)
    requires Safe(base, st, turnId, a)
    ensures Safe(base, PutSignal(st, StepFailed, o.failedSignal), turnId, a)
    ensures Safe(base, PutTask(PutSignal(st, StepFailed, o.failedSignal), TaskFailed, o.markFailed), turnId, a)
  {
    hide Safe, Deliver;
    DeliverSafe(base, st, turnId, a, StepFailed);
    TaskSafe(base, PutSignal(st, StepFailed, o.failedSignal), TaskFailed, turnId, a);
  }

  lemma {:induction false} FinishSafe(base: Store, st: Store, o: Oracle, turnId: string, a: Answer)
    requires Safe(base, st, turnId, a)
    ensures Safe(base, Finish(st, o), turnId, a)
  {
    hide Safe;
    CheckpointSafe(base, st, None, turnId, a);
    TaskSafe(base, PutCheckpoint(st, None, o.clear), TaskSucceeded, turnId, a);
  }

  lemma {:induction false} CompleteSafe(job: Job, base: Store, st: Store, o: Oracle, a: Answer)
    requires Safe(base, st, job.turnId, a)
    ensures Safe(base, Complete(job, st, o, a), job.turnId, a)
  {
    hide Safe, Fail, Finish, Deliver;
    var st1 := PutSession(st, COMPLETED_SESSION, o.complete);
    SessionSafe(base, st, COMPLETED_SESSION, job.turnId, a);
    DeliverSafe(base, st1, job.turnId, a, StepCompleted(true));
    var st2 := PutSignal(st1, StepCompleted(true), o.signal);
    FailSafe(job, base, st1, o, CommitFailure(a, SessionContextUpdate), a);
    FailSafe(job, base, st2, o, PostCommit(a), a);
    FinishSafe(base, st2, o, job.turnId, a);
  }

  lemma {:induction false} RecordsSafe(base: Store, st: Store, i: nat, a: Answer, k: Ack, k': Ack, turnId: string)
    requires Safe(base, st, turnId, a)
    ensures Safe(base, PutRecords(st, i, a, k, k'), turnId, a)
  {
  }

  lemma {:induction false} RecordSafe(job: Job, base: Store, st: Store, o: Oracle, i: nat, a: Answer)
    requires Safe(base, st, job.turnId, a)
    ensures Safe(base, Record(job, st, o, i, a), job.turnId, a)
  {
    hide Safe, Fail, Complete;
    var st1 := PutRecords(st, i, a, o.invocation, Refused);
    var st2 := PutRecords(st, i, a, o.invocation, o.tools);
    RecordsSafe(base, st, i, a, o.invocation, Refused, job.turnId);
    RecordsSafe(base, st, i, a, o.invocation, o.tools, job.turnId);
    FailSafe(job, base, st1, o, CommitFailure(a, LlmInvocationPersist), a);
    FailSafe(job, base, st2, o, CommitFailure(a, ToolExecutionPersist), a);
    CompleteSafe(job, base, st2, o, a);
  }

  /** Replacing the open turn object of one reply. */
  lemma {:induction false} TurnSafe(base: Store, st: Store, turnId: string, i: nat, t: Manifest, a: Answer)
    requires Safe(base, st, turnId, a)
    requires i < |st.messages| && IsReply(st.messages[i], turnId)
    requires NeedsFinalize(st.messages[i].manifest.turn.value)
    requires SameTurn(st.messages[i].manifest.turn.value, t) && Closed(t)
    ensures Safe(base, st.(messages := st.messages[i := PutTurn(st.messages[i], t)]), turnId, a)
  {
    hide Closed;
    var row := PutTurn(st.messages[i], t);
    var ms := st.messages[i := row];
    assert IsReply(row, turnId) && AnswerOf(row) == AnswerOf(st.messages[i]);
    assert forall j :: 0 <= j < |ms| && j != i ==> ms[j] == st.messages[j];
    if i < |base.messages| {
      assert KeepsRow(base.messages[i], st.messages[i]);
      assert KeepsRow(base.messages[i], row);
    }
    assert KeepsRows(base.messages, ms);
  }

  /** Finalising one open reply in place. */
  lemma {:induction false} PutManifestSafe(base: Store, st: Store, turnId: string, i: nat, at: Time, k: Ack, a: Answer)
    requires Safe(base, st, turnId, a)
    requires i < |st.messages| && IsReply(st.messages[i], turnId)
    requires NeedsFinalize(st.messages[i].manifest.turn.value) && Closed(st.messages[i].manifest.turn.value)
    ensures Safe(base, PutManifest(st, i, Finalize(st.messages[i].manifest.turn.value, i, at), k), turnId, a)
  {
    hide Safe, CountKind;
    var t := st.messages[i].manifest.turn.value;
    FinalizeCounts(t, i, at, AssistantMessagePersisted);
    FinalizeCounts(t, i, at, TurnCompleted);
    TurnSafe(base, st, turnId, i, Finalize(t, i, at), a);
  }

  lemma {:induction false} ReplyClosed(st: Store, turnId: string, i: nat, a: Answer)
    requires Sound(st, turnId, a) && i < |st.messages| && IsReply(st.messages[i], turnId)
    ensures Closed(st.messages[i].manifest.turn.value)
  {
  }

  lemma {:induction false} FinalizeAtSafe(job: Job, base: Store, st: Store, o: Oracle, i: nat, a: Answer, f: Failure)
    requires Safe(base, st, job.turnId, a) && Carries(f, a)
    requires i < |st.messages| && IsReply(st.messages[i], job.turnId)
    requires NeedsFinalize(st.messages[i].manifest.turn.value)
    ensures Safe(base, FinalizeAt(job, st, o, i, a, f), job.turnId, a)
  {
    hide Sound, Evolves, Fail, Record, Finalize;
    var st1 := PutManifest(st, i, Finalize(st.messages[i].manifest.turn.value, i, o.persistedAt), o.finalize);
    assert Sound(st, job.turnId, a);
    ReplyClosed(st, job.turnId, i, a);
    PutManifestSafe(base, st, job.turnId, i, o.persistedAt, o.finalize, a);
    FailSafe(job, base, st1, o, f, a);
    RecordSafe(job, base, st1, o, i, a);
  }

  /** Appending rows of other turns, and then the reply itself. */
  lemma {:induction false} InsertSafe(job: Job, base: Store, st: Store, others: seq<Message>, a: Answer,
                                      turn: Manifest, put: bool)
    requires Safe(base, st, job.turnId, a) && st.messages == base.messages
    requires !HasReply(st.messages, job.turnId)
    requires turn.turnId == job.turnId && Closed(turn)
    ensures var ms := InsertOthers(st.messages, others, job.turnId);
            var row := ReplyRow(st.messages, a, turn);
            IndexFree(ms, row.turnIndex) || !put ==>
              Safe(base, st.(messages := if put then ms + [row] else ms), job.turnId, a)
  {
    var ms := InsertOthers(st.messages, others, job.turnId);
    OthersSafe(base, st, others, job.turnId, a);
    var st1 := st.(messages := ms);
    if put && IndexFree(ms, NextTurnIndex(st.messages)) {
      AppendSafe(base, st1, ReplyRow(st.messages, a, turn), job.turnId, a);
    }
  }

  lemma {:induction false} OthersSafe(base: Store, st: Store, others: seq<Message>, turnId: string, a: Answer)
    requires Safe(base, st, turnId, a)
    ensures Safe(base, st.(messages := InsertOthers(st.messages, others, turnId)), turnId, a)
    ensures HasReply(InsertOthers(st.messages, others, turnId), turnId) ==> HasReply(st.messages, turnId)
  {
    var ms := InsertOthers(st.messages, others, turnId);
    forall i | 0 <= i < |ms| && IsReply(ms[i], turnId)
      ensures i < |st.messages| && ms[i] == st.messages[i]
    {
    }
    forall i | 0 <= i < |base.messages| ensures KeepsRow(base.messages[i], ms[i]) {
      assert ms[i] == st.messages[i];
    }
  }

  lemma {:induction false} AppendSafe(base: Store, st: Store, row: Message, turnId: string, a: Answer)
    requires Safe(base, st, turnId, a) && !HasReply(st.messages, turnId)
    requires IsReply(row, turnId) && Readable(row) && AnswerOf(row) == a && Closed(row.manifest.turn.value)
    requires IndexFree(st.messages, row.turnIndex)
    requires forall j :: 0 <= j < |base.messages| ==> base.messages[j].turnIndex < row.turnIndex
    ensures Safe(base, st.(messages := st.messages + [row]), turnId, a)
  {
    var ms := st.messages + [row];
    forall i | 0 <= i < |ms| && IsReply(ms[i], turnId) ensures ms[i] == row && i == |st.messages| {
    }
    forall i | 0 <= i < |base.messages| ensures KeepsRow(base.messages[i], ms[i]) {
      assert ms[i] == st.messages[i];
    }
  }

  lemma {:induction false} CreateSafe(job: Job, base: Store, st: Store, o: Oracle, a: Answer, turn: Manifest)
    requires Safe(base, st, job.turnId, a) && st.messages == base.messages
    requires !HasReply(st.messages, job.turnId)
    requires turn.turnId == job.turnId && Closed(turn) && NeedsFinalize(turn)
    ensures Safe(base, Create(job, st, o, a, turn), job.turnId, a)
  {
    hide Safe, Fail, FinalizeAt, Closed;
    var row := ReplyRow(st.messages, a, turn);
    var ms := InsertOthers(st.messages, o.others, job.turnId);
    var free := IndexFree(ms, row.turnIndex);
    var put := Lands(o.create) && free;
    var st1 := st.(messages := if put then ms + [row] else ms);
    InsertSafe(job, base, st, o.others, a, turn, put);
    FailSafe(job, base, st1, o, CommitFailure(a, AssistantMessageCreate), a);
    if !Crashes(o.create) && !Errs(o.create) && free {
      FinalizeAtSafe(job, base, st1, o, |ms|, a, CommitFailure(a, AssistantMessageManifestUpdate));
    }
  }

  lemma {:induction false} FreshTurnClosed(job: Job, a: Answer, requestedAt: Time, respondedAt: Time)
    ensures var t := MessageTurn(job, a, requestedAt, respondedAt);
            Closed(t) && NeedsFinalize(t) && t.turnId == job.turnId
  {
    var t := MessageTurn(job, a, requestedAt, respondedAt);
    MessageEventsShape(job, a, requestedAt, respondedAt);
    CountDistinct(t.events, AssistantMessagePersisted);
    CountDistinct(t.events, TurnCompleted);
  }

  lemma {:induction false} PublishSafe(job: Job, base: Store, st: Store, o: Oracle, a: Answer)
    requires Safe(base, st, job.turnId, a) && st.messages == base.messages
    requires !HasReply(st.messages, job.turnId)
    ensures Safe(base, Publish(job, st, o, a), job.turnId, a)
  {
    hide Safe, Fail, Create, MessageTurn, HasReply;
    var ready := Session(PendingReply, Some(ReadyTurn(job, a, o.requestedAt, o.readyAt)));
    SessionSafe(base, st, ready, job.turnId, a);
    var st1 := PutSession(st, ready, o.ready);
    FailSafe(job, base, st1, o, CommitFailure(a, ResponseReadySessionUpdate), a);
    FreshTurnClosed(job, a, o.requestedAt, o.completedAt);
    CreateSafe(job, base, st1, o, a, MessageTurn(job, a, o.requestedAt, o.completedAt));
  }

  lemma {:induction false} CommitSafe(job: Job, base: Store, st: Store, o: Oracle, a: Answer)
    requires Safe(base, st, job.turnId, a) && st.messages == base.messages
    requires !HasReply(st.messages, job.turnId) && !Errored(a.runtime)
    ensures Safe(base, Commit(job, st, o, a), job.turnId, a)
  {
    hide Safe, Fail, Publish, HasReply;
    var c := Some(Checkpoint(job.turnId, Copy(a, o.readyAt)));
    CheckpointSafe(base, st, c, job.turnId, a);
    var st1 := PutCheckpoint(st, c, o.checkpoint);
    EventSafe(base, st1, RecoveryEvent(job.turnId, a, o.readyAt), job.turnId, a);
    var st2 := PutEvent(st1, RecoveryEvent(job.turnId, a, o.readyAt), o.event);
    FailSafe(job, base, st2, o, CommitFailure(a, WorkflowEventRecoveryPersist), a);
    PublishSafe(job, base, st2, o, a);
  }

  // ----- Attempts -------------------------------------------------------------------------------

  /** A store that holds nothing is sound for every answer. */
  lemma {:induction false} NoneIsSound(st: Store, turnId: string, a: Answer)
    requires HoldsNone(st, turnId) && DistinctIndexes(st.messages)
    ensures Sound(st, turnId, a)
  {
  }

  lemma {:induction false} EvolvesRefl(st: Store, turnId: string)
    ensures Evolves(st, st, turnId)
  {
  }

  /** Nothing held, no row touched, nothing asked since `base`. */
  predicate Idle(base: Store, st: Store, turnId: string) {
    HoldsNone(st, turnId) && st.messages == base.messages && base.events <= st.events && st.log == base.log
  }

  lemma {:induction false} SessionIdle(base: Store, st: Store, s: Session, turnId: string)
    requires Idle(base, st, turnId) && SessionCopy(s, turnId).None?
    ensures Idle(base, st.(session := s), turnId)
  {
  }

  lemma {:induction false} DeliverIdle(base: Store, st: Store, turnId: string, s: Signal)
    requires Idle(base, st, turnId)
    ensures Idle(base, Deliver(st, s), turnId)
  {
    var es := st.events + [EngineEvent];
    assert forall i :: 0 <= i < |es| ==> es[i] == if i < |st.events| then st.events[i] else EngineEvent;
  }

  lemma {:induction false} TaskIdle(base: Store, st: Store, t: TaskStatus, turnId: string)
    requires Idle(base, st, turnId)
    ensures Idle(base, st.(task := t), turnId)
  {
  }

  lemma {:induction false} FailTailIdle(base: Store, st: Store, o: Oracle, turnId: string)
    requires Idle(base, st, turnId)
    ensures Idle(base, PutSignal(st, StepFailed, o.failedSignal), turnId)
    ensures Idle(base, PutTask(PutSignal(st, StepFailed, o.failedSignal), TaskFailed, o.markFailed), turnId)
  {
    hide Idle, Deliver;
    DeliverIdle(base, st, turnId, StepFailed);
    TaskIdle(base, PutSignal(st, StepFailed, o.failedSignal), TaskFailed, turnId);
  }

  /** Failing without a copy keeps an empty store empty. */
  lemma {:induction false} FailIdle(job: Job, base: Store, st: Store, o: Oracle, f: Failure)
    requires Idle(base, st, job.turnId) && f.content.None?
    ensures Idle(base, Fail(job, st, o, f), job.turnId)
  {
    hide Idle, FailedSession, Deliver;
    var s := FailedSession(job, o, f);
    FailedSessionCopy(job, o, f);
    SessionIdle(base, st, s, job.turnId);
    var st1 := if f.preserve || !Lands(o.failedSession) then st else st.(session := s);
    FailTailIdle(base, st1, o, job.turnId);
  }

  /** What an attempt guarantees about the store it leaves behind. */
  ghost predicate Good(st: Store, st': Store, turnId: string) {
    Inv(st', turnId) && Evolves(st, st', turnId) && st.log <= st'.log
  }

  /** Fields an attempt sets before it reads anything do not matter to what it guarantees. */
  lemma {:induction false} GoodRebase(st: Store, st1: Store, st': Store, turnId: string)
    requires Good(st1, st', turnId)
    requires st1.messages == st.messages && st1.events == st.events && st.log <= st1.log
    ensures Good(st, st', turnId)
  {
    hide Inv;
  }

  lemma {:induction false} IdleGood(st: Store, st': Store, turnId: string)
    requires Idle(st, st', turnId) && DistinctIndexes(st.messages)
    ensures Good(st, st', turnId)
  {
    EvolvesRefl(st, turnId);
  }

  lemma {:induction false} SafeGood(st: Store, st': Store, turnId: string, a: Answer)
    requires Safe(st, st', turnId, a) && Backed(st, a)
    ensures Good(st, st', turnId)
  {
  }

  /** The finders never reject what the invariant allows, and they find nothing only when there
      is nothing, or under the strict rule nothing but an errored session copy. */
  lemma {:induction false} RecoverMeaning(st: Store, turnId: string, strict: bool, k: Ack, a: Answer)
    requires Sound(st, turnId, a) && Consistent(a)
    ensures var r := Recover(st, turnId, strict, k);
            && (r.Resume? <==> HasReply(st.messages, turnId))
            && (r.Resume? ==> AnswerOf(st.messages[r.at]) == a)
            && (r.Recreate? ==> r.copy.answer == a && !HasReply(st.messages, turnId))
            && (r.Broken? || r.Died? ==> k != Done)
            && (r.Regenerate? ==> HoldsNone(st.(session := COMPLETED_SESSION), turnId) && !Anchored(st, turnId)
                                  && (SessionCopy(st.session, turnId).None? || (strict && Errored(a.runtime))))
  {
    hide AllClosed, DistinctIndexes, OneReply;
  }

  lemma {:induction false} RecoverNone(st: Store, turnId: string, strict: bool, k: Ack)
    requires HoldsNone(st, turnId)
    ensures Recover(st, turnId, strict, k) ==
            if Crashes(k) then Died else if Errs(k) then Broken else Regenerate
  {
  }

  /** What becomes of a fresh answer: refused if errored, committed otherwise. */
  lemma {:induction false} GeneratedGood(job: Job, st: Store, o: Oracle, a: Answer)
    requires HoldsNone(st, job.turnId) && DistinctIndexes(st.messages) && Backed(st, a)
    ensures Errored(a.runtime) ==>
              Good(st, Fail(job, st, o, Failure(Some(a.content), Some(a.runtime), a.calls, None, false)), job.turnId)
    ensures !Errored(a.runtime) ==> Good(st, Commit(job, st, o, a), job.turnId)
  {
    hide Good, Fail, Commit, Sound, Evolves;
    NoneIsSound(st, job.turnId, a);
    EvolvesRefl(st, job.turnId);
    if Errored(a.runtime) {
      var f := Failure(Some(a.content), Some(a.runtime), a.calls, None, false);
      FailSafe(job, st, st, o, f, a);
      SafeGood(st, Fail(job, st, o, f), job.turnId, a);
    } else {
      CommitSafe(job, st, st, o, a);
      SafeGood(st, Commit(job, st, o, a), job.turnId, a);
    }
  }

  /** Once the in-flight manifest is in place, an attempt ends holding nothing or the one answer
      it has just generated. */
  lemma {:induction false} ProduceGood(job: Job, st: Store, o: Oracle)
    requires HoldsNone(st.(session := COMPLETED_SESSION), job.turnId) && DistinctIndexes(st.messages)
    requires o.inFlight == Done
    ensures Good(st, Produce(job, st, o), job.turnId)
  {
    hide Good, Fail, Commit, Sound, Evolves;
    var flying := Session(PendingReply, Some(InFlightTurn(job, o.requestedAt)));
    var st1 := st.(session := flying);
    var st2 := st1.(log := st1.log + Calls(o.hostCalls, o.replies));
    assert Idle(st2, st2, job.turnId);
    match Generate(o.hostCalls, o.replies) {
      case Exhausted(rt) =>
        FailIdle(job, st2, st2, o, ProviderError(o.hostCalls, rt));
        IdleGood(st2, Produce(job, st, o), job.turnId);
      case Generated(a) =>
        assert Answered(a) == st2.log[|st2.log| - 1];
        GeneratedGood(job, st2, o, a);
    }
    GoodRebase(st, st2, Produce(job, st, o), job.turnId);
  }

  /** An attempt on a store that holds nothing. */
  lemma {:induction false} ProcessFromNone(job: Job, strict: bool, st: Store, o: Oracle)
    requires HoldsNone(st, job.turnId) && DistinctIndexes(st.messages)
    ensures Good(st, Process(job, strict, st, o), job.turnId)
  {
    hide Good, Fail, Produce, Recover;
    var st' := Process(job, strict, st, o);
    assert Idle(st, st, job.turnId);
    if st.execution.status == Succeeded {
      TaskIdle(st, st, TaskSucceeded, job.turnId);
      IdleGood(st, st', job.turnId);
    } else {
      RecoverNone(st, job.turnId, strict, o.listEvents);
      if o.resolve != Done || o.listEvents != Done {
        FailIdle(job, st, st, o, PLAIN);
        IdleGood(st, st', job.turnId);
      } else if o.inFlight == Done {
        ProduceGood(job, st, o);
      } else {
        ProduceAborted(job, st, o);
        IdleGood(st, st', job.turnId);
      }
    }
  }

  lemma {:induction false} ProduceAborted(job: Job, st: Store, o: Oracle)
    requires Idle(st, st, job.turnId) && o.inFlight != Done
    ensures Idle(st, Produce(job, st, o), job.turnId)
  {
    var flying := Session(PendingReply, Some(InFlightTurn(job, o.requestedAt)));
    SessionIdle(st, st, flying, job.turnId);
    FailIdle(job, st, PutSession(st, flying, o.inFlight), o, PLAIN);
  }

  /** Discarding an errored session copy and generating anew. */
  lemma {:induction false} ProduceStrict(job: Job, st: Store, o: Oracle, a: Answer)
    requires Sound(st, job.turnId, a) && Backed(st, a)
    requires HoldsNone(st.(session := COMPLETED_SESSION), job.turnId)
    ensures Good(st, Produce(job, st, o), job.turnId)
  {
    hide Good, Fail, Commit, Evolves, HoldsNone;
    if o.inFlight == Done {
      ProduceGood(job, st, o);
    } else {
      EvolvesRefl(st, job.turnId);
      var flying := Session(PendingReply, Some(InFlightTurn(job, o.requestedAt)));
      SessionSafe(st, st, flying, job.turnId, a);
      FailSafe(job, st, PutSession(st, flying, o.inFlight), o, PLAIN, a);
      SafeGood(st, Produce(job, st, o), job.turnId, a);
    }
  }

  /** An attempt that finds a copy of `a` calls no provider and adds no other answer. */
  lemma {:induction false} ProcessFromAnswer(job: Job, strict: bool, st: Store, o: Oracle, a: Answer)
    requires Sound(st, job.turnId, a) && Consistent(a)
    requires Recover(st, job.turnId, strict, o.listEvents) != Regenerate
    ensures Safe(st, Process(job, strict, st, o), job.turnId, a)
  {
    hide Sound, Evolves, Dispatch, Fail, Recover, HasReply, HoldsNone;
    EvolvesRefl(st, job.turnId);
    if st.execution.status == Succeeded || o.resolve != Done {
      StoppedSafe(job, strict, st, o, a);
    } else {
      var r := Recover(st, job.turnId, strict, o.listEvents);
      RecoverMeaning(st, job.turnId, strict, o.listEvents, a);
      DispatchSafe(job, st, o, r, a);
      assert Process(job, strict, st, o) == Dispatch(job, st, o, r);
    }
  }

  lemma {:induction false} StoppedSafe(job: Job, strict: bool, st: Store, o: Oracle, a: Answer)
    requires Safe(st, st, job.turnId, a)
    requires st.execution.status == Succeeded || o.resolve != Done
    ensures Safe(st, Process(job, strict, st, o), job.turnId, a)
  {
    hide Safe, Fail, Dispatch, Recover;
    TaskSafe(st, st, TaskSucceeded, job.turnId, a);
    FailSafe(job, st, st, o, PLAIN, a);
  }

  lemma {:induction false} DispatchSafe(job: Job, st: Store, o: Oracle, r: Recovery, a: Answer)
    requires Safe(st, st, job.turnId, a) && r != Regenerate
    requires r.Resume? ==>
               && r.at < |st.messages| && IsReply(st.messages[r.at], job.turnId)
               && Readable(st.messages[r.at]) && AnswerOf(st.messages[r.at]) == a
    requires r.Recreate? ==> r.copy.answer == a && !HasReply(st.messages, job.turnId)
    ensures Safe(st, Dispatch(job, st, o, r), job.turnId, a)
  {
    hide Safe, Fail, Resumed, Create, MessageTurn, HasReply;
    match r {
      case Died =>
      case Broken => FailSafe(job, st, st, o, PLAIN, a);
      case Resume(i) => ResumedSafe(job, st, o, i, a);
      case Recreate(c) =>
        FreshTurnClosed(job, a, o.requestedAt, c.capturedAt);
        CreateSafe(job, st, st, o, a, MessageTurn(job, a, o.requestedAt, c.capturedAt));
    }
  }

  lemma {:induction false} ResumedSafe(job: Job, st: Store, o: Oracle, i: nat, a: Answer)
    requires Safe(st, st, job.turnId, a)
    requires i < |st.messages| && IsReply(st.messages[i], job.turnId) && Readable(st.messages[i])
    requires AnswerOf(st.messages[i]) == a
    ensures Safe(st, Resumed(job, st, o, i), job.turnId, a)
  {
    hide Safe, FinalizeAt, Record;
    if NeedsFinalize(st.messages[i].manifest.turn.value) {
      FinalizeAtSafe(job, st, st, o, i, a, PLAIN);
    } else {
      RecordSafe(job, st, st, o, i, a);
    }
  }

  /** Every attempt keeps the invariant, changes rows only by finalising them, and asks a provider
      only when no copy is left to recover. */
  lemma {:induction false} ProcessGood(job: Job, strict: bool, st: Store, o: Oracle)
    requires Inv(st, job.turnId)
    ensures Good(st, Process(job, strict, st, o), job.turnId)
    ensures Anchored(st, job.turnId) ==> Process(job, strict, st, o).log == st.log
  {
    hide Process, Recover, Good;
    if HoldsNone(st, job.turnId) {
      ProcessFromNone(job, strict, st, o);
    } else {
      var a :| Sound(st, job.turnId, a) && Backed(st, a);
      if Recover(st, job.turnId, strict, o.listEvents) != Regenerate {
        ProcessFromAnswer(job, strict, st, o, a);
        SafeGood(st, Process(job, strict, st, o), job.turnId, a);
      } else {
        RegenerateGood(job, strict, st, o, a);
      }
    }
  }

  lemma {:induction false} RegenerateGood(job: Job, strict: bool, st: Store, o: Oracle, a: Answer)
    requires Sound(st, job.turnId, a) && Backed(st, a)
    requires Recover(st, job.turnId, strict, o.listEvents) == Regenerate
    ensures Good(st, Process(job, strict, st, o), job.turnId)
    ensures !Anchored(st, job.turnId)
  {
    hide Sound, Evolves, Good, Fail, Produce, Recover, HasReply, HoldsNone;
    EvolvesRefl(st, job.turnId);
    RecoverMeaning(st, job.turnId, strict, o.listEvents, a);
    if st.execution.status == Succeeded {
      TaskSafe(st, st, TaskSucceeded, job.turnId, a);
      SafeGood(st, Process(job, strict, st, o), job.turnId, a);
    } else if o.resolve != Done {
      FailSafe(job, st, st, o, PLAIN, a);
      SafeGood(st, Process(job, strict, st, o), job.turnId, a);
    } else {
      ProduceStrict(job, st, o, a);
    }
  }

  /** The attempt gets as far as the provider: nothing fails before, and no copy of an answer is left. */
  predicate Asks(job: Job, st: Store, o: Oracle) {
    && st.execution.status != Succeeded
    && o.resolve == Done && o.listEvents == Done && o.inFlight == Done
    && HoldsNone(st, job.turnId)
  }

  lemma {:induction false} ProduceLog(job: Job, st: Store, o: Oracle)
    requires HoldsNone(st, job.turnId) && DistinctIndexes(st.messages)
    ensures Produce(job, st, o).log == st.log + if o.inFlight == Done then Calls(o.hostCalls, o.replies) else []
  {
    hide Fail, Commit, Sound, Evolves, Calls;
    if o.inFlight != Done {
      ProduceAborted(job, st, o);
    } else {
      var flying := Session(PendingReply, Some(InFlightTurn(job, o.requestedAt)));
      var st1 := st.(session := flying, log := st.log + Calls(o.hostCalls, o.replies));
      assert Idle(st1, st1, job.turnId);
      match Generate(o.hostCalls, o.replies) {
        case Exhausted(rt) => FailIdle(job, st1, st1, o, ProviderError(o.hostCalls, rt));
        case Generated(a) =>
          NoneIsSound(st1, job.turnId, a);
          EvolvesRefl(st1, job.turnId);
          FailSafe(job, st1, st1, o, Failure(Some(a.content), Some(a.runtime), a.calls, None, false), a);
          if !Errored(a.runtime) { CommitSafe(job, st1, st1, o, a); }
      }
    }
  }

  lemma {:induction false} SomebodyIsCalled(hostCalls: seq<ToolCall>, rs: seq<Reply>)
    ensures Calls(hostCalls, rs) == [] <==> rs == []
  {
  }

  /** Exactly when an attempt asks a provider, and what it then adds to the log of requests. */
  lemma {:induction false} AsksExactly(job: Job, st: Store, o: Oracle)
    requires Inv(st, job.turnId)
    ensures Process(job, false, st, o).log ==
            st.log + if Asks(job, st, o) then Calls(o.hostCalls, o.replies) else []
    ensures Process(job, false, st, o).log != st.log <==> Asks(job, st, o) && o.replies != []
  {
    hide Process, Recover, HoldsNone, Sound, Calls;
    SomebodyIsCalled(o.hostCalls, o.replies);
    if HoldsNone(st, job.turnId) {
      InvDistinct(st, job.turnId);
      AsksFromNone(job, st, o);
    } else {
      var a :| Sound(st, job.turnId, a) && Backed(st, a);
      RecoverMeaning(st, job.turnId, false, o.listEvents, a);
      NothingElse(st, job.turnId);
      ProcessFromAnswer(job, false, st, o, a);
    }
  }

  lemma {:induction false} NothingElse(st: Store, turnId: string)
    ensures HoldsNone(st.(session := COMPLETED_SESSION), turnId) && SessionCopy(st.session, turnId).None? ==>
              HoldsNone(st, turnId)
  {
  }

  lemma {:induction false} AsksFromNone(job: Job, st: Store, o: Oracle)
    requires HoldsNone(st, job.turnId) && DistinctIndexes(st.messages)
    ensures Process(job, false, st, o).log ==
            st.log + if Asks(job, st, o) then Calls(o.hostCalls, o.replies) else []
  {
    hide Recover, Fail, Produce, HoldsNone, Calls;
    RecoverNone(st, job.turnId, false, o.listEvents);
    assert Idle(st, st, job.turnId);
    FailIdle(job, st, st, o, PLAIN);
    ProduceLog(job, st, o);
  }

  // ----- Runs -----------------------------------------------------------------------------------

  lemma {:induction false} EvolvesTrans(st: Store, st': Store, st'': Store, turnId: string)
    requires Evolves(st, st', turnId) && Evolves(st', st'', turnId)
    ensures Evolves(st, st'', turnId)
  {
    var ms, ms', ms'' := st.messages, st'.messages, st''.messages;
    forall i | 0 <= i < |ms| ensures KeepsRow(ms[i], ms''[i]) {
      assert KeepsRow(ms[i], ms'[i]) && KeepsRow(ms'[i], ms''[i]);
    }
    forall i, j | |ms| <= i < |ms''| && IsReply(ms''[i], turnId) && 0 <= j < |ms|
      ensures ms[j].turnIndex < ms''[i].turnIndex
    {
      assert KeepsRow(ms[j], ms'[j]);
      if i < |ms'| {
        assert KeepsRow(ms'[i], ms''[i]);
        assert IsReply(ms'[i], turnId);
      }
    }
  }

  lemma {:induction false} InvDistinct(st: Store, turnId: string)
    requires Inv(st, turnId)
    ensures DistinctIndexes(st.messages)
  {
  }

  /** Steps other than attempts: signals, requeues, and writes of other turns. */
  lemma {:induction false} OtherStepGood(job: Job, strict: bool, st: Store, step: Step)
    requires Inv(st, job.turnId) && !step.Work?
    ensures Good(st, Next(job, strict, st, step), job.turnId)
    ensures Next(job, strict, st, step).log == st.log
  {
    hide Good, Sound, Evolves, Deliver, HoldsNone;
    var turnId := job.turnId;
    EvolvesRefl(st, turnId);
    InvDistinct(st, turnId);
    if HoldsNone(st, turnId) {
      match step {
        case Send(s) => DeliverIdle(st, st, turnId, s); IdleGood(st, Deliver(st, s), turnId);
        case Requeue => TaskIdle(st, st, Queued, turnId); IdleGood(st, st.(task := Queued), turnId);
        case OtherSession(s) =>
          IdleGood(st, st, turnId);
          if SessionCopy(s, turnId).None? {
            SessionIdle(st, st, s, turnId);
            IdleGood(st, st.(session := s), turnId);
          }
        case OtherMessages(rows) => OthersNone(st, rows, turnId);
      }
    } else {
      var a :| Sound(st, turnId, a) && Backed(st, a);
      match step {
        case Send(s) => DeliverSafe(st, st, turnId, a, s);
        case Requeue => TaskSafe(st, st, Queued, turnId, a);
        case OtherSession(s) => if SessionCopy(s, turnId).None? { SessionSafe(st, st, s, turnId, a); }
        case OtherMessages(rows) => OthersSafe(st, st, rows, turnId, a);
      }
      SafeGood(st, Next(job, strict, st, step), turnId, a);
    }
  }

  lemma {:induction false} OthersNone(st: Store, rows: seq<Message>, turnId: string)
    requires HoldsNone(st, turnId) && DistinctIndexes(st.messages)
    ensures Good(st, st.(messages := InsertOthers(st.messages, rows, turnId)), turnId)
  {
    var ms := InsertOthers(st.messages, rows, turnId);
    forall i | 0 <= i < |ms| ensures !IsReply(ms[i], turnId) && (i < |st.messages| ==> ms[i] == st.messages[i]) {
    }
    assert HoldsNone(st.(messages := ms), turnId);
  }

  lemma {:induction false} NextGood(job: Job, strict: bool, st: Store, step: Step)
    requires Inv(st, job.turnId)
    ensures Good(st, Next(job, strict, st, step), job.turnId)
    ensures Anchored(st, job.turnId) ==> Next(job, strict, st, step).log == st.log
  {
    hide Process, Inv;
    EvolvesRefl(st, job.turnId);
    if step.Work? {
      var st1 := st.(task := Claimed);
      if st.task == Queued {
        ClaimInv(st, job.turnId);
        ProcessGood(job, strict, st1, step.o);
        GoodRebase(st, st1, Next(job, strict, st, step), job.turnId);
      }
    } else {
      OtherStepGood(job, strict, st, step);
    }
  }

  lemma {:induction false} ClaimInv(st: Store, turnId: string)
    requires Inv(st, turnId)
    ensures Inv(st.(task := Claimed), turnId)
  {
    if !HoldsNone(st, turnId) {
      var a :| Sound(st, turnId, a) && Backed(st, a);
      assert Sound(st.(task := Claimed), turnId, a);
    }
  }

  lemma {:induction false} AnchorStays(st: Store, st': Store, turnId: string)
    requires Evolves(st, st', turnId) && Anchored(st, turnId)
    ensures Anchored(st', turnId)
  {
    if i :| 0 <= i < |st.events| && IsEventFor(st.events[i], turnId) {
      assert st'.events[i] == st.events[i];
    } else {
      var i :| 0 <= i < |st.messages| && IsReply(st.messages[i], turnId);
      assert KeepsRow(st.messages[i], st'.messages[i]);
      assert IsReply(st'.messages[i], turnId);
    }
  }

  /** Induction over whole runs. */
  lemma {:induction false} RunGood(job: Job, strict: bool, st: Store, steps: seq<Step>)
    requires Inv(st, job.turnId)
    ensures Good(st, Run(job, strict, st, steps), job.turnId)
    ensures Anchored(st, job.turnId) ==> Run(job, strict, st, steps).log == st.log
    decreases |steps|
  {
    hide Next, Inv;
    EvolvesRefl(st, job.turnId);
    if steps != [] {
      var st1 := Next(job, strict, st, steps[0]);
      NextGood(job, strict, st, steps[0]);
      RunGood(job, strict, st1, steps[1..]);
      EvolvesTrans(st, st1, Run(job, strict, st, steps), job.turnId);
      if Anchored(st, job.turnId) { AnchorStays(st, st1, job.turnId); }
    }
  }

  lemma {:induction false} RunSplit(job: Job, strict: bool, st: Store, before: seq<Step>, after: seq<Step>)
    ensures Run(job, strict, st, before + after) == Run(job, strict, Run(job, strict, st, before), after)
    decreases |before|
  {
    hide Next;
    if before == [] {
      assert before + after == after;
    } else {
      RunSplit(job, strict, Next(job, strict, st, before[0]), before[1..], after);
      assert (before + after)[1..] == before[1..] + after;
    }
  }

  // ----- Main results ----------------------------------------------------------------------------

  /** Over every run of attempts, crashes, lost acknowledgements, retries and foreign writes: all
      copies of the turn's answer agree, each is an answer some provider gave, each passes the
      finders' check, there is at most one reply, turn indexes are unique, and the reply carries
      its closing events exactly once and says it is completed if finalised, and neither before. */
  lemma {:induction false} CopiesAgree(job: Job, strict: bool, st: Store, steps: seq<Step>)
    requires Fresh(job, st)
    ensures var end := Run(job, strict, st, steps);
            && (forall a, b :: Holds(end, job.turnId, a) && Holds(end, job.turnId, b) ==> a == b)
            && (forall a :: Holds(end, job.turnId, a) ==> Consistent(a) && Answered(a) in end.log)
            && OneReply(end.messages, job.turnId)
            && DistinctIndexes(end.messages)
            && AllClosed(end.messages, job.turnId)
  {
    hide Next;
    RunGood(job, strict, st, steps);
    var end := Run(job, strict, st, steps);
    if !HoldsNone(end, job.turnId) {
      var a :| Sound(end, job.turnId, a) && Backed(end, a);
      forall b | Holds(end, job.turnId, b) ensures b == a {
      }
    }
  }

  /** Once the event checkpoint or the reply is stored, no continuation of the run asks a provider again. */
  lemma {:induction false} NoSecondGeneration(job: Job, strict: bool, st: Store, before: seq<Step>, after: seq<Step>)
    requires Fresh(job, st)
    requires Anchored(Run(job, strict, st, before), job.turnId)
    ensures Run(job, strict, st, before + after).log == Run(job, strict, st, before).log
  {
    hide Next;
    RunGood(job, strict, st, before);
    RunGood(job, strict, Run(job, strict, st, before), after);
    RunSplit(job, strict, st, before, after);
  }

  /** Rows persist: text, index, runtime and trace of every message survive any continuation, and a
      finalised message does not change at all. */
  lemma {:induction false} FinalizedForever(job: Job, strict: bool, st: Store, before: seq<Step>, after: seq<Step>,
                                            i: nat)
    requires Fresh(job, st)
    requires i < |Run(job, strict, st, before).messages|
    ensures var mid, end := Run(job, strict, st, before), Run(job, strict, st, before + after);
            && i < |end.messages|
            && KeepsRow(mid.messages[i], end.messages[i])
            && (Finalized(mid.messages[i]) ==> end.messages[i] == mid.messages[i])
  {
    hide Next;
    RunGood(job, strict, st, before);
    RunGood(job, strict, Run(job, strict, st, before), after);
    RunSplit(job, strict, st, before, after);
  }

  /** In any continuation, a reply that was not there yet gets an index above every row that was. */
  lemma {:induction false} NewReplyIndex(job: Job, strict: bool, st: Store, before: seq<Step>, after: seq<Step>)
    requires Fresh(job, st)
    ensures NewRepliesAbove(Run(job, strict, st, before).messages,
                            Run(job, strict, st, before + after).messages, job.turnId)
  {
    hide Next;
    RunGood(job, strict, st, before);
    RunGood(job, strict, Run(job, strict, st, before), after);
    RunSplit(job, strict, st, before, after);
  }
}
