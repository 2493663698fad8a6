/** What attempts do to the message table, row by row: the only changes they can make, and the turn
    index a new reply gets over whole runs. */
module ReplyRows {
  import opened Prelude
  import opened Llm
  import opened TurnManifest
  import opened ManifestStory
  import opened TurnStore
  import opened Attempt
  import opened Safety
  import opened Outcomes

  // ----- The changes an attempt can make ----------------------------------------------------------------

  function FinalRow(row: Message, i: nat, at: Time): Message
    requires row.manifest.turn.Some?
  {
    PutTurn(row, Finalize(row.manifest.turn.value, i, at))
  }

  /** Rows of other turns, and after them perhaps the reply, open or finalised. */
  predicate Inserts(turnId: string, ms: seq<Message>, o: Oracle, a: Answer, turn: Manifest, ms': seq<Message>) {
    var more, row := InsertOthers(ms, o.others, turnId), ReplyRow(ms, a, turn);
    || ms' == more
    || (&& IndexFree(more, row.turnIndex)
        && (ms' == more + [row] || ms' == more + [FinalRow(row, |more|, o.persistedAt)]))
  }

  /** What can become of the table, by what the search found. */
  predicate Changes(job: Job, ms: seq<Message>, o: Oracle, r: Recovery, ms': seq<Message>) {
    || ms' == ms
    || match r
       case Resume(i) =>
         && i < |ms| && ms[i].manifest.turn.Some? && NeedsFinalize(ms[i].manifest.turn.value)
         && ms' == ms[i := FinalRow(ms[i], i, o.persistedAt)]
       case Recreate(c) =>
         Inserts(job.turnId, ms, o, c.answer, MessageTurn(job, c.answer, o.requestedAt, c.capturedAt), ms')
       case Regenerate =>
         var g := Generate(o.hostCalls, o.replies);
         g.Generated? &&
         Inserts(job.turnId, ms, o, g.answer, MessageTurn(job, g.answer, o.requestedAt, o.completedAt), ms')
       case _ => false
  }

  lemma {:induction false} RecordMessages(job: Job, st: Store, o: Oracle, i: nat, a: Answer)
    ensures Record(job, st, o, i, a).messages == st.messages
  {
    hide Fail, Complete;
    FailKeeps(job, PutRecords(st, i, a, o.invocation, Refused), o, CommitFailure(a, LlmInvocationPersist));
    FailKeeps(job, PutRecords(st, i, a, o.invocation, o.tools), o, CommitFailure(a, ToolExecutionPersist));
    CompleteKeeps(job, PutRecords(st, i, a, o.invocation, o.tools), o, a);
  }

  lemma {:induction false} FinalizeRows(job: Job, st: Store, o: Oracle, i: nat, a: Answer, f: Failure)
    requires i < |st.messages| && st.messages[i].manifest.turn.Some?
    ensures var ms' := FinalizeAt(job, st, o, i, a, f).messages;
            ms' == st.messages || ms' == st.messages[i := FinalRow(st.messages[i], i, o.persistedAt)]
  {
    hide Fail, Record, Finalize;
    var st1 := PutManifest(st, i, Finalize(st.messages[i].manifest.turn.value, i, o.persistedAt), o.finalize);
    FailKeeps(job, st1, o, f);
    RecordMessages(job, st1, o, i, a);
  }

  lemma {:induction false} CreateRows(job: Job, st: Store, o: Oracle, a: Answer, turn: Manifest)
    ensures Inserts(job.turnId, st.messages, o, a, turn, Create(job, st, o, a, turn).messages)
  {
    hide Fail, FinalizeAt, Finalize;
    var row := ReplyRow(st.messages, a, turn);
    var more := InsertOthers(st.messages, o.others, job.turnId);
    var put := Lands(o.create) && IndexFree(more, row.turnIndex);
    var st1 := st.(messages := if put then more + [row] else more);
    FailKeeps(job, st1, o, CommitFailure(a, AssistantMessageCreate));
    if o.create == Done && put {
      FinalizeRows(job, st1, o, |more|, a, CommitFailure(a, AssistantMessageManifestUpdate));
      assert (more + [row])[|more| := FinalRow(row, |more|, o.persistedAt)]
             == more + [FinalRow(row, |more|, o.persistedAt)];
    }
  }

  lemma {:induction false} PublishRows(job: Job, st: Store, o: Oracle, a: Answer)
    ensures var ms' := Publish(job, st, o, a).messages;
            || ms' == st.messages
            || Inserts(job.turnId, st.messages, o, a, MessageTurn(job, a, o.requestedAt, o.completedAt), ms')
  {
    hide Fail, Create, Inserts, MessageTurn, ReadyTurn;
    var ready := Session(PendingReply, Some(ReadyTurn(job, a, o.requestedAt, o.readyAt)));
    var st1 := PutSession(st, ready, o.ready);
    FailKeeps(job, st1, o, CommitFailure(a, ResponseReadySessionUpdate));
    CreateRows(job, st1, o, a, MessageTurn(job, a, o.requestedAt, o.completedAt));
  }

  lemma {:induction false} CommitRows(job: Job, st: Store, o: Oracle, a: Answer)
    ensures var ms' := Commit(job, st, o, a).messages;
            || ms' == st.messages
            || Inserts(job.turnId, st.messages, o, a, MessageTurn(job, a, o.requestedAt, o.completedAt), ms')
  {
    hide Fail, Publish, Inserts, MessageTurn;
    var st1 := PutCheckpoint(st, Some(Checkpoint(job.turnId, Copy(a, o.readyAt))), o.checkpoint);
    var st2 := PutEvent(st1, RecoveryEvent(job.turnId, a, o.readyAt), o.event);
    FailKeeps(job, st2, o, CommitFailure(a, WorkflowEventRecoveryPersist));
    PublishRows(job, st2, o, a);
  }

  lemma {:induction false} ProduceRows(job: Job, st: Store, o: Oracle)
    ensures Changes(job, st.messages, o, Regenerate, Produce(job, st, o).messages)
  {
    hide Fail, Commit, Inserts, MessageTurn, InFlightTurn, Generate;
    var flying := Session(PendingReply, Some(InFlightTurn(job, o.requestedAt)));
    var st1 := PutSession(st, flying, o.inFlight);
    var st2 := st1.(log := st1.log + Calls(o.hostCalls, o.replies));
    FailKeeps(job, st1, o, PLAIN);
    match Generate(o.hostCalls, o.replies) {
      case Exhausted(rt) => FailKeeps(job, st2, o, ProviderError(o.hostCalls, rt));
      case Generated(a) =>
        FailKeeps(job, st2, o, Failure(Some(a.content), Some(a.runtime), a.calls, None, false));
        CommitRows(job, st2, o, a);
    }
  }

  lemma {:induction false} ResumedRows(job: Job, st: Store, o: Oracle, i: nat)
    requires i < |st.messages| && st.messages[i].manifest.turn.Some? && Readable(st.messages[i])
    ensures Changes(job, st.messages, o, Resume(i), Resumed(job, st, o, i).messages)
  {
    hide FinalizeAt, Record, Finalize, Inserts;
    var a := AnswerOf(st.messages[i]);
    FinalizeRows(job, st, o, i, a, PLAIN);
    RecordMessages(job, st, o, i, a);
  }

  /** An attempt changes the table only in the ways listed, as its search decides. */
  lemma {:induction false} ProcessRows(job: Job, strict: bool, st: Store, o: Oracle)
    ensures Changes(job, st.messages, o, Recover(st, job.turnId, strict, o.listEvents),
                    Process(job, strict, st, o).messages)
  {
    hide Recover, Fail, Create, Produce, Resumed, Inserts, MessageTurn, Generate, Finalize;
    FailKeeps(job, st, o, PLAIN);
    match Recover(st, job.turnId, strict, o.listEvents) {
      case Resume(i) => ResumedRows(job, st, o, i);
      case Recreate(c) =>
        CreateRows(job, st, o, c.answer, MessageTurn(job, c.answer, o.requestedAt, c.capturedAt));
      case Regenerate => ProduceRows(job, st, o);
      case _ =>
    }
  }

  // ----- Turn indexes -------------------------------------------------------------------------------------

  predicate SameIndexes(ms: seq<Message>, ms': seq<Message>) {
    |ms'| == |ms| && forall i :: 0 <= i < |ms| ==> ms'[i].turnIndex == ms[i].turnIndex
  }

  /** Row `i` had the largest index when it was appended. */
  predicate OnTop(ms: seq<Message>, i: nat) {
    i < |ms| && forall j :: 0 <= j < i ==> ms[j].turnIndex < ms[i].turnIndex
  }

  /** A reply that an attempt inserts is above every row present at that moment exactly if no row that
      got in since the attempt read the table is above the index the attempt had computed. */
  lemma {:induction false} CreateIndexExactly(job: Job, st: Store, o: Oracle, a: Answer, turn: Manifest)
    requires InsertLands(job, st, o)
    ensures var more := InsertOthers(st.messages, o.others, job.turnId);
            var ms' := Create(job, st, o, a, turn).messages;
            && |ms'| == |more| + 1 && ms'[|more|].turnIndex == NextTurnIndex(st.messages)
            && (OnTop(ms', |more|) <==>
                forall j :: |st.messages| <= j < |more| ==> more[j].turnIndex <= NextTurnIndex(st.messages))
  {
    hide FinalizeAt, Fail, Finalize;
    var more := InsertOthers(st.messages, o.others, job.turnId);
    var row := ReplyRow(st.messages, a, turn);
    var st1 := st.(messages := more + [row]);
    var ms' := Create(job, st, o, a, turn).messages;
    FailKeeps(job, st1, o, CommitFailure(a, AssistantMessageCreate));
    if o.create == Done {
      FinalizeRows(job, st1, o, |more|, a, CommitFailure(a, AssistantMessageManifestUpdate));
    }
    assert SameIndexes(more + [row], ms');
    assert forall j :: 0 <= j < |more| ==> ms'[j].turnIndex == more[j].turnIndex;
    assert forall j :: 0 <= j < |st.messages| ==> more[j] == st.messages[j];
  }

  /** Witness: a row written with an arbitrary index during the attempt ends up above the reply. */
  lemma {:induction false} GapLeavesReplyBelow(job: Job, st: Store, o: Oracle, a: Answer, turn: Manifest)
    requires st.messages == [] && Lands(o.create)
    requires o.others == [Message(User, 7, "", MessageManifest(None, None, []))]
    ensures InsertLands(job, st, o) && !OnTop(Create(job, st, o, a, turn).messages, 1)
  {
    hide Create;
    var row := o.others[0];
    assert o.others[1..] == [];
    assert InsertOthers(st.messages, o.others, job.turnId) == [row] by {
      assert InsertOthers([] + [row], [], job.turnId) == [row];
    }
    assert IndexFree([row], 0);
    CreateIndexExactly(job, st, o, a, turn);
  }

  /** From row `n` on, every row was given one more than the largest index before it. */
  predicate Appended(n: nat, ms: seq<Message>) {
    n <= |ms| && forall p :: n <= p < |ms| ==> ms[p].turnIndex == NextTurnIndex(ms[..p])
  }

  /** Writers read the table at some moment, and later insert under one more than the largest index
      they saw: the way every writer of the table computes an index. */
  predicate ReadThenInsert(n: nat, ms: seq<Message>, others: seq<Message>, turnId: string)
    decreases |others|
  {
    others == []
    || (&& (exists p :: n <= p <= |ms| && others[0].turnIndex == NextTurnIndex(ms[..p]))
        && ReadThenInsert(n, InsertOthers(ms, others[..1], turnId), others[1..], turnId))
  }

  /** An index computed before the last row was appended is taken. */
  lemma {:induction false} StaleIsTaken(n: nat, ms: seq<Message>, p: nat)
    requires Appended(n, ms) && n <= p <= |ms|
    ensures IndexFree(ms, NextTurnIndex(ms[..p])) <==> p == |ms|
  {
    if p < |ms| {
      assert ms[p].turnIndex == NextTurnIndex(ms[..p]);
    } else {
      assert ms[..p] == ms;
    }
  }

  lemma {:induction false} AppendNext(n: nat, ms: seq<Message>, row: Message)
    requires Appended(n, ms) && row.turnIndex == NextTurnIndex(ms)
    ensures Appended(n, ms + [row])
  {
    var ms' := ms + [row];
    forall p | n <= p < |ms'| ensures ms'[p].turnIndex == NextTurnIndex(ms'[..p]) {
      if p < |ms| {
        assert ms'[..p] == ms[..p];
      } else {
        assert ms'[..p] == ms;
      }
    }
  }

  lemma {:induction false} InsertOne(ms: seq<Message>, others: seq<Message>, turnId: string)
    requires others != []
    ensures var first := InsertOthers(ms, others[..1], turnId);
            && InsertOthers(ms, others, turnId) == InsertOthers(first, others[1..], turnId)
            && first == if IndexFree(ms, others[0].turnIndex) && !IsReply(others[0], turnId)
                        then ms + [others[0]] else ms
  {
    hide IndexFree, IsReply;
    assert others[..1][1..] == [];
  }

  lemma {:induction false} OthersAppended(n: nat, ms: seq<Message>, others: seq<Message>, turnId: string)
    requires Appended(n, ms) && ReadThenInsert(n, ms, others, turnId)
    ensures Appended(n, InsertOthers(ms, others, turnId))
    decreases |others|
  {
    if others != [] {
      hide InsertOthers, Appended, NextTurnIndex, IndexFree;
      InsertOne(ms, others, turnId);
      var p :| n <= p <= |ms| && others[0].turnIndex == NextTurnIndex(ms[..p]);
      StaleIsTaken(n, ms, p);
      var first := InsertOthers(ms, others[..1], turnId);
      if first != ms {
        assert ms[..p] == ms;
        AppendNext(n, ms, others[0]);
      }
      OthersAppended(n, first, others[1..], turnId);
    }
  }

  // ----- Replies on top -----------------------------------------------------------------------------------

  /** No row that other writers get in leaves a gap: each index is at most one above the largest. */
  predicate NoLeap(ms: seq<Message>, others: seq<Message>, turnId: string)
    decreases |others|
  {
    others == []
    || (&& (IndexFree(ms, others[0].turnIndex) && !IsReply(others[0], turnId) ==>
              others[0].turnIndex <= NextTurnIndex(ms))
        && NoLeap(InsertOthers(ms, others[..1], turnId), others[1..], turnId))
  }

  /** A writer that uses one more than the largest index it has read, at any earlier time, never leaps. */
  lemma {:induction false} EarlierReadNeverLeaps(earlier: seq<Message>, ms: seq<Message>)
    requires KeepsRows(earlier, ms) && (earlier == [] ==> forall i :: 0 <= i < |ms| ==> ms[i].turnIndex >= 0)
    ensures NextTurnIndex(earlier) <= NextTurnIndex(ms)
  {
    if earlier != [] {
      var i :| 0 <= i < |earlier| && earlier[i].turnIndex + 1 == NextTurnIndex(earlier);
      assert KeepsRow(earlier[i], ms[i]);
    } else if ms != [] {
      assert ms[0].turnIndex >= 0;
    }
  }

  predicate AllBelow(ms: seq<Message>, n: int) {
    forall j :: 0 <= j < |ms| ==> ms[j].turnIndex < n
  }

  /** Where nobody leaps, an index that is still free is above all rows that got in. */
  lemma {:induction false} FreeIsOnTop(ms: seq<Message>, others: seq<Message>, turnId: string, n: int)
    requires NoLeap(ms, others, turnId) && AllBelow(ms, n) && NextTurnIndex(ms) <= n
    requires IndexFree(InsertOthers(ms, others, turnId), n)
    ensures AllBelow(InsertOthers(ms, others, turnId), n)
    decreases |others|
  {
    if others != [] {
      InsertOne(ms, others, turnId);
      hide InsertOthers, NextTurnIndex, IsReply, IndexFree, AllBelow;
      var first := InsertOthers(ms, others[..1], turnId);
      if first != ms { OneBelow(ms, others[0], InsertOthers(ms, others, turnId), n); }
      FreeIsOnTop(first, others[1..], turnId, n);
    }
  }

  lemma {:induction false} OneBelow(ms: seq<Message>, row: Message, more: seq<Message>, n: int)
    requires AllBelow(ms, n) && row.turnIndex <= n && ms + [row] <= more && IndexFree(more, n)
    ensures AllBelow(ms + [row], n) && NextTurnIndex(ms + [row]) <= n
  {
    hide NextTurnIndex;
    assert more[|ms|] == (ms + [row])[|ms|] == row;
  }

  predicate RepliesOnTop(ms: seq<Message>, turnId: string) {
    forall i :: 0 <= i < |ms| && IsReply(ms[i], turnId) ==> OnTop(ms, i)
  }

  lemma {:induction false} InsertsOnTop(turnId: string, ms: seq<Message>, o: Oracle, a: Answer, turn: Manifest,
                                        ms': seq<Message>)
    requires RepliesOnTop(ms, turnId) && NoLeap(ms, o.others, turnId) && Inserts(turnId, ms, o, a, turn, ms')
    ensures RepliesOnTop(ms', turnId)
  {
    hide NextTurnIndex, InsertOthers, Finalize, NoLeap;
    var more := InsertOthers(ms, o.others, turnId);
    if ms' != more { FreeIsOnTop(ms, o.others, turnId, NextTurnIndex(ms)); }
    forall i | 0 <= i < |ms'| && IsReply(ms'[i], turnId) ensures OnTop(ms', i) {
      if i < |more| {
        assert ms'[i] == more[i] && i < |ms| && more[i] == ms[i];
        assert forall j :: 0 <= j < i ==> ms'[j] == ms[j];
      } else {
        assert forall j :: 0 <= j < |more| ==> ms'[j] == more[j];
      }
    }
  }

  lemma {:induction false} ChangesOnTop(job: Job, ms: seq<Message>, o: Oracle, r: Recovery, ms': seq<Message>)
    requires RepliesOnTop(ms, job.turnId) && NoLeap(ms, o.others, job.turnId) && Changes(job, ms, o, r, ms')
    ensures RepliesOnTop(ms', job.turnId)
  {
    hide NoLeap, Inserts, MessageTurn, Generate;
    if ms' != ms {
      match r {
        case Resume(i) =>
          forall k | 0 <= k < |ms'| && IsReply(ms'[k], job.turnId) ensures OnTop(ms', k) {
            assert IsReply(ms[k], job.turnId);
            assert forall j :: 0 <= j < |ms| ==> ms'[j].turnIndex == ms[j].turnIndex;
          }
        case Recreate(c) =>
          InsertsOnTop(job.turnId, ms, o, c.answer, MessageTurn(job, c.answer, o.requestedAt, c.capturedAt), ms');
        case Regenerate =>
          var a := Generate(o.hostCalls, o.replies).answer;
          InsertsOnTop(job.turnId, ms, o, a, MessageTurn(job, a, o.requestedAt, o.completedAt), ms');
      }
    }
  }

  /** During no attempt of the run does a row leap. What others write between attempts is arbitrary. */
  predicate NoLeaps(job: Job, strict: bool, st: Store, steps: seq<Step>)
    decreases |steps|
  {
    steps == []
    || (&& (steps[0].Work? ==> NoLeap(st.messages, steps[0].o.others, job.turnId))
        && NoLeaps(job, strict, Next(job, strict, st, steps[0]), steps[1..]))
  }

  lemma {:induction false} OthersOnTop(ms: seq<Message>, rows: seq<Message>, turnId: string)
    requires RepliesOnTop(ms, turnId)
    ensures RepliesOnTop(InsertOthers(ms, rows, turnId), turnId)
  {
    var more := InsertOthers(ms, rows, turnId);
    forall i | 0 <= i < |more| && IsReply(more[i], turnId) ensures OnTop(more, i) {
      assert i < |ms| && more[i] == ms[i];
      assert forall j :: 0 <= j < i ==> more[j] == ms[j];
    }
  }

  lemma {:induction false} NextOnTop(job: Job, strict: bool, st: Store, step: Step)
    requires RepliesOnTop(st.messages, job.turnId)
    requires step.Work? ==> NoLeap(st.messages, step.o.others, job.turnId)
    ensures RepliesOnTop(Next(job, strict, st, step).messages, job.turnId)
  {
    hide RepliesOnTop, NoLeap, Process, Recover, Changes, Deliver;
    match step {
      case Work(o) =>
        var st1 := st.(task := Claimed);
        ProcessRows(job, strict, st1, o);
        ChangesOnTop(job, st.messages, o, Recover(st1, job.turnId, strict, o.listEvents),
                     Process(job, strict, st1, o).messages);
      case Send(s) => DeliverKeeps(st, s);
      case Requeue =>
      case OtherSession(s) =>
      case OtherMessages(rows) => OthersOnTop(st.messages, rows, job.turnId);
    }
  }

  /** Over every run in which no row leaps during an attempt, the turn's reply has an index above every
      row that was present when it was inserted. */
  lemma {:induction false} ReplyOnTop(job: Job, strict: bool, st: Store, steps: seq<Step>)
    requires RepliesOnTop(st.messages, job.turnId) && NoLeaps(job, strict, st, steps)
    ensures RepliesOnTop(Run(job, strict, st, steps).messages, job.turnId)
    decreases |steps|
  {
    hide RepliesOnTop, Next, NoLeap;
    if steps != [] {
      NextOnTop(job, strict, st, steps[0]);
      ReplyOnTop(job, strict, Next(job, strict, st, steps[0]), steps[1..]);
    }
  }

  // ----- What replies say ----------------------------------------------------------------------------------

  /** Row `i` is rendered from its own answer, open or finalised. */
  predicate Rendered(job: Job, m: Message, i: nat) {
    && m.manifest.turn.Some? && Readable(m)
    && var t := m.manifest.turn.value;
       && t.respondedAt.Some?
       && var open := MessageTurn(job, AnswerOf(m), t.requestedAt, t.respondedAt.value);
          t == open || (t.persistedAt.Some? && t == Finalize(open, i, t.persistedAt.value))
  }

  predicate RowsRendered(job: Job, ms: seq<Message>) {
    forall i :: 0 <= i < |ms| && IsReply(ms[i], job.turnId) ==> Rendered(job, ms[i], i)
  }

  lemma {:induction false} FinalRendered(job: Job, m: Message, i: nat, at: Time)
    requires Rendered(job, m, i) && NeedsFinalize(m.manifest.turn.value)
    ensures Rendered(job, FinalRow(m, i, at), i)
  {
    hide MessageTable, Select;
  }

  lemma {:induction false} FreshRendered(job: Job, ms: seq<Message>, a: Answer, requestedAt: Time,
                                         respondedAt: Time, i: nat)
    ensures var row := ReplyRow(ms, a, MessageTurn(job, a, requestedAt, respondedAt));
            Rendered(job, row, i) && row.manifest.turn.Some? && NeedsFinalize(row.manifest.turn.value)
  {
    hide MessageTable, Select, NextTurnIndex;
  }

  lemma {:induction false} InsertsRendered(job: Job, ms: seq<Message>, o: Oracle, a: Answer, respondedAt: Time,
                                           ms': seq<Message>)
    requires Inserts(job.turnId, ms, o, a, MessageTurn(job, a, o.requestedAt, respondedAt), ms')
    requires RowsRendered(job, ms)
    ensures RowsRendered(job, ms')
  {
    hide Rendered, MessageTurn, Finalize, IndexFree, NextTurnIndex, ReplyRow;
    var more := InsertOthers(ms, o.others, job.turnId);
    var row := ReplyRow(ms, a, MessageTurn(job, a, o.requestedAt, respondedAt));
    FreshRendered(job, ms, a, o.requestedAt, respondedAt, |more|);
    FinalRendered(job, row, |more|, o.persistedAt);
    forall i | 0 <= i < |ms'| && IsReply(ms'[i], job.turnId) ensures Rendered(job, ms'[i], i) {
      if i < |more| { assert ms'[i] == more[i] && i < |ms| && more[i] == ms[i]; }
    }
  }

  lemma {:induction false} ChangesRendered(job: Job, ms: seq<Message>, o: Oracle, r: Recovery, ms': seq<Message>)
    requires Changes(job, ms, o, r, ms') && RowsRendered(job, ms)
    requires r.Resume? ==> r.at < |ms| && IsReply(ms[r.at], job.turnId)
    ensures RowsRendered(job, ms')
  {
    hide Rendered, Inserts, MessageTurn, Finalize, Generate;
    if ms' != ms {
      match r {
        case Resume(i) => FinalRendered(job, ms[i], i, o.persistedAt);
        case Recreate(c) => InsertsRendered(job, ms, o, c.answer, c.capturedAt, ms');
        case Regenerate => InsertsRendered(job, ms, o, Generate(o.hostCalls, o.replies).answer, o.completedAt, ms');
      }
    }
  }

  lemma {:induction false} OthersRendered(job: Job, ms: seq<Message>, rows: seq<Message>)
    requires RowsRendered(job, ms)
    ensures RowsRendered(job, InsertOthers(ms, rows, job.turnId))
  {
    hide Rendered;
    var more := InsertOthers(ms, rows, job.turnId);
    forall i | 0 <= i < |more| && IsReply(more[i], job.turnId) ensures i < |ms| && more[i] == ms[i] {
    }
  }

  lemma {:induction false} NextRendered(job: Job, strict: bool, st: Store, step: Step)
    requires RowsRendered(job, st.messages)
    ensures RowsRendered(job, Next(job, strict, st, step).messages)
  {
    hide RowsRendered, Process, Recover, Changes, Deliver;
    match step {
      case Work(o) =>
        var st1 := st.(task := Claimed);
        ProcessRows(job, strict, st1, o);
        ChangesRendered(job, st.messages, o, Recover(st1, job.turnId, strict, o.listEvents),
                        Process(job, strict, st1, o).messages);
      case Send(s) => DeliverKeeps(st, s);
      case Requeue =>
      case OtherSession(s) =>
      case OtherMessages(rows) => OthersRendered(job, st.messages, rows);
    }
  }

  lemma {:induction false} RunRendered(job: Job, strict: bool, st: Store, steps: seq<Step>)
    requires RowsRendered(job, st.messages)
    ensures RowsRendered(job, Run(job, strict, st, steps).messages)
    decreases |steps|
  {
    hide RowsRendered, Next;
    if steps != [] {
      NextRendered(job, strict, st, steps[0]);
      RunRendered(job, strict, Next(job, strict, st, steps[0]), steps[1..]);
    }
  }

  /** Over every run, with any crashes, refusals and retries: a finalised reply says, in all its fields and
      events, that its own answer was committed as the row it is. */
  lemma {:induction false} FinalReplySays(job: Job, strict: bool, st: Store, steps: seq<Step>, i: nat)
    requires Fresh(job, st) && i < |Run(job, strict, st, steps).messages|
    requires var m := Run(job, strict, st, steps).messages[i]; IsReply(m, job.turnId) && Finalized(m)
    ensures var m := Run(job, strict, st, steps).messages[i];
            Readable(m) && FinalFields(m.manifest.turn.value, job, AnswerOf(m), i)
  {
    hide Next, Rendered, FinalFields;
    RunRendered(job, strict, st, steps);
    RenderedSays(job, Run(job, strict, st, steps).messages[i], i);
  }

  lemma {:induction false} RenderedSays(job: Job, m: Message, i: nat)
    requires Rendered(job, m, i) && Finalized(m)
    ensures Readable(m) && FinalFields(m.manifest.turn.value, job, AnswerOf(m), i)
  {
    RenderedFinal(job, m, i);
    hide FinalFields, MessageTurn, Finalize;
    var t := m.manifest.turn.value;
    FinalStory(job, AnswerOf(m), t.requestedAt, t.respondedAt.value, i, t.persistedAt.value);
  }

  lemma {:induction false} RenderedFinal(job: Job, m: Message, i: nat)
    requires Rendered(job, m, i) && Finalized(m)
    ensures var t := m.manifest.turn.value;
            && t.persistedAt.Some? && t.respondedAt.Some?
            && t == Finalize(MessageTurn(job, AnswerOf(m), t.requestedAt, t.respondedAt.value), i, t.persistedAt.value)
            && t.requestId == AnswerOf(m).runtime.requestId
  {
    hide MessageTable, Select;
  }
}
