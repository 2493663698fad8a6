/** Runs of several attempts: exactly when an attempt without failing operations commits the turn, what a
    user's post in the middle of an attempt does, and how a stored answer can be forgotten. */
module Retries {
  import opened Prelude
  import opened Llm
  import opened TurnManifest
  import opened TurnStore
  import opened Attempt
  import opened Safety
  import opened Outcomes
  import opened ReplyRows

  // ----- Convergence ------------------------------------------------------------------------------------

  lemma {:induction false} NoInsertNoReply(job: Job, st: Store, o: Oracle, r: Recovery, ms': seq<Message>)
    requires Changes(job, st.messages, o, r, ms') && !r.Resume? && !HasReply(st.messages, job.turnId)
    requires o.create == Done && !InsertLands(job, st, o)
    ensures !HasReply(ms', job.turnId)
  {
    hide MessageTurn, NextTurnIndex, Finalize, Generate;
    var more := InsertOthers(st.messages, o.others, job.turnId);
    forall i | 0 <= i < |more| ensures !IsReply(more[i], job.turnId) {
      if i < |st.messages| { assert more[i] == st.messages[i]; }
    }
    assert ms' == st.messages || ms' == more;
  }

  /** From every reachable unfinished store, an attempt whose operations all succeed leaves a reply, and
      then a committed turn, exactly if there was a reply to resume or its insert takes effect. */
  lemma {:induction false} ConvergesExactly(job: Job, strict: bool, st: Store, o: Oracle)
    requires Inv(st, job.turnId) && st.execution.status != Succeeded
    requires CommitsSucceed(o) && ProviderSucceeds(o)
    ensures var st', commits := Process(job, strict, st, o), HasReply(st.messages, job.turnId) || InsertLands(job, st, o);
            && (HasReply(st'.messages, job.turnId) <==> commits)
            && ((exists i: nat, a :: TurnCommitted(st', job.turnId, i, a)) <==> commits)
  {
    hide Process, Inv, Recover, Changes, InsertLands, TurnCommitted;
    var st' := Process(job, strict, st, o);
    if HasReply(st.messages, job.turnId) || InsertLands(job, st, o) {
      var _, i, a := Converges(job, strict, st, o);
      CommittedMeans(st', job.turnId, i, a);
    } else {
      var r := Recover(st, job.turnId, strict, o.listEvents);
      RecoverDecides(st, job.turnId, strict);
      ProcessRows(job, strict, st, o);
      NoInsertNoReply(job, st, o, r, st'.messages);
      forall i: nat, a ensures !TurnCommitted(st', job.turnId, i, a) {
        if TurnCommitted(st', job.turnId, i, a) { CommittedMeans(st', job.turnId, i, a); }
      }
    }
  }

  // ----- A post in the middle of an attempt --------------------------------------------------------------

  /** How far an undisturbed attempt gets when its index has been taken: the answer is durable, the attempt
      fails. */
  lemma {:induction false} TakenIndexFails(job: Job, st: Store, o: Oracle)
    requires HoldsNone(st, job.turnId) && st.execution.status == Running
    requires WritesSucceed(o) && ProviderSucceeds(o) && !InsertLands(job, st, o)
    ensures var st' := Process(job, false, st, o);
            && st'.task == TaskFailed && st'.execution == st.execution.(status := WorkflowFailed)
            && Checkpointed(st', job.turnId)
            && Holds(st', job.turnId, Generate(o.hostCalls, o.replies).answer)
            && st'.messages == InsertOthers(st.messages, o.others, job.turnId)
  {
    hide Recover, Fail, HoldsNone, Generate, Calls, ReadyTurn, InFlightTurn, MessageTurn, FailedSession, FinalizeAt;
    var a := Generate(o.hostCalls, o.replies).answer;
    var flying := Session(PendingReply, Some(InFlightTurn(job, o.requestedAt)));
    var e := RecoveryEvent(job.turnId, a, o.readyAt);
    var st1 := st.(session := flying, log := st.log + Calls(o.hostCalls, o.replies));
    var st2 := PutCheckpoint(st1, Some(Checkpoint(job.turnId, Copy(a, o.readyAt))), o.checkpoint)
               .(events := st1.events + [e],
                 session := Session(PendingReply, Some(ReadyTurn(job, a, o.requestedAt, o.readyAt))));
    var st3 := st2.(messages := InsertOthers(st.messages, o.others, job.turnId));
    var f := CommitFailure(a, AssistantMessageCreate);
    RecoverNone(st, job.turnId, false, o.listEvents);
    ProcessDispatches(job, false, st, o);
    assert Produce(job, st, o) == Fail(job, st3, o, f);
    FailEnds(job, st3, o, f);
    FailCopies(job, st3, o, f);
    var st' := Process(job, false, st, o);
    assert st3.events[|st.events|] == e;
    assert st'.events[|st.events|] == e && IsEventFor(e, job.turnId);
  }

  lemma {:induction false} FailEnds(job: Job, st: Store, o: Oracle, f: Failure)
    requires o.failedSession == Done && o.failedSignal == Done && st.execution.status == Running
    ensures Fail(job, st, o, f).execution == st.execution.(status := WorkflowFailed)
    ensures o.markFailed == Done ==> Fail(job, st, o, f).task == TaskFailed
  {
    hide FailedSession;
  }

  /** `row` is what a user's next post inserts while the attempt is under way. */
  predicate PostArrives(job: Job, st: Store, o: Oracle, row: Message) {
    o.others == [row] && row.role == User && row.turnIndex == NextTurnIndex(st.messages)
  }

  lemma {:induction false} PostTakesIndex(job: Job, st: Store, o: Oracle, row: Message)
    requires PostArrives(job, st, o, row)
    ensures InsertOthers(st.messages, o.others, job.turnId) == st.messages + [row] && !InsertLands(job, st, o)
  {
    assert o.others[1..] == [];
    assert InsertOthers(st.messages + [row], [], job.turnId) == st.messages + [row];
    assert (st.messages + [row])[|st.messages|] == row;
  }

  /** What retrying a failed execution leaves to the next attempt. */
  lemma {:induction false} Restarted(job: Job, st: Store)
    requires st.execution.status == WorkflowFailed && st.execution.retries > 0
    ensures var st' := Deliver(Deliver(st, RetryRequested), Start);
            && st'.task == Queued && st'.execution == Execution(Running, st.execution.retries - 1)
            && st'.checkpoint == None && st'.session == st.session && st'.messages == st.messages
            && st'.events == st.events + [EngineEvent] + [EngineEvent] && st'.log == st.log
  {
  }

  /** Witness run: every operation succeeds, but a post that arrives during the attempt takes the reply's
      index, so the attempt stores no reply and the execution fails. The answer is durable, and the
      ordinary retry commits it without asking a provider again. */
  lemma {:induction false} PostMeanwhileRun(job: Job, st: Store, first: Oracle, row: Message, second: Oracle)
    returns (i: nat)
    requires Fresh(job, st) && st.task == Queued && st.execution.status == Running && st.execution.retries > 0
    requires WritesSucceed(first) && ProviderSucceeds(first) && PostArrives(job, st, first, row)
    requires WritesSucceed(second) && ProviderSucceeds(second) && second.others == []
    ensures var mid := Run(job, false, st, [Work(first)]);
            var end := Run(job, false, st, [Work(first), Send(RetryRequested), Send(Start), Work(second)]);
            && !HasReply(mid.messages, job.turnId)
            && mid.task == TaskFailed && mid.execution.status == WorkflowFailed
            && TurnCommitted(end, job.turnId, i, Generate(first.hostCalls, first.replies).answer)
            && end.task == TaskSucceeded && end.execution.status == Succeeded
            && end.log == mid.log
  {
    hide Process, Inv, TurnCommitted, Checkpointed, HoldsNone, Holds, InsertLands, Deliver, Generate;
    var a := Generate(first.hostCalls, first.replies).answer;
    var claimed := st.(task := Claimed);
    FreshStore(job, st);
    PostTakesIndex(job, claimed, first, row);
    TakenIndexFails(job, claimed, first);
    var mid := Next(job, false, st, Work(first));
    assert [Work(first)][1..] == [];
    PostIsNoReply(st, mid, row, job.turnId);
    NextGood(job, false, st, Work(first));
    RunFour(job, false, st, Work(first), Send(RetryRequested), Send(Start), Work(second));
    i := RetryCommits(job, mid, second, a);
  }

  lemma {:induction false} FreshStore(job: Job, st: Store)
    requires Fresh(job, st)
    ensures HoldsNone(st, job.turnId) && HoldsNone(st.(task := Claimed), job.turnId) && Inv(st, job.turnId)
    ensures !HasReply(st.messages, job.turnId)
  {
  }

  lemma {:induction false} PostIsNoReply(st: Store, mid: Store, row: Message, turnId: string)
    requires mid.messages == st.messages + [row] && row.role == User && !HasReply(st.messages, turnId)
    ensures !HasReply(mid.messages, turnId)
  {
    forall i | 0 <= i < |mid.messages| ensures !IsReply(mid.messages[i], turnId) {
      if i < |st.messages| { assert mid.messages[i] == st.messages[i]; }
    }
  }

  /** An ordinary retry of a failed execution that has checkpointed `a` commits `a` without asking anyone. */
  lemma {:induction false} RetryCommits(job: Job, st: Store, o: Oracle, a: Answer) returns (i: nat)
    requires Inv(st, job.turnId) && Checkpointed(st, job.turnId) && Holds(st, job.turnId, a)
    requires st.execution.status == WorkflowFailed && st.execution.retries > 0
    requires WritesSucceed(o) && ProviderSucceeds(o) && o.others == []
    ensures var end := Next(job, false, Deliver(Deliver(st, RetryRequested), Start), Work(o));
            && TurnCommitted(end, job.turnId, i, a)
            && end.task == TaskSucceeded && end.execution.status == Succeeded && end.log == st.log
  {
    hide Process, Inv, TurnCommitted, Checkpointed, Holds, Deliver;
    var st1 := Deliver(st, RetryRequested);
    var st2 := Deliver(st1, Start);
    Restarted(job, st);
    NextGood(job, false, st, Send(RetryRequested));
    NextGood(job, false, st1, Send(Start));
    EvolvesTrans(st, st1, st2, job.turnId);
    var claimed := st2.(task := Claimed);
    ClaimInv(st2, job.turnId);
    FreeTable(job, claimed, o);
    var end, at, b := Converges(job, false, claimed, o);
    i := at;
    NextGood(job, false, st2, Work(o));
    AnchorStays(st, st2, job.turnId);
    EvolvesTrans(st, st2, end, job.turnId);
    SameAnswer(st, end, job.turnId, a, i, b);
  }

  lemma {:induction false} FreeTable(job: Job, st: Store, o: Oracle)
    requires o.others == [] && Lands(o.create)
    ensures InsertLands(job, st, o)
  {
  }

  /** The committed reply is the answer that was checkpointed. */
  lemma {:induction false} SameAnswer(st: Store, st': Store, turnId: string, a: Answer, i: nat, b: Answer)
    requires Inv(st, turnId) && Checkpointed(st, turnId) && Holds(st, turnId, a)
    requires Inv(st', turnId) && Evolves(st, st', turnId) && TurnCommitted(st', turnId, i, b)
    ensures a == b
  {
    var x :| Sound(st, turnId, x) && Backed(st, x);
    var y :| Sound(st', turnId, y) && Backed(st', y);
    assert x == a && y == b;
    AnchoredAnswer(st, st', turnId, x, y);
  }

  // ----- A stored answer is forgotten ----------------------------------------------------------------------

  /** An attempt whose two checkpoints are refused: only the failed manifest keeps the answer. */
  lemma {:induction false} OnlySessionCopy(job: Job, st: Store, o: Oracle)
    requires HoldsNone(st, job.turnId) && st.execution.status == Running
    requires o.resolve == Done && o.listEvents == Done && o.inFlight == Done && ProviderSucceeds(o)
    requires o.checkpoint == Refused && o.event == Refused && o.failedSession == Done && o.failedSignal == Done
    ensures var st' := Process(job, false, st, o);
            && Holds(st', job.turnId, Generate(o.hostCalls, o.replies).answer)
            && HoldsNone(st'.(session := COMPLETED_SESSION), job.turnId)
            && st'.execution == st.execution.(status := WorkflowFailed)
  {
    hide Recover, Fail, Generate, Calls, InFlightTurn, Publish, FailedSession;
    var a := Generate(o.hostCalls, o.replies).answer;
    var f := CommitFailure(a, WorkflowEventRecoveryPersist);
    var flying := Session(PendingReply, Some(InFlightTurn(job, o.requestedAt)));
    var st1 := st.(session := flying, log := st.log + Calls(o.hostCalls, o.replies));
    RecoverNone(st, job.turnId, false, o.listEvents);
    ProcessDispatches(job, false, st, o);
    assert Produce(job, st, o) == Fail(job, st1, o, f);
    FailEnds(job, st1, o, f);
    FailCopies(job, st1, o, f);
    FailedSessionCopy(job, o, f);
  }

  /** A resolver failure puts a manifest without a copy over the session copy. */
  lemma {:induction false} ResolverForgets(job: Job, st: Store, o: Oracle)
    requires HoldsNone(st.(session := COMPLETED_SESSION), job.turnId) && st.execution.status == Running
    requires o.resolve == Refused && o.failedSession == Done && o.failedSignal == Done
    ensures var st' := Process(job, false, st, o);
            HoldsNone(st', job.turnId) && st'.execution == st.execution.(status := WorkflowFailed)
  {
    hide Recover, Fail, Dispatch, FailedSession;
    FailEnds(job, st, o, PLAIN);
    FailCopies(job, st, o, PLAIN);
    FailedSessionCopy(job, o, PLAIN);
  }

  lemma {:induction false} RestartHolds(job: Job, st: Store)
    requires st.execution.status == WorkflowFailed && st.execution.retries > 0
    requires HoldsNone(st.(session := COMPLETED_SESSION), job.turnId)
    ensures var st' := Deliver(Deliver(st, RetryRequested), Start).(task := Claimed);
            && HoldsNone(st'.(session := COMPLETED_SESSION), job.turnId)
            && (HoldsNone(st, job.turnId) ==> HoldsNone(st', job.turnId))
  {
    hide Deliver;
    Restarted(job, st);
  }

  /** Witness run: a good answer is stored in the failed manifest only, a retry that fails in the resolver
      overwrites it, and the next retry asks the provider again for a turn it had answered. */
  lemma {:induction false} ForgottenRun(job: Job, st: Store, first: Oracle, second: Oracle, third: Oracle)
    requires Fresh(job, st) && st.task == Queued && st.execution.status == Running && st.execution.retries > 1
    requires first.resolve == Done && first.listEvents == Done && first.inFlight == Done && ProviderSucceeds(first)
    requires first.checkpoint == Refused && first.event == Refused
    requires first.failedSession == Done && first.failedSignal == Done
    requires second.resolve == Refused && second.failedSession == Done && second.failedSignal == Done
    requires third.resolve == Done && third.listEvents == Done && third.inFlight == Done && third.replies != []
    ensures var one := Run(job, false, st, [Work(first)]);
            var two := Run(job, false, st, [Work(first), Send(RetryRequested), Send(Start), Work(second)]);
            var three := Run(job, false, two, [Send(RetryRequested), Send(Start), Work(third)]);
            && Holds(one, job.turnId, Generate(first.hostCalls, first.replies).answer)
            && HoldsNone(two, job.turnId)
            && three.log == two.log + Calls(third.hostCalls, third.replies) && three.log != two.log
  {
    hide Process, Inv, HoldsNone, Holds, Deliver, Generate, Calls;
    FreshStore(job, st);
    OnlySessionCopy(job, st.(task := Claimed), first);
    assert [Work(first)][1..] == [];
    var one := Next(job, false, st, Work(first));
    RunFour(job, false, st, Work(first), Send(RetryRequested), Send(Start), Work(second));
    Restarted(job, one);
    RestartHolds(job, one);
    var two := Run(job, false, st, [Work(first), Send(RetryRequested), Send(Start), Work(second)]);
    ResolverForgets(job, Deliver(Deliver(one, RetryRequested), Start).(task := Claimed), second);
    RunGood(job, false, st, [Work(first), Send(RetryRequested), Send(Start), Work(second)]);
    AsksAgain(job, two, third);
  }

  lemma {:induction false} AsksAgain(job: Job, st: Store, o: Oracle)
    requires Inv(st, job.turnId) && HoldsNone(st, job.turnId)
    requires st.execution.status == WorkflowFailed && st.execution.retries > 0
    requires o.resolve == Done && o.listEvents == Done && o.inFlight == Done && o.replies != []
    ensures var end := Run(job, false, st, [Send(RetryRequested), Send(Start), Work(o)]);
            end.log == st.log + Calls(o.hostCalls, o.replies) && end.log != st.log
  {
    hide Process, Inv, HoldsNone, Deliver, Calls;
    var steps := [Send(RetryRequested), Send(Start), Work(o)];
    assert steps[1..] == [Send(Start), Work(o)] && steps[1..][1..] == [Work(o)] && steps[1..][1..][1..] == [];
    var st1 := Deliver(st, RetryRequested);
    var st2 := Deliver(st1, Start);
    assert Run(job, false, st, steps) == Run(job, false, st1, steps[1..]) == Run(job, false, st2, steps[1..][1..]);
    Restarted(job, st);
    EmptySession(st, job.turnId);
    RestartHolds(job, st);
    NextGood(job, false, st, Send(RetryRequested));
    NextGood(job, false, st1, Send(Start));
    ClaimInv(st2, job.turnId);
    AsksExactly(job, st2.(task := Claimed), o);
  }

  lemma {:induction false} EmptySession(st: Store, turnId: string)
    requires HoldsNone(st, turnId)
    ensures HoldsNone(st.(session := COMPLETED_SESSION), turnId)
  {
  }
}
