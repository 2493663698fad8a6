/** The worker's search for an interrupted turn over the JSON that is really stored: message manifests,
    session manifest, task payload and event payloads. It decides as the record-level search of module
    Attempt does, so the results about runs hold of the stored JSON. */
module JsonRecovery {
  import opened Prelude
  import opened Llm
  import opened TurnManifest
  import opened TurnStore
  import opened Attempt
  import opened Safety
  import opened RecoveryCodec

  datatype JsonMessage = JsonMessage(role: Role, content: string, manifest: Json)

  datatype JsonEvent = JsonEvent(name: string, payload: Json, createdAt: Time)

  datatype JsonStore = JsonStore(messages: seq<JsonMessage>, session: Json, payload: Json, events: seq<JsonEvent>)

  const EVENT_NAME := "chat_turn_recovery_checkpoint"

  // ----- The search ------------------------------------------------------------------------------------

  function TurnIdOf(manifest: Json): Option<string> {
    match Get(manifest, "turn")
    case None => None
    case Some(turn) => GetStr(turn, TURN)
  }

  /** The test of the backwards search through the messages. */
  predicate Matches(m: JsonMessage, turnId: string) {
    m.role == Assistant && TurnIdOf(m.manifest) == Some(turnId)
  }

  function LastMatch(ms: seq<JsonMessage>, turnId: string): (r: Option<nat>)
    ensures r.Some? ==> r.value < |ms| && Matches(ms[r.value], turnId)
  {
    if ms == [] then None
    else if Matches(ms[|ms| - 1], turnId) then Some(|ms| - 1)
    else LastMatch(ms[..|ms| - 1], turnId)
  }

  predicate EventMatches(e: JsonEvent, turnId: string) {
    e.name == EVENT_NAME && GetStr(e.payload, TURN) == Some(turnId)
  }

  function LastEventMatch(es: seq<JsonEvent>, turnId: string): (r: Option<nat>)
    ensures r.Some? ==> r.value < |es| && EventMatches(es[r.value], turnId)
  {
    if es == [] then None
    else if EventMatches(es[|es| - 1], turnId) then Some(|es| - 1)
    else LastEventMatch(es[..|es| - 1], turnId)
  }

  /** `find_recoverable_assistant_message`. */
  function SearchMessages(ms: seq<JsonMessage>, turnId: string): Result<Option<nat>> {
    match LastMatch(ms, turnId)
    case None => Ok(None)
    case Some(i) => if FindInMessage(ms[i].content, ms[i].manifest, turnId).Ok? then Ok(Some(i)) else Err
  }

  /** `find_recoverable_event_turn`. */
  function SearchEvents(es: seq<JsonEvent>, turnId: string): Result<Option<Copy>> {
    match LastEventMatch(es, turnId)
    case None => Ok(None)
    case Some(i) => FindInEvent(es[i].payload, es[i].createdAt, turnId)
  }

  /** The four places in their fixed order. */
  function Search(js: JsonStore, turnId: string, listEvents: Ack, now: Time): Recovery {
    match SearchMessages(js.messages, turnId)
    case Err => Broken
    case Ok(Some(i)) => Resume(i)
    case Ok(None) =>
      match FindInSession(js.session, turnId, now)
      case Err => Broken
      case Ok(Some(c)) => Recreate(c)
      case Ok(None) =>
        match FindInPayload(js.payload, turnId, now)
        case Err => Broken
        case Ok(Some(c)) => Recreate(c)
        case Ok(None) =>
          if Crashes(listEvents) then Died
          else if Errs(listEvents) then Broken
          else match SearchEvents(js.events, turnId)
            case Err => Broken
            case Ok(Some(c)) => Recreate(c)
            case Ok(None) => Regenerate
  }

  // ----- What is stored --------------------------------------------------------------------------------

  /** Everything the renderers write that no finder looks at: tool snapshots, other manifest fields, and
      the rest of the task payload. */
  datatype Layout = Layout(
    snapshot: string -> Option<Json>,
    sessionRest: map<string, Json>,
    turnRest: map<string, Json>,
    payload: Json)

  /** `j` stores row `m`. Of rows that are not replies of the turn only role and turn id matter. */
  ghost predicate StoresRow(j: JsonMessage, m: Message, turnId: string, l: Layout) {
    && j.role == m.role
    && TurnIdOf(j.manifest) == (if m.manifest.turn.Some? then Some(m.manifest.turn.value.turnId) else None)
    && (IsReply(m, turnId) ==>
          && j.content == m.content
          && Get(j.manifest, RUNTIME) == (if Readable(m) then Some(EncodeRuntime(m.manifest.runtime.value)) else None)
          && Get(j.manifest, TRACE) == Some(Arr(EncodeCalls(m.manifest.toolTrace, l.snapshot))))
  }

  predicate StoresEvent(j: JsonEvent, e: EventRecord) {
    match e
    case EngineEvent => j.name != EVENT_NAME
    case RecoveryEvent(turnId, a, at) =>
      j == JsonEvent(EVENT_NAME, EncodeTurnRecovery(turnId, Copy(a, at)), at)
  }

  function StoredPayload(c: Option<Checkpoint>, payload: Json): Json {
    match c
    case None => PayloadWithout(payload)
    case Some(c) => PayloadWith(payload, c.turnId, c.copy)
  }

  /** `js` is the stored form of the store `st`. */
  ghost predicate Stores(js: JsonStore, st: Store, turnId: string, l: Layout) {
    && |js.messages| == |st.messages|
    && (forall i :: 0 <= i < |st.messages| ==> StoresRow(js.messages[i], st.messages[i], turnId, l))
    && js.session == EncodeSession(st.session, l.snapshot, l.sessionRest, l.turnRest)
    && js.payload == StoredPayload(st.checkpoint, l.payload)
    && |js.events| == |st.events|
    && (forall i :: 0 <= i < |st.events| ==> StoresEvent(js.events[i], st.events[i]))
  }

  // ----- Refinement ---------------------------------------------------------------------------------------

  /** What the record-level search finds, as it reads back. */
  function ReadsAs(r: Recovery): Recovery {
    if r.Recreate? then Recreate(Copy(NormalAnswer(r.copy.answer), r.copy.capturedAt)) else r
  }

  lemma {:induction false} SameLastMatch(js: seq<JsonMessage>, ms: seq<Message>, turnId: string)
    requires |js| == |ms|
    requires forall i :: 0 <= i < |ms| ==> (Matches(js[i], turnId) <==> IsReply(ms[i], turnId))
    ensures LastMatch(js, turnId) == LastReply(ms, turnId)
  {
    hide Matches, IsReply;
    if ms != [] { SameLastMatch(js[..|js| - 1], ms[..|ms| - 1], turnId); }
  }

  lemma {:induction false} SameLastEvent(js: seq<JsonEvent>, es: seq<EventRecord>, turnId: string)
    requires |js| == |es|
    requires forall i :: 0 <= i < |es| ==> (EventMatches(js[i], turnId) <==> IsEventFor(es[i], turnId))
    ensures LastEventMatch(js, turnId) == LastEvent(es, turnId)
  {
    hide EventMatches, IsEventFor;
    if es != [] { SameLastEvent(js[..|js| - 1], es[..|es| - 1], turnId); }
  }

  /** A stored reply reads back as its answer, normalised, under the finder's own check. */
  lemma {:induction false} RowReadsBack(j: JsonMessage, m: Message, turnId: string, l: Layout)
    requires StoresRow(j, m, turnId, l) && IsReply(m, turnId)
    ensures FindInMessage(j.content, j.manifest, turnId) ==
            if Readable(m) then Checked(AnswerOf(m), NormalAnswer(AnswerOf(m))) else Err
  {
    hide EncodeRuntime, ParseRuntime, EncodeCalls, ParseCalls, NormalRuntime;
    CallsRoundTrip(m.manifest.toolTrace, l.snapshot);
    if Readable(m) {
      RuntimeRoundTrip(m.manifest.runtime.value);
      NormalKeepsCount(m.manifest.runtime.value);
    }
  }

  lemma {:induction false} NormalKeepsCount(rt: Runtime)
    ensures NormalRuntime(rt).toolTraceCount == rt.toolTraceCount
  {
  }

  lemma {:induction false} MessagesReadBack(js: JsonStore, st: Store, turnId: string, l: Layout)
    requires Stores(js, st, turnId, l)
    ensures SearchMessages(js.messages, turnId) == FindMessage(st.messages, turnId)
  {
    hide FindInMessage, EncodeSession, StoredPayload, StoresEvent;
    SameLastMatch(js.messages, st.messages, turnId);
    var found := LastReply(st.messages, turnId);
    if found.Some? {
      RowReadsBack(js.messages[found.value], st.messages[found.value], turnId, l);
    }
  }

  lemma {:induction false} EventMatchesStored(j: JsonEvent, e: EventRecord, turnId: string)
    requires StoresEvent(j, e)
    ensures EventMatches(j, turnId) <==> IsEventFor(e, turnId)
    ensures IsEventFor(e, turnId) ==>
              FindInEvent(j.payload, j.createdAt, turnId) == ReadBack(Copy(e.answer, e.createdAt))
  {
    hide ReadBack, EncodeCopy, FindInEvent;
    match e {
      case EngineEvent =>
      case RecoveryEvent(written, a, at) =>
        StoredTurnId(written, Copy(a, at));
        EventReadsBack(written, Copy(a, at), turnId);
    }
  }

  lemma {:induction false} StoredTurnId(turnId: string, c: Copy)
    ensures GetStr(EncodeTurnRecovery(turnId, c), TURN) == Some(turnId)
  {
    hide EncodeCopy;
  }

  /** The backwards search through the whole event log. */
  lemma {:induction false} EventsReadBack(js: JsonStore, st: Store, turnId: string, l: Layout)
    requires Stores(js, st, turnId, l)
    ensures SearchEvents(js.events, turnId) ==
            (match LastEvent(st.events, turnId)
             case None => Ok(None)
             case Some(i) => ReadBack(Copy(st.events[i].answer, st.events[i].createdAt)))
  {
    hide StoresEvent, EventMatches, FindInEvent, ReadBack, StoresRow, EncodeSession, StoredPayload;
    forall i | 0 <= i < |st.events|
      ensures EventMatches(js.events[i], turnId) <==> IsEventFor(st.events[i], turnId)
    {
      EventMatchesStored(js.events[i], st.events[i], turnId);
    }
    SameLastEvent(js.events, st.events, turnId);
    var found := LastEvent(st.events, turnId);
    if found.Some? {
      EventMatchesStored(js.events[found.value], st.events[found.value], turnId);
    }
  }

  /** Session manifest and task payload read back as the copies they hold. */
  lemma {:induction false} CopiesReadBack(js: JsonStore, st: Store, turnId: string, l: Layout, now: Time)
    requires Stores(js, st, turnId, l)
    ensures FindInSession(js.session, turnId, now) ==
            (match SessionCopy(st.session, turnId) case None => Ok(None) case Some(c) => ReadBack(c))
    ensures FindInPayload(js.payload, turnId, now) ==
            (match TaskCopy(st.checkpoint, turnId) case None => Ok(None) case Some(c) => ReadBack(c))
  {
    hide FindInSession, FindInPayload, EncodeSession, PayloadWith, PayloadWithout, StoresRow, StoresEvent, ReadBack;
    SessionReadsBack(st.session, l.snapshot, l.sessionRest, l.turnRest, turnId, now);
    if st.checkpoint.Some? {
      PayloadReadsBack(l.payload, st.checkpoint.value.turnId, st.checkpoint.value.copy, turnId, now);
    } else {
      var any: Copy := *;
      ClearingRestores(l.payload, turnId, any, now);
    }
  }

  /** On every stored form of every store, the JSON search decides as the record-level search, up to the
      normalisation of the copy it recreates from. */
  lemma {:induction false} SearchDecidesAlike(js: JsonStore, st: Store, turnId: string, l: Layout, k: Ack, now: Time)
    requires Stores(js, st, turnId, l)
    ensures Search(js, turnId, k, now) == ReadsAs(Recover(st, turnId, false, k))
  {
    hide FindInSession, FindInPayload, NormalAnswer, SearchMessages, SearchEvents, FindMessage, SessionCopy, TaskCopy,
         Stores, Consistent;
    MessagesReadBack(js, st, turnId, l);
    EventsReadBack(js, st, turnId, l);
    CopiesReadBack(js, st, turnId, l, now);
  }

  /** A resumed reply is read as its answer, normalised. */
  lemma {:induction false} ResumeReadsAnswer(js: JsonStore, st: Store, turnId: string, l: Layout, i: nat, k: Ack)
    requires Stores(js, st, turnId, l) && Recover(st, turnId, false, k) == Resume(i)
    ensures FindInMessage(js.messages[i].content, js.messages[i].manifest, turnId) ==
            Ok(Some(NormalAnswer(AnswerOf(st.messages[i]))))
  {
    hide FindInMessage, NormalAnswer, StoresEvent, EncodeSession, StoredPayload, StoresRow;
    RowReadsBack(js.messages[i], st.messages[i], turnId, l);
  }

  /** Over every run: on the stored form of the store it ends in, the JSON search takes the decision of
      the record-level search, unchanged if the provider's answers are canonical. */
  lemma {:induction false} SearchOnRuns(job: Job, st: Store, steps: seq<Step>, js: JsonStore, l: Layout, k: Ack,
                                        now: Time)
    requires Fresh(job, st) && Stores(js, Run(job, false, st, steps), job.turnId, l)
    requires forall a :: Answered(a) in Run(job, false, st, steps).log ==> Canonical(a)
    ensures Search(js, job.turnId, k, now) == Recover(Run(job, false, st, steps), job.turnId, false, k)
  {
    hide Stores, Search, Recover, Next, Canonical, Sound, HoldsNone, NormalAnswer;
    var end := Run(job, false, st, steps);
    SearchDecidesAlike(js, end, job.turnId, l, k, now);
    RunGood(job, false, st, steps);
    if HoldsNone(end, job.turnId) {
      RecoverNone(end, job.turnId, false, k);
    } else {
      var a :| Sound(end, job.turnId, a) && Backed(end, a);
      RecoverMeaning(end, job.turnId, false, k, a);
      NormalIffCanonical(a);
    }
  }

  // ----- Answers that are not canonical -----------------------------------------------------------------------

  lemma {:induction false} RuntimeStoredAlike(rt: Runtime)
    ensures EncodeRuntime(NormalRuntime(rt)) == EncodeRuntime(rt)
  {
    hide EncodeFailure, EncodeUsage, StrOrNull, NumberOrNull;
    if rt.finishReason.Some? { ReasonStoredAlike(rt.finishReason.value); }
  }

  lemma {:induction false} ReasonStoredAlike(r: FinishReason)
    ensures Wire(NormalReason(r)) == Wire(r)
  {
  }

  /** An answer and what it reads back as are stored as the same JSON in all four places, so taking
      answers to be canonical loses no behaviour: a null argument and a missing one cannot be told apart
      in storage. */
  lemma {:induction false} StoredAlike(turnId: string, c: Copy, l: Layout)
    ensures var n := NormalAnswer(c.answer);
            && EncodeRuntime(n.runtime) == EncodeRuntime(c.answer.runtime)
            && EncodeCalls(n.calls, l.snapshot) == EncodeCalls(c.answer.calls, l.snapshot)
            && EncodeCopy(Copy(n, c.capturedAt), l.snapshot) == EncodeCopy(c, l.snapshot)
            && EncodeTurnRecovery(turnId, Copy(n, c.capturedAt)) == EncodeTurnRecovery(turnId, c)
  {
    hide EncodeRuntime, NormalRuntime, EncodeCalls;
    RuntimeStoredAlike(c.answer.runtime);
    CallsStoredAlike(c.answer.calls, l.snapshot);
    CallsStoredAlike(c.answer.calls, NoSnapshot);
  }

  lemma {:induction false} CallsStoredAlike(calls: seq<ToolCall>, snapshot: string -> Option<Json>)
    ensures EncodeCalls(NormalCalls(calls), snapshot) == EncodeCalls(calls, snapshot)
  {
    var normal := NormalCalls(calls);
    forall i | 0 <= i < |calls|
      ensures EncodeCall(normal[i], snapshot(normal[i].toolName)) == EncodeCall(calls[i], snapshot(calls[i].toolName))
    {
    }
  }
}
