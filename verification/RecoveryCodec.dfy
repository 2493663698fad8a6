/** The JSON in which recovery copies are stored, and the parsers that read it back:
    `render_runtime_manifest`, the tool-trace encodings, the four finders and the task-payload
    edits of crates/chat-session-worker/src/main.rs. */
module RecoveryCodec {
  import opened Prelude
  import opened Llm
  import opened TurnManifest
  import opened TurnStore

  // ----- Wire forms of the enums --------------------------------------------------------------

  function FromWire(s: string): FinishReason {
    if s == "stop" then Stop
    else if s == "tool_calls" then ToolCalls
    else if s == "length" then Length
    else if s == "content_filter" then ContentFilter
    else if s == "error" then Error
    else Other(s)
  }

  function ModeWire(m: Mode): string {
    match m case Placeholder => "placeholder" case Provider => "provider"
  }

  function KindWire(k: FailureKind): string {
    match k
    case RequestFailed => "request_failed"
    case RequestTimeout => "request_timeout"
    case HttpStatus => "http_status"
    case ResponseBodyReadFailed => "response_body_read_failed"
    case InvalidJson => "invalid_json"
    case InvalidResponse => "invalid_response"
    case FinishReasonError => "finish_reason_error"
  }

  function KindFromWire(s: string): Option<FailureKind> {
    if s == "request_failed" then Some(RequestFailed)
    else if s == "request_timeout" then Some(RequestTimeout)
    else if s == "http_status" then Some(HttpStatus)
    else if s == "response_body_read_failed" then Some(ResponseBodyReadFailed)
    else if s == "invalid_json" then Some(InvalidJson)
    else if s == "invalid_response" then Some(InvalidResponse)
    else if s == "finish_reason_error" then Some(FinishReasonError)
    else None
  }

  function StatusWire(s: CallStatus): string {
    match s case Requested => "requested" case Completed => "completed" case Failed => "failed"
  }

  function StatusFromWire(s: string): Option<CallStatus> {
    if s == "requested" then Some(Requested)
    else if s == "completed" then Some(Completed)
    else if s == "failed" then Some(Failed)
    else None
  }

  // ----- Runtime -------------------------------------------------------------------------------

  function EncodeFailure(f: Option<ProviderFailure>): Json {
    if f.None? then Null
    else Obj(map["kind" := Str(KindWire(f.value.kind)), "message" := Str(f.value.message)])
  }

  function EncodeUsage(u: Option<TokenUsage>): Json {
    if u.None? then Null
    else Obj(map["input_tokens" := Number(u.value.input), "output_tokens" := Number(u.value.output),
                 "total_tokens" := Number(u.value.total)])
  }

  function EncodeReason(r: Option<FinishReason>): Json {
    if r.None? then Null else Str(Wire(r.value))
  }

  /** `render_runtime_manifest`. */
  function EncodeRuntime(rt: Runtime): Json {
    Obj(map["mode" := Str(ModeWire(rt.mode)),
            "provider" := Str(rt.provider),
            "model" := Str(rt.model),
            "lane" := StrOrNull(rt.lane),
            "request_id" := StrOrNull(rt.requestId),
            "finish_reason" := EncodeReason(rt.finishReason),
            "provider_failure" := EncodeFailure(rt.failure),
            "latency_ms" := NumberOrNull(rt.latencyMs),
            "usage" := EncodeUsage(rt.usage),
            "system_prompt_key" := StrOrNull(rt.promptKey),
            "system_prompt_version" := StrOrNull(rt.promptVersion),
            "tool_trace_count" := Number(rt.toolTraceCount)])
  }

  /** `Value::get(..).and_then(Value::as_u64)`. */
  function GetNumber(j: Json, key: string): Option<nat> {
    match Get(j, key)
    case Some(Number(n)) => Some(n)
    case _ => None
  }

  function ParseMode(j: Json): Result<Mode> {
    match GetStr(j, "mode")
    case None => Ok(Provider)
    case Some(s) => if s == "placeholder" then Ok(Placeholder) else if s == "provider" then Ok(Provider) else Err
  }

  function ParseFailure(v: Option<Json>): Result<Option<ProviderFailure>> {
    if v.None? || v.value.Null? then Ok(None) else
    var o := v.value;
    match (GetStr(o, "kind"), GetStr(o, "message"))
    case (Some(kind), Some(message)) =>
      var k := KindFromWire(kind);
      if k.Some? then Ok(Some(ProviderFailure(k.value, message))) else Err
    case _ => Err
  }

  function ParseUsage(v: Option<Json>): Result<Option<TokenUsage>> {
    if v.None? || !v.value.Obj? then Ok(None)
    else match (GetNumber(v.value, "input_tokens"), GetNumber(v.value, "output_tokens"),
                GetNumber(v.value, "total_tokens"))
      case (Some(i), Some(o), Some(t)) => Ok(Some(TokenUsage(i, o, t)))
      case _ => Err
  }

  /** `parse_runtime_manifest_value`. */
  function ParseRuntime(j: Json): Result<Runtime> {
    if !j.Obj? then Err else
    match (ParseMode(j), GetStr(j, "provider"), GetStr(j, "model"),
           ParseFailure(Get(j, "provider_failure")), ParseUsage(Get(j, "usage")))
    case (Ok(mode), Some(provider), Some(model), Ok(failure), Ok(usage)) =>
      Ok(Runtime(
        mode := mode,
        provider := provider,
        model := model,
        lane := GetStr(j, "lane"),
        requestId := GetStr(j, "request_id"),
        finishReason := match GetStr(j, "finish_reason") { case None => None case Some(s) => Some(FromWire(s)) },
        failure := failure,
        latencyMs := GetNumber(j, "latency_ms"),
        usage := usage,
        promptKey := GetStr(j, "system_prompt_key"),
        promptVersion := GetStr(j, "system_prompt_version"),
        toolTraceCount := match GetNumber(j, "tool_trace_count") { case None => 0 case Some(n) => n }))
    case _ => Err
  }

  /** What is left of a runtime after a round trip: a free-form reason spelled like a known one
      comes back as the known one. */
  function NormalReason(r: FinishReason): FinishReason {
    FromWire(Wire(r))
  }

  function NormalRuntime(rt: Runtime): Runtime {
    if rt.finishReason.None? then rt else rt.(finishReason := Some(NormalReason(rt.finishReason.value)))
  }

  predicate CanonicalReason(r: FinishReason) {
    r.Other? ==> r.wire !in {"stop", "tool_calls", "length", "content_filter", "error"}
  }

  lemma {:induction false} ReasonRoundTrip(r: FinishReason)
    ensures NormalReason(r) == r <==> CanonicalReason(r)
    ensures NormalReason(r) == Error <==> r == Error || r == Other("error")
  {
  }

  lemma {:induction false} FailureRoundTrip(f: Option<ProviderFailure>)
    ensures ParseFailure(Some(EncodeFailure(f))) == Ok(f)
  {
  }

  lemma {:induction false} UsageRoundTrip(u: Option<TokenUsage>)
    ensures ParseUsage(Some(EncodeUsage(u))) == Ok(u)
  {
  }

  /** `j` spells out the fields of `rt`. */
  predicate Spells(j: Json, rt: Runtime) {
    && Get(j, "mode") == Some(Str(ModeWire(rt.mode)))
    && Get(j, "provider") == Some(Str(rt.provider))
    && Get(j, "model") == Some(Str(rt.model))
    && Get(j, "lane") == Some(StrOrNull(rt.lane))
    && Get(j, "request_id") == Some(StrOrNull(rt.requestId))
  }

  predicate SpellsRest(j: Json, rt: Runtime) {
    && Get(j, "finish_reason") == Some(EncodeReason(rt.finishReason))
    && Get(j, "provider_failure") == Some(EncodeFailure(rt.failure))
    && Get(j, "latency_ms") == Some(NumberOrNull(rt.latencyMs))
    && Get(j, "usage") == Some(EncodeUsage(rt.usage))
    && Get(j, "system_prompt_key") == Some(StrOrNull(rt.promptKey))
    && Get(j, "system_prompt_version") == Some(StrOrNull(rt.promptVersion))
    && Get(j, "tool_trace_count") == Some(Number(rt.toolTraceCount))
  }

  lemma {:induction false} EncodeSpells(rt: Runtime)
    ensures Spells(EncodeRuntime(rt), rt)
  {
    hide StrOrNull, NumberOrNull, EncodeReason, EncodeFailure, EncodeUsage, ModeWire;
  }

  lemma {:induction false} EncodeSpellsRest(rt: Runtime)
    ensures SpellsRest(EncodeRuntime(rt), rt)
  {
    hide StrOrNull, NumberOrNull, EncodeReason, EncodeFailure, EncodeUsage, ModeWire;
  }

  lemma {:induction false} ParseSpelled(j: Json, rt: Runtime)
    requires j.Obj? && Spells(j, rt) && SpellsRest(j, rt)
    ensures ParseRuntime(j) == Ok(NormalRuntime(rt))
  {
    FailureRoundTrip(rt.failure);
    UsageRoundTrip(rt.usage);
  }

  lemma {:induction false} RuntimeRoundTrip(rt: Runtime)
    ensures ParseRuntime(EncodeRuntime(rt)) == Ok(NormalRuntime(rt))
  {
    EncodeSpells(rt);
    EncodeSpellsRest(rt);
    ParseSpelled(EncodeRuntime(rt), rt);
  }

  predicate FailureReadable(v: Option<Json>) {
    v.Some? && !v.value.Null? ==>
      && GetStr(v.value, "message").Some? && GetStr(v.value, "kind").Some?
      && GetStr(v.value, "kind").value in
           {"request_failed", "request_timeout", "http_status", "response_body_read_failed",
            "invalid_json", "invalid_response", "finish_reason_error"}
  }

  predicate UsageReadable(v: Option<Json>) {
    v.Some? && v.value.Obj? ==>
      && GetNumber(v.value, "input_tokens").Some? && GetNumber(v.value, "output_tokens").Some?
      && GetNumber(v.value, "total_tokens").Some?
  }

  /** Exactly which runtime objects are accepted, and what stands in for missing fields: the provider mode,
      a trace count of zero, and nothing for everything optional. */
  lemma {:induction false} RuntimeAccepted(j: Json)
    ensures ParseRuntime(j).Ok? <==>
            && j.Obj? && GetStr(j, "provider").Some? && GetStr(j, "model").Some?
            && (GetStr(j, "mode").Some? ==> GetStr(j, "mode").value in {"placeholder", "provider"})
            && FailureReadable(Get(j, "provider_failure")) && UsageReadable(Get(j, "usage"))
    ensures ParseRuntime(j).Ok? ==>
              var rt := ParseRuntime(j).value;
              && rt.provider == GetStr(j, "provider").value && rt.model == GetStr(j, "model").value
              && (rt.mode == Placeholder <==> GetStr(j, "mode") == Some("placeholder"))
              && rt.lane == GetStr(j, "lane") && rt.requestId == GetStr(j, "request_id")
              && (rt.finishReason.Some? <==> GetStr(j, "finish_reason").Some?)
              && (rt.failure.Some? <==> Get(j, "provider_failure").Some? && !Get(j, "provider_failure").value.Null?)
              && (rt.usage.Some? <==> Get(j, "usage").Some? && Get(j, "usage").value.Obj?)
              && rt.latencyMs == GetNumber(j, "latency_ms")
              && rt.promptKey == GetStr(j, "system_prompt_key")
              && rt.promptVersion == GetStr(j, "system_prompt_version")
              && rt.toolTraceCount == (if GetNumber(j, "tool_trace_count").Some?
                                       then GetNumber(j, "tool_trace_count").value else 0)
  {
    hide ParseFailure, ParseUsage;
    FailureAccepted(Get(j, "provider_failure"));
    UsageAccepted(Get(j, "usage"));
  }

  lemma {:induction false} FailureAccepted(v: Option<Json>)
    ensures ParseFailure(v).Ok? <==> FailureReadable(v)
    ensures ParseFailure(v).Ok? ==> (ParseFailure(v).value.Some? <==> v.Some? && !v.value.Null?)
  {
  }

  lemma {:induction false} UsageAccepted(v: Option<Json>)
    ensures ParseUsage(v).Ok? <==> UsageReadable(v)
    ensures ParseUsage(v).Ok? ==> (ParseUsage(v).value.Some? <==> v.Some? && v.value.Obj?)
  {
  }

  // ----- Tool traces ---------------------------------------------------------------------------

  function EncodeValue(v: Option<Json>): Json {
    if v.None? then Null else v.value
  }

  /** A serialised tool call. `render_tool_trace_manifest` adds a `tool` snapshot to it, which the
      parser ignores; task payloads and events store it bare. */
  function EncodeCall(c: ToolCall, snapshot: Option<Json>): Json {
    var o := map["call_id" := StrOrNull(c.callId),
                 "tool_name" := Str(c.toolName),
                 "status" := Str(StatusWire(c.status)),
                 "arguments" := EncodeValue(c.arguments),
                 "result" := EncodeValue(c.result)];
    Obj(if snapshot.Some? then o["tool" := snapshot.value] else o)
  }

  /** An optional field of any type: absent and null both read as none. */
  function ParseValue(j: Json, key: string): Option<Json> {
    match Get(j, key)
    case None => None
    case Some(v) => if v.Null? then None else Some(v)
  }

  function ParseCall(j: Json): Result<ToolCall> {
    if !j.Obj? then Err else
    var id := ParseValue(j, "call_id");
    match (GetStr(j, "tool_name"), GetStr(j, "status"))
    case (Some(name), Some(wire)) =>
      var status := StatusFromWire(wire);
      if status.None? || (id.Some? && !id.value.Str?) then Err
      else Ok(ToolCall(if id.Some? then Some(id.value.s) else None, name, status.value,
                       ParseValue(j, "arguments"), ParseValue(j, "result")))
    case _ => Err
  }

  /** A JSON null argument or result does not survive. */
  function NormalCall(c: ToolCall): ToolCall {
    c.(arguments := if c.arguments == Some(Null) then None else c.arguments,
       result := if c.result == Some(Null) then None else c.result)
  }

  lemma {:induction false} CallRoundTrip(c: ToolCall, snapshot: Option<Json>)
    ensures ParseCall(EncodeCall(c, snapshot)) == Ok(NormalCall(c))
  {
    var j := EncodeCall(c, snapshot);
    assert Get(j, "call_id") == Some(StrOrNull(c.callId));
    assert Get(j, "tool_name") == Some(Str(c.toolName));
    assert Get(j, "status") == Some(Str(StatusWire(c.status)));
    assert Get(j, "arguments") == Some(EncodeValue(c.arguments));
    assert Get(j, "result") == Some(EncodeValue(c.result));
  }

  /** A trace with the given snapshot, or none, of each call's tool. */
  function EncodeCalls(cs: seq<ToolCall>, snapshot: string -> Option<Json>): seq<Json> {
    seq(|cs|, i requires 0 <= i < |cs| => EncodeCall(cs[i], snapshot(cs[i].toolName)))
  }

  function ParseCalls(js: seq<Json>): Result<seq<ToolCall>> {
    if js == [] then Ok([])
    else match (ParseCalls(js[..|js| - 1]), ParseCall(js[|js| - 1]))
      case (Ok(cs), Ok(c)) => Ok(cs + [c])
      case _ => Err
  }

  function NormalCalls(cs: seq<ToolCall>): (r: seq<ToolCall>)
    ensures |r| == |cs|
  {
    seq(|cs|, i requires 0 <= i < |cs| => NormalCall(cs[i]))
  }

  lemma {:induction false} CallsRoundTrip(cs: seq<ToolCall>, snapshot: string -> Option<Json>)
    ensures ParseCalls(EncodeCalls(cs, snapshot)) == Ok(NormalCalls(cs))
  {
    if cs != [] {
      var rest := cs[..|cs| - 1];
      CallsRoundTrip(rest, snapshot);
      CallRoundTrip(cs[|cs| - 1], snapshot(cs[|cs| - 1].toolName));
      var js := EncodeCalls(cs, snapshot);
      assert js[..|js| - 1] == EncodeCalls(rest, snapshot);
      assert NormalCalls(cs) == NormalCalls(rest) + [NormalCall(cs[|cs| - 1])];
    }
  }

  /** `parse_tool_trace_value`. */
  function ParseTrace(j: Json): Result<seq<ToolCall>> {
    if j.Arr? then ParseCalls(j.items) else Err
  }

  // ----- Recovery payloads -----------------------------------------------------------------------

  function NormalAnswer(a: Answer): Answer {
    Answer(a.content, NormalRuntime(a.runtime), NormalCalls(a.calls))
  }

  /** A caller can check this before storing an answer. */
  predicate Canonical(a: Answer) {
    && (a.runtime.finishReason.Some? ==> CanonicalReason(a.runtime.finishReason.value))
    && (forall i :: 0 <= i < |a.calls| ==>
          a.calls[i].arguments != Some(Null) && a.calls[i].result != Some(Null))
  }

  /** A round trip loses nothing exactly on canonical answers. */
  lemma {:induction false} NormalIffCanonical(a: Answer)
    ensures NormalAnswer(a) == a <==> Canonical(a)
  {
    if a.runtime.finishReason.Some? { ReasonRoundTrip(a.runtime.finishReason.value); }
    if Canonical(a) {
      assert NormalCalls(a.calls) == a.calls;
    } else if NormalAnswer(a) == a {
      forall i | 0 <= i < |a.calls| ensures NormalCall(a.calls[i]) == a.calls[i] {
        assert NormalCalls(a.calls)[i] == a.calls[i];
      }
      assert false;
    }
  }

  /** An answer that does not survive: a tool call whose argument is JSON null reads back without one. */
  lemma {:induction false} NullArgumentIsLost(a: Answer, name: string)
    requires a.calls == [ToolCall(None, name, Completed, Some(Null), None)]
    ensures !Canonical(a) && NormalAnswer(a).calls == [ToolCall(None, name, Completed, None, None)]
  {
    assert a.calls[0].arguments == Some(Null);
    assert NormalCalls(a.calls)[0] == ToolCall(None, name, Completed, None, None);
  }

  const CONTENT := "assistant_message_content"
  const RUNTIME := "runtime"
  const TRACE := "tool_trace"
  const CAPTURED := "captured_at"
  const TURN := "turn_id"
  const RECOVERY := "recovery"
  const LAST_TURN := "last_turn"
  const PAYLOAD_KEY := "_chat_turn_recovery"

  /** The payload both `render_turn_recovery_payload` functions build; one adds the turn id, the
      other the tool snapshots. */
  function EncodeCopy(c: Copy, snapshot: string -> Option<Json>): map<string, Json> {
    map[CONTENT := Str(c.answer.content),
        RUNTIME := EncodeRuntime(c.answer.runtime),
        TRACE := Arr(EncodeCalls(c.answer.calls, snapshot)),
        CAPTURED := Instant(c.capturedAt)]
  }

  /** The part all finders share: content, runtime, trace, and the trace-count check. */
  function ParseAnswer(j: Json): Result<Answer> {
    match (GetStr(j, CONTENT), Get(j, RUNTIME), Get(j, TRACE))
    case (Some(content), Some(rt), Some(trace)) =>
      var runtime, calls := ParseRuntime(rt), ParseTrace(trace);
      if runtime.Err? || calls.Err? || runtime.value.toolTraceCount != |calls.value| then Err
      else Ok(Answer(content, runtime.value, calls.value))
    case _ => Err
  }

  /** A missing capture time reads as `now`; a malformed one is an error. */
  function ParseCaptured(j: Json, now: Time): Result<Time> {
    match Get(j, CAPTURED)
    case None => Ok(now)
    case Some(v) => if v.Instant? then Ok(v.at) else Err
  }

  function ParseCopy(j: Json, now: Time): Result<Option<Copy>> {
    match (ParseAnswer(j), ParseCaptured(j, now))
    case (Ok(a), Ok(t)) => Ok(Some(Copy(a, t)))
    case _ => Err
  }

  /** Exactly which tool calls are accepted: a name, a known status, and no id that is not a string. */
  lemma {:induction false} CallAccepted(j: Json)
    ensures ParseCall(j).Ok? <==>
            && j.Obj? && GetStr(j, "tool_name").Some? && GetStr(j, "status").Some?
            && GetStr(j, "status").value in {"requested", "completed", "failed"}
            && (Get(j, "call_id").Some? ==> Get(j, "call_id").value.Null? || Get(j, "call_id").value.Str?)
  {
  }

  /** Exactly which recovery payloads are accepted. The trace count must match the trace; a missing capture
      time reads as now, a malformed one is an error. */
  lemma {:induction false} CopyAccepted(j: Json, now: Time)
    ensures ParseCopy(j, now).Ok? <==>
            && GetStr(j, "assistant_message_content").Some?
            && Get(j, "runtime").Some? && ParseRuntime(Get(j, "runtime").value).Ok?
            && Get(j, "tool_trace").Some? && Get(j, "tool_trace").value.Arr?
            && ParseCalls(Get(j, "tool_trace").value.items).Ok?
            && |ParseCalls(Get(j, "tool_trace").value.items).value| ==
               ParseRuntime(Get(j, "runtime").value).value.toolTraceCount
            && (Get(j, "captured_at").Some? ==> Get(j, "captured_at").value.Instant?)
    ensures ParseCopy(j, now).Ok? ==>
              && ParseCopy(j, now).value.Some?
              && var c := ParseCopy(j, now).value.value;
                 && c.answer.content == GetStr(j, "assistant_message_content").value
                 && Ok(c.answer.runtime) == ParseRuntime(Get(j, "runtime").value)
                 && Ok(c.answer.calls) == ParseCalls(Get(j, "tool_trace").value.items)
                 && c.capturedAt == (if Get(j, "captured_at").Some? then Get(j, "captured_at").value.at else now)
  {
    hide ParseRuntime, ParseCalls;
  }

  /** `find_recoverable_session_turn`. */
  function FindInSession(manifest: Json, turnId: string, now: Time): Result<Option<Copy>> {
    match Get(manifest, LAST_TURN)
    case None => Ok(None)
    case Some(turn) =>
      if GetStr(turn, TURN) != Some(turnId) then Ok(None)
      else match Get(turn, RECOVERY)
        case None => Ok(None)
        case Some(recovery) => if recovery.Obj? then ParseCopy(recovery, now) else Ok(None)
  }

  /** `find_recoverable_task_turn`. */
  function FindInPayload(payload: Json, turnId: string, now: Time): Result<Option<Copy>> {
    match Get(payload, PAYLOAD_KEY)
    case None => Ok(None)
    case Some(recovery) => if GetStr(recovery, TURN) != Some(turnId) then Ok(None) else ParseCopy(recovery, now)
  }

  /** `find_recoverable_event_turn` on the newest matching event. */
  function FindInEvent(payload: Json, createdAt: Time, turnId: string): Result<Option<Copy>> {
    if GetStr(payload, TURN) != Some(turnId) then Ok(None)
    else match ParseAnswer(payload)
      case Err => Err
      case Ok(a) => Ok(Some(Copy(a, createdAt)))
  }

  lemma {:induction false} CopyFields(c: Copy, snapshot: string -> Option<Json>)
    ensures var m := EncodeCopy(c, snapshot);
            && CONTENT in m && m[CONTENT] == Str(c.answer.content)
            && RUNTIME in m && m[RUNTIME] == EncodeRuntime(c.answer.runtime)
            && TRACE in m && m[TRACE] == Arr(EncodeCalls(c.answer.calls, snapshot))
            && CAPTURED in m && m[CAPTURED] == Instant(c.capturedAt)
            && TURN !in m
  {
  }

  /** The stored fields read back, among whatever other fields surround them. */
  lemma {:induction false} CopyRoundTrip(c: Copy, snapshot: string -> Option<Json>, m: map<string, Json>, now: Time)
    requires var e := EncodeCopy(c, snapshot); forall k :: k in e ==> k in m && m[k] == e[k]
    ensures ParseAnswer(Obj(m)) == if Consistent(c.answer) then Ok(NormalAnswer(c.answer)) else Err
    ensures ParseCaptured(Obj(m), now) == Ok(c.capturedAt)
  {
    CopyFields(c, snapshot);
    var j := Obj(m);
    assert GetStr(j, CONTENT) == Some(c.answer.content);
    assert Get(j, RUNTIME) == Some(EncodeRuntime(c.answer.runtime));
    assert Get(j, TRACE) == Some(Arr(EncodeCalls(c.answer.calls, snapshot)));
    assert Get(j, CAPTURED) == Some(Instant(c.capturedAt));
    RuntimeRoundTrip(c.answer.runtime);
    CallsRoundTrip(c.answer.calls, snapshot);
  }

  /** What a finder reports for a copy it reads. */
  function ReadBack(c: Copy): Result<Option<Copy>> {
    Checked(c.answer, Copy(NormalAnswer(c.answer), c.capturedAt))
  }

  // ----- Session manifest ------------------------------------------------------------------------

  /** A stored session manifest: `rest` and `turnRest` are the fields no finder looks at. */
  function EncodeSession(s: Session, snapshot: string -> Option<Json>,
                         rest: map<string, Json>, turnRest: map<string, Json>): Json {
    if s.lastTurn.None? then Obj(rest - {LAST_TURN})
    else
      var t := s.lastTurn.value;
      var recovery := if t.recovery.None? then Null else Obj(EncodeCopy(t.recovery.value, snapshot));
      Obj(rest[LAST_TURN := Obj(turnRest[TURN := Str(t.turnId)][RECOVERY := recovery])])
  }

  /** The JSON finder on a stored manifest is the record finder on the record it encodes, with the
      answer normalised; on canonical answers the two are the same. */
  lemma {:induction false} SessionReadsBack(s: Session, snapshot: string -> Option<Json>,
                         rest: map<string, Json>, turnRest: map<string, Json>, turnId: string, now: Time)
    ensures FindInSession(EncodeSession(s, snapshot, rest, turnRest), turnId, now) ==
            (match SessionCopy(s, turnId) case None => Ok(None) case Some(c) => ReadBack(c))
    ensures (SessionCopy(s, turnId).Some? ==> Canonical(SessionCopy(s, turnId).value.answer)) ==>
              FindInSession(EncodeSession(s, snapshot, rest, turnRest), turnId, now) == FindSession(s, turnId)
  {
    if s.lastTurn.Some? {
      var t := s.lastTurn.value;
      var recovery := if t.recovery.None? then Null else Obj(EncodeCopy(t.recovery.value, snapshot));
      var turn := Obj(turnRest[TURN := Str(t.turnId)][RECOVERY := recovery]);
      var j := EncodeSession(s, snapshot, rest, turnRest);
      assert Get(j, LAST_TURN) == Some(turn);
      assert GetStr(turn, TURN) == Some(t.turnId) && Get(turn, RECOVERY) == Some(recovery);
      if t.recovery.Some? {
        CopyRoundTrip(t.recovery.value, snapshot, EncodeCopy(t.recovery.value, snapshot), now);
        NormalIffCanonical(t.recovery.value.answer);
      }
    }
  }

  // ----- Task payload -----------------------------------------------------------------------------

  function NoSnapshot(toolName: string): Option<Json> { None }

  /** `render_turn_recovery_payload` of the worker binary. */
  function EncodeTurnRecovery(turnId: string, c: Copy): Json {
    Obj(EncodeCopy(c, NoSnapshot)[TURN := Str(turnId)])
  }

  /** `payload_with_turn_recovery`. */
  function PayloadWith(payload: Json, turnId: string, c: Copy): Json {
    Obj((if payload.Obj? then payload.fields else map[])[PAYLOAD_KEY := EncodeTurnRecovery(turnId, c)])
  }

  /** `payload_without_turn_recovery`. */
  function PayloadWithout(payload: Json): Json {
    if payload.Obj? then Obj(payload.fields - {PAYLOAD_KEY}) else payload
  }

  lemma {:induction false} PayloadReadsBack(payload: Json, written: string, c: Copy, turnId: string, now: Time)
    ensures FindInPayload(PayloadWith(payload, written, c), turnId, now) ==
            if written == turnId then ReadBack(c) else Ok(None)
    ensures Canonical(c.answer) ==>
              FindInPayload(PayloadWith(payload, written, c), turnId, now) ==
              FindTask(Some(Checkpoint(written, c)), turnId)
  {
    var e := EncodeTurnRecovery(written, c);
    CopyFields(c, NoSnapshot);
    assert GetStr(e, TURN) == Some(written);
    CopyRoundTrip(c, NoSnapshot, e.fields, now);
    NormalIffCanonical(c.answer);
  }

  /** A cleared payload offers nothing, and clearing undoes writing exactly on object payloads that
      did not use the key. */
  lemma {:induction false} ClearingRestores(payload: Json, turnId: string, c: Copy, now: Time)
    ensures FindInPayload(PayloadWithout(payload), turnId, now) == Ok(None)
    ensures PayloadWithout(PayloadWith(payload, turnId, c)) == payload <==>
            payload.Obj? && PAYLOAD_KEY !in payload.fields
  {
    if payload.Obj? {
      var cleared := PayloadWithout(PayloadWith(payload, turnId, c));
      assert cleared.fields == payload.fields - {PAYLOAD_KEY};
      if PAYLOAD_KEY !in payload.fields {
        assert payload.fields - {PAYLOAD_KEY} == payload.fields;
      }
    }
  }

  // ----- Workflow events ---------------------------------------------------------------------------

  lemma {:induction false} EventReadsBack(written: string, c: Copy, turnId: string)
    ensures FindInEvent(EncodeTurnRecovery(written, c), c.capturedAt, turnId) ==
            if written == turnId then ReadBack(c) else Ok(None)
    ensures Canonical(c.answer) ==>
              FindInEvent(EncodeTurnRecovery(written, c), c.capturedAt, turnId) ==
              FindEvent([RecoveryEvent(written, c.answer, c.capturedAt)], turnId)
  {
    var e := EncodeTurnRecovery(written, c);
    CopyFields(c, NoSnapshot);
    assert GetStr(e, TURN) == Some(written);
    CopyRoundTrip(c, NoSnapshot, e.fields, 0);
    NormalIffCanonical(c.answer);
  }

  // ----- Message manifest ---------------------------------------------------------------------------

  /** The test and the parse of `find_recoverable_assistant_message` on one assistant message. */
  function FindInMessage(content: string, manifest: Json, turnId: string): Result<Option<Answer>> {
    match Get(manifest, "turn")
    case None => Ok(None)
    case Some(turn) =>
      if GetStr(turn, TURN) != Some(turnId) then Ok(None) else
      var rt := Get(manifest, RUNTIME);
      var trace := if Get(manifest, TRACE).Some? then ParseTrace(Get(manifest, TRACE).value) else Ok([]);
      if rt.None? || ParseRuntime(rt.value).Err? || trace.Err? then Err else
      var a := Answer(content, ParseRuntime(rt.value).value, trace.value);
      Checked(a, a)
  }
}
