/** A proxied call under the masking gate: preflight, dispatch to 1C, finalize, and the
    terminal event that accounts for a failure. */
module Pipeline {
  import opened Basics
  import opened Json
  import opened Terminal
  import opened Outbox

  // ---- What a call is made of ----------------------------------------------------

  datatype ToolContent = Text(text: string) | JsonBlock(json: Json)

  datatype ToolCallResult = ToolCallResult(content: seq<ToolContent>, isError: bool, structuredContent: Option<Json>)

  datatype DispatcherError =
    | CancelledWhileQueued | Cancelled | TimedOutWhileQueued | TimedOutWhileRunning
    | SessionGone | WriterClosed | FromClient(code: int, message: string) | InvalidResult(message: string)

  datatype Identity = Identity(instanceId: string, clusterServer: string, infobaseName: string)

  datatype Context = Context(callId: string, correlationId: string, database: Identity, caller: Option<string>,
      toolName: string)

  /** A resolved call: its target session's facts, its arguments, and the two fresh identifiers. */
  datatype Call = Call(
    toolName: string, arguments: Json, caller: CallerInfo, callId: string, correlationId: string,
    databaseKey: Option<string>, clusterServer: Option<string>, infobaseName: string,
    connected: bool, serverKind: bool, noDeadline: bool)

  datatype PreflightResponse = PreflightResponse(schemaVersion: Byte, decision: string, arguments: Json)

  datatype FinalizeOutcome = ToolResult(result: Json) | TransportError(code: string)

  datatype FinalizeRequest = FinalizeRequest(context: Context, outcome: FinalizeOutcome, fieldSources: Option<Json>)

  datatype FinalizeResponse = FinalizeResponse(schemaVersion: Byte, publicResult: ToolCallResult)

  datatype Failure = Failure(code: string, message: string, correlationId: string, retryAfterS: Option<nat>)

  /** What reaches the agent. */
  datatype Answer =
    | Protocol(message: string)                                   // a JSON-RPC error
    | Masked(failure: Failure)                                    // a masking failure
    | Public(result: ToolCallResult)                              // the service's public result
    | Raw(outcome: Result<ToolCallResult, DispatcherError>)       // only with masking off

  /** What the call does to the outside world, in order. */
  datatype Effect =
    | PreflightPosted(context: Context, arguments: Json)
    | Dispatched(callId: string, toolName: string, arguments: Json)
    | FinalizePosted(request: FinalizeRequest, posts: nat)        // one request, posted once or twice
    | Recorded(event: TerminalRequest, ok: bool)

  const UNAVAILABLE := "HISTORY_UNAVAILABLE"
  const MESSAGE := "Операция временно недоступна"

  /** Everything outside the manager: the service, 1C, JSON text, message sizes, and the disk. */
  datatype World = World(
    preflight: Context -> Json -> Result<PreflightResponse, ClientError>,
    tool: Json -> Result<ToolCallResult, DispatcherError>,
    firstFinalize: FinalizeRequest -> Result<FinalizeResponse, ClientError>,
    retriedFinalize: FinalizeRequest -> Result<FinalizeResponse, ClientError>,
    finalizeDeadline: FinalizeRequest -> Deadline,
    parse: string -> Option<Json>,
    encode: ToolCallResult -> Json,
    size: FinalizeRequest -> nat,
    persists: bool,
    deliveries: nat -> Delivery)

  // ---- Pure pieces of the gate -----------------------------------------------------

  /** `terminal_fallback_code`, which repeats the list of codes that `valid_terminal` has. */
  function TerminalFallbackCode(code: string): string {
    match code
    case "ACTION_REQUIRED" | "TOOL_PENDING_REVIEW" | "MASK_TOKEN_INVALID" | "SERVICE_NOT_READY" | "SERVICE_WARMING_UP"
       | "POLICY_INVALID" | "RESULT_LIMIT_EXCEEDED" | "MASKING_TIMEOUT" | "MASKING_FAILED" | "HISTORY_UNAVAILABLE"
       => code
    case _ => "MASKING_FAILED"
  }

  function MapClientError(error: ClientError, correlationId: string): Failure {
    match error
    case Service(_, e) => Failure(e.code, e.message, e.correlationId, e.retryAfterS)
    case Timeout => Failure("MASKING_TIMEOUT", MESSAGE, correlationId, None)
    case Transport => Failure("SERVICE_NOT_READY", MESSAGE, correlationId, None)
    case InvalidResponse => Failure("MASKING_FAILED", MESSAGE, correlationId, None)
  }

  function VerifyDatabase(call: Call): Option<Identity> {
    if call.databaseKey.None? then None
    else Some(Identity(call.databaseKey.value, if call.clusterServer.Some? then call.clusterServer.value
        else "", call.infobaseName))
  }

  function ContextOf(call: Call, identity: Identity): Context {
    Context(call.callId, call.correlationId, identity, Label(call.caller), call.toolName)
  }

  function VerifiedTerminal(c: Context, code: string): TerminalRequest {
    TerminalRequest(1, c.callId, c.correlationId, c.toolName, code,
                    Verified(c.database.instanceId, c.database.clusterServer, c.database.infobaseName, c.caller))
  }

  function UnverifiedTerminal(call: Call, code: string): TerminalRequest {
    TerminalRequest(1, call.callId, call.correlationId, call.toolName, code, Unverified)
  }

  datatype Payload = Envelope(result: Json, fieldSources: Json) | Opaque(result: Json) | Malformed(code: string)

  /** The first text block, read as JSON. */
  function FirstText(outer: ToolCallResult, parse: string -> Option<Json>): Option<Json> {
    if outer.content != [] && outer.content[0].Text? then parse(outer.content[0].text) else None
  }

  predicate ClaimsEnvelope(v: Option<Json>) {
    v.Some? && v.value.Obj? && (Get(v.value.fields, "schema_version").Some?
        || Get(v.value.fields, "field_sources").Some?)
  }

  function ExtractToolPayload(outer: ToolCallResult, parse: string -> Option<Json>,
      encode: ToolCallResult -> Json): Payload {
    var v := FirstText(outer, parse);
    if ClaimsEnvelope(v) then
      var version, result, sources :=
        AsByte(Get(v.value.fields, "schema_version")), Get(v.value.fields, "result"),
            Get(v.value.fields, "field_sources");
      if version == Some(1) && result.Some? && sources.Some? then Envelope(result.value, sources.value)
      else Malformed("RESULT_INVALID")
    else Opaque(encode(outer))
  }

  function DispatcherErrorCode(e: DispatcherError): string {
    match e
    case CancelledWhileQueued | Cancelled => "TOOL_CANCELLED"
    case TimedOutWhileQueued | TimedOutWhileRunning => "TOOL_TIMEOUT"
    case SessionGone | WriterClosed => "SESSION_GONE"
    case FromClient(_, _) => "CLIENT_ERROR"
    case InvalidResult(_) => "RESULT_INVALID"
  }

  function FinalizeRequestOf(c: Context, raw: Result<ToolCallResult, DispatcherError>, w: World): FinalizeRequest {
    match raw
    case Err(e) => FinalizeRequest(c, TransportError(DispatcherErrorCode(e)), None)
    case Ok(result) =>
      match ExtractToolPayload(result, w.parse, w.encode)
      case Envelope(r, sources) => FinalizeRequest(c, ToolResult(r), Some(sources))
      case Opaque(r) => FinalizeRequest(c, ToolResult(r), None)
      case Malformed(code) => FinalizeRequest(c, TransportError(code), None)
  }

  const MAX_BODY: nat := 8 * 1024 * 1024

  function Degraded(request: FinalizeRequest): FinalizeRequest {
    FinalizeRequest(request.context, TransportError("RESULT_LIMIT_EXCEEDED"),
                    Some(Obj([Field("degraded_reasons", Arr([Str("manager:result_limit_exceeded")]))])))
  }

  /** `serialize_finalize_request`: the request that is really posted. */
  function Bounded(request: FinalizeRequest, size: FinalizeRequest -> nat): Option<FinalizeRequest> {
    if size(request) <= MAX_BODY then Some(request)
    else if size(Degraded(request)) <= MAX_BODY then Some(Degraded(request))
    else None
  }

  /** `client.finalize`: one retry, only after a transport failure, all under one deadline. */
  function FinalizeAnswers(posted: FinalizeRequest, w: World): (answers: seq<Result<FinalizeResponse, ClientError>>)
    ensures 1 <= |answers| <= 2
  {
    PostAnswers(w.firstFinalize(posted), w.retriedFinalize(posted), w.finalizeDeadline(posted))
  }

  function FinalizeAnswer(posted: FinalizeRequest, w: World): Result<FinalizeResponse, ClientError> {
    FinalizeAnswers(posted, w)[|FinalizeAnswers(posted, w)| - 1]
  }

  /** The effect of a request that fits. */
  function PostedEffect(posted: Option<FinalizeRequest>, w: World): seq<Effect> {
    if posted.Some? then [FinalizePosted(posted.value, |FinalizeAnswers(posted.value, w)|)] else []
  }

  function ClientFinalize(request: FinalizeRequest, w: World): Result<FinalizeResponse, ClientError> {
    var posted := Bounded(request, w.size);
    if posted.None? then Err(InvalidResponse) else FinalizeAnswer(posted.value, w)
  }

  /** Whether `record_terminal` returns Ok on an outbox with these events. */
  predicate RecordOk(events: seq<TerminalRequest>, e: TerminalRequest, persists: bool) {
    Admit(events, e).AlreadyThere? || (Admit(events, e).Append? && persists)
  }

  /** A failure, its terminal event and whether that event was recorded. */
  function FailWith(failure: Failure, event: TerminalRequest, correlationId: string,
                    events: seq<TerminalRequest>, persists: bool): (Answer, seq<Effect>)
  {
    var ok := RecordOk(events, event, persists);
    (Masked(if ok then failure else Failure(UNAVAILABLE, MESSAGE, correlationId, None)), [Recorded(event, ok)])
  }

  function PreflightFailure(c: Context, answer: Result<PreflightResponse, ClientError>): Option<Failure> {
    match answer
    case Err(e) => Some(MapClientError(e, c.correlationId))
    case Ok(response) =>
      if response.schemaVersion == 1 && response.decision == "allow" then None
      else Some(Failure("MASKING_FAILED", MESSAGE, c.correlationId, None))
  }

  function FinalizeFailure(c: Context, answer: Result<FinalizeResponse, ClientError>): Option<Failure> {
    match answer
    case Err(e) => Some(MapClientError(e, c.correlationId))
    case Ok(response) =>
      if response.schemaVersion == 1 then None else Some(Failure("MASKING_FAILED", MESSAGE, c.correlationId, None))
  }

  // ---- The whole call ------------------------------------------------------------------

  /** `finalize`: the raw outcome goes to the service, and only the service's answer comes back. */
  function Finalize(c: Context, raw: Result<ToolCallResult, DispatcherError>, w: World, events: seq<TerminalRequest>)
    : (Answer, seq<Effect>)
  {
    var request := FinalizeRequestOf(c, raw, w);
    var posted := Bounded(request, w.size);
    var sent := PostedEffect(posted, w);
    var answer := ClientFinalize(request, w);
    var failure := FinalizeFailure(c, answer);
    if failure.None? then (Public(answer.value.publicResult), sent)
    else
      var code := if answer.Err? then TerminalFallbackCode(failure.value.code) else failure.value.code;
      var (a, recorded) := FailWith(failure.value, VerifiedTerminal(c, code), c.correlationId, events, w.persists);
      (a, sent + recorded)
  }

  /** From the connection check on: the part that talks to 1C. */
  function Forward(call: Call, context: Option<Context>, arguments: Json, w: World, events: seq<TerminalRequest>)
    : (Answer, seq<Effect>)
  {
    if !call.connected then (Protocol("no active connection"), [])
    else if call.noDeadline && !call.serverKind then (Protocol("no_deadline is allowed only for server sessions"), [])
    else
      var raw := w.tool(arguments);
      var dispatched := [Dispatched(call.callId, call.toolName, arguments)];
      if context.None? then (Raw(raw), dispatched)
      else
        var (a, rest) := Finalize(context.value, raw, w, events);
        (a, dispatched + rest)
  }

  function UnverifiedFailure(call: Call): Failure {
    Failure("DATABASE_IDENTITY_UNVERIFIED", "Идентичность базы не подтверждена", call.correlationId, None)
  }

  /** `preflight` when it does not allow the call. */
  function PreflightRefusal(c: Context, arguments: Json, w: World, events: seq<TerminalRequest>): Option<(Answer,
      seq<Effect>)> {
    var answer := w.preflight(c)(arguments);
    var failure := PreflightFailure(c, answer);
    if failure.None? then None
    else
      var code := if answer.Err? then TerminalFallbackCode(failure.value.code) else failure.value.code;
      Some(FailWith(failure.value, VerifiedTerminal(c, code), c.correlationId, events, w.persists))
  }

  /** `call_proxy_tool_inner` after the target has been resolved, on an outbox holding `events`. */
  function CallProxyTool(enabled: bool, call: Call, w: World, events: seq<TerminalRequest>): (Answer, seq<Effect>) {
    if !enabled then Forward(call, None, call.arguments, w, events)
    else
      var identity := VerifyDatabase(call);
      if identity.None? then
        FailWith(UnverifiedFailure(call), UnverifiedTerminal(call, UnverifiedFailure(call).code), call.correlationId,
            events, w.persists)
      else
        var c := ContextOf(call, identity.value);
        var refusal := PreflightRefusal(c, call.arguments, w, events);
        var (a, rest) := if refusal.Some? then refusal.value
                         else Forward(call, Some(c), w.preflight(c)(call.arguments).value.arguments, w, events);
        (a, [PreflightPosted(c, call.arguments)] + rest)
  }

  /** The gate as the object it is: it owns the outbox and changes nothing else. */
  class MaskingGate {
    const enabled: bool
    const outbox: TerminalOutbox

    constructor (enabled: bool, outbox: TerminalOutbox)
      ensures this.enabled == enabled && this.outbox == outbox
    {
      this.enabled, this.outbox := enabled, outbox;
    }

    method Fail(failure: Failure, event: TerminalRequest, correlationId: string, w: World)
      returns (answer: Answer, recorded: seq<Effect>)
      requires outbox.Valid()
      modifies outbox
      ensures outbox.Valid()
      ensures (answer, recorded) == FailWith(failure, event, correlationId, old(outbox.events), w.persists)
      ensures OutboxAfter(recorded, old(outbox.events), outbox.events, w.deliveries)
    {
      var r, gone := outbox.RecordTerminal(event, w.persists, w.deliveries);
      recorded := [Recorded(event, r.Ok?)];
      answer := Masked(if r.Ok? then failure else Failure(UNAVAILABLE, MESSAGE, correlationId, None));
      if r.Ok? { assert DeliveredPart(old(outbox.events), event, outbox.events, gone, w.deliveries); }
    }

    method DoFinalize(c: Context, raw: Result<ToolCallResult, DispatcherError>, w: World)
      returns (answer: Answer, trace: seq<Effect>)
      requires outbox.Valid()
      modifies outbox
      ensures outbox.Valid()
      ensures (answer, trace) == Finalize(c, raw, w, old(outbox.events))
      ensures OutboxAfter(trace, old(outbox.events), outbox.events, w.deliveries)
    {
      var request := FinalizeRequestOf(c, raw, w);
      var posted := Bounded(request, w.size);
      trace := PostedEffect(posted, w);
      var response := ClientFinalize(request, w);
      var failure := FinalizeFailure(c, response);
      if failure.None? { return Public(response.value.publicResult), trace; }
      var code := if response.Err? then TerminalFallbackCode(failure.value.code) else failure.value.code;
      var recorded;
      answer, recorded := Fail(failure.value, VerifiedTerminal(c, code), c.correlationId, w);
      OutboxAfterPrefix(trace, recorded, old(outbox.events), outbox.events, w.deliveries);
      trace := trace + recorded;
    }

    method DoForward(call: Call, context: Option<Context>, arguments: Json, w: World)
        returns (answer: Answer, trace: seq<Effect>)
      requires outbox.Valid()
      modifies outbox
      ensures outbox.Valid()
      ensures (answer, trace) == Forward(call, context, arguments, w, old(outbox.events))
      ensures OutboxAfter(trace, old(outbox.events), outbox.events, w.deliveries)
    {
      if !call.connected { return Protocol("no active connection"), []; }
      if call.noDeadline && !call.serverKind { return Protocol("no_deadline is allowed only for server sessions"), []; }
      trace := [Dispatched(call.callId, call.toolName, arguments)];
      var raw := w.tool(arguments);
      if context.None? { return Raw(raw), trace; }
      var rest;
      answer, rest := DoFinalize(context.value, raw, w);
      OutboxAfterPrefix(trace, rest, old(outbox.events), outbox.events, w.deliveries);
      trace := trace + rest;
    }

    method DoPreflight(c: Context, arguments: Json, w: World)
      returns (refusal: Option<(Answer, seq<Effect>)>, allowed: Json)
      requires outbox.Valid()
      modifies outbox
      ensures outbox.Valid()
      ensures refusal == PreflightRefusal(c, arguments, w, old(outbox.events))
      ensures refusal.None? ==> w.preflight(c)(arguments).Ok? && allowed == w.preflight(c)(arguments).value.arguments
      ensures OutboxAfter(if refusal.Some? then refusal.value.1
          else [], old(outbox.events), outbox.events, w.deliveries)
    {
      allowed := arguments;
      var response := w.preflight(c)(arguments);
      var failure := PreflightFailure(c, response);
      if failure.None? { return None, response.value.arguments; }
      var code := if response.Err? then TerminalFallbackCode(failure.value.code) else failure.value.code;
      var answer, recorded := Fail(failure.value, VerifiedTerminal(c, code), c.correlationId, w);
      refusal := Some((answer, recorded));
    }

    method Call(call: Call, w: World) returns (answer: Answer, trace: seq<Effect>)
      requires outbox.Valid()
      modifies outbox
      ensures outbox.Valid()
      ensures (answer, trace) == CallProxyTool(enabled, call, w, old(outbox.events))
      ensures OutboxAfter(trace, old(outbox.events), outbox.events, w.deliveries)
    {
      if !enabled {
        answer, trace := DoForward(call, None, call.arguments, w);
        return;
      }
      var identity := VerifyDatabase(call);
      if identity.None? {
        answer, trace := Fail(UnverifiedFailure(call), UnverifiedTerminal(call, UnverifiedFailure(call).code),
            call.correlationId, w);
        return;
      }
      var c := ContextOf(call, identity.value);
      trace := [PreflightPosted(c, call.arguments)];
      var refusal, allowed := DoPreflight(c, call.arguments, w);
      var rest;
      if refusal.Some? {
        answer, rest := refusal.value.0, refusal.value.1;
      } else {
        answer, rest := DoForward(call, Some(c), allowed, w);
      }
      OutboxAfterPrefix(trace, rest, old(outbox.events), outbox.events, w.deliveries);
      trace := trace + rest;
    }
  }

  /** How a call's effects show in the outbox: untouched unless the last effect recorded an event; then the
      event was appended (or was there already), and what left after that was the longest oldest part whose deliveries
      all left. */
  ghost predicate OutboxAfter(trace: seq<Effect>, before: seq<TerminalRequest>, after: seq<TerminalRequest>,
      env: nat -> Delivery) {
    var event := RecordedEvent(trace);
    if event.Some? then exists gone: nat :: DeliveredPart(before, event.value, after, gone, env) else after == before
  }

  function RecordedEvent(trace: seq<Effect>): Option<TerminalRequest> {
    if trace != [] && trace[|trace| - 1].Recorded? && trace[|trace| - 1].ok then Some(trace[|trace| - 1].event)
        else None
  }

  lemma OutboxAfterPrefix(p: seq<Effect>, r: seq<Effect>, before: seq<TerminalRequest>, after: seq<TerminalRequest>,
      env: nat -> Delivery)
    requires OutboxAfter(r, before, after, env)
    requires forall i :: 0 <= i < |p| ==> !p[i].Recorded?
    ensures OutboxAfter(p + r, before, after, env)
  {
    assert r != [] ==> (p + r)[|p + r| - 1] == r[|r| - 1];
    assert r == [] ==> p + r == p;
    assert RecordedEvent(p + r) == RecordedEvent(r);
  }

  /** What the outbox holds after a call is determined by what it held, the recorded event and the deliveries. */
  lemma OutboxDetermined(t1: seq<Effect>, t2: seq<Effect>, before: seq<TerminalRequest>,
                         after1: seq<TerminalRequest>, after2: seq<TerminalRequest>, env: nat -> Delivery)
    requires RecordedEvent(t1) == RecordedEvent(t2)
    requires OutboxAfter(t1, before, after1, env) && OutboxAfter(t2, before, after2, env)
    ensures after1 == after2
  {
    var event := RecordedEvent(t1);
    if event.Some? {
      var m: nat :| DeliveredPart(before, event.value, after1, m, env);
      var n: nat :| DeliveredPart(before, event.value, after2, n, env);
      assert m < n ==> Leaves(env(m));
      assert n < m ==> Leaves(env(n));
    }
  }

  ghost predicate DeliveredPart(before: seq<TerminalRequest>, e: TerminalRequest, after: seq<TerminalRequest>,
      gone: nat, env: nat -> Delivery) {
    var full := before + if Admit(before, e).Append? then [e] else [];
    && e in full && gone <= |full| && after == full[gone..]
    && (forall k :: 0 <= k < gone ==> Leaves(env(k)))
    && (gone < |full| ==> !Leaves(env(gone)))
  }
}
