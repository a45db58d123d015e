/** What a call says, word by word: to the service, to 1C, to the agent and to the outbox. */
module PipelineContents {
  import opened Basics
  import opened Json
  import opened Terminal
  import opened Outbox
  import opened Pipeline

  // ---- What the service is told of 1C's outcome -----------------------------------------------------

  /** The first block of the result is a text that parses to an object with these members. */
  predicate Reads(result: ToolCallResult, parse: string -> Option<Json>, fields: seq<Field>) {
    result.content != [] && result.content[0].Text? && parse(result.content[0].text) == Some(Obj(fields))
  }

  /** It has a member that only an envelope has. */
  predicate Claims(fields: seq<Field>) {
    Get(fields, "schema_version").Some? || Get(fields, "field_sources").Some?
  }

  predicate IsEnvelope(fields: seq<Field>) {
    Get(fields, "schema_version") == Some(Int(1)) && Get(fields, "result").Some? && Get(fields, "field_sources").Some?
  }

  /** A result in an envelope goes to the service as its `result` and its `field_sources`; one that claims no envelope
      goes whole; a broken envelope is an error, and nothing of it goes. */
  ghost predicate ResultTold(result: ToolCallResult, w: World, outcome: FinalizeOutcome, sources: Option<Json>) {
    && (forall fields, r, f ::
          Reads(result, w.parse, fields) && Get(fields, "schema_version") == Some(Int(1))
          && Get(fields, "result") == Some(r) && Get(fields, "field_sources") == Some(f) ==>
            outcome == ToolResult(r) && sources == Some(f))
    && (forall fields :: Reads(result, w.parse, fields) && Claims(fields) && !IsEnvelope(fields) ==>
          outcome == TransportError("RESULT_INVALID") && sources.None?)
    && ((forall fields :: Reads(result, w.parse, fields) ==> !Claims(fields)) ==>
          outcome == ToolResult(w.encode(result)) && sources.None?)
  }

  ghost predicate OutcomeTold(raw: Result<ToolCallResult, DispatcherError>, w: World, outcome: FinalizeOutcome,
      sources: Option<Json>)
  {
    match raw
    case Ok(result) => ResultTold(result, w, outcome, sources)
    case Err(CancelledWhileQueued) => outcome == TransportError("TOOL_CANCELLED") && sources.None?
    case Err(Cancelled) => outcome == TransportError("TOOL_CANCELLED") && sources.None?
    case Err(TimedOutWhileQueued) => outcome == TransportError("TOOL_TIMEOUT") && sources.None?
    case Err(TimedOutWhileRunning) => outcome == TransportError("TOOL_TIMEOUT") && sources.None?
    case Err(SessionGone) => outcome == TransportError("SESSION_GONE") && sources.None?
    case Err(WriterClosed) => outcome == TransportError("SESSION_GONE") && sources.None?
    case Err(FromClient(_, _)) => outcome == TransportError("CLIENT_ERROR") && sources.None?
    case Err(InvalidResult(_)) => outcome == TransportError("RESULT_INVALID") && sources.None?
  }

  /** The call's own identity, and the terminal event that accounts for it. */
  function OwnContext(call: Call): Context
    requires call.databaseKey.Some?
  {
    Context(call.callId, call.correlationId,
            Identity(call.databaseKey.value, if call.clusterServer.Some? then call.clusterServer.value else "",
                     call.infobaseName),
            Label(call.caller), call.toolName)
  }

  function OwnTerminal(call: Call, code: string): TerminalRequest
    requires call.databaseKey.Some?
  {
    TerminalRequest(1, call.callId, call.correlationId, call.toolName, code,
      Verified(call.databaseKey.value, if call.clusterServer.Some? then call.clusterServer.value else "",
               call.infobaseName, Label(call.caller)))
  }

  /** A request that the service's API would refuse for its size goes out without outcome and sources. */
  function Shortened(c: Context): FinalizeRequest {
    FinalizeRequest(c, TransportError("RESULT_LIMIT_EXCEEDED"),
      Some(Obj([Field("degraded_reasons", Arr([Str("manager:result_limit_exceeded")]))])))
  }

  // ---- What the agent and the outbox are told --------------------------------------------------------

  const UNAVAILABLE_NOW := "Операция временно недоступна"

  /** An error of the client, as the agent sees it; `None` is a response that makes no sense. */
  function Seen(e: Option<ClientError>, call: Call): Failure {
    match e
    case Some(Service(_, s)) => Failure(s.code, s.message, s.correlationId, s.retryAfterS)
    case Some(Timeout) => Failure("MASKING_TIMEOUT", UNAVAILABLE_NOW, call.correlationId, None)
    case Some(Transport) => Failure("SERVICE_NOT_READY", UNAVAILABLE_NOW, call.correlationId, None)
    case Some(InvalidResponse) => Failure("MASKING_FAILED", UNAVAILABLE_NOW, call.correlationId, None)
    case None => Failure("MASKING_FAILED", UNAVAILABLE_NOW, call.correlationId, None)
  }

  /** The call ends with its terminal event; the agent sees the failure, or that it could not be recorded. */
  predicate Failed(call: Call, failure: Failure, event: TerminalRequest, a: Answer, t: seq<Effect>) {
    && t != [] && t[|t| - 1].Recorded? && t[|t| - 1].event == event
    && a == Masked(if t[|t| - 1].ok then failure
                   else Failure("HISTORY_UNAVAILABLE", UNAVAILABLE_NOW, call.correlationId, None))
  }

  predicate FailedBy(call: Call, e: Option<ClientError>, a: Answer, t: seq<Effect>)
    requires call.databaseKey.Some?
  {
    var code := Seen(e, call).code;
    Failed(call, Seen(e, call), OwnTerminal(call, if VerifiedCode(code) then code else "MASKING_FAILED"), a, t)
  }

  /** The answer to a request that is posted again, once, after a transport failure, all under one deadline. */
  predicate Heard<R(==)>(first: Result<R, ClientError>, retried: Result<R, ClientError>, deadline: Deadline, posts: nat,
      answer: Result<R, ClientError>)
  {
    if deadline.InFirst? then posts == 1 && answer == Err(Timeout)
    else if first != Err(Transport) then posts == 1 && answer == first
    else posts == 2 && answer == if deadline.InRetry? then Err(Timeout) else retried
  }

  /** The request went out, and the agent gets the public result in the answer, or a failure. */
  predicate PostedAs(call: Call, q: FinalizeRequest, w: World, answer: Result<FinalizeResponse, ClientError>, a: Answer,
      t: seq<Effect>)
    requires call.databaseKey.Some?
  {
    && t != [] && t[0].FinalizePosted? && t[0].request == q
    && Heard(w.firstFinalize(q), w.retriedFinalize(q), w.finalizeDeadline(q), t[0].posts, answer)
    && (match answer
        case Ok(r) =>
          if r.schemaVersion == 1 then |t| == 1 && a == Public(r.publicResult)
          else |t| == 2 && FailedBy(call, None, a, t)
        case Err(e) => |t| == 2 && FailedBy(call, Some(e), a, t))
  }

  ghost predicate Finalized(call: Call, outcome: FinalizeOutcome, sources: Option<Json>, w: World, a: Answer,
      t: seq<Effect>)
    requires call.databaseKey.Some?
  {
    var whole := FinalizeRequest(OwnContext(call), outcome, sources);
    var short := Shortened(OwnContext(call));
    if w.size(whole) <= 8388608 then exists answer :: PostedAs(call, whole, w, answer, a, t)
    else if w.size(short) <= 8388608 then exists answer :: PostedAs(call, short, w, answer, a, t)
    else |t| == 1 && FailedBy(call, Some(InvalidResponse), a, t)
  }

  // ---- The call does say so ----------------------------------------------------------------------------

  lemma PayloadTold(c: Context, result: ToolCallResult, w: World)
    ensures var q := FinalizeRequestOf(c, Ok(result), w); ResultTold(result, w, q.outcome, q.fieldSources)
  {
    var v := FirstText(result, w.parse);
    if v.Some? && v.value.Obj? { assert Reads(result, w.parse, v.value.fields); }
  }

  lemma RequestTold(c: Context, raw: Result<ToolCallResult, DispatcherError>, w: World)
    ensures var q := FinalizeRequestOf(c, raw, w); q.context == c && OutcomeTold(raw, w, q.outcome, q.fieldSources)
  {
    if raw.Ok? { PayloadTold(c, raw.value, w); }
  }

  /** A failure of `finalize`, after what it posted. */
  lemma FailureMeans(call: Call, e: Option<ClientError>, sent: seq<Effect>, events: seq<TerminalRequest>,
      persists: bool)
    requires call.databaseKey.Some?
    ensures var c := OwnContext(call);
      var failure := if e.Some? then MapClientError(e.value, c.correlationId)
                     else Failure("MASKING_FAILED", MESSAGE, c.correlationId, None);
      var code := if e.Some? then TerminalFallbackCode(failure.code) else failure.code;
      var (a, recorded) := FailWith(failure, VerifiedTerminal(c, code), c.correlationId, events, persists);
      |recorded| == 1 && FailedBy(call, e, a, recorded) && FailedBy(call, e, a, sent + recorded)
  {
  }

  lemma AnswerMeans(call: Call, raw: Result<ToolCallResult, DispatcherError>, w: World, events: seq<TerminalRequest>)
    requires call.databaseKey.Some?
    ensures var c := OwnContext(call);
      var q := FinalizeRequestOf(c, raw, w);
      var (a, t) := Finalize(c, raw, w, events);
      Finalized(call, q.outcome, q.fieldSources, w, a, t)
  {
    var c := OwnContext(call);
    var request := FinalizeRequestOf(c, raw, w);
    RequestTold(c, raw, w);
    assert request == FinalizeRequest(c, request.outcome, request.fieldSources);
    var posted := Bounded(request, w.size);
    var (a, t) := Finalize(c, raw, w, events);
    var answer := ClientFinalize(request, w);
    FailureMeans(call, if answer.Err? then Some(answer.error) else None, PostedEffect(posted, w), events, w.persists);
    if posted.Some? { assert PostedAs(call, posted.value, w, answer, a, t); }
  }

  /** `finalize` posts what it should, and returns what it should. */
  ghost predicate FinalizeSays(call: Call, raw: Result<ToolCallResult, DispatcherError>, w: World, a: Answer,
      t: seq<Effect>)
    requires call.databaseKey.Some?
  {
    exists outcome, sources :: OutcomeTold(raw, w, outcome, sources) && Finalized(call, outcome, sources, w, a, t)
  }

  lemma FinalizeMeans(call: Call, raw: Result<ToolCallResult, DispatcherError>, w: World, events: seq<TerminalRequest>)
    requires call.databaseKey.Some?
    ensures var (a, t) := Finalize(OwnContext(call), raw, w, events); FinalizeSays(call, raw, w, a, t)
  {
    RequestTold(OwnContext(call), raw, w);
    AnswerMeans(call, raw, w, events);
  }

  /** An allowed call: what goes to 1C are the service's arguments, and what 1C answers is finalized. */
  ghost predicate DispatchedSays(call: Call, w: World, arguments: Json, a: Answer, t: seq<Effect>)
    requires call.databaseKey.Some?
  {
    && |t| >= 2 && t[1] == Dispatched(call.callId, call.toolName, arguments)
    && FinalizeSays(call, w.tool(arguments), w, a, t[2..])
  }

  /** A verified call, word by word. */
  ghost predicate VerifiedSays(call: Call, w: World, a: Answer, t: seq<Effect>)
    requires call.databaseKey.Some?
  {
    && t != [] && t[0] == PreflightPosted(OwnContext(call), call.arguments)
    && match w.preflight(OwnContext(call))(call.arguments)
       case Err(e) => |t| == 2 && FailedBy(call, Some(e), a, t)
       case Ok(r) =>
         if r.schemaVersion != 1 || r.decision != "allow" then |t| == 2 && FailedBy(call, None, a, t)
         else if !call.connected then |t| == 1 && a == Protocol("no active connection")
         else if call.noDeadline && !call.serverKind then
           |t| == 1 && a == Protocol("no_deadline is allowed only for server sessions")
         else DispatchedSays(call, w, r.arguments, a, t)
  }

  /** A call that the service refuses, or whose refusal makes no sense. */
  lemma RefusedMeans(call: Call, w: World, events: seq<TerminalRequest>)
    requires call.databaseKey.Some?
    requires PreflightFailure(OwnContext(call), w.preflight(OwnContext(call))(call.arguments)).Some?
    ensures var (a, t) := CallProxyTool(true, call, w, events); VerifiedSays(call, w, a, t)
  {
    var c := OwnContext(call);
    var answer := w.preflight(c)(call.arguments);
    assert VerifyDatabase(call) == Some(c.database) && ContextOf(call, c.database) == c;
    FailureMeans(call, if answer.Err? then Some(answer.error) else None, [PreflightPosted(c, call.arguments)], events,
                 w.persists);
  }

  lemma AllowedMeans(call: Call, w: World, events: seq<TerminalRequest>)
    requires call.databaseKey.Some?
    requires PreflightFailure(OwnContext(call), w.preflight(OwnContext(call))(call.arguments)).None?
    ensures var (a, t) := CallProxyTool(true, call, w, events); VerifiedSays(call, w, a, t)
  {
    var c := OwnContext(call);
    var (a, t) := CallProxyTool(true, call, w, events);
    var answer := w.preflight(c)(call.arguments);
    assert VerifyDatabase(call) == Some(c.database) && ContextOf(call, c.database) == c;
    if call.connected && !(call.noDeadline && !call.serverKind) {
      var raw := w.tool(answer.value.arguments);
      FinalizeMeans(call, raw, w, events);
      assert t[2..] == Finalize(c, raw, w, events).1;
    }
  }

  /** Every call with masking on, word by word: what goes to the service with the preflight and with the finalize, what
      goes to 1C, what the agent is answered and which terminal event is recorded, for each answer of the service and of
      1C. */
  lemma CallMeans(call: Call, w: World, events: seq<TerminalRequest>)
    ensures var (a, t) := CallProxyTool(true, call, w, events);
      if call.databaseKey.Some? then VerifiedSays(call, w, a, t)
      else
        && |t| == 1
        && Failed(call,
                  Failure("DATABASE_IDENTITY_UNVERIFIED", "Идентичность базы не подтверждена", call.correlationId, None),
                  TerminalRequest(1, call.callId, call.correlationId, call.toolName, "DATABASE_IDENTITY_UNVERIFIED",
                                  Unverified), a, t)
  {
    if call.databaseKey.Some? {
      if PreflightFailure(OwnContext(call), w.preflight(OwnContext(call))(call.arguments)).Some? {
        RefusedMeans(call, w, events);
      } else {
        AllowedMeans(call, w, events);
      }
    }
  }

  /** What went to the service with the finalize of a dispatch with these arguments. */
  ghost predicate ToldOf(call: Call, w: World, arguments: Json, request: FinalizeRequest)
    requires call.databaseKey.Some?
  {
    exists outcome, sources ::
      && OutcomeTold(w.tool(arguments), w, outcome, sources)
      && request == if w.size(FinalizeRequest(OwnContext(call), outcome, sources)) <= 8388608
                    then FinalizeRequest(OwnContext(call), outcome, sources) else Shortened(OwnContext(call))
  }

  /** Nothing is posted to be finalized before a dispatch. */
  lemma PostedLate(call: Call, w: World, a: Answer, t: seq<Effect>, i: nat)
    requires call.databaseKey.Some? && VerifiedSays(call, w, a, t) && i < |t| && t[i].FinalizePosted?
    ensures w.preflight(OwnContext(call))(call.arguments).Ok?
    ensures 2 <= i && DispatchedSays(call, w, w.preflight(OwnContext(call))(call.arguments).value.arguments, a, t)
  {
  }

  /** What the end of a call posted is the first of it. */
  lemma FinalizedPosts(call: Call, outcome: FinalizeOutcome, sources: Option<Json>, w: World, a: Answer, t: seq<Effect>,
      j: nat)
    requires call.databaseKey.Some? && Finalized(call, outcome, sources, w, a, t) && j < |t| && t[j].FinalizePosted?
    ensures j == 0
    ensures t[0].request == if w.size(FinalizeRequest(OwnContext(call), outcome, sources)) <= 8388608
                            then FinalizeRequest(OwnContext(call), outcome, sources) else Shortened(OwnContext(call))
  {
    if w.size(FinalizeRequest(OwnContext(call), outcome, sources)) <= 8388608 {
      var answer :| PostedAs(call, FinalizeRequest(OwnContext(call), outcome, sources), w, answer, a, t);
    } else {
      var answer :| PostedAs(call, Shortened(OwnContext(call)), w, answer, a, t);
    }
  }

  lemma PostedTold(call: Call, w: World, a: Answer, t: seq<Effect>, i: nat)
    requires call.databaseKey.Some? && VerifiedSays(call, w, a, t) && i < |t| && t[i].FinalizePosted?
    ensures i == 2 && t[1].Dispatched? && ToldOf(call, w, t[1].arguments, t[2].request)
  {
    var arguments := w.preflight(OwnContext(call))(call.arguments).value.arguments;
    var rest := t[2..];
    PostedLate(call, w, a, t, i);
    assert FinalizeSays(call, w.tool(arguments), w, a, rest);
    var outcome, sources :|
      OutcomeTold(w.tool(arguments), w, outcome, sources) && Finalized(call, outcome, sources, w, a, rest);
    FinalizedPosts(call, outcome, sources, w, a, rest, i - 2);
  }

  /** What the service is posted after a dispatch, when it fits: of an envelope its two members, each in its place; of
      any other result the whole; of an error its code. */
  lemma ServiceIsTold(call: Call, w: World, events: seq<TerminalRequest>, i: nat)
    requires var t := CallProxyTool(true, call, w, events).1; i < |t| && t[i].FinalizePosted?
    ensures var t := CallProxyTool(true, call, w, events).1;
      && i == 2 && t[1].Dispatched? && call.databaseKey.Some?
      && ToldOf(call, w, t[1].arguments, t[2].request)
  {
    var (a, t) := CallProxyTool(true, call, w, events);
    CallMeans(call, w, events);
    PostedTold(call, w, a, t, i);
  }

  /** With masking off the call goes to 1C as it came, and its outcome to the agent as it came. */
  lemma UnmaskedIsDirect(call: Call, w: World, events: seq<TerminalRequest>)
    ensures var (a, t) := CallProxyTool(false, call, w, events);
      if !call.connected then a == Protocol("no active connection") && t == []
      else if call.noDeadline && !call.serverKind then
        a == Protocol("no_deadline is allowed only for server sessions") && t == []
      else a == Raw(w.tool(call.arguments)) && t == [Dispatched(call.callId, call.toolName, call.arguments)]
  {
  }
}
