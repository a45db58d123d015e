/** What holds of every proxied call with masking on, whatever the service, 1C, the disk and the agent do. */
module PipelineLaws {
  import opened Basics
  import opened Json
  import opened Terminal
  import opened Outbox
  import opened Pipeline

  /** Preflight, dispatch, finalize and record happen in this order, each at most once. */
  function Stage(e: Effect): nat {
    match e
    case PreflightPosted(_, _) => 0
    case Dispatched(_, _, _) => 1
    case FinalizePosted(_, _) => 2
    case Recorded(_, _) => 3
  }

  predicate Staged(trace: seq<Effect>) {
    forall i, j :: 0 <= i < j < |trace| ==> Stage(trace[i]) < Stage(trace[j])
  }

  /** The service allowed exactly this call, with these arguments. */
  ghost predicate AllowedWith(w: World, c: Context, sent: Json, got: Json) {
    var answer := w.preflight(c)(sent);
    answer.Ok? && answer.value.schemaVersion == 1 && answer.value.decision == "allow" && answer.value.arguments == got
  }

  /** The agent was given what the service published for a request of this call. */
  ghost predicate Published(w: World, c: Context, posted: FinalizeRequest, result: ToolCallResult) {
    var answer := FinalizeAnswer(posted, w);
    posted.context == c && answer.Ok? && answer.value.schemaVersion == 1 && answer.value.publicResult == result
  }

  lemma FinalizeShape(c: Context, raw: Result<ToolCallResult, DispatcherError>, w: World, events: seq<TerminalRequest>)
    ensures var (a, t) := Finalize(c, raw, w, events);
      && (a.Public? || a.Masked?)
      && Staged(t) && (forall i :: 0 <= i < |t| ==>
          Stage(t[i]) >= 2 && (t[i].FinalizePosted? ==> t[i].request.context == c))
      && (a.Public? ==> |t| == 1 && t[0].FinalizePosted? && Published(w, c, t[0].request, a.result))
      && (a.Masked? <==> t != [] && t[|t| - 1].Recorded?)
      && (t == [] || !t[0].FinalizePosted? ==> Bounded(FinalizeRequestOf(c, raw, w), w.size).None?)
  {
    var (a, t) := Finalize(c, raw, w, events);
    var posted := Bounded(FinalizeRequestOf(c, raw, w), w.size);
    var sent := PostedEffect(posted, w);
    if a.Public? {
      assert t == sent + [];
      TailStaged(c, sent, []);
    } else {
      assert t == sent + [t[|t| - 1]];
      TailStaged(c, sent, [t[|t| - 1]]);
    }
  }

  /** At most a finalize of this call, then at most a record. */
  lemma TailStaged(c: Context, sent: seq<Effect>, recorded: seq<Effect>)
    requires sent == [] || (|sent| == 1 && sent[0].FinalizePosted? && sent[0].request.context == c)
    requires recorded == [] || (|recorded| == 1 && recorded[0].Recorded?)
    ensures var t := sent + recorded;
      Staged(t) && forall i :: 0 <= i < |t| ==> Stage(t[i]) >= 2 && (t[i].FinalizePosted? ==> t[i].request.context == c)
  {
  }

  lemma ForwardShape(call: Call, c: Context, arguments: Json, w: World, events: seq<TerminalRequest>)
    ensures var (a, t) := Forward(call, Some(c), arguments, w, events);
      && !a.Raw? && Staged(t) && (t == [] ==> a.Protocol?)
      && (t != [] ==> t[0] == Dispatched(call.callId, call.toolName, arguments) && (a.Public? || a.Masked?))
      && (forall i :: 1 <= i < |t| ==> Stage(t[i]) >= 2)
      && (forall i :: 0 <= i < |t| && t[i].FinalizePosted? ==> i == 1 && t[i].request.context == c)
      && (a.Public? ==> |t| == 2 && t[1].FinalizePosted? && Published(w, c, t[1].request, a.result))
  {
    FinalizeShape(c, w.tool(arguments), w, events);
    var (b, tail) := Finalize(c, w.tool(arguments), w, events);
    DispatchedFirst(Dispatched(call.callId, call.toolName, arguments), c, tail);
  }

  /** A dispatch, then what belongs to finalizing it. */
  lemma DispatchedFirst(d: Effect, c: Context, tail: seq<Effect>)
    requires d.Dispatched? && Staged(tail)
    requires forall i :: 0 <= i < |tail| ==>
        Stage(tail[i]) >= 2 && (tail[i].FinalizePosted? ==> tail[i].request.context == c)
    ensures var t := [d] + tail;
      && Staged(t) && (forall i :: 1 <= i < |t| ==> Stage(t[i]) >= 2)
      && (forall i :: 0 <= i < |t| && t[i].FinalizePosted? ==> i == 1 && t[i].request.context == c)
  {
    var t := [d] + tail;
    assert forall i :: 1 <= i < |t| ==> t[i] == tail[i - 1];
    forall i | 1 <= i < |tail| ensures !tail[i].FinalizePosted? { assert Stage(tail[0]) < Stage(tail[i]); }
  }

  /** 1C sees a call only after the service allowed this very call id, and only with the arguments the service
      returned; after a dispatch the agent gets the service's public result of a finalize of the same call, or a
      masking failure; never the raw outcome. */
  ghost predicate Closed(call: Call, w: World, a: Answer, t: seq<Effect>) {
    && !a.Raw? && Staged(t)
    && (forall i :: 0 <= i < |t| && t[i].Dispatched? ==>
          && i == 1 && t[0].PreflightPosted? && t[0].context.callId == call.callId == t[i].callId
          && t[0].arguments == call.arguments && AllowedWith(w, t[0].context, call.arguments, t[i].arguments)
          && (a.Public? || a.Masked?))
    && (forall i :: 0 <= i < |t| && t[i].FinalizePosted? ==>
          i == 2 && t[1].Dispatched? && t[0].PreflightPosted? && t[i].request.context == t[0].context)
    && (a.Public? ==>
        |t| == 3 && t[2].FinalizePosted? && t[0].PreflightPosted? && Published(w, t[0].context, t[2].request, a.result))
  }

  /** Fail closed: so it is for every call with masking on. */
  lemma FailClosed(call: Call, w: World, events: seq<TerminalRequest>)
    ensures var (a, t) := CallProxyTool(true, call, w, events); Closed(call, w, a, t)
  {
    var identity := VerifyDatabase(call);
    if identity.None? {
      var (a, t) := CallProxyTool(true, call, w, events);
      RefusedIsClosed(call, w, a, t);
    } else {
      var c := ContextOf(call, identity.value);
      var refusal := PreflightRefusal(c, call.arguments, w, events);
      if refusal.Some? {
        RefusedIsClosed(call, w, refusal.value.0, [PreflightPosted(c, call.arguments)] + refusal.value.1);
      } else {
        AllowedCallIsClosed(call, w, events, c);
      }
    }
  }

  /** A call that ends with a recorded refusal, asked about or not. */
  lemma RefusedIsClosed(call: Call, w: World, a: Answer, t: seq<Effect>)
    requires a.Masked? && t != [] && t[|t| - 1].Recorded? && (|t| == 1 || (|t| == 2 && t[0].PreflightPosted?))
    ensures Closed(call, w, a, t)
  {
  }

  lemma AllowedCallIsClosed(call: Call, w: World, events: seq<TerminalRequest>, c: Context)
    requires c.callId == call.callId && PreflightRefusal(c, call.arguments, w, events).None?
    ensures var (a, rest) := Forward(call, Some(c), w.preflight(c)(call.arguments).value.arguments, w, events);
      Closed(call, w, a, [PreflightPosted(c, call.arguments)] + rest)
  {
    var arguments := w.preflight(c)(call.arguments).value.arguments;
    var (a, rest) := Forward(call, Some(c), arguments, w, events);
    ForwardShape(call, c, arguments, w, events);
    AllowedIsClosed(call, w, c, arguments, a, rest);
  }

  lemma AllowedIsClosed(call: Call, w: World, c: Context, arguments: Json, a: Answer, rest: seq<Effect>)
    requires c.callId == call.callId && AllowedWith(w, c, call.arguments, arguments)
    requires !a.Raw? && Staged(rest) && (rest == [] ==> a.Protocol?)
    requires rest != [] ==> rest[0] == Dispatched(call.callId, call.toolName, arguments) && (a.Public? || a.Masked?)
    requires forall i :: 1 <= i < |rest| ==> Stage(rest[i]) >= 2
    requires forall i :: 0 <= i < |rest| && rest[i].FinalizePosted? ==> i == 1 && rest[i].request.context == c
    requires a.Public? ==> |rest| == 2 && rest[1].FinalizePosted? && Published(w, c, rest[1].request, a.result)
    ensures Closed(call, w, a, [PreflightPosted(c, call.arguments)] + rest)
  {
    Preceded(call, w, c, arguments, a, rest);
  }

  /** An allowed preflight before a dispatch and its finalize. */
  lemma Preceded(call: Call, w: World, c: Context, arguments: Json, a: Answer, rest: seq<Effect>)
    requires !a.Raw? && Staged(rest) && (rest == [] ==> a.Protocol?)
    requires rest != [] ==> rest[0] == Dispatched(call.callId, call.toolName, arguments) && (a.Public? || a.Masked?)
    requires forall i :: 1 <= i < |rest| ==> Stage(rest[i]) >= 2
    requires forall i :: 0 <= i < |rest| && rest[i].FinalizePosted? ==> i == 1 && rest[i].request.context == c
    ensures var t := [PreflightPosted(c, call.arguments)] + rest;
      && Staged(t)
      && (forall i :: 0 <= i < |t| && t[i].Dispatched? ==>
            i == 1 && t[i].callId == call.callId && t[i].arguments == arguments && (a.Public? || a.Masked?))
      && (forall i :: 0 <= i < |t| && t[i].FinalizePosted? ==> i == 2 && t[1].Dispatched? && t[i].request.context == c)
  {
    var t := [PreflightPosted(c, call.arguments)] + rest;
    assert forall i :: 1 <= i < |t| ==> t[i] == rest[i - 1];
  }

  /** The service is asked, and allows the call. */
  ghost predicate Allows(call: Call, w: World) {
    VerifyDatabase(call).Some? && PreflightFailure(ContextOf(call, VerifyDatabase(call).value),
        w.preflight(ContextOf(call, VerifyDatabase(call).value))(call.arguments)).None?
  }

  /** What the service says, if it comes to that, when asked to finalize this call. */
  ghost function FinalAnswer(call: Call, w: World): Result<FinalizeResponse, ClientError>
    requires Allows(call, w)
  {
    var c := ContextOf(call, VerifyDatabase(call).value);
    ClientFinalize(FinalizeRequestOf(c, w.tool(w.preflight(c)(call.arguments).value.arguments), w), w)
  }

  /** The tool's outcome reaches the agent, and the outbox, only through the service: two runs of a call
      that differ in nothing but what 1C answered, and in which the service answers the same, give the agent the
      same answer and leave the same outbox. */
  lemma RawOutcomeDoesNotLeak(call: Call, w: World, tool: Json -> Result<ToolCallResult, DispatcherError>,
      events: seq<TerminalRequest>)
    requires Allows(call, w) ==> FinalAnswer(call, w) == FinalAnswer(call, w.(tool := tool))
    ensures var (a1, t1) := CallProxyTool(true, call, w, events);
      var (a2, t2) := CallProxyTool(true, call, w.(tool := tool), events);
      && a1 == a2
      && forall after1, after2 ::
           OutboxAfter(t1, events, after1, w.deliveries) && OutboxAfter(t2, events, after2, w.deliveries) ==>
             after1 == after2
  {
    SameAnswerSameEvent(call, w, tool, events);
    var t1, t2 := CallProxyTool(true, call, w, events).1, CallProxyTool(true, call, w.(tool := tool), events).1;
    forall after1, after2 | OutboxAfter(t1, events, after1, w.deliveries)
        && OutboxAfter(t2, events, after2, w.deliveries)
      ensures after1 == after2
    {
      OutboxDetermined(t1, t2, events, after1, after2, w.deliveries);
    }
  }

  lemma SameAnswerSameEvent(call: Call, w: World, tool: Json -> Result<ToolCallResult, DispatcherError>,
      events: seq<TerminalRequest>)
    requires Allows(call, w) ==> FinalAnswer(call, w) == FinalAnswer(call, w.(tool := tool))
    ensures var (a1, t1) := CallProxyTool(true, call, w, events);
      var (a2, t2) := CallProxyTool(true, call, w.(tool := tool), events);
      a1 == a2 && RecordedEvent(t1) == RecordedEvent(t2)
  {
    var other := w.(tool := tool);
    if Allows(call, w) {
      var c := ContextOf(call, VerifyDatabase(call).value);
      var arguments := w.preflight(c)(call.arguments).value.arguments;
      var (a1, r1) := Forward(call, Some(c), arguments, w, events);
      var (a2, r2) := Forward(call, Some(c), arguments, other, events);
      FinalizeAnswersDecide(c, w.tool(arguments), tool(arguments), w, other, events);
      RecordedSurvives([Dispatched(call.callId, call.toolName, arguments)],
          Finalize(c, w.tool(arguments), w, events).1);
      RecordedSurvives([Dispatched(call.callId, call.toolName, arguments)],
          Finalize(c, tool(arguments), other, events).1);
      assert a1 == a2 && RecordedEvent(r1) == RecordedEvent(r2);
      RecordedSurvives([PreflightPosted(c, call.arguments)], r1);
      RecordedSurvives([PreflightPosted(c, call.arguments)], r2);
    }
  }

  lemma RecordedSurvives(p: seq<Effect>, r: seq<Effect>)
    requires |p| == 1 && !p[0].Recorded?
    ensures RecordedEvent(p + r) == RecordedEvent(r)
  {
    assert r != [] ==> (p + r)[|p + r| - 1] == r[|r| - 1];
    assert r == [] ==> p + r == p;
  }

  lemma FinalizeAnswersDecide(c: Context, raw1: Result<ToolCallResult, DispatcherError>, raw2: Result<ToolCallResult,
      DispatcherError>,
                              w1: World, w2: World, events: seq<TerminalRequest>)
    requires w1.persists == w2.persists
    requires ClientFinalize(FinalizeRequestOf(c, raw1, w1), w1) == ClientFinalize(FinalizeRequestOf(c, raw2, w2), w2)
    ensures var (a1, t1) := Finalize(c, raw1, w1, events);
      var (a2, t2) := Finalize(c, raw2, w2, events);
      a1 == a2 && RecordedEvent(t1) == RecordedEvent(t2)
  {
  }

  /** A result too large for the service's API is replaced before it is posted: what crosses the socket is
      then the same whatever the result and its field sources were, and it fits. */
  lemma OversizeResultStaysHome(c: Context, o1: FinalizeOutcome, s1: Option<Json>, o2: FinalizeOutcome,
      s2: Option<Json>, size: FinalizeRequest -> nat)
    requires size(FinalizeRequest(c, o1, s1)) > MAX_BODY && size(FinalizeRequest(c, o2, s2)) > MAX_BODY
    ensures Bounded(FinalizeRequest(c, o1, s1), size) == Bounded(FinalizeRequest(c, o2, s2), size)
    ensures var b := Bounded(FinalizeRequest(c, o1, s1), size);
      b.Some? ==>
        && size(b.value) <= MAX_BODY && b.value.context == c
        && b.value.outcome == TransportError("RESULT_LIMIT_EXCEEDED")
  {
  }

  // ---- Every failure is accounted for ------------------------------------------------

  /** Every code lands in the whitelist, and codes already in it are kept. */
  lemma FallbackCodeAllowed(code: string)
    ensures VerifiedCode(TerminalFallbackCode(code))
    ensures TerminalFallbackCode(code) == code <==> VerifiedCode(code)
    ensures TerminalFallbackCode(TerminalFallbackCode(code)) == TerminalFallbackCode(code)
  {
  }

  /** The target's names fit the outbox's limits; all of it is known before the call. */
  predicate NamesFit(call: Call) {
    && ValidToolName(call.toolName)
    && (call.databaseKey.Some? ==>
          call.clusterServer.Some? && ValidCoordinate(call.clusterServer.value) && ValidCoordinate(call.infobaseName))
  }

  /** The terminal event a failing call records, by the kind of its target. */
  ghost predicate TerminalOf(call: Call, e: TerminalRequest) {
    if call.databaseKey.None? then e == UnverifiedTerminal(call, "DATABASE_IDENTITY_UNVERIFIED")
    else exists code :: VerifiedCode(code) && e == VerifiedTerminal(ContextOf(call, VerifyDatabase(call).value), code)
  }

  /** Such an event is valid exactly when the names fit: the code and the caller's label never spoil it. */
  lemma TerminalValidIff(call: Call, e: TerminalRequest)
    requires IsUuid(call.callId) && IsUuid(call.correlationId) && TerminalOf(call, e)
    ensures ValidTerminal(e) <==> NamesFit(call)
    ensures e.callId == call.callId
  {
    LabelAlwaysValid(call.caller);
  }

  /** A masking failure ends with its terminal event; any other answer records nothing. */
  ghost predicate Accounted(call: Call, w: World, events: seq<TerminalRequest>, a: Answer, t: seq<Effect>) {
    if a.Masked? then
      && t != [] && t[|t| - 1].Recorded? && TerminalOf(call, t[|t| - 1].event)
      && AccountsFor(a.failure, t[|t| - 1].event, t[|t| - 1].ok)
      && (t[|t| - 1].ok <==> RecordOk(events, t[|t| - 1].event, w.persists))
    else forall i :: 0 <= i < |t| ==> !t[i].Recorded?
  }

  lemma AccountedAfter(call: Call, w: World, events: seq<TerminalRequest>, a: Answer, p: Effect, t: seq<Effect>)
    requires Accounted(call, w, events, a, t) && !p.Recorded?
    ensures Accounted(call, w, events, a, [p] + t)
  {
    var longer := [p] + t;
    assert forall i :: 1 <= i < |longer| ==> longer[i] == t[i - 1];
  }

  lemma FinalizeAccounted(call: Call, c: Context, raw: Result<ToolCallResult, DispatcherError>, w: World,
                          events: seq<TerminalRequest>)
    requires call.databaseKey.Some? && c == ContextOf(call, VerifyDatabase(call).value)
    ensures var (a, t) := Finalize(c, raw, w, events); Accounted(call, w, events, a, t)
  {
  }

  lemma ForwardAccounted(call: Call, c: Context, arguments: Json, w: World, events: seq<TerminalRequest>)
    requires call.databaseKey.Some? && c == ContextOf(call, VerifyDatabase(call).value)
    ensures var (a, t) := Forward(call, Some(c), arguments, w, events); Accounted(call, w, events, a, t)
  {
    var (a, t) := Finalize(c, w.tool(arguments), w, events);
    FinalizeAccounted(call, c, w.tool(arguments), w, events);
    AccountedAfter(call, w, events, a, Dispatched(call.callId, call.toolName, arguments), t);
  }

  lemma CallAccounted(call: Call, w: World, events: seq<TerminalRequest>)
    ensures var (a, t) := CallProxyTool(true, call, w, events); Accounted(call, w, events, a, t)
  {
    if VerifyDatabase(call).Some? {
      var c := ContextOf(call, VerifyDatabase(call).value);
      var refusal := PreflightRefusal(c, call.arguments, w, events);
      if refusal.Some? {
        AccountedAfter(call, w, events, refusal.value.0, PreflightPosted(c, call.arguments), refusal.value.1);
      } else {
        var arguments := w.preflight(c)(call.arguments).value.arguments;
        var (a, t) := Forward(call, Some(c), arguments, w, events);
        ForwardAccounted(call, c, arguments, w, events);
        AccountedAfter(call, w, events, a, PreflightPosted(c, call.arguments), t);
      }
    }
  }

  /** What the agent is told, given the recorded event: the code itself or its whitelisted stand-in when the
      record succeeded, and HISTORY_UNAVAILABLE when it did not. */
  predicate AccountsFor(f: Failure, e: TerminalRequest, ok: bool) {
    if ok then (if e.scope.Unverified? then f.code == e.errorCode else e.errorCode == TerminalFallbackCode(f.code))
    else f.code == UNAVAILABLE
  }

  /** Every masking failure is accounted for, and it is known exactly when it is not: a failing call
      records one terminal event under its own call id as its last effect; the record succeeds if and
      only if the names fit, the outbox has room and the write succeeds; and only a failed record, or
      the service itself, makes the agent see HISTORY_UNAVAILABLE. A call that does not fail records nothing. */
  lemma EveryFailureAccounted(call: Call, w: World, events: seq<TerminalRequest>)
    requires IsUuid(call.callId) && IsUuid(call.correlationId)
    requires !KnownCall(events, call.callId) // a fresh UUID
    ensures var (a, t) := CallProxyTool(true, call, w, events);
      && (a.Masked? <==> exists i :: 0 <= i < |t| && t[i].Recorded?)
      && (a.Masked? ==>
            && t != [] && t[|t| - 1].Recorded? && t[|t| - 1].event.callId == call.callId
            && AccountsFor(a.failure, t[|t| - 1].event, t[|t| - 1].ok)
            && (t[|t| - 1].ok <==> NamesFit(call) && |events| < MAX_EVENTS && w.persists))
  {
    var (a, t) := CallProxyTool(true, call, w, events);
    CallAccounted(call, w, events);
    if a.Masked? { TerminalValidIff(call, t[|t| - 1].event); }
  }

  /** Durably: with the outbox as the object does it, a successfully recorded event is in the outbox, hence
      on disk, when the call returns, or the service acknowledged it during that very call. */
  lemma RecordedMeansDurable(before: seq<TerminalRequest>, e: TerminalRequest, after: seq<TerminalRequest>, gone: nat,
      env: nat -> Delivery)
    requires DeliveredPart(before, e, after, gone, env)
    ensures e in after || exists k :: 0 <= k < gone && k < |before + [e]| && (before + [e])[k] == e && Leaves(env(k))
  {
    var full := before + if Admit(before, e).Append? then [e] else [];
    var i :| 0 <= i < |full| && full[i] == e;
    if i >= gone { assert after[i - gone] == e; } else { assert (before + [e])[i] == e; }
  }
}
