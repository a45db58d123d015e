/** Terminal events of the masking gate: what they hold, which are valid, and their JSON form. */
module Terminal {
  import opened Basics
  import opened Json

  type Byte = n: nat | n < 256

  const MAX_CALLER_LABEL_CHARS: nat := 256

  datatype Scope =
    | Verified(instanceId: string, clusterServer: string, infobaseName: string, caller: Option<string>)
    | Unverified

  datatype TerminalRequest = TerminalRequest(
    schemaVersion: Byte, callId: string, correlationId: string, toolName: string, errorCode: string, scope: Scope)

  /** `str::len`: bytes of the UTF-8 form. */
  function Utf8Len(s: string): nat {
    if s == [] then 0
    else (if s[0] as int < 0x80 then 1 else if s[0] as int < 0x800 then 2 else if s[0] as int < 0x10000 then 3 else 4)
         + Utf8Len(s[1..])
  }

  /** `char::is_control`: Unicode category Cc. */
  predicate IsControl(c: char) {
    c as int < 0x20 || 0x7F <= c as int < 0xA0
  }

  predicate IsHex(c: char) {
    '0' <= c <= '9' || 'a' <= c <= 'f' || 'A' <= c <= 'F'
  }

  predicate IsHyphenatedUuid(s: string) {
    && |s| == 36
    && forall i :: 0 <= i < 36 ==> if i in {8, 13, 18, 23} then s[i] == '-' else IsHex(s[i])
  }

  /** `Uuid::parse_str` succeeds: simple, hyphenated, braced or URN form. */
  predicate IsUuid(s: string) {
    || (|s| == 32 && forall i :: 0 <= i < 32 ==> IsHex(s[i]))
    || IsHyphenatedUuid(s)
    || (|s| == 38 && s[0] == '{' && s[37] == '}' && IsHyphenatedUuid(s[1..37]))
    || (|s| == 45 && s[..9] == "urn:uuid:" && IsHyphenatedUuid(s[9..]))
  }

  /** The length is additive, and a character takes one byte below 128, two below 2048, three below 65536 and four
      above. */
  lemma {:induction false} Utf8LenAdds(a: string, b: string)
    ensures Utf8Len(a + b) == Utf8Len(a) + Utf8Len(b)
    ensures |a| == 1 ==>
      var c := a[0] as int;
      Utf8Len(a) == if c < 128 then 1 else if c < 2048 then 2 else if c < 65536 then 3 else 4
  {
    if a == [] {
      assert a + b == b;
    } else {
      assert (a + b)[1..] == a[1..] + b;
      Utf8LenAdds(a[1..], b);
    }
  }

  predicate AllHex(s: string, n: nat) {
    |s| == n && forall i :: 0 <= i < n ==> IsHex(s[i])
  }

  /** The four ways to write a UUID: five groups of hexadecimal digits with hyphens, bare, in braces and after
      `urn:uuid:`; and the digits alone. */
  lemma UuidForms(a: string, b: string, c: string, d: string, e: string)
    requires AllHex(a, 8) && AllHex(b, 4) && AllHex(c, 4) && AllHex(d, 4) && AllHex(e, 12)
    ensures var s := a + "-" + b + "-" + c + "-" + d + "-" + e;
      IsUuid(s) && IsUuid("{" + s + "}") && IsUuid("urn:uuid:" + s) && IsUuid(a + b + c + d + e)
  {
    var s := a + "-" + b + "-" + c + "-" + d + "-" + e;
    assert IsHyphenatedUuid(s);
    assert ("{" + s + "}")[1..37] == s;
    assert ("urn:uuid:" + s)[..9] == "urn:uuid:" && ("urn:uuid:" + s)[9..] == s;
  }

  /** Codes a terminal of a verified database may carry. */
  predicate VerifiedCode(code: string) {
    code in {"ACTION_REQUIRED", "TOOL_PENDING_REVIEW", "MASK_TOKEN_INVALID", "SERVICE_NOT_READY",
             "SERVICE_WARMING_UP", "POLICY_INVALID", "RESULT_LIMIT_EXCEEDED", "MASKING_TIMEOUT",
             "MASKING_FAILED", "HISTORY_UNAVAILABLE"}
  }

  predicate UnverifiedCode(code: string) {
    code == "DATABASE_IDENTITY_UNVERIFIED" || code == "SERVICE_NOT_READY"
  }

  predicate ValidCaller(caller: Option<string>) {
    caller.Some? ==>
      && |caller.value| <= MAX_CALLER_LABEL_CHARS
      && forall i :: 0 <= i < |caller.value| ==> !IsControl(caller.value[i])
  }

  predicate ValidToolName(name: string) {
    name != "" && Utf8Len(name) <= 128
  }

  predicate ValidCoordinate(s: string) {
    s != "" && Utf8Len(s) <= 512
  }

  predicate ValidTerminal(e: TerminalRequest) {
    && e.schemaVersion == 1 && IsUuid(e.callId) && IsUuid(e.correlationId) && ValidToolName(e.toolName)
    && match e.scope
       case Verified(_, clusterServer, infobaseName, caller) =>
         ValidCoordinate(clusterServer) && ValidCoordinate(infobaseName) && ValidCaller(caller)
             && VerifiedCode(e.errorCode)
       case Unverified => UnverifiedCode(e.errorCode)
  }

  // ---- The caller's label ------------------------------------------------------

  datatype CallerInfo = CallerInfo(mcpSessionId: Option<string>, clientName: Option<string>,
      clientVersion: Option<string>)

  predicate Present(v: Option<string>) {
    v.Some? && v.value != ""
  }

  function RawLabel(c: CallerInfo): string {
    var name :=
      if !Present(c.clientName) then ""
      else c.clientName.value + if Present(c.clientVersion) then "/" + c.clientVersion.value else "";
    if !Present(c.mcpSessionId) then name
    else
      var id := c.mcpSessionId.value;
      name + (if name == "" then "" else " ") + "#" + (if |id| <= 8 then id else id[..8])
  }

  function Label(c: CallerInfo): Option<string> {
    var raw := RawLabel(c);
    if raw == "" then None
    else
      var n := if |raw| <= MAX_CALLER_LABEL_CHARS then |raw| else MAX_CALLER_LABEL_CHARS;
      Some(seq(n, i requires 0 <= i < n => if IsControl(raw[i]) then '?' else raw[i]))
  }

  /** Whatever a client calls itself, its label passes the outbox's validation, and there is
      none exactly when nothing is known about the client. */
  lemma LabelAlwaysValid(c: CallerInfo)
    ensures ValidCaller(Label(c))
    ensures Label(c).None? <==> !Present(c.clientName) && !Present(c.mcpSessionId)
    ensures Label(c).Some? ==> Label(c).value != ""
  {
    assert !IsControl('?');
  }

  /** What a label reads before it is cut: the name, with the version if there is one, and the first eight characters of
      the session, each as far as it is known. */
  predicate LabelText(c: CallerInfo, text: string) {
    var hasName, hasVersion, hasSession := Present(c.clientName), Present(c.clientVersion), Present(c.mcpSessionId);
    && (hasName && hasVersion && hasSession ==>
          text == c.clientName.value + "/" + c.clientVersion.value + " #" + FirstEight(c.mcpSessionId.value))
    && (hasName && !hasVersion && hasSession ==> text == c.clientName.value + " #" + FirstEight(c.mcpSessionId.value))
    && (hasName && hasVersion && !hasSession ==> text == c.clientName.value + "/" + c.clientVersion.value)
    && (hasName && !hasVersion && !hasSession ==> text == c.clientName.value)
    && (!hasName && hasSession ==> text == "#" + FirstEight(c.mcpSessionId.value))
    && (!hasName && !hasSession ==> text == "")
  }

  function FirstEight(s: string): string {
    if |s| < 8 then s else s[..8]
  }

  /** The text cut after 256 characters, with a question mark for every control character; nothing of an empty text. */
  predicate CutFrom(shown: Option<string>, text: string) {
    if text == "" then shown.None?
    else
      && shown.Some? && |shown.value| == (if |text| <= 256 then |text| else 256)
      && forall i :: 0 <= i < |shown.value| ==>
           shown.value[i] == if text[i] as int < 32 || 127 <= text[i] as int < 160 then '?' else text[i]
  }

  lemma LabelReads(c: CallerInfo)
    ensures exists text :: LabelText(c, text) && CutFrom(Label(c), text)
  {
    var text := RawLabel(c);
    if Present(c.clientName) && Present(c.mcpSessionId) {
      var id := FirstEight(c.mcpSessionId.value);
      assert " " + "#" == " #";
      assert text == c.clientName.value + (if Present(c.clientVersion) then "/" + c.clientVersion.value else "") + " #"
          + id;
    }
    assert LabelText(c, text) && CutFrom(Label(c), text);
  }

  // ---- JSON form ------------------------------------------------------------------

  function EncodeScope(scope: Scope): Json {
    match scope
    case Unverified => Obj([Field("kind", Str("unverified"))])
    case Verified(instanceId, clusterServer, infobaseName, caller) =>
      Obj([Field("kind", Str("verified")), Field("instance_id", Str(instanceId)),
           Field("cluster_server", Str(clusterServer)), Field("infobase_name", Str(infobaseName))]
          + if caller.Some? then [Field("caller", Str(caller.value))] else [])
  }

  /** Serde's internally tagged enum: unknown members are refused in the struct variant and skipped in the unit one. */
  function DecodeScope(v: Json): Option<Scope> {
    if !v.Obj? then None
    else
      var kind := AsStr(Get(v.fields, "kind"));
      if kind == Some("unverified") then Some(Unverified)
      else if kind == Some("verified") && Keys(v.fields) <= {"kind", "instance_id", "cluster_server", "infobase_name",
          "caller"} then
        var instanceId, clusterServer, infobaseName :=
          AsStr(Get(v.fields, "instance_id")), AsStr(Get(v.fields, "cluster_server")),
              AsStr(Get(v.fields, "infobase_name"));
        var caller := Get(v.fields, "caller");
        if instanceId.None? || clusterServer.None? || infobaseName.None? then None
        else if caller.None? || caller.value.Null? then
          Some(Verified(instanceId.value, clusterServer.value, infobaseName.value, None))
        else if caller.value.Str? then
          Some(Verified(instanceId.value, clusterServer.value, infobaseName.value, Some(caller.value.s)))
        else None
      else None
  }

  function EncodeEvent(e: TerminalRequest): Json {
    Obj([Field("schema_version", Int(e.schemaVersion)), Field("call_id", Str(e.callId)),
         Field("correlation_id", Str(e.correlationId)), Field("tool_name", Str(e.toolName)),
         Field("error_code", Str(e.errorCode)), Field("scope", EncodeScope(e.scope))])
  }

  function AsByte(v: Option<Json>): Option<Byte> {
    if v.Some? && v.value.Int? && 0 <= v.value.n < 256 then Some(v.value.n) else None
  }

  function DecodeEvent(v: Json): Option<TerminalRequest> {
    if !v.Obj? || !(Keys(v.fields) <= {"schema_version", "call_id", "correlation_id", "tool_name", "error_code",
        "scope"}) then None
    else
      var version := AsByte(Get(v.fields, "schema_version"));
      var callId, correlationId := AsStr(Get(v.fields, "call_id")), AsStr(Get(v.fields, "correlation_id"));
      var toolName, errorCode := AsStr(Get(v.fields, "tool_name")), AsStr(Get(v.fields, "error_code"));
      var scope := Get(v.fields, "scope");
      if version.None? || callId.None? || correlationId.None? || toolName.None? || errorCode.None? || scope.None?
          then None
      else
        var s := DecodeScope(scope.value);
        if s.None? then None
        else Some(TerminalRequest(version.value, callId.value, correlationId.value, toolName.value, errorCode.value,
            s.value))
  }

  lemma ScopeRoundTrip(scope: Scope)
    ensures DecodeScope(EncodeScope(scope)) == Some(scope)
  {
    var fields := EncodeScope(scope).fields;
    assert UniqueKeys(fields);
    GetAt(fields, 0);
    if scope.Verified? {
      GetAt(fields, 1);
      GetAt(fields, 2);
      GetAt(fields, 3);
      if scope.caller.Some? { GetAt(fields, 4); }
      GetFinds(fields, "caller");
    }
  }

  lemma EventRoundTrip(e: TerminalRequest)
    ensures DecodeEvent(EncodeEvent(e)) == Some(e)
  {
    var fields := EncodeEvent(e).fields;
    assert UniqueKeys(fields);
    GetAt(fields, 0);
    GetAt(fields, 1);
    GetAt(fields, 2);
    GetAt(fields, 3);
    GetAt(fields, 4);
    GetAt(fields, 5);
    ScopeRoundTrip(e.scope);
  }
}
