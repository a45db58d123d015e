/** The JSON-RPC 2.0 messages of the session protocol: parsing and printing. */
module Wire {
  import opened Basics
  import opened Json

  type Int64 = n: int | -0x8000_0000_0000_0000 <= n < 0x8000_0000_0000_0000

  datatype Id = StringId(s: string) | NumberId(n: Int64) | NullId

  datatype RpcError = RpcError(code: Int64, message: string, data: Option<Json>)

  datatype Message =
    | Request(id: Id, rpcMethod: string, params: Json)
    | Response(id: Id, outcome: Result<Json, RpcError>)
    | Notification(rpcMethod: string, params: Json)

  datatype ParseError = InvalidJson | BadVersion | BadShape | Ambiguous

  // ---- Parsing ----------------------------------------------------------------

  function IdFromValue(v: Json): Result<Id, ParseError> {
    match v
    case Null => Ok(NullId)
    case Str(s) => Ok(StringId(s))
    case Int(n) => if -0x8000_0000_0000_0000 <= n < 0x8000_0000_0000_0000 then Ok(NumberId(n)) else Err(BadShape)
    case _ => Err(BadShape)
  }

  /** serde's reading of the error object: unknown members are ignored, an absent or null `data` is `None`. */
  function ErrorFromValue(v: Json): Result<RpcError, ParseError> {
    if !v.Obj? then Err(InvalidJson)
    else
      var code, message, data := Get(v.fields, "code"), Get(v.fields, "message"), Get(v.fields, "data");
      if code.Some? && code.value.Int? && -0x8000_0000_0000_0000 <= code.value.n < 0x8000_0000_0000_0000
         && message.Some? && message.value.Str?
      then Ok(RpcError(code.value.n, message.value.s, if data == Some(Null) then None else data))
      else Err(InvalidJson)
  }

  function ParamsOf(fields: seq<Field>): Json {
    var p := Get(fields, "params");
    if p.Some? then p.value else Null
  }

  function FromValue(v: Json): Result<Message, ParseError> {
    if !v.Obj? then Err(BadShape)
    else if AsStr(Get(v.fields, "jsonrpc")) != Some("2.0") then Err(BadVersion)
    else
      var id, rpcMethod := Get(v.fields, "id"), AsStr(Get(v.fields, "method"));
      var result, error := Get(v.fields, "result"), Get(v.fields, "error");
      match (id, rpcMethod, result, error)
      case (Some(i), Some(m), None, None) =>
        var r := IdFromValue(i);
        if r.Ok? then Ok(Request(r.value, m, ParamsOf(v.fields))) else Err(r.error)
      case (None, Some(m), None, None) => Ok(Notification(m, ParamsOf(v.fields)))
      case (Some(i), None, Some(value), None) =>
        var r := IdFromValue(i);
        if r.Ok? then Ok(Response(r.value, Ok(value))) else Err(r.error)
      case (Some(i), None, None, Some(e)) =>
        var err := ErrorFromValue(e);
        if err.Err? then Err(err.error)
        else
          var r := IdFromValue(i);
          if r.Ok? then Ok(Response(r.value, Err(err.value))) else Err(r.error)
      case (_, _, Some(_), Some(_)) => Err(Ambiguous)
      case _ => Err(BadShape)
  }

  // ---- Printing ---------------------------------------------------------------

  function IdToValue(id: Id): Json {
    match id
    case NullId => Null
    case StringId(s) => Str(s)
    case NumberId(n) => Int(n)
  }

  function ErrorToValue(e: RpcError): Json {
    Obj([Field("code", Int(e.code)), Field("message", Str(e.message))]
        + if e.data.Some? then [Field("data", e.data.value)] else [])
  }

  function ToValue(m: Message): Json {
    match m
    case Request(id, rpcMethod, params) =>
      Obj([Field("jsonrpc", Str("2.0")), Field("id", IdToValue(id)),
           Field("method", Str(rpcMethod)), Field("params", params)])
    case Notification(rpcMethod, params) =>
      Obj([Field("jsonrpc", Str("2.0")), Field("method", Str(rpcMethod)), Field("params", params)])
    case Response(id, Ok(value)) =>
      Obj([Field("jsonrpc", Str("2.0")), Field("id", IdToValue(id)), Field("result", value)])
    case Response(id, Err(e)) =>
      Obj([Field("jsonrpc", Str("2.0")), Field("id", IdToValue(id)), Field("error", ErrorToValue(e))])
  }

  // ---- Round trips --------------------------------------------------------------

  /** The one kind of message whose printed form loses something. */
  predicate CarriesNullData(m: Message) {
    m.Response? && m.outcome.Err? && m.outcome.error.data == Some(Null)
  }

  function WithoutNullData(m: Message): Message {
    if CarriesNullData(m) then Response(m.id, Err(m.outcome.error.(data := None))) else m
  }

  /** Looking a key up in a printed object, whose keys are literals. */
  lemma GetStep(f: Field, rest: seq<Field>, key: string)
    ensures Get([f] + rest, key) == if f.key == key then Some(f.value) else Get(rest, key)
  {
    assert ([f] + rest)[1..] == rest;
  }

  lemma GetIn3(v: seq<Field>, key: string)
    requires |v| == 3
    ensures Get(v, key) ==
      if v[0].key == key then Some(v[0].value) else if v[1].key == key then Some(v[1].value)
      else if v[2].key == key then Some(v[2].value) else None
  {
    GetStep(v[0], v[1..], key);
    GetStep(v[1], v[2..], key);
    GetStep(v[2], [], key);
    assert v == [v[0]] + v[1..] && v[1..] == [v[1]] + v[2..] && v[2..] == [v[2]] + [];
  }

  lemma ErrorRoundTrip(e: RpcError)
    ensures ErrorFromValue(ErrorToValue(e)) == Ok(if e.data == Some(Null) then e.(data := None) else e)
  {
    var code, message := Field("code", Int(e.code)), Field("message", Str(e.message));
    var tail := if e.data.Some? then [Field("data", e.data.value)] else [];
    var fields := [code, message] + tail;
    assert fields == [code] + ([message] + tail);
    forall key: string
      ensures Get(fields, key) == if key == "code" then Some(code.value) else if key == "message"
          then Some(message.value)
                                  else Get(tail, key)
    {
      GetStep(code, [message] + tail, key);
      GetStep(message, tail, key);
    }
    if e.data.Some? {
      GetStep(tail[0], [], "data");
      assert tail == [tail[0]] + [];
    }
  }

  lemma PrintThenParseRequest(m: Message)
    requires m.Request?
    ensures FromValue(ToValue(m)) == Ok(m)
  {
    var v := ToValue(m).fields;
    forall key: string ensures Get(v, key) == if key == "jsonrpc" then Some(v[0].value) else Get(v[1..], key) {
      GetStep(v[0], v[1..], key);
      assert v == [v[0]] + v[1..];
    }
    GetIn3(v[1..], "id");
    GetIn3(v[1..], "method");
    GetIn3(v[1..], "params");
    GetIn3(v[1..], "result");
    GetIn3(v[1..], "error");
  }

  /** Printing then parsing gives every message back, except that an explicit null `data` is dropped. */
  lemma PrintThenParse(m: Message)
    ensures FromValue(ToValue(m)) == Ok(WithoutNullData(m))
  {
    if m.Request? {
      PrintThenParseRequest(m);
    } else {
      var v := ToValue(m).fields;
      GetIn3(v, "jsonrpc");
      GetIn3(v, "id");
      GetIn3(v, "method");
      GetIn3(v, "params");
      GetIn3(v, "result");
      GetIn3(v, "error");
      if m.Response? && m.outcome.Err? { ErrorRoundTrip(m.outcome.error); }
    }
  }

  /** The round trip is the identity exactly on messages without an explicit null `data`. */
  lemma RoundTripIff(m: Message)
    ensures FromValue(ToValue(m)) == Ok(m) <==> !CarriesNullData(m)
  {
    PrintThenParse(m);
  }

  /** Such a message comes back without its `data`. */
  lemma NullDataLost(id: Id, code: Int64, message: string)
    ensures var m := Response(id, Err(RpcError(code, message, Some(Null))));
      FromValue(ToValue(m)) == Ok(Response(id, Err(RpcError(code, message, None)))) && FromValue(ToValue(m)) != Ok(m)
  {
    PrintThenParse(Response(id, Err(RpcError(code, message, Some(Null)))));
  }

  /** What was parsed once survives being printed and parsed again, however often. */
  lemma ParsePrintParse(v: Json)
    requires FromValue(v).Ok?
    ensures FromValue(ToValue(FromValue(v).value)) == FromValue(v)
  {
    PrintThenParse(FromValue(v).value);
  }

  // ---- Which objects are messages ------------------------------------------------

  predicate Has(v: Json, key: string) {
    v.Obj? && Get(v.fields, key).Some?
  }

  predicate ValidId(v: Json) {
    Has(v, "id") && IdFromValue(Get(v.fields, "id").value).Ok?
  }

  predicate HasMethod(v: Json) {
    v.Obj? && AsStr(Get(v.fields, "method")).Some?
  }

  predicate IsRequest(v: Json) {
    ValidId(v) && HasMethod(v) && !Has(v, "result") && !Has(v, "error")
  }

  predicate IsNotification(v: Json) {
    !Has(v, "id") && HasMethod(v) && !Has(v, "result") && !Has(v, "error")
  }

  predicate IsResponse(v: Json) {
    && ValidId(v) && !HasMethod(v) && (Has(v, "result") <==> !Has(v, "error"))
    && (Has(v, "error") ==> ErrorFromValue(Get(v.fields, "error").value).Ok?)
  }

  /** Exactly the version-2.0 objects of one of three disjoint shapes are messages, and the shape is the message's. */
  lemma AcceptedIffOneShape(v: Json)
    ensures FromValue(v).Ok? <==>
      Has(v, "jsonrpc") && Get(v.fields, "jsonrpc").value == Str("2.0")
      && (IsRequest(v) || IsNotification(v) || IsResponse(v))
    ensures !(IsRequest(v) && IsNotification(v)) && !(IsRequest(v) && IsResponse(v))
        && !(IsNotification(v) && IsResponse(v))
    ensures FromValue(v).Ok? ==>
      && (FromValue(v).value.Request? <==> IsRequest(v))
      && (FromValue(v).value.Notification? <==> IsNotification(v))
      && (FromValue(v).value.Response? <==> IsResponse(v))
  {
  }

  // ---- What a message says, member by member -------------------------------------

  predicate IdIs(v: Option<Json>, id: Id) {
    match id
    case NullId => v == Some(Null)
    case StringId(s) => v == Some(Str(s))
    case NumberId(n) => v == Some(Int(n))
  }

  predicate ErrorIs(v: Option<Json>, e: RpcError) {
    && v.Some? && v.value.Obj?
    && Get(v.value.fields, "code") == Some(Int(e.code)) && Get(v.value.fields, "message") == Some(Str(e.message))
    && (Get(v.value.fields, "data") == e.data || (Get(v.value.fields, "data") == Some(Null) && e.data.None?))
  }

  /** The object carries the message: the version, and the members of its kind. */
  predicate Says(v: Json, m: Message) {
    && v.Obj? && Get(v.fields, "jsonrpc") == Some(Str("2.0"))
    && match m
       case Request(id, rpcMethod, params) =>
         && IdIs(Get(v.fields, "id"), id) && Get(v.fields, "method") == Some(Str(rpcMethod))
         && (Get(v.fields, "params") == Some(params) || (Get(v.fields, "params").None? && params == Null))
       case Notification(rpcMethod, params) =>
         && Get(v.fields, "id").None? && Get(v.fields, "method") == Some(Str(rpcMethod))
         && (Get(v.fields, "params") == Some(params) || (Get(v.fields, "params").None? && params == Null))
       case Response(id, Ok(value)) => IdIs(Get(v.fields, "id"), id) && Get(v.fields, "result") == Some(value)
       case Response(id, Err(e)) => IdIs(Get(v.fields, "id"), id) && ErrorIs(Get(v.fields, "error"), e)
  }

  /** What was parsed is what the object says, member by member. */
  lemma ParsedSays(v: Json)
    requires FromValue(v).Ok?
    ensures Says(v, FromValue(v).value)
  {
  }

  lemma ErrorSays(e: RpcError)
    ensures ErrorIs(Some(ErrorToValue(e)), e)
  {
    var fields := ErrorToValue(e).fields;
    assert UniqueKeys(fields);
    GetAt(fields, 0);
    GetAt(fields, 1);
    if e.data.Some? { GetAt(fields, 2); }
    GetFinds(fields, "data");
  }

  /** What is printed says the message, member by member. */
  lemma PrintedSays(m: Message)
    ensures Says(ToValue(m), m)
  {
    var fields := ToValue(m).fields;
    assert UniqueKeys(fields);
    GetAt(fields, 0);
    GetAt(fields, 1);
    GetAt(fields, 2);
    if m.Request? { GetAt(fields, 3); }
    if m.Notification? { GetFinds(fields, "id"); }
    if m.Response? && m.outcome.Err? { ErrorSays(m.outcome.error); }
  }

  /** Why an object is refused: the version; both a result and an error; an error that is none; or, for anything else
      that is no message, its shape. */
  lemma RefusedBecause(v: Json)
    ensures var current := Has(v, "jsonrpc") && Get(v.fields, "jsonrpc") == Some(Str("2.0"));
      && (FromValue(v) == Err(BadVersion) <==> v.Obj? && !current)
      && (FromValue(v) == Err(Ambiguous) <==> current && Has(v, "result") && Has(v, "error"))
      && (FromValue(v) == Err(InvalidJson) <==>
            && current && Has(v, "id") && !HasMethod(v) && !Has(v, "result") && Has(v, "error")
            && ErrorFromValue(Get(v.fields, "error").value).Err?)
  {
  }
}
