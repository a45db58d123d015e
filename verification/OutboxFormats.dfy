/** What the outbox writes and reads, member by member: events, snapshots and the retired format; and what it admits. */
module OutboxFormats {
  import opened Basics
  import opened Json
  import opened Terminal
  import opened Outbox

  // ---- The present format -----------------------------------------------------------------------------------

  /** The members of an event, as they are written. */
  lemma EventOnDisk(e: TerminalRequest)
    ensures EncodeEvent(e).Obj?
    ensures var f := EncodeEvent(e).fields;
      && Keys(f) == {"schema_version", "call_id", "correlation_id", "tool_name", "error_code", "scope"} && UniqueKeys(f)
      && Get(f, "schema_version") == Some(Int(e.schemaVersion)) && Get(f, "call_id") == Some(Str(e.callId))
      && Get(f, "correlation_id") == Some(Str(e.correlationId)) && Get(f, "tool_name") == Some(Str(e.toolName))
      && Get(f, "error_code") == Some(Str(e.errorCode)) && Get(f, "scope") == Some(EncodeScope(e.scope))
  {
    var f := EncodeEvent(e).fields;
    assert UniqueKeys(f);
    forall i | 0 <= i < 6 ensures Get(f, f[i].key) == Some(f[i].value) && f[i].key in Keys(f) { GetAt(f, i); }
    assert f[0].key == "schema_version" && f[1].key == "call_id" && f[2].key == "correlation_id";
    assert f[3].key == "tool_name" && f[4].key == "error_code" && f[5].key == "scope";
  }

  /** The members of a scope. */
  lemma ScopeOnDisk(scope: Scope)
    ensures EncodeScope(scope).Obj?
    ensures var f := EncodeScope(scope).fields;
      match scope
      case Unverified => f == [Field("kind", Str("unverified"))]
      case Verified(instanceId, clusterServer, infobaseName, caller) =>
        && UniqueKeys(f) && Get(f, "kind") == Some(Str("verified")) && Get(f, "instance_id") == Some(Str(instanceId))
        && Get(f, "cluster_server") == Some(Str(clusterServer)) && Get(f, "infobase_name") == Some(Str(infobaseName))
        && Get(f, "caller") == (if caller.Some? then Some(Str(caller.value)) else None)
        && Keys(f) == {"kind", "instance_id", "cluster_server", "infobase_name"} + if caller.Some? then {"caller"}
            else {}
  {
    var f := EncodeScope(scope).fields;
    assert UniqueKeys(f);
    forall i | 0 <= i < |f| ensures Get(f, f[i].key) == Some(f[i].value) && f[i].key in Keys(f) { GetAt(f, i); }
    if scope.Verified? {
      assert f[0].key == "kind" && f[1].key == "instance_id" && f[2].key == "cluster_server"
          && f[3].key == "infobase_name";
      assert scope.caller.Some? ==> f[4].key == "caller";
      GetFinds(f, "caller");
    }
  }

  /** The snapshot holds the version and the events, oldest first. */
  lemma SnapshotOnDisk(events: seq<TerminalRequest>)
    ensures exists items ::
      && Saved(events) == Text(Some(Obj([Field("schema_version", Int(1)), Field("events", Arr(items))])))
      && |items| == |events| && forall i :: 0 <= i < |items| ==> items[i] == EncodeEvent(events[i])
  {
    var items := EncodeSnapshot(events).fields[1].value.items;
    assert Saved(events) == Text(Some(Obj([Field("schema_version", Int(1)), Field("events", Arr(items))])));
  }

  // ---- The retired format ------------------------------------------------------------------------------------

  /** The scope as it was written when it also named a chat. */
  function ScopeWithChat(scope: Scope, chat: Json): Json {
    if scope.Unverified? then EncodeScope(scope) else Obj(EncodeScope(scope).fields + [Field("chat_id", chat)])
  }

  function WithChat(e: TerminalRequest, chat: Json): Json {
    Obj(EncodeEvent(e).fields[5 := Field("scope", ScopeWithChat(e.scope, chat))])
  }

  lemma {:induction false} RemoveAppended(f: seq<Field>, key: string, v: Json)
    requires key !in Keys(f)
    ensures RemoveKey(f + [Field(key, v)], key) == f
  {
    var all := f + [Field(key, v)];
    if f == [] {
      assert all == [Field(key, v)] && all[1..] == [];
    } else {
      KeysSplit(f);
      assert all[1..] == f[1..] + [Field(key, v)] && all[0] == f[0];
      RemoveAppended(f[1..], key, v);
      assert [f[0]] + f[1..] == f;
    }
  }

  lemma {:induction false} PutAt(f: seq<Field>, i: nat, v: Json)
    requires UniqueKeys(f) && i < |f|
    ensures Put(f, f[i].key, v) == f[i := Field(f[i].key, v)]
  {
    if i > 0 {
      PutAt(f[1..], i - 1, v);
      assert f[1..][i - 1] == f[i];
      assert [f[0]] + f[1..][i - 1 := Field(f[i].key, v)] == f[i := Field(f[i].key, v)];
    }
  }

  lemma KindOfChat(scope: Scope, chat: Json)
    ensures ScopeWithChat(scope, chat).Obj?
    ensures AsStr(Get(ScopeWithChat(scope, chat).fields, "kind"))
        == Some(if scope.Verified? then "verified" else "unverified")
  {
    assert ScopeWithChat(scope, chat).fields[0] == EncodeScope(scope).fields[0];
  }

  /** Looking up the scope, and its kind, in an event with a chat. */
  lemma ScopeOfChat(e: TerminalRequest, chat: Json)
    ensures var f := WithChat(e, chat).fields;
      |f| == 6 && UniqueKeys(f) && f[5].key == "scope" && Get(f, "scope") == Some(ScopeWithChat(e.scope, chat))
    ensures ScopeWithChat(e.scope, chat).Obj?
    ensures AsStr(Get(ScopeWithChat(e.scope, chat).fields, "kind"))
        == Some(if e.scope.Verified? then "verified" else "unverified")
  {
    var plain, f := EncodeEvent(e).fields, WithChat(e, chat).fields;
    EventOnDisk(e);
    assert forall i :: 0 <= i < 6 ==> f[i].key == plain[i].key;
    GetAt(f, 5);
    KindOfChat(e.scope, chat);
  }

  lemma VerifiedStripped(scope: Scope, chat: Json)
    requires scope.Verified?
    ensures RemoveKey(ScopeWithChat(scope, chat).fields, "chat_id") == EncodeScope(scope).fields
  {
    ScopeOnDisk(scope);
    RemoveAppended(EncodeScope(scope).fields, "chat_id", chat);
  }

  lemma ChatStripped(e: TerminalRequest, chat: Json)
    ensures StripChat(WithChat(e, chat)) == EncodeEvent(e)
  {
    var plain, f := EncodeEvent(e).fields, WithChat(e, chat).fields;
    ScopeOfChat(e, chat);
    assert f[5 := plain[5]] == plain;
    if e.scope.Verified? {
      VerifiedStripped(e.scope, chat);
      PutAt(f, 5, plain[5].value);
    }
  }

  /** An event with a chat is read as the event. */
  lemma ChatIsDropped(e: TerminalRequest, chat: Json)
    ensures DecodeEvent(StripChat(WithChat(e, chat))) == Some(e)
  {
    ChatStripped(e, chat);
    EventRoundTrip(e);
  }

  /** The events without those whose code is retired, in order. */
  function Unretired(events: seq<TerminalRequest>): seq<TerminalRequest> {
    if events == [] then []
    else
      var init, last := Unretired(events[..|events| - 1]), events[|events| - 1];
      if last.errorCode == "CHAT_IDENTITY_REQUIRED" then init else init + [last]
  }

  predicate ReadsAs(raw: Json, e: TerminalRequest) {
    DecodeEvent(StripChat(raw)) == Some(e)
  }

  lemma {:induction false} AllAreRead(events: seq<TerminalRequest>, raws: seq<Json>)
    requires |raws| == |events| && forall i :: 0 <= i < |raws| ==> ReadsAs(raws[i], events[i])
    ensures Converting(raws) == Some(Unretired(events))
  {
    if raws != [] {
      var n := |raws| - 1;
      AllAreRead(events[..n], raws[..n]);
      assert ReadsAs(raws[n], events[n]);
    }
  }

  /** What the retired format stands for: whatever events were written with whatever chats, they are read without the
      chats, without those whose code is retired, in order, if that is a well-kept outbox; and not at all if it is
      not. */
  lemma RetiredFormatReads(events: seq<TerminalRequest>, raws: seq<Json>, chats: seq<Json>)
    requires |raws| == |events| == |chats| && forall i :: 0 <= i < |raws| ==> raws[i] == WithChat(events[i], chats[i])
    ensures Converted(Obj([Field("schema_version", Int(1)), Field("events", Arr(raws))]))
         == if WellKept(Unretired(events)) then Some(Unretired(events)) else None
  {
    var f := [Field("schema_version", Int(1)), Field("events", Arr(raws))];
    assert UniqueKeys(f);
    GetAt(f, 0);
    GetAt(f, 1);
    forall i | 0 <= i < |raws| ensures ReadsAs(raws[i], events[i]) { ChatIsDropped(events[i], chats[i]); }
    AllAreRead(events, raws);
  }

  // ---- What is admitted --------------------------------------------------------------------------------------

  /** The limits of a valid event, spelled out. */
  lemma ValidExactly(e: TerminalRequest)
    ensures ValidTerminal(e) <==>
      && e.schemaVersion == 1 && IsUuid(e.callId) && IsUuid(e.correlationId) && 1 <= Utf8Len(e.toolName) <= 128
      && match e.scope
         case Unverified => e.errorCode in {"DATABASE_IDENTITY_UNVERIFIED", "SERVICE_NOT_READY"}
         case Verified(_, cluster, infobase, caller) =>
           && 1 <= Utf8Len(cluster) <= 512 && 1 <= Utf8Len(infobase) <= 512
           && (caller.Some? ==> |caller.value| <= 256 && forall c :: c in caller.value ==> !IsControl(c))
           && e.errorCode in {"ACTION_REQUIRED", "TOOL_PENDING_REVIEW", "MASK_TOKEN_INVALID", "SERVICE_NOT_READY",
                              "SERVICE_WARMING_UP", "POLICY_INVALID", "RESULT_LIMIT_EXCEEDED", "MASKING_TIMEOUT",
                              "MASKING_FAILED", "HISTORY_UNAVAILABLE"}
  {
  }

  /** What `enqueue` does with an event: one of four, by what is there already. */
  lemma AdmitsExactly(events: seq<TerminalRequest>, e: TerminalRequest)
    ensures Admit(events, e) == Append <==>
      ValidTerminal(e) && (forall x :: x in events ==> x.callId != e.callId) && |events| < 10000
    ensures Admit(events, e) == AlreadyThere <==> ValidTerminal(e) && e in events
    ensures Admit(events, e) == Refused(InvalidEvent) <==> !ValidTerminal(e)
    ensures Admit(events, e) == Refused(Collision) <==>
      ValidTerminal(e) && e !in events && exists x :: x in events && x.callId == e.callId
    ensures Admit(events, e) == Refused(Full) <==>
      ValidTerminal(e) && (forall x :: x in events ==> x.callId != e.callId) && |events| >= 10000
  {
  }

  /** What a file must say to be accepted: version 1 and a list of events, and nothing else; and what it stands for is a
      well-kept outbox. A missing file is an empty one. */
  lemma AcceptedFilesSay(file: File)
    requires Contents(file).Some?
    ensures WellKept(Contents(file).value)
    ensures file == Missing ==> Contents(file).value == []
    ensures file != Missing ==>
      && file.Text? && file.json.Some? && file.json.value.Obj?
      && var f := file.json.value.fields;
         && Get(f, "schema_version") == Some(Int(1)) && Get(f, "events").Some? && Get(f, "events").value.Arr?
         && (Keys(f) <= {"schema_version", "events"} || |f| == 2)
  {
  }
}
