/** The durable terminal outbox: its file, its operations, and every run of it with
    failing writes, crashes and restarts. */
module Outbox {
  import opened Basics
  import opened Json
  import opened Terminal

  const MAX_EVENTS: nat := 10000

  /** The file at the outbox's path. `Text(None)` holds bytes that are not JSON. */
  datatype File = Missing | Unreadable | Text(json: Option<Json>)

  datatype OutboxError = InvalidFile | CannotRead | CannotPersist | DuplicateCall | InvalidEvent | Collision | Full

  predicate UniqueCalls(events: seq<TerminalRequest>) {
    forall i, j :: 0 <= i < j < |events| ==> events[i].callId != events[j].callId
  }

  predicate AllValid(events: seq<TerminalRequest>) {
    forall i :: 0 <= i < |events| ==> ValidTerminal(events[i])
  }

  /** What every outbox, in memory or on disk, satisfies. */
  predicate WellKept(events: seq<TerminalRequest>) {
    |events| <= MAX_EVENTS && AllValid(events) && UniqueCalls(events)
  }

  // ---- File format ---------------------------------------------------------------

  function EncodeSnapshot(events: seq<TerminalRequest>): Json {
    Obj([Field("schema_version", Int(1)),
         Field("events", Arr(seq(|events|, i requires 0 <= i < |events| => EncodeEvent(events[i]))))])
  }

  function DecodeEvents(items: seq<Json>): Option<seq<TerminalRequest>> {
    if items == [] then Some([])
    else
      var head, tail := DecodeEvent(items[0]), DecodeEvents(items[1..]);
      if head.Some? && tail.Some? then Some([head.value] + tail.value) else None
  }

  /** The snapshot type: exactly two members, a byte and a list of events. */
  function DecodeSnapshot(v: Json): Option<(Byte, seq<TerminalRequest>)> {
    if !v.Obj? || !(Keys(v.fields) <= {"schema_version", "events"}) then None
    else
      var version, events := AsByte(Get(v.fields, "schema_version")), Get(v.fields, "events");
      if version.None? || events.None? || !events.value.Arr? then None
      else
        var decoded := DecodeEvents(events.value.items);
        if decoded.Some? then Some((version.value, decoded.value)) else None
  }

  lemma {:induction false} EventsRoundTrip(items: seq<Json>, events: seq<TerminalRequest>)
    requires |items| == |events| && forall i :: 0 <= i < |items| ==> items[i] == EncodeEvent(events[i])
    ensures DecodeEvents(items) == Some(events)
  {
    if items != [] {
      EventRoundTrip(events[0]);
      EventsRoundTrip(items[1..], events[1..]);
      assert events == [events[0]] + events[1..];
    }
  }

  lemma SnapshotRoundTrip(events: seq<TerminalRequest>)
    ensures DecodeSnapshot(EncodeSnapshot(events)) == Some((1, events))
  {
    var fields := EncodeSnapshot(events).fields;
    assert UniqueKeys(fields);
    GetAt(fields, 0);
    GetAt(fields, 1);
    EventsRoundTrip(fields[1].value.items, events);
  }

  // ---- The retired chat-scoped format ---------------------------------------------

  const RETIRED_CODE := "CHAT_IDENTITY_REQUIRED"

  function RemoveKey(fields: seq<Field>, key: string): seq<Field> {
    if fields == [] then []
    else (if fields[0].key == key then [] else [fields[0]]) + RemoveKey(fields[1..], key)
  }

  /** Drops `chat_id`, but only from a verified scope. */
  function StripChat(raw: Json): Json {
    if !raw.Obj? then raw
    else
      var scope := Get(raw.fields, "scope");
      if scope.Some? && scope.value.Obj? && AsStr(Get(scope.value.fields, "kind")) == Some("verified")
      then Obj(Put(raw.fields, "scope", Obj(RemoveKey(scope.value.fields, "chat_id"))))
      else raw
  }

  function LegacyEvents(v: Json): Option<seq<Json>> {
    if !v.Obj? || |v.fields| != 2 || Get(v.fields, "schema_version") != Some(Int(1)) then None
    else
      var events := Get(v.fields, "events");
      if events.Some? && events.value.Arr? then Some(events.value.items) else None
  }

  /** The events a legacy list stands for: decoded in order, without the retired ones. */
  function Converting(raws: seq<Json>): Option<seq<TerminalRequest>> {
    if raws == [] then Some([])
    else
      var init, last := Converting(raws[..|raws| - 1]), DecodeEvent(StripChat(raws[|raws| - 1]));
      if init.None? || last.None? then None
      else if last.value.errorCode == RETIRED_CODE then init
      else Some(init.value + [last.value])
  }

  /** Meaning of `convert_legacy_outbox`: every entry decodes and what is kept is a well-kept outbox. */
  function Converted(v: Json): Option<seq<TerminalRequest>> {
    var raws := LegacyEvents(v);
    if raws.None? then None
    else
      var kept := Converting(raws.value);
      if kept.Some? && WellKept(kept.value) then kept else None
  }

  lemma {:induction false} KeptPrefix(raws: seq<Json>, n: nat)
    requires n <= |raws|
    ensures Converting(raws[..n]).None? ==> Converting(raws).None?
    ensures Converting(raws).Some? ==> Converting(raws[..n]).value <= Converting(raws).value
    decreases |raws|
  {
    if n < |raws| {
      KeptPrefix(raws[..|raws| - 1], n);
      assert raws[..|raws| - 1][..n] == raws[..n];
    } else {
      assert raws[..n] == raws;
    }
  }

  lemma KeptStep(raws: seq<Json>, i: nat)
    requires i < |raws| && Converting(raws[..i]).Some?
    ensures Converting(raws[..i + 1]) ==
      var e := DecodeEvent(StripChat(raws[i]));
      if e.None? then None
      else if e.value.errorCode == RETIRED_CODE then Converting(raws[..i])
      else Some(Converting(raws[..i]).value + [e.value])
  {
    assert raws[..i + 1][..i] == raws[..i] && raws[..i + 1][i] == raws[i];
  }

  /** Once a prefix does not stand for a well-kept outbox, the whole list does not. */
  lemma DoomedPrefix(raws: seq<Json>, n: nat)
    requires n <= |raws|
    requires Converting(raws[..n]).None? || !WellKept(Converting(raws[..n]).value)
    ensures Converting(raws).None? || !WellKept(Converting(raws).value)
  {
    KeptPrefix(raws, n);
    if Converting(raws).Some? && WellKept(Converting(raws).value) {
      var short, long := Converting(raws[..n]).value, Converting(raws).value;
      assert forall i :: 0 <= i < |short| ==> short[i] == long[i];
    }
  }

  predicate KnownCall(events: seq<TerminalRequest>, callId: string) {
    exists i :: 0 <= i < |events| && events[i].callId == callId
  }

  lemma ExtendWellKept(events: seq<TerminalRequest>, e: TerminalRequest)
    requires WellKept(events)
    ensures WellKept(events + [e]) <==> ValidTerminal(e) && |events| < MAX_EVENTS && !KnownCall(events, e.callId)
  {
    var longer := events + [e];
    assert longer[|events|] == e;
    if i :| 0 <= i < |events| && events[i].callId == e.callId {
      assert longer[i].callId == longer[|events|].callId;
    }
  }

  function CallIds(events: seq<TerminalRequest>): set<string> {
    set i | 0 <= i < |events| :: events[i].callId
  }

  lemma ExtendCallIds(events: seq<TerminalRequest>, e: TerminalRequest)
    ensures CallIds(events + [e]) == CallIds(events) + {e.callId}
  {
    var longer := events + [e];
    assert longer[|events|].callId == e.callId;
    forall i | 0 <= i < |events| ensures longer[i].callId == events[i].callId {}
    assert CallIds(events) <= CallIds(longer) by {
      forall c | c in CallIds(events) ensures c in CallIds(longer) {
        var i :| 0 <= i < |events| && events[i].callId == c;
        assert longer[i].callId == c;
      }
    }
  }

  /** `convert_legacy_outbox` as the loop it is, with its early exits. */
  method ConvertLegacy(v: Json) returns (r: Option<seq<TerminalRequest>>)
    ensures r == Converted(v)
  {
    var raws := LegacyEvents(v);
    if raws.None? { return None; }
    r := KeepAll(raws.value);
  }

  method KeepAll(raws: seq<Json>) returns (r: Option<seq<TerminalRequest>>)
    ensures r == if Converting(raws).Some? && WellKept(Converting(raws).value) then Converting(raws) else None
  {
    var events: seq<TerminalRequest>, seen: set<string>, i := [], {}, 0;
    while i < |raws|
      invariant 0 <= i <= |raws|
      invariant Converting(raws[..i]) == Some(events) && WellKept(events)
      invariant seen == CallIds(events)
    {
      KeptStep(raws, i);
      var event := DecodeEvent(StripChat(raws[i]));
      if event.None? {
        DoomedPrefix(raws, i + 1);
        return None;
      }
      if event.value.errorCode != RETIRED_CODE {
        ExtendWellKept(events, event.value);
        if !ValidTerminal(event.value) || |events| >= MAX_EVENTS || event.value.callId in seen {
          DoomedPrefix(raws, i + 1);
          return None;
        }
        ExtendCallIds(events, event.value);
        events, seen := events + [event.value], seen + {event.value.callId};
      }
      assert Converting(raws[..i + 1]) == Some(events);
      i := i + 1;
    }
    assert raws[..i] == raws;
    return Some(events);
  }

  // ---- Loading ---------------------------------------------------------------------

  /** The events a file stands for, when it is acceptable. */
  function Contents(file: File): Option<seq<TerminalRequest>> {
    match file
    case Missing => Some([])
    case Unreadable => None
    case Text(None) => None
    case Text(Some(v)) =>
      match DecodeSnapshot(v)
      case Some((version, events)) => if version == 1 && WellKept(events) then Some(events) else None
      case None => Converted(v)
  }

  predicate IsLegacy(file: File) {
    file.Text? && file.json.Some? && DecodeSnapshot(file.json.value).None? && Converted(file.json.value).Some?
  }

  function Saved(events: seq<TerminalRequest>): File {
    Text(Some(EncodeSnapshot(events)))
  }

  lemma SavedContents(events: seq<TerminalRequest>)
    requires WellKept(events)
    ensures Contents(Saved(events)) == Some(events) && !IsLegacy(Saved(events))
  {
    SnapshotRoundTrip(events);
  }

  /** What `load` makes of a file: the events, when it accepts, and the file it leaves. A legacy file is
      rewritten before it is accepted; nothing else touches the file. */
  function Loaded(file: File, persists: bool): (Option<seq<TerminalRequest>>, File) {
    if IsLegacy(file) then
      if persists then (Contents(file), Saved(Contents(file).value)) else (None, file)
    else (Contents(file), file)
  }

  /** Loading is stable: the file left by an accepting load loads to the same events and is left alone. */
  lemma LoadStable(file: File, first: bool, second: bool)
    requires Loaded(file, first).0.Some?
    ensures Loaded(Loaded(file, first).1, second) == Loaded(file, first)
    ensures Contents(Loaded(file, first).1) == Contents(file)
    ensures WellKept(Loaded(file, first).0.value) && !IsLegacy(Loaded(file, first).1)
  {
    SavedContents(Loaded(file, first).0.value);
  }

  // ---- Operations, as functions of the old contents -----------------------------------

  /** Result of `enqueue`, without the write. */
  datatype Admission = Refused(error: OutboxError) | AlreadyThere | Append

  function Admit(events: seq<TerminalRequest>, e: TerminalRequest): Admission {
    if !ValidTerminal(e) then Refused(InvalidEvent)
    else if KnownCall(events, e.callId) then
      if e in events then AlreadyThere else Refused(Collision)
    else if |events| >= MAX_EVENTS then Refused(Full)
    else Append
  }

  datatype ServiceError = ServiceError(code: string, message: string, correlationId: string, retryAfterS: Option<nat>)

  datatype ClientError = Transport | Timeout | InvalidResponse | Service(status: nat, error: ServiceError)

  datatype TerminalResponse = TerminalResponse(schemaVersion: Byte, status: string)

  /** `terminal_delivery_ack`: recorded now, or a conflict saying it was recorded before. */
  predicate Acknowledges(answer: Result<TerminalResponse, ClientError>) {
    match answer
    case Ok(response) => response.schemaVersion == 1 && response.status == "recorded"
    case Err(Service(status, error)) => status == 409 && error.code == "TERMINAL_ALREADY_RECORDED"
    case Err(_) => false
  }

  /** Where the deadline of a request with one retry strikes, if it does. */
  datatype Deadline = Kept | InFirst | InRetry

  /** The answers to the posts of a request: a transport failure is retried once, and what is awaited when the deadline
      strikes has timed out. */
  function PostAnswers<R>(first: Result<R, ClientError>, retried: Result<R, ClientError>, deadline: Deadline)
    : (answers: seq<Result<R, ClientError>>)
    ensures 1 <= |answers| <= 2
  {
    if deadline.InFirst? then [Err(Timeout)]
    else if !(first.Err? && first.error.Transport?) then [first]
    else [first, if deadline.InRetry? then Err(Timeout) else retried]
  }

  /** The answer to one post, and whether the service receives the request: after a transport failure or a timeout it
      may have, or not. */
  datatype Post = Post(answer: Result<TerminalResponse, ClientError>, arrives: bool)

  /** One turn of delivery: what meets the first post and its retry, the deadline over both, and whether the write that
      follows an acknowledgement would succeed. */
  datatype Delivery = Delivery(first: Post, retried: Post, deadline: Deadline, persists: bool)

  function Answers(d: Delivery): (answers: seq<Result<TerminalResponse, ClientError>>)
    ensures 1 <= |answers| <= 2
  {
    PostAnswers(d.first.answer, d.retried.answer, d.deadline)
  }

  /** `client.terminal`: the answer to the last post. */
  function TerminalAnswer(d: Delivery): Result<TerminalResponse, ClientError> {
    Answers(d)[|Answers(d)| - 1]
  }

  predicate Leaves(d: Delivery) {
    Acknowledges(TerminalAnswer(d)) && d.persists
  }

  /** The service said that it has the event: recorded now, or a conflict because it was recorded before. */
  predicate HasIt(answer: Result<TerminalResponse, ClientError>) {
    || answer == Ok(TerminalResponse(1, "recorded"))
    || (answer.Err? && answer.error.Service? && answer.error.status == 409
        && answer.error.error.code == "TERMINAL_ALREADY_RECORDED")
  }

  /** A turn has the head leave exactly when the service said so, to the first post or to the one retry after a
      transport failure, within the deadline, and the write succeeds. */
  lemma LeavesExactly(d: Delivery)
    ensures Leaves(d) <==>
      && d.persists && !d.deadline.InFirst?
      && (HasIt(d.first.answer) || (d.first.answer == Err(Transport) && d.deadline.Kept? && HasIt(d.retried.answer)))
  {
  }

  /** `client.terminal`, post by post. */
  method PostTerminal(d: Delivery) returns (answer: Result<TerminalResponse, ClientError>, posts: nat)
    ensures answer == TerminalAnswer(d) && posts == |Answers(d)|
  {
    posts := 1;
    if d.deadline.InFirst? { return Err(Timeout), posts; }
    answer := d.first.answer;
    if answer == Err(Transport) {
      posts := 2;
      answer := if d.deadline.InRetry? then Err(Timeout) else d.retried.answer;
    }
  }

  /** The oldest `gone` of `all` have left, each by its delivery, and `rest` is the rest. */
  ghost predicate Gone(all: seq<TerminalRequest>, rest: seq<TerminalRequest>, gone: nat, env: nat -> Delivery) {
    gone <= |all| && rest == all[gone..] && forall k :: 0 <= k < gone ==> Leaves(env(k))
  }

  lemma GoneNext(all: seq<TerminalRequest>, rest: seq<TerminalRequest>, gone: nat, env: nat -> Delivery)
    requires Gone(all, rest, gone, env) && rest != [] && Leaves(env(gone))
    ensures Gone(all, rest[1..], gone + 1, env)
  {
    assert all[gone..][1..] == all[gone + 1..];
  }

  class TerminalOutbox {
    var events: seq<TerminalRequest>
    /** The file at the outbox's path. */
    var file: File

    /** Between operations memory and disk stand for the same well-kept events. */
    ghost predicate Valid()
      reads this
    {
      WellKept(events) && Contents(file) == Some(events)
    }

    constructor Empty()
      ensures Valid() && events == [] && file == Missing
    {
      events, file := [], Missing;
    }

    /** `persist`: all or nothing. */
    method Persist(persists: bool) returns (r: Result<(), OutboxError>)
      modifies this`file
      ensures r.Ok? <==> persists
      ensures file == if persists then Saved(events) else old(file)
      ensures r.Err? ==> r.error == CannotPersist
    {
      if persists {
        file := Saved(events);
        return Ok(());
      }
      return Err(CannotPersist);
    }

    /** `load` of whatever file is there. */
    method Load(persists: bool) returns (r: Result<(), OutboxError>)
      modifies this
      ensures r.Ok? <==> Loaded(old(file), persists).0.Some?
      ensures r.Ok? ==> Valid() && Loaded(old(file), persists).0 == Some(events)
      ensures file == Loaded(old(file), persists).1
      ensures r.Err? ==> events == []
    {
      events := [];
      match file
      case Missing =>
        return Ok(());
      case Unreadable =>
        return Err(CannotRead);
      case Text(None) =>
        return Err(InvalidFile);
      case Text(Some(v)) =>
        match DecodeSnapshot(v)
        case Some(pair) =>
          if pair.0 != 1 || |pair.1| > MAX_EVENTS || !AllValid(pair.1) { return Err(InvalidFile); }
          if !UniqueCalls(pair.1) { return Err(DuplicateCall); }
          events := pair.1;
          return Ok(());
        case None =>
          var converted := ConvertLegacy(v);
          if converted.None? { return Err(InvalidFile); }
          events := converted.value;
          var saved := Persist(persists);
          if saved.Err? {
            events := [];
            return saved;
          }
          SavedContents(events);
          return Ok(());
    }

    method Enqueue(e: TerminalRequest, persists: bool) returns (r: Result<(), OutboxError>)
      requires Valid()
      modifies this
      ensures Valid()
      ensures r.Ok? <==> Admit(old(events), e).AlreadyThere? || (Admit(old(events), e).Append? && persists)
      ensures r.Ok? ==> e in events
      ensures Admit(old(events), e).Refused? ==> r == Err(Admit(old(events), e).error)
      ensures Admit(old(events), e).Append? && !persists ==> r == Err(CannotPersist)
      ensures if Admit(old(events), e).Append? && persists
              then events == old(events) + [e] && file == Saved(events)
              else events == old(events) && file == old(file)
    {
      if !ValidTerminal(e) { return Err(InvalidEvent); }
      var i := 0;
      while i < |events|
        invariant 0 <= i <= |events|
        invariant forall j :: 0 <= j < i ==> events[j].callId != e.callId
      {
        if events[i].callId == e.callId {
          if events[i] == e { return Ok(()); }
          assert e !in events;
          return Err(Collision);
        }
        i := i + 1;
      }
      if |events| >= MAX_EVENTS { return Err(Full); }
      ExtendWellKept(events, e);
      events := events + [e];
      r := Persist(persists);
      if r.Err? {
        events := events[..|events| - 1];
        assert events == old(events);
      } else {
        SavedContents(events);
      }
    }

    method AcknowledgeFirst(persists: bool) returns (r: Result<(), OutboxError>)
      requires Valid() && events != []
      modifies this
      ensures Valid()
      ensures r.Ok? <==> persists
      ensures if persists then events == old(events)[1..] && file == Saved(events)
              else events == old(events) && file == old(file)
    {
      var event := events[0];
      events := events[1..];
      r := Persist(persists);
      if r.Err? {
        events := [event] + events;
        assert events == old(events);
      } else {
        SavedContents(events);
      }
    }

    /** `flush_terminal_locked`: delivers from the head until a delivery does not leave.
        `env(k)` is the environment's part of the k-th delivery of this flush. */
    method Flush(env: nat -> Delivery) returns (gone: nat)
      requires Valid()
      modifies this
      ensures Valid()
      ensures gone <= |old(events)| && events == old(events)[gone..]
      ensures forall k :: 0 <= k < gone ==> Leaves(env(k))
      ensures gone < |old(events)| ==> !Leaves(env(gone))
      ensures file == if gone == 0 then old(file) else Saved(events)
    {
      gone := 0;
      ghost var all := events;
      while events != []
        invariant Valid() && Gone(all, events, gone, env)
        invariant gone == 0 ==> file == old(file)
        invariant gone > 0 ==> file == Saved(events)
        decreases |events|
      {
        ghost var rest := events;
        var left := DeliverFirst(env(gone));
        if !left { return; }
        GoneNext(all, rest, gone, env);
        gone := gone + 1;
      }
    }

    /** One delivery: the head leaves when the service acknowledged it and the shorter outbox was written. */
    method DeliverFirst(d: Delivery) returns (left: bool)
      requires Valid() && events != []
      modifies this
      ensures Valid() && (left <==> Leaves(d))
      ensures left <==>
        && d.persists && !d.deadline.InFirst?
        && (HasIt(d.first.answer) || (d.first.answer == Err(Transport) && d.deadline.Kept? && HasIt(d.retried.answer)))
      ensures if left then events == old(events)[1..] && file == Saved(events)
              else events == old(events) && file == old(file)
    {
      var answer, _ := PostTerminal(d);
      if !Acknowledges(answer) { return false; }
      var r := AcknowledgeFirst(d.persists);
      return r.Ok?;
    }

    /** `record_terminal`: enqueue, then flush. */
    method RecordTerminal(e: TerminalRequest, persists: bool, env: nat -> Delivery)
      returns (r: Result<(), OutboxError>, gone: nat)
      requires Valid()
      modifies this
      ensures Valid()
      ensures r.Ok? <==> Admit(old(events), e).AlreadyThere? || (Admit(old(events), e).Append? && persists)
      ensures r.Err? ==> gone == 0 && events == old(events) && file == old(file)
      ensures r.Ok? ==>
        var full := old(events) + if Admit(old(events), e).Append? then [e] else [];
        && gone <= |full| && events == full[gone..] && e in full
        && (forall k :: 0 <= k < gone ==> Leaves(env(k)))
        && (gone < |full| ==> !Leaves(env(gone)))
    {
      r := Enqueue(e, persists);
      gone := 0;
      if r.Ok? { gone := Flush(env); }
    }
  }
}
