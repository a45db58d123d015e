/** The per-session dispatcher over its connection: every schedule of calls, cancellations, deadlines, dropped futures,
    responses and drains, with each lock of the connection taken separately.  A call is named by its arrival number. */
module Dispatcher {
  import opened Basics
  import opened Json

  type RequestId = nat

  const TOOL_CANCELLED: int := -32800

  /** A client's response: a value that is or is not a tool result, or an error. */
  datatype Reply = Value(value: Json, parses: bool) | Error(code: int)

  datatype Outcome =
    | Completed(value: Json) | InvalidResult | CancelledWhileQueued | Cancelled | TimedOutWhileQueued
    | TimedOutWhileRunning | SessionGone | ClientError(code: int) | WriterClosed
    | AbandonedWhileQueued | Abandoned                    // nobody gets these: the future was dropped

  datatype Mail = Nothing | Answer(reply: Reply) | Dropped

  /** A `dispatch_request` under way: it saw the connection active and took its id; it is in the table; it could not
      send and is about to leave the table. */
  datatype Stage = Numbered | Inserted | Failing

  datatype Cancel = Unasked | Cancelling(cancelId: RequestId, at: Stage) | Asked

  datatype Phase =
    | Queued                                              // waits for the admission permit
    | Admitted                                            // holds it
    | Counted                                             // holds it and is counted as in flight
    | Sending(id: RequestId, stage: Stage, mail: Mail)    // its tool.call is being dispatched
    | Running(id: RequestId, cancel: Cancel, mail: Mail)  // its tool.call is on the wire
    | Done(outcome: Outcome)

  datatype Frame =
    | ToolCall(call: nat, id: RequestId)
    | ToolCancel(call: nat, id: RequestId, target: RequestId)

  /** `accepted` and `cleared` tell what became of entries of the table: the response that took one out, or a drain. */
  datatype State = State(
    calls: seq<Phase>, queue: seq<nat>, holder: Option<nat>, inflight: int, drained: bool,
    active: bool, sender: bool, pending: map<RequestId, Option<nat>>, nextId: nat,
    wire: seq<Frame>, accepted: map<RequestId, Reply>, cleared: set<RequestId>)

  const FRESH := State([], [], None, 0, false, true, true, map[], 0, [], map[], {})

  datatype Step =
    | Arrive(cancelled: bool, late: bool)   // first poll of `enqueue`; the permit is tried last
    | LeaveQueue(k: nat, timedOut: bool)    // cancellation or deadline while queued
    | Grant                                 // the free permit goes to the longest waiting call
    | Check(k: nat)                         // is the dispatcher drained?
    | BeginCall(k: nat, serializes: bool)   // is the connection active? if so, an id
    | BeginCancel(k: nat)                   // the same for the call's tool.cancel
    | Insert(k: nat)                        // the table
    | Send(k: nat, writerUp: bool)          // the outbound sender
    | Cleanup(k: nat)                       // the table again, after a send that failed
    | TimeoutRunning(k: nat)
    | Receive(k: nat)
    | Abandon(k: nat)                       // the future is dropped where it waits
    | Respond(id: RequestId, reply: Reply)
    | DrainDispatcher
    | DrainStore                            // a drain of the connection, lock by lock
    | DrainClear
    | DrainTake

  function SetPhase(s: State, k: nat, p: Phase): State
    requires k < |s.calls|
  {
    s.(calls := s.calls[k := p])
  }

  /** The end of a call that holds the permit: the guards give back the count, if taken, and the permit. */
  function Finish(s: State, k: nat, outcome: Outcome): State
    requires k < |s.calls|
  {
    SetPhase(s, k, Done(outcome)).(holder := None, inflight := s.inflight - if s.calls[k].Admitted? then 0 else 1)
  }

  function Without(queue: seq<nat>, k: nat): seq<nat> {
    if queue == [] then [] else (if queue[0] == k then [] else [queue[0]]) + Without(queue[1..], k)
  }

  function OutcomeOf(mail: Mail): Outcome
    requires !mail.Nothing?
  {
    match mail
    case Dropped => SessionGone
    case Answer(Value(v, parses)) => if parses then Completed(v) else InvalidResult
    case Answer(Error(code)) => if code == TOOL_CANCELLED then Cancelled else ClientError(code)
  }

  predicate HasId(p: Phase) {
    p.Sending? || p.Running?
  }

  /** Has its id and no mail yet. */
  predicate Waits(s: State, k: nat) {
    k < |s.calls| && HasId(s.calls[k]) && s.calls[k].mail.Nothing?
  }

  /** Sits in the `select` for its response. */
  predicate Selects(s: State, k: nat) {
    k < |s.calls| && s.calls[k].Running? && !s.calls[k].cancel.Cancelling?
  }

  function OnBeginCall(s: State, k: nat, serializes: bool): State
    requires k < |s.calls|
  {
    if !serializes then Finish(s, k, InvalidResult)
    else if !s.active then Finish(s, k, SessionGone)
    else SetPhase(s, k, Sending(s.nextId, Numbered, Nothing)).(nextId := s.nextId + 1)
  }

  /** `send_tool_cancel`: its errors are ignored, and its own response is awaited by nobody. */
  function OnBeginCancel(s: State, k: nat): State
    requires k < |s.calls| && s.calls[k].Running?
  {
    if !s.active then SetPhase(s, k, s.calls[k].(cancel := Asked))
    else SetPhase(s, k, s.calls[k].(cancel := Cancelling(s.nextId, Numbered))).(nextId := s.nextId + 1)
  }

  /** The call's dispatch is at this stage: of its `tool.call`, or of its `tool.cancel`. */
  predicate CallAt(s: State, k: nat, stage: Stage) {
    k < |s.calls| && s.calls[k].Sending? && s.calls[k].stage == stage
  }

  predicate CancelAt(s: State, k: nat, stage: Stage) {
    k < |s.calls| && s.calls[k].Running? && s.calls[k].cancel.Cancelling? && s.calls[k].cancel.at == stage
  }

  /** The call with its `tool.cancel` so far. */
  function WithCancel(s: State, k: nat, cancel: Cancel): State
    requires k < |s.calls| && s.calls[k].Running?
  {
    SetPhase(s, k, s.calls[k].(cancel := cancel))
  }

  function OnInsert(s: State, k: nat): State {
    if CallAt(s, k, Numbered) then
      SetPhase(s, k, s.calls[k].(stage := Inserted)).(pending := s.pending[s.calls[k].id := Some(k)])
    else if CancelAt(s, k, Numbered) then
      var id := s.calls[k].cancel.cancelId;
      WithCancel(s, k, Cancelling(id, Inserted)).(pending := s.pending[id := None])
    else s
  }

  function OnSend(s: State, k: nat, writerUp: bool): State {
    if CallAt(s, k, Inserted) then
      var id := s.calls[k].id;
      if s.sender && writerUp
      then SetPhase(s, k, Running(id, Unasked, s.calls[k].mail)).(wire := s.wire + [ToolCall(k, id)])
      else SetPhase(s, k, s.calls[k].(stage := Failing))
    else if CancelAt(s, k, Inserted) then
      var id := s.calls[k].cancel.cancelId;
      if s.sender && writerUp
      then WithCancel(s, k, Asked).(wire := s.wire + [ToolCancel(k, id, s.calls[k].id)])
      else WithCancel(s, k, Cancelling(id, Failing))
    else s
  }

  function OnCleanup(s: State, k: nat): State {
    if CallAt(s, k, Failing) then Finish(s, k, WriterClosed).(pending := s.pending - {s.calls[k].id})
    else if CancelAt(s, k, Failing) then WithCancel(s, k, Asked).(pending := s.pending - {s.calls[k].cancel.cancelId})
    else s
  }

  /** A dropped future gives back its place or its permit; nothing takes its entry out of the table. */
  function OnAbandon(s: State, k: nat): State {
    if k < |s.calls| && s.calls[k].Queued?
    then SetPhase(s, k, Done(AbandonedWhileQueued)).(queue := Without(s.queue, k))
    else if k < |s.calls| && s.calls[k].Admitted? then Finish(s, k, AbandonedWhileQueued)
    else if Selects(s, k) then Finish(s, k, Abandoned)
    else s
  }

  function DropAll(calls: seq<Phase>, pending: map<RequestId, Option<nat>>): seq<Phase> {
    seq(|calls|, k requires 0 <= k < |calls| =>
      if HasId(calls[k]) && calls[k].mail.Nothing? && calls[k].id in pending then calls[k].(mail := Dropped)
      else calls[k])
  }

  function OnRespond(s: State, id: RequestId, reply: Reply): State
    requires id in s.pending
  {
    var t := s.(pending := s.pending - {id}, accepted := s.accepted[id := reply]);
    if s.pending[id].Some? && Waits(s, s.pending[id].value)
    then SetPhase(t, s.pending[id].value, s.calls[s.pending[id].value].(mail := Answer(reply))) else t
  }

  function OnArrive(s: State, cancelled: bool, late: bool): State {
    if s.drained then s.(calls := s.calls + [Done(SessionGone)])
    else if cancelled then s.(calls := s.calls + [Done(CancelledWhileQueued)])
    else if late then s.(calls := s.calls + [Done(TimedOutWhileQueued)])
    else if s.holder.None? && s.queue == [] then s.(calls := s.calls + [Admitted], holder := Some(|s.calls|))
    else s.(calls := s.calls + [Queued], queue := s.queue + [|s.calls|])
  }

  function OnLeaveQueue(s: State, k: nat, timedOut: bool): State
    requires k < |s.calls|
  {
    SetPhase(s, k, Done(if timedOut then TimedOutWhileQueued else CancelledWhileQueued)).(queue := Without(s.queue, k))
  }

  function OnGrant(s: State): State {
    if s.holder.None? && s.queue != [] && s.queue[0] < |s.calls|
    then SetPhase(s, s.queue[0], Admitted).(holder := Some(s.queue[0]), queue := s.queue[1..]) else s
  }

  function OnCheck(s: State, k: nat): State
    requires k < |s.calls|
  {
    if s.drained then Finish(s, k, SessionGone) else SetPhase(s, k, Counted).(inflight := s.inflight + 1)
  }

  function Next(s: State, step: Step): State {
    match step
    case Arrive(cancelled, late) => OnArrive(s, cancelled, late)
    case LeaveQueue(k, timedOut) => if k < |s.calls| && s.calls[k].Queued? then OnLeaveQueue(s, k, timedOut) else s
    case Grant => OnGrant(s)
    case Check(k) => if k < |s.calls| && s.calls[k].Admitted? then OnCheck(s, k) else s
    case BeginCall(k, serializes) =>
      if k < |s.calls| && s.calls[k].Counted? then OnBeginCall(s, k, serializes) else s
    case BeginCancel(k) => if Waits(s, k) && Selects(s, k) && s.calls[k].cancel.Unasked? then OnBeginCancel(s, k) else s
    case Insert(k) => OnInsert(s, k)
    case Send(k, writerUp) => OnSend(s, k, writerUp)
    case Cleanup(k) => OnCleanup(s, k)
    case TimeoutRunning(k) =>
      if Waits(s, k) && Selects(s, k)
      then Finish(s, k, TimedOutWhileRunning).(pending := s.pending - {s.calls[k].id}) else s
    case Receive(k) =>
      if Selects(s, k) && !Waits(s, k) then Finish(s, k, OutcomeOf(s.calls[k].mail)) else s
    case Abandon(k) => OnAbandon(s, k)
    case Respond(id, reply) => if id in s.pending then OnRespond(s, id, reply) else s
    case DrainDispatcher => s.(drained := true)
    case DrainStore => s.(active := false)
    case DrainClear =>
      if s.active then s
      else s.(pending := map[], calls := DropAll(s.calls, s.pending), cleared := s.cleared + s.pending.Keys)
    case DrainTake => if s.active then s else s.(sender := false)
  }

  /** The state after a schedule from `s`. */
  function RunFrom(s: State, steps: seq<Step>): State {
    if steps == [] then s else Next(RunFrom(s, steps[..|steps| - 1]), steps[|steps| - 1])
  }

  function Run(steps: seq<Step>): State {
    RunFrom(FRESH, steps)
  }

  // ---- The invariant -----------------------------------------------------------------------

  predicate HoldsPermit(p: Phase) {
    p.Admitted? || p.Counted? || HasId(p)
  }

  /** The permit is held by the one call that is past the queue and not done; it alone is counted. */
  predicate PermitOk(s: State) {
    && (forall k :: 0 <= k < |s.calls| ==> (HoldsPermit(s.calls[k]) <==> s.holder == Some(k)))
    && (s.holder.Some? ==> s.holder.value < |s.calls|)
    && s.inflight == (if s.holder.Some? && !s.calls[s.holder.value].Admitted? then 1 else 0)
  }

  /** The queue holds exactly the queued calls, in order of arrival, all behind the holder. */
  predicate QueueOk(s: State) {
    && (forall k :: 0 <= k < |s.calls| ==> (s.calls[k].Queued? <==> k in s.queue))
    && (forall i :: 0 <= i < |s.queue| ==> s.queue[i] < |s.calls|)
    && (forall i, j :: 0 <= i < j < |s.queue| ==> s.queue[i] < s.queue[j])
    && (s.holder.Some? ==> forall i :: 0 <= i < |s.queue| ==> s.holder.value < s.queue[i])
  }

  /** Ended after its `tool.call` went out. */
  predicate AfterSending(o: Outcome) {
    !o.CancelledWhileQueued? && !o.TimedOutWhileQueued? && !o.WriterClosed? && !o.AbandonedWhileQueued?
  }

  /** A call on the wire is running under that id or has ended, and is ahead of all that wait. */
  predicate FrameOk(s: State, i: nat)
    requires i < |s.wire|
  {
    var k := s.wire[i].call;
    && k < |s.calls| && s.wire[i].id < s.nextId
    && (match s.wire[i]
        case ToolCall(_, id) =>
          && ((s.calls[k].Running? && s.calls[k].id == id) || (s.calls[k].Done? && AfterSending(s.calls[k].outcome)))
          && (forall j :: 0 <= j < |s.queue| ==> k < s.queue[j])
          && (s.holder.Some? ==> k <= s.holder.value)
        case ToolCancel(_, _, target) =>
          && ((s.calls[k].Running? && s.calls[k].cancel.Asked?) || s.calls[k].Done?)
          && SentBefore(s.wire, i, k, target))
  }

  predicate SentBefore(wire: seq<Frame>, i: nat, k: nat, target: RequestId)
    requires i <= |wire|
  {
    exists j :: 0 <= j < i && wire[j] == ToolCall(k, target)
  }

  /** Later frames: calls go out in order of arrival and only after the earlier ones have ended; ids are never
      reused; a call is cancelled at most once. */
  predicate FramesOrdered(s: State, i: nat, j: nat)
    requires i < j < |s.wire|
  {
    && s.wire[i].id < s.wire[j].id
    && (s.wire[i].ToolCall? && s.wire[j].ToolCall? ==>
          s.wire[i].call < s.wire[j].call && s.wire[i].call < |s.calls| && s.calls[s.wire[i].call].Done?)
    && (s.wire[i].ToolCancel? && s.wire[j].ToolCancel? ==> s.wire[i].call != s.wire[j].call)
  }

  predicate WireOk(s: State) {
    && (forall i :: 0 <= i < |s.wire| ==> FrameOk(s, i))
    && (forall i, j :: 0 <= i < j < |s.wire| ==> FramesOrdered(s, i, j))
  }

  /** An id that was taken and has not gone out. */
  predicate Unsent(s: State, id: RequestId) {
    id < s.nextId && forall i :: 0 <= i < |s.wire| ==> s.wire[i].id < id
  }

  /** An id that was taken and is not in the table yet. */
  predicate Untabled(s: State, id: RequestId) {
    id !in s.pending && id !in s.accepted && id !in s.cleared
  }

  /** A call's mail agrees with the table and the responses. */
  predicate MailOk(s: State, k: nat, id: RequestId, mail: Mail) {
    && (mail.Nothing? ==> id !in s.accepted && id !in s.cleared && id in s.pending && s.pending[id] == Some(k))
    && (mail.Dropped? ==> id !in s.pending && id !in s.accepted && id in s.cleared)
    && (mail.Answer? ==> id !in s.pending && id !in s.cleared && id in s.accepted && s.accepted[id] == mail.reply)
  }

  /** What a call may say about the wire and the responses. */
  predicate CallOk(s: State, k: nat)
    requires k < |s.calls|
  {
    match s.calls[k]
    case Sending(id, stage, mail) =>
      Unsent(s, id) && if stage.Numbered? then mail.Nothing? && Untabled(s, id) else MailOk(s, k, id, mail)
    case Running(id, cancel, mail) =>
      && SentBefore(s.wire, |s.wire|, k, id) && id < s.nextId && MailOk(s, k, id, mail)
      && (cancel.Cancelling? ==>
            Unsent(s, cancel.cancelId) && (cancel.at.Numbered? ==> Untabled(s, cancel.cancelId))
            && (cancel.cancelId in s.pending ==> s.pending[cancel.cancelId].None?))
    case Done(outcome) =>
      && (forall i :: 0 <= i < |s.wire| && IsCallOf(s.wire, i, k) ==> EndedAs(s, s.wire[i].id, outcome))
      && ((forall i :: 0 <= i < |s.wire| ==> !IsCallOf(s.wire, i, k)) ==> EndsUnsent(outcome))
    case _ => true
  }

  /** The frame is the call's `tool.call`. */
  predicate IsCallOf(wire: seq<Frame>, i: int, k: nat) {
    0 <= i < |wire| && wire[i].ToolCall? && wire[i].call == k
  }

  /** What a response means for the call that waited for it. */
  predicate Means(reply: Reply, o: Outcome) {
    match reply
    case Value(v, parses) => o == if parses then Completed(v) else InvalidResult
    case Error(code) => o == if code == -32800 then Cancelled else ClientError(code)
  }

  /** How a call ends that went out under this id: dropped, out of time, by the response to that id, or by a drain. */
  predicate EndedAs(s: State, id: RequestId, o: Outcome) {
    || o.Abandoned?
    || (id !in s.pending && o.TimedOutWhileRunning? && id !in s.accepted && id !in s.cleared)
    || (id !in s.pending && id in s.accepted && id !in s.cleared && Means(s.accepted[id], o))
    || (id !in s.pending && id in s.cleared && id !in s.accepted && o.SessionGone?)
  }

  /** How a call ends that did not go out. */
  predicate EndsUnsent(o: Outcome) {
    || o.CancelledWhileQueued? || o.TimedOutWhileQueued? || o.AbandonedWhileQueued? || o.WriterClosed? || o.SessionGone?
    || o.InvalidResult?
  }

  /** Whose entry it is: a call's that waits for it, or one's that was dropped. */
  predicate EntryOk(s: State, id: RequestId, k: nat) {
    || (Waits(s, k) && s.calls[k].id == id)
    || (k < |s.calls| && s.calls[k] == Done(Abandoned))
  }

  predicate TableOk(s: State) {
    && (forall id :: id in s.pending ==> id < s.nextId && id !in s.accepted && id !in s.cleared)
    && (forall id :: id in s.pending && s.pending[id].Some? ==> EntryOk(s, id, s.pending[id].value))
    && (forall id :: id in s.accepted ==> id < s.nextId)
    && (forall id :: id in s.cleared ==> id < s.nextId)
  }

  predicate Inv(s: State) {
    && PermitOk(s) && QueueOk(s) && WireOk(s) && TableOk(s)
    && forall k :: 0 <= k < |s.calls| ==> CallOk(s, k)
  }

  // ---- Every step keeps the invariant ---------------------------------------------------------

  /** How a call may move on: once on the wire it keeps its id and its cancel mark until it ends, and an end is
      final. */
  predicate MovesOn(p: Phase, q: Phase) {
    && (p.Running? ==>
        (q.Running? && q.id == p.id && (p.cancel.Asked? ==> q.cancel.Asked?)) || (q.Done? && AfterSending(q.outcome)))
    && (p.Done? ==> q == p)
  }

  /** Nobody who waits, or holds the permit, jumps ahead. */
  predicate StaysBehind(s: State, t: State) {
    && (forall i :: 0 <= i < |t.queue| ==> t.queue[i] in s.queue || t.queue[i] >= |s.calls|)
    && (t.holder.Some? ==> t.holder == s.holder || t.holder.value in s.queue || t.holder.value >= |s.calls|)
  }

  predicate AllMoveOn(s: State, t: State) {
    |s.calls| <= |t.calls| && forall k :: 0 <= k < |s.calls| ==> MovesOn(s.calls[k], t.calls[k])
  }

  lemma WireStays(s: State, t: State)
    requires WireOk(s) && AllMoveOn(s, t) && StaysBehind(s, t) && t.wire == s.wire && s.nextId <= t.nextId
    ensures WireOk(t)
  {
    forall i | 0 <= i < |t.wire| ensures FrameOk(t, i) {
      assert FrameOk(s, i);
      assert MovesOn(s.calls[s.wire[i].call], t.calls[s.wire[i].call]);
    }
    forall i, j | 0 <= i < j < |t.wire| ensures FramesOrdered(t, i, j) {
      assert FramesOrdered(s, i, j);
      if s.wire[i].call < |s.calls| { assert MovesOn(s.calls[s.wire[i].call], t.calls[s.wire[i].call]); }
    }
  }

  lemma SentStays(s: State, t: State, k: nat, id: RequestId)
    requires SentBefore(s.wire, |s.wire|, k, id) && s.wire <= t.wire
    ensures SentBefore(t.wire, |t.wire|, k, id)
  {
    var j :| 0 <= j < |s.wire| && s.wire[j] == ToolCall(k, id);
    assert t.wire[j] == s.wire[j];
  }

  /** Between two states nothing happened to ids that were on the wire and out of the table. */
  predicate SettledStays(s: State, t: State) {
    && (forall id :: id in s.accepted ==> id in t.accepted && t.accepted[id] == s.accepted[id])
    && (forall id :: id in t.accepted ==> id in s.accepted || id in s.pending)
    && (forall id :: id in s.cleared ==> id in t.cleared)
    && (forall id :: id in t.cleared ==> id in s.cleared || id in s.pending)
    && (forall i :: 0 <= i < |s.wire| && s.wire[i].id in t.pending ==> s.wire[i].id in s.pending)
  }

  /** A call without an id that did not move stays in order. */
  lemma CallStays(s: State, t: State, k: nat)
    requires k < |s.calls| && k < |t.calls| && CallOk(s, k) && t.calls[k] == s.calls[k] && !HasId(s.calls[k])
    requires s.wire <= t.wire && SettledStays(s, t) && forall i :: IsCallOf(t.wire, i, k) ==> i < |s.wire|
    ensures CallOk(t, k)
  {
    if s.calls[k].Done? {
      forall i | IsCallOf(t.wire, i, k) ensures EndedAs(t, t.wire[i].id, s.calls[k].outcome) {
        assert IsCallOf(s.wire, i, k);
      }
      if i :| IsCallOf(s.wire, i, k) { assert IsCallOf(t.wire, i, k); }
    }
  }

  /** Where the connection did not change, neither did what a call may say about it. */
  lemma SameConnection(s: State, t: State, k: nat)
    requires k < |s.calls| && k < |t.calls| && CallOk(s, k) && t.calls[k] == s.calls[k]
    requires t.wire == s.wire && t.accepted == s.accepted && t.cleared == s.cleared && t.pending == s.pending
    requires t.nextId == s.nextId
    ensures CallOk(t, k)
  {
    if !HasId(s.calls[k]) { CallStays(s, t, k); }
  }

  lemma {:induction false} WithoutIs(queue: seq<nat>, k: nat)
    requires forall i, j :: 0 <= i < j < |queue| ==> queue[i] < queue[j]
    ensures forall x :: x in Without(queue, k) <==> x in queue && x != k
    ensures forall i, j :: 0 <= i < j < |Without(queue, k)| ==> Without(queue, k)[i] < Without(queue, k)[j]
  {
    if queue != [] {
      WithoutIs(queue[1..], k);
      assert queue == [queue[0]] + queue[1..];
      var rest := Without(queue[1..], k);
      assert forall i :: 0 <= i < |rest| ==> rest[i] in rest && rest[i] in queue[1..];
    }
  }

  /** A newcomer ends at once, takes the free permit, or joins the end of the queue. */
  lemma NewcomerKeepsQueue(s: State, t: State, p: Phase)
    requires Inv(s) && t.calls == s.calls + [p]
    requires
      || (p.Done? && t.queue == s.queue && t.holder == s.holder)
      || (p.Admitted? && s.queue == [] && t.queue == [] && t.holder == Some(|s.calls|))
      || (p.Queued? && t.holder == s.holder && t.queue == s.queue + [|s.calls|])
    ensures QueueOk(t)
  {
    forall i | 0 <= i < |s.queue| ensures t.queue[i] == s.queue[i] {}
    forall k | 0 <= k < |t.calls| ensures t.calls[k].Queued? <==> k in t.queue {
      if k < |s.calls| { assert s.calls[k].Queued? <==> k in s.queue; }
    }
  }

  lemma NewcomerKeepsInv(s: State, t: State, p: Phase)
    requires Inv(s) && t == s.(calls := s.calls + [p], queue := t.queue, holder := t.holder)
    requires
      || (p.Done? && EndsUnsent(p.outcome) && t.queue == s.queue && t.holder == s.holder)
      || (p.Admitted? && s.holder.None? && s.queue == [] && t.queue == [] && t.holder == Some(|s.calls|))
      || (p.Queued? && t.holder == s.holder && t.queue == s.queue + [|s.calls|])
    ensures Inv(t)
  {
    forall k | 0 <= k < |s.calls| ensures t.calls[k] == s.calls[k] {}
    NewcomerKeepsQueue(s, t, p);
    WireStays(s, t);
    forall i | 0 <= i < |s.wire| ensures s.wire[i].call < |s.calls| { assert FrameOk(s, i); }
    forall k | 0 <= k < |t.calls| ensures CallOk(t, k) {
      if k < |s.calls| { SameConnection(s, t, k); }
    }
  }

  lemma ArriveKeepsInv(s: State, cancelled: bool, late: bool)
    requires Inv(s)
    ensures Inv(OnArrive(s, cancelled, late))
  {
    var t := OnArrive(s, cancelled, late);
    NewcomerKeepsInv(s, t, t.calls[|s.calls|]);
  }

  /** A call is on the wire only once it runs, and then under its id. */
  lemma NotOnWire(s: State, k: nat)
    requires WireOk(s) && k < |s.calls|
    ensures !s.calls[k].Running? && !s.calls[k].Done? ==> forall i :: !IsCallOf(s.wire, i, k)
    ensures s.calls[k].Running? ==> forall i :: IsCallOf(s.wire, i, k) ==> s.wire[i].id == s.calls[k].id
  {
    forall i | IsCallOf(s.wire, i, k)
      ensures s.calls[k].Done? || (s.calls[k].Running? && s.wire[i].id == s.calls[k].id)
    {
      assert FrameOk(s, i);
    }
  }

  lemma LeftQueueKeepsQueue(s: State, t: State, k: nat, outcome: Outcome)
    requires PermitOk(s) && QueueOk(s) && k < |s.calls| && s.calls[k].Queued?
    requires t == SetPhase(s, k, Done(outcome)).(queue := Without(s.queue, k))
    ensures PermitOk(t) && QueueOk(t) && forall i :: 0 <= i < |t.queue| ==> t.queue[i] in s.queue
  {
    WithoutIs(s.queue, k);
    forall i | 0 <= i < |t.queue| ensures t.queue[i] in s.queue { assert t.queue[i] in t.queue; }
  }

  /** A queued call ends without having gone out. */
  lemma LeftQueueKeepsInv(s: State, t: State, k: nat, outcome: Outcome)
    requires Inv(s) && k < |s.calls| && s.calls[k].Queued? && EndsUnsent(outcome)
    requires t == SetPhase(s, k, Done(outcome)).(queue := Without(s.queue, k))
    ensures Inv(t)
  {
    LeftQueueKeepsQueue(s, t, k, outcome);
    WireStays(s, t);
    NotOnWire(s, k);
    forall l | 0 <= l < |t.calls| ensures CallOk(t, l) {
      if l != k { SameConnection(s, t, l); }
    }
  }

  lemma GrantKeepsQueue(s: State, t: State, k: nat)
    requires PermitOk(s) && QueueOk(s) && s.holder.None? && s.queue != [] && k == s.queue[0]
    requires t == SetPhase(s, k, Admitted).(holder := Some(k), queue := s.queue[1..])
    ensures PermitOk(t) && QueueOk(t) && k in s.queue && forall i :: 0 <= i < |t.queue| ==> t.queue[i] in s.queue
  {
    assert s.queue == [k] + t.queue;
  }

  lemma GrantKeepsInv(s: State)
    requires Inv(s) && s.holder.None? && s.queue != []
    ensures Inv(OnGrant(s))
  {
    var t := OnGrant(s);
    var k := s.queue[0];
    GrantKeepsQueue(s, t, k);
    WireStays(s, t);
    forall l | 0 <= l < |t.calls| ensures CallOk(t, l) {
      if l != k { SameConnection(s, t, l); }
    }
  }

  /** The holder alone moves on. */
  lemma HolderMovesKeepsInv(s: State, t: State, k: nat)
    requires Inv(s) && s.holder == Some(k) && |t.calls| == |s.calls| && t.calls == s.calls[k := t.calls[k]]
    requires t.queue == s.queue && s.wire <= t.wire && SettledStays(s, t)
    requires forall i :: |s.wire| <= i < |t.wire| ==> t.wire[i].call == k
    requires if t.holder.Some? then t.holder == s.holder && HoldsPermit(t.calls[k]) else t.calls[k].Done?
    requires t.inflight == if t.holder.Some? && !t.calls[k].Admitted? then 1 else 0
    requires WireOk(t) && TableOk(t) && CallOk(t, k)
    ensures Inv(t)
  {
    forall l | 0 <= l < |t.calls| && l != k ensures t.calls[l] == s.calls[l] {}
    forall l | 0 <= l < |t.calls| ensures CallOk(t, l) {
      if l != k { CallStays(s, t, l); }
    }
  }

  /** It moves on without touching the wire. */
  lemma HolderMovesQuietly(s: State, t: State, k: nat)
    requires Inv(s) && s.holder == Some(k) && |t.calls| == |s.calls| && t.calls == s.calls[k := t.calls[k]]
    requires MovesOn(s.calls[k], t.calls[k])
    requires t.queue == s.queue && t.wire == s.wire && s.nextId <= t.nextId && SettledStays(s, t)
    requires if t.holder.Some? then t.holder == s.holder && HoldsPermit(t.calls[k]) else t.calls[k].Done?
    requires t.inflight == if t.holder.Some? && !t.calls[k].Admitted? then 1 else 0
    requires TableOk(t) && CallOk(t, k)
    ensures Inv(t)
  {
    forall l | 0 <= l < |t.calls| && l != k ensures t.calls[l] == s.calls[l] {}
    WireStays(s, t);
    HolderMovesKeepsInv(s, t, k);
  }

  /** The table may lose entries, and the holder's own is the one it may still have. */
  lemma TableStays(s: State, t: State, k: nat)
    requires Inv(s) && s.holder == Some(k) && |t.calls| == |s.calls| && t.calls == s.calls[k := t.calls[k]]
    requires s.nextId <= t.nextId && t.accepted == s.accepted && t.cleared == s.cleared
    requires forall id :: id in t.pending ==> id in s.pending && t.pending[id] == s.pending[id]
    requires forall id :: id in t.pending && t.pending[id] == Some(k) ==> EntryOk(t, id, k)
    ensures TableOk(t)
  {
    forall id | id in t.pending && t.pending[id].Some? ensures EntryOk(t, id, t.pending[id].value) {
      assert EntryOk(s, id, s.pending[id].value);
    }
  }

  lemma CheckKeepsInv(s: State, k: nat)
    requires Inv(s) && k < |s.calls| && s.calls[k].Admitted?
    ensures Inv(OnCheck(s, k))
  {
    TableStays(s, OnCheck(s, k), k);
    NotOnWire(s, k);
    HolderMovesQuietly(s, OnCheck(s, k), k);
  }

  lemma BeginCallKeepsInv(s: State, k: nat, serializes: bool)
    requires Inv(s) && k < |s.calls| && s.calls[k].Counted?
    ensures Inv(OnBeginCall(s, k, serializes))
  {
    var t := OnBeginCall(s, k, serializes);
    TableStays(s, t, k);
    NotOnWire(s, k);
    assert CallOk(t, k) by {
      forall i | 0 <= i < |s.wire| ensures s.wire[i].id < s.nextId { assert FrameOk(s, i); }
    }
    HolderMovesQuietly(s, t, k);
  }

  lemma BeginCancelKeepsInv(s: State, k: nat)
    requires Inv(s) && Waits(s, k) && Selects(s, k) && s.calls[k].cancel.Unasked?
    ensures Inv(OnBeginCancel(s, k))
  {
    var t := OnBeginCancel(s, k);
    assert CallOk(s, k);
    TableStays(s, t, k);
    assert CallOk(t, k) by {
      forall i | 0 <= i < |s.wire| ensures s.wire[i].id < s.nextId { assert FrameOk(s, i); }
    }
    HolderMovesQuietly(s, t, k);
  }

  lemma InsertKeepsInv(s: State, k: nat)
    requires Inv(s)
    ensures Inv(OnInsert(s, k))
  {
    var t := OnInsert(s, k);
    if CallAt(s, k, Numbered) || CancelAt(s, k, Numbered) {
      assert CallOk(s, k);
      forall id | id in t.pending && t.pending[id].Some? ensures EntryOk(t, id, t.pending[id].value) {
        if id in s.pending && t.pending[id] == s.pending[id] { assert EntryOk(s, id, s.pending[id].value); }
      }
      HolderMovesQuietly(s, t, k);
    }
  }

  lemma CallSentKeepsWire(s: State, t: State, k: nat)
    requires Inv(s) && CallAt(s, k, Inserted)
    requires t == SetPhase(s, k, Running(s.calls[k].id, Unasked, s.calls[k].mail)).(
                    wire := s.wire + [ToolCall(k, s.calls[k].id)])
    ensures WireOk(t)
  {
    var n := |s.wire|;
    assert CallOk(s, k);
    forall i | 0 <= i < n ensures FrameOk(t, i) && FramesOrdered(t, i, n) {
      assert FrameOk(s, i);
      assert s.holder == Some(k);
      if s.wire[i].ToolCancel? {
        var j :| 0 <= j < i && s.wire[j] == ToolCall(s.wire[i].call, s.wire[i].target);
        assert t.wire[j] == s.wire[j];
      }
    }
    forall i, j | 0 <= i < j < n ensures FramesOrdered(t, i, j) {
      assert FramesOrdered(s, i, j);
      assert FrameOk(s, i);
    }
    assert FrameOk(t, n);
  }

  lemma CancelSentKeepsWire(s: State, t: State, k: nat)
    requires Inv(s) && CancelAt(s, k, Inserted)
    requires t == WithCancel(s, k, Asked).(wire := s.wire + [ToolCancel(k, s.calls[k].cancel.cancelId, s.calls[k].id)])
    ensures WireOk(t)
  {
    var n := |s.wire|;
    assert CallOk(s, k);
    forall i | 0 <= i < n ensures FrameOk(t, i) && FramesOrdered(t, i, n) {
      assert FrameOk(s, i);
      if s.wire[i].ToolCancel? {
        var j :| 0 <= j < i && s.wire[j] == ToolCall(s.wire[i].call, s.wire[i].target);
        assert t.wire[j] == s.wire[j];
      }
    }
    forall i, j | 0 <= i < j < n ensures FramesOrdered(t, i, j) {
      assert FramesOrdered(s, i, j);
      assert FrameOk(s, i);
    }
    var j :| 0 <= j < |s.wire| && s.wire[j] == ToolCall(k, s.calls[k].id);
    assert t.wire[j] == s.wire[j];
    assert FrameOk(t, n);
  }

  lemma CallSentKeepsInv(s: State, k: nat, writerUp: bool)
    requires Inv(s) && CallAt(s, k, Inserted)
    ensures Inv(OnSend(s, k, writerUp))
  {
    var t := OnSend(s, k, writerUp);
    assert CallOk(s, k);
    TableStays(s, t, k);
    if t.wire == s.wire {
      HolderMovesQuietly(s, t, k);
    } else {
      CallSentKeepsWire(s, t, k);
      assert t.wire[|s.wire|] == ToolCall(k, s.calls[k].id);
      HolderMovesKeepsInv(s, t, k);
    }
  }

  lemma CancelSentKeepsInv(s: State, k: nat, writerUp: bool)
    requires Inv(s) && CancelAt(s, k, Inserted)
    ensures Inv(OnSend(s, k, writerUp))
  {
    var t := OnSend(s, k, writerUp);
    assert CallOk(s, k);
    TableStays(s, t, k);
    SentStays(s, t, k, s.calls[k].id);
    if t.wire == s.wire {
      HolderMovesQuietly(s, t, k);
    } else {
      CancelSentKeepsWire(s, t, k);
      HolderMovesKeepsInv(s, t, k);
    }
  }

  lemma CleanupKeepsInv(s: State, k: nat)
    requires Inv(s)
    ensures Inv(OnCleanup(s, k))
  {
    var t := OnCleanup(s, k);
    if CallAt(s, k, Failing) || CancelAt(s, k, Failing) {
      assert CallOk(s, k);
      NotOnWire(s, k);
      TableStays(s, t, k);
      HolderMovesQuietly(s, t, k);
    }
  }

  lemma ReceiveKeepsInv(s: State, k: nat)
    requires Inv(s) && Selects(s, k) && !Waits(s, k)
    ensures Inv(Next(s, Receive(k)))
  {
    var t := Next(s, Receive(k));
    assert CallOk(s, k);
    var j :| 0 <= j < |s.wire| && s.wire[j] == ToolCall(k, s.calls[k].id);
    assert IsCallOf(t.wire, j, k);
    NotOnWire(s, k);
    TableStays(s, t, k);
    HolderMovesQuietly(s, t, k);
  }

  lemma TimeoutKeepsInv(s: State, k: nat)
    requires Inv(s) && Waits(s, k) && Selects(s, k)
    ensures Inv(Next(s, TimeoutRunning(k)))
  {
    var t := Next(s, TimeoutRunning(k));
    assert CallOk(s, k);
    var j :| 0 <= j < |s.wire| && s.wire[j] == ToolCall(k, s.calls[k].id);
    assert IsCallOf(t.wire, j, k);
    NotOnWire(s, k);
    TableStays(s, t, k);
    HolderMovesQuietly(s, t, k);
  }

  lemma DroppedHolderKeepsInv(s: State, k: nat)
    requires Inv(s) && k < |s.calls| && (s.calls[k].Admitted? || Selects(s, k))
    ensures Inv(OnAbandon(s, k))
  {
    var t := OnAbandon(s, k);
    assert CallOk(s, k);
    NotOnWire(s, k);
    if s.calls[k].Running? {
      var j :| 0 <= j < |s.wire| && s.wire[j] == ToolCall(k, s.calls[k].id);
      assert IsCallOf(t.wire, j, k);
    }
    TableStays(s, t, k);
    HolderMovesQuietly(s, t, k);
  }

  lemma AbandonKeepsInv(s: State, k: nat)
    requires Inv(s)
    ensures Inv(OnAbandon(s, k))
  {
    if k < |s.calls| && s.calls[k].Queued? {
      LeftQueueKeepsInv(s, OnAbandon(s, k), k, AbandonedWhileQueued);
    } else if k < |s.calls| && (s.calls[k].Admitted? || Selects(s, k)) {
      DroppedHolderKeepsInv(s, k);
    }
  }

  lemma AnsweredKeepsInv(s: State, id: RequestId, reply: Reply, k: nat)
    requires Inv(s) && id in s.pending && s.pending[id] == Some(k) && Waits(s, k)
    ensures Inv(OnRespond(s, id, reply))
  {
    var t := OnRespond(s, id, reply);
    assert CallOk(s, k) && EntryOk(s, id, k);
    forall other | other in t.pending && t.pending[other].Some? ensures EntryOk(t, other, t.pending[other].value) {
      assert EntryOk(s, other, s.pending[other].value);
    }
    HolderMovesQuietly(s, t, k);
  }

  /** The response to a `tool.cancel`, or to a call that was dropped, only leaves the table. */
  lemma UnawaitedKeepsInv(s: State, id: RequestId, reply: Reply)
    requires Inv(s) && id in s.pending && (s.pending[id].None? || !Waits(s, s.pending[id].value))
    ensures Inv(OnRespond(s, id, reply))
  {
    var t := OnRespond(s, id, reply);
    WireStays(s, t);
    forall other | other in t.pending && t.pending[other].Some? ensures EntryOk(t, other, t.pending[other].value) {
      assert EntryOk(s, other, s.pending[other].value);
    }
    forall l | 0 <= l < |t.calls| ensures CallOk(t, l) {
      assert CallOk(s, l);
      if !HasId(s.calls[l]) { CallStays(s, t, l); }
    }
  }

  lemma RespondKeepsInv(s: State, id: RequestId, reply: Reply)
    requires Inv(s) && id in s.pending
    ensures Inv(OnRespond(s, id, reply))
  {
    if s.pending[id].Some? && Waits(s, s.pending[id].value) {
      AnsweredKeepsInv(s, id, reply, s.pending[id].value);
    } else {
      UnawaitedKeepsInv(s, id, reply);
    }
  }

  /** A call whose entry a drain clears has its mail. */
  lemma ClearedCallOk(s: State, l: nat)
    requires Inv(s) && !s.active && l < |s.calls|
    ensures CallOk(Next(s, DrainClear), l)
  {
    assert CallOk(s, l);
    if !HasId(s.calls[l]) { CallStays(s, Next(s, DrainClear), l); }
  }

  lemma ClearKeepsInv(s: State)
    requires Inv(s) && !s.active
    ensures Inv(Next(s, DrainClear))
  {
    var t := Next(s, DrainClear);
    WireStays(s, t);
    forall l | 0 <= l < |t.calls| ensures CallOk(t, l) { ClearedCallOk(s, l); }
  }

  /** Flags alone change. */
  lemma FlagsKeepInv(s: State, t: State)
    requires Inv(s) && t == s.(drained := t.drained, active := t.active, sender := t.sender)
    ensures Inv(t)
  {
    WireStays(s, t);
    forall id | id in t.pending && t.pending[id].Some? ensures EntryOk(t, id, t.pending[id].value) {
      assert EntryOk(s, id, s.pending[id].value);
    }
    forall l | 0 <= l < |t.calls| ensures CallOk(t, l) { SameConnection(s, t, l); }
  }

  lemma QueueStepKeepsInv(s: State, step: Step)
    requires Inv(s) && (step.Arrive? || step.LeaveQueue? || step.Grant? || step.Check? || step.Abandon?)
    ensures Inv(Next(s, step))
  {
    match step {
      case Arrive(cancelled, late) => ArriveKeepsInv(s, cancelled, late);
      case LeaveQueue(k, timedOut) =>
        if k < |s.calls| && s.calls[k].Queued? {
          LeftQueueKeepsInv(s, Next(s, step), k, if timedOut then TimedOutWhileQueued else CancelledWhileQueued);
        }
      case Grant => if s.holder.None? && s.queue != [] { GrantKeepsInv(s); }
      case Check(k) => if k < |s.calls| && s.calls[k].Admitted? { CheckKeepsInv(s, k); }
      case Abandon(k) => AbandonKeepsInv(s, k);
    }
  }

  lemma SendKeepsInv(s: State, k: nat, writerUp: bool)
    requires Inv(s)
    ensures Inv(OnSend(s, k, writerUp))
  {
    if CallAt(s, k, Inserted) {
      CallSentKeepsInv(s, k, writerUp);
    } else if CancelAt(s, k, Inserted) {
      CancelSentKeepsInv(s, k, writerUp);
    }
  }

  lemma DispatchStepKeepsInv(s: State, step: Step)
    requires Inv(s) && (step.BeginCall? || step.BeginCancel? || step.Insert? || step.Send? || step.Cleanup?)
    ensures Inv(Next(s, step))
  {
    match step {
      case BeginCall(k, serializes) =>
        if k < |s.calls| && s.calls[k].Counted? { BeginCallKeepsInv(s, k, serializes); }
      case BeginCancel(k) =>
        if Waits(s, k) && Selects(s, k) && s.calls[k].cancel.Unasked? { BeginCancelKeepsInv(s, k); }
      case Insert(k) => InsertKeepsInv(s, k);
      case Send(k, writerUp) => SendKeepsInv(s, k, writerUp);
      case Cleanup(k) => CleanupKeepsInv(s, k);
    }
  }

  lemma WaitStepKeepsInv(s: State, step: Step)
    requires Inv(s) && (step.TimeoutRunning? || step.Receive? || step.Respond?)
    ensures Inv(Next(s, step))
  {
    match step {
      case TimeoutRunning(k) => if Waits(s, k) && Selects(s, k) { TimeoutKeepsInv(s, k); }
      case Receive(k) => if Selects(s, k) && !Waits(s, k) { ReceiveKeepsInv(s, k); }
      case Respond(id, reply) => if id in s.pending { RespondKeepsInv(s, id, reply); }
    }
  }

  lemma DrainStepKeepsInv(s: State, step: Step)
    requires Inv(s) && (step.DrainDispatcher? || step.DrainStore? || step.DrainClear? || step.DrainTake?)
    ensures Inv(Next(s, step))
  {
    if step.DrainClear? {
      if !s.active { ClearKeepsInv(s); }
    } else {
      FlagsKeepInv(s, Next(s, step));
    }
  }

  lemma StepKeepsInv(s: State, step: Step)
    requires Inv(s)
    ensures Inv(Next(s, step))
  {
    if step.Arrive? || step.LeaveQueue? || step.Grant? || step.Check? || step.Abandon? {
      QueueStepKeepsInv(s, step);
    } else if step.BeginCall? || step.BeginCancel? || step.Insert? || step.Send? || step.Cleanup? {
      DispatchStepKeepsInv(s, step);
    } else if step.TimeoutRunning? || step.Receive? || step.Respond? {
      WaitStepKeepsInv(s, step);
    } else {
      DrainStepKeepsInv(s, step);
    }
  }

  /** The invariant holds after every schedule. */
  lemma {:induction false} RunKeepsInv(steps: seq<Step>)
    ensures Inv(Run(steps))
  {
    if steps != [] {
      RunKeepsInv(steps[..|steps| - 1]);
      StepKeepsInv(Run(steps[..|steps| - 1]), steps[|steps| - 1]);
    }
  }
}
