/** The stdio adapter's calls: one at a time, each answered at most once, each cancelled in the SDK at most once.
    A step is what runs between two awaits. */
module Adapter {
  import opened Basics

  datatype Phase = Created | Started | Invoking | TimingOut | Finishing | Done

  /** A pending call. `invoked` and `issued` tell whether it called the SDK and whether its own SDK request went out;
      `terminalSent` that its answer is taken in hand, by its task or by a handler, which is before the answer is sent;
      `unwinding` that its task was cancelled, `dropped` that its wait was cancelled from inside, and `lost` that the
      answer in hand was never sent. */
  datatype Entry = Entry(
    ws: string, phase: Phase, sdk: Option<nat>, invoked: bool, issued: bool, cancelRequested: bool, cancelSent: bool,
    terminalSent: bool, unwinding: bool, dropped: bool, lost: bool)

  function NewCall(ws: string): Entry {
    Entry(ws, Created, None, false, false, false, false, false, false, false, false)
  }

  datatype Task = Call(entry: nat) | LateCancel(entry: nat)

  /** Who waits for the send lock or in the send, with an answer: the call's task, a handler of its entry, or the reader
      with the refusal of a frame. */
  datatype Sender = ByCall(entry: nat) | ByHandler(entry: nat) | Refusal(ws: string)

  /** `cancelling`, `sweeping` and `ending` hold entries that a handler still has in hand across an await; `waiting` the
      answers in hand and not sent; `wire` the request ids answered; `cancels` the SDK cancellations sent, with the
      entry; `owner` the entry that issued each SDK id, and `late` the ids issued after their call had finished. */
  datatype State = State(
    entries: seq<Entry>, pending: map<string, nat>, tasks: set<Task>, queue: seq<nat>, shutdown: bool,
    cancelling: set<nat>, sweeping: set<nat>, ending: set<nat>, arrived: set<string>, waiting: set<Sender>,
    wire: seq<string>, cancels: seq<(nat, nat)>, owner: map<nat, nat>, late: set<nat>)

  const START := State([], map[], {}, [], false, {}, {}, {}, {}, {}, [], [], map[], {})

  function With(s: State, i: nat, e: Entry): (t: State)
    requires i < |s.entries|
    ensures |t.entries| == |s.entries|
  {
    s.(entries := s.entries[i := e])
  }

  function InPhase(s: State, i: nat, phase: Phase): (t: State)
    requires i < |s.entries|
    ensures |t.entries| == |s.entries|
  {
    With(s, i, s.entries[i].(phase := phase))
  }

  /** `_terminal` up to its first await, and the same for a call that returned: once per entry. */
  function Marked(s: State, i: nat, sender: Sender): (t: State)
    requires i < |s.entries|
    ensures |t.entries| == |s.entries|
  {
    if s.entries[i].terminalSent then s
    else With(s, i, s.entries[i].(terminalSent := true)).(waiting := s.waiting + {sender})
  }

  /** `_send_sdk_cancel`: only with a known SDK id, and once. */
  function SdkCancelled(s: State, i: nat): (t: State)
    requires i < |s.entries|
    ensures |t.entries| == |s.entries|
  {
    var e := s.entries[i];
    if e.sdk.None? || e.cancelSent then s
    else With(s, i, e.(cancelSent := true)).(cancels := s.cancels + [(i, e.sdk.value)])
  }

  function Requested(s: State, i: nat): (t: State)
    requires i < |s.entries|
    ensures |t.entries| == |s.entries|
  {
    With(s, i, s.entries[i].(cancelRequested := true))
  }

  function Unwound(s: State, i: nat): (t: State)
    requires i < |s.entries|
    ensures |t.entries| == |s.entries|
  {
    With(s, i, s.entries[i].(unwinding := true))
  }

  datatype Step =
    | CallFrame(ws: string)
    | Begin(i: nat)
    | Raise(i: nat)
    | Invoke(i: nat)
    | Issue(i: nat, id: nat)
    | Return(i: nat)
    | TimeOut(i: nat)
    | TimedOut(i: nat)
    | Unwind(i: nat)
    | Drop(i: nat)
    | Send(sender: Sender)
    | Lose(sender: Sender, socketFails: bool)   // the sender is cancelled before it sends, or its send raises
    | Finish(i: nat)
    | Reap(i: nat)
    | RunLateCancel(i: nat)
    | CancelFrame(ws: string)
    | CancelEnd(i: nat)
    | Shutdown
    | SweepEntry(i: nat)
    | TransportEnd
    | EndEntry(i: nat)

  predicate At(s: State, i: nat, phases: set<Phase>) {
    i < |s.entries| && s.entries[i].phase in phases
  }

  predicate Known(s: State, x: Sender) {
    x.Refusal? || x.entry < |s.entries|
  }

  /** Request ids are distinct and an SDK id is new. A task that is cancelled loses its answer only while it is still to
      be sent; a handler or the reader may be cancelled at any time, by the deadline of a cleanup. */
  predicate Enabled(s: State, step: Step) {
    match step
    case CallFrame(ws) => ws !in s.arrived
    case Begin(i) => At(s, i, {Created})
    case Raise(i) => At(s, i, {Started, Invoking})
    case Invoke(i) => At(s, i, {Started})
    case Issue(i, id) => i < |s.entries| && s.entries[i].invoked && !s.entries[i].issued && id !in s.owner
    case Return(i) => At(s, i, {Invoking})
    case TimeOut(i) => At(s, i, {Invoking})
    case TimedOut(i) => At(s, i, {TimingOut})
    case Unwind(i) => At(s, i, {Started, Invoking, TimingOut}) && s.entries[i].unwinding
    case Drop(i) => At(s, i, {Started, Invoking})
    case Send(x) => x in s.waiting && Known(s, x)
    case Lose(x, socketFails) =>
      x in s.waiting && Known(s, x) && (x.ByCall? && !socketFails ==> s.entries[x.entry].unwinding)
    case Finish(i) => At(s, i, {Finishing}) && ByCall(i) !in s.waiting
    case Reap(i) => At(s, i, {Done})
    case RunLateCancel(i) => i < |s.entries| && LateCancel(i) in s.tasks
    case CancelFrame(ws) => ws in s.pending && s.pending[ws] < |s.entries|
    case CancelEnd(i) => i in s.cancelling && i < |s.entries|
    case Shutdown => !s.shutdown
    case SweepEntry(i) => i in s.sweeping && i < |s.entries|
    case TransportEnd => true
    case EndEntry(i) => i in s.ending && i < |s.entries|
  }

  /** A call while another is pending, a task runs or the route shuts down is refused; otherwise its task is made. */
  function Arrive(s: State, ws: string): State {
    if s.pending != map[] || s.tasks != {} || s.shutdown then
      s.(waiting := s.waiting + {Refusal(ws)}, arrived := s.arrived + {ws})
    else s.(entries := s.entries + [NewCall(ws)], tasks := {Call(|s.entries|)}, arrived := s.arrived + {ws})
  }

  /** `_on_sdk_call_id`: the head of the capture queue takes the id; a call already asked to cancel is cancelled by a
      task of its own. */
  function Captured(s: State, id: nat): (t: State)
    ensures |t.entries| == |s.entries|
  {
    if s.queue == [] || s.queue[0] >= |s.entries| then s
    else
      var h := s.queue[0];
      var t := With(s, h, s.entries[h].(sdk := Some(id))).(queue := s.queue[1..]);
      if s.entries[h].cancelRequested then t.(tasks := s.tasks + {LateCancel(h)}) else t
  }

  /** The SDK request of call `i` goes out under `id`. */
  function GoesOut(s: State, i: nat, id: nat): (t: State)
    requires i < |s.entries|
    ensures |t.entries| == |s.entries|
  {
    With(s, i, s.entries[i].(issued := true)).(
      owner := s.owner[id := i], late := s.late + if s.entries[i].phase.Done? then {id} else {})
  }

  function WsOf(s: State, x: Sender): string
    requires Known(s, x)
  {
    if x.Refusal? then x.ws else s.entries[x.entry].ws
  }

  function Lost(s: State, x: Sender): (t: State)
    requires Known(s, x)
    ensures |t.entries| == |s.entries|
  {
    var t := s.(waiting := s.waiting - {x});
    if x.Refusal? then t else With(t, x.entry, s.entries[x.entry].(lost := true))
  }

  function RemoveFirst(queue: seq<nat>, i: nat): seq<nat> {
    if queue == [] then [] else if queue[0] == i then queue[1..] else [queue[0]] + RemoveFirst(queue[1..], i)
  }

  function Values(pending: map<string, nat>): set<nat> {
    set ws | ws in pending :: pending[ws]
  }

  function Next(s: State, step: Step): State
    requires Enabled(s, step)
  {
    match step
    case CallFrame(ws) => Arrive(s, ws)
    case Begin(i) => InPhase(s, i, Started).(pending := s.pending[s.entries[i].ws := i])
    case Raise(i) => Marked(InPhase(s, i, Finishing), i, ByCall(i))
    case Invoke(i) => With(s, i, s.entries[i].(phase := Invoking, invoked := true)).(queue := s.queue + [i])
    case Issue(i, id) => Captured(GoesOut(s, i, id), id)
    case Return(i) => Marked(InPhase(s, i, Finishing), i, ByCall(i))
    case TimeOut(i) => SdkCancelled(Requested(InPhase(s, i, TimingOut), i), i)
    case TimedOut(i) => Marked(InPhase(s, i, Finishing), i, ByCall(i))
    case Unwind(i) => InPhase(s, i, Finishing)
    case Drop(i) => With(s, i, s.entries[i].(phase := Finishing, dropped := true))
    case Send(x) => s.(waiting := s.waiting - {x}, wire := s.wire + [WsOf(s, x)])
    case Lose(x, _) => Lost(s, x)
    case Finish(i) => InPhase(s, i, Done).(pending := s.pending - {s.entries[i].ws}, queue := RemoveFirst(s.queue, i))
    case Reap(i) => s.(tasks := s.tasks - {Call(i)})
    case RunLateCancel(i) => SdkCancelled(s, i).(tasks := s.tasks - {LateCancel(i)})
    case CancelFrame(ws) =>
      SdkCancelled(Requested(s, s.pending[ws]), s.pending[ws]).(cancelling := s.cancelling + {s.pending[ws]})
    case CancelEnd(i) => Marked(Unwound(s, i), i, ByHandler(i)).(cancelling := s.cancelling - {i})
    case Shutdown => s.(shutdown := true, sweeping := s.sweeping + Values(s.pending))
    case SweepEntry(i) =>
      SdkCancelled(Requested(s, i), i).(sweeping := s.sweeping - {i}, cancelling := s.cancelling + {i})
    case TransportEnd => s.(ending := s.ending + Values(s.pending))
    case EndEntry(i) => Marked(Unwound(Requested(s, i), i), i, ByHandler(i)).(ending := s.ending - {i})
  }

  /** A run from the start; a step that is not enabled does not happen. */
  function Run(steps: seq<Step>): State {
    if steps == [] then START
    else
      var s, step := Run(steps[..|steps| - 1]), steps[|steps| - 1];
      if Enabled(s, step) then Next(s, step) else s
  }

  // ---- The invariant --------------------------------------------------------------------------------

  /** One entry's flags; a captured SDK id is its own exactly when it did not go out late. */
  predicate FlagsOk(e: Entry, i: nat, owner: map<nat, nat>, late: set<nat>) {
    && (e.sdk.Some? ==> e.sdk.value in owner && (owner[e.sdk.value] == i <==> e.sdk.value !in late))
    && (e.cancelSent ==> e.sdk.Some? && e.cancelRequested)
    && (e.unwinding ==> e.terminalSent)
    && (e.phase in {Finishing, Done} ==> e.terminalSent || e.dropped)
    && (e.phase in {Created, Started} ==> !e.invoked)
    && (!e.invoked ==> !e.issued && e.sdk.None?)
  }

  predicate FlagsAll(s: State) {
    forall i :: 0 <= i < |s.entries| ==> FlagsOk(s.entries[i], i, s.owner, s.late)
  }

  /** At most one call is under way, and it has its task. */
  predicate OneLive(s: State) {
    && (forall i :: 0 <= i < |s.entries| && s.entries[i].phase != Done ==> Call(i) in s.tasks)
    && (forall i, j :: 0 <= i < j < |s.entries| ==> s.entries[i].phase == Done || s.entries[j].phase == Done)
  }

  /** The capture queue holds at most the call under way, without an id. */
  predicate QueueOk(s: State) {
    && |s.queue| <= 1
    && (s.queue != [] ==>
          && At(s, s.queue[0], {Invoking, TimingOut, Finishing})
          && s.entries[s.queue[0]].sdk.None? && s.entries[s.queue[0]].invoked)
  }

  predicate PendingOk(s: State) {
    forall ws :: ws in s.pending ==>
      At(s, s.pending[ws], {Started, Invoking, TimingOut, Finishing}) && s.entries[s.pending[ws]].ws == ws
  }

  /** Frames that were answered or accepted arrived, and accepted ones have ids of their own. */
  predicate IdsOk(s: State) {
    && Distinct(s.wire)
    && (forall k :: 0 <= k < |s.wire| ==> s.wire[k] in s.arrived)
    && (forall i :: 0 <= i < |s.entries| ==> s.entries[i].ws in s.arrived)
    && (forall i, j :: 0 <= i < j < |s.entries| ==> s.entries[i].ws != s.entries[j].ws)
  }

  /** An answer in hand is of a frame that is not answered yet, and nobody else has it. */
  predicate SenderOk(s: State, x: Sender) {
    match x
    case Refusal(ws) => ws in s.arrived && ws !in s.wire && forall i :: 0 <= i < |s.entries| ==> s.entries[i].ws != ws
    case ByCall(i) => i < |s.entries| && InHand(s, i) && s.entries[i].phase == Finishing && ByHandler(i) !in s.waiting
    case ByHandler(i) => i < |s.entries| && InHand(s, i)
  }

  predicate InHand(s: State, i: nat)
    requires i < |s.entries|
  {
    s.entries[i].terminalSent && !s.entries[i].lost && s.entries[i].ws !in s.wire
  }

  predicate SendersOk(s: State) {
    forall x :: x in s.waiting ==> SenderOk(s, x)
  }

  /** An answer taken in hand was sent, was lost, or is still in hand; and no other was sent. */
  predicate AnswerOk(s: State, i: nat)
    requires i < |s.entries|
  {
    && (s.entries[i].ws in s.wire ==> s.entries[i].terminalSent && !s.entries[i].lost)
    && (s.entries[i].lost ==> s.entries[i].terminalSent)
    && (s.entries[i].terminalSent ==>
          s.entries[i].ws in s.wire || s.entries[i].lost || ByCall(i) in s.waiting || ByHandler(i) in s.waiting)
  }

  predicate AnswersOk(s: State) {
    forall i :: 0 <= i < |s.entries| ==> AnswerOk(s, i)
  }

  predicate CancelsOk(s: State) {
    && (forall k :: 0 <= k < |s.cancels| ==>
          s.cancels[k].0 < |s.entries| && s.entries[s.cancels[k].0].cancelSent
              && s.entries[s.cancels[k].0].sdk == Some(s.cancels[k].1))
    && (forall j, k :: 0 <= j < k < |s.cancels| ==> s.cancels[j].0 != s.cancels[k].0)
  }

  predicate LateIdsOk(s: State) {
    forall id :: id in s.late ==> id in s.owner
  }

  ghost predicate LateOk(s: State) {
    forall i: nat :: LateCancel(i) in s.tasks ==> i < |s.entries| && s.entries[i].cancelRequested
  }

  /** What concerns calls and the SDK. */
  ghost predicate CallsOk(s: State) {
    FlagsAll(s) && OneLive(s) && QueueOk(s) && PendingOk(s) && CancelsOk(s) && LateIdsOk(s) && LateOk(s)
  }

  /** What concerns answers. */
  predicate WireOk(s: State) {
    IdsOk(s) && SendersOk(s) && AnswersOk(s)
  }

  ghost predicate Inv(s: State) {
    CallsOk(s) && WireOk(s)
  }

  // ---- Answers ------------------------------------------------------------------------------------------

  /** An answer is taken in hand, by somebody. */
  lemma MarkedWire(s: State, t: State, i: nat, x: Sender)
    requires WireOk(s) && i < |s.entries| == |t.entries| && !s.entries[i].terminalSent
    requires x == ByHandler(i) || (x == ByCall(i) && t.entries[i].phase == Finishing)
    requires t.entries[i] == s.entries[i].(terminalSent := true, phase := t.entries[i].phase,
        unwinding := t.entries[i].unwinding)
    requires forall j :: 0 <= j < |s.entries| && j != i ==> t.entries[j] == s.entries[j]
    requires t.waiting == s.waiting + {x} && t.wire == s.wire && t.arrived == s.arrived
    ensures WireOk(t)
  {
    assert ByCall(i) !in s.waiting && ByHandler(i) !in s.waiting by {
      assert ByCall(i) in s.waiting ==> SenderOk(s, ByCall(i));
      assert ByHandler(i) in s.waiting ==> SenderOk(s, ByHandler(i));
    }
    assert AnswerOk(s, i) && !s.entries[i].lost;
    forall y | y in t.waiting ensures SenderOk(t, y) {
      if y in s.waiting { assert SenderOk(s, y); }
    }
    forall j | 0 <= j < |t.entries| ensures AnswerOk(t, j) { assert AnswerOk(s, j); }
  }

  /** Nothing about answers changes. */
  lemma WireStays(s: State, t: State)
    requires WireOk(s) && |s.entries| == |t.entries| && t.waiting == s.waiting && t.wire == s.wire
        && t.arrived == s.arrived
    requires forall j :: 0 <= j < |s.entries| ==> SameAnswer(s, s.entries[j], t.entries[j], j)
    ensures WireOk(t)
  {
    forall x | x in t.waiting ensures SenderOk(t, x) {
      assert SenderOk(s, x);
      if !x.Refusal? { assert SameAnswer(s, s.entries[x.entry], t.entries[x.entry], x.entry); }
    }
    forall j | 0 <= j < |t.entries| ensures AnswerOk(t, j) {
      assert AnswerOk(s, j) && SameAnswer(s, s.entries[j], t.entries[j], j);
    }
  }

  predicate SameAnswer(s: State, e: Entry, f: Entry, j: nat) {
    && f.ws == e.ws && f.terminalSent == e.terminalSent && f.lost == e.lost
    && (ByCall(j) in s.waiting && e.phase == Finishing ==> f.phase == Finishing)
  }

  lemma SentWire(s: State, x: Sender)
    requires WireOk(s) && x in s.waiting && Known(s, x)
    ensures WireOk(s.(waiting := s.waiting - {x}, wire := s.wire + [WsOf(s, x)]))
  {
    var t := s.(waiting := s.waiting - {x}, wire := s.wire + [WsOf(s, x)]);
    assert SenderOk(s, x);
    forall y | y in t.waiting ensures SenderOk(t, y) {
      assert SenderOk(s, y);
      OtherSender(s, x, y);
    }
    forall j | 0 <= j < |t.entries| ensures AnswerOk(t, j) {
      assert AnswerOk(s, j);
      if !x.Refusal? && x.entry != j { assert s.entries[x.entry].ws != s.entries[j].ws; }
      assert t.wire[|s.wire|] == WsOf(s, x);
    }
  }

  /** Two answers in hand are to two frames. */
  lemma OtherSender(s: State, x: Sender, y: Sender)
    requires IdsOk(s) && SenderOk(s, x) && SenderOk(s, y) && x in s.waiting && y in s.waiting && x != y
    ensures WsOf(s, x) != WsOf(s, y)
  {
    if !x.Refusal? && !y.Refusal? && x.entry != y.entry { assert s.entries[x.entry].ws != s.entries[y.entry].ws; }
  }

  lemma LostWire(s: State, x: Sender)
    requires WireOk(s) && x in s.waiting && Known(s, x)
    ensures WireOk(Lost(s, x))
  {
    var t := Lost(s, x);
    assert SenderOk(s, x);
    forall y | y in t.waiting ensures SenderOk(t, y) {
      assert SenderOk(s, y);
      OtherSender(s, x, y);
    }
    forall j | 0 <= j < |t.entries| ensures AnswerOk(t, j) { assert AnswerOk(s, j); }
  }

  lemma RefusedWire(s: State, ws: string)
    requires WireOk(s) && ws !in s.arrived
    ensures WireOk(s.(waiting := s.waiting + {Refusal(ws)}, arrived := s.arrived + {ws}))
  {
    var t := s.(waiting := s.waiting + {Refusal(ws)}, arrived := s.arrived + {ws});
    assert ws !in s.wire;
    forall y | y in t.waiting ensures SenderOk(t, y) { if y in s.waiting { assert SenderOk(s, y); } }
    forall j | 0 <= j < |t.entries| ensures AnswerOk(t, j) { assert AnswerOk(s, j); }
  }

  lemma AcceptedWire(s: State, t: State, ws: string)
    requires WireOk(s) && ws !in s.arrived && t.wire == s.wire && t.arrived == s.arrived + {ws}
        && t.waiting == s.waiting
    requires t.entries == s.entries + [NewCall(ws)]
    ensures WireOk(t)
  {
    var n := |s.entries|;
    assert ws !in s.wire;
    assert forall j :: 0 <= j < n ==> t.entries[j] == s.entries[j];
    forall y | y in t.waiting ensures SenderOk(t, y) { assert SenderOk(s, y); }
    forall j | 0 <= j < |t.entries| ensures AnswerOk(t, j) { if j < n { assert AnswerOk(s, j); } }
  }

  // ---- Calls --------------------------------------------------------------------------------------------

  /** A change of one entry that keeps its SDK id, and moves it on only while it is under way. */
  predicate Harmless(s: State, i: nat, e: Entry) {
    && i < |s.entries|
    && e.ws == s.entries[i].ws && e.sdk == s.entries[i].sdk && e.cancelSent == s.entries[i].cancelSent
    && e.invoked == s.entries[i].invoked
    && (s.entries[i].cancelRequested ==> e.cancelRequested)
    && FlagsOk(e, i, s.owner, s.late)
    && (s.entries[i].phase == e.phase
        || (e.phase in {TimingOut, Finishing} && s.entries[i].phase in {Started, Invoking, TimingOut}))
  }

  /** Parts of the state that calls do not depend on. */
  predicate SameCalls(s: State, t: State) {
    && t.pending == s.pending && t.tasks == s.tasks && t.queue == s.queue && t.cancels == s.cancels
    && t.owner == s.owner && t.late == s.late
  }

  lemma EntryChanged(s: State, t: State, i: nat)
    requires CallsOk(s) && i < |s.entries| == |t.entries| && Harmless(s, i, t.entries[i]) && SameCalls(s, t)
    requires t.entries == s.entries[i := t.entries[i]]
    ensures CallsOk(t)
  {
    forall j | 0 <= j < |t.entries| ensures FlagsOk(t.entries[j], j, t.owner, t.late) {
      assert FlagsOk(s.entries[j], j, s.owner, s.late);
    }
  }

  lemma SameEntriesCalls(s: State, t: State)
    requires CallsOk(s) && t.entries == s.entries && SameCalls(s, t)
    ensures CallsOk(t)
  {
    forall j | 0 <= j < |t.entries| ensures FlagsOk(t.entries[j], j, t.owner, t.late) {
      assert FlagsOk(s.entries[j], j, s.owner, s.late);
    }
  }

  lemma RequestedInv(s: State, i: nat)
    requires Inv(s) && i < |s.entries|
    ensures Inv(Requested(s, i))
  {
    var t := Requested(s, i);
    assert FlagsOk(s.entries[i], i, s.owner, s.late);
    EntryChanged(s, t, i);
    WireStays(s, t);
  }

  lemma SdkCancelledInv(s: State, i: nat)
    requires Inv(s) && i < |s.entries| && s.entries[i].cancelRequested
    ensures Inv(SdkCancelled(s, i))
  {
    var t := SdkCancelled(s, i);
    if t != s {
      CancelledOnce(s, t, i);
      CancelledCalls(s, t, i);
      WireStays(s, t);
    }
  }

  lemma CancelledOnce(s: State, t: State, i: nat)
    requires CancelsOk(s) && i < |s.entries| && s.entries[i].sdk.Some? && !s.entries[i].cancelSent
    requires t.entries == s.entries[i := s.entries[i].(cancelSent := true)]
    requires t.cancels == s.cancels + [(i, s.entries[i].sdk.value)]
    ensures CancelsOk(t)
  {
    forall k | 0 <= k < |s.cancels| ensures s.cancels[k].0 != i {}
  }

  lemma CancelledCalls(s: State, t: State, i: nat)
    requires CallsOk(s) && i < |s.entries| && s.entries[i].sdk.Some? && s.entries[i].cancelRequested && CancelsOk(t)
    requires t == s.(entries := s.entries[i := s.entries[i].(cancelSent := true)], cancels := t.cancels)
    ensures CallsOk(t)
  {
    forall j | 0 <= j < |t.entries| ensures FlagsOk(t.entries[j], j, t.owner, t.late) {
      assert FlagsOk(s.entries[j], j, s.owner, s.late);
    }
  }

  // ---- The steps ----------------------------------------------------------------------------------------

  lemma ArriveInv(s: State, ws: string)
    requires Inv(s) && ws !in s.arrived
    ensures Inv(Arrive(s, ws))
  {
    var t := Arrive(s, ws);
    if s.pending != map[] || s.tasks != {} || s.shutdown {
      RefusedWire(s, ws);
      SameEntriesCalls(s, t);
    } else {
      AcceptedWire(s, t, ws);
      AcceptedCalls(s, t, ws);
    }
  }

  lemma AcceptedCalls(s: State, t: State, ws: string)
    requires CallsOk(s) && s.tasks == {} && s.pending == map[]
    requires t == s.(entries := s.entries + [NewCall(ws)], tasks := {Call(|s.entries|)}, arrived := t.arrived)
    ensures CallsOk(t)
  {
    forall i | 0 <= i < |s.entries| ensures s.entries[i].phase == Done { assert Call(i) !in s.tasks; }
    forall j | 0 <= j < |t.entries| ensures FlagsOk(t.entries[j], j, t.owner, t.late) {
      if j < |s.entries| { assert FlagsOk(s.entries[j], j, s.owner, s.late); }
    }
  }

  lemma BeginInv(s: State, i: nat)
    requires Inv(s) && At(s, i, {Created})
    ensures Inv(InPhase(s, i, Started).(pending := s.pending[s.entries[i].ws := i]))
  {
    var t := InPhase(s, i, Started).(pending := s.pending[s.entries[i].ws := i]);
    WireStays(s, t);
    forall ws | ws in t.pending
      ensures At(t, t.pending[ws], {Started, Invoking, TimingOut, Finishing}) && t.entries[t.pending[ws]].ws == ws
    {
      if ws != s.entries[i].ws { assert s.pending[ws] != i; }
    }
    forall j | 0 <= j < |t.entries| ensures FlagsOk(t.entries[j], j, t.owner, t.late) {
      assert FlagsOk(s.entries[j], j, s.owner, s.late);
    }
    assert s.queue == [];
  }

  lemma InvokeInv(s: State, i: nat)
    requires Inv(s) && At(s, i, {Started})
    ensures Inv(With(s, i, s.entries[i].(phase := Invoking, invoked := true)).(queue := s.queue + [i]))
  {
    var t := With(s, i, s.entries[i].(phase := Invoking, invoked := true)).(queue := s.queue + [i]);
    WireStays(s, t);
    assert s.queue == [];
    forall j | 0 <= j < |t.entries| ensures FlagsOk(t.entries[j], j, t.owner, t.late) {
      assert FlagsOk(s.entries[j], j, s.owner, s.late);
    }
  }

  lemma GoesOutInv(s: State, i: nat, id: nat)
    requires Inv(s) && i < |s.entries| && s.entries[i].invoked && id !in s.owner
    ensures Inv(GoesOut(s, i, id))
  {
    var t := GoesOut(s, i, id);
    WireStays(s, t);
    forall j | 0 <= j < |t.entries| ensures FlagsOk(t.entries[j], j, t.owner, t.late) {
      assert FlagsOk(s.entries[j], j, s.owner, s.late);
    }
  }

  /** The head of the queue is under way; so it is the issuer exactly when the issuer is. */
  lemma CapturedInv(s: State, i: nat, id: nat)
    requires Inv(s) && i < |s.entries| && id in s.owner && s.owner[id] == i
        && (s.entries[i].phase == Done <==> id in s.late)
    ensures Inv(Captured(s, id))
  {
    var t := Captured(s, id);
    WireStays(s, t);
    if s.queue != [] {
      var h := s.queue[0];
      assert h == i <==> s.entries[i].phase != Done;
      CapturedCalls(s, t, h, id);
    }
  }

  lemma CapturedCalls(s: State, t: State, h: nat, id: nat)
    requires CallsOk(s) && h < |s.entries| && s.queue == [h] && id in s.owner && (s.owner[id] == h <==> id !in s.late)
    requires t == s.(entries := s.entries[h := s.entries[h].(sdk := Some(id))], queue := [], tasks := t.tasks)
    requires t.tasks == s.tasks || (t.tasks == s.tasks + {LateCancel(h)} && s.entries[h].cancelRequested)
    ensures CallsOk(t)
  {
    forall j | 0 <= j < |t.entries| ensures FlagsOk(t.entries[j], j, t.owner, t.late) {
      assert FlagsOk(s.entries[j], j, s.owner, s.late);
    }
  }

  /** A call that ends with its answer in hand, unless somebody has it already. */
  lemma AnsweredEndInv(s: State, i: nat)
    requires Inv(s) && At(s, i, {Started, Invoking, TimingOut})
    ensures Inv(Marked(InPhase(s, i, Finishing), i, ByCall(i)))
  {
    var t := Marked(InPhase(s, i, Finishing), i, ByCall(i));
    assert FlagsOk(s.entries[i], i, s.owner, s.late);
    EntryChanged(s, t, i);
    if s.entries[i].terminalSent { WireStays(s, t); } else { MarkedWire(s, t, i, ByCall(i)); }
  }

  lemma TimeOutInv(s: State, i: nat)
    requires Inv(s) && At(s, i, {Invoking})
    ensures Inv(SdkCancelled(Requested(InPhase(s, i, TimingOut), i), i))
  {
    var t := InPhase(s, i, TimingOut);
    MovedInv(s, t, i);
    RequestedInv(t, i);
    SdkCancelledInv(Requested(t, i), i);
  }

  /** A call moves on without an answer of its own. */
  lemma MovedInv(s: State, t: State, i: nat)
    requires Inv(s) && At(s, i, {Started, Invoking, TimingOut}) && |t.entries| == |s.entries|
    requires t == With(s, i, s.entries[i].(phase := t.entries[i].phase, dropped := t.entries[i].dropped))
    requires t.entries[i].phase == TimingOut || (t.entries[i].phase == Finishing
        && (t.entries[i].dropped || s.entries[i].terminalSent))
    requires s.entries[i].phase == Started ==> t.entries[i].phase == Finishing
    ensures Inv(t)
  {
    assert FlagsOk(s.entries[i], i, s.owner, s.late);
    EntryChanged(s, t, i);
    WireStays(s, t);
  }

  lemma FinishInv(s: State, i: nat)
    requires Inv(s) && At(s, i, {Finishing}) && ByCall(i) !in s.waiting
    ensures Inv(InPhase(s, i, Done).(pending := s.pending - {s.entries[i].ws}, queue := RemoveFirst(s.queue, i)))
  {
    var t := InPhase(s, i, Done).(pending := s.pending - {s.entries[i].ws}, queue := RemoveFirst(s.queue, i));
    assert s.queue == [] || s.queue == [i];
    assert t.queue == [];
    WireStays(s, t);
    FinishedCalls(s, t, i);
  }

  lemma FinishedCalls(s: State, t: State, i: nat)
    requires CallsOk(s) && At(s, i, {Finishing})
    requires t == s.(entries := s.entries[i := s.entries[i].(phase := Done)], pending := s.pending - {s.entries[i].ws},
        queue := [])
    ensures CallsOk(t)
  {
    forall ws | ws in t.pending ensures t.pending[ws] != i {}
    forall j | 0 <= j < |t.entries| ensures FlagsOk(t.entries[j], j, t.owner, t.late) {
      assert FlagsOk(s.entries[j], j, s.owner, s.late);
    }
  }

  lemma CancelBeginInv(s: State, t: State, i: nat)
    requires Inv(s) && i < |s.entries|
    requires t == SdkCancelled(Requested(s, i), i).(cancelling := t.cancelling, sweeping := t.sweeping)
    ensures Inv(t)
  {
    RequestedInv(s, i);
    SdkCancelledInv(Requested(s, i), i);
    SideInv(SdkCancelled(Requested(s, i), i), t);
  }

  /** A handler cancels the task and takes the answer in hand, unless somebody has it already. */
  lemma CancelEndInv(s: State, t: State, i: nat)
    requires Inv(s) && i < |s.entries|
    requires t == Marked(Unwound(s, i), i, ByHandler(i)).(cancelling := t.cancelling, ending := t.ending)
    ensures Inv(t)
  {
    assert FlagsOk(s.entries[i], i, s.owner, s.late);
    assert t.entries[i] == s.entries[i].(unwinding := true, terminalSent := true);
    assert t.entries == s.entries[i := t.entries[i]];
    EntryChanged(s, t, i);
    if s.entries[i].terminalSent { WireStays(s, t); } else { MarkedWire(s, t, i, ByHandler(i)); }
  }

  /** Parts of the state that the invariant does not mention. */
  lemma SideInv(s: State, t: State)
    requires Inv(s) && t == s.(shutdown := t.shutdown, cancelling := t.cancelling, sweeping := t.sweeping,
        ending := t.ending, tasks := t.tasks)
    requires t.tasks <= s.tasks
    requires forall i :: 0 <= i < |s.entries| && s.entries[i].phase != Done && Call(i) in s.tasks ==> Call(i) in t.tasks
    ensures Inv(t)
  {
    WireStays(s, t);
    forall j | 0 <= j < |t.entries| ensures FlagsOk(t.entries[j], j, t.owner, t.late) {
      assert FlagsOk(s.entries[j], j, s.owner, s.late);
    }
  }

  lemma SendInv(s: State, x: Sender)
    requires Inv(s) && x in s.waiting && Known(s, x)
    ensures Inv(s.(waiting := s.waiting - {x}, wire := s.wire + [WsOf(s, x)])) && Inv(Lost(s, x))
  {
    SentWire(s, x);
    SameEntriesCalls(s, s.(waiting := s.waiting - {x}, wire := s.wire + [WsOf(s, x)]));
    LostWire(s, x);
    if x.Refusal? {
      SameEntriesCalls(s, Lost(s, x));
    } else {
      assert FlagsOk(s.entries[x.entry], x.entry, s.owner, s.late);
      EntryChanged(s, Lost(s, x), x.entry);
    }
  }

  lemma CallStepInv(s: State, step: Step)
    requires Inv(s) && Enabled(s, step)
    requires step.CallFrame? || step.Begin? || step.Raise? || step.Invoke? || step.Issue? || step.Return?
        || step.TimeOut? || step.TimedOut?
    ensures Inv(Next(s, step))
  {
    match step {
      case CallFrame(ws) => ArriveInv(s, ws);
      case Begin(i) => BeginInv(s, i);
      case Raise(i) => AnsweredEndInv(s, i);
      case Invoke(i) => InvokeInv(s, i);
      case Issue(i, id) =>
        GoesOutInv(s, i, id);
        assert id !in s.late;
        CapturedInv(GoesOut(s, i, id), i, id);
      case Return(i) => AnsweredEndInv(s, i);
      case TimeOut(i) => TimeOutInv(s, i);
      case TimedOut(i) => AnsweredEndInv(s, i);
    }
  }

  lemma LateCancelInv(s: State, t: State, i: nat)
    requires Inv(s) && i < |s.entries| && LateCancel(i) in s.tasks
    requires t == SdkCancelled(s, i).(tasks := s.tasks - {LateCancel(i)})
    ensures Inv(t)
  {
    SdkCancelledInv(s, i);
    SideInv(SdkCancelled(s, i), t);
  }

  lemma EndStepInv(s: State, step: Step)
    requires Inv(s) && Enabled(s, step)
    requires step.Unwind? || step.Drop? || step.Send? || step.Lose? || step.Finish? || step.Reap? || step.RunLateCancel?
    ensures Inv(Next(s, step))
  {
    match step {
      case Unwind(i) =>
        assert FlagsOk(s.entries[i], i, s.owner, s.late);
        MovedInv(s, Next(s, step), i);
      case Drop(i) => MovedInv(s, Next(s, step), i);
      case Send(x) => SendInv(s, x);
      case Lose(x, _) => SendInv(s, x);
      case Finish(i) => FinishInv(s, i);
      case Reap(i) => SideInv(s, Next(s, step));
      case RunLateCancel(i) => LateCancelInv(s, Next(s, step), i);
    }
  }

  lemma HandlerStepInv(s: State, step: Step)
    requires Inv(s) && Enabled(s, step)
    requires step.CancelFrame? || step.CancelEnd? || step.Shutdown? || step.SweepEntry? || step.TransportEnd?
        || step.EndEntry?
    ensures Inv(Next(s, step))
  {
    match step {
      case CancelFrame(ws) => CancelBeginInv(s, Next(s, step), s.pending[ws]);
      case CancelEnd(i) => CancelEndInv(s, Next(s, step), i);
      case Shutdown => SideInv(s, Next(s, step));
      case SweepEntry(i) => CancelBeginInv(s, Next(s, step), i);
      case TransportEnd => SideInv(s, Next(s, step));
      case EndEntry(i) =>
        RequestedInv(s, i);
        CancelEndInv(Requested(s, i), Next(s, step), i);
    }
  }

  lemma StepKeepsInv(s: State, step: Step)
    requires Inv(s) && Enabled(s, step)
    ensures Inv(Next(s, step))
  {
    match step {
      case CallFrame(_) => CallStepInv(s, step);
      case Begin(_) => CallStepInv(s, step);
      case Raise(_) => CallStepInv(s, step);
      case Invoke(_) => CallStepInv(s, step);
      case Issue(_, _) => CallStepInv(s, step);
      case Return(_) => CallStepInv(s, step);
      case TimeOut(_) => CallStepInv(s, step);
      case TimedOut(_) => CallStepInv(s, step);
      case Unwind(_) => EndStepInv(s, step);
      case Drop(_) => EndStepInv(s, step);
      case Send(_) => EndStepInv(s, step);
      case Lose(_, _) => EndStepInv(s, step);
      case Finish(_) => EndStepInv(s, step);
      case Reap(_) => EndStepInv(s, step);
      case RunLateCancel(_) => EndStepInv(s, step);
      case _ => HandlerStepInv(s, step);
    }
  }

  lemma {:induction false} RunKeepsInv(steps: seq<Step>)
    ensures Inv(Run(steps))
  {
    if steps != [] {
      var s, step := Run(steps[..|steps| - 1]), steps[|steps| - 1];
      RunKeepsInv(steps[..|steps| - 1]);
      if Enabled(s, step) { StepKeepsInv(s, step); }
    }
  }
}
