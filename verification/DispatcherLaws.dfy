/** What holds of the dispatcher over every schedule: order, count, cancels, results, dropped futures and drains. */
module DispatcherLaws {
  import opened Basics
  import opened Json
  import opened Dispatcher

  /** First in, first out: over every schedule the `tool.call`s go out in order of arrival, each at most once, and
      one goes out only when every call sent before it has ended. */
  lemma CallsGoOutInOrder(steps: seq<Step>, i: nat, j: nat)
    requires var s := Run(steps); i < j < |s.wire| && s.wire[i].ToolCall? && s.wire[j].ToolCall?
    ensures var s := Run(steps);
      s.wire[i].call < s.wire[j].call < |s.calls| && s.wire[i].id != s.wire[j].id && s.calls[s.wire[i].call].Done?
  {
    RunKeepsInv(steps);
    assert FramesOrdered(Run(steps), i, j);
    assert FrameOk(Run(steps), j);
  }

  /** The in-flight count is 0 or 1; it is 1 exactly while some call holds a counted permit, and whenever no
      call holds the permit it is back at 0. */
  lemma InflightIsExact(steps: seq<Step>)
    ensures var s := Run(steps);
      && (s.inflight == 0 || s.inflight == 1)
      && (s.inflight == 1 <==> exists k :: 0 <= k < |s.calls| && (s.calls[k].Counted? || HasId(s.calls[k])))
      && ((forall k :: 0 <= k < |s.calls| ==> s.calls[k].Done? || s.calls[k].Queued?) ==>
          s.inflight == 0 && s.holder.None?)
  {
    RunKeepsInv(steps);
    var s := Run(steps);
    if s.holder.Some? { assert HoldsPermit(s.calls[s.holder.value]); }
  }

  /** A call that ended in the queue never reached the client: neither it nor a cancel for it is on the wire. */
  lemma QueuedEndsAreSilent(steps: seq<Step>, k: nat)
    requires var s := Run(steps); k < |s.calls| && s.calls[k].Done? && !AfterSending(s.calls[k].outcome)
    ensures var s := Run(steps); forall i :: 0 <= i < |s.wire| ==> s.wire[i].call != k
  {
    RunKeepsInv(steps);
    var s := Run(steps);
    forall i | 0 <= i < |s.wire| ensures s.wire[i].call != k {
      assert FrameOk(s, i);
      if s.wire[i].ToolCancel? {
        var j :| 0 <= j < i && s.wire[j] == ToolCall(s.wire[i].call, s.wire[i].target);
        assert FrameOk(s, j);
      }
    }
  }

  /** A `tool.cancel` follows its own call's `tool.call`, carries that request's id, and no call gets two. */
  lemma CancelFollowsItsCall(steps: seq<Step>, i: nat)
    requires i < |Run(steps).wire| && Run(steps).wire[i].ToolCancel?
    ensures var s := Run(steps);
      && (exists j :: 0 <= j < i && s.wire[j] == ToolCall(s.wire[i].call, s.wire[i].target))
      && (forall j :: 0 <= j < |s.wire| && j != i && s.wire[j].ToolCancel? ==> s.wire[j].call != s.wire[i].call)
  {
    RunKeepsInv(steps);
    var s := Run(steps);
    assert FrameOk(s, i);
    forall j | 0 <= j < |s.wire| && j != i && s.wire[j].ToolCancel? ensures s.wire[j].call != s.wire[i].call {
      if i < j { assert FramesOrdered(s, i, j); } else { assert FramesOrdered(s, j, i); }
    }
  }

  /** The call went out under this id, and its future was neither dropped nor out of time. */
  predicate HeardBack(s: State, k: nat, id: RequestId) {
    && k < |s.calls| && s.calls[k].Done? && !s.calls[k].outcome.Abandoned? && !s.calls[k].outcome.TimedOutWhileRunning?
    && ToolCall(k, id) in s.wire
  }

  /** A call ends as the response to its own `tool.call` says, over every run. If it went out and was neither dropped
      nor out of time, exactly one of two things happened to its id: a response was accepted for it, or a drain cleared
      its entry. Its result is that of the response, if and only if; and `SessionGone` if and only if it was cleared. */
  lemma EndsAsAnswered(steps: seq<Step>, k: nat, id: RequestId)
    requires HeardBack(Run(steps), k, id)
    ensures var s := Run(steps);
      var o := s.calls[k].outcome;
      && (id in s.accepted <==> id !in s.cleared)
      && (forall v :: o == Completed(v) <==> id in s.accepted && s.accepted[id] == Value(v, true))
      && (o == InvalidResult <==> id in s.accepted && s.accepted[id].Value? && !s.accepted[id].parses)
      && (o == Cancelled <==> id in s.accepted && s.accepted[id] == Error(-32800))
      && (forall code :: o == ClientError(code) <==>
            id in s.accepted && s.accepted[id] == Error(code) && code != -32800)
      && (o == SessionGone <==> id in s.cleared)
  {
    RunKeepsInv(steps);
    var s := Run(steps);
    assert CallOk(s, k);
    var i :| 0 <= i < |s.wire| && s.wire[i] == ToolCall(k, id);
    assert IsCallOf(s.wire, i, k);
  }

  /** A call that did not go out has neither a result nor an error of the client; one that ran out of time while it ran
      had no response accepted before or since; and each call goes out under at most one id, which no other frame
      has. */
  lemma UnsentHasNoResult(steps: seq<Step>, k: nat)
    requires k < |Run(steps).calls| && Run(steps).calls[k].Done?
    ensures var s := Run(steps);
      && ((forall id :: ToolCall(k, id) !in s.wire) ==> EndsUnsent(s.calls[k].outcome))
      && (forall id :: ToolCall(k, id) in s.wire && s.calls[k].outcome.TimedOutWhileRunning? ==> id !in s.accepted)
      && (forall i, j :: 0 <= i < j < |s.wire| ==> s.wire[i].id != s.wire[j].id)
  {
    RunKeepsInv(steps);
    var s := Run(steps);
    assert CallOk(s, k);
    if i :| IsCallOf(s.wire, i, k) { assert ToolCall(k, s.wire[i].id) in s.wire; }
    forall id | ToolCall(k, id) in s.wire && s.calls[k].outcome.TimedOutWhileRunning? ensures id !in s.accepted {
      var i :| 0 <= i < |s.wire| && s.wire[i] == ToolCall(k, id);
      assert IsCallOf(s.wire, i, k);
    }
    forall i, j | 0 <= i < j < |s.wire| ensures s.wire[i].id != s.wire[j].id { assert FramesOrdered(s, i, j); }
  }

  /** A result comes from the client's answer to this very call: if call k completed with a value, the one response
      accepted for the id of k's own `tool.call` carried that value; no other call ever had that id. */
  lemma ResultBelongsToCall(steps: seq<Step>, k: nat)
    requires k < |Run(steps).calls| && Run(steps).calls[k].Done? && Run(steps).calls[k].outcome.Completed?
    ensures var s := Run(steps);
      exists i :: 0 <= i < |s.wire| && s.wire[i].ToolCall? && s.wire[i].call == k && s.wire[i].id in s.accepted
        && s.accepted[s.wire[i].id] == Value(s.calls[k].outcome.value, true)
        && forall j :: 0 <= j < |s.wire| && j != i ==> s.wire[j].id != s.wire[i].id
  {
    RunKeepsInv(steps);
    UnsentHasNoResult(steps, k);
    var s := Run(steps);
    var id :| ToolCall(k, id) in s.wire;
    EndsAsAnswered(steps, k, id);
    var i :| 0 <= i < |s.wire| && s.wire[i] == ToolCall(k, id);
    forall j | 0 <= j < |s.wire| && j != i ensures s.wire[j].id != s.wire[i].id {
      if i < j { assert FramesOrdered(s, i, j); } else { assert FramesOrdered(s, j, i); }
    }
  }

  // ---- What gets done ------------------------------------------------------------------------------

  /** A free permit goes to the call that arrived first of all that wait; if nothing was drained and the writer is up,
      its `tool.call` is the next frame on the wire, under a new id. */
  lemma FirstInLineGoesOut(steps: seq<Step>, k: nat)
    requires var s := Run(steps);
      && k < |s.calls| && s.calls[k].Queued? && s.holder.None? && !s.drained && s.active && s.sender
      && forall l :: 0 <= l < k ==> !s.calls[l].Queued?
    ensures var s := Run(steps);
      var t := Next(Next(Next(Next(Next(s, Grant), Check(k)), BeginCall(k, true)), Insert(k)), Send(k, true));
      && t.wire == s.wire + [ToolCall(k, s.nextId)] && Waits(t, k) && Selects(t, k) && t.calls[k].id == s.nextId
      && t.holder == Some(k) && t.inflight == 1
  {
    var s := Run(steps);
    RunKeepsInv(steps);
    assert k in s.queue && s.queue[0] == k by {
      var i :| 0 <= i < |s.queue| && s.queue[i] == k;
      assert s.calls[s.queue[0]].Queued? by { assert s.queue[0] in s.queue; }
    }
    AdmittedGoesOut(Next(s, Grant), k);
  }

  lemma AdmittedGoesOut(s: State, k: nat)
    requires k < |s.calls| && s.calls[k].Admitted? && s.holder == Some(k) && s.inflight == 0
    requires !s.drained && s.active && s.sender
    ensures var t := Next(Next(Next(Next(s, Check(k)), BeginCall(k, true)), Insert(k)), Send(k, true));
      && t.wire == s.wire + [ToolCall(k, s.nextId)] && Waits(t, k) && Selects(t, k) && t.calls[k].id == s.nextId
      && t.holder == Some(k) && t.inflight == 1
  {
    var begun := Next(Next(s, Check(k)), BeginCall(k, true));
    assert begun == s.(calls := s.calls[k := Sending(s.nextId, Numbered, Nothing)], inflight := 1,
                       nextId := s.nextId + 1);
    InsertedThenSent(begun, k);
  }

  /** A response to a call that waits ends it, as the response says, and frees permit and count. */
  lemma ResponseEndsCall(steps: seq<Step>, k: nat, reply: Reply)
    requires Waits(Run(steps), k) && Selects(Run(steps), k)
    ensures var s := Run(steps);
      var t := Next(Next(s, Respond(s.calls[k].id, reply)), Receive(k));
      && |t.calls| == |s.calls|
      && t.calls[k] == Done(match reply
                            case Value(v, parses) => if parses then Completed(v) else InvalidResult
                            case Error(code) => if code == -32800 then Cancelled else ClientError(code))
      && t.holder.None? && t.inflight == 0 && s.calls[k].id !in t.pending
  {
    var s := Run(steps);
    var id := s.calls[k].id;
    RunKeepsInv(steps);
    assert CallOk(s, k);
    var answered := Next(s, Respond(id, reply));
    assert answered.calls[k] == Running(id, s.calls[k].cancel, Answer(reply));
  }

  lemma ClearedHasMail(s: State, k: nat)
    requires Waits(s, k) && !s.active && s.calls[k].id in s.pending
    ensures var t := Next(s, DrainClear);
      |t.calls| == |s.calls| && t.calls[k] == s.calls[k].(mail := Dropped) && t.pending == map[]
          && t.inflight == s.inflight
  {
  }

  /** So does its deadline, which takes its entry out of the table. */
  lemma DeadlineEndsCall(steps: seq<Step>, k: nat)
    requires Waits(Run(steps), k) && Selects(Run(steps), k)
    ensures var s := Run(steps);
      var t := Next(s, TimeoutRunning(k));
      && t.calls == s.calls[k := Done(TimedOutWhileRunning)] && t.pending == s.pending - {s.calls[k].id}
      && t.holder.None? && t.wire == s.wire
  {
  }

  /** So does a drain, once it has cleared the table. */
  lemma DrainEndsCall(steps: seq<Step>, k: nat)
    requires Waits(Run(steps), k) && Selects(Run(steps), k)
    ensures var t := Next(Next(Next(Run(steps), DrainStore), DrainClear), Receive(k));
      k < |t.calls| && t.calls[k] == Done(SessionGone) && t.pending == map[] && t.holder.None?
  {
    var s := Run(steps);
    RunKeepsInv(steps);
    assert CallOk(s, k);
    ClearedHasMail(s.(active := false), k);
    ReceivesMail(Next(s.(active := false), DrainClear), k);
  }

  lemma ReceivesMail(s: State, k: nat)
    requires Selects(s, k) && s.calls[k].mail.Dropped?
    ensures var t := Next(s, Receive(k));
      |t.calls| == |s.calls| && t.calls[k] == Done(SessionGone) && t.pending == s.pending && t.holder.None?
  {
  }

  /** What a call meets on arrival: a drained dispatcher, its own cancellation, its deadline, a free permit, or the
      queue. */
  lemma ArrivesExactly(steps: seq<Step>, cancelled: bool, late: bool)
    ensures var s := Run(steps);
      Next(s, Arrive(cancelled, late)).calls
        == s.calls + [if s.drained then Done(SessionGone)
                      else if cancelled then Done(CancelledWhileQueued)
                      else if late then Done(TimedOutWhileQueued)
                      else if s.holder.None? && s.queue == [] then Admitted
                      else Queued]
  {
  }

  /** How a call ends in the queue: out of time, cancelled, or dropped. */
  lemma LeavesQueueExactly(steps: seq<Step>, k: nat)
    requires k < |Run(steps).calls| && Run(steps).calls[k].Queued?
    ensures var s := Run(steps);
      && Next(s, LeaveQueue(k, true)).calls == s.calls[k := Done(TimedOutWhileQueued)]
      && Next(s, LeaveQueue(k, false)).calls == s.calls[k := Done(CancelledWhileQueued)]
      && Next(s, Abandon(k)).calls == s.calls[k := Done(AbandonedWhileQueued)]
  {
  }

  /** How it ends at the checks: the dispatcher is drained, its arguments cannot be written, or the connection is
      down. */
  lemma FailsChecksExactly(steps: seq<Step>, k: nat)
    requires k < |Run(steps).calls|
    ensures var s := Run(steps);
        && (s.calls[k].Admitted? && s.drained ==> Next(s, Check(k)).calls == s.calls[k := Done(SessionGone)])
        && (s.calls[k].Counted? ==>
              && Next(s, BeginCall(k, false)).calls == s.calls[k := Done(InvalidResult)]
              && (!s.active ==> Next(s, BeginCall(k, true)).calls == s.calls[k := Done(SessionGone)]))
  {
  }

  /** A call that finds the writer gone ends so, with its entry and permit given back and nothing on the wire. */
  lemma WriterGoneEndsCall(steps: seq<Step>, k: nat)
    requires CallAt(Run(steps), k, Inserted)
    ensures var s := Run(steps);
      var t := Next(Next(s, Send(k, false)), Cleanup(k));
      && t.calls == s.calls[k := Done(WriterClosed)] && t.pending == s.pending - {s.calls[k].id} && t.wire == s.wire
      && t.holder.None? && t.inflight == 0
  {
    RunKeepsInv(steps);
    var s := Run(steps);
    var failing := Next(s, Send(k, false));
    assert failing.calls == s.calls[k := s.calls[k].(stage := Failing)];
  }

  /** A call that is asked to cancel while it waits sends one `tool.cancel`, with its own id, while the connection is
      up. */
  lemma CancelGoesOut(steps: seq<Step>, k: nat)
    requires var s := Run(steps);
      Waits(s, k) && Selects(s, k) && s.calls[k].cancel.Unasked? && s.active && s.sender
    ensures var s := Run(steps);
      var t := Next(Next(Next(s, BeginCancel(k)), Insert(k)), Send(k, true));
      && |t.calls| == |s.calls|
      && t.wire == s.wire + [ToolCancel(k, s.nextId, s.calls[k].id)] && t.calls[k] == s.calls[k].(cancel := Asked)
  {
    var s := Run(steps);
    var begun := Next(s, BeginCancel(k));
    assert begun.calls[k] == s.calls[k].(cancel := Cancelling(s.nextId, Numbered));
    assert Next(begun, Insert(k)).calls[k] == s.calls[k].(cancel := Cancelling(s.nextId, Inserted));
  }

  // ---- Dropped futures and drains -----------------------------------------------------------------

  /** In every run a call that waits for its response has its entry in the table, so the response finds it; and an entry
      that some call made is unawaited exactly when that call's future was dropped. */
  lemma EntriesAreAwaited(steps: seq<Step>)
    ensures var s := Run(steps);
      && (forall k: nat :: Waits(s, k) && Selects(s, k) ==>
            s.calls[k].id in s.pending && s.pending[s.calls[k].id] == Some(k))
      && (forall id :: id in s.pending && s.pending[id].Some? ==>
            var k := s.pending[id].value;
            k < |s.calls| && (!(Waits(s, k) && s.calls[k].id == id) <==> s.calls[k] == Done(Abandoned)))
  {
    RunKeepsInv(steps);
    var s := Run(steps);
    forall k: nat | Waits(s, k) && Selects(s, k)
      ensures s.calls[k].id in s.pending && s.pending[s.calls[k].id] == Some(k)
    {
      assert CallOk(s, k);
    }
    forall id | id in s.pending && s.pending[id].Some? ensures EntryOk(s, id, s.pending[id].value) {}
  }

  /** Nobody waits but calls that were under way when the table was cleared, and none of them is out if the sender was
      gone. */
  ghost predicate OnlyWaits(s: State, underway: set<nat>, sender: bool) {
    && !s.active && (s.sender ==> sender)
    && (forall k: nat :: Waits(s, k) ==> k in underway)
    && (forall k: nat :: Waits(s, k) && s.calls[k].Running? ==> sender)
  }

  /** No call starts to wait, and one that is sent is sent through the sender. */
  ghost predicate NoNewWaits(s: State, t: State) {
    && !t.active && (t.sender ==> s.sender)
    && forall k: nat :: Waits(t, k) ==> Waits(s, k) && (t.calls[k].Running? ==> s.calls[k].Running? || s.sender)
  }

  /** One call moves, and does not start to wait. */
  lemma OneMoves(s: State, t: State, k: nat)
    requires !t.active && (t.sender ==> s.sender) && k < |s.calls| && |t.calls| == |s.calls|
    requires t.calls == s.calls[k := t.calls[k]]
    requires Waits(t, k) ==> Waits(s, k) && (t.calls[k].Running? ==> s.calls[k].Running? || s.sender)
    ensures NoNewWaits(s, t)
  {
  }

  lemma QueueMoves(s: State, step: Step)
    requires !s.active && (step.LeaveQueue? || step.Check? || step.BeginCall? || step.BeginCancel?)
    ensures NoNewWaits(s, Next(s, step))
  {
    if step.k < |s.calls| { OneMoves(s, Next(s, step), step.k); }
  }

  lemma InsertMoves(s: State, k: nat)
    requires !s.active
    ensures NoNewWaits(s, OnInsert(s, k))
  {
    if k < |s.calls| { OneMoves(s, OnInsert(s, k), k); }
  }

  lemma SendMoves(s: State, k: nat, writerUp: bool)
    requires !s.active
    ensures NoNewWaits(s, OnSend(s, k, writerUp))
  {
    if k < |s.calls| { OneMoves(s, OnSend(s, k, writerUp), k); }
  }

  lemma CleanupMoves(s: State, k: nat)
    requires !s.active
    ensures NoNewWaits(s, OnCleanup(s, k))
  {
    if k < |s.calls| { OneMoves(s, OnCleanup(s, k), k); }
  }

  lemma EndMoves(s: State, step: Step)
    requires !s.active && (step.TimeoutRunning? || step.Receive? || step.Abandon?)
    ensures NoNewWaits(s, Next(s, step))
  {
    if step.k < |s.calls| { OneMoves(s, Next(s, step), step.k); }
  }

  lemma ArrivalMoves(s: State, cancelled: bool, late: bool)
    requires !s.active
    ensures NoNewWaits(s, OnArrive(s, cancelled, late))
  {
    var t := OnArrive(s, cancelled, late);
    forall k: nat | Waits(t, k) ensures k < |s.calls| && t.calls[k] == s.calls[k] {}
  }

  lemma GrantMoves(s: State)
    requires !s.active
    ensures NoNewWaits(s, OnGrant(s))
  {
    if s.queue != [] && s.queue[0] < |s.calls| { OneMoves(s, OnGrant(s), s.queue[0]); }
  }

  lemma RespondMoves(s: State, id: RequestId, reply: Reply)
    requires !s.active && id in s.pending
    ensures NoNewWaits(s, OnRespond(s, id, reply))
  {
    if s.pending[id].Some? && s.pending[id].value < |s.calls| {
      OneMoves(s, OnRespond(s, id, reply), s.pending[id].value);
    }
  }

  lemma ClearMoves(s: State)
    requires !s.active
    ensures NoNewWaits(s, Next(s, DrainClear))
  {
    var t := Next(s, DrainClear);
    forall k: nat | Waits(t, k) ensures t.calls[k] == s.calls[k] {}
  }

  lemma StepNoNewWaits(s: State, step: Step)
    requires !s.active
    ensures NoNewWaits(s, Next(s, step))
  {
    match step {
      case Arrive(cancelled, late) => ArrivalMoves(s, cancelled, late);
      case Grant => GrantMoves(s);
      case Insert(k) => InsertMoves(s, k);
      case Send(k, writerUp) => SendMoves(s, k, writerUp);
      case Cleanup(k) => CleanupMoves(s, k);
      case TimeoutRunning(_) => EndMoves(s, step);
      case Receive(_) => EndMoves(s, step);
      case Abandon(_) => EndMoves(s, step);
      case Respond(id, reply) => if id in s.pending { RespondMoves(s, id, reply); }
      case DrainDispatcher =>
      case DrainStore =>
      case DrainClear => ClearMoves(s);
      case DrainTake =>
      case _ => QueueMoves(s, step);
    }
  }

  lemma OnlyWaitsStep(s: State, step: Step, underway: set<nat>, sender: bool)
    requires OnlyWaits(s, underway, sender)
    ensures OnlyWaits(Next(s, step), underway, sender)
  {
    StepNoNewWaits(s, step);
  }

  lemma {:induction false} OnlyWaitsRun(s: State, steps: seq<Step>, underway: set<nat>, sender: bool)
    requires OnlyWaits(s, underway, sender)
    ensures OnlyWaits(RunFrom(s, steps), underway, sender)
  {
    if steps != [] {
      OnlyWaitsRun(s, steps[..|steps| - 1], underway, sender);
      OnlyWaitsStep(RunFrom(s, steps[..|steps| - 1]), steps[|steps| - 1], underway, sender);
    }
  }

  /** After the table was cleared the call waits for a response again, in some schedule. */
  ghost predicate CanHang(s: State, k: nat) {
    exists after: seq<Step> :: Waits(RunFrom(Next(s, DrainClear), after), k)
        && Selects(RunFrom(Next(s, DrainClear), after), k)
  }

  /** The calls between check and table. */
  function Underway(s: State): set<nat> {
    set k | 0 <= k < |s.calls| && CallAt(s, k, Numbered)
  }

  lemma ClearLeaves(s: State)
    requires Inv(s) && !s.active
    ensures OnlyWaits(Next(s, DrainClear), Underway(s), s.sender)
  {
    var t := Next(s, DrainClear);
    forall k: nat | Waits(t, k) ensures k in Underway(s) && !t.calls[k].Running? {
      assert CallOk(s, k);
    }
  }

  lemma HangsOnlyUnderway(before: seq<Step>, after: seq<Step>, k: nat)
    requires !Run(before).active
    requires var s := RunFrom(Next(Run(before), DrainClear), after); Waits(s, k) && Selects(s, k)
    ensures CallAt(Run(before), k, Numbered) && Run(before).sender
  {
    var s := Run(before);
    RunKeepsInv(before);
    ClearLeaves(s);
    OnlyWaitsRun(Next(s, DrainClear), after, Underway(s), s.sender);
  }

  lemma RunTwo(s: State, first: Step, second: Step)
    ensures RunFrom(s, [first, second]) == Next(Next(s, first), second)
  {
    assert [first, second][..1] == [first] && [first][..0] == [];
    assert RunFrom(s, [first]) == Next(s, first);
  }

  lemma InsertedThenSent(s: State, k: nat)
    requires CallAt(s, k, Numbered) && s.calls[k].mail.Nothing? && s.sender
    ensures Waits(OnSend(OnInsert(s, k), k, true), k) && Selects(OnSend(OnInsert(s, k), k, true), k)
  {
  }

  lemma UnderwayHangs(s: State, k: nat)
    requires Inv(s) && !s.active && CallAt(s, k, Numbered) && s.sender
    ensures CanHang(s, k)
  {
    assert CallOk(s, k);
    var a := Next(s, DrainClear);
    assert a.calls[k] == s.calls[k];
    InsertedThenSent(a, k);
    RunTwo(a, Insert(k), Send(k, true));
  }

  /** Exactly which calls a drain may leave waiting, with the permit in hand and nobody to answer: the one that saw the
      connection active and was not in the table yet when the table was cleared, as long as the sender had not been
      taken. */
  lemma CanHangIff(before: seq<Step>, k: nat)
    requires !Run(before).active
    ensures CanHang(Run(before), k) <==> CallAt(Run(before), k, Numbered) && Run(before).sender
  {
    var s := Run(before);
    if CanHang(s, k) {
      var after: seq<Step> :| Waits(RunFrom(Next(s, DrainClear), after), k)
          && Selects(RunFrom(Next(s, DrainClear), after), k);
      HangsOnlyUnderway(before, after, k);
    }
    if CallAt(s, k, Numbered) && s.sender {
      RunKeepsInv(before);
      UnderwayHangs(s, k);
    }
  }

  /** A call with its id, alone. */
  function Begun(p: Phase): State {
    FRESH.(calls := [p], holder := Some(0), inflight := 1, nextId := 1)
  }

  lemma CallBegun()
    ensures Next(Next(Next(FRESH, Arrive(false, false)), Check(0)), BeginCall(0, true))
         == Begun(Sending(0, Numbered, Nothing))
  {
    var arrived := Next(FRESH, Arrive(false, false));
    assert arrived == FRESH.(calls := [Admitted], holder := Some(0)) by { assert [] + [Admitted] == [Admitted]; }
    assert Next(arrived, Check(0)) == arrived.(calls := [Counted], inflight := 1);
  }

  /** It does happen: a drain runs while a call is between its check and the table, and the call then waits. */
  lemma DrainedYetWaiting()
    ensures
      var begun := Next(Next(Next(FRESH, Arrive(false, false)), Check(0)), BeginCall(0, true));
      var s := Next(Next(Next(Next(Next(begun, DrainStore), DrainClear), Insert(0)), Send(0, true)), DrainTake);
      Waits(s, 0) && Selects(s, 0) && s.holder == Some(0) && !s.active && !s.sender
  {
    CallBegun();
    var stored := Begun(Sending(0, Numbered, Nothing)).(active := false);
    ClearedThenSent(stored);
    assert Next(Begun(Sending(0, Numbered, Nothing)), DrainStore) == stored;
  }

  /** A call that waits, alone, after the drain. */
  function Stuck(sender: bool): State {
    Begun(Running(0, Unasked, Nothing)).(
      active := false, sender := sender, pending := map[0 := Some(0)], wire := [ToolCall(0, 0)])
  }

  lemma ClearedThenSent(stored: State)
    requires stored == Begun(Sending(0, Numbered, Nothing)).(active := false)
    ensures Next(Next(Next(Next(stored, DrainClear), Insert(0)), Send(0, true)), DrainTake) == Stuck(false)
  {
    assert Next(stored, DrainClear) == stored by {
      assert DropAll(stored.calls, stored.pending) == stored.calls;
    }
    var inserted := Next(stored, Insert(0));
    assert inserted == Begun(Sending(0, Inserted, Nothing)).(active := false, pending := map[0 := Some(0)]);
    assert Next(inserted, Send(0, true)) == Stuck(true) by { assert [] + [ToolCall(0, 0)] == [ToolCall(0, 0)]; }
  }

  /** A call on the wire is dropped: its permit and count are free again, and its entry stays in the table. */
  lemma DroppedEntryStays()
    ensures
      var begun := Next(Next(Next(FRESH, Arrive(false, false)), Check(0)), BeginCall(0, true));
      var s := Next(Next(Next(begun, Insert(0)), Send(0, true)), Abandon(0));
      s.calls == [Done(Abandoned)] && s.pending == map[0 := Some(0)] && s.holder.None? && s.inflight == 0
  {
    CallBegun();
    var begun := Begun(Sending(0, Numbered, Nothing));
    var sent := Begun(Running(0, Unasked, Nothing)).(pending := map[0 := Some(0)], wire := [ToolCall(0, 0)]);
    assert OnSend(OnInsert(begun, 0), 0, true) == sent by { assert [] + [ToolCall(0, 0)] == [ToolCall(0, 0)]; }
  }

  // ---- One cancel per call --------------------------------------------------------------------------

  /** The step begins the cancel of call `k`. */
  predicate Begins(s: State, step: Step, k: nat) {
    step == BeginCancel(k) && Waits(s, k) && Selects(s, k) && s.calls[k].cancel.Unasked?
  }

  /** Some step of the schedule did. */
  predicate CancelBegun(steps: seq<Step>, k: nat) {
    steps != [] &&
      (CancelBegun(steps[..|steps| - 1], k) || Begins(Run(steps[..|steps| - 1]), steps[|steps| - 1], k))
  }

  /** The call is past the point where it could begin one. */
  predicate PastAsking(s: State, k: nat) {
    k < |s.calls| && (s.calls[k].Done? || (s.calls[k].Running? && !s.calls[k].cancel.Unasked?))
  }

  /** Steps of the dispatch of a call or of its cancel. */
  lemma InsertStaysPast(s: State, l: nat, k: nat)
    requires PastAsking(s, k)
    ensures PastAsking(OnInsert(s, l), k) && PastAsking(OnCleanup(s, l), k)
  {
  }

  lemma SendStaysPast(s: State, l: nat, writerUp: bool, k: nat)
    requires PastAsking(s, k)
    ensures PastAsking(OnSend(s, l, writerUp), k)
  {
  }

  lemma BeginStaysPast(s: State, step: Step, k: nat)
    requires PastAsking(s, k) && (step.BeginCall? || step.BeginCancel?)
    ensures PastAsking(Next(s, step), k)
  {
  }

  lemma EndStaysPast(s: State, step: Step, k: nat)
    requires PastAsking(s, k) && (step.TimeoutRunning? || step.Receive? || step.Abandon?)
    ensures PastAsking(Next(s, step), k)
  {
  }

  lemma QueueStaysPast(s: State, step: Step, k: nat)
    requires Inv(s) && PastAsking(s, k) && (step.Arrive? || step.LeaveQueue? || step.Grant? || step.Check?)
    ensures PastAsking(Next(s, step), k)
  {
    if step.Grant? && s.queue != [] { assert s.calls[s.queue[0]].Queued? by { assert s.queue[0] in s.queue; } }
  }

  lemma MailStaysPast(s: State, step: Step, k: nat)
    requires PastAsking(s, k)
    requires step.Respond? || step.DrainDispatcher? || step.DrainStore? || step.DrainClear? || step.DrainTake?
    ensures PastAsking(Next(s, step), k)
  {
  }

  lemma StaysPast(s: State, step: Step, k: nat)
    requires Inv(s) && PastAsking(s, k)
    ensures PastAsking(Next(s, step), k)
  {
    match step {
      case Insert(l) => InsertStaysPast(s, l, k);
      case Cleanup(l) => InsertStaysPast(s, l, k);
      case Send(l, writerUp) => SendStaysPast(s, l, writerUp, k);
      case BeginCall(_, _) => BeginStaysPast(s, step, k);
      case BeginCancel(_) => BeginStaysPast(s, step, k);
      case TimeoutRunning(_) => EndStaysPast(s, step, k);
      case Receive(_) => EndStaysPast(s, step, k);
      case Abandon(_) => EndStaysPast(s, step, k);
      case Arrive(_, _) => QueueStaysPast(s, step, k);
      case LeaveQueue(_, _) => QueueStaysPast(s, step, k);
      case Grant => QueueStaysPast(s, step, k);
      case Check(_) => QueueStaysPast(s, step, k);
      case _ => MailStaysPast(s, step, k);
    }
  }

  lemma {:induction false} BegunIsPast(steps: seq<Step>, k: nat)
    requires CancelBegun(steps, k)
    ensures PastAsking(Run(steps), k)
  {
    var init, last := steps[..|steps| - 1], steps[|steps| - 1];
    RunKeepsInv(init);
    if CancelBegun(init, k) {
      BegunIsPast(init, k);
      StaysPast(Run(init), last, k);
    }
  }

  /** A call asks to be cancelled once: over every schedule, once it has begun its `tool.cancel` it begins no other,
      whether or not the first went out. */
  lemma CancelBegunOnce(steps: seq<Step>, step: Step, k: nat)
    requires CancelBegun(steps, k)
    ensures !Begins(Run(steps), step, k)
  {
    BegunIsPast(steps, k);
  }
}
