/** What holds of the adapter's calls over every interleaving: answers, SDK ids and cancellations. */
module AdapterLaws {
  import opened Basics
  import opened Adapter

  /** At most one call is pending. */
  lemma OneCallPending(steps: seq<Step>, ws: string, other: string)
    requires ws in Run(steps).pending && other in Run(steps).pending
    ensures ws == other
  {
    RunKeepsInv(steps);
    var s := Run(steps);
    assert s.pending[ws] == s.pending[other];
  }

  /** No request id is answered twice, an answer is to a call that arrived, and an answered call has no other answer in
      hand. */
  lemma AnsweredAtMostOnce(steps: seq<Step>)
    ensures var s := Run(steps);
      && Distinct(s.wire) && (forall k :: 0 <= k < |s.wire| ==> s.wire[k] in s.arrived)
      && (forall x :: x in s.waiting ==> Known(s, x) && WsOf(s, x) !in s.wire)
  {
    RunKeepsInv(steps);
    var s := Run(steps);
    forall x | x in s.waiting ensures Known(s, x) && WsOf(s, x) !in s.wire { assert SenderOk(s, x); }
  }

  // ---- Which calls go unanswered ------------------------------------------------------------------------

  /** The step was taken in the run. */
  predicate Taken(steps: seq<Step>, step: Step) {
    steps != [] &&
      var init := steps[..|steps| - 1];
      Taken(init, step) || (steps[|steps| - 1] == step && Enabled(Run(init), step))
  }

  /** A cancel, shutdown or disconnect handler reached the entry. */
  predicate Handled(steps: seq<Step>, i: nat) {
    Taken(steps, CancelEnd(i)) || Taken(steps, EndEntry(i))
  }

  predicate Handles(step: Step, i: nat) {
    step == CancelEnd(i) || step == EndEntry(i)
  }

  predicate Loses(step: Step, i: nat) {
    step.Lose? && (step.sender == ByCall(i) || step.sender == ByHandler(i))
  }

  /** Steps that concern entry `i`. */
  predicate Concerns(step: Step, i: nat) {
    step == Drop(i) || Handles(step, i) || Loses(step, i)
  }

  /** The answer was in hand, and its sender was cancelled before it was sent, or the send raised. */
  predicate AnswerLost(steps: seq<Step>, i: nat) {
    || Taken(steps, Lose(ByCall(i), false)) || Taken(steps, Lose(ByCall(i), true))
    || Taken(steps, Lose(ByHandler(i), false)) || Taken(steps, Lose(ByHandler(i), true))
  }

  /** What a step may do to the flags of an entry that was there. */
  predicate Moves(step: Step, i: nat, e: Entry, f: Entry) {
    && f.ws == e.ws
    && (f.dropped <==> e.dropped || step == Drop(i))
    && (f.lost <==> e.lost || Loses(step, i))
    && (e.phase in {Finishing, Done} ==> f.phase in {Finishing, Done})
    && (step == Drop(i) ==> e.phase !in {Finishing, Done} && f.phase == Finishing && f.terminalSent == e.terminalSent)
    && (e.terminalSent || Handles(step, i) ==> f.terminalSent)
    && (f.terminalSent && !e.terminalSent && !Handles(step, i) ==>
          e.phase !in {Finishing, Done} && f.phase == Finishing)
  }

  /** A change of one entry's SDK side, and of where it is while it is under way. */
  predicate Quiet(e: Entry, f: Entry) {
    && f.ws == e.ws && f.terminalSent == e.terminalSent && f.dropped == e.dropped && f.lost == e.lost
    && (e.phase in {Finishing, Done} ==> f.phase in {Finishing, Done})
  }

  /** A quiet step moves as it may. */
  lemma QuietMoves(step: Step, i: nat, e: Entry, f: Entry)
    requires Quiet(e, f) && !Concerns(step, i)
    ensures Moves(step, i, e, f)
  {
  }

  lemma SdkEntry(s: State, i: nat, j: nat)
    requires i < |s.entries| && j < |s.entries|
    ensures Quiet(s.entries[j], SdkCancelled(s, i).entries[j])
  {
  }

  lemma RequestedEntry(s: State, i: nat, j: nat)
    requires i < |s.entries| && j < |s.entries|
    ensures Quiet(s.entries[j], SdkCancelled(Requested(s, i), i).entries[j])
  {
    var r := Requested(s, i);
    assert Quiet(s.entries[j], r.entries[j]);
    SdkEntry(r, i, j);
  }

  lemma CapturedEntry(s: State, id: nat, j: nat)
    requires j < |s.entries|
    ensures Quiet(s.entries[j], Captured(s, id).entries[j])
  {
  }

  lemma CallStepMoves(s: State, step: Step, i: nat)
    requires Enabled(s, step) && i < |s.entries| && (step.CallFrame? || step.Begin? || step.Invoke?)
    ensures i < |Next(s, step).entries| && Quiet(s.entries[i], Next(s, step).entries[i])
  {
  }

  lemma TimeOutMoves(s: State, step: Step, i: nat)
    requires Enabled(s, step) && i < |s.entries| && step.TimeOut?
    ensures i < |Next(s, step).entries| && Quiet(s.entries[i], Next(s, step).entries[i])
  {
    var r := InPhase(s, step.i, TimingOut);
    assert Quiet(s.entries[i], r.entries[i]);
    RequestedEntry(r, step.i, i);
  }

  lemma IssueMoves(s: State, step: Step, i: nat)
    requires Enabled(s, step) && i < |s.entries| && step.Issue?
    ensures i < |Next(s, step).entries| && Quiet(s.entries[i], Next(s, step).entries[i])
  {
    var r := GoesOut(s, step.i, step.id);
    assert Quiet(s.entries[i], r.entries[i]);
    CapturedEntry(r, step.id, i);
  }

  lemma EndStepMoves(s: State, step: Step, i: nat)
    requires Enabled(s, step) && i < |s.entries| && (step.Unwind? || step.Finish? || step.Reap? || step.RunLateCancel?)
    ensures i < |Next(s, step).entries| && Quiet(s.entries[i], Next(s, step).entries[i])
  {
    if step.RunLateCancel? { SdkEntry(s, step.i, i); }
  }

  lemma HandlerStepMoves(s: State, step: Step, i: nat)
    requires Enabled(s, step) && i < |s.entries|
    requires step.CancelFrame? || step.SweepEntry? || step.Shutdown? || step.TransportEnd?
    ensures i < |Next(s, step).entries| && Quiet(s.entries[i], Next(s, step).entries[i])
  {
    if step.CancelFrame? {
      RequestedEntry(s, s.pending[step.ws], i);
    } else if step.SweepEntry? {
      RequestedEntry(s, step.i, i);
    }
  }

  lemma MarkEntry(s: State, j: nat, x: Sender, i: nat)
    requires j < |s.entries| && i < |s.entries|
    ensures Marked(s, j, x).entries[i] == if i == j then s.entries[i].(terminalSent := true) else s.entries[i]
  {
  }

  lemma AnswerStepMoves(s: State, step: Step, i: nat)
    requires Enabled(s, step) && i < |s.entries| && (step.Raise? || step.Return? || step.TimedOut?)
    ensures i < |Next(s, step).entries| && Moves(step, i, s.entries[i], Next(s, step).entries[i])
  {
    var r := InPhase(s, step.i, Finishing);
    assert Next(s, step) == Marked(r, step.i, ByCall(step.i));
    MarkEntry(r, step.i, ByCall(step.i), i);
  }

  lemma DropMoves(s: State, step: Step, i: nat)
    requires Enabled(s, step) && i < |s.entries| && step.Drop?
    ensures i < |Next(s, step).entries| && Moves(step, i, s.entries[i], Next(s, step).entries[i])
  {
  }

  lemma SendStepMoves(s: State, step: Step, i: nat)
    requires Enabled(s, step) && i < |s.entries| && (step.Send? || step.Lose?)
    ensures i < |Next(s, step).entries| && Moves(step, i, s.entries[i], Next(s, step).entries[i])
  {
  }

  lemma HandlerEndMoves(s: State, step: Step, i: nat)
    requires Enabled(s, step) && i < |s.entries| && (step.CancelEnd? || step.EndEntry?)
    ensures i < |Next(s, step).entries| && Moves(step, i, s.entries[i], Next(s, step).entries[i])
  {
    var j := step.i;
    var r := if step.CancelEnd? then s else Requested(s, j);
    assert Next(s, step).entries == Marked(Unwound(r, j), j, ByHandler(j)).entries;
    MarkEntry(Unwound(r, j), j, ByHandler(j), i);
  }

  /** Steps that change nothing about an answer or a drop. */
  predicate IsQuiet(step: Step) {
    && !step.Raise? && !step.Return? && !step.TimedOut? && !step.Drop? && !step.Send? && !step.Lose?
    && !step.CancelEnd? && !step.EndEntry?
  }

  lemma QuietStepMoves(s: State, step: Step, i: nat)
    requires Enabled(s, step) && i < |s.entries| && IsQuiet(step)
    ensures i < |Next(s, step).entries| && Quiet(s.entries[i], Next(s, step).entries[i])
  {
    match step {
      case CallFrame(_) => CallStepMoves(s, step, i);
      case Begin(_) => CallStepMoves(s, step, i);
      case Invoke(_) => CallStepMoves(s, step, i);
      case TimeOut(_) => TimeOutMoves(s, step, i);
      case Issue(_, _) => IssueMoves(s, step, i);
      case CancelFrame(_) => HandlerStepMoves(s, step, i);
      case SweepEntry(_) => HandlerStepMoves(s, step, i);
      case Shutdown => HandlerStepMoves(s, step, i);
      case TransportEnd => HandlerStepMoves(s, step, i);
      case _ => EndStepMoves(s, step, i);
    }
  }

  lemma LoudStepMoves(s: State, step: Step, i: nat)
    requires Enabled(s, step) && i < |s.entries| && !IsQuiet(step)
    ensures i < |Next(s, step).entries| && Moves(step, i, s.entries[i], Next(s, step).entries[i])
  {
    match step {
      case Drop(_) => DropMoves(s, step, i);
      case Send(_) => SendStepMoves(s, step, i);
      case Lose(_, _) => SendStepMoves(s, step, i);
      case CancelEnd(_) => HandlerEndMoves(s, step, i);
      case EndEntry(_) => HandlerEndMoves(s, step, i);
      case _ => AnswerStepMoves(s, step, i);
    }
  }

  lemma EntryMoves(s: State, step: Step, i: nat)
    requires Enabled(s, step) && i < |s.entries|
    ensures i < |Next(s, step).entries| && Moves(step, i, s.entries[i], Next(s, step).entries[i])
  {
    if IsQuiet(step) {
      QuietStepMoves(s, step, i);
      QuietMoves(step, i, s.entries[i], Next(s, step).entries[i]);
    } else {
      LoudStepMoves(s, step, i);
    }
  }

  /** Entries are never lost, and only a call that is accepted adds one. */
  lemma EntriesGrow(s: State, step: Step)
    requires Enabled(s, step)
    ensures |s.entries| <= |Next(s, step).entries|
    ensures |s.entries| < |Next(s, step).entries| ==>
      step.CallFrame? && Next(s, step).entries == s.entries + [NewCall(step.ws)]
  {
  }

  /** An entry's flags against what happened to it: it is marked dropped exactly when its wait was cancelled from
      inside, which ends it, and lost exactly when its answer was; and its answer is taken in hand by the handlers that
      reach it, or by its own end. */
  predicate History(e: Entry, dropped: bool, handled: bool, lost: bool) {
    && (e.dropped <==> dropped) && (e.lost <==> lost)
    && (e.dropped ==> e.phase in {Finishing, Done})
    && (handled ==> e.terminalSent)
    && (e.terminalSent && !handled ==> !e.dropped && e.phase in {Finishing, Done})
  }

  lemma HistoryMoves(step: Step, i: nat, e: Entry, f: Entry, dropped: bool, handled: bool, lost: bool)
    requires History(e, dropped, handled, lost) && Moves(step, i, e, f)
    ensures History(f, dropped || step == Drop(i), handled || Handles(step, i), lost || Loses(step, i))
  {
  }

  lemma {:induction false} NotYetTaken(steps: seq<Step>, step: Step, i: nat)
    requires |Run(steps).entries| <= i && Concerns(step, i)
    ensures !Taken(steps, step)
  {
    if steps != [] {
      var init := steps[..|steps| - 1];
      if Enabled(Run(init), steps[|steps| - 1]) { EntriesGrow(Run(init), steps[|steps| - 1]); }
      NotYetTaken(init, step, i);
    }
  }

  lemma NothingYet(steps: seq<Step>, i: nat)
    requires |Run(steps).entries| <= i
    ensures !Taken(steps, Drop(i)) && !Handled(steps, i) && !AnswerLost(steps, i)
  {
    NotYetTaken(steps, Drop(i), i);
    NotYetTaken(steps, CancelEnd(i), i);
    NotYetTaken(steps, EndEntry(i), i);
    NotYetTaken(steps, Lose(ByCall(i), false), i);
    NotYetTaken(steps, Lose(ByCall(i), true), i);
    NotYetTaken(steps, Lose(ByHandler(i), false), i);
    NotYetTaken(steps, Lose(ByHandler(i), true), i);
  }

  /** What the last step adds to what was taken. */
  lemma TakenLast(steps: seq<Step>, i: nat)
    requires steps != []
    ensures var init, last := steps[..|steps| - 1], steps[|steps| - 1];
      var on := Enabled(Run(init), last);
      && (Taken(steps, Drop(i)) <==> Taken(init, Drop(i)) || (on && last == Drop(i)))
      && (Handled(steps, i) <==> Handled(init, i) || (on && Handles(last, i)))
      && (AnswerLost(steps, i) <==> AnswerLost(init, i) || (on && Loses(last, i)))
  {
    var last := steps[|steps| - 1];
    assert Loses(last, i) <==>
      last in {Lose(ByCall(i), false), Lose(ByCall(i), true), Lose(ByHandler(i), false), Lose(ByHandler(i), true)};
  }

  lemma {:induction false} HistoryEverywhere(steps: seq<Step>, i: nat)
    requires i < |Run(steps).entries|
    ensures History(Run(steps).entries[i], Taken(steps, Drop(i)), Handled(steps, i), AnswerLost(steps, i))
  {
    var init, last := steps[..|steps| - 1], steps[|steps| - 1];
    var s := Run(init);
    TakenLast(steps, i);
    if i < |s.entries| {
      HistoryEverywhere(init, i);
      if Enabled(s, last) {
        EntryMoves(s, last, i);
        HistoryMoves(last, i, s.entries[i], Run(steps).entries[i],
                     Taken(init, Drop(i)), Handled(init, i), AnswerLost(init, i));
      }
    } else {
      EntriesGrow(s, last);
      NothingYet(init, i);
    }
  }

  /** Exactly which finished calls are unanswered, over every run: those whose wait was cancelled from inside and that
      no cancel, shutdown or disconnect handler reached; those whose answer was in hand and lost before it was sent; and
      those whose answer a handler still has in hand. */
  lemma UnansweredIff(steps: seq<Step>, i: nat)
    requires i < |Run(steps).entries| && Run(steps).entries[i].phase == Done
    ensures Run(steps).entries[i].ws !in Run(steps).wire <==>
      || (Taken(steps, Drop(i)) && !Handled(steps, i))
      || AnswerLost(steps, i)
      || ByHandler(i) in Run(steps).waiting
  {
    var s := Run(steps);
    RunKeepsInv(steps);
    HistoryEverywhere(steps, i);
    assert FlagsOk(s.entries[i], i, s.owner, s.late) && AnswerOk(s, i);
    assert ByHandler(i) in s.waiting ==> SenderOk(s, ByHandler(i));
    assert ByCall(i) in s.waiting ==> SenderOk(s, ByCall(i));
  }

  lemma RunSnoc(steps: seq<Step>, step: Step)
    requires Enabled(Run(steps), step)
    ensures Run(steps + [step]) == Next(Run(steps), step)
  {
    assert (steps + [step])[..|steps|] == steps;
  }

  /** One call alone in the adapter, where it is. */
  function Alone(e: Entry, pending: map<string, nat>, queue: seq<nat>): State {
    State([e], pending, {Call(0)}, queue, false, {}, {}, {}, {"a"}, {}, [], [], map[], {})
  }

  lemma BeginRun()
    ensures Run([CallFrame("a")] + [Begin(0)]) == Alone(NewCall("a").(phase := Started), map["a" := 0], [])
  {
    assert [] + [CallFrame("a")] == [CallFrame("a")];
    RunSnoc([], CallFrame("a"));
    assert {} + {"a"} == {"a"} && [] + [NewCall("a")] == [NewCall("a")];
    assert Run([CallFrame("a")]) == Alone(NewCall("a"), map[], []);
    RunSnoc([CallFrame("a")], Begin(0));
  }

  /** It does happen: a call whose wait is cancelled from inside finishes without an answer. */
  lemma DroppedUnanswered()
    ensures var s := Run([CallFrame("a")] + [Begin(0)] + [Drop(0)] + [Finish(0)]);
      |s.entries| == 1 && s.entries[0].phase == Done && s.entries[0].ws == "a" && s.wire == [] && s.waiting == {}
  {
    var steps := [CallFrame("a")] + [Begin(0)];
    BeginRun();
    RunSnoc(steps, Drop(0));
    assert Run(steps + [Drop(0)]) == Alone(NewCall("a").(phase := Finishing, dropped := true), map["a" := 0], []);
    RunSnoc(steps + [Drop(0)], Finish(0));
  }

  /** And so does this: a call is refused and waits for the send lock with its answer; a cancel arrives, finds the
      answer taken in hand and cancels the task; the task never sends. No wait was cancelled from inside, and a handler
      did reach it. */
  lemma CancelledInTheSend()
    ensures var marked := [CallFrame("a")] + [Begin(0)] + [Raise(0)];
      var s := Run(marked + [CancelFrame("a")] + [CancelEnd(0)] + [Lose(ByCall(0), false)] + [Finish(0)]);
      |s.entries| == 1 && s.entries[0].phase == Done && !s.entries[0].dropped && s.wire == [] && s.waiting == {}
  {
    var steps := [CallFrame("a")] + [Begin(0)];
    BeginRun();
    RunSnoc(steps, Raise(0));
    var marked := steps + [Raise(0)];
    var e := NewCall("a").(phase := Finishing, terminalSent := true);
    assert Run(marked) == Alone(e, map["a" := 0], []).(waiting := {ByCall(0)});
    CancelledWhileWaiting(marked, e);
  }

  lemma CancelledWhileWaiting(marked: seq<Step>, e: Entry)
    requires e == NewCall("a").(phase := Finishing, terminalSent := true)
    requires Run(marked) == Alone(e, map["a" := 0], []).(waiting := {ByCall(0)})
    ensures var s := Run(marked + [CancelFrame("a")] + [CancelEnd(0)] + [Lose(ByCall(0), false)] + [Finish(0)]);
      |s.entries| == 1 && s.entries[0].phase == Done && !s.entries[0].dropped && s.wire == [] && s.waiting == {}
  {
    var s := Run(marked);
    RunSnoc(marked, CancelFrame("a"));
    var asked := marked + [CancelFrame("a")];
    assert Run(asked) == s.(entries := [e.(cancelRequested := true)], cancelling := {0});
    RunSnoc(asked, CancelEnd(0));
    var ended := asked + [CancelEnd(0)];
    assert Run(ended) == s.(entries := [e.(cancelRequested := true, unwinding := true)]);
    LostThenFinished(ended, e.(cancelRequested := true, unwinding := true));
  }

  lemma LostThenFinished(ended: seq<Step>, e: Entry)
    requires e.ws == "a" && e.phase == Finishing && e.unwinding && !e.dropped
    requires Run(ended) == Alone(e, map["a" := 0], []).(waiting := {ByCall(0)})
    ensures var s := Run(ended + [Lose(ByCall(0), false)] + [Finish(0)]);
      |s.entries| == 1 && s.entries[0].phase == Done && !s.entries[0].dropped && s.wire == [] && s.waiting == {}
  {
    RunSnoc(ended, Lose(ByCall(0), false));
    RunSnoc(ended + [Lose(ByCall(0), false)], Finish(0));
  }

  // ---- SDK ids --------------------------------------------------------------------------------------------

  /** Some request went out under this id after its own call had finished. */
  predicate IssuedLate(steps: seq<Step>, id: nat) {
    steps != [] &&
      var init, last := steps[..|steps| - 1], steps[|steps| - 1];
      || IssuedLate(init, id)
      || (last.Issue? && last.id == id && Enabled(Run(init), last) && Run(init).entries[last.i].phase == Done)
  }

  lemma {:induction false} LateIff(steps: seq<Step>, id: nat)
    ensures id in Run(steps).late <==> IssuedLate(steps, id)
  {
    if steps != [] {
      LateIff(steps[..|steps| - 1], id);
      if Enabled(Run(steps[..|steps| - 1]), steps[|steps| - 1]) {
        LateStep(Run(steps[..|steps| - 1]), steps[|steps| - 1]);
      }
    }
  }

  lemma LateStep(s: State, step: Step)
    requires Enabled(s, step)
    ensures Next(s, step).late == s.late + if step.Issue? && s.entries[step.i].phase == Done then {step.id} else {}
  {
  }

  /** Exactly when a captured SDK id is the call's own, over every run: when its request did not go out for a call that
      had finished. */
  lemma CapturedIdIsOwnIff(steps: seq<Step>, i: nat)
    requires i < |Run(steps).entries| && Run(steps).entries[i].sdk.Some?
    ensures var s := Run(steps);
      var id := s.entries[i].sdk.value;
      id in s.owner && (s.owner[id] == i <==> !IssuedLate(steps, id))
  {
    RunKeepsInv(steps);
    assert FlagsOk(Run(steps).entries[i], i, Run(steps).owner, Run(steps).late);
    LateIff(steps, Run(steps).entries[i].sdk.value);
  }

  const GONE := NewCall("a").(phase := Done, invoked := true, dropped := true)

  /** The first call has invoked the SDK, was dropped, and is gone. */
  lemma FirstGone()
    ensures Run([CallFrame("a")] + [Begin(0)] + [Invoke(0)] + [Drop(0)] + [Finish(0)] + [Reap(0)])
         == START.(entries := [GONE], arrived := {"a"})
  {
    var steps := [CallFrame("a")] + [Begin(0)];
    BeginRun();
    RunSnoc(steps, Invoke(0));
    var e := NewCall("a").(phase := Invoking, invoked := true);
    assert [] + [0] == [0];
    assert Run(steps + [Invoke(0)]) == Alone(e, map["a" := 0], [0]);
    RunSnoc(steps + [Invoke(0)], Drop(0));
    var dropped := steps + [Invoke(0)] + [Drop(0)];
    assert Run(dropped) == Alone(e.(phase := Finishing, dropped := true), map["a" := 0], [0]);
    RunSnoc(dropped, Finish(0));
    assert Run(dropped + [Finish(0)]) == Alone(GONE, map[], []);
    RunSnoc(dropped + [Finish(0)], Reap(0));
  }

  /** If a request goes out after its call has finished, the next call takes its id for its own. */
  lemma LateIdIsForeign()
    ensures var gone := [CallFrame("a")] + [Begin(0)] + [Invoke(0)] + [Drop(0)] + [Finish(0)] + [Reap(0)];
      var s := Run(gone + [CallFrame("b")] + [Begin(1)] + [Invoke(1)] + [Issue(0, 7)]);
      |s.entries| == 2 && s.entries[1].sdk == Some(7) && s.owner == map[7 := 0]
  {
    FirstGone();
    NextTakesId([CallFrame("a")] + [Begin(0)] + [Invoke(0)] + [Drop(0)] + [Finish(0)] + [Reap(0)]);
  }

  lemma NextTakesId(gone: seq<Step>)
    requires Run(gone) == START.(entries := [GONE], arrived := {"a"})
    ensures var s := Run(gone + [CallFrame("b")] + [Begin(1)] + [Invoke(1)] + [Issue(0, 7)]);
      |s.entries| == 2 && s.entries[1].sdk == Some(7) && s.owner == map[7 := 0]
  {
    RunSnoc(gone, CallFrame("b"));
    var came := gone + [CallFrame("b")];
    var s := START.(entries := [GONE, NewCall("b")], arrived := {"a", "b"}, tasks := {Call(1)});
    assert [GONE] + [NewCall("b")] == [GONE, NewCall("b")] && {"a"} + {"b"} == {"a", "b"};
    assert Run(came) == s;
    RunSnoc(came, Begin(1));
    RunSnoc(came + [Begin(1)], Invoke(1));
    var called := came + [Begin(1)] + [Invoke(1)];
    var e := NewCall("b").(phase := Invoking, invoked := true);
    assert Run(called) == s.(entries := [GONE, e], pending := map["b" := 1], queue := [1]);
    RunSnoc(called, Issue(0, 7));
  }

  /** SDK cancellations: at most one per call, only when asked for, and with the id the call captured, which is its own
      exactly when its request did not go out late. */
  lemma CancelledAtMostOnce(steps: seq<Step>)
    ensures var s := Run(steps);
            && (forall j, k :: 0 <= j < k < |s.cancels| ==> s.cancels[j].0 != s.cancels[k].0)
            && (forall k :: 0 <= k < |s.cancels| ==>
                  && s.cancels[k].0 < |s.entries| && s.entries[s.cancels[k].0].cancelRequested
                  && s.cancels[k].1 in s.owner
                  && (s.owner[s.cancels[k].1] == s.cancels[k].0 <==> !IssuedLate(steps, s.cancels[k].1)))
  {
    RunKeepsInv(steps);
    var s := Run(steps);
    forall k | 0 <= k < |s.cancels|
      ensures s.entries[s.cancels[k].0].cancelRequested && s.cancels[k].1 in s.owner
      ensures s.owner[s.cancels[k].1] == s.cancels[k].0 <==> !IssuedLate(steps, s.cancels[k].1)
    {
      assert FlagsOk(s.entries[s.cancels[k].0], s.cancels[k].0, s.owner, s.late);
      LateIff(steps, s.cancels[k].1);
    }
  }

  // ---- Admission and handlers ---------------------------------------------------------------------------

  /** Exactly which calls are taken on: a frame that comes while no call is pending, no task runs and no shutdown has
      begun gets an entry and a task of its own; any other is refused, and its refusal is to be sent. */
  lemma TakenOnIff(steps: seq<Step>, ws: string)
    requires ws !in Run(steps).arrived
    ensures var s := Run(steps);
      var t := Next(s, CallFrame(ws));
      && (if s.pending == map[] && s.tasks == {} && !s.shutdown
          then t.entries == s.entries + [NewCall(ws)] && t.tasks == {Call(|s.entries|)} && t.waiting == s.waiting
          else t.entries == s.entries && t.tasks == s.tasks && t.waiting == s.waiting + {Refusal(ws)})
      && ws in t.arrived && t.wire == s.wire
  {
  }

  /** A handler that has reached a call has its task cancelled and its answer taken in hand, over every run. */
  lemma {:induction false} HandledIsStopped(steps: seq<Step>, i: nat)
    requires i < |Run(steps).entries| && Handled(steps, i)
    ensures Run(steps).entries[i].unwinding && Run(steps).entries[i].terminalSent
  {
    var init, last := steps[..|steps| - 1], steps[|steps| - 1];
    var s := Run(init);
    TakenLast(steps, i);
    RunKeepsInv(steps);
    if Enabled(s, last) {
      EntriesGrow(s, last);
      if Handled(init, i) {
        if |s.entries| <= i { NothingYet(init, i); }
        HandledIsStopped(init, i);
        UnwindingStays(s, last, i);
      }
    } else {
      HandledIsStopped(init, i);
    }
    assert FlagsOk(Run(steps).entries[i], i, Run(steps).owner, Run(steps).late);
  }

  /** The task of entry `i` is still cancelled. */
  predicate StillStopped(s: State, t: State, i: nat) {
    i < |s.entries| && i < |t.entries| && (s.entries[i].unwinding ==> t.entries[i].unwinding)
  }

  lemma SdkStepStops(s: State, step: Step, i: nat)
    requires Enabled(s, step) && i < |s.entries|
    requires step.TimeOut? || step.CancelFrame? || step.SweepEntry? || step.RunLateCancel?
    ensures StillStopped(s, Next(s, step), i)
  {
    var r := match step
      case TimeOut(j) => Requested(InPhase(s, j, TimingOut), j)
      case CancelFrame(ws) => Requested(s, s.pending[ws])
      case SweepEntry(j) => Requested(s, j)
      case _ => s;
    assert StillStopped(s, r, i);
  }

  lemma IssueStops(s: State, step: Step, i: nat)
    requires Enabled(s, step) && i < |s.entries| && step.Issue?
    ensures StillStopped(s, Next(s, step), i)
  {
    assert StillStopped(s, GoesOut(s, step.i, step.id), i);
  }

  lemma AnswerStepStops(s: State, step: Step, i: nat)
    requires Enabled(s, step) && i < |s.entries| && (step.Raise? || step.Return? || step.TimedOut?)
    ensures StillStopped(s, Next(s, step), i)
  {
    MarkEntry(InPhase(s, step.i, Finishing), step.i, ByCall(step.i), i);
  }

  lemma HandlerStops(s: State, step: Step, i: nat)
    requires Enabled(s, step) && i < |s.entries| && (step.CancelEnd? || step.EndEntry?)
    ensures StillStopped(s, Next(s, step), i)
  {
    var r := if step.CancelEnd? then s else Requested(s, step.i);
    assert StillStopped(s, r, i) && |r.entries| == |s.entries|;
    MarkEntry(Unwound(r, step.i), step.i, ByHandler(step.i), i);
  }

  lemma PlainStepStops(s: State, step: Step, i: nat)
    requires Enabled(s, step) && i < |s.entries|
    requires step.CallFrame? || step.Begin? || step.Invoke? || step.Unwind? || step.Drop? || step.Finish? || step.Reap?
          || step.Shutdown? || step.TransportEnd? || step.Send? || step.Lose?
    ensures StillStopped(s, Next(s, step), i)
  {
  }

  lemma UnwindingStays(s: State, step: Step, i: nat)
    requires Enabled(s, step) && i < |s.entries| && s.entries[i].unwinding
    ensures i < |Next(s, step).entries| && Next(s, step).entries[i].unwinding
  {
    match step {
      case TimeOut(_) => SdkStepStops(s, step, i);
      case CancelFrame(_) => SdkStepStops(s, step, i);
      case SweepEntry(_) => SdkStepStops(s, step, i);
      case RunLateCancel(_) => SdkStepStops(s, step, i);
      case Issue(_, _) => IssueStops(s, step, i);
      case Raise(_) => AnswerStepStops(s, step, i);
      case Return(_) => AnswerStepStops(s, step, i);
      case TimedOut(_) => AnswerStepStops(s, step, i);
      case CancelEnd(_) => HandlerStops(s, step, i);
      case EndEntry(_) => HandlerStops(s, step, i);
      case _ => PlainStepStops(s, step, i);
    }
  }

  /** An answer in hand that is sent is the next on the wire and in nobody's hand; one that is lost is on nobody's. */
  lemma SentExactly(steps: seq<Step>, x: Sender, socketFails: bool)
    requires Enabled(Run(steps), Send(x))
    ensures var s := Run(steps);
      var t := Next(s, Send(x));
      t.wire == s.wire + [WsOf(s, x)] && t.waiting == s.waiting - {x} && t.entries == s.entries && WsOf(s, x) !in s.wire
    ensures var s := Run(steps);
      Enabled(s, Lose(x, socketFails)) ==>
        var t := Next(s, Lose(x, socketFails));
        && t.wire == s.wire && t.waiting == s.waiting - {x} && |t.entries| == |s.entries|
        && (!x.Refusal? ==> t.entries[x.entry].lost)
  {
    RunKeepsInv(steps);
    assert SenderOk(Run(steps), x);
  }

  /** A shutdown and a disconnect get hold of every pending call. */
  lemma EndsReachPending(steps: seq<Step>, ws: string)
    requires ws in Run(steps).pending
    ensures var s := Run(steps);
      && (!s.shutdown ==> s.pending[ws] in Next(s, Shutdown).sweeping && Next(s, Shutdown).shutdown)
      && s.pending[ws] in Next(s, TransportEnd).ending
  {
    assert Run(steps).pending[ws] in Values(Run(steps).pending);
  }

  /** The entry was asked to cancel, and the cancel handler has it. */
  predicate CancelHasIt(t: State, i: nat) {
    i < |t.entries| && i in t.cancelling && t.entries[i].cancelRequested
  }

  /** The entry's task is cancelled, and its answer is taken in hand, by the handler if nobody had it. */
  predicate Stopped(s: State, t: State, i: nat) {
    && i < |s.entries| && i < |t.entries| && t.entries[i].unwinding && t.entries[i].terminalSent
    && (!s.entries[i].terminalSent ==> ByHandler(i) in t.waiting)
  }

  /** A `tool.cancel` gets hold of the call it names, and of no other. */
  lemma CancelReachesCall(steps: seq<Step>, ws: string)
    requires Enabled(Run(steps), CancelFrame(ws))
    ensures var s := Run(steps);
      var t := Next(s, CancelFrame(ws));
      && s.pending[ws] < |s.entries| && s.entries[s.pending[ws]].ws == ws && CancelHasIt(t, s.pending[ws])
      && t.cancelling == s.cancelling + {s.pending[ws]}
  {
    RunKeepsInv(steps);
  }

  /** Of what a shutdown has hold of, the cancel handler gets hold next. */
  lemma SweepReachesCall(steps: seq<Step>, i: nat)
    requires i in Run(steps).sweeping && i < |Run(steps).entries|
    ensures CancelHasIt(Next(Run(steps), SweepEntry(i)), i)
  {
  }

  /** What the cancel handler has hold of it stops. */
  lemma CancelStopsCall(steps: seq<Step>, i: nat)
    requires i in Run(steps).cancelling && i < |Run(steps).entries|
    ensures Stopped(Run(steps), Next(Run(steps), CancelEnd(i)), i)
  {
  }

  /** And so does a disconnect. */
  lemma EndStopsCall(steps: seq<Step>, i: nat)
    requires i in Run(steps).ending && i < |Run(steps).entries|
    ensures Stopped(Run(steps), Next(Run(steps), EndEntry(i)), i)
    ensures Next(Run(steps), EndEntry(i)).entries[i].cancelRequested
  {
  }
}
