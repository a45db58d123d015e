/** SDK cancellations of the adapter's calls: exactly which calls have one sent. */
module AdapterCancels {
  import opened Basics
  import opened Adapter
  import opened AdapterLaws

  /** A timeout, a `tool.cancel` or a shutdown asks for the call to be cancelled in the SDK. */
  predicate Asks(s: State, step: Step, i: nat) {
    || step == TimeOut(i) || step == SweepEntry(i)
    || (step.CancelFrame? && step.ws in s.pending && s.pending[step.ws] == i)
  }

  /** The call captures an SDK id. */
  predicate Captures(s: State, step: Step, i: nat) {
    step.Issue? && s.queue != [] && s.queue[0] == i
  }

  /** In the run somebody asked, or the call had been asked to cancel, by whatever handler, when it captured its id. */
  predicate Told(steps: seq<Step>, i: nat) {
    steps != [] &&
      var init, last := steps[..|steps| - 1], steps[|steps| - 1];
      var s := Run(init);
      || Told(init, i)
      || (Enabled(s, last) && Asks(s, last, i))
      || (Enabled(s, last) && Captures(s, last, i) && i < |s.entries| && s.entries[i].cancelRequested)
  }

  /** The cancellation is sent, or its own task is about to send it. */
  predicate Sending(s: State, i: nat)
    requires i < |s.entries|
  {
    s.entries[i].cancelSent || LateCancel(i) in s.tasks
  }

  /** What a step does to the SDK side of an entry that was there. */
  predicate SdkMoves(s: State, step: Step, t: State, i: nat)
    requires i < |s.entries| && i < |t.entries|
  {
    var e, f := s.entries[i], t.entries[i];
    && (e.cancelRequested || Asks(s, step, i) ==> f.cancelRequested)
    && (e.sdk.Some? ==> f.sdk == e.sdk && (Sending(t, i) <==> Sending(s, i) || Asks(s, step, i)))
    && (e.sdk.None? && !Sending(s, i) ==>
          if Captures(s, step, i) then f.sdk == Some(step.id) && (Sending(t, i) <==> e.cancelRequested)
          else f.sdk.None? && !Sending(t, i))
    && (forall x :: x in s.cancels ==> x in t.cancels)
    && (f.cancelSent && !e.cancelSent ==> f.sdk.Some? && (i, f.sdk.value) in t.cancels)
  }

  /** Steps that leave the SDK side alone. */
  predicate Silent(step: Step) {
    && !step.TimeOut? && !step.SweepEntry? && !step.CancelFrame? && !step.Issue? && !step.RunLateCancel?
  }

  lemma SilentMoves(s: State, step: Step, i: nat)
    requires Inv(s) && Enabled(s, step) && Silent(step) && i < |s.entries|
    ensures i < |Next(s, step).entries| && SdkMoves(s, step, Next(s, step), i)
  {
    EntriesGrow(s, step);
    SilentEntry(s, step, i);
    SilentTasks(s, step, i);
  }

  /** The SDK side of entry `i` is as it was, and so is the log of cancellations. */
  predicate SameSdk(s: State, t: State, i: nat) {
    && i < |s.entries| && i < |t.entries| && t.cancels == s.cancels
    && t.entries[i].sdk == s.entries[i].sdk && t.entries[i].cancelSent == s.entries[i].cancelSent
    && (s.entries[i].cancelRequested ==> t.entries[i].cancelRequested)
  }

  lemma SilentEntry(s: State, step: Step, i: nat)
    requires Enabled(s, step) && Silent(step) && i < |s.entries|
    ensures SameSdk(s, Next(s, step), i)
  {
    match step {
      case Raise(_) => AnsweringEntry(s, step, i);
      case Return(_) => AnsweringEntry(s, step, i);
      case TimedOut(_) => AnsweringEntry(s, step, i);
      case CancelEnd(_) => HandlerEntry(s, step, i);
      case EndEntry(_) => HandlerEntry(s, step, i);
      case Send(_) => SendingEntry(s, step, i);
      case Lose(_, _) => SendingEntry(s, step, i);
      case _ => PlainEntry(s, step, i);
    }
  }

  lemma AnsweringEntry(s: State, step: Step, i: nat)
    requires Enabled(s, step) && (step.Raise? || step.Return? || step.TimedOut?) && i < |s.entries|
    ensures SameSdk(s, Next(s, step), i)
  {
    MarkEntry(InPhase(s, step.i, Finishing), step.i, ByCall(step.i), i);
  }

  lemma HandlerEntry(s: State, step: Step, i: nat)
    requires Enabled(s, step) && (step.CancelEnd? || step.EndEntry?) && i < |s.entries|
    ensures SameSdk(s, Next(s, step), i)
  {
    var r := if step.CancelEnd? then s else Requested(s, step.i);
    assert SameSdk(s, r, i) && |r.entries| == |s.entries|;
    MarkEntry(Unwound(r, step.i), step.i, ByHandler(step.i), i);
  }

  lemma SendingEntry(s: State, step: Step, i: nat)
    requires Enabled(s, step) && (step.Send? || step.Lose?) && i < |s.entries|
    ensures SameSdk(s, Next(s, step), i)
  {
  }

  lemma PlainEntry(s: State, step: Step, i: nat)
    requires Enabled(s, step) && i < |s.entries|
    requires step.CallFrame? || step.Begin? || step.Invoke? || step.Unwind? || step.Drop? || step.Finish? || step.Reap?
          || step.Shutdown? || step.TransportEnd?
    ensures SameSdk(s, Next(s, step), i)
  {
  }

  lemma SilentTasks(s: State, step: Step, i: nat)
    requires Enabled(s, step) && Silent(step)
    ensures LateCancel(i) in Next(s, step).tasks <==> LateCancel(i) in s.tasks
  {
  }

  /** `_send_sdk_cancel`, after the call was asked to cancel. */
  lemma CancelledMoves(s: State, j: nat, i: nat)
    requires j < |s.entries| && i < |s.entries|
    ensures var t := SdkCancelled(Requested(s, j), j);
      var e, f := s.entries[i], t.entries[i];
      && f.sdk == e.sdk && (e.cancelRequested || i == j ==> f.cancelRequested) && t.tasks == s.tasks
      && (f.cancelSent <==> e.cancelSent || (i == j && e.sdk.Some?))
      && (forall x :: x in s.cancels ==> x in t.cancels)
      && (f.cancelSent && !e.cancelSent ==> (i, f.sdk.value) in t.cancels)
  {
  }

  lemma AskingMoves(s: State, step: Step, i: nat)
    requires Inv(s) && Enabled(s, step) && (step.TimeOut? || step.SweepEntry? || step.CancelFrame?) && i < |s.entries|
    ensures i < |Next(s, step).entries| && SdkMoves(s, step, Next(s, step), i)
  {
    if step.TimeOut? {
      CancelledMoves(InPhase(s, step.i, TimingOut), step.i, i);
    } else if step.SweepEntry? {
      CancelledMoves(s, step.i, i);
    } else {
      CancelledMoves(s, s.pending[step.ws], i);
    }
  }

  lemma LateCancelMoves(s: State, j: nat, i: nat)
    requires Inv(s) && Enabled(s, RunLateCancel(j)) && i < |s.entries|
    requires s.entries[j].sdk.Some?
    ensures i < |Next(s, RunLateCancel(j)).entries| && SdkMoves(s, RunLateCancel(j), Next(s, RunLateCancel(j)), i)
  {
  }

  lemma IssueMovesSdk(s: State, step: Step, i: nat)
    requires Inv(s) && Enabled(s, step) && step.Issue? && i < |s.entries|
    ensures i < |Next(s, step).entries| && SdkMoves(s, step, Next(s, step), i)
  {
    var r := GoesOut(s, step.i, step.id);
    assert r.queue == s.queue && |r.entries| == |s.entries|;
    assert forall j :: 0 <= j < |s.entries| ==>
      r.entries[j].sdk == s.entries[j].sdk && r.entries[j].cancelSent == s.entries[j].cancelSent
      && r.entries[j].cancelRequested == s.entries[j].cancelRequested;
  }

  /** The SDK side of an entry against what happened in the run. */
  ghost predicate SdkOk(s: State, i: nat, told: bool)
    requires i < |s.entries|
  {
    var e := s.entries[i];
    && (e.sdk.Some? ==> (Sending(s, i) <==> told))
    && (e.sdk.None? ==> !Sending(s, i) && (told ==> e.cancelRequested))
    && (e.cancelSent ==> e.sdk.Some? && (i, e.sdk.value) in s.cancels)
  }

  lemma SdkOkStep(s: State, step: Step, t: State, i: nat, told: bool)
    requires i < |s.entries| && i < |t.entries| && SdkOk(s, i, told) && SdkMoves(s, step, t, i) && QueueOk(s)
    ensures SdkOk(t, i, told || Asks(s, step, i) || (Captures(s, step, i) && s.entries[i].cancelRequested))
  {
  }

  lemma StepMovesSdk(s: State, step: Step, i: nat)
    requires Inv(s) && Enabled(s, step) && i < |s.entries| && (step.RunLateCancel? ==> s.entries[step.i].sdk.Some?)
    ensures i < |Next(s, step).entries| && SdkMoves(s, step, Next(s, step), i)
  {
    if Silent(step) {
      SilentMoves(s, step, i);
    } else if step.Issue? {
      IssueMovesSdk(s, step, i);
    } else if step.RunLateCancel? {
      LateCancelMoves(s, step.i, i);
    } else {
      AskingMoves(s, step, i);
    }
  }

  lemma {:induction false} NotToldYet(steps: seq<Step>, i: nat)
    requires |Run(steps).entries| <= i
    ensures !Told(steps, i)
  {
    if steps != [] {
      var init, last := steps[..|steps| - 1], steps[|steps| - 1];
      RunKeepsInv(init);
      if Enabled(Run(init), last) { EntriesGrow(Run(init), last); }
      NotToldYet(init, i);
    }
  }

  lemma {:induction false} SdkEverywhere(steps: seq<Step>, i: nat)
    requires i < |Run(steps).entries|
    ensures SdkOk(Run(steps), i, Told(steps, i))
  {
    var init, last := steps[..|steps| - 1], steps[|steps| - 1];
    var s := Run(init);
    RunKeepsInv(init);
    if !Enabled(s, last) {
      SdkEverywhere(init, i);
    } else if i < |s.entries| {
      SdkEverywhere(init, i);
      if last.RunLateCancel? { SdkEverywhere(init, last.i); }
      StepMovesSdk(s, last, i);
      SdkOkStep(s, last, Next(s, last), i, Told(init, i));
    } else {
      EntriesGrow(s, last);
      NotToldYet(init, i);
    }
  }

  /** Exactly which calls are cancelled in the SDK, over every run: a call that has its SDK id has its cancellation sent
      under that id, or about to be sent by a task of its own, if and only if a timeout, a `tool.cancel` or a shutdown
      asked for it, or some handler had asked the call to cancel before the id was known. */
  lemma CancelledInSdkIff(steps: seq<Step>, i: nat)
    requires i < |Run(steps).entries| && Run(steps).entries[i].sdk.Some?
    ensures var s := Run(steps);
      (i, s.entries[i].sdk.value) in s.cancels || LateCancel(i) in s.tasks <==> Told(steps, i)
  {
    RunKeepsInv(steps);
    SdkEverywhere(steps, i);
    var s := Run(steps);
    if (i, s.entries[i].sdk.value) in s.cancels {
      var k :| 0 <= k < |s.cancels| && s.cancels[k] == (i, s.entries[i].sdk.value);
      assert s.entries[s.cancels[k].0].cancelSent;
    }
  }

  /** A disconnect alone does not: the call is asked to stop, and its request in the SDK is left to itself. */
  lemma DisconnectCancelsNothing()
    ensures var called := [CallFrame("a")] + [Begin(0)] + [Invoke(0)] + [Issue(0, 7)];
      var s := Run(called + [TransportEnd] + [EndEntry(0)]);
      |s.entries| == 1 && s.entries[0].sdk == Some(7) && s.entries[0].cancelRequested && s.cancels == []
          && !(LateCancel(0) in s.tasks)
  {
    var steps := [CallFrame("a")] + [Begin(0)];
    BeginRun();
    RunSnoc(steps, Invoke(0));
    var e := NewCall("a").(phase := Invoking, invoked := true);
    assert [] + [0] == [0];
    assert Run(steps + [Invoke(0)]) == Alone(e, map["a" := 0], [0]);
    RunSnoc(steps + [Invoke(0)], Issue(0, 7));
    var called := steps + [Invoke(0)] + [Issue(0, 7)];
    assert Run(called) == Alone(e.(issued := true, sdk := Some(7)), map["a" := 0], []).(owner := map[7 := 0]);
    EndedByDisconnect(called, e.(issued := true, sdk := Some(7)));
  }

  lemma ValuesOfOne(ws: string, i: nat)
    ensures Values(map[ws := i]) == {i}
  {
    assert ws in map[ws := i];
  }

  lemma EndedByDisconnect(called: seq<Step>, e: Entry)
    requires e.sdk == Some(7) && e.ws == "a" && !e.terminalSent
    requires Run(called) == Alone(e, map["a" := 0], []).(owner := map[7 := 0])
    ensures var s := Run(called + [TransportEnd] + [EndEntry(0)]);
      |s.entries| == 1 && s.entries[0].sdk == Some(7) && s.entries[0].cancelRequested && s.cancels == []
          && !(LateCancel(0) in s.tasks)
  {
    RunSnoc(called, TransportEnd);
    var s := Run(called);
    ValuesOfOne("a", 0);
    assert {} + {0} == {0};
    assert Run(called + [TransportEnd]) == s.(ending := {0});
    RunSnoc(called + [TransportEnd], EndEntry(0));
  }
}
