/** What gets done on one connection: every waiter has its entry, and a response, a deadline or a drain reaches it. */
module ConnectionLaws {
  import opened Basics
  import opened Json
  import opened Connection

  /** Has entered the table and has had no mail. */
  predicate Awaits(c: Caller) {
    (c.phase.Inserted? || c.phase.Failing? || c.phase.Waiting?) && c.mail.Nothing?
  }

  predicate EntryOf(s: State, k: nat)
    requires k < |s.callers|
  {
    Awaits(s.callers[k]) ==> s.callers[k].phase.id in s.pending && s.pending[s.callers[k].phase.id] == k
  }

  predicate AllEntered(s: State) {
    forall k :: 0 <= k < |s.callers| ==> EntryOf(s, k)
  }

  /** Whose entry it is. */
  lemma OwnEntry(s: State, id: RequestId)
    requires Inv(s) && id in s.pending
    ensures s.pending[id] < |s.callers| && IdOf(s.callers[s.pending[id]]) == Some(id)
  {
    assert PendingOk(s, id);
  }

  lemma CallerStepEntered(s: State, step: Step, l: nat)
    requires Inv(s) && AllEntered(s) && l < |s.callers|
    requires step.TakeId? || step.Insert? || step.Send? || step.Cleanup? || step.GiveUp?
    ensures l < |Next(s, step).callers| && EntryOf(Next(s, step), l)
  {
    var k := step.k;
    assert EntryOf(s, l) && CallerOk(s, l);
    if k < |s.callers| {
      assert CallerOk(s, k);
      if k != l && IdOf(s.callers[k]).Some? { assert IdOf(s.callers[k]) != IdOf(s.callers[l]); }
    }
  }

  lemma OtherStepEntered(s: State, step: Step, l: nat)
    requires Inv(s) && AllEntered(s) && l < |Next(s, step).callers|
    requires !(step.TakeId? || step.Insert? || step.Send? || step.Cleanup? || step.GiveUp?)
    ensures EntryOf(Next(s, step), l)
  {
    if l < |s.callers| { assert EntryOf(s, l); }
    if step.Respond? && step.id in s.pending {
      OwnEntry(s, step.id);
    }
    if step.DrainClear? && l < |s.callers| && Awaits(s.callers[l]) {
      assert l in s.pending.Values by { assert s.pending[s.callers[l].phase.id] == l; }
    }
  }

  lemma {:induction false} EnteredEverywhere(steps: seq<Step>)
    ensures AllEntered(Run(FRESH, steps))
  {
    if steps != [] {
      var s, step := Run(FRESH, steps[..|steps| - 1]), steps[|steps| - 1];
      EnteredEverywhere(steps[..|steps| - 1]);
      RunKeepsInv(steps[..|steps| - 1]);
      forall l | 0 <= l < |Next(s, step).callers| ensures EntryOf(Next(s, step), l) {
        if step.TakeId? || step.Insert? || step.Send? || step.Cleanup? || step.GiveUp? {
          CallerStepEntered(s, step, l);
        } else {
          OtherStepEntered(s, step, l);
        }
      }
    }
  }

  /** Who has an entry, over every run: exactly the callers that entered the table and have had no mail; the table holds
      nothing else. */
  lemma TableIsExact(steps: seq<Step>, id: RequestId, k: nat)
    ensures var s := Run(FRESH, steps);
      id in s.pending && s.pending[id] == k <==> k < |s.callers| && Awaits(s.callers[k]) && s.callers[k].phase.id == id
  {
    RunKeepsInv(steps);
    EnteredEverywhere(steps);
    var s := Run(FRESH, steps);
    if id in s.pending { assert PendingOk(s, id); }
    if k < |s.callers| { assert EntryOf(s, k); }
  }

  /** So a response reaches the caller that awaits it, with its own id and value, and only that one; its entry is
      gone. */
  lemma ResponseArrives(steps: seq<Step>, k: nat, value: Json)
    requires k < |Run(FRESH, steps).callers| && Awaits(Run(FRESH, steps).callers[k])
    ensures var s := Run(FRESH, steps);
      var id := s.callers[k].phase.id;
      var t := Next(s, Respond(id, value));
      && t.callers == s.callers[k := s.callers[k].(mail := Answer(id, value))] && t.pending == s.pending - {id}
  {
    TableIsExact(steps, Run(FRESH, steps).callers[k].phase.id, k);
  }

  /** A deadline takes the caller's own entry out; and once a drain clears the table nobody awaits any more: each caller
      that did has been told. */
  lemma DeadlineAndDrainArrive(steps: seq<Step>, k: nat, j: nat)
    requires var s := Run(FRESH, steps);
      k < |s.callers| && Awaits(s.callers[k]) && j < |s.drains| && s.drains[j].Stored?
    ensures var s := Run(FRESH, steps);
      var late, cleared := Next(s, GiveUp(k)), Next(s, DrainClear(j));
      && (s.callers[k].phase.Waiting? ==>
            && late.pending == s.pending - {s.callers[k].phase.id}
            && late.callers == s.callers[k := Caller(GaveUp(s.callers[k].phase.id), Nothing)])
      && cleared.pending == map[] && |cleared.callers| == |s.callers|
      && cleared.callers[k] == s.callers[k].(mail := Dropped)
  {
    var s := Run(FRESH, steps);
    TableIsExact(steps, s.callers[k].phase.id, k);
    assert k in s.pending.Values by { assert s.pending[s.callers[k].phase.id] == k; }
  }

  /** A dispatch on a connection that is up gets a new id, an entry and a frame, and then awaits its response. */
  lemma DispatchGoesOut(steps: seq<Step>)
    requires Run(FRESH, steps).active && Run(FRESH, steps).sender
    ensures var s := Run(FRESH, steps);
      var k, id := |s.callers|, s.nextId;
      var t := Next(Next(Next(Next(s, Begin), TakeId(k)), Insert(k)), Send(k, true));
      && t.callers == s.callers + [Caller(Waiting(id), Nothing)] && t.wire == s.wire + [id]
      && t.pending == s.pending[id := k] && id !in s.pending && id !in s.wire
  {
    var s := Run(FRESH, steps);
    RunKeepsInv(steps);
    var k, id := |s.callers|, s.nextId;
    assert forall x :: x in s.pending ==> PendingOk(s, x);
    var begun := Next(s, Begin);
    assert begun.callers == s.callers + [Caller(Checked, Nothing)];
    var numbered := Next(begun, TakeId(k));
    assert numbered.callers == s.callers + [Caller(Numbered(id), Nothing)];
    var inserted := Next(numbered, Insert(k));
    assert inserted.callers == s.callers + [Caller(Inserted(id), Nothing)] && inserted.pending == s.pending[id := k];
  }

  /** One that finds the writer gone leaves no entry behind. */
  lemma FailedDispatchLeavesNothing(steps: seq<Step>, k: nat)
    requires var s := Run(FRESH, steps); k < |s.callers| && s.callers[k].phase.Inserted? && s.callers[k].mail.Nothing?
    ensures var s := Run(FRESH, steps);
      var t := Next(Next(s, Send(k, false)), Cleanup(k));
      && t.pending == s.pending - {s.callers[k].phase.id} && t.wire == s.wire
      && t.callers == s.callers[k := Caller(Refused(WriterClosed, Some(s.callers[k].phase.id)), Nothing)]
  {
    var s := Run(FRESH, steps);
    var failing := Next(s, Send(k, false));
    assert failing.callers == s.callers[k := Caller(Failing(s.callers[k].phase.id), Nothing)];
  }
}
