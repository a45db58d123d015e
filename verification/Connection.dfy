/** One connection handle: correlation of responses with requests, and draining.
    The class is the handle with each operation as one step; the machine below it takes every lock separately. */
module Connection {
  import opened Basics
  import opened Json

  /** The number n of the id `mgr-n`. */
  type RequestId = nat

  datatype CallError = Disconnected | WriterClosed

  class ConnectionHandle {
    var active: bool
    var sender: bool                          // the outbound sender is still there
    var pending: map<RequestId, nat>          // id -> who waits for it
    var nextId: nat
    var outbound: seq<RequestId>              // requests handed to the writer

    ghost predicate Valid()
      reads this
    {
      && (forall id :: id in pending ==> id < nextId)
      && (forall i :: 0 <= i < |outbound| ==> outbound[i] < nextId)
      && (forall i, j :: 0 <= i < j < |outbound| ==> outbound[i] < outbound[j])
      && (!active ==> pending == map[] && !sender)
    }

    constructor ()
      ensures Valid() && active && pending == map[] && outbound == []
    {
      active, sender, pending, nextId, outbound := true, true, map[], 0, [];
    }

    /** A drained handle refuses; otherwise the id is fresh, and the waiter is registered under it exactly
        when the request went out. */
    method DispatchRequest(waiter: nat, writerUp: bool) returns (r: Result<RequestId, CallError>)
      requires Valid()
      modifies this
      ensures Valid() && active == old(active) && sender == old(sender)
      ensures !old(active) ==> r == Err(Disconnected) && nextId == old(nextId)
      ensures r.Ok? <==> old(active) && old(sender) && writerUp
      ensures r.Ok? ==> r.value == old(nextId) && r.value !in old(pending) && r.value !in old(outbound)
      ensures r.Ok? ==>
          pending == old(pending)[r.value := waiter] && outbound == old(outbound) + [r.value] && nextId == r.value + 1
      ensures r.Err? ==> pending == old(pending) && outbound == old(outbound)
    {
      if !active { return Err(Disconnected); }
      var id := nextId;
      nextId := nextId + 1;
      pending := pending[id := waiter];
      if !sender || !writerUp {
        pending := pending - {id};
        assert pending == old(pending);
        return Err(WriterClosed);
      }
      outbound := outbound + [id];
      return Ok(id);
    }

    method CancelPending(id: RequestId)
      requires Valid()
      modifies this`pending
      ensures Valid() && pending == old(pending) - {id}
    {
      pending := pending - {id};
    }

    /** Hands a response to the one waiter of its id; a response nobody waits for changes nothing. */
    method CompleteResponse(id: RequestId) returns (receiver: Option<nat>)
      requires Valid()
      modifies this`pending
      ensures Valid()
      ensures receiver == if id in old(pending) then Some(old(pending)[id]) else None
      ensures id !in pending && pending == old(pending) - {id}
    {
      if id !in pending { return None; }
      receiver := Some(pending[id]);
      pending := pending - {id};
    }

    method DrainPending()
      requires Valid()
      modifies this
      ensures Valid() && !active && pending == map[] && !sender && nextId == old(nextId) && outbound == old(outbound)
    {
      active := false;
      pending := map[];
      sender := false;
    }
  }

  // ---- The same operations, lock by lock -----------------------------------------------------

  /** One `dispatch_request` and the wait that follows it. */
  datatype Phase =
    | Checked                    // saw the handle active
    | Numbered(id: RequestId)    // has its id
    | Inserted(id: RequestId)    // is in the pending table
    | Failing(id: RequestId)     // could not send; about to leave the table
    | Waiting(id: RequestId)     // the request is on the wire
    | Refused(error: CallError, had: Option<RequestId>)
    | GaveUp(id: RequestId)      // deadline passed, slot cancelled

  /** What came out of the one-shot channel: a response with the id it carried, or a dropped sender. */
  datatype Mail = Nothing | Answer(id: RequestId, value: Json) | Dropped

  datatype Caller = Caller(phase: Phase, mail: Mail)

  datatype DrainPhase = Stored | Cleared | Finished

  datatype State = State(
    active: bool, sender: bool, pending: map<RequestId, nat>, nextId: nat, wire: seq<RequestId>,
    callers: seq<Caller>, drains: seq<DrainPhase>)

  const FRESH := State(true, true, map[], 0, [], [], [])

  datatype Step =
    | Begin                                   // a new caller reads the state flag
    | TakeId(k: nat)
    | Insert(k: nat)
    | Send(k: nat, writerUp: bool)
    | Cleanup(k: nat)
    | GiveUp(k: nat)
    | Respond(id: RequestId, value: Json)
    | DrainStore                              // a new drain stores the flag
    | DrainClear(j: nat)
    | DrainTake(j: nat)

  function SetPhase(s: State, k: nat, phase: Phase): State
    requires k < |s.callers|
  {
    s.(callers := s.callers[k := s.callers[k].(phase := phase)])
  }

  function DropAll(callers: seq<Caller>, pending: map<RequestId, nat>): seq<Caller> {
    seq(|callers|, k requires 0 <= k < |callers| =>
      if k in pending.Values && callers[k].mail.Nothing? then callers[k].(mail := Dropped) else callers[k])
  }

  function Next(s: State, step: Step): State {
    match step
    case Begin => s.(callers := s.callers + [Caller(if s.active then Checked
        else Refused(Disconnected, None), Nothing)])
    case TakeId(k) =>
      if k < |s.callers| && s.callers[k].phase.Checked?
          then SetPhase(s, k, Numbered(s.nextId)).(nextId := s.nextId + 1) else s
    case Insert(k) =>
      if k < |s.callers| && s.callers[k].phase.Numbered?
      then SetPhase(s, k, Inserted(s.callers[k].phase.id)).(pending := s.pending[s.callers[k].phase.id := k]) else s
    case Send(k, writerUp) =>
      if k < |s.callers| && s.callers[k].phase.Inserted? then
        var id := s.callers[k].phase.id;
        if s.sender && writerUp then SetPhase(s, k, Waiting(id)).(wire := s.wire + [id])
            else SetPhase(s, k, Failing(id))
      else s
    case Cleanup(k) =>
      if k < |s.callers| && s.callers[k].phase.Failing?
      then
        var id := s.callers[k].phase.id;
        SetPhase(s, k, Refused(WriterClosed, Some(id))).(pending := s.pending - {id})
      else s
    case GiveUp(k) =>
      if k < |s.callers| && s.callers[k].phase.Waiting? && s.callers[k].mail.Nothing?
      then SetPhase(s, k, GaveUp(s.callers[k].phase.id)).(pending := s.pending - {s.callers[k].phase.id}) else s
    case Respond(id, value) =>
      if id in s.pending && s.pending[id] < |s.callers|
      then
        var k := s.pending[id];
        s.(pending := s.pending - {id}, callers := s.callers[k := s.callers[k].(mail := Answer(id, value))])
      else s
    case DrainStore => s.(active := false, drains := s.drains + [Stored])
    case DrainClear(j) =>
      if j < |s.drains| && s.drains[j].Stored?
      then s.(pending := map[], callers := DropAll(s.callers, s.pending), drains := s.drains[j := Cleared]) else s
    case DrainTake(j) =>
      if j < |s.drains| && s.drains[j].Cleared? then s.(sender := false, drains := s.drains[j := Finished]) else s
  }

  function Run(s: State, steps: seq<Step>): State
    decreases |steps|
  {
    if steps == [] then s else Next(Run(s, steps[..|steps| - 1]), steps[|steps| - 1])
  }

  /** The id a caller has been given, if any. */
  function IdOf(c: Caller): Option<RequestId> {
    match c.phase
    case Checked => None
    case Refused(_, had) => had
    case Numbered(id) => Some(id)
    case Inserted(id) => Some(id)
    case Failing(id) => Some(id)
    case Waiting(id) => Some(id)
    case GaveUp(id) => Some(id)
  }

  predicate CallerOk(s: State, k: nat)
    requires k < |s.callers|
  {
    var c := s.callers[k];
    && (IdOf(c).Some? ==> IdOf(c).value < s.nextId)
    && ((c.phase.Checked? || c.phase.Numbered?) ==> c.mail.Nothing? && (c.phase.Numbered? ==> c.phase.id !in s.pending))
    && (c.mail.Answer? ==> IdOf(c) == Some(c.mail.id) && c.mail.id !in s.pending)
    && (c.mail.Dropped? && IdOf(c).Some? ==> IdOf(c).value !in s.pending)
    && ((c.phase.Numbered? || c.phase.Inserted? || c.phase.Failing?) ==> c.phase.id !in s.wire)
  }

  /** Each id in the table belongs to the one caller that inserted it, who has had no mail yet. */
  predicate PendingOk(s: State, id: RequestId)
    requires id in s.pending
  {
    && id < s.nextId && s.pending[id] < |s.callers| && IdOf(s.callers[s.pending[id]]) == Some(id)
    && s.callers[s.pending[id]].mail.Nothing?
    && (var p := s.callers[s.pending[id]].phase; p.Inserted? || p.Failing? || p.Waiting?)
  }

  predicate Inv(s: State) {
    && (forall k :: 0 <= k < |s.callers| ==> CallerOk(s, k))
    && (forall id :: id in s.pending ==> PendingOk(s, id))
    && (forall k, l ::
        0 <= k < l < |s.callers| && IdOf(s.callers[k]).Some? ==> IdOf(s.callers[k]) != IdOf(s.callers[l]))
    && (forall i :: 0 <= i < |s.wire| ==> s.wire[i] < s.nextId)
    && Distinct(s.wire)
    && (|s.drains| > 0 ==> !s.active)
  }

  // ---- Every step keeps it -------------------------------------------------------------------

  /** One caller moves on without touching anyone's id; the table may lose entries. */
  lemma CallerMoves(s: State, t: State, k: nat)
    requires Inv(s) && k < |s.callers| && |t.callers| == |s.callers|
    requires forall l :: 0 <= l < |s.callers| && l != k ==> t.callers[l] == s.callers[l]
    requires IdOf(t.callers[k]) == IdOf(s.callers[k])
    requires t.nextId == s.nextId && t.drains == s.drains && t.active == s.active
    requires forall id :: id in t.pending ==>
        id in s.pending && t.pending[id] == s.pending[id] && (t.pending[id] == k ==> PendingOk(t, id))
    requires t.wire == s.wire || (s.callers[k].phase.Inserted? && t.callers[k].phase.Waiting?
        && t.wire == s.wire + [s.callers[k].phase.id])
    requires CallerOk(t, k)
    ensures Inv(t)
  {
    forall l | 0 <= l < |t.callers| ensures CallerOk(t, l) {
      assert CallerOk(s, l);
      if l != k && t.wire != s.wire {
        assert CallerOk(s, k);
      }
    }
    forall id | id in t.pending ensures PendingOk(t, id) { assert PendingOk(s, id); }
    if t.wire != s.wire { assert CallerOk(s, k); }
  }

  lemma TakeIdKeepsInv(s: State, k: nat)
    requires Inv(s) && k < |s.callers| && s.callers[k].phase.Checked?
    ensures Inv(Next(s, TakeId(k)))
  {
    var t := Next(s, TakeId(k));
    assert s.nextId !in s.pending by { assert forall id :: id in s.pending ==> PendingOk(s, id); }
    forall l | 0 <= l < |t.callers| ensures CallerOk(t, l) {
      assert CallerOk(s, l);
    }
    forall id | id in t.pending ensures PendingOk(t, id) { assert PendingOk(s, id); }
    forall l | 0 <= l < |s.callers| ensures IdOf(s.callers[l]) != Some(s.nextId) { assert CallerOk(s, l); }
  }

  lemma InsertKeepsInv(s: State, k: nat)
    requires Inv(s) && k < |s.callers| && s.callers[k].phase.Numbered?
    ensures Inv(Next(s, Insert(k)))
  {
    var t := Next(s, Insert(k));
    assert CallerOk(s, k);
    forall l | 0 <= l < |t.callers| ensures CallerOk(t, l) {
      assert CallerOk(s, l);
      if l != k && IdOf(s.callers[l]).Some? { assert IdOf(s.callers[l]) != IdOf(s.callers[k]); }
    }
    forall id | id in t.pending ensures PendingOk(t, id) {
      if id in s.pending { assert PendingOk(s, id); }
    }
  }

  lemma RespondKeepsInv(s: State, id: RequestId, value: Json)
    requires Inv(s) && id in s.pending
    ensures Inv(Next(s, Respond(id, value)))
  {
    var t := Next(s, Respond(id, value));
    assert PendingOk(s, id);
    assert CallerOk(s, s.pending[id]);
    forall other | other in s.pending && s.pending[other] == s.pending[id] ensures other == id {
      assert PendingOk(s, other);
    }
    CallerMoves(s, t, s.pending[id]);
  }

  lemma ClearKeepsInv(s: State, j: nat)
    requires Inv(s) && j < |s.drains| && s.drains[j].Stored?
    ensures Inv(Next(s, DrainClear(j)))
  {
    var t := Next(s, DrainClear(j));
    forall l | 0 <= l < |t.callers| ensures CallerOk(t, l) && IdOf(t.callers[l]) == IdOf(s.callers[l]) {
      assert CallerOk(s, l);
      if l in s.pending.Values && s.callers[l].mail.Nothing? {
        var id :| id in s.pending && s.pending[id] == l;
        assert PendingOk(s, id);
      }
    }
  }

  lemma CallerStepKeepsInv(s: State, step: Step)
    requires Inv(s) && (step.Send? || step.Cleanup? || step.GiveUp?) && step.k < |s.callers|
    ensures Inv(Next(s, step))
  {
    var t := Next(s, step);
    if t != s {
      assert CallerOk(s, step.k);
      forall id | id in t.pending && t.pending[id] == step.k ensures PendingOk(t, id) { assert PendingOk(s, id); }
      CallerMoves(s, t, step.k);
    }
  }

  lemma StepKeepsInv(s: State, step: Step)
    requires Inv(s)
    ensures Inv(Next(s, step))
  {
    match step {
      case TakeId(k) => if k < |s.callers| && s.callers[k].phase.Checked? { TakeIdKeepsInv(s, k); }
      case Insert(k) => if k < |s.callers| && s.callers[k].phase.Numbered? { InsertKeepsInv(s, k); }
      case Respond(id, value) => if id in s.pending { RespondKeepsInv(s, id, value); }
      case DrainClear(j) => if j < |s.drains| && s.drains[j].Stored? { ClearKeepsInv(s, j); }
      case Send(k, _) => if k < |s.callers| { CallerStepKeepsInv(s, step); }
      case Cleanup(k) => if k < |s.callers| { CallerStepKeepsInv(s, step); }
      case GiveUp(k) => if k < |s.callers| { CallerStepKeepsInv(s, step); }
      case _ =>
        var t := Next(s, step);
        forall l | 0 <= l < |t.callers| ensures CallerOk(t, l) { if l < |s.callers| { assert CallerOk(s, l); } }
        forall id | id in t.pending ensures PendingOk(t, id) { assert PendingOk(s, id); }
    }
  }

  lemma {:induction false} RunKeepsInv(steps: seq<Step>)
    ensures Inv(Run(FRESH, steps))
  {
    if steps != [] {
      RunKeepsInv(steps[..|steps| - 1]);
      StepKeepsInv(Run(FRESH, steps[..|steps| - 1]), steps[|steps| - 1]);
    }
  }

  // ---- Correlation -----------------------------------------------------------------------------

  /** In every run each id is issued to one caller and goes out at most once, and a caller's answer carries the
      caller's own id. */
  lemma AnswersCorrelate(steps: seq<Step>)
    ensures var s := Run(FRESH, steps);
      && Distinct(s.wire)
      && (forall k, l ::
          0 <= k < l < |s.callers| && IdOf(s.callers[k]).Some? ==> IdOf(s.callers[k]) != IdOf(s.callers[l]))
      && (forall k ::
          0 <= k < |s.callers| && s.callers[k].mail.Answer? ==> IdOf(s.callers[k]) == Some(s.callers[k].mail.id))
  {
    RunKeepsInv(steps);
    var s := Run(FRESH, steps);
    forall k | 0 <= k < |s.callers| && s.callers[k].mail.Answer?
      ensures IdOf(s.callers[k]) == Some(s.callers[k].mail.id)
    {
      assert CallerOk(s, k);
    }
  }

  /** A caller's mail, once there, is final: nothing that happens later changes it. */
  lemma {:induction false} MailIsFinal(s: State, steps: seq<Step>, k: nat)
    requires Inv(s) && k < |s.callers| && !s.callers[k].mail.Nothing?
    ensures Inv(Run(s, steps)) && k < |Run(s, steps).callers| && Run(s, steps).callers[k].mail == s.callers[k].mail
    decreases |steps|
  {
    if steps != [] {
      MailIsFinal(s, steps[..|steps| - 1], k);
      MailStays(Run(s, steps[..|steps| - 1]), steps[|steps| - 1], k);
      StepKeepsInv(Run(s, steps[..|steps| - 1]), steps[|steps| - 1]);
    }
  }

  lemma MailStays(s: State, step: Step, k: nat)
    requires Inv(s) && k < |s.callers| && !s.callers[k].mail.Nothing?
    ensures k < |Next(s, step).callers| && Next(s, step).callers[k].mail == s.callers[k].mail
  {
    if step.Respond? && step.id in s.pending { assert PendingOk(s, step.id); }
  }

  /** The caller has its result, or no longer waits for one. */
  predicate Settles(c: Caller) {
    !c.mail.Nothing? || c.phase.GaveUp?
  }

  /** A response with an unknown id, one that comes late, and one that comes twice change nothing at all. */
  lemma StrayResponseIgnored(s: State, id: RequestId, value: Json, again: Json)
    requires Inv(s)
    ensures id !in s.pending ==> Next(s, Respond(id, value)) == s
    ensures Next(Next(s, Respond(id, value)), Respond(id, again)) == Next(s, Respond(id, value))
    ensures (exists k :: 0 <= k < |s.callers| && IdOf(s.callers[k]) == Some(id) && Settles(s.callers[k]))
              ==> Next(s, Respond(id, value)) == s
  {
    if id in s.pending { assert PendingOk(s, id); }
    forall k | 0 <= k < |s.callers| && IdOf(s.callers[k]) == Some(id) && Settles(s.callers[k])
      ensures id !in s.pending
    {
      assert CallerOk(s, k);
    }
  }

  // ---- Draining ---------------------------------------------------------------------------------

  /** Once any drain has stored the flag, every later dispatch is refused at its check. */
  lemma LateDispatchRefused(s: State, steps: seq<Step>)
    requires !s.active
    ensures !Run(s, steps).active
    ensures Next(Run(s, steps), Begin).callers == Run(s, steps).callers + [Caller(Refused(Disconnected, None), Nothing)]
    decreases |steps|
  {
    if steps != [] { LateDispatchRefused(s, steps[..|steps| - 1]); }
  }

  /** Nobody is between seeing the handle active and entering the table. */
  predicate NobodyEntering(s: State) {
    forall k :: 0 <= k < |s.callers| ==> !s.callers[k].phase.Checked? && !s.callers[k].phase.Numbered?
  }

  /** Drain `j` has stored the flag, nobody is entering, and the table is empty once `j` has cleared it. */
  predicate Settled(s: State, j: nat) {
    Inv(s) && !s.active && NobodyEntering(s) && j < |s.drains| && (!s.drains[j].Stored? ==> s.pending == map[])
  }

  lemma SettledStep(s: State, j: nat, step: Step)
    requires Settled(s, j)
    ensures Settled(Next(s, step), j)
  {
    StepKeepsInv(s, step);
    var t := Next(s, step);
    assert NobodyEntering(t) by {
      forall k | 0 <= k < |t.callers| ensures !t.callers[k].phase.Checked? && !t.callers[k].phase.Numbered? {
        if k < |s.callers| { assert !s.callers[k].phase.Checked? && !s.callers[k].phase.Numbered?; }
      }
    }
  }

  lemma {:induction false} SettledForever(s: State, j: nat, steps: seq<Step>)
    requires Settled(s, j)
    ensures Settled(Run(s, steps), j)
    decreases |steps|
  {
    if steps != [] {
      SettledForever(s, j, steps[..|steps| - 1]);
      SettledStep(Run(s, steps[..|steps| - 1]), j, steps[|steps| - 1]);
    }
  }

  /** If somebody is entering, the drain can finish and still leave an entry behind, whose caller waits on a
      closed connection: one schedule that does it. */
  lemma LeakyDrain(s: State, k: nat)
    requires Inv(s) && k < |s.callers| && (s.callers[k].phase.Checked? || s.callers[k].phase.Numbered?)
    ensures exists steps, j :: EndsWithLeftover(s, steps, j)
  {
    var j := |s.drains|;
    var cleared := StoreThenClear(s);
    var t := EntersAfterClear(cleared, k, j);
    var steps := [DrainStore, DrainClear(j)] + ([TakeId(k), Insert(k)] + [Send(k, true), DrainTake(j)]);
    RunConcat(s, [DrainStore, DrainClear(j)], [TakeId(k), Insert(k)] + [Send(k, true), DrainTake(j)]);
    RunConcat(cleared, [TakeId(k), Insert(k)], [Send(k, true), DrainTake(j)]);
    assert steps[0] == DrainStore;
    assert EndsWithLeftover(s, steps, j);
  }

  lemma StoreThenClear(s: State) returns (t: State)
    ensures t == Run(s, [DrainStore, DrainClear(|s.drains|)])
    ensures |t.callers| == |s.callers| && (forall k ::
        0 <= k < |s.callers| ==> t.callers[k].phase == s.callers[k].phase)
    ensures t.drains == s.drains + [Cleared]
  {
    var j := |s.drains|;
    t := Next(Next(s, DrainStore), DrainClear(j));
    RunConcat(s, [DrainStore], [DrainClear(j)]);
    RunOne(s, DrainStore);
    RunOne(Next(s, DrainStore), DrainClear(j));
    assert [DrainStore] + [DrainClear(j)] == [DrainStore, DrainClear(j)];
  }

  lemma EntersAfterClear(s: State, k: nat, j: nat) returns (t: State)
    requires k < |s.callers| && (s.callers[k].phase.Checked? || s.callers[k].phase.Numbered?) && j < |s.drains|
        && s.drains[j].Cleared?
    ensures t == Run(Run(s, [TakeId(k), Insert(k)]), [Send(k, true), DrainTake(j)])
    ensures j < |t.drains| && t.drains[j].Finished? && t.pending != map[]
  {
    var numbered := Next(s, TakeId(k));
    assert numbered.callers[k].phase.Numbered? && numbered.drains == s.drains;
    var inserted := Next(numbered, Insert(k));
    assert numbered.callers[k].phase.id in inserted.pending && inserted.drains == s.drains;
    RunConcat(s, [TakeId(k)], [Insert(k)]);
    RunOne(s, TakeId(k));
    RunOne(numbered, Insert(k));
    assert [TakeId(k)] + [Insert(k)] == [TakeId(k), Insert(k)];
    t := SendThenTake(inserted, k, j);
  }

  lemma SendThenTake(s: State, k: nat, j: nat) returns (t: State)
    requires j < |s.drains| && s.drains[j].Cleared? && s.pending != map[]
    ensures t == Run(s, [Send(k, true), DrainTake(j)])
    ensures j < |t.drains| && t.drains[j].Finished? && t.pending != map[]
  {
    var sent := Next(s, Send(k, true));
    t := Next(sent, DrainTake(j));
    RunConcat(s, [Send(k, true)], [DrainTake(j)]);
    RunOne(s, Send(k, true));
    RunOne(sent, DrainTake(j));
    assert [Send(k, true)] + [DrainTake(j)] == [Send(k, true), DrainTake(j)];
  }

  /** A schedule that begins with a drain's store, finishes that drain, and leaves the table non-empty. */
  ghost predicate EndsWithLeftover(s: State, steps: seq<Step>, j: nat) {
    && j == |s.drains| && steps != [] && steps[0] == DrainStore
    && var t := Run(s, steps); j < |t.drains| && t.drains[j].Finished? && t.pending != map[]
  }

  lemma RunOne(s: State, step: Step)
    ensures Run(s, [step]) == Next(s, step)
  {
    assert [step][..0] == [];
  }

  lemma {:induction false} RunConcat(s: State, p: seq<Step>, q: seq<Step>)
    ensures Run(s, p + q) == Run(Run(s, p), q)
    decreases |q|
  {
    if q == [] {
      assert p + q == p;
    } else {
      RunConcat(s, p, q[..|q| - 1]);
      assert (p + q)[..|p + q| - 1] == p + q[..|q| - 1];
    }
  }

  /** Exactly when a drain is clean: every schedule that begins with its store and finishes it leaves the pending
      table empty, if and only if nobody was between the check and the table when the flag was stored. */
  lemma DrainCleanIff(s: State)
    requires Inv(s)
    ensures NobodyEntering(s) <==> forall steps, j :: !EndsWithLeftover(s, steps, j)
  {
    if NobodyEntering(s) {
      forall steps, j | j == |s.drains| && steps != [] && steps[0] == DrainStore
        ensures !EndsWithLeftover(s, steps, j)
      {
        RunSplit(s, steps);
        StepKeepsInv(s, DrainStore);
        SettledForever(Next(s, DrainStore), j, steps[1..]);
      }
    } else {
      var k :| 0 <= k < |s.callers| && (s.callers[k].phase.Checked? || s.callers[k].phase.Numbered?);
      LeakyDrain(s, k);
    }
  }

  lemma {:induction false} RunSplit(s: State, steps: seq<Step>)
    requires steps != []
    ensures Run(s, steps) == Run(Next(s, steps[0]), steps[1..])
    decreases |steps|
  {
    if |steps| > 1 {
      RunSplit(s, steps[..|steps| - 1]);
      assert steps[..|steps| - 1][1..] == steps[1..][..|steps| - 2];
    } else {
      assert steps[..0] == [];
    }
  }
}
