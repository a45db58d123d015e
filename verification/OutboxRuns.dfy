/** Every run of the outbox: calls, deliveries, failing writes, crashes at any point of an
    operation, and restarts.  A run is a sequence of steps; what the disk and the service do
    is part of the step. */
module OutboxRuns {
  import opened Basics
  import opened Terminal
  import opened Outbox

  datatype Step =
    | Start(persists: bool)                              // the process starts and loads the file
    | Enqueue(event: TerminalRequest, persists: bool)    // `enqueue` runs to its end
    | EnqueueCrash(event: TerminalRequest, reached: bool) // the process dies in `enqueue`, before or after the write
    | Deliver(delivery: Delivery)                        // one turn of the flush loop
    | DeliverCrash(delivery: Delivery)                   // the process dies in one, at a post or around the write
    | Crash

  /** The process, the disk, and what happened so far. Events are named by their position in `written`. */
  datatype State = State(
    memory: Option<seq<TerminalRequest>>,  // `None` while the process is down
    file: File,
    written: seq<TerminalRequest>,         // every event that ever reached the file, oldest first
    removed: nat,                          // how many of them have left it again
    confirmed: set<TerminalRequest>,       // events whose `enqueue` returned Ok
    deliveries: seq<nat>,                  // positions posted to the service, post by post
    acks: set<nat>)                        // positions some delivery of which was acknowledged

  function Initial(file: File): State {
    State(None, file, if Contents(file).Some? then Contents(file).value else [], 0, {}, [], {})
  }

  function Append(s: State, e: TerminalRequest): State
    requires s.memory.Some?
  {
    s.(memory := Some(s.memory.value + [e]), file := Saved(s.memory.value + [e]), written := s.written + [e])
  }

  function DropHead(s: State): State
    requires s.memory.Some? && s.memory.value != []
  {
    s.(memory := Some(s.memory.value[1..]), file := Saved(s.memory.value[1..]), removed := s.removed + 1)
  }

  /** The head goes out, once or twice, and the service answers. */
  function Sent(s: State, d: Delivery): State {
    s.(deliveries := s.deliveries + seq(|Answers(d)|, _ => s.removed),
       acks := s.acks + if Acknowledges(TerminalAnswer(d)) then {s.removed} else {})
  }

  function OnEnqueue(s: State, e: TerminalRequest, persists: bool): State
    requires s.memory.Some?
  {
    var a := Admit(s.memory.value, e);
    if a.Append? && persists then Append(s, e).(confirmed := s.confirmed + {e})
    else if a.AlreadyThere? then s.(confirmed := s.confirmed + {e})
    else s
  }

  /** One turn of the flush loop. */
  function OnDeliver(s: State, d: Delivery): State
    requires s.memory.Some?
  {
    if s.memory.value == [] then s else if Leaves(d) then DropHead(Sent(s, d)) else Sent(s, d)
  }

  function Next(s: State, step: Step): State {
    match step
    case Start(persists) => if s.memory.Some? then s else s.(memory := Loaded(s.file, persists).0,
        file := Loaded(s.file, persists).1)
    case Enqueue(e, persists) => if s.memory.Some? then OnEnqueue(s, e, persists) else s
    case EnqueueCrash(e, reached) =>
      if s.memory.Some? && Admit(s.memory.value, e).Append? && reached then Append(s, e).(memory := None)
          else s.(memory := None)
    case Deliver(d) => if s.memory.Some? then OnDeliver(s, d) else s
    case DeliverCrash(d) => if s.memory.Some? then OnDeliver(s, d).(memory := None) else s
    case Crash => s.(memory := None)
  }

  function Run(file: File, steps: seq<Step>): State {
    if steps == [] then Initial(file) else Next(Run(file, steps[..|steps| - 1]), steps[|steps| - 1])
  }

  /** What is durable now. */
  function Durable(s: State): seq<TerminalRequest>
    requires s.removed <= |s.written|
  {
    s.written[s.removed..]
  }

  /** Positions are delivered in order, without gaps, and none is skipped before it leaves. */
  predicate InOrder(s: State) {
    && (forall i :: 0 <= i < |s.deliveries| ==> s.deliveries[i] <= s.removed && s.deliveries[i] < |s.written|)
    && (forall i, j :: 0 <= i < j < |s.deliveries| ==> s.deliveries[i] <= s.deliveries[j])
    && (forall p :: 0 <= p < s.removed ==> p in s.deliveries && p in s.acks)
    && (forall p :: p in s.acks ==> p in s.deliveries)
  }

  /** The conservation law. */
  predicate Inv(s: State) {
    && s.removed <= |s.written|
    && (Contents(s.file).None? ==> s.memory.None? && s.written == [])
    && (Contents(s.file).Some? ==> Contents(s.file) == Some(Durable(s)) && WellKept(Durable(s)))
    && (s.memory.Some? ==> s.memory == Contents(s.file) && !IsLegacy(s.file))
    && (forall e :: e in s.confirmed ==> e in s.written)
    && InOrder(s)
  }

  lemma AppendKeepsInv(s: State, e: TerminalRequest)
    requires Inv(s) && s.memory.Some? && Admit(s.memory.value, e).Append?
    ensures Inv(Append(s, e))
  {
    var t := Append(s, e);
    ExtendWellKept(s.memory.value, e);
    SavedContents(s.memory.value + [e]);
    assert Durable(t) == Durable(s) + [e];
    assert forall x :: x in s.written ==> x in t.written;
  }

  lemma SentKeepsInv(s: State, d: Delivery)
    requires Inv(s) && s.memory.Some? && s.memory.value != []
    ensures Inv(Sent(s, d)) && s.removed in Sent(s, d).deliveries
  {
    var t := Sent(s, d);
    assert t.deliveries[|s.deliveries|] == s.removed;
    assert forall p :: p in s.deliveries ==> p in t.deliveries;
  }

  lemma DropHeadKeepsInv(s: State)
    requires Inv(s) && s.memory.Some? && s.memory.value != [] && s.removed in s.deliveries && s.removed in s.acks
    ensures Inv(DropHead(s))
  {
    var t := DropHead(s);
    SavedContents(s.memory.value[1..]);
    assert Durable(t) == Durable(s)[1..];
  }

  lemma EnqueueKeepsInv(s: State, e: TerminalRequest, persists: bool)
    requires Inv(s) && s.memory.Some?
    ensures Inv(OnEnqueue(s, e, persists))
  {
    if Admit(s.memory.value, e).Append? {
      AppendKeepsInv(s, e);
      assert Append(s, e).written[|s.written|] == e;
    } else if Admit(s.memory.value, e).AlreadyThere? {
      assert e in Durable(s);
    }
  }

  lemma DeliverKeepsInv(s: State, d: Delivery)
    requires Inv(s) && s.memory.Some?
    ensures Inv(OnDeliver(s, d))
  {
    if s.memory.value != [] {
      SentKeepsInv(s, d);
      if Leaves(d) { DropHeadKeepsInv(Sent(s, d)); }
    }
  }

  lemma CrashKeepsInv(s: State)
    requires Inv(s)
    ensures Inv(s.(memory := None))
  {
  }

  lemma StartKeepsInv(s: State, persists: bool)
    requires Inv(s) && s.memory.None?
    ensures Inv(s.(memory := Loaded(s.file, persists).0, file := Loaded(s.file, persists).1))
  {
    if Loaded(s.file, persists).0.Some? { LoadStable(s.file, persists, persists); }
  }

  lemma StepKeepsInv(s: State, step: Step)
    requires Inv(s)
    ensures Inv(Next(s, step))
  {
    match step {
      case Start(persists) => if s.memory.None? { StartKeepsInv(s, persists); }
      case Enqueue(e, persists) => if s.memory.Some? { EnqueueKeepsInv(s, e, persists); }
      case EnqueueCrash(e, reached) =>
        if s.memory.Some? && Admit(s.memory.value, e).Append? && reached {
          AppendKeepsInv(s, e);
          CrashKeepsInv(Append(s, e));
        } else {
          CrashKeepsInv(s);
        }
      case Deliver(d) => if s.memory.Some? { DeliverKeepsInv(s, d); }
      case DeliverCrash(d) =>
        if s.memory.Some? {
          DeliverKeepsInv(s, d);
          CrashKeepsInv(OnDeliver(s, d));
        }
      case Crash => CrashKeepsInv(s);
    }
  }

  /** The law holds after every run from every file. */
  lemma {:induction false} RunKeepsInv(file: File, steps: seq<Step>)
    ensures Inv(Run(file, steps))
  {
    if steps == [] {
      if Contents(file).Some? { LoadStable(file, true, true); }
    } else {
      RunKeepsInv(file, steps[..|steps| - 1]);
      StepKeepsInv(Run(file, steps[..|steps| - 1]), steps[|steps| - 1]);
    }
  }

  // ---- What the law says -----------------------------------------------------------

  /** In the file, or delivered, acknowledged, and only then removed. */
  ghost predicate Safe(s: State, e: TerminalRequest) {
    || (Contents(s.file).Some? && e in Contents(s.file).value)
    || exists p :: 0 <= p < s.removed && p < |s.written| && s.written[p] == e && p in s.deliveries && p in s.acks
  }

  lemma ConfirmedIsSafe(s: State, e: TerminalRequest)
    requires Inv(s) && e in s.confirmed
    ensures Safe(s, e)
  {
    var p :| 0 <= p < |s.written| && s.written[p] == e;
    if p >= s.removed { assert Durable(s)[p - s.removed] == e; }
  }

  /** Nothing confirmed is ever lost: after any run, whatever fails, crashes and restarts in it,
      every event whose `enqueue` returned Ok at any time is safe. */
  lemma ConfirmedNeverLost(file: File, steps: seq<Step>)
    ensures forall e :: e in Run(file, steps).confirmed ==> Safe(Run(file, steps), e)
  {
    RunKeepsInv(file, steps);
    forall e | e in Run(file, steps).confirmed ensures Safe(Run(file, steps), e) {
      ConfirmedIsSafe(Run(file, steps), e);
    }
  }

  /** First in, first out, over crashes and restarts: the file always holds the newest part of
      all that was ever written, nothing was reordered, and what left is the oldest part. */
  lemma FileIsNewestPart(file: File, steps: seq<Step>)
    requires Contents(file).Some?
    ensures var s := Run(file, steps);
      && s.removed <= |s.written|
      && Contents(s.file) == Some(s.written[s.removed..]) && WellKept(s.written[s.removed..])
      && (s.memory.Some? ==> s.memory == Contents(s.file))
      && (exists tail :: s.written == Contents(file).value + tail)
  {
    RunKeepsInv(file, steps);
    ContentsStayReadable(file, steps);
    WrittenGrows(file, steps, 0);
    assert steps[..0] == [];
    var s := Run(file, steps);
    assert s.written == Contents(file).value + s.written[|Contents(file).value|..];
  }

  lemma {:induction false} ContentsStayReadable(file: File, steps: seq<Step>)
    requires Contents(file).Some?
    ensures Contents(Run(file, steps).file).Some?
  {
    if steps != [] {
      var before, step := Run(file, steps[..|steps| - 1]), steps[|steps| - 1];
      ContentsStayReadable(file, steps[..|steps| - 1]);
      RunKeepsInv(file, steps[..|steps| - 1]);
      if before.memory.Some? { StepReadable(before, step); } else { StartReadable(before, step); }
    }
  }

  lemma StartReadable(s: State, step: Step)
    requires s.memory.None? && Contents(s.file).Some?
    ensures Contents(Next(s, step).file).Some?
  {
    if step.Start? && Loaded(s.file, step.persists).0.Some? { LoadStable(s.file, step.persists, true); }
  }

  lemma StepReadable(s: State, step: Step)
    requires Inv(s) && s.memory.Some?
    ensures Contents(Next(s, step).file).Some?
  {
    if step.Enqueue? || step.EnqueueCrash? {
      if Admit(s.memory.value, step.event).Append? {
        ExtendWellKept(s.memory.value, step.event);
        SavedContents(s.memory.value + [step.event]);
      }
    } else if s.memory.value != [] {
      SavedContents(s.memory.value[1..]);
    }
  }

  /** History is never rewritten. */
  lemma {:induction false} WrittenGrows(file: File, steps: seq<Step>, n: nat)
    requires n <= |steps|
    ensures Run(file, steps[..n]).written <= Run(file, steps).written
    ensures Run(file, steps[..n]).removed <= Run(file, steps).removed
    ensures Run(file, steps[..n]).confirmed <= Run(file, steps).confirmed
    decreases |steps|
  {
    if n < |steps| {
      WrittenGrows(file, steps[..|steps| - 1], n);
      assert steps[..|steps| - 1][..n] == steps[..n];
      StepGrows(Run(file, steps[..|steps| - 1]), steps[|steps| - 1]);
    } else {
      assert steps[..n] == steps;
    }
  }

  lemma StepGrows(s: State, step: Step)
    ensures var t := Next(s, step); s.written <= t.written && s.removed <= t.removed && s.confirmed <= t.confirmed
  {
  }

  /** One step removes at most one event, the oldest, and only when a delivery of exactly that
      event has just been acknowledged. */
  lemma OnlyAckedHeadLeaves(s: State, step: Step)
    requires Inv(s)
    ensures var t := Next(s, step);
      t.removed != s.removed ==>
        && t.removed == s.removed + 1
        && (step.Deliver? || step.DeliverCrash?) && Acknowledges(TerminalAnswer(step.delivery))
        && t.deliveries == s.deliveries + seq(|Answers(step.delivery)|, _ => s.removed)
        && t.written == s.written
  {
  }
}
