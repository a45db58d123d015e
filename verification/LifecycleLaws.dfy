/** What holds over every interleaving of sockets, shutdowns and sweeps. */
module LifecycleLaws {
  import opened Basics
  import opened Registry
  import opened Lifecycle

  /** In every reachable state the registry has its shape: keys are session ids, generations and dispatchers are
      distinct and bounded by their counters, Disconnected means no connection, a drained dispatcher and a timestamp. */
  lemma ShapeEverywhere(steps: seq<Step>)
    ensures Sound(Run(INITIAL_SYSTEM, steps).reg)
  {
    RunKeepsInv(steps);
    var s := Run(INITIAL_SYSTEM, steps);
    forall uid | uid in s.reg.sessions
      ensures s.reg.sessions[uid].dispatcher < s.reg.dispatchers && RecordOk(s, uid, s.reg.sessions[uid])
    {
      assert RecordOk(s, uid, s.reg.sessions[uid]);
      assert BirthOk(s, s.reg.sessions[uid].generation - 1);
    }
    forall d | d in s.reg.drainedDispatchers ensures d < s.reg.dispatchers {
      assert DispatcherCause(s, d);
      var i :| 0 <= i < |s.births| && s.births[i].dispatcher == d;
      assert BirthOk(s, i);
    }
  }

  // ---- Who may end a generation -------------------------------------------------------------

  /** Generation `g` of `uid` is in the registry, and live. */
  predicate Lives(s: System, uid: string, g: nat) {
    Holds(s.reg, uid, g) && s.reg.sessions[uid].state.Active?
  }

  /** The one task that registered generation `g`. */
  predicate IsHolder(s: System, c: nat, g: nat) {
    1 <= g <= |s.births| && s.births[g - 1].connection == c
  }

  /** The steps that may end generation `g` of `uid`: those of the socket that registered `g`, of a shutdown that
      snapshotted `g`, of the sweep once it has been Disconnected for the grace period, and, once Disconnected, a new
      registration. */
  predicate MayEnd(s: System, step: Step, uid: string, g: nat) {
    || ((step.Bye? || step.CloseTask?) && IsHolder(s, step.c, g))
    || (step.RemoveShut? && step.k < |s.shutdowns| && s.shutdowns[step.k].uid == uid
        && s.shutdowns[step.k].snapshot.generation == g)
    || (step.Sweep? && uid in s.reg.sessions && Expired(s.reg.sessions[uid], s.now, step.grace))
    || (step.Register? && step.params.clientUid == uid && !Lives(s, uid, g))
  }

  lemma OnlyItsOwnEnds(s: System, step: Step, uid: string, g: nat)
    requires Inv(s) && Holds(s.reg, uid, g) && Ends(s, Next(s, step), uid, g)
    ensures MayEnd(s, step, uid, g)
  {
    match step {
      case Bye(c) => ByeEnds(s, c, uid, g);
      case CloseTask(c) => CloseEnds(s, c, uid, g);
      case RemoveShut(k) =>
      case Register(c, p) =>
      case Sweep(_) =>
      case _ => OthersEndNothing(s, step, uid, g);
    }
  }

  /** Generation safety. If generation `g` of `uid` was in the registry at some point of a run, and is gone or no longer
      Active at a later one, then some step in between was taken by the socket that registered `g`, by a shutdown that
      snapshotted `g`, by the sweep past grace, or, once it was Disconnected, by a new registration. */
  lemma {:induction false} GenerationSafety(before: seq<Step>, steps: seq<Step>, uid: string, g: nat)
    requires var s := Run(INITIAL_SYSTEM, before); Holds(s.reg, uid, g) && Ends(s, Run(s, steps), uid, g)
    ensures var s := Run(INITIAL_SYSTEM, before); exists n ::
        0 <= n < |steps| && MayEnd(Run(s, steps[..n]), steps[n], uid, g)
    decreases |steps|
  {
    var s := Run(INITIAL_SYSTEM, before);
    var n := |steps| - 1;
    var init := steps[..n];
    if Ends(s, Run(s, init), uid, g) {
      GenerationSafety(before, init, uid, g);
      var m :| 0 <= m < n && MayEnd(Run(s, init[..m]), init[m], uid, g);
      assert init[..m] == steps[..m] && init[m] == steps[m];
    } else {
      RunSplit(before, init);
      RunKeepsInv(before + init);
      OnlyItsOwnEnds(Run(s, init), steps[n], uid, g);
    }
  }

  lemma {:induction false} RunSplit(before: seq<Step>, steps: seq<Step>)
    ensures Run(Run(INITIAL_SYSTEM, before), steps) == Run(INITIAL_SYSTEM, before + steps)
    decreases |steps|
  {
    if steps == [] {
      assert before + steps == before;
    } else {
      RunSplit(before, steps[..|steps| - 1]);
      assert (before + steps)[..|before + steps| - 1] == before + steps[..|steps| - 1];
    }
  }

  /** The record of generation `g` is gone, or was Active and is no more. */
  predicate Ends(s: System, t: System, uid: string, g: nat) {
    !Holds(t.reg, uid, g) || (Lives(s, uid, g) && !Lives(t, uid, g))
  }

  lemma ByeEnds(s: System, c: nat, uid: string, g: nat)
    requires Inv(s) && Holds(s.reg, uid, g) && Ends(s, Next(s, Bye(c)), uid, g)
    ensures IsHolder(s, c, g)
  {
    assert c < |s.tasks| && s.tasks[c].identity == Some((uid, g));
    assert TaskOk(s, c);
  }

  lemma CloseEnds(s: System, c: nat, uid: string, g: nat)
    requires Inv(s) && Holds(s.reg, uid, g) && Ends(s, Next(s, CloseTask(c)), uid, g)
    ensures IsHolder(s, c, g)
  {
    CloseEndsOwn(s, c, uid, g);
    assert TaskOk(s, c);
  }

  lemma CloseEndsOwn(s: System, c: nat, uid: string, g: nat)
    requires Holds(s.reg, uid, g) && Ends(s, Next(s, CloseTask(c)), uid, g)
    ensures c < |s.tasks| && s.tasks[c].identity == Some((uid, g))
  {
  }

  predicate EndsNothing(step: Step) {
    !step.Bye? && !step.CloseTask? && !step.RemoveShut? && !step.Register? && !step.Sweep?
  }

  lemma OthersEndNothing(s: System, step: Step, uid: string, g: nat)
    requires Holds(s.reg, uid, g) && EndsNothing(step)
    ensures !Ends(s, Next(s, step), uid, g)
  {
  }

  lemma CloseDrainsOwn(s: System, c: nat)
    requires Inv(s) && c < |s.tasks|
    ensures forall x :: x in OnClose(s, c).reg.drainedConnections - s.reg.drainedConnections ==> x == c
    ensures forall d :: d in OnClose(s, c).reg.drainedDispatchers - s.reg.drainedDispatchers ==>
      s.tasks[c].identity.Some? && var (uid, g) := s.tasks[c].identity.value; BornAs(s, g, uid, d) && IsHolder(s, c, g)
  {
    if s.tasks[c].identity.Some? {
      assert TaskOk(s, c);
      var uid := s.tasks[c].identity.value.0;
      if uid in s.reg.sessions { assert RecordOk(s, uid, s.reg.sessions[uid]); }
    }
  }

  /** Drain safety. A handle that a step newly drains is the acting task's own, or belongs to the generation
      that the acting shutdown snapshotted; in particular no step drains a handle of another generation. */
  lemma DrainSafety(s: System, step: Step)
    requires Inv(s)
    ensures forall c :: c in Next(s, step).reg.drainedConnections - s.reg.drainedConnections ==>
      || ((step.DrainOwn? || step.CloseTask?) && step.c == c)
      || ((step.DrainFirst? || step.DrainSecond?) && step.k < |s.shutdowns|
          && IsHolder(s, c, s.shutdowns[step.k].snapshot.generation))
    ensures forall d :: d in Next(s, step).reg.drainedDispatchers - s.reg.drainedDispatchers ==>
      || (step.CloseTask? && step.c < |s.tasks| && s.tasks[step.c].identity.Some? &&
          var (uid, g) := s.tasks[step.c].identity.value; BornAs(s, g, uid, d) && IsHolder(s, step.c, g))
      || ((step.DrainFirst? || step.DrainSecond?) && step.k < |s.shutdowns| &&
          BornAs(s, s.shutdowns[step.k].snapshot.generation, s.shutdowns[step.k].uid, d))
  {
    match step {
      case CloseTask(c) => if c < |s.tasks| && s.tasks[c].phase.Drained? { CloseDrainsOwn(s, c); }
      case DrainFirst(k) => if k < |s.shutdowns| { assert SnapshotOk(s, s.shutdowns[k]); }
      case DrainSecond(k) => if k < |s.shutdowns| { assert SnapshotOk(s, s.shutdowns[k]); }
      case _ =>
    }
  }

  // ---- A live session survives everything that is not aimed at it ------------------------------

  /** Generation `g` is live, its task is in its read loop, and no shutdown has it in its sights. */
  predicate Undisturbed(s: System, uid: string, g: nat) {
    && Lives(s, uid, g) && 1 <= g <= |s.births| && s.births[g - 1].connection < |s.tasks|
    && s.tasks[s.births[g - 1].connection] == Task(Some((uid, g)), Reading)
    && forall k :: 0 <= k < |s.shutdowns| ==> s.shutdowns[k].snapshot.generation != g
  }

  /** The steps that aim at generation `g` of `uid`. */
  predicate AimsAt(s: System, step: Step, uid: string, g: nat) {
    || ((step.Bye? || step.LeaveLoop?) && IsHolder(s, step.c, g))
    || (step.BeginShutdown? && step.uid == uid)
  }

  lemma UndisturbedStep(s: System, step: Step, uid: string, g: nat)
    requires Inv(s) && Undisturbed(s, uid, g) && !AimsAt(s, step, uid, g)
    ensures Undisturbed(Next(s, step), uid, g)
    ensures Next(s, step).births[g - 1] == s.births[g - 1]
  {
    if Ends(s, Next(s, step), uid, g) { OnlyItsOwnEnds(s, step, uid, g); }
    TaskStays(s, step, uid, g);
    NotSnapshotted(s, step, uid, g);
  }

  /** The holder of an undisturbed session goes on reading. */
  lemma TaskStays(s: System, step: Step, uid: string, g: nat)
    requires Inv(s) && Undisturbed(s, uid, g) && !AimsAt(s, step, uid, g)
    ensures var t := Next(s, step);
      |s.births| <= |t.births| && t.births[g - 1] == s.births[g - 1] && |s.tasks| <= |t.tasks|
      && t.tasks[s.births[g - 1].connection] == s.tasks[s.births[g - 1].connection]
  {
  }

  lemma NotSnapshotted(s: System, step: Step, uid: string, g: nat)
    requires Inv(s) && Undisturbed(s, uid, g) && !AimsAt(s, step, uid, g)
    ensures var t := Next(s, step); forall k :: 0 <= k < |t.shutdowns| ==> t.shutdowns[k].snapshot.generation != g
  {
    var t := Next(s, step);
    if step.BeginShutdown? && step.uid in s.reg.sessions {
      OtherGeneration(s, step.uid, uid, g);
      assert t.shutdowns == s.shutdowns + [Shutdown(step.uid, s.reg.sessions[step.uid], Snapshotted)];
    } else {
      SnapshotsKept(s, step);
    }
  }

  /** Records of different sessions have different generations. */
  lemma OtherGeneration(s: System, other: string, uid: string, g: nat)
    requires Inv(s) && Holds(s.reg, uid, g) && other in s.reg.sessions && other != uid
    ensures s.reg.sessions[other].generation != g
  {
    assert RecordOk(s, other, s.reg.sessions[other]) && RecordOk(s, uid, s.reg.sessions[uid]);
  }

  lemma SnapshotsKept(s: System, step: Step)
    requires step.BeginShutdown? ==> step.uid !in s.reg.sessions
    ensures var t := Next(s, step);
      |t.shutdowns| == |s.shutdowns| && forall k ::
          0 <= k < |s.shutdowns| ==> t.shutdowns[k].snapshot == s.shutdowns[k].snapshot
  {
  }

  /** While nobody aims at it, a live session's connection and dispatcher are open. */
  lemma UndisturbedIsOpen(s: System, uid: string, g: nat)
    requires Inv(s) && Undisturbed(s, uid, g)
    ensures s.reg.sessions[uid].connection == Some(s.births[g - 1].connection)
    ensures s.births[g - 1].connection !in s.reg.drainedConnections
        && s.reg.sessions[uid].dispatcher !in s.reg.drainedDispatchers
  {
    assert RecordOk(s, uid, s.reg.sessions[uid]);
    var c, d := s.births[g - 1].connection, s.reg.sessions[uid].dispatcher;
    assert !Touched(s, g);
    forall i | 0 <= i < |s.births| && (s.births[i].connection == c || s.births[i].dispatcher == d) ensures i == g - 1 {
    }
    assert !ConnectionCause(s, c) && !DispatcherCause(s, d);
  }

  /** Over any run, whatever old sockets, stale shutdowns, sweeps and other sessions do: as long as its own socket
      stays in its loop and nobody begins to shut this uid down, a live session stays Active under the same
      generation, with its own connection and dispatcher open. A reconnect is safe from its past. */
  lemma {:induction false} LiveSessionSurvives(before: seq<Step>, steps: seq<Step>, uid: string, g: nat)
    requires Undisturbed(Run(INITIAL_SYSTEM, before), uid, g)
    requires forall i :: 0 <= i < |steps| ==> !AimsAt(Run(INITIAL_SYSTEM, before), steps[i], uid, g)
    ensures var s := Run(INITIAL_SYSTEM, before);
      var t := Run(s, steps);
      && Inv(t) && Undisturbed(t, uid, g) && t.births[g - 1] == s.births[g - 1]
      && t.reg.sessions[uid].connection == Some(s.births[g - 1].connection)
      && s.births[g - 1].connection !in t.reg.drainedConnections
      && t.reg.sessions[uid].dispatcher == s.births[g - 1].dispatcher
          && s.births[g - 1].dispatcher !in t.reg.drainedDispatchers
    decreases |steps|
  {
    RunKeepsInv(before);
    var s := Run(INITIAL_SYSTEM, before);
    if steps != [] {
      var init := steps[..|steps| - 1];
      LiveSessionSurvives(before, init, uid, g);
      assert !AimsAt(s, steps[|steps| - 1], uid, g);
      UndisturbedStep(Run(s, init), steps[|steps| - 1], uid, g);
      StepKeepsInv(Run(s, init), steps[|steps| - 1]);
    }
    UndisturbedIsOpen(Run(s, steps), uid, g);
    assert RecordOk(Run(s, steps), uid, Run(s, steps).reg.sessions[uid]);
  }

  // ---- What is not generation-checked: `session.tools_changed` ------------------------------------

  /** A shutdown of generation `h` of `uid` ran to its end. */
  predicate ShutDownFor(s: System, uid: string, h: nat) {
    exists k :: 0 <= k < |s.shutdowns| && s.shutdowns[k].uid == uid && s.shutdowns[k].snapshot.generation == h
                && s.shutdowns[k].stage.Finished?
  }

  /** A socket that has not closed still has its record, Active, or was shut down. */
  predicate ReaderOk(s: System, c: nat) {
    c < |s.tasks| && !s.tasks[c].phase.Closed? && s.tasks[c].identity.Some? ==>
      var (uid, h) := s.tasks[c].identity.value; Lives(s, uid, h) || ShutDownFor(s, uid, h)
  }

  /** A generation that was shut down is gone for good. */
  predicate ShutDownGone(s: System, k: nat)
    requires k < |s.shutdowns|
  {
    s.shutdowns[k].stage.Finished? ==> !Holds(s.reg, s.shutdowns[k].uid, s.shutdowns[k].snapshot.generation)
  }

  predicate ReadersOk(s: System) {
    && (forall c :: 0 <= c < |s.tasks| ==> ReaderOk(s, c))
    && (forall k :: 0 <= k < |s.shutdowns| ==> ShutDownGone(s, k))
  }

  lemma ShutDownStays(s: System, step: Step, uid: string, h: nat)
    requires ShutDownFor(s, uid, h)
    ensures ShutDownFor(Next(s, step), uid, h)
  {
    var k :| 0 <= k < |s.shutdowns| && s.shutdowns[k].uid == uid && s.shutdowns[k].snapshot.generation == h
             && s.shutdowns[k].stage.Finished?;
    assert Next(s, step).shutdowns[k] == s.shutdowns[k];
  }

  /** An open socket was one with the same identity before, or has just registered. */
  lemma ReaderBefore(s: System, step: Step, c: nat)
    requires var t := Next(s, step); c < |t.tasks| && !t.tasks[c].phase.Closed? && t.tasks[c].identity.Some?
    ensures (c < |s.tasks| && s.tasks[c].identity == Next(s, step).tasks[c].identity && !s.tasks[c].phase.Closed?)
         || (step.Register? && step.c == c && CanRegister(s, c, step.params)
             && Next(s, step).tasks[c].identity == Some((step.params.clientUid, s.reg.generations + 1)))
  {
  }

  lemma ReaderStays(s: System, step: Step, c: nat)
    requires Inv(s) && ReaderOk(s, c)
    ensures ReaderOk(Next(s, step), c)
  {
    var t := Next(s, step);
    if c < |t.tasks| && !t.tasks[c].phase.Closed? && t.tasks[c].identity.Some? {
      ReaderBefore(s, step, c);
      if c < |s.tasks| && s.tasks[c].identity == t.tasks[c].identity && !s.tasks[c].phase.Closed? {
        var (uid, h) := s.tasks[c].identity.value;
        if ShutDownFor(s, uid, h) { ShutDownStays(s, step, uid, h); } else { LiveReaderStays(s, step, c, uid, h); }
      }
    }
  }

  /** A socket that stays open under its identity has neither said bye nor closed. */
  lemma ReaderDoesNotEnd(s: System, step: Step, c: nat)
    requires c < |s.tasks| && !s.tasks[c].phase.Closed? && s.tasks[c].identity.Some?
    requires var t := Next(s, step);
      c < |t.tasks| && t.tasks[c].identity == s.tasks[c].identity && !t.tasks[c].phase.Closed?
    ensures step == Bye(c) || step == CloseTask(c) ==> Next(s, step) == s
  {
  }

  /** What ends an open socket's record is a shutdown of it that finishes. */
  lemma LiveReaderStays(s: System, step: Step, c: nat, uid: string, h: nat)
    requires Inv(s) && c < |s.tasks| && s.tasks[c].identity == Some((uid, h)) && !s.tasks[c].phase.Closed?
    requires Lives(s, uid, h)
    requires var t := Next(s, step);
      c < |t.tasks| && t.tasks[c].identity == s.tasks[c].identity && !t.tasks[c].phase.Closed?
    ensures Lives(Next(s, step), uid, h) || ShutDownFor(Next(s, step), uid, h)
  {
    if !Lives(Next(s, step), uid, h) {
      OnlyItsOwnEnds(s, step, uid, h);
      ReaderDoesNotEnd(s, step, c);
      HolderIsReader(s, c, uid, h);
      EndedByShutdown(s, step, uid, h);
    }
  }

  lemma HolderIsReader(s: System, c: nat, uid: string, h: nat)
    requires Inv(s) && c < |s.tasks| && s.tasks[c].identity == Some((uid, h))
    ensures forall d :: IsHolder(s, d, h) ==> d == c
  {
    assert TaskOk(s, c);
  }

  lemma EndedByShutdown(s: System, step: Step, uid: string, h: nat)
    requires Lives(s, uid, h) && !Lives(Next(s, step), uid, h) && Inv(s)
    requires step.RemoveShut? && step.k < |s.shutdowns|
    requires s.shutdowns[step.k].uid == uid && s.shutdowns[step.k].snapshot.generation == h
    ensures ShutDownFor(Next(s, step), uid, h)
  {
    assert Next(s, step).shutdowns[step.k].stage.Finished?;
  }

  /** Only a registration brings a generation, and it is a new one. */
  lemma NotBroughtBack(s: System, step: Step, uid: string, h: nat)
    requires Inv(s) && !Holds(s.reg, uid, h) && 1 <= h <= |s.births|
    ensures !Holds(Next(s, step).reg, uid, h)
  {
  }

  lemma GoneStays(s: System, step: Step, k: nat)
    requires Inv(s) && k < |Next(s, step).shutdowns| && (k < |s.shutdowns| ==> ShutDownGone(s, k))
    ensures ShutDownGone(Next(s, step), k)
  {
    var t := Next(s, step);
    if t.shutdowns[k].stage.Finished? {
      assert k < |s.shutdowns| && t.shutdowns[k].snapshot == s.shutdowns[k].snapshot
          && t.shutdowns[k].uid == s.shutdowns[k].uid;
      assert SnapshotOk(s, s.shutdowns[k]);
      if s.shutdowns[k].stage.Finished? {
        NotBroughtBack(s, step, s.shutdowns[k].uid, s.shutdowns[k].snapshot.generation);
      }
    }
  }

  /** In every reachable state. */
  lemma {:induction false} ReadersEverywhere(steps: seq<Step>)
    ensures ReadersOk(Run(INITIAL_SYSTEM, steps))
  {
    if steps != [] {
      var s, step := Run(INITIAL_SYSTEM, steps[..|steps| - 1]), steps[|steps| - 1];
      ReadersEverywhere(steps[..|steps| - 1]);
      RunKeepsInv(steps[..|steps| - 1]);
      var t := Next(s, step);
      forall c | 0 <= c < |t.tasks| ensures ReaderOk(t, c) {
        ReaderStays(s, step, c);
      }
      forall k | 0 <= k < |t.shutdowns| ensures ShutDownGone(t, k) {
        GoneStays(s, step, k);
      }
    }
  }

  /** The step changes the tools of generation `g` of `uid`. */
  predicate Rewrites(s: System, step: Step, uid: string, g: nat) {
    Holds(s.reg, uid, g) && (uid !in Next(s, step).reg.sessions
        || Next(s, step).reg.sessions[uid].tools != s.reg.sessions[uid].tools)
  }

  /** A socket reading on under an identity whose session was shut down. */
  predicate Stale(s: System, c: nat, uid: string) {
    && c < |s.tasks| && s.tasks[c].phase.Reading? && s.tasks[c].identity.Some? && s.tasks[c].identity.value.0 == uid
    && ShutDownFor(s, uid, s.tasks[c].identity.value.1)
  }

  /** Who may write: whoever reads on under that uid, of whatever generation. */
  lemma RewritesIff(s: System, c: nat, tools: seq<ToolDescriptor>, uid: string, g: nat)
    requires Holds(s.reg, uid, g)
    ensures Rewrites(s, ToolsChanged(c, tools), uid, g)
       <==> && c < |s.tasks| && s.tasks[c].phase.Reading? && s.tasks[c].identity.Some?
            && s.tasks[c].identity.value.0 == uid && s.reg.sessions[uid].tools != tools
  {
  }

  /** A reader did not register the generation that holds its uid exactly when its own was shut down. */
  lemma StaleIffNotHolder(s: System, c: nat, uid: string, h: nat, g: nat)
    requires Inv(s) && ReadersOk(s) && Holds(s.reg, uid, g)
    requires c < |s.tasks| && s.tasks[c] == Task(Some((uid, h)), Reading)
    ensures !IsHolder(s, c, g) <==> ShutDownFor(s, uid, h)
  {
    assert TaskOk(s, c) && ReaderOk(s, c);
    assert RecordOk(s, uid, s.reg.sessions[uid]);
    assert IsHolder(s, c, g) <==> g == h;
    if ShutDownFor(s, uid, h) {
      var k :| 0 <= k < |s.shutdowns| && s.shutdowns[k].uid == uid && s.shutdowns[k].snapshot.generation == h
               && s.shutdowns[k].stage.Finished?;
      assert ShutDownGone(s, k);
    }
  }

  /** Exactly when a stale socket rewrites tools: over every run, a `session.tools_changed` on socket `c` changes the
      tools of a generation that `c` did not register if and only if `c` reads on after a shutdown of its own generation
      has finished, the uid was registered again, and the tools differ. */
  lemma StaleRewriteIff(steps: seq<Step>, c: nat, tools: seq<ToolDescriptor>, uid: string, g: nat)
    ensures var s := Run(INITIAL_SYSTEM, steps);
      (Rewrites(s, ToolsChanged(c, tools), uid, g) && !IsHolder(s, c, g))
        <==> Stale(s, c, uid) && Holds(s.reg, uid, g) && s.reg.sessions[uid].tools != tools
  {
    var s := Run(INITIAL_SYSTEM, steps);
    RunKeepsInv(steps);
    ReadersEverywhere(steps);
    if Holds(s.reg, uid, g) {
      RewritesIff(s, c, tools, uid, g);
      if c < |s.tasks| && s.tasks[c].phase.Reading? && s.tasks[c].identity.Some? && s.tasks[c].identity.value.0 == uid {
        StaleIffNotHolder(s, c, uid, s.tasks[c].identity.value.1, g);
      }
    }
  }

  /** It does happen: a socket whose session was shut down and then
      registered anew by another socket still rewrites the new record's tools. */
  lemma StaleSocketRewritesTools(p: RegisterParams, tools: seq<ToolDescriptor>)
    ensures
      var registered := Next(Next(INITIAL_SYSTEM, Accept), Register(0, p));
      var drained := Next(Next(Next(registered, BeginShutdown(p.clientUid)), DrainFirst(0)), DrainSecond(0));
      var again := Next(Next(Next(drained, RemoveShut(0)), Accept), Register(1, p));
      var t := Next(again, ToolsChanged(0, tools));
      && again.tasks[0].identity == Some((p.clientUid, 1)) && Lives(again, p.clientUid, 2)
      && Lives(t, p.clientUid, 2) && t.reg.sessions[p.clientUid].tools == tools
  {
    var registered := Next(Next(INITIAL_SYSTEM, Accept), Register(0, p));
    assert registered.tasks == [Task(Some((p.clientUid, 1)), Reading)] && Lives(registered, p.clientUid, 1);
    assert registered.shutdowns == [];
    ShutDown(registered, p.clientUid);
    var drained := Next(Next(Next(registered, BeginShutdown(p.clientUid)), DrainFirst(0)), DrainSecond(0));
    NewSocket(Next(drained, RemoveShut(0)), p);
  }

  /** A first shutdown, run to its end, removes the session and leaves the tasks alone. */
  lemma ShutDown(s: System, uid: string)
    requires uid in s.reg.sessions && s.shutdowns == []
    ensures var t := Next(Next(Next(Next(s, BeginShutdown(uid)), DrainFirst(0)), DrainSecond(0)), RemoveShut(0));
      uid !in t.reg.sessions && t.tasks == s.tasks && t.reg.generations == s.reg.generations
  {
    var drained := Next(Next(Next(s, BeginShutdown(uid)), DrainFirst(0)), DrainSecond(0));
    assert drained.tasks == s.tasks && drained.reg.sessions == s.reg.sessions && |drained.shutdowns| == 1;
    assert drained.shutdowns[0].stage.FullyDrained? && drained.shutdowns[0].uid == uid;
    assert drained.shutdowns[0].snapshot == s.reg.sessions[uid];
  }

  lemma NewSocket(s: System, p: RegisterParams)
    requires p.clientUid !in s.reg.sessions && |s.tasks| == 1 && s.reg.generations == 1
    ensures var t := Next(Next(s, Accept), Register(1, p)); t.tasks[..1] == s.tasks && Lives(t, p.clientUid, 2)
  {
    var accepted := Next(s, Accept);
    assert accepted.tasks == s.tasks + [Task(None, Reading)];
  }
}
