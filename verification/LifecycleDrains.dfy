/** What is drained, exactly, and what the grace period is: over every interleaving of sockets, shutdowns and sweeps. */
module LifecycleDrains {
  import opened Basics
  import opened Registry
  import opened Lifecycle
  import opened LifecycleLaws

  // ---- What is drained ---------------------------------------------------------------------------------

  /** A shutdown of generation `g` has drained the dispatcher. */
  predicate ShutDrained(s: System, g: nat) {
    exists k :: 0 <= k < |s.shutdowns| && s.shutdowns[k].snapshot.generation == g
                && s.shutdowns[k].stage in {FullyDrained, Finished}
  }

  /** Birth `i`'s socket closed under its identity, or a shutdown of it got that far. */
  predicate DispatcherDue(s: System, i: nat)
    requires i < |s.births| && s.births[i].connection < |s.tasks|
  {
    var task := s.tasks[s.births[i].connection];
    (task.phase.Closed? && task.identity.Some?) || ShutDrained(s, i + 1)
  }

  /** The socket has drained its own handle, or a shutdown of a generation born on it has begun to drain. */
  predicate ConnectionDue(s: System, c: nat)
    requires c < |s.tasks|
  {
    || s.tasks[c].phase in {Drained, Closed}
    || exists i :: 0 <= i < |s.births| && s.births[i].connection == c && Touched(s, i + 1)
  }

  predicate DispatcherExact(s: System, i: nat)
    requires i < |s.births|
  {
    s.births[i].connection < |s.tasks| && (s.births[i].dispatcher in s.reg.drainedDispatchers <==> DispatcherDue(s, i))
  }

  /** A snapshot of a live session names its connection; one of a disconnected session is of one that is drained. */
  predicate SnapshotExact(s: System, sh: Shutdown) {
    && BornAs(s, sh.snapshot.generation, sh.uid, sh.snapshot.dispatcher)
    && if sh.snapshot.state.Active? then sh.snapshot.connection == Some(s.births[sh.snapshot.generation - 1].connection)
       else
         && sh.snapshot.connection.None? && sh.snapshot.dispatcher in s.reg.drainedDispatchers
         && s.births[sh.snapshot.generation - 1].connection in s.reg.drainedConnections
  }

  predicate Exact(s: System) {
    && (forall i :: 0 <= i < |s.births| ==> DispatcherExact(s, i))
    && (forall c :: 0 <= c < |s.tasks| ==> (c in s.reg.drainedConnections <==> ConnectionDue(s, c)))
    && (forall k :: 0 <= k < |s.shutdowns| ==> SnapshotExact(s, s.shutdowns[k]))
  }

  /** Nobody's handles, tasks or shutdowns change. */
  lemma QuietExact(s: System, t: System)
    requires Exact(s) && t.births == s.births && t.tasks == s.tasks && t.shutdowns == s.shutdowns
    requires t.reg.drainedConnections == s.reg.drainedConnections
    requires t.reg.drainedDispatchers == s.reg.drainedDispatchers
    ensures Exact(t)
  {
    forall i | 0 <= i < |t.births| ensures DispatcherExact(t, i) {
      assert DispatcherExact(s, i);
      assert ShutDrained(t, i + 1) <==> ShutDrained(s, i + 1);
    }
    forall c | 0 <= c < |t.tasks| ensures c in t.reg.drainedConnections <==> ConnectionDue(t, c) {
      assert ConnectionDue(t, c) <==> ConnectionDue(s, c) by {
        assert forall g :: Touched(t, g) <==> Touched(s, g);
      }
    }
    forall k | 0 <= k < |t.shutdowns| ensures SnapshotExact(t, t.shutdowns[k]) {
      assert SnapshotExact(s, s.shutdowns[k]);
    }
  }

  lemma AcceptExact(s: System)
    requires Inv(s) && Exact(s)
    ensures Exact(Next(s, Accept))
  {
    var t := Next(s, Accept);
    forall i | 0 <= i < |t.births| ensures DispatcherExact(t, i) {
      assert DispatcherExact(s, i);
      assert ShutDrained(t, i + 1) <==> ShutDrained(s, i + 1);
    }
    assert forall g :: Touched(t, g) <==> Touched(s, g);
    forall c | 0 <= c < |t.tasks| ensures c in t.reg.drainedConnections <==> ConnectionDue(t, c) {
      if c < |s.tasks| {
        assert ConnectionDue(t, c) <==> ConnectionDue(s, c);
      } else {
        assert forall d :: d in s.reg.drainedConnections ==> ConnectionCause(s, d);
        forall i | 0 <= i < |t.births| ensures t.births[i].connection != c { assert BirthOk(s, i); }
      }
    }
    forall k | 0 <= k < |t.shutdowns| ensures SnapshotExact(t, t.shutdowns[k]) {
      assert SnapshotExact(s, s.shutdowns[k]);
    }
  }

  /** A step of socket `c`: its phase moves on, with what it drains. */
  lemma TaskExact(s: System, t: System, c: nat)
    requires Inv(s) && Exact(s) && c < |s.tasks| == |t.tasks| && t.tasks == s.tasks[c := t.tasks[c]]
    requires t.births == s.births && t.shutdowns == s.shutdowns
    requires s.tasks[c].phase in {Drained, Closed} ==> t.tasks[c].phase in {Drained, Closed}
    requires t.reg.drainedConnections
          == s.reg.drainedConnections + if t.tasks[c].phase in {Drained, Closed} then {c} else {}
    requires s.reg.drainedDispatchers <= t.reg.drainedDispatchers
    requires forall i :: 0 <= i < |s.births| ==>
      (s.births[i].dispatcher in t.reg.drainedDispatchers <==>
         || s.births[i].dispatcher in s.reg.drainedDispatchers
         || (s.births[i].connection == c && t.tasks[c].phase.Closed? && t.tasks[c].identity.Some?))
    requires s.tasks[c].phase.Closed? ==> t.tasks[c] == s.tasks[c]
    ensures Exact(t)
  {
    forall i | 0 <= i < |t.births| ensures DispatcherExact(t, i) {
      assert DispatcherExact(s, i);
      assert ShutDrained(t, i + 1) <==> ShutDrained(s, i + 1);
    }
    assert forall g :: Touched(t, g) <==> Touched(s, g);
    forall d | 0 <= d < |t.tasks| ensures d in t.reg.drainedConnections <==> ConnectionDue(t, d) {
      assert d in s.reg.drainedConnections <==> ConnectionDue(s, d);
    }
    forall k | 0 <= k < |t.shutdowns| ensures SnapshotExact(t, t.shutdowns[k]) {
      assert SnapshotExact(s, s.shutdowns[k]);
    }
  }

  lemma BirthsApart(s: System, i: nat, j: nat)
    requires Inv(s) && i < |s.births| && j < |s.births|
    ensures s.births[i].connection == s.births[j].connection <==> i == j
    ensures s.births[i].dispatcher == s.births[j].dispatcher <==> i == j
  {
  }

  lemma MovesExact(s: System, step: Step)
    requires Inv(s) && Exact(s) && (step.Bye? || step.LeaveLoop? || step.DrainOwn?)
    ensures Exact(Next(s, step))
  {
    var t := Next(s, step);
    if t != s {
      assert t.reg.drainedDispatchers == s.reg.drainedDispatchers;
      assert step.c in s.reg.drainedConnections <==> ConnectionDue(s, step.c);
      TaskExact(s, t, step.c);
    }
  }

  /** A socket that closes has its session disconnected, and its dispatcher drained, unless a shutdown did that. */
  lemma CloseDrains(s: System, c: nat, i: nat)
    requires Inv(s) && ReadersOk(s) && Exact(s) && c < |s.tasks| && s.tasks[c].phase.Drained? && i < |s.births|
    ensures s.births[i].dispatcher in OnClose(s, c).reg.drainedDispatchers <==>
      || s.births[i].dispatcher in s.reg.drainedDispatchers
      || (s.births[i].connection == c && s.tasks[c].identity.Some?)
  {
    if s.tasks[c].identity.Some? {
      var (uid, g) := s.tasks[c].identity.value;
      assert TaskOk(s, c) && ReaderOk(s, c);
      BirthsApart(s, i, g - 1);
      if Lives(s, uid, g) {
        assert RecordOk(s, uid, s.reg.sessions[uid]);
      } else {
        assert ShutDrained(s, g);
        assert DispatcherExact(s, g - 1);
      }
    }
  }

  lemma CloseExact(s: System, c: nat)
    requires Inv(s) && ReadersOk(s) && Exact(s)
    ensures Exact(Next(s, CloseTask(c)))
  {
    if c < |s.tasks| && s.tasks[c].phase.Drained? {
      var t := OnClose(s, c);
      forall i | 0 <= i < |s.births|
        ensures s.births[i].dispatcher in t.reg.drainedDispatchers <==>
          || s.births[i].dispatcher in s.reg.drainedDispatchers
          || (s.births[i].connection == c && s.tasks[c].identity.Some?)
      {
        CloseDrains(s, c, i);
      }
      CloseDrainsOwn(s, c);
      assert ConnectionDue(s, c);
      TaskExact(s, t, c);
    }
  }

  lemma NewBirth(s: System, c: nat, p: RegisterParams)
    requires Inv(s) && CanRegister(s, c, p)
    ensures s.reg.dispatchers !in s.reg.drainedDispatchers && !Touched(s, |s.births| + 1)
        && !ShutDrained(s, |s.births| + 1)
    ensures forall i :: 0 <= i < |s.births| ==> s.births[i].connection != c
  {
    forall d | d in s.reg.drainedDispatchers ensures d < s.reg.dispatchers {
      assert DispatcherCause(s, d);
      var i :| 0 <= i < |s.births| && s.births[i].dispatcher == d;
      assert BirthOk(s, i);
    }
    forall k | 0 <= k < |s.shutdowns| ensures s.shutdowns[k].snapshot.generation <= |s.births| {
      assert SnapshotOk(s, s.shutdowns[k]);
    }
    forall i | 0 <= i < |s.births| ensures s.births[i].connection != c { assert BirthOk(s, i); }
  }

  lemma RegisterExact(s: System, c: nat, p: RegisterParams)
    requires Inv(s) && Exact(s) && CanRegister(s, c, p)
    ensures Exact(OnRegister(s, c, p))
  {
    var t := OnRegister(s, c, p);
    NewBirth(s, c, p);
    forall i | 0 <= i < |t.births| ensures DispatcherExact(t, i) {
      assert ShutDrained(t, i + 1) <==> ShutDrained(s, i + 1);
      if i < |s.births| { assert DispatcherExact(s, i); }
    }
    assert forall g :: Touched(t, g) <==> Touched(s, g);
    forall d | 0 <= d < |t.tasks| ensures d in t.reg.drainedConnections <==> ConnectionDue(t, d) {
      RegisteredDue(s, t, c, d);
    }
    forall k | 0 <= k < |t.shutdowns| ensures SnapshotExact(t, t.shutdowns[k]) {
      assert SnapshotExact(s, s.shutdowns[k]);
    }
  }

  lemma RegisteredDue(s: System, t: System, c: nat, d: nat)
    requires c < |s.tasks| == |t.tasks| && d < |s.tasks| && t.tasks == s.tasks[c := t.tasks[c]]
    requires s.tasks[c].phase.Reading? && t.tasks[c].phase.Reading? && t.shutdowns == s.shutdowns
    requires |t.births| == |s.births| + 1 && t.births[..|s.births|] == s.births
    requires t.births[|s.births|].connection == c && !Touched(s, |s.births| + 1)
    ensures ConnectionDue(t, d) <==> ConnectionDue(s, d)
  {
    assert forall g :: Touched(t, g) <==> Touched(s, g);
    if i :| 0 <= i < |s.births| && s.births[i].connection == d && Touched(s, i + 1) {
      assert t.births[i] == s.births[i];
    }
    if i :| 0 <= i < |t.births| && t.births[i].connection == d && Touched(t, i + 1) {
      if i < |s.births| { assert t.births[i] == s.births[i]; }
    }
  }

  lemma BeginExact(s: System, uid: string)
    requires Inv(s) && Exact(s) && uid in s.reg.sessions
    ensures Exact(OnBegin(s, uid))
  {
    var t := OnBegin(s, uid);
    var n := |s.shutdowns|;
    assert RecordOk(s, uid, s.reg.sessions[uid]);
    forall k | 0 <= k < |t.shutdowns| ensures SnapshotExact(t, t.shutdowns[k]) {
      if k < n { assert SnapshotExact(s, s.shutdowns[k]); }
    }
    forall g ensures (Touched(t, g) <==> Touched(s, g)) && (ShutDrained(t, g) <==> ShutDrained(s, g)) {
      StagesKept(s, t, g);
    }
    forall i | 0 <= i < |t.births| ensures DispatcherExact(t, i) { assert DispatcherExact(s, i); }
    forall c | 0 <= c < |t.tasks| ensures c in t.reg.drainedConnections <==> ConnectionDue(t, c) {
      assert ConnectionDue(t, c) <==> ConnectionDue(s, c);
    }
  }

  lemma StagesKept(s: System, t: System, g: nat)
    requires |t.shutdowns| == |s.shutdowns| + 1 && t.shutdowns[..|s.shutdowns|] == s.shutdowns
    requires t.shutdowns[|s.shutdowns|].stage.Snapshotted?
    ensures Touched(t, g) <==> Touched(s, g)
    ensures ShutDrained(t, g) <==> ShutDrained(s, g)
  {
    forall k | 0 <= k < |s.shutdowns| ensures t.shutdowns[k] == s.shutdowns[k] {}
  }

  /** Shutdown `k` moves on by one stage, with what it drains. */
  lemma ShutdownExact(s: System, t: System, k: nat, stage: Stage)
    requires Inv(s) && Exact(s) && k < |s.shutdowns| && t.shutdowns == s.shutdowns[k := s.shutdowns[k].(stage := stage)]
    requires t.births == s.births && t.tasks == s.tasks && !stage.Snapshotted?
    requires s.shutdowns[k].stage in {FullyDrained, Finished} ==> stage in {FullyDrained, Finished}
    requires var snap := s.shutdowns[k].snapshot;
      && t.reg.drainedConnections == s.reg.drainedConnections + {s.births[snap.generation - 1].connection}
      && t.reg.drainedDispatchers
           == s.reg.drainedDispatchers + if stage in {FullyDrained, Finished} then {snap.dispatcher} else {}
    ensures Exact(t)
  {
    var sh := s.shutdowns[k];
    var g := sh.snapshot.generation;
    assert SnapshotExact(s, sh);
    forall l | 0 <= l < |t.shutdowns| ensures SnapshotExact(t, t.shutdowns[l]) {
      assert SnapshotExact(s, s.shutdowns[l]);
    }
    forall h ensures (Touched(t, h) <==> Touched(s, h) || h == g)
      ensures ShutDrained(t, h) <==> ShutDrained(s, h) || (h == g && stage in {FullyDrained, Finished})
    {
      StageMoves(s, t, k, stage, h);
    }
    forall i | 0 <= i < |t.births| ensures DispatcherExact(t, i) {
      assert DispatcherExact(s, i);
      BirthsApart(s, i, g - 1);
    }
    forall c | 0 <= c < |t.tasks| ensures c in t.reg.drainedConnections <==> ConnectionDue(t, c) {
      MovedDue(s, t, g, c);
    }
  }

  lemma StageMoves(s: System, t: System, k: nat, stage: Stage, h: nat)
    requires k < |s.shutdowns| && t.shutdowns == s.shutdowns[k := s.shutdowns[k].(stage := stage)]
        && !stage.Snapshotted?
    requires s.shutdowns[k].stage in {FullyDrained, Finished} ==> stage in {FullyDrained, Finished}
    ensures Touched(t, h) <==> Touched(s, h) || h == s.shutdowns[k].snapshot.generation
    ensures ShutDrained(t, h) <==>
      ShutDrained(s, h) || (h == s.shutdowns[k].snapshot.generation && stage in {FullyDrained, Finished})
  {
    assert t.shutdowns[k].snapshot == s.shutdowns[k].snapshot && t.shutdowns[k].stage == stage;
    forall l | 0 <= l < |s.shutdowns| && l != k ensures t.shutdowns[l] == s.shutdowns[l] {}
    if Touched(s, h) {
      var l :| 0 <= l < |s.shutdowns| && s.shutdowns[l].snapshot.generation == h && !s.shutdowns[l].stage.Snapshotted?;
      assert t.shutdowns[l].snapshot.generation == h;
    }
    if ShutDrained(s, h) {
      var l :| 0 <= l < |s.shutdowns| && s.shutdowns[l].snapshot.generation == h
               && s.shutdowns[l].stage in {FullyDrained, Finished};
      assert t.shutdowns[l].snapshot.generation == h;
    }
  }

  lemma MovedDue(s: System, t: System, g: nat, c: nat)
    requires Exact(s) && t.births == s.births && t.tasks == s.tasks && 1 <= g <= |s.births| && c < |s.tasks|
    requires forall h :: Touched(t, h) <==> Touched(s, h) || h == g
    requires t.reg.drainedConnections == s.reg.drainedConnections + {s.births[g - 1].connection}
    ensures c in t.reg.drainedConnections <==> ConnectionDue(t, c)
  {
    assert c in s.reg.drainedConnections <==> ConnectionDue(s, c);
    if c == s.births[g - 1].connection { assert Touched(t, g - 1 + 1); }
  }

  /** What has been drained of the generation a shutdown snapshotted, by its stage. */
  lemma DrainedSoFar(s: System, k: nat)
    requires Inv(s) && Exact(s) && k < |s.shutdowns|
    ensures var snap, stage := s.shutdowns[k].snapshot, s.shutdowns[k].stage;
      && 1 <= snap.generation <= |s.births|
      && (!stage.Snapshotted? ==> s.births[snap.generation - 1].connection in s.reg.drainedConnections)
      && (stage in {FullyDrained, Finished} ==> snap.dispatcher in s.reg.drainedDispatchers)
  {
    var sh := s.shutdowns[k];
    assert SnapshotExact(s, sh);
    assert BirthOk(s, sh.snapshot.generation - 1) && DispatcherExact(s, sh.snapshot.generation - 1);
    if !sh.stage.Snapshotted? {
      assert Touched(s, sh.snapshot.generation);
      assert ConnectionDue(s, s.births[sh.snapshot.generation - 1].connection);
    }
    if sh.stage in {FullyDrained, Finished} { assert ShutDrained(s, sh.snapshot.generation); }
  }

  lemma FirstExact(s: System, k: nat)
    requires Inv(s) && Exact(s) && k < |s.shutdowns| && s.shutdowns[k].stage.Snapshotted?
    ensures Exact(Next(s, DrainFirst(k)))
  {
    assert SnapshotExact(s, s.shutdowns[k]);
    ShutdownExact(s, Next(s, DrainFirst(k)), k, HalfDrained);
  }

  lemma SecondExact(s: System, k: nat)
    requires Inv(s) && Exact(s) && k < |s.shutdowns| && s.shutdowns[k].stage.HalfDrained?
    ensures Exact(Next(s, DrainSecond(k)))
  {
    assert SnapshotExact(s, s.shutdowns[k]);
    DrainedSoFar(s, k);
    ShutdownExact(s, Next(s, DrainSecond(k)), k, FullyDrained);
  }

  lemma RemoveExact(s: System, k: nat)
    requires Inv(s) && Exact(s) && k < |s.shutdowns| && s.shutdowns[k].stage.FullyDrained?
    ensures Exact(Next(s, RemoveShut(k)))
  {
    assert SnapshotExact(s, s.shutdowns[k]);
    DrainedSoFar(s, k);
    ShutdownExact(s, Next(s, RemoveShut(k)), k, Finished);
  }

  lemma StepExact(s: System, step: Step)
    requires Inv(s) && ReadersOk(s) && Exact(s)
    ensures Exact(Next(s, step))
  {
    match step {
      case Accept => AcceptExact(s);
      case Register(c, p) => if CanRegister(s, c, p) { RegisterExact(s, c, p); }
      case Bye(_) => MovesExact(s, step);
      case LeaveLoop(_) => MovesExact(s, step);
      case DrainOwn(_) => MovesExact(s, step);
      case CloseTask(c) => CloseExact(s, c);
      case BeginShutdown(uid) => if uid in s.reg.sessions { BeginExact(s, uid); }
      case DrainFirst(k) => if k < |s.shutdowns| && s.shutdowns[k].stage.Snapshotted? { FirstExact(s, k); }
      case DrainSecond(k) => if k < |s.shutdowns| && s.shutdowns[k].stage.HalfDrained? { SecondExact(s, k); }
      case RemoveShut(k) => if k < |s.shutdowns| && s.shutdowns[k].stage.FullyDrained? { RemoveExact(s, k); }
      case _ => QuietExact(s, Next(s, step));
    }
  }

  lemma {:induction false} RunExact(steps: seq<Step>)
    ensures Exact(Run(INITIAL_SYSTEM, steps))
  {
    if steps != [] {
      RunExact(steps[..|steps| - 1]);
      RunKeepsInv(steps[..|steps| - 1]);
      ReadersEverywhere(steps[..|steps| - 1]);
      StepExact(Run(INITIAL_SYSTEM, steps[..|steps| - 1]), steps[|steps| - 1]);
    }
  }

  /** Exactly what is drained, in every reachable state. A dispatcher: when the socket of its generation closed under
      its identity, or a shutdown that snapshotted the generation got past both drains. A connection: when its socket
      drained it, or a shutdown of a generation born on it has begun to drain. */
  lemma DrainedExactly(steps: seq<Step>)
    ensures var s := Run(INITIAL_SYSTEM, steps);
      && (forall i :: 0 <= i < |s.births| ==> DispatcherExact(s, i))
      && (forall c :: 0 <= c < |s.tasks| ==> (c in s.reg.drainedConnections <==> ConnectionDue(s, c)))
  {
    RunExact(steps);
  }

  /** So a shutdown that is through has done its work, in every reachable state: the snapshot's dispatcher and the
      connection its generation was born with are drained, and once it is finished the generation is gone. */
  lemma ShutdownDone(steps: seq<Step>, k: nat)
    requires var s := Run(INITIAL_SYSTEM, steps); k < |s.shutdowns| && s.shutdowns[k].stage in {FullyDrained, Finished}
    ensures var s := Run(INITIAL_SYSTEM, steps);
      var g := s.shutdowns[k].snapshot.generation;
      && 1 <= g <= |s.births|
      && s.shutdowns[k].snapshot.dispatcher in s.reg.drainedDispatchers
      && s.births[g - 1].connection in s.reg.drainedConnections
      && (s.shutdowns[k].stage.Finished? ==> !Holds(s.reg, s.shutdowns[k].uid, g))
  {
    RunExact(steps);
    RunKeepsInv(steps);
    ReadersEverywhere(steps);
    var s := Run(INITIAL_SYSTEM, steps);
    var g := s.shutdowns[k].snapshot.generation;
    DrainedSoFar(s, k);
    assert ShutDownGone(s, k);
  }

  /** A socket whose generation is no longer live, and that has not said bye, closed or was shut down. */
  lemma IdentifiedIsDue(s: System, i: nat)
    requires Inv(s) && ReadersOk(s) && i < |s.births| && !Lives(s, s.births[i].uid, i + 1)
    requires s.births[i].connection < |s.tasks| && s.tasks[s.births[i].connection].identity.Some?
    ensures DispatcherDue(s, i)
  {
    var c := s.births[i].connection;
    assert ReaderOk(s, c) && TaskOk(s, c);
    var (uid, g) := s.tasks[c].identity.value;
    BirthsApart(s, i, g - 1);
    if !s.tasks[c].phase.Closed? {
      assert ShutDownFor(s, uid, g);
      assert ShutDrained(s, g);
    }
  }

  lemma EndedYetOpen(s: System, i: nat)
    requires Inv(s) && ReadersOk(s) && Exact(s) && i < |s.births| && !Lives(s, s.births[i].uid, i + 1)
    ensures s.births[i].connection < |s.tasks|
    ensures s.births[i].dispatcher !in s.reg.drainedDispatchers <==>
      s.tasks[s.births[i].connection].identity.None? && !ShutDrained(s, i + 1)
  {
    assert DispatcherExact(s, i);
    if s.tasks[s.births[i].connection].identity.Some? { IdentifiedIsDue(s, i); }
  }

  /** And every session that has ended is drained, but for one case, in every reachable state: the dispatcher of a
      generation that is no longer live is open if and only if its socket said bye, which removes the record and drains
      no dispatcher, and no shutdown of it got past both drains. */
  lemma EndedYetOpenIff(steps: seq<Step>, i: nat)
    requires var s := Run(INITIAL_SYSTEM, steps); i < |s.births| && !Lives(s, s.births[i].uid, i + 1)
    ensures var s := Run(INITIAL_SYSTEM, steps);
      && s.births[i].connection < |s.tasks|
      && (s.births[i].dispatcher !in s.reg.drainedDispatchers <==>
            s.tasks[s.births[i].connection].identity.None? && !ShutDrained(s, i + 1))
  {
    RunExact(steps);
    RunKeepsInv(steps);
    ReadersEverywhere(steps);
    EndedYetOpen(Run(INITIAL_SYSTEM, steps), i);
  }

  /** It does happen: a session says bye, and its dispatcher stays open. */
  lemma ByeLeavesDispatcherOpen(p: RegisterParams)
    ensures var s := Next(Next(Next(INITIAL_SYSTEM, Accept), Register(0, p)), Bye(0));
      |s.births| == 1 && s.reg.sessions == map[] && s.births[0].dispatcher !in s.reg.drainedDispatchers
  {
    var registered := Next(Next(INITIAL_SYSTEM, Accept), Register(0, p));
    assert registered.tasks == [Task(Some((p.clientUid, 1)), Reading)];
    assert registered.reg.sessions.Keys == {p.clientUid} && registered.reg.sessions[p.clientUid].generation == 1;
  }

  // ---- The grace period ----------------------------------------------------------------------------------

  /** A sweep removes exactly the sessions that have been disconnected for the grace period or longer, and leaves every
      other record as it is. */
  lemma SweptExactly(s: System, grace: nat, uid: string)
    requires uid in s.reg.sessions
    ensures var rec, t := s.reg.sessions[uid], Next(s, Sweep(grace));
      && (uid !in t.reg.sessions <==>
            rec.state == Disconnected && rec.disconnectedAt.Some? && s.now - rec.disconnectedAt.value >= grace)
      && (uid in t.reg.sessions ==> t.reg.sessions[uid] == rec)
      && t.tasks == s.tasks && t.shutdowns == s.shutdowns
  {
  }

  /** The socket of generation `g` of `uid` closed at the n-th step, at this time, and ended the session. */
  predicate ClosedAt(steps: seq<Step>, n: int, uid: string, g: nat, time: nat) {
    && 0 <= n < |steps| && steps[n].CloseTask?
    && var s := Run(INITIAL_SYSTEM, steps[..n]);
       && s.now == time && Lives(s, uid, g) && IsHolder(s, steps[n].c, g)
       && !Lives(Next(s, steps[n]), uid, g)
  }

  /** The record of `uid` is disconnected, as it was before. */
  predicate StaysDisconnected(s: System, rec: SessionRecord, uid: string) {
    && uid in s.reg.sessions && s.reg.sessions[uid].state.Disconnected?
    && s.reg.sessions[uid].generation == rec.generation && s.reg.sessions[uid].disconnectedAt == rec.disconnectedAt
  }

  lemma CloseDisconnects(s: System, c: nat, uid: string)
    requires Inv(s) && uid in Next(s, CloseTask(c)).reg.sessions
    requires Next(s, CloseTask(c)).reg.sessions[uid].state.Disconnected?
    ensures var rec := Next(s, CloseTask(c)).reg.sessions[uid];
      || StaysDisconnected(s, rec, uid)
      || (Lives(s, uid, rec.generation) && IsHolder(s, c, rec.generation) && rec.disconnectedAt == Some(s.now))
  {
    if c < |s.tasks| && s.tasks[c].phase.Drained? {
      assert TaskOk(s, c);
      if !HoldsActive(s, c, uid) { assert Next(s, CloseTask(c)).reg.sessions[uid] == s.reg.sessions[uid]; }
    }
  }

  lemma OthersDoNotDisconnect(s: System, step: Step, uid: string)
    requires !step.CloseTask? && uid in Next(s, step).reg.sessions
    requires Next(s, step).reg.sessions[uid].state.Disconnected?
    ensures StaysDisconnected(s, Next(s, step).reg.sessions[uid], uid)
  {
  }

  /** Since when a session is disconnected: since its own socket closed. */
  lemma {:induction false} DisconnectedSince(steps: seq<Step>, uid: string)
    requires var s := Run(INITIAL_SYSTEM, steps); uid in s.reg.sessions && s.reg.sessions[uid].state == Disconnected
    ensures var rec := Run(INITIAL_SYSTEM, steps).reg.sessions[uid];
      rec.disconnectedAt.Some? && exists n :: ClosedAt(steps, n, uid, rec.generation, rec.disconnectedAt.value)
    decreases |steps|
  {
    var m := |steps| - 1;
    var init := steps[..m];
    var s := Run(INITIAL_SYSTEM, init);
    var rec := Run(INITIAL_SYSTEM, steps).reg.sessions[uid];
    RunKeepsInv(init);
    if steps[m].CloseTask? {
      CloseDisconnects(s, steps[m].c, uid);
    } else {
      OthersDoNotDisconnect(s, steps[m], uid);
    }
    if !StaysDisconnected(s, rec, uid) {
      assert ClosedAt(steps, m, uid, rec.generation, s.now);
    } else {
      DisconnectedSince(init, uid);
      var n :| ClosedAt(init, n, uid, rec.generation, rec.disconnectedAt.value);
      assert init[..n] == steps[..n] && init[n] == steps[n];
      assert ClosedAt(steps, n, uid, rec.generation, rec.disconnectedAt.value);
    }
  }

  /** The grace period is waited for: over every run, what a sweep removes is a session whose own socket closed at least
      the grace period ago, and that has not come back since. */
  lemma GraceWaited(steps: seq<Step>, grace: nat, uid: string)
    requires var s := Run(INITIAL_SYSTEM, steps); uid in s.reg.sessions && uid !in Next(s, Sweep(grace)).reg.sessions
    ensures var s := Run(INITIAL_SYSTEM, steps);
      exists n, time :: ClosedAt(steps, n, uid, s.reg.sessions[uid].generation, time) && s.now - time >= grace
  {
    SweptExactly(Run(INITIAL_SYSTEM, steps), grace, uid);
    DisconnectedSince(steps, uid);
  }

  // ---- A registration ------------------------------------------------------------------------------------

  /** What a client says of itself when it registers. */
  predicate SaysOfItself(rec: SessionRecord, p: RegisterParams) {
    && rec.sessionId == p.clientUid && rec.kind == p.kind && rec.version == p.version
    && rec.configId == (if p.configId.Some? then p.configId.value else p.kind)
    && rec.infobaseName == p.infobaseName && rec.ibSessionNumber == p.ibSessionNumber
    && rec.clusterServer == p.clusterServer && rec.databaseKey == p.databaseKey && rec.tools == p.tools
    && (p.hostId.Some? ==> rec.hostId == p.hostId.value) && (p.pid.Some? ==> rec.pid == p.pid)
  }

  /** What a reconnect keeps of the record, and what a new session has in its place. */
  predicate KeptFrom(before: Reg, rec: SessionRecord, p: RegisterParams, now: nat) {
    if p.clientUid in before.sessions then
      var past := before.sessions[p.clientUid];
      && past.state == Disconnected && rec.registeredAt == past.registeredAt && rec.lastCallAt == past.lastCallAt
      && (p.hostId.None? ==> rec.hostId == past.hostId) && (p.pid.None? ==> rec.pid == past.pid)
    else
      && rec.registeredAt == now && rec.lastCallAt == now
      && (p.hostId.None? ==> rec.hostId == "unknown") && (p.pid.None? ==> rec.pid.None?)
  }

  /** After a registration, in every reachable state, the record is live and says what the client said, under a new
      generation, with the socket's own connection and open handles. A reconnect keeps the times of the first
      registration and of the last call, and the host and process it was not told anew. No other record changes. */
  lemma RegisteredAnew(steps: seq<Step>, c: nat, p: RegisterParams)
    requires CanRegister(Run(INITIAL_SYSTEM, steps), c, p)
    ensures var s := Run(INITIAL_SYSTEM, steps);
      var t := Next(s, Register(c, p));
      var g := s.reg.generations + 1;
      && Lives(t, p.clientUid, g) && t.tasks[c].identity == Some((p.clientUid, g))
      && SaysOfItself(t.reg.sessions[p.clientUid], p) && KeptFrom(s.reg, t.reg.sessions[p.clientUid], p, s.now)
      && t.reg.sessions[p.clientUid].connection == Some(c) && c !in t.reg.drainedConnections
      && t.reg.sessions[p.clientUid].dispatcher !in t.reg.drainedDispatchers
      && t.reg.sessions - {p.clientUid} == s.reg.sessions - {p.clientUid}
  {
    var s := Run(INITIAL_SYSTEM, steps);
    RunKeepsInv(steps);
    RunExact(steps);
    NewBirth(s, c, p);
    assert !ConnectionDue(s, c);
    if p.clientUid in s.reg.sessions { assert RecordOk(s, p.clientUid, s.reg.sessions[p.clientUid]); }
  }

  /** Time passes, a call is noted on its session, and a change of tools is the whole of what a notification changes. */
  lemma NotedExactly(s: System, dt: nat, uid: string, c: nat, tools: seq<ToolDescriptor>)
    ensures Next(s, Tick(dt)) == s.(now := s.now + dt)
    ensures var t := Next(s, BumpCall(uid));
      && t == s.(reg := s.reg.(sessions := t.reg.sessions)) && t.reg.sessions.Keys == s.reg.sessions.Keys
      && forall v :: v in s.reg.sessions ==>
           t.reg.sessions[v] == if v == uid then s.reg.sessions[v].(lastCallAt := s.now) else s.reg.sessions[v]
    ensures c < |s.tasks| && s.tasks[c].phase == Reading && s.tasks[c].identity.Some? ==>
      var t := Next(s, ToolsChanged(c, tools));
      && t == s.(reg := s.reg.(sessions := t.reg.sessions, epoch := t.reg.epoch))
      && t.reg.sessions.Keys == s.reg.sessions.Keys
      && (forall v :: v in s.reg.sessions ==>
            t.reg.sessions[v] == if v == s.tasks[c].identity.value.0 then s.reg.sessions[v].(tools := tools)
                                 else s.reg.sessions[v])
      && (t.reg.epoch == s.reg.epoch <==> t.reg.sessions == s.reg.sessions) && t.reg.epoch <= s.reg.epoch + 1
  {
  }
}
