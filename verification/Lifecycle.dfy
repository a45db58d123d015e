/** Sessions over their whole life: socket tasks, shutdowns and sweeps interleaving over one registry. */
module Lifecycle {
  import opened Basics
  import opened Registry

  /** Where a socket task is: in its read loop, out of it, with its handle drained, or gone. */
  datatype Phase = Reading | Ended | Drained | Closed

  /** A socket task. Its connection handle is its index in the system. */
  datatype Task = Task(identity: Option<(string, nat)>, phase: Phase)

  datatype Stage = Snapshotted | HalfDrained | FullyDrained | Finished

  /** A `shutdown_session` under way, with the record it took at its start. */
  datatype Shutdown = Shutdown(uid: string, snapshot: SessionRecord, stage: Stage)

  /** Who was born as a generation: history, not program state. */
  datatype Birth = Birth(uid: string, connection: ConnectionId, dispatcher: DispatcherId)

  datatype System = System(reg: Reg, now: nat, tasks: seq<Task>, shutdowns: seq<Shutdown>, births: seq<Birth>)

  datatype Step =
    | Tick(dt: nat)
    | Accept                                     // a socket is accepted
    | Register(c: nat, params: RegisterParams)   // `session.register` on task c
    | ToolsChanged(c: nat, tools: seq<ToolDescriptor>)
    | Bye(c: nat)                                // `session.bye`: remove, forget the identity, leave the loop
    | LeaveLoop(c: nat)                          // close, error or keep-alive timeout
    | DrainOwn(c: nat)                           // the socket drains its own handle
    | CloseTask(c: nat)                          // the socket marks its session disconnected
    | BeginShutdown(uid: string)
    | DrainFirst(k: nat)                         // after the client's answer or the grace timeout
    | DrainSecond(k: nat)
    | RemoveShut(k: nat)
    | Sweep(grace: nat)
    | BumpCall(uid: string)

  const INITIAL_SYSTEM := System(EMPTY_REG, 0, [], [], [])

  function SetTask(s: System, c: nat, t: Task): System
    requires c < |s.tasks|
  {
    s.(tasks := s.tasks[c := t])
  }

  function SetStage(s: System, k: nat, stage: Stage): System
    requires k < |s.shutdowns|
  {
    s.(shutdowns := s.shutdowns[k := s.shutdowns[k].(stage := stage)])
  }

  predicate CanRegister(s: System, c: nat, p: RegisterParams) {
    c < |s.tasks| && s.tasks[c] == Task(None, Reading) && !Collides(s.reg, p)
  }

  function OnRegister(s: System, c: nat, p: RegisterParams): System
    requires CanRegister(s, c, p)
  {
    s.(reg := Registered(s.reg, p, s.now, Some(c)),
       tasks := s.tasks[c := Task(Some((p.clientUid, s.reg.generations + 1)), Reading)],
       births := s.births + [Birth(p.clientUid, c, s.reg.dispatchers)])
  }

  function OnBye(s: System, c: nat): System
    requires c < |s.tasks|
  {
    var id := s.tasks[c].identity;
    var reg := if id.Some? then RemovedIfGeneration(s.reg, id.value.0, id.value.1) else s.reg;
    SetTask(s.(reg := reg), c, Task(None, Ended))
  }

  function OnClose(s: System, c: nat): System
    requires c < |s.tasks|
  {
    var id := s.tasks[c].identity;
    var reg := if id.Some? then DisconnectedIfGeneration(s.reg, id.value.0, id.value.1, s.now) else s.reg;
    SetTask(s.(reg := reg), c, s.tasks[c].(phase := Closed))
  }

  /** The connection first when the snapshot was Active, the dispatcher first otherwise. */
  function DrainedFirst(r: Reg, snapshot: SessionRecord): Reg {
    if snapshot.state.Active? then
      if snapshot.connection.Some? then DrainConnection(r, snapshot.connection.value) else r
    else DrainDispatcher(r, snapshot.dispatcher)
  }

  function DrainedSecond(r: Reg, snapshot: SessionRecord): Reg {
    if snapshot.state.Active? then DrainDispatcher(r, snapshot.dispatcher)
    else if snapshot.connection.Some? then DrainConnection(r, snapshot.connection.value) else r
  }

  function OnDrainOwn(s: System, c: nat): System
    requires c < |s.tasks|
  {
    SetTask(s.(reg := DrainConnection(s.reg, c)), c, s.tasks[c].(phase := Drained))
  }

  function OnBegin(s: System, uid: string): System
    requires uid in s.reg.sessions
  {
    s.(shutdowns := s.shutdowns + [Shutdown(uid, s.reg.sessions[uid], Snapshotted)])
  }

  function OnRemoveShut(s: System, k: nat): System
    requires k < |s.shutdowns|
  {
    SetStage(s.(reg := RemovedIfGeneration(s.reg, s.shutdowns[k].uid, s.shutdowns[k].snapshot.generation)), k, Finished)
  }

  function Next(s: System, step: Step): System {
    match step
    case Tick(dt) => s.(now := s.now + dt)
    case Accept => s.(tasks := s.tasks + [Task(None, Reading)])
    case Register(c, p) => if CanRegister(s, c, p) then OnRegister(s, c, p) else s
    case ToolsChanged(c, tools) =>
      if c < |s.tasks| && s.tasks[c].phase.Reading? && s.tasks[c].identity.Some?
      then s.(reg := ToolsUpdated(s.reg, s.tasks[c].identity.value.0, tools)) else s
    case Bye(c) => if c < |s.tasks| && s.tasks[c].phase.Reading? then OnBye(s, c) else s
    case LeaveLoop(c) => if c < |s.tasks| && s.tasks[c].phase.Reading? then SetTask(s, c, s.tasks[c].(phase := Ended))
        else s
    case DrainOwn(c) =>
      if c < |s.tasks| && s.tasks[c].phase.Ended? then OnDrainOwn(s, c) else s
    case CloseTask(c) => if c < |s.tasks| && s.tasks[c].phase.Drained? then OnClose(s, c) else s
    case BeginShutdown(uid) =>
      if uid in s.reg.sessions then OnBegin(s, uid) else s
    case DrainFirst(k) =>
      if k < |s.shutdowns| && s.shutdowns[k].stage.Snapshotted?
      then SetStage(s.(reg := DrainedFirst(s.reg, s.shutdowns[k].snapshot)), k, HalfDrained) else s
    case DrainSecond(k) =>
      if k < |s.shutdowns| && s.shutdowns[k].stage.HalfDrained?
      then SetStage(s.(reg := DrainedSecond(s.reg, s.shutdowns[k].snapshot)), k, FullyDrained) else s
    case RemoveShut(k) =>
      if k < |s.shutdowns| && s.shutdowns[k].stage.FullyDrained?
      then OnRemoveShut(s, k) else s
    case Sweep(grace) => s.(reg := Swept(s.reg, s.now, grace))
    case BumpCall(uid) => s.(reg := CallBumped(s.reg, uid, s.now))
  }

  function Run(s: System, steps: seq<Step>): System
    decreases |steps|
  {
    if steps == [] then s else Next(Run(s, steps[..|steps| - 1]), steps[|steps| - 1])
  }

  // ---- The invariant -------------------------------------------------------------------

  /** Generation `g` was born to this uid with this dispatcher. */
  predicate BornAs(s: System, g: nat, uid: string, d: DispatcherId) {
    1 <= g <= |s.births| && s.births[g - 1].uid == uid && s.births[g - 1].dispatcher == d
  }

  /** Generations, connections and dispatchers correspond one to one. */
  predicate OneToOne(s: System) {
    && |s.births| == s.reg.generations
    && (forall i, j :: 0 <= i < j < |s.births| ==>
          s.births[i].connection != s.births[j].connection && s.births[i].dispatcher != s.births[j].dispatcher)
  }

  /** Birth `i` has a task, which still knows it unless it has left its loop. */
  predicate BirthOk(s: System, i: nat)
    requires i < |s.births|
  {
    var b := s.births[i];
    && b.connection < |s.tasks| && b.dispatcher < s.reg.dispatchers
    && (s.tasks[b.connection].identity == Some((b.uid, i + 1)) || !s.tasks[b.connection].phase.Reading?)
  }

  /** A task's identity is a generation that was born to it. */
  predicate TaskOk(s: System, c: nat)
    requires c < |s.tasks|
  {
    s.tasks[c].identity.Some? ==>
      var (uid, g) := s.tasks[c].identity.value;
      1 <= g <= |s.births| && s.births[g - 1].uid == uid && s.births[g - 1].connection == c
  }

  predicate TasksKnowThemselves(s: System) {
    && (forall c :: 0 <= c < |s.tasks| ==> TaskOk(s, c))
    && (forall i :: 0 <= i < |s.births| ==> BirthOk(s, i))
  }

  /** An Active record's task is alive and knows it; a Disconnected one's is closed and everything of it is drained. */
  predicate RecordOk(s: System, uid: string, rec: SessionRecord) {
    && rec.sessionId == uid && BornAs(s, rec.generation, uid, rec.dispatcher)
    && s.births[rec.generation - 1].connection < |s.tasks|
    && var task := s.tasks[s.births[rec.generation - 1].connection];
       if rec.state.Active? then
         && rec.connection == Some(s.births[rec.generation - 1].connection) && rec.disconnectedAt.None?
         && task.identity == Some((uid, rec.generation)) && !task.phase.Closed?
       else
         && rec.connection.None? && rec.disconnectedAt.Some? && rec.disconnectedAt.value <= s.now
         && task.phase.Closed? && rec.dispatcher in s.reg.drainedDispatchers
         && s.births[rec.generation - 1].connection in s.reg.drainedConnections
  }

  predicate RecordsOk(s: System) {
    forall uid :: uid in s.reg.sessions ==> RecordOk(s, uid, s.reg.sessions[uid])
  }

  predicate SnapshotOk(s: System, sh: Shutdown) {
    && BornAs(s, sh.snapshot.generation, sh.uid, sh.snapshot.dispatcher)
    && (sh.snapshot.connection.Some? ==>
        sh.snapshot.connection.value == s.births[sh.snapshot.generation - 1].connection)
  }

  predicate SnapshotsOk(s: System) {
    forall k :: 0 <= k < |s.shutdowns| ==> SnapshotOk(s, s.shutdowns[k])
  }

  /** Some shutdown that snapshotted generation `g` has begun to drain. */
  predicate Touched(s: System, g: nat) {
    exists k :: 0 <= k < |s.shutdowns| && s.shutdowns[k].snapshot.generation == g && !s.shutdowns[k].stage.Snapshotted?
  }

  predicate ConnectionCause(s: System, c: ConnectionId) {
    c < |s.tasks| && (s.tasks[c].phase.Drained? || s.tasks[c].phase.Closed? ||
      exists i :: 0 <= i < |s.births| && s.births[i].connection == c && Touched(s, i + 1))
  }

  predicate DispatcherCause(s: System, d: DispatcherId) {
    exists i :: 0 <= i < |s.births| && s.births[i].dispatcher == d && s.births[i].connection < |s.tasks| &&
      (s.tasks[s.births[i].connection].phase.Closed? || Touched(s, i + 1))
  }

  /** Nothing is drained without a cause in its own generation. */
  predicate DrainsCaused(s: System) {
    && (forall c :: c in s.reg.drainedConnections ==> ConnectionCause(s, c))
    && (forall d :: d in s.reg.drainedDispatchers ==> DispatcherCause(s, d))
  }

  predicate Inv(s: System) {
    OneToOne(s) && TasksKnowThemselves(s) && RecordsOk(s) && SnapshotsOk(s) && DrainsCaused(s)
  }

  // ---- Causes never go away --------------------------------------------------------------

  /** What every step does to the past: births, tasks and shutdowns are only extended, phases only advance. */
  predicate Later(s: System, t: System) {
    && |s.births| <= |t.births| && (forall i :: 0 <= i < |s.births| ==> t.births[i] == s.births[i])
    && |s.tasks| <= |t.tasks| && (forall c :: 0 <= c < |s.tasks| ==>
          && (s.tasks[c].phase.Closed? ==> t.tasks[c].phase.Closed?)
          && (s.tasks[c].phase.Drained? ==> t.tasks[c].phase.Drained? || t.tasks[c].phase.Closed?))
    && |s.shutdowns| <= |t.shutdowns| && (forall k :: 0 <= k < |s.shutdowns| ==>
          && t.shutdowns[k].snapshot == s.shutdowns[k].snapshot && t.shutdowns[k].uid == s.shutdowns[k].uid
          && (!s.shutdowns[k].stage.Snapshotted? ==> !t.shutdowns[k].stage.Snapshotted?))
  }

  lemma TouchedStays(s: System, t: System, g: nat)
    requires Later(s, t) && Touched(s, g)
    ensures Touched(t, g)
  {
    var k :| 0 <= k < |s.shutdowns| && s.shutdowns[k].snapshot.generation == g && !s.shutdowns[k].stage.Snapshotted?;
    assert t.shutdowns[k].snapshot == s.shutdowns[k].snapshot;
  }

  lemma CausesStay(s: System, t: System)
    requires Later(s, t) && DrainsCaused(s)
    ensures forall c :: c in s.reg.drainedConnections ==> ConnectionCause(t, c)
    ensures forall d :: d in s.reg.drainedDispatchers ==> DispatcherCause(t, d)
  {
    forall c | c in s.reg.drainedConnections ensures ConnectionCause(t, c) {
      if !s.tasks[c].phase.Drained? && !s.tasks[c].phase.Closed? {
        var i :| 0 <= i < |s.births| && s.births[i].connection == c && Touched(s, i + 1);
        TouchedStays(s, t, i + 1);
        assert t.births[i] == s.births[i];
      }
    }
    forall d | d in s.reg.drainedDispatchers ensures DispatcherCause(t, d) {
      var i :| 0 <= i < |s.births| && s.births[i].dispatcher == d && s.births[i].connection < |s.tasks| &&
        (s.tasks[s.births[i].connection].phase.Closed? || Touched(s, i + 1));
      assert t.births[i] == s.births[i];
      if Touched(s, i + 1) { TouchedStays(s, t, i + 1); }
    }
  }

  // ---- Every step keeps the invariant ------------------------------------------------------

  lemma SnapshotsStay(s: System, t: System)
    requires Later(s, t) && SnapshotsOk(s) && |t.shutdowns| == |s.shutdowns|
    ensures SnapshotsOk(t)
  {
    forall k | 0 <= k < |t.shutdowns| ensures SnapshotOk(t, t.shutdowns[k]) {
      assert SnapshotOk(s, s.shutdowns[k]);
    }
  }

  /** A record stays in order as long as its own task keeps its identity and does not close under it. */
  lemma RecordStays(s: System, t: System, uid: string, rec: SessionRecord)
    requires RecordOk(s, uid, rec) && Later(s, t) && s.now <= t.now
    requires s.reg.drainedConnections <= t.reg.drainedConnections
        && s.reg.drainedDispatchers <= t.reg.drainedDispatchers
    requires var h := s.births[rec.generation - 1].connection;
      rec.state.Active? ==> t.tasks[h].identity == s.tasks[h].identity && !t.tasks[h].phase.Closed?
    ensures RecordOk(t, uid, rec)
  {
    assert t.births[rec.generation - 1] == s.births[rec.generation - 1];
  }

  /** One task moves on: it may forget its identity, and keeps reading only if nothing changed. */
  lemma TaskChangeKeeps(s: System, t: System, c: nat, task: Task)
    requires OneToOne(s) && TasksKnowThemselves(s) && c < |s.tasks|
    requires t.births == s.births && t.tasks == s.tasks[c := task]
    requires t.reg.generations == s.reg.generations && t.reg.dispatchers == s.reg.dispatchers
    requires task == s.tasks[c] || (!task.phase.Reading?
        && (task.identity == s.tasks[c].identity || task.identity.None?))
    ensures OneToOne(t) && TasksKnowThemselves(t)
  {
    forall d | 0 <= d < |t.tasks| ensures TaskOk(t, d) { assert TaskOk(s, d); }
    forall i | 0 <= i < |t.births| ensures BirthOk(t, i) { assert BirthOk(s, i); }
  }

  lemma BirthKeeps(s: System, t: System, c: nat, uid: string)
    requires OneToOne(s) && TasksKnowThemselves(s) && c < |s.tasks| && s.tasks[c] == Task(None, Reading)
    requires t.births == s.births + [Birth(uid, c, s.reg.dispatchers)]
    requires t.tasks == s.tasks[c := Task(Some((uid, s.reg.generations + 1)), Reading)]
    requires t.reg.generations == s.reg.generations + 1 && t.reg.dispatchers == s.reg.dispatchers + 1
    ensures OneToOne(t) && TasksKnowThemselves(t)
  {
    forall i | 0 <= i < |s.births|
      ensures BirthOk(t, i) && s.births[i].connection != c && s.births[i].dispatcher != s.reg.dispatchers
    {
      assert BirthOk(s, i);
    }
    forall d | 0 <= d < |t.tasks| ensures TaskOk(t, d) { assert TaskOk(s, d); }
    assert BirthOk(t, |s.births|);
  }

  lemma RegisterKeepsInv(s: System, c: nat, p: RegisterParams)
    requires Inv(s) && CanRegister(s, c, p)
    ensures Inv(OnRegister(s, c, p))
  {
    var t := OnRegister(s, c, p);
    BirthKeeps(s, t, c, p.clientUid);
    assert Later(s, t);
    CausesStay(s, t);
    SnapshotsStay(s, t);
    NewRecordOk(s, c, p);
    forall uid | uid in t.reg.sessions && uid != p.clientUid ensures RecordOk(t, uid, t.reg.sessions[uid]) {
      OtherRecordOk(s, c, p, uid);
    }
  }

  lemma OtherRecordOk(s: System, c: nat, p: RegisterParams, uid: string)
    requires Inv(s) && CanRegister(s, c, p) && uid in s.reg.sessions && uid != p.clientUid
        && Later(s, OnRegister(s, c, p))
    ensures var t := OnRegister(s, c, p); uid in t.reg.sessions && RecordOk(t, uid, t.reg.sessions[uid])
  {
    var rec, t := s.reg.sessions[uid], OnRegister(s, c, p);
    assert t.reg.sessions[uid] == rec;
    HeldRecordStays(s, t, c, uid, rec);
  }

  /** A record stays in order when a socket without an identity changes. */
  lemma HeldRecordStays(s: System, t: System, c: nat, uid: string, rec: SessionRecord)
    requires RecordOk(s, uid, rec) && Later(s, t) && s.now <= t.now && c < |s.tasks| == |t.tasks|
    requires s.tasks[c].identity.None? && !s.tasks[c].phase.Closed?
    requires forall d :: 0 <= d < |s.tasks| && d != c ==> t.tasks[d] == s.tasks[d]
    requires s.reg.drainedConnections <= t.reg.drainedConnections
    requires s.reg.drainedDispatchers <= t.reg.drainedDispatchers
    ensures RecordOk(t, uid, rec)
  {
    RecordStays(s, t, uid, rec);
  }

  lemma NewRecordOk(s: System, c: nat, p: RegisterParams)
    requires Inv(s) && CanRegister(s, c, p)
    ensures var t := OnRegister(s, c, p);
        p.clientUid in t.reg.sessions && RecordOk(t, p.clientUid, t.reg.sessions[p.clientUid])
  {
    if p.clientUid in s.reg.sessions { assert RecordOk(s, p.clientUid, s.reg.sessions[p.clientUid]); }
  }

  lemma ByeKeepsInv(s: System, c: nat)
    requires Inv(s) && c < |s.tasks| && s.tasks[c].phase.Reading?
    ensures Inv(OnBye(s, c))
  {
    var t := OnBye(s, c);
    TaskChangeKeeps(s, t, c, Task(None, Ended));
    assert Later(s, t);
    CausesStay(s, t);
    SnapshotsStay(s, t);
    forall uid | uid in t.reg.sessions ensures RecordOk(t, uid, t.reg.sessions[uid]) {
      ByeKeepsRecord(s, c, uid);
    }
  }

  lemma ByeKeepsRecord(s: System, c: nat, uid: string)
    requires Inv(s) && c < |s.tasks| && s.tasks[c].phase.Reading? && uid in OnBye(s, c).reg.sessions
        && Later(s, OnBye(s, c))
    ensures RecordOk(OnBye(s, c), uid, OnBye(s, c).reg.sessions[uid])
  {
    assert RecordOk(s, uid, s.reg.sessions[uid]);
    RecordStays(s, OnBye(s, c), uid, s.reg.sessions[uid]);
  }

  /** Does task `c` hold the Active record of `uid`? */
  predicate HoldsActive(s: System, c: nat, uid: string) {
    && uid in s.reg.sessions && s.reg.sessions[uid].state.Active?
    && c < |s.tasks| && s.tasks[c].identity == Some((uid, s.reg.sessions[uid].generation))
  }

  lemma CloseKeepsRecords(s: System, c: nat)
    requires Inv(s) && c < |s.tasks| && s.tasks[c].phase.Drained?
    ensures RecordsOk(OnClose(s, c))
  {
    var t := OnClose(s, c);
    assert Later(s, t);
    forall uid | uid in t.reg.sessions ensures RecordOk(t, uid, t.reg.sessions[uid]) {
      if HoldsActive(s, c, uid) { ClosedRecordOk(s, c, uid); } else { UnheldRecordOk(s, c, uid); }
    }
  }

  lemma ClosedRecordOk(s: System, c: nat, uid: string)
    requires Inv(s) && c < |s.tasks| && s.tasks[c].phase.Drained? && HoldsActive(s, c, uid)
    ensures var t := OnClose(s, c); uid in t.reg.sessions && RecordOk(t, uid, t.reg.sessions[uid])
  {
    var rec, t := s.reg.sessions[uid], OnClose(s, c);
    assert RecordOk(s, uid, rec);
    assert s.births[rec.generation - 1].connection == c by { assert TaskOk(s, c); }
    assert rec.connection == Some(c);
    assert t.reg == MarkedDisconnected(s.reg, uid, s.now);
    assert t.reg.sessions[uid] == DisconnectedRecord(rec, s.now);
    assert t.tasks[c].phase.Closed?;
  }

  lemma UnheldRecordOk(s: System, c: nat, uid: string)
    requires Inv(s) && c < |s.tasks| && s.tasks[c].phase.Drained? && uid in s.reg.sessions && !HoldsActive(s, c, uid)
    requires Later(s, OnClose(s, c))
    ensures var t := OnClose(s, c); uid in t.reg.sessions && RecordOk(t, uid, t.reg.sessions[uid])
  {
    assert RecordOk(s, uid, s.reg.sessions[uid]);
    assert OnClose(s, c).reg.sessions[uid] == s.reg.sessions[uid];
    RecordStays(s, OnClose(s, c), uid, s.reg.sessions[uid]);
  }

  lemma CloseKeepsCauses(s: System, c: nat)
    requires Inv(s) && c < |s.tasks| && s.tasks[c].phase.Drained?
    ensures DrainsCaused(OnClose(s, c))
  {
    var t := OnClose(s, c);
    CausesStay(s, t);
    if s.tasks[c].identity.Some? && HoldsActive(s, c, s.tasks[c].identity.value.0) {
      OwnCauses(s, t, c);
    }
  }

  lemma OwnCauses(s: System, t: System, c: nat)
    requires c < |s.tasks| && TaskOk(s, c) && s.tasks[c].identity.Some?
    requires var uid := s.tasks[c].identity.value.0; HoldsActive(s, c, uid) && RecordOk(s, uid, s.reg.sessions[uid])
    requires t.births == s.births && |t.tasks| == |s.tasks| && t.tasks[c].phase.Closed?
    ensures var rec := s.reg.sessions[s.tasks[c].identity.value.0];
      rec.connection == Some(c) && ConnectionCause(t, c) && DispatcherCause(t, rec.dispatcher)
  {
    var g := s.tasks[c].identity.value.1;
    assert t.births[g - 1].connection == c;
  }

  lemma CloseKeepsInv(s: System, c: nat)
    requires Inv(s) && c < |s.tasks| && s.tasks[c].phase.Drained?
    ensures Inv(OnClose(s, c))
  {
    var t := OnClose(s, c);
    TaskChangeKeeps(s, t, c, s.tasks[c].(phase := Closed));
    assert Later(s, t);
    SnapshotsStay(s, t);
    CloseKeepsRecords(s, c);
    CloseKeepsCauses(s, c);
  }

  /** Steps that leave births alone, change no task, and at most drop or relabel records. */
  lemma RecordChangesKeepInv(s: System, t: System)
    requires Inv(s) && Later(s, t)
    requires t.births == s.births && t.tasks == s.tasks && |t.shutdowns| == |s.shutdowns| && s.now <= t.now
    requires t.reg.generations == s.reg.generations && t.reg.dispatchers == s.reg.dispatchers
    requires t.reg.drainedConnections == s.reg.drainedConnections
        && t.reg.drainedDispatchers == s.reg.drainedDispatchers
    requires forall uid :: uid in t.reg.sessions ==>
        uid in s.reg.sessions && SameLife(s.reg.sessions[uid], t.reg.sessions[uid])
    ensures Inv(t)
  {
    CausesStay(s, t);
    SnapshotsStay(s, t);
    TasksStay(s, t);
    RecordsStay(s, t);
  }

  lemma TasksStay(s: System, t: System)
    requires OneToOne(s) && TasksKnowThemselves(s) && t.births == s.births && t.tasks == s.tasks
    requires t.reg.generations == s.reg.generations && t.reg.dispatchers == s.reg.dispatchers
    ensures OneToOne(t) && TasksKnowThemselves(t)
  {
    forall c | 0 <= c < |t.tasks| ensures TaskOk(t, c) { assert TaskOk(s, c); }
    forall i | 0 <= i < |t.births| ensures BirthOk(t, i) { assert BirthOk(s, i); }
  }

  lemma RecordsStay(s: System, t: System)
    requires RecordsOk(s) && Later(s, t) && t.tasks == s.tasks && t.births == s.births && s.now <= t.now
    requires s.reg.drainedConnections <= t.reg.drainedConnections
        && s.reg.drainedDispatchers <= t.reg.drainedDispatchers
    requires forall uid :: uid in t.reg.sessions ==>
        uid in s.reg.sessions && SameLife(s.reg.sessions[uid], t.reg.sessions[uid])
    ensures RecordsOk(t)
  {
    forall uid | uid in t.reg.sessions ensures RecordOk(t, uid, t.reg.sessions[uid]) {
      RecordStays(s, t, uid, s.reg.sessions[uid]);
    }
  }

  /** The same record as far as its life is concerned: only tools and activity may differ. */
  predicate SameLife(a: SessionRecord, b: SessionRecord) {
    && a.sessionId == b.sessionId && a.state == b.state && a.generation == b.generation && a.dispatcher == b.dispatcher
    && a.connection == b.connection && a.disconnectedAt == b.disconnectedAt
  }

  lemma TaskMovesKeepInv(s: System, t: System, c: nat, task: Task)
    requires Inv(s) && c < |s.tasks| && t == s.(reg := t.reg, tasks := s.tasks[c := task])
    requires task.identity == s.tasks[c].identity
    requires (s.tasks[c].phase.Reading? && task.phase.Ended? && t.reg == s.reg)
          || (s.tasks[c].phase.Ended? && task.phase.Drained? && t.reg == DrainConnection(s.reg, c))
    ensures Inv(t)
  {
    assert Later(s, t);
    TaskChangeKeeps(s, t, c, task);
    SnapshotsStay(s, t);
    CausesStay(s, t);
    assert task.phase.Drained? ==> ConnectionCause(t, c);
    MovedRecordsStay(s, t, c);
  }

  lemma MovedRecordsStay(s: System, t: System, c: nat)
    requires RecordsOk(s) && Later(s, t) && t.births == s.births && t.now == s.now && t.reg.sessions == s.reg.sessions
    requires c < |s.tasks| == |t.tasks| && !t.tasks[c].phase.Closed? && t.tasks[c].identity == s.tasks[c].identity
    requires forall d :: 0 <= d < |s.tasks| && d != c ==> t.tasks[d] == s.tasks[d]
    requires s.reg.drainedConnections <= t.reg.drainedConnections
        && s.reg.drainedDispatchers <= t.reg.drainedDispatchers
    ensures RecordsOk(t)
  {
    forall uid | uid in t.reg.sessions ensures RecordOk(t, uid, t.reg.sessions[uid]) {
      RecordStays(s, t, uid, s.reg.sessions[uid]);
    }
  }

  lemma AcceptKeepsInv(s: System)
    requires Inv(s)
    ensures Inv(s.(tasks := s.tasks + [Task(None, Reading)]))
  {
    var t := s.(tasks := s.tasks + [Task(None, Reading)]);
    CausesStay(s, t);
    SnapshotsStay(s, t);
    forall c | 0 <= c < |t.tasks| ensures TaskOk(t, c) { if c < |s.tasks| { assert TaskOk(s, c); } }
    forall i | 0 <= i < |t.births| ensures BirthOk(t, i) { assert BirthOk(s, i); }
    forall uid | uid in t.reg.sessions ensures RecordOk(t, uid, t.reg.sessions[uid]) {
      RecordStays(s, t, uid, s.reg.sessions[uid]);
    }
  }

  lemma NewSnapshotOk(s: System, sh: Shutdown)
    requires RecordOk(s, sh.uid, sh.snapshot)
    ensures SnapshotOk(s, sh)
  {
  }

  lemma BeginKeepsInv(s: System, t: System, sh: Shutdown)
    requires Inv(s) && t == s.(shutdowns := s.shutdowns + [sh]) && SnapshotOk(s, sh)
    ensures Inv(t)
  {
    CausesStay(s, t);
    forall k | 0 <= k < |t.shutdowns| ensures SnapshotOk(t, t.shutdowns[k]) {
      if k < |s.shutdowns| { assert SnapshotOk(s, s.shutdowns[k]); }
    }
    forall c | 0 <= c < |t.tasks| ensures TaskOk(t, c) { assert TaskOk(s, c); }
    forall i | 0 <= i < |t.births| ensures BirthOk(t, i) { assert BirthOk(s, i); }
    forall v | v in t.reg.sessions ensures RecordOk(t, v, t.reg.sessions[v]) {
      RecordStays(s, t, v, s.reg.sessions[v]);
    }
  }

  /** A shutdown drains handles of the generation it snapshotted. */
  lemma ShutdownDrainKeepsInv(s: System, t: System, k: nat)
    requires Inv(s) && Later(s, t) && k < |s.shutdowns| && |t.shutdowns| == |s.shutdowns|
        && !t.shutdowns[k].stage.Snapshotted?
    requires t.births == s.births && t.tasks == s.tasks && t.now == s.now && t.reg.sessions == s.reg.sessions
    requires t.reg.generations == s.reg.generations && t.reg.dispatchers == s.reg.dispatchers
    requires var snap := s.shutdowns[k].snapshot;
      && (t.reg.drainedConnections == s.reg.drainedConnections ||
          (snap.connection.Some? && t.reg.drainedConnections == s.reg.drainedConnections + {snap.connection.value}))
      && (t.reg.drainedDispatchers == s.reg.drainedDispatchers
          || t.reg.drainedDispatchers == s.reg.drainedDispatchers + {snap.dispatcher})
    ensures Inv(t)
  {
    CausesStay(s, t);
    SnapshotsStay(s, t);
    TasksStay(s, t);
    RecordsStay(s, t);
    SnapshotCauses(s, t, k);
  }

  /** What a draining shutdown snapshotted has a cause. */
  lemma SnapshotCauses(s: System, t: System, k: nat)
    requires SnapshotsOk(s) && TasksKnowThemselves(s) && k < |s.shutdowns| == |t.shutdowns|
        && !t.shutdowns[k].stage.Snapshotted?
    requires t.shutdowns[k].snapshot == s.shutdowns[k].snapshot && t.births == s.births && t.tasks == s.tasks
    ensures DispatcherCause(t, s.shutdowns[k].snapshot.dispatcher)
    ensures s.shutdowns[k].snapshot.connection.Some? ==> ConnectionCause(t, s.shutdowns[k].snapshot.connection.value)
  {
    var snap := s.shutdowns[k].snapshot;
    assert SnapshotOk(s, s.shutdowns[k]);
    assert Touched(t, snap.generation);
    assert BirthOk(s, snap.generation - 1);
    assert t.births[snap.generation - 1].dispatcher == snap.dispatcher;
    if snap.connection.Some? {
      assert t.births[snap.generation - 1].connection == snap.connection.value;
    }
  }

  lemma QuietStepKeepsInv(s: System, step: Step)
    requires Inv(s) && (step.Tick? || step.ToolsChanged? || step.Sweep? || step.BumpCall?)
    ensures Inv(Next(s, step))
  {
    RecordChangesKeepInv(s, Next(s, step));
  }

  lemma TaskStepKeepsInv(s: System, step: Step)
    requires Inv(s) && (step.LeaveLoop? || step.DrainOwn? || step.CloseTask? || step.Bye?)
    ensures Inv(Next(s, step))
  {
    var c := step.c;
    if c < |s.tasks| {
      match step {
        case LeaveLoop(_) => if s.tasks[c].phase.Reading? {
          TaskMovesKeepInv(s, Next(s, step), c, s.tasks[c].(phase := Ended));
        }
        case DrainOwn(_) => if s.tasks[c].phase.Ended? {
          TaskMovesKeepInv(s, Next(s, step), c, s.tasks[c].(phase := Drained));
        }
        case CloseTask(_) => if s.tasks[c].phase.Drained? { CloseKeepsInv(s, c); }
        case Bye(_) => if s.tasks[c].phase.Reading? { ByeKeepsInv(s, c); }
      }
    }
  }

  lemma ShutdownStepKeepsInv(s: System, step: Step)
    requires Inv(s) && (step.DrainFirst? || step.DrainSecond? || step.RemoveShut?)
    ensures Inv(Next(s, step))
  {
    var k := step.k;
    if k < |s.shutdowns| {
      match step {
        case DrainFirst(_) => if s.shutdowns[k].stage.Snapshotted? { ShutdownDrainKeepsInv(s, Next(s, step), k); }
        case DrainSecond(_) => if s.shutdowns[k].stage.HalfDrained? { ShutdownDrainKeepsInv(s, Next(s, step), k); }
        case RemoveShut(_) => if s.shutdowns[k].stage.FullyDrained? { RemoveShutKeepsInv(s, k); }
      }
    }
  }

  lemma RemoveShutKeepsInv(s: System, k: nat)
    requires Inv(s) && k < |s.shutdowns|
    ensures Inv(OnRemoveShut(s, k))
  {
    RecordChangesKeepInv(s, OnRemoveShut(s, k));
  }

  lemma StepKeepsInv(s: System, step: Step)
    requires Inv(s)
    ensures Inv(Next(s, step))
  {
    match step {
      case Accept => AcceptKeepsInv(s);
      case Register(c, p) => if CanRegister(s, c, p) { RegisterKeepsInv(s, c, p); }
      case BeginShutdown(uid) =>
        if uid in s.reg.sessions {
          NewSnapshotOk(s, Shutdown(uid, s.reg.sessions[uid], Snapshotted));
          BeginKeepsInv(s, OnBegin(s, uid), Shutdown(uid, s.reg.sessions[uid], Snapshotted));
        }
      case LeaveLoop(_) => TaskStepKeepsInv(s, step);
      case DrainOwn(_) => TaskStepKeepsInv(s, step);
      case CloseTask(_) => TaskStepKeepsInv(s, step);
      case Bye(_) => TaskStepKeepsInv(s, step);
      case DrainFirst(_) => ShutdownStepKeepsInv(s, step);
      case DrainSecond(_) => ShutdownStepKeepsInv(s, step);
      case RemoveShut(_) => ShutdownStepKeepsInv(s, step);
      case _ => QuietStepKeepsInv(s, step);
    }
  }

  /** The invariant holds in every reachable state. */
  lemma {:induction false} RunKeepsInv(steps: seq<Step>)
    ensures Inv(Run(INITIAL_SYSTEM, steps))
  {
    if steps != [] {
      RunKeepsInv(steps[..|steps| - 1]);
      StepKeepsInv(Run(INITIAL_SYSTEM, steps[..|steps| - 1]), steps[|steps| - 1]);
    }
  }
}
