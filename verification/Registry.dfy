/** The registry of sessions: records, and the operations that change them. */
module Registry {
  import opened Basics
  import opened Json

  datatype Visibility = Public | Internal

  datatype ToolDescriptor = ToolDescriptor(name: string, description: Option<string>, inputSchema: Json,
      visibility: Visibility)

  datatype SessionState = Active | Disconnected

  /** Handles are shared objects in the program; here they are names, and the registry knows which are drained. */
  type ConnectionId = nat
  type DispatcherId = nat

  datatype SessionRecord = SessionRecord(
    sessionId: string, kind: string, configId: string, version: string, infobaseName: string, ibSessionNumber: nat,
    clusterServer: Option<string>, databaseKey: Option<string>, tools: seq<ToolDescriptor>, state: SessionState,
    hostId: string, pid: Option<nat>, registeredAt: nat, lastCallAt: nat, disconnectedAt: Option<nat>,
    generation: nat, connection: Option<ConnectionId>, dispatcher: DispatcherId)

  datatype RegisterParams = RegisterParams(
    clientUid: string, kind: string, version: string, infobaseName: string, ibSessionNumber: nat,
    tools: seq<ToolDescriptor>, configId: Option<string>, hostId: Option<string>, pid: Option<nat>,
    clusterServer: Option<string>, databaseKey: Option<string>)

  datatype RegisterOutcome = Created | Reconnected

  /** The registry as a value, with the handles it has drained. */
  datatype Reg = Reg(
    sessions: map<string, SessionRecord>, generations: nat, dispatchers: nat, epoch: nat,
    drainedConnections: set<ConnectionId>, drainedDispatchers: set<DispatcherId>)

  const EMPTY_REG := Reg(map[], 0, 0, 0, {}, {})

  function ConfigIdOf(p: RegisterParams): string {
    if p.configId.Some? then p.configId.value else p.kind
  }

  function FreshRecord(p: RegisterParams, now: nat, connection: Option<ConnectionId>, generation: nat,
      dispatcher: DispatcherId): SessionRecord {
    SessionRecord(p.clientUid, p.kind, ConfigIdOf(p), p.version, p.infobaseName, p.ibSessionNumber, p.clusterServer,
        p.databaseKey,
                  p.tools, Active, if p.hostId.Some? then p.hostId.value else "unknown", p.pid, now, now, None,
                  generation, connection, dispatcher)
  }

  function ReconnectedRecord(rec: SessionRecord, p: RegisterParams, connection: Option<ConnectionId>, generation: nat,
      dispatcher: DispatcherId): SessionRecord {
    rec.(state := Active, disconnectedAt := None, tools := p.tools, version := p.version, kind := p.kind,
        configId := ConfigIdOf(p),
         infobaseName := p.infobaseName, ibSessionNumber := p.ibSessionNumber, clusterServer := p.clusterServer,
         databaseKey := p.databaseKey, connection := connection, generation := generation,
         hostId := if p.hostId.Some? then p.hostId.value else rec.hostId,
         pid := if p.pid.Some? then p.pid else rec.pid, dispatcher := dispatcher)
  }

  predicate Collides(r: Reg, p: RegisterParams) {
    p.clientUid in r.sessions && r.sessions[p.clientUid].state.Active?
  }

  /** `register_with_generation` when the uid is free or disconnected. */
  function Registered(r: Reg, p: RegisterParams, now: nat, connection: Option<ConnectionId>): Reg
    requires !Collides(r, p)
  {
    var rec := if p.clientUid in r.sessions then ReconnectedRecord(r.sessions[p.clientUid], p, connection,
        r.generations + 1, r.dispatchers)
               else FreshRecord(p, now, connection, r.generations + 1, r.dispatchers);
    r.(sessions := r.sessions[p.clientUid := rec], generations := r.generations + 1, dispatchers := r.dispatchers + 1,
        epoch := r.epoch + 1)
  }

  /** Active and of the expected generation. */
  predicate Holds(r: Reg, uid: string, generation: nat) {
    uid in r.sessions && r.sessions[uid].generation == generation
  }

  function DisconnectedRecord(rec: SessionRecord, now: nat): SessionRecord {
    rec.(state := Disconnected, disconnectedAt := Some(now), connection := None)
  }

  function MarkedDisconnected(r: Reg, uid: string, now: nat): Reg
    requires uid in r.sessions
  {
    var rec := r.sessions[uid];
    r.(sessions := r.sessions[uid := DisconnectedRecord(rec, now)], epoch := r.epoch + 1,
       drainedConnections := r.drainedConnections + (if rec.connection.Some? then {rec.connection.value} else {}),
       drainedDispatchers := r.drainedDispatchers + {rec.dispatcher})
  }

  /** `mark_disconnected_if_generation`. */
  function DisconnectedIfGeneration(r: Reg, uid: string, generation: nat, now: nat): Reg {
    if Holds(r, uid, generation) && r.sessions[uid].state.Active? then MarkedDisconnected(r, uid, now) else r
  }

  /** `remove_if_generation`. */
  function RemovedIfGeneration(r: Reg, uid: string, generation: nat): Reg {
    if Holds(r, uid, generation) then r.(sessions := r.sessions - {uid}, epoch := r.epoch + 1) else r
  }

  /** `update_tools`: by session id only. */
  function ToolsUpdated(r: Reg, uid: string, tools: seq<ToolDescriptor>): Reg {
    if uid in r.sessions && r.sessions[uid].tools != tools
    then r.(sessions := r.sessions[uid := r.sessions[uid].(tools := tools)], epoch := r.epoch + 1)
    else r
  }

  function CallBumped(r: Reg, uid: string, now: nat): Reg {
    if uid in r.sessions then r.(sessions := r.sessions[uid := r.sessions[uid].(lastCallAt := now)]) else r
  }

  predicate Expired(rec: SessionRecord, now: nat, grace: nat) {
    rec.state.Disconnected? && rec.disconnectedAt.Some? && now >= rec.disconnectedAt.value + grace
  }

  function ExpiredIds(r: Reg, now: nat, grace: nat): set<string> {
    set uid | uid in r.sessions && Expired(r.sessions[uid], now, grace)
  }

  /** `sweep_expired_disconnects`. */
  function Swept(r: Reg, now: nat, grace: nat): Reg {
    var gone := ExpiredIds(r, now, grace);
    if gone == {} then r else r.(sessions := r.sessions - gone, epoch := r.epoch + 1)
  }

  function DrainConnection(r: Reg, c: ConnectionId): Reg {
    r.(drainedConnections := r.drainedConnections + {c})
  }

  function DrainDispatcher(r: Reg, d: DispatcherId): Reg {
    r.(drainedDispatchers := r.drainedDispatchers + {d})
  }

  /** The shape every registry keeps. */
  predicate WellShaped(r: Reg) {
    forall uid :: uid in r.sessions ==>
      var rec := r.sessions[uid];
      && rec.sessionId == uid
      && 1 <= rec.generation <= r.generations && rec.dispatcher < r.dispatchers
      && (rec.state.Active? <==> rec.disconnectedAt.None?)
      && (rec.state.Disconnected? ==> rec.connection.None? && rec.dispatcher in r.drainedDispatchers)
  }

  predicate DistinctGenerations(r: Reg) {
    forall u, v :: u in r.sessions && v in r.sessions && u != v ==>
      r.sessions[u].generation != r.sessions[v].generation && r.sessions[u].dispatcher != r.sessions[v].dispatcher
  }

  /** Only dispatchers that exist have been drained. */
  predicate DrainedExist(r: Reg) {
    forall d :: d in r.drainedDispatchers ==> d < r.dispatchers
  }

  predicate Sound(r: Reg) {
    WellShaped(r) && DistinctGenerations(r) && DrainedExist(r)
  }

  lemma RegisteredSound(r: Reg, p: RegisterParams, now: nat, connection: Option<ConnectionId>)
    requires Sound(r) && !Collides(r, p)
    ensures var t := Registered(r, p, now, connection);
      Sound(t) && p.clientUid in t.sessions && t.sessions[p.clientUid].dispatcher !in t.drainedDispatchers
  {
    var t := Registered(r, p, now, connection);
    forall uid | uid in t.sessions
      ensures t.sessions[uid].sessionId == uid
      ensures uid != p.clientUid ==> uid in r.sessions && t.sessions[uid] == r.sessions[uid]
    {
    }
  }

  lemma DisconnectedSound(r: Reg, uid: string, now: nat)
    requires Sound(r) && uid in r.sessions
    ensures Sound(MarkedDisconnected(r, uid, now))
  {
    var t := MarkedDisconnected(r, uid, now);
    forall v | v in t.sessions ensures v in r.sessions && (v != uid ==> t.sessions[v] == r.sessions[v]) {}
  }

  lemma FewerSessionsSound(r: Reg, t: Reg, gone: set<string>)
    requires Sound(r) && t == r.(sessions := r.sessions - gone, epoch := t.epoch)
    ensures Sound(t)
  {
    forall v | v in t.sessions ensures v in r.sessions && t.sessions[v] == r.sessions[v] {}
  }

  class SessionRegistry {
    var sessions: map<string, SessionRecord>
    var generations: nat
    var dispatchers: nat
    var toolsEpoch: nat
    var drainedConnections: set<ConnectionId>
    var drainedDispatchers: set<DispatcherId>

    ghost function View(): Reg
      reads this
    {
      Reg(sessions, generations, dispatchers, toolsEpoch, drainedConnections, drainedDispatchers)
    }

    ghost predicate Valid()
      reads this
    {
      Sound(View())
    }

    constructor ()
      ensures Valid() && View() == EMPTY_REG
    {
      sessions, generations, dispatchers, toolsEpoch, drainedConnections, drainedDispatchers := map[], 0, 0, 0, {}, {};
    }

    method MarkToolsChanged()
      modifies this`toolsEpoch
      ensures toolsEpoch == old(toolsEpoch) + 1
    {
      toolsEpoch := toolsEpoch + 1;
    }

    /** A collision changes nothing; a reconnect keeps the id and the first registration time, gets a
        higher generation than any before, and a dispatcher that was never drained. */
    method RegisterWithGeneration(p: RegisterParams, now: nat, connection: Option<ConnectionId>)
      returns (r: Result<(RegisterOutcome, nat), string>)
      requires Valid()
      modifies this
      ensures Valid()
      ensures r.Err? <==> Collides(old(View()), p)
      ensures r.Err? ==> View() == old(View()) && r.error == p.clientUid
      ensures r.Ok? ==> View() == Registered(old(View()), p, now, connection)
      ensures r.Ok? ==> r.value.1 == generations > old(generations)
      ensures r.Ok? ==> (r.value.0 == Reconnected <==> p.clientUid in old(sessions))
      ensures r.Ok? && r.value.0 == Reconnected ==>
        sessions[p.clientUid].registeredAt == old(sessions)[p.clientUid].registeredAt
            && old(sessions)[p.clientUid].state.Disconnected?
      ensures r.Ok? ==> sessions[p.clientUid].dispatcher !in drainedDispatchers
    {
      if p.clientUid in sessions && sessions[p.clientUid].state.Active? { return Err(p.clientUid); }
      RegisteredSound(View(), p, now, connection);
      var d := dispatchers;
      generations, dispatchers := generations + 1, d + 1;
      var outcome, rec;
      if p.clientUid in sessions {
        outcome, rec := Reconnected, ReconnectedRecord(sessions[p.clientUid], p, connection, generations, d);
      } else {
        outcome, rec := Created, FreshRecord(p, now, connection, generations, d);
      }
      sessions := sessions[p.clientUid := rec];
      MarkToolsChanged();
      assert View() == Registered(old(View()), p, now, connection);
      return Ok((outcome, generations));
    }

    method MarkDisconnectedIfGeneration(uid: string, expected: nat, now: nat) returns (changed: bool)
      requires Valid()
      modifies this
      ensures Valid()
      ensures changed <==> Holds(old(View()), uid, expected) && old(sessions)[uid].state.Active?
      ensures View() == DisconnectedIfGeneration(old(View()), uid, expected, now)
    {
      if uid !in sessions || sessions[uid].generation != expected || !sessions[uid].state.Active? { return false; }
      DisconnectedSound(View(), uid, now);
      ghost var after := MarkedDisconnected(View(), uid, now);
      var rec := sessions[uid];
      sessions := sessions[uid := DisconnectedRecord(rec, now)];
      if rec.connection.Some? { drainedConnections := drainedConnections + {rec.connection.value}; }
      drainedDispatchers := drainedDispatchers + {rec.dispatcher};
      MarkToolsChanged();
      assert drainedConnections == after.drainedConnections;
      assert View() == after;
      return true;
    }

    method RemoveIfGeneration(uid: string, expected: nat) returns (removed: Option<SessionRecord>)
      requires Valid()
      modifies this
      ensures Valid()
      ensures removed == if Holds(old(View()), uid, expected) then Some(old(sessions)[uid]) else None
      ensures View() == RemovedIfGeneration(old(View()), uid, expected)
    {
      if uid !in sessions || sessions[uid].generation != expected { return None; }
      removed := Some(sessions[uid]);
      sessions := sessions - {uid};
      MarkToolsChanged();
      FewerSessionsSound(old(View()), View(), {uid});
    }

    method UpdateTools(uid: string, tools: seq<ToolDescriptor>) returns (found: bool)
      requires Valid()
      modifies this
      ensures Valid()
      ensures found <==> uid in old(sessions)
      ensures View() == ToolsUpdated(old(View()), uid, tools)
    {
      if uid !in sessions { return false; }
      if sessions[uid].tools != tools {
        sessions := sessions[uid := sessions[uid].(tools := tools)];
        MarkToolsChanged();
      }
      return true;
    }

    method BumpLastCall(uid: string, now: nat) returns (found: bool)
      requires Valid()
      modifies this
      ensures Valid()
      ensures found <==> uid in old(sessions)
      ensures View() == CallBumped(old(View()), uid, now)
    {
      if uid !in sessions { return false; }
      sessions := sessions[uid := sessions[uid].(lastCallAt := now)];
      return true;
    }

    /** Collects the expired ids in map order, then removes them one by one. */
    method SweepExpiredDisconnects(now: nat, grace: nat) returns (expired: seq<string>)
      requires Valid()
      modifies this
      ensures Valid()
      ensures forall uid :: uid in expired <==> uid in ExpiredIds(old(View()), now, grace)
      ensures View() == Swept(old(View()), now, grace)
    {
      expired := CollectExpired(now, grace);
      var i := 0;
      while i < |expired|
        invariant 0 <= i <= |expired|
        invariant View() == old(View()).(sessions := old(sessions) - Elements(expired[..i]))
      {
        assert expired[..i + 1] == expired[..i] + [expired[i]];
        sessions := sessions - {expired[i]};
        i := i + 1;
      }
      assert expired[..i] == expired;
      assert Elements(expired) == ExpiredIds(old(View()), now, grace);
      if expired != [] {
        assert expired[0] in Elements(expired);
        MarkToolsChanged();
      }
      FewerSessionsSound(old(View()), View(), Elements(expired));
    }

    /** The ids to remove, in the map's own order. */
    method CollectExpired(now: nat, grace: nat) returns (expired: seq<string>)
      ensures forall uid :: uid in expired <==> uid in ExpiredIds(View(), now, grace)
    {
      expired := [];
      var rest := sessions.Keys;
      while rest != {}
        invariant rest <= sessions.Keys
        invariant forall uid :: uid in expired <==> uid in sessions.Keys - rest && Expired(sessions[uid], now, grace)
        decreases |rest|
      {
        var uid :| uid in rest;
        rest := rest - {uid};
        if Expired(sessions[uid], now, grace) { expired := expired + [uid]; }
      }
    }
  }
}
