/** Admission of HTTP sessions: reservations, active sessions, and the limit over every run. */
module Admission {
  import opened Basics

  /** The state behind the admission mutex. */
  datatype Admission = Admission(reserved: nat, active: set<string>)

  function Saturated(n: nat): nat {
    if n == 0 then 0 else n - 1
  }

  function Pruned(a: Admission, live: set<string>): Admission {
    a.(active := a.active * live)
  }

  predicate Full(a: Admission, max: nat) {
    |a.active| + a.reserved >= max
  }

  /** `reserve_initialize`: prunes in any case, counts one more when there is room. */
  function AfterReserve(a: Admission, max: nat, live: set<string>): Admission {
    var p := Pruned(a, live);
    if Full(p, max) then p else p.(reserved := p.reserved + 1)
  }

  function Confirmed(a: Admission, id: string): Admission {
    Admission(Saturated(a.reserved), a.active + {id})
  }

  function Released(a: Admission): Admission {
    a.(reserved := Saturated(a.reserved))
  }

  function Removed(a: Admission, id: string): Admission {
    a.(active := a.active - {id})
  }

  class HttpSessionAdmission {
    const maxSessions: nat
    var reserved: nat
    var activeSessions: set<string>

    ghost function View(): Admission
      reads this
    {
      Admission(reserved, activeSessions)
    }

    constructor (max: nat)
      ensures maxSessions >= 1 && maxSessions >= max && (max >= 1 ==> maxSessions == max)
      ensures View() == Admission(0, {})
    {
      maxSessions := if max < 1 then 1 else max;
      reserved, activeSessions := 0, {};
    }

    method ReserveInitialize(live: set<string>) returns (r: Option<HttpSessionReservation>)
      modifies this
      ensures View() == AfterReserve(old(View()), maxSessions, live)
      ensures r.Some? <==> !Full(Pruned(old(View()), live), maxSessions)
      ensures r.Some? ==> fresh(r.value) && r.value.admission == this && !r.value.completed
    {
      activeSessions := activeSessions * live;
      if |activeSessions| + reserved >= maxSessions { return None; }
      reserved := reserved + 1;
      var made := new HttpSessionReservation(this);
      return Some(made);
    }

    method Confirm(id: string)
      modifies this
      ensures View() == Confirmed(old(View()), id)
    {
      reserved := Saturated(reserved);
      activeSessions := activeSessions + {id};
    }

    method Release()
      modifies this
      ensures View() == Released(old(View()))
    {
      reserved := Saturated(reserved);
    }

    method Remove(id: string)
      modifies this
      ensures View() == Removed(old(View()), id)
    {
      activeSessions := activeSessions - {id};
    }
  }

  class HttpSessionReservation {
    const admission: HttpSessionAdmission
    var completed: bool

    constructor (admission: HttpSessionAdmission)
      ensures this.admission == admission && !completed
    {
      this.admission, completed := admission, false;
    }

    method Confirm(id: string)
      modifies this, admission
      ensures completed && admission.View() == Confirmed(old(admission.View()), id)
    {
      admission.Confirm(id);
      completed := true;
    }

    method Release()
      modifies this, admission
      ensures completed && admission.View() == Released(old(admission.View()))
    {
      admission.Release();
      completed := true;
    }

    /** Dropping gives back what was not settled; after a settlement it does nothing. */
    method Drop()
      modifies this, admission
      ensures completed
      ensures admission.View() == if old(completed) then old(admission.View()) else Released(old(admission.View()))
    {
      if !completed {
        admission.Release();
        completed := true;
      }
    }

    /** The end of one initialize request: confirmed with the id the response carries, released otherwise, then
        dropped. */
    method Settle(id: Option<string>)
      requires !completed
      modifies this, admission
      ensures completed
      ensures admission.View() == if id.Some? then Confirmed(old(admission.View()), id.value)
          else Released(old(admission.View()))
    {
      if id.Some? { Confirm(id.value); } else { Release(); }
      Drop();
    }
  }

  // ---- Every run ----------------------------------------------------------------------------------

  /** The open reservations, with the session each has made so far; the settled ones in order; the live sessions; the
      ids ever used; and the sessions whose reservation was given back. */
  datatype State = State(
    admission: Admission, open: map<nat, Option<string>>, settled: seq<nat>, next: nat,
    live: set<string>, used: set<string>, orphans: set<string>)

  const START := State(Admission(0, {}), map[], [], 0, {}, {}, {})

  datatype Step =
    | Reserve
    | Make(reservation: nat, id: string)
    | Confirm(reservation: nat)
    | GiveBack(reservation: nat)
    | Close(id: string)
    | Delete(id: string)

  /** A session id is new when made; a request confirms the session it made; a delete was accepted, so the session is
      gone. */
  predicate Enabled(s: State, step: Step) {
    match step
    case Reserve => true
    case Make(k, id) => k in s.open && s.open[k].None? && id !in s.used
    case Confirm(k) => k in s.open && s.open[k].Some?
    case GiveBack(k) => k in s.open
    case Close(id) => true
    case Delete(id) => id !in s.live
  }

  function Reserving(s: State, max: nat): State {
    var t := s.(admission := AfterReserve(s.admission, max, s.live));
    if Full(Pruned(s.admission, s.live), max) then t else t.(open := s.open[s.next := None], next := s.next + 1)
  }

  function Next(s: State, max: nat, step: Step): State
    requires Enabled(s, step)
  {
    match step
    case Reserve => Reserving(s, max)
    case Make(k, id) => s.(open := s.open[k := Some(id)], live := s.live + {id}, used := s.used + {id})
    case Confirm(k) => s.(admission := Confirmed(s.admission, s.open[k].value), open := s.open - {k},
        settled := s.settled + [k])
    case GiveBack(k) =>
      s.(admission := Released(s.admission), open := s.open - {k}, settled := s.settled + [k],
         orphans := s.orphans + (if s.open[k].Some? then {s.open[k].value} else {}))
    case Close(id) => s.(live := s.live - {id})
    case Delete(id) => s.(admission := Removed(s.admission, id))
  }

  /** A run from the start; a step that is not enabled does not happen. */
  function Run(max: nat, steps: seq<Step>): State {
    if steps == [] then START
    else
      var s, step := Run(max, steps[..|steps| - 1]), steps[|steps| - 1];
      if Enabled(s, step) then Next(s, max, step) else s
  }

  /** The sessions made under reservations that are still open. */
  function Made(open: map<nat, Option<string>>): set<string> {
    set k | k in open && open[k].Some? :: open[k].value
  }

  /** Reservations are numbered, and each is open or was settled once. */
  predicate Numbered(s: State) {
    && (forall k :: k in s.open ==> k < s.next && k !in s.settled)
    && (forall i :: 0 <= i < |s.settled| ==> s.settled[i] < s.next)
    && Distinct(s.settled)
    && (forall k :: 0 <= k < s.next ==> k in s.open || k in s.settled)
  }

  predicate Counted(s: State, max: nat) {
    s.admission.reserved == |s.open| && |s.admission.active| + s.admission.reserved <= max
  }

  /** Every live session is active, still being made, or an orphan. */
  predicate Tracked(s: State) {
    s.live <= s.admission.active + Made(s.open) + s.orphans
  }

  predicate Inv(s: State, max: nat) {
    Numbered(s) && Counted(s, max) && Tracked(s)
  }

  lemma OpenShrinks(open: map<nat, Option<string>>, k: nat)
    requires k in open
    ensures |open - {k}| == |open| - 1
    ensures Made(open) <= Made(open - {k}) + (if open[k].Some? then {open[k].value} else {})
  {
    var rest := open - {k};
    assert open.Keys == rest.Keys + {k};
    forall id | id in Made(open) ensures id in Made(rest) + (if open[k].Some? then {open[k].value} else {}) {
      var j :| j in open && open[j].Some? && open[j].value == id;
      if j != k { assert rest[j] == open[j]; }
    }
  }

  lemma OpenGrows(open: map<nat, Option<string>>, k: nat)
    requires k !in open
    ensures |open[k := None]| == |open| + 1 && Made(open) <= Made(open[k := None])
  {
    var more := open[k := None];
    assert more.Keys == open.Keys + {k};
    forall id | id in Made(open) ensures id in Made(more) {
      var j :| j in open && open[j].Some? && open[j].value == id;
      assert more[j] == open[j];
    }
  }

  lemma OpenMade(open: map<nat, Option<string>>, k: nat, id: string)
    requires k in open && open[k].None?
    ensures |open[k := Some(id)]| == |open| && Made(open) + {id} <= Made(open[k := Some(id)])
  {
    var more := open[k := Some(id)];
    assert more.Keys == open.Keys;
    assert more[k] == Some(id);
    forall x | x in Made(open) ensures x in Made(more) {
      var j :| j in open && open[j].Some? && open[j].value == x;
      assert more[j] == open[j];
    }
  }

  lemma SettledNumbered(s: State, t: State, k: nat)
    requires Numbered(s) && k in s.open && t.open == s.open - {k} && t.settled == s.settled + [k] && t.next == s.next
    ensures Numbered(t)
  {
    forall n | 0 <= n < t.next ensures n in t.open || n in t.settled {
      if n == k { assert t.settled[|s.settled|] == k; }
    }
  }

  lemma SetGrows(a: set<string>, id: string)
    ensures |a| <= |a + {id}| <= |a| + 1
  {
    if id in a { assert a + {id} == a; }
  }

  lemma PruneKeeps(s: State, t: State, max: nat)
    requires Inv(s, max) && t == s.(admission := Pruned(s.admission, s.live))
    ensures Inv(t, max)
  {
    SubsetSize(t.admission.active, s.admission.active);
  }

  lemma TakeKeeps(s: State, t: State, max: nat)
    requires Inv(s, max) && !Full(s.admission, max)
    requires t == s.(admission := t.admission, open := s.open[s.next := None], next := s.next + 1)
    requires t.admission == s.admission.(reserved := s.admission.reserved + 1)
    ensures Inv(t, max)
  {
    assert s.next !in s.open;
    OpenGrows(s.open, s.next);
    TakeNumbered(s, t);
  }

  lemma TakeNumbered(s: State, t: State)
    requires Numbered(s) && t.open == s.open[s.next := None] && t.next == s.next + 1 && t.settled == s.settled
    ensures Numbered(t)
  {
    assert s.next !in s.settled;
  }

  lemma ReserveKeeps(s: State, max: nat)
    requires Inv(s, max)
    ensures Inv(Reserving(s, max), max)
  {
    var p := s.(admission := Pruned(s.admission, s.live));
    PruneKeeps(s, p, max);
    if !Full(p.admission, max) { TakeKeeps(p, Reserving(s, max), max); }
  }

  lemma MakeKeeps(s: State, t: State, max: nat, k: nat, id: string)
    requires Inv(s, max) && k in s.open && s.open[k].None?
    requires t == s.(open := s.open[k := Some(id)], live := s.live + {id}, used := t.used)
    ensures Inv(t, max)
  {
    OpenMade(s.open, k, id);
  }

  lemma ConfirmKeeps(s: State, t: State, max: nat, k: nat, id: string)
    requires Inv(s, max) && k in s.open && s.open[k] == Some(id)
    requires t == s.(admission := Confirmed(s.admission, id), open := s.open - {k}, settled := s.settled + [k])
    ensures Inv(t, max)
  {
    OpenShrinks(s.open, k);
    SettledNumbered(s, t, k);
    SetGrows(s.admission.active, id);
  }

  lemma GiveBackKeeps(s: State, t: State, max: nat, k: nat)
    requires Inv(s, max) && k in s.open
    requires t == s.(admission := Released(s.admission), open := s.open - {k}, settled := s.settled + [k],
                     orphans := s.orphans + (if s.open[k].Some? then {s.open[k].value} else {}))
    ensures Inv(t, max)
  {
    OpenShrinks(s.open, k);
    SettledNumbered(s, t, k);
  }

  lemma DeleteKeeps(s: State, t: State, max: nat, id: string)
    requires Inv(s, max) && id !in s.live && t == s.(admission := Removed(s.admission, id))
    ensures Inv(t, max)
  {
    SubsetSize(t.admission.active, s.admission.active);
  }

  lemma StepKeepsInv(s: State, max: nat, step: Step)
    requires Inv(s, max) && Enabled(s, step)
    ensures Inv(Next(s, max, step), max)
  {
    var t := Next(s, max, step);
    match step {
      case Reserve => ReserveKeeps(s, max);
      case Make(k, id) => MakeKeeps(s, t, max, k, id);
      case Confirm(k) => ConfirmKeeps(s, t, max, k, s.open[k].value);
      case GiveBack(k) => GiveBackKeeps(s, t, max, k);
      case Close(id) =>
      case Delete(id) => DeleteKeeps(s, t, max, id);
    }
  }

  lemma {:induction false} RunKeepsInv(max: nat, steps: seq<Step>)
    ensures Inv(Run(max, steps), max)
  {
    if steps != [] {
      var s, step := Run(max, steps[..|steps| - 1]), steps[|steps| - 1];
      RunKeepsInv(max, steps[..|steps| - 1]);
      if Enabled(s, step) { StepKeepsInv(s, max, step); }
    }
  }

  /** Capacity is conserved: in every run `reserved` is the number of unsettled reservations, active and reserved
      together stay within the limit, no reservation is settled twice or forgotten, and a settlement never meets a zero
      counter. */
  lemma CapacityConserved(max: nat, steps: seq<Step>)
    ensures var s := Run(max, steps);
            && s.admission.reserved == |s.open| && |s.admission.active| + s.admission.reserved <= max
            && Distinct(s.settled) && (forall k :: 0 <= k < s.next ==> (k in s.open <==> k !in s.settled))
            && (s.open != map[] ==> Saturated(s.admission.reserved) == s.admission.reserved - 1)
  {
    RunKeepsInv(max, steps);
    var s := Run(max, steps);
    if s.open != map[] { assert |s.open| > 0; }
  }

  lemma {:induction false} MadeAtMostOpen(open: map<nat, Option<string>>)
    ensures |Made(open)| <= |open|
    decreases |open|
  {
    if open.Keys != {} {
      var k :| k in open.Keys;
      OpenShrinks(open, k);
      MadeAtMostOpen(open - {k});
      if open[k].Some? {
        SetGrows(Made(open - {k}), open[k].value);
        SubsetSize(Made(open), Made(open - {k}) + {open[k].value});
      } else {
        SubsetSize(Made(open), Made(open - {k}));
      }
    } else {
      assert Made(open) == {};
    }
  }

  /** The live sessions stay within the limit, but for those whose request was given back after it had made its
      session. */
  lemma LiveWithinLimit(max: nat, steps: seq<Step>)
    ensures |Run(max, steps).live - Run(max, steps).orphans| <= max
  {
    RunKeepsInv(max, steps);
    var s := Run(max, steps);
    MadeAtMostOpen(s.open);
    var a, m := s.admission.active, Made(s.open);
    assert a + m == a + (m - a);
    SubsetSize(m - a, m);
    SubsetSize(s.live - s.orphans, a + m);
  }

  lemma RunSnoc(max: nat, steps: seq<Step>, step: Step)
    requires Enabled(Run(max, steps), step)
    ensures Run(max, steps + [step]) == Next(Run(max, steps), max, step)
  {
    assert (steps + [step])[..|steps|] == steps;
  }

  /** So they do whenever no session of a request that was given back is live. */
  lemma NoOrphansWithinLimit(max: nat, steps: seq<Step>)
    requires Run(max, steps).live !! Run(max, steps).orphans
    ensures |Run(max, steps).live| <= max
  {
    var s := Run(max, steps);
    LiveWithinLimit(max, steps);
    assert s.live - s.orphans == s.live;
  }

  /** Room is found exactly when there is some: over every run, a request gets a reservation if and only if the sessions
      that were confirmed and still live, and the requests under way, are fewer than the limit; and either way only live
      ones stay counted. */
  lemma ReservedIffRoom(max: nat, steps: seq<Step>)
    ensures var s := Run(max, steps);
      var t := Next(s, max, Reserve);
      && (t.open == s.open[s.next := None] && t.next == s.next + 1 <==> |s.admission.active * s.live| + |s.open| < max)
      && (t.open == s.open && t.next == s.next <==> |s.admission.active * s.live| + |s.open| >= max)
      && t.admission.active == s.admission.active * s.live && t.live == s.live
      && t.admission.reserved == |t.open|
  {
    var s := Run(max, steps);
    RunKeepsInv(max, steps);
    ReserveKeeps(s, max);
  }

  /** A confirmed session is counted until it is deleted or found dead, and a request that is given back is not counted
      at all. */
  lemma SettledIsCounted(max: nat, steps: seq<Step>, k: nat)
    requires k in Run(max, steps).open
    ensures var s := Run(max, steps);
      var back := Next(s, max, GiveBack(k));
      && s.admission.reserved >= 1
      && back.admission == Admission(s.admission.reserved - 1, s.admission.active) && back.open == s.open - {k}
      && (s.open[k].Some? ==>
            var done := Next(s, max, Confirm(k));
            && done.admission == Admission(s.admission.reserved - 1, s.admission.active + {s.open[k].value})
            && done.open == s.open - {k} && done.live == s.live)
      && forall id :: id !in s.live ==>
           Next(s, max, Delete(id)).admission == Admission(s.admission.reserved, s.admission.active - {id})
  {
    var s := Run(max, steps);
    RunKeepsInv(max, steps);
    OpenShrinks(s.open, k);
  }

  // ---- The bound is tight -------------------------------------------------------------------------------

  /** The name of the k-th session. */
  function Id(k: nat): (id: string)
    ensures |id| == k
  {
    seq(k, _ => 'a')
  }

  function Ids(n: nat): set<string> {
    if n == 0 then {} else Ids(n - 1) + {Id(n - 1)}
  }

  lemma {:induction false} IdsShort(n: nat)
    ensures forall id :: id in Ids(n) ==> |id| < n
  {
    if n > 0 { IdsShort(n - 1); }
  }

  lemma {:induction false} IdsCount(n: nat)
    ensures |Ids(n)| == n && Id(n) !in Ids(n)
  {
    IdsShort(n);
    if n > 0 { IdsCount(n - 1); }
  }

  lemma {:induction false} IdsGrow(m: nat, n: nat)
    requires m <= n
    ensures Ids(m) <= Ids(n)
  {
    if m < n { IdsGrow(m, n - 1); }
  }

  /** `n` requests that make their session and are given back. */
  function OrphanSteps(n: nat): seq<Step> {
    if n == 0 then [] else OrphanSteps(n - 1) + [Reserve] + [Make(n - 1, Id(n - 1))] + [GiveBack(n - 1)]
  }

  predicate OnlyOrphans(s: State, n: nat) {
    s.admission == Admission(0, {}) && s.open == map[] && s.next == n && s.live == s.used == s.orphans == Ids(n)
  }

  lemma {:induction false} OrphansAccumulate(max: nat, n: nat)
    requires max >= 1
    ensures OnlyOrphans(Run(max, OrphanSteps(n)), n)
  {
    if n > 0 {
      var before := OrphanSteps(n - 1);
      OrphansAccumulate(max, n - 1);
      IdsCount(n - 1);
      OneMoreOrphan(max, before, n - 1);
    } else {
      assert Ids(0) == {};
    }
  }

  lemma OneMoreOrphan(max: nat, before: seq<Step>, n: nat)
    requires max >= 1 && OnlyOrphans(Run(max, before), n) && Id(n) !in Ids(n)
    ensures OnlyOrphans(Run(max, before + [Reserve] + [Make(n, Id(n))] + [GiveBack(n)]), n + 1)
  {
    var s := Run(max, before);
    RunSnoc(max, before, Reserve);
    assert s.admission.active * s.live == {};
    var t := s.(admission := Admission(1, {}), open := map[n := None], next := n + 1);
    assert Run(max, before + [Reserve]) == t;
    RunSnoc(max, before + [Reserve], Make(n, Id(n)));
    RunSnoc(max, before + [Reserve] + [Make(n, Id(n))], GiveBack(n));
    MadeAndGivenBack(t, max, n);
  }

  lemma MadeAndGivenBack(t: State, max: nat, n: nat)
    requires t.admission == Admission(1, {}) && t.open == map[n := None] && t.next == n + 1
    requires t.live == t.used == t.orphans == Ids(n) && Id(n) !in Ids(n)
    ensures OnlyOrphans(Next(Next(t, max, Make(n, Id(n))), max, GiveBack(n)), n + 1)
  {
    assert map[n := Some(Id(n))] - {n} == map[];
  }

  /** Then `m` requests that have made theirs and are still under way. */
  function FillSteps(n: nat, m: nat): seq<Step> {
    if m == 0 then OrphanSteps(n) else FillSteps(n, m - 1) + [Reserve] + [Make(n + m - 1, Id(n + m - 1))]
  }

  predicate Filled(s: State, n: nat, m: nat) {
    && s.admission == Admission(m, {}) && |s.open| == m && s.next == n + m && (forall k :: k in s.open ==> k < n + m)
    && s.live == s.used == Ids(n + m) && s.orphans == Ids(n)
  }

  lemma EmptyIsFilled(s: State, n: nat)
    requires OnlyOrphans(s, n)
    ensures Filled(s, n, 0)
  {
  }

  lemma {:induction false} FillsUp(max: nat, n: nat, m: nat)
    requires 1 <= max && m <= max
    ensures Filled(Run(max, FillSteps(n, m)), n, m)
  {
    if m == 0 {
      OrphansAccumulate(max, n);
      EmptyIsFilled(Run(max, OrphanSteps(n)), n);
    } else {
      var l := m - 1;
      FillsUp(max, n, l);
      IdsCount(n + l);
      OneMore(max, FillSteps(n, l), n, l);
      assert FillSteps(n, m) == FillSteps(n, l) + [Reserve] + [Make(n + l, Id(n + l))];
    }
  }

  lemma OneMore(max: nat, before: seq<Step>, n: nat, m: nat)
    requires m < max && Filled(Run(max, before), n, m) && Id(n + m) !in Ids(n + m)
    ensures Filled(Run(max, before + [Reserve] + [Make(n + m, Id(n + m))]), n, m + 1)
  {
    RunSnoc(max, before, Reserve);
    RoomForOne(Run(max, before), max, n, m);
    RunSnoc(max, before + [Reserve], Make(n + m, Id(n + m)));
    OneMade(Run(max, before), Run(max, before + [Reserve]), max, n, m);
  }

  lemma OneMade(s: State, t: State, max: nat, n: nat, m: nat)
    requires Filled(s, n, m) && Id(n + m) !in Ids(n + m)
    requires t == s.(admission := Admission(m + 1, {}), open := s.open[n + m := None], next := n + m + 1)
    ensures Filled(Next(t, max, Make(n + m, Id(n + m))), n, m + 1)
  {
    OpenGrows(s.open, n + m);
    OpenMade(t.open, n + m, Id(n + m));
  }

  lemma RoomForOne(s: State, max: nat, n: nat, m: nat)
    requires m < max && Filled(s, n, m)
    ensures Reserving(s, max) == s.(admission := Admission(m + 1, {}), open := s.open[n + m := None], next := n + m + 1)
  {
  }

  /** The bound cannot be improved: for every limit and every number there is a run after which that many sessions of
      requests that were given back are live, and so many more than the limit are live in all. */
  lemma LimitIsTight(max: nat, n: nat)
    requires max >= 1
    ensures var s := Run(max, FillSteps(n, max));
      s.orphans <= s.live && |s.orphans| == n && |s.live| == max + n
  {
    FillsUp(max, n, max);
    IdsCount(n);
    IdsCount(n + max);
    IdsGrow(n, n + max);
  }
}
