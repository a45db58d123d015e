/** The catalog and its notifier as one machine, with a change and its mark as separate steps: no change of the list
    goes without a broadcast on its way. */
module Announcement {
  import opened Basics
  import opened Registry
  import opened Router
  import opened RouterLaws
  import opened RouterOrder
  import opened ToolsCache
  import opened Listing
  import Catalog
  import Notify

  /** The catalog; how many of its changes are not marked yet; the notifier, whose epoch is what `tools_epoch` reads;
      and the catalog as it was when the last broadcast began. */
  datatype State = State(catalog: Catalog.State, unmarked: nat, notifier: Notify.State, announced: Catalog.State)

  datatype Step =
    | Change(op: Catalog.Step)    // an operation of registry or cache writes; its marks are still to come
    | Mark                        // a mark raises the epoch
    | Signal                      // a mark that raised the epoch signals
    | Tick                        // the notifier's next move

  const START := State(Catalog.FRESH, 0, Notify.START, Catalog.FRESH)

  /** One life of the process: a restart is not a step. */
  function Changed(cfg: Catalog.Config, s: State, op: Catalog.Step): State
    requires !op.Restart?
  {
    var catalog := Catalog.Next(cfg, s.catalog, op);
    Catalog.StepAnnounced(cfg, s.catalog, op);
    s.(catalog := catalog, unmarked := s.unmarked + Catalog.Epoch(catalog) - Catalog.Epoch(s.catalog))
  }

  function Next(cfg: Catalog.Config, s: State, step: Step): State {
    match step
    case Change(op) => if op.Restart? then s else Changed(cfg, s, op)
    case Mark =>
      if s.unmarked > 0 then s.(unmarked := s.unmarked - 1, notifier := Notify.Next(s.notifier, Notify.Raise)) else s
    case Signal => if s.notifier.owed > 0 then s.(notifier := Notify.Next(s.notifier, Notify.Signal)) else s
    case Tick =>
      var n := Notify.Next(s.notifier, Notify.Tick);
      s.(notifier := n, announced := if s.notifier.phase.Debouncing? then s.catalog else s.announced)
  }

  function Run(cfg: Catalog.Config, s: State, steps: seq<Step>): State {
    if steps == [] then s else Next(cfg, Run(cfg, s, steps[..|steps| - 1]), steps[|steps| - 1])
  }

  /** Marks are neither lost nor invented, what a broadcast covered was there when it began, and a marked change is on
      its way. */
  ghost predicate Inv(s: State) {
    && s.notifier.epoch + s.unmarked == Catalog.Epoch(s.catalog)
    && s.notifier.covered <= Catalog.Epoch(s.announced)
    && Catalog.Announced(s.announced, s.catalog) && Notify.OnItsWay(s.notifier)
  }

  lemma AnnouncedTransitive(a: Catalog.State, b: Catalog.State, c: Catalog.State)
    requires Catalog.Announced(a, b) && Catalog.Announced(b, c)
    ensures Catalog.Announced(a, c)
  {
  }

  lemma StepKeepsInv(cfg: Catalog.Config, s: State, step: Step)
    requires Inv(s)
    ensures Inv(Next(cfg, s, step)) && Catalog.Announced(s.catalog, Next(cfg, s, step).catalog)
  {
    if step.Change? && !step.op.Restart? {
      Catalog.StepAnnounced(cfg, s.catalog, step.op);
      AnnouncedTransitive(s.announced, s.catalog, Catalog.Next(cfg, s.catalog, step.op));
    }
  }

  lemma {:induction false} RunKeepsInv(cfg: Catalog.Config, s: State, steps: seq<Step>)
    requires Inv(s)
    ensures Inv(Run(cfg, s, steps)) && Catalog.Announced(s.catalog, Run(cfg, s, steps).catalog)
  {
    if steps != [] {
      var t := Run(cfg, s, steps[..|steps| - 1]);
      RunKeepsInv(cfg, s, steps[..|steps| - 1]);
      StepKeepsInv(cfg, t, steps[|steps| - 1]);
      AnnouncedTransitive(s.catalog, t.catalog, Run(cfg, s, steps).catalog);
    }
  }

  /** What one read of the list saw of registry and cache, and the list it shows. */
  datatype Read = Read(snapshot: seq<SessionRecord>, entries: seq<CacheEntry>)

  ghost function ListOf(r: Read, hash: Digest, server: seq<Tool>): seq<Tool> {
    Shown(server, ViewOf(Publications(r.snapshot, hash), hash), r.entries)
  }

  /** A read of `a` and a read of `b` that show other tools. */
  ghost predicate ReadsDiffer(a: Catalog.State, first: Read, b: Catalog.State, second: Read, hash: Digest,
      server: seq<Tool>)
  {
    && SchemasWellFormed(a.reg)
    && Catalog.ReadSaw(a, first.snapshot, first.entries) && Catalog.ReadSaw(b, second.snapshot, second.entries)
    && !Catalog.SameList(ListOf(first, hash, server), ListOf(second, hash, server))
  }

  lemma OtherListNewEpoch(a: Catalog.State, first: Read, b: Catalog.State, second: Read, hash: Digest,
      server: seq<Tool>)
    requires Injective(hash) && Catalog.Announced(a, b) && ReadsDiffer(a, first, b, second, hash, server)
    ensures Catalog.Epoch(a) < Catalog.Epoch(b)
  {
    if Catalog.Epoch(a) == Catalog.Epoch(b) {
      Catalog.SameSidesSameList(a, b, hash, server, first.snapshot, first.entries, second.snapshot, second.entries);
    }
  }

  lemma MarksAccount(s: State, t: State)
    requires Inv(s) && Inv(t) && Catalog.Epoch(s.catalog) < Catalog.Epoch(t.catalog)
    ensures t.notifier.epoch > s.notifier.epoch || t.unmarked > s.unmarked
  {
  }

  /** Silent only before the mark: over any run from any reachable state, if a read shows other tools than an earlier
      one, then the epoch has gone up since, or more changes are between their write and their mark than were then. */
  lemma SilentOnlyUntilMarked(cfg: Catalog.Config, before: seq<Step>, between: seq<Step>, hash: Digest,
      server: seq<Tool>, first: Read, second: Read)
    requires Injective(hash)
    requires var s := Run(cfg, START, before);
      ReadsDiffer(s.catalog, first, Run(cfg, s, between).catalog, second, hash, server)
    ensures var s := Run(cfg, START, before);
      var t := Run(cfg, s, between);
      t.notifier.epoch > s.notifier.epoch || t.unmarked > s.unmarked
  {
    var s := Run(cfg, START, before);
    var t := Run(cfg, s, between);
    RunKeepsInv(cfg, START, before);
    RunKeepsInv(cfg, s, between);
    OtherListNewEpoch(s.catalog, first, t.catalog, second, hash, server);
    MarksAccount(s, t);
  }

  /** It is silent then: right after a registration wrote, before it marks, the view has the session and the epoch is
      old. */
  lemma UnmarkedChangeIsSilent(cfg: Catalog.Config, p: RegisterParams, now: nat, w: Catalog.Write)
    ensures var s := Next(cfg, START, Change(Catalog.Register(p, now, None, w)));
      s.notifier.epoch == START.notifier.epoch && s.unmarked > 0
      && p.clientUid in LiveSide(s.catalog.reg) && p.clientUid !in LiveSide(START.catalog.reg)
  {
    Catalog.StepAnnounced(cfg, START.catalog, Catalog.Register(p, now, None, w));
  }

  /** A permit is stored, a debounce runs, a mark is about to signal, or a change is about to be marked. */
  predicate Coming(s: State) {
    s.notifier.permit || s.notifier.phase.Debouncing? || s.notifier.owed > 0 || s.unmarked > 0
  }

  lemma NewerIsComing(s: State)
    requires Inv(s) && Catalog.Epoch(s.announced) < Catalog.Epoch(s.catalog)
    ensures Coming(s)
  {
  }

  lemma DifferenceIsOnItsWay(s: State, hash: Digest, server: seq<Tool>, first: Read, second: Read)
    requires Inv(s) && Injective(hash) && ReadsDiffer(s.announced, first, s.catalog, second, hash, server)
    ensures Coming(s)
  {
    OtherListNewEpoch(s.announced, first, s.catalog, second, hash, server);
    NewerIsComing(s);
  }

  /** Neither silent nor lost: in every schedule of changes, marks, signals and moves of the notifier, if a read now
      would show other tools than a read when the last broadcast began, then a permit is stored, a debounce runs, a mark
      is about to signal, or a change is about to be marked; so another broadcast follows. */
  lemma ChangeIsOnItsWay(cfg: Catalog.Config, steps: seq<Step>, hash: Digest, server: seq<Tool>, first: Read,
      second: Read)
    requires Injective(hash)
    requires var s := Run(cfg, START, steps); ReadsDiffer(s.announced, first, s.catalog, second, hash, server)
    ensures Coming(Run(cfg, START, steps))
  {
    var s := Run(cfg, START, steps);
    RunKeepsInv(cfg, START, steps);
    DifferenceIsOnItsWay(s, hash, server, first, second);
  }
}
