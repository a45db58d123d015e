/** The outbox as an object takes the steps of its machine. */
module OutboxSimulation {
  import opened Basics
  import opened Terminal
  import opened Outbox
  import opened OutboxRuns

  /** The object stands for the machine's process and disk. */
  ghost predicate StandsFor(o: TerminalOutbox, s: State)
    reads o
  {
    s.memory == Some(o.events) && s.file == o.file && o.Valid()
  }

  /** `enqueue`, with the push undone when the write fails, is the machine's step. */
  method EnqueueSimulates(o: TerminalOutbox, e: TerminalRequest, persists: bool, ghost s: State)
    returns (r: Result<(), OutboxError>)
    requires StandsFor(o, s)
    modifies o
    ensures StandsFor(o, Next(s, Enqueue(e, persists)))
    ensures r.Ok? ==> e in Next(s, Enqueue(e, persists)).confirmed
  {
    r := o.Enqueue(e, persists);
  }

  /** One turn of the flush loop, with the pop undone when the write fails, is the machine's step. */
  method DeliverSimulates(o: TerminalOutbox, d: Delivery, ghost s: State) returns (left: bool)
    requires StandsFor(o, s)
    modifies o
    ensures StandsFor(o, Next(s, Deliver(d)))
    ensures left <==> Next(s, Deliver(d)).removed == s.removed + 1
  {
    if o.events == [] { return false; }
    left := o.DeliverFirst(d);
  }

  /** A crash, then `load` of the file it left, is the machine's two steps. */
  method ReloadSimulates(o: TerminalOutbox, persists: bool, ghost s: State) returns (r: Result<(), OutboxError>)
    requires StandsFor(o, s)
    modifies o
    ensures r.Ok? ==> StandsFor(o, Next(Next(s, Crash), Start(persists)))
    ensures r.Err? ==> Next(Next(s, Crash), Start(persists)).memory.None?
  {
    r := o.Load(persists);
  }

  /** A failed write leaves nothing behind: die right after it, reload, and memory is what it was before the step. */
  lemma FailedWriteSurvivesReload(s: State, step: Step, persists: bool)
    requires Inv(s) && s.memory.Some?
    requires (step.Enqueue? && !step.persists) || (step.Deliver? && !step.delivery.persists)
    ensures Next(Next(Next(s, step), Crash), Start(persists)).memory == s.memory
  {
  }
}
