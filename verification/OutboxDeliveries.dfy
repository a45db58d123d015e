/** How often the service sees an event of the outbox, over every run. */
module OutboxDeliveries {
  import opened Basics
  import opened Terminal
  import opened Outbox
  import opened OutboxRuns

  /** One post of the head: its position, the answer the manager saw, whether the service received it, and whether the
      write after its turn happened. */
  datatype Attempt = Attempt(
    position: nat, answer: Result<TerminalResponse, ClientError>, received: bool, persisted: bool)

  predicate Left(a: Attempt) {
    Acknowledges(a.answer) && a.persisted
  }

  /** A post with a reply has arrived; any other may have. */
  function AttemptOf(position: nat, answer: Result<TerminalResponse, ClientError>, arrives: bool,
      persists: bool): Attempt {
    Attempt(position, answer, arrives || answer.Ok? || answer.error.Service?, persists)
  }

  /** The posts of one turn: the first, and its retry after a transport failure. */
  function PostsOf(d: Delivery, position: nat): seq<Attempt> {
    var answers := Answers(d);
    [AttemptOf(position, answers[0], d.first.arrives, d.persists)]
      + if |answers| == 1 then [] else [AttemptOf(position, answers[1], d.retried.arrives, d.persists)]
  }

  /** The posts a step makes, if it makes any. */
  function Sends(s: State, step: Step): seq<Attempt> {
    if s.memory.Some? && s.memory.value != [] && (step.Deliver? || step.DeliverCrash?)
        then PostsOf(step.delivery, s.removed)
    else []
  }

  function Attempts(file: File, steps: seq<Step>): seq<Attempt> {
    if steps == [] then []
    else Attempts(file, steps[..|steps| - 1]) + Sends(Run(file, steps[..|steps| - 1]), steps[|steps| - 1])
  }

  function Positions(attempts: seq<Attempt>): seq<nat> {
    seq(|attempts|, i requires 0 <= i < |attempts| => attempts[i].position)
  }

  /** Each sending is of the next event if the one before it left, and of the same event again if it did not. */
  predicate Chained(attempts: seq<Attempt>, removed: nat) {
    forall i :: 0 <= i < |attempts| ==> Linked(attempts, removed, i)
  }

  predicate Linked(attempts: seq<Attempt>, removed: nat, i: nat)
    requires i < |attempts|
  {
    (if i + 1 < |attempts| then attempts[i + 1].position else removed)
      == attempts[i].position + if Left(attempts[i]) then 1 else 0
  }

  lemma ChainedSnoc(attempts: seq<Attempt>, a: Attempt)
    requires Chained(attempts, a.position)
    ensures Chained(attempts + [a], a.position + if Left(a) then 1 else 0)
  {
    var all, removed := attempts + [a], a.position + if Left(a) then 1 else 0;
    forall i | 0 <= i < |all| ensures Linked(all, removed, i) {
      if i < |attempts| { assert Linked(attempts, a.position, i); }
    }
  }

  /** Only the last post of a turn can have the head leave, and it does when the turn does. */
  lemma PostsOfTurn(d: Delivery, position: nat)
    ensures var posts := PostsOf(d, position);
      && |posts| == |Answers(d)| && Positions(posts) == seq(|Answers(d)|, _ => position)
      && (Left(posts[|posts| - 1]) <==> Leaves(d)) && (|posts| == 2 ==> !Left(posts[0]))
  {
    var posts := PostsOf(d, position);
    assert |Answers(d)| == 2 ==> Answers(d)[0] == Err(Transport);
  }

  lemma StepSends(s: State, step: Step)
    ensures var t, more := Next(s, step), Sends(s, step);
      && t.deliveries == s.deliveries + Positions(more)
      && t.removed == s.removed + (if more != [] && Left(more[|more| - 1]) then 1 else 0)
  {
    if Sends(s, step) == [] {
      assert s.deliveries + Positions([]) == s.deliveries;
    } else {
      PostsOfTurn(step.delivery, s.removed);
    }
  }

  /** A turn's posts continue the chain. */
  lemma TurnChained(sent: seq<Attempt>, d: Delivery, position: nat)
    requires Chained(sent, position)
    ensures Chained(sent + PostsOf(d, position), position + if Leaves(d) then 1 else 0)
  {
    var posts := PostsOf(d, position);
    PostsOfTurn(d, position);
    ChainedSnoc(sent, posts[0]);
    if |posts| == 2 {
      ChainedSnoc(sent + [posts[0]], posts[1]);
      assert sent + posts == sent + [posts[0]] + [posts[1]];
    } else {
      assert posts == [posts[0]];
    }
  }

  lemma AttemptsGrow(sent: seq<Attempt>, s: State, step: Step)
    requires Chained(sent, s.removed) && Positions(sent) == s.deliveries
    ensures var t, all := Next(s, step), sent + Sends(s, step);
      Chained(all, t.removed) && Positions(all) == t.deliveries
  {
    var more := Sends(s, step);
    StepSends(s, step);
    assert Positions(sent + more) == Positions(sent) + Positions(more);
    if more == [] {
      assert sent + more == sent;
    } else {
      PostsOfTurn(step.delivery, s.removed);
      TurnChained(sent, step.delivery, s.removed);
    }
  }

  lemma {:induction false} AttemptsChained(file: File, steps: seq<Step>)
    ensures Chained(Attempts(file, steps), Run(file, steps).removed)
    ensures Positions(Attempts(file, steps)) == Run(file, steps).deliveries
    ensures |Attempts(file, steps)| > 0 ==> Attempts(file, steps)[0].position == 0
    ensures |Attempts(file, steps)| == 0 ==> Run(file, steps).removed == 0
  {
    if steps != [] {
      var init, step := steps[..|steps| - 1], steps[|steps| - 1];
      AttemptsChained(file, init);
      StepSends(Run(file, init), step);
      AttemptsGrow(Attempts(file, init), Run(file, init), step);
      if Sends(Run(file, init), step) != [] { PostsOfTurn(step.delivery, Run(file, init).removed); }
    }
  }

  /** Sendings of a position, and those of them after which it did not leave. */
  function Sendings(attempts: seq<Attempt>, p: nat): nat {
    if attempts == [] then 0
    else Sendings(attempts[..|attempts| - 1], p) + if attempts[|attempts| - 1].position == p then 1 else 0
  }

  function Failures(attempts: seq<Attempt>, p: nat): nat {
    if attempts == [] then 0
    else
      var a := attempts[|attempts| - 1];
      Failures(attempts[..|attempts| - 1], p) + if a.position == p && !Left(a) then 1 else 0
  }

  lemma ChainedInit(attempts: seq<Attempt>, removed: nat)
    requires Chained(attempts, removed) && attempts != []
    ensures var a := attempts[|attempts| - 1];
      Chained(attempts[..|attempts| - 1], a.position) && removed == a.position + if Left(a) then 1 else 0
  {
    var n := |attempts| - 1;
    var init := attempts[..n];
    assert Linked(attempts, removed, n);
    forall i | 0 <= i < n ensures Linked(init, attempts[n].position, i) {
      assert Linked(attempts, removed, i);
    }
  }

  lemma {:induction false} ChainCounts(attempts: seq<Attempt>, removed: nat, p: nat)
    requires Chained(attempts, removed) && (attempts != [] ==> attempts[0].position == 0)
        && (attempts == [] ==> removed == 0)
    ensures Sendings(attempts, p) == Failures(attempts, p) + if p < removed then 1 else 0
  {
    if attempts != [] {
      var n := |attempts| - 1;
      var init, a := attempts[..n], attempts[n];
      ChainedInit(attempts, removed);
      ChainCounts(init, a.position, p);
    }
  }

  /** How often an event is posted, over every run with retries, crashes and restarts: an event that has left the outbox
      was posted once more than there were posts after which it stayed; one that has not left, exactly that many
      times. */
  lemma SentOncePerFailureAndOnceMore(file: File, steps: seq<Step>, p: nat)
    ensures var attempts := Attempts(file, steps);
      Sendings(attempts, p) == Failures(attempts, p) + if p < Run(file, steps).removed then 1 else 0
  {
    AttemptsChained(file, steps);
    ChainCounts(Attempts(file, steps), Run(file, steps).removed, p);
  }

  lemma {:induction false} ChainClimbs(attempts: seq<Attempt>, removed: nat, i: nat, j: nat)
    requires Chained(attempts, removed) && i < j < |attempts| && forall k :: i <= k < j ==> Left(attempts[k])
    ensures attempts[i].position < attempts[j].position
    decreases j
  {
    assert Linked(attempts, removed, j - 1);
    if i < j - 1 { ChainClimbs(attempts, removed, i, j - 1); }
  }

  lemma ChainDistinctIff(attempts: seq<Attempt>, removed: nat)
    requires Chained(attempts, removed)
    ensures Distinct(Positions(attempts)) <==> forall i :: 0 <= i < |attempts| - 1 ==> Left(attempts[i])
  {
    var sent := Positions(attempts);
    if Distinct(sent) {
      forall i | 0 <= i < |attempts| - 1 ensures Left(attempts[i]) {
        assert Linked(attempts, removed, i) && sent[i] != sent[i + 1];
      }
    }
    if forall i :: 0 <= i < |attempts| - 1 ==> Left(attempts[i]) {
      forall i, j | 0 <= i < j < |sent| ensures sent[i] != sent[j] {
        ChainClimbs(attempts, removed, i, j);
      }
    }
  }

  /** Exactly once, exactly when: no event was posted twice in a run if and only if every post that another one followed
      was acknowledged and its write happened. */
  lemma SentTwiceIff(file: File, steps: seq<Step>)
    ensures var attempts := Attempts(file, steps);
      Distinct(Run(file, steps).deliveries) <==> forall i :: 0 <= i < |attempts| - 1 ==> Left(attempts[i])
  {
    AttemptsChained(file, steps);
    ChainDistinctIff(Attempts(file, steps), Run(file, steps).removed);
  }

  /** Two posts are of the same event exactly when none from the first to before the second had it leave. */
  lemma {:induction false} SamePositionIff(attempts: seq<Attempt>, removed: nat, i: nat, j: nat)
    requires Chained(attempts, removed) && i <= j < |attempts|
    ensures attempts[i].position <= attempts[j].position
    ensures attempts[i].position == attempts[j].position <==> forall k :: i <= k < j ==> !Left(attempts[k])
    decreases j
  {
    if i < j {
      SamePositionIff(attempts, removed, i, j - 1);
      assert Linked(attempts, removed, j - 1);
    }
  }

  /** The service received some event twice. */
  predicate ReceivedTwice(attempts: seq<Attempt>) {
    exists i, j :: 0 <= i < j < |attempts| && attempts[i].received && attempts[j].received
      && attempts[i].position == attempts[j].position
  }

  /** The service receives an event twice, over a run, if and only if it receives two posts between which, the first
      included, none was both acknowledged and followed by its write. */
  lemma ReceivedTwiceIff(file: File, steps: seq<Step>)
    ensures var attempts := Attempts(file, steps);
      ReceivedTwice(attempts) <==>
        exists i, j :: 0 <= i < j < |attempts| && attempts[i].received && attempts[j].received
          && forall k :: i <= k < j ==> !Left(attempts[k])
  {
    var attempts, removed := Attempts(file, steps), Run(file, steps).removed;
    AttemptsChained(file, steps);
    forall i, j | 0 <= i < j < |attempts|
      ensures attempts[i].position == attempts[j].position <==> forall k :: i <= k < j ==> !Left(attempts[k])
    {
      SamePositionIff(attempts, removed, i, j);
    }
  }

  // ---- What makes an event leave ------------------------------------------------------------------

  /** Some post of the event at this position was answered so, and the write after it happened. */
  predicate RecordedThenWritten(attempts: seq<Attempt>, p: nat) {
    exists i :: 0 <= i < |attempts| && attempts[i].position == p && HasIt(attempts[i].answer) && attempts[i].persisted
  }

  lemma {:induction false} CountsDiffer(attempts: seq<Attempt>, p: nat)
    ensures Failures(attempts, p) <= Sendings(attempts, p)
    ensures Failures(attempts, p) < Sendings(attempts, p) <==>
      exists i :: 0 <= i < |attempts| && attempts[i].position == p && Left(attempts[i])
  {
    if attempts != [] {
      var n := |attempts| - 1;
      var init := attempts[..n];
      CountsDiffer(init, p);
      if i :| 0 <= i < n && init[i].position == p && Left(init[i]) { assert attempts[i] == init[i]; }
      if i :| 0 <= i < |attempts| && attempts[i].position == p && Left(attempts[i]) {
        if i < n { assert init[i] == attempts[i]; }
      }
    }
  }

  /** Exactly which events have left, over every run: those of which some post was answered that the service has the
      event, by these very answers, and whose write then happened. */
  lemma LeftIffRecorded(file: File, steps: seq<Step>, p: nat)
    ensures p < Run(file, steps).removed <==> RecordedThenWritten(Attempts(file, steps), p)
  {
    var attempts := Attempts(file, steps);
    SentOncePerFailureAndOnceMore(file, steps, p);
    CountsDiffer(attempts, p);
    forall i | 0 <= i < |attempts| ensures Left(attempts[i]) <==> HasIt(attempts[i].answer) && attempts[i].persisted {}
  }

  /** So nothing confirmed is lost, in terms of what the service said: after any run, an event whose `enqueue` returned
      Ok is in the file, or the service has answered a post of that event that it has it. */
  lemma ConfirmedUntilRecorded(file: File, steps: seq<Step>, e: TerminalRequest)
    requires e in Run(file, steps).confirmed
    ensures var s := Run(file, steps);
      || (Contents(s.file).Some? && e in Contents(s.file).value)
      || exists p :: 0 <= p < |s.written| && s.written[p] == e && RecordedThenWritten(Attempts(file, steps), p)
  {
    var s := Run(file, steps);
    RunKeepsInv(file, steps);
    var p :| 0 <= p < |s.written| && s.written[p] == e;
    LeftIffRecorded(file, steps, p);
    if p >= s.removed { assert Durable(s)[p - s.removed] == e; }
  }

  /** Whatever else the service answers, the event stays: in a file that could be read at the start, an event that was
      written and of which no post was answered so, and written, is still there. */
  lemma KeptUntilRecorded(file: File, steps: seq<Step>, p: nat)
    requires Contents(file).Some? && p < |Run(file, steps).written|
    ensures var s := Run(file, steps);
      && s.removed <= |s.written| && Contents(s.file) == Some(s.written[s.removed..])
      && (s.removed <= p <==> !RecordedThenWritten(Attempts(file, steps), p))
  {
    FileIsNewestPart(file, steps);
    LeftIffRecorded(file, steps, p);
  }

  /** A turn whose first post is answered, in time. */
  function Answering(answer: Result<TerminalResponse, ClientError>, persists: bool): Delivery {
    Delivery(Post(answer, true), Post(answer, true), Kept, persists)
  }

  const CONFLICT: Result<TerminalResponse, ClientError> :=
    Err(Service(409, ServiceError("TERMINAL_ALREADY_RECORDED", "", "", None)))

  /** A turn whose first post reaches the service while its response is lost; the retry is told that the event is
      there. */
  const LOST_REPLY := Delivery(Post(Err(Transport), true), Post(CONFLICT, true), Kept, true)

  lemma Queued(e: TerminalRequest)
    requires ValidTerminal(e)
    ensures Next(Next(Initial(Missing), Start(true)), Enqueue(e, true))
         == State(Some([e]), Saved([e]), [e], 0, {e}, [], {})
  {
    var up := Next(Initial(Missing), Start(true));
    assert up == Initial(Missing).(memory := Some([]));
    assert [] + [e] == [e] && {} + {e} == {e};
  }

  /** The service may receive an event twice: it answers, and the process dies before the write. Exactly-once
      delivery would be a false claim. */
  lemma DeliveredTwice(e: TerminalRequest, recorded: Result<TerminalResponse, ClientError>)
    requires ValidTerminal(e) && Acknowledges(recorded)
    ensures
      var queued := Next(Next(Initial(Missing), Start(true)), Enqueue(e, true));
      var died := Next(queued, DeliverCrash(Answering(recorded, false)));
      var s := Next(Next(died, Start(true)), Deliver(Answering(recorded, true)));
      s.written == [e] && s.deliveries == [0, 0] && s.removed == 1
  {
    Queued(e);
    var queued := Next(Next(Initial(Missing), Start(true)), Enqueue(e, true));
    var died := Next(queued, DeliverCrash(Answering(recorded, false)));
    assert Answers(Answering(recorded, false)) == [recorded];
    assert died == State(None, Saved([e]), [e], 0, {e}, [0], {0}) by {
      assert [] + seq(1, _ => 0) == [0] && {} + {0} == {0};
    }
    SentAgain(e, recorded, died);
  }

  lemma SentAgain(e: TerminalRequest, recorded: Result<TerminalResponse, ClientError>, died: State)
    requires ValidTerminal(e) && Acknowledges(recorded) && died == State(None, Saved([e]), [e], 0, {e}, [0], {0})
    ensures var s := Next(Next(died, Start(true)), Deliver(Answering(recorded, true)));
      s.written == [e] && s.deliveries == [0, 0] && s.removed == 1
  {
    SavedContents([e]);
    assert Next(died, Start(true)) == died.(memory := Some([e]));
    assert Answers(Answering(recorded, true)) == [recorded];
    assert [0] + seq(1, _ => 0) == [0, 0];
  }

  /** It may without any crash or failing write: one turn posts the event twice, and both posts arrive. */
  lemma RetriedTwice(e: TerminalRequest)
    requires ValidTerminal(e)
    ensures
      var queued := Next(Next(Initial(Missing), Start(true)), Enqueue(e, true));
      var s := Next(queued, Deliver(LOST_REPLY));
      s.deliveries == [0, 0] && s.removed == 1 && s.memory == Some([])
          && ReceivedTwice(Sends(queued, Deliver(LOST_REPLY)))
  {
    Queued(e);
    var queued := Next(Next(Initial(Missing), Start(true)), Enqueue(e, true));
    assert Answers(LOST_REPLY) == [Err(Transport), CONFLICT];
    assert [] + seq(2, _ => 0) == [0, 0] && [e][1..] == [];
    var posts := Sends(queued, Deliver(LOST_REPLY));
    assert |posts| == 2 && posts[0].received && posts[1].received && posts[0].position == posts[1].position;
  }
}
