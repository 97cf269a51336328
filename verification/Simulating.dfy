/** The executor and the consume loops are what the pipeline takes them for: their steps are steps of the
    pipeline, or change nothing it sees. */
module Simulating {
  import opened Types
  import opened Broker
  import opened Pipeline
  import opened Lifecycle
  import Executing
  import Collecting
  import Outcomes
  import Records

  // ----- The executor -----

  predicate HasJob(e: Executing.State) { e.loop.Received? || e.loop.Acquired? || e.loop.Added? || e.loop.Counted? }

  /** The job the loop has received and not launched is the last one received. */
  predicate LastInHand(e: Executing.State) { HasJob(e) ==> e.loop.job + 1 == e.taken }

  /** The executor as the pipeline sees it: a job in hand still counts as not taken. */
  ghost predicate Shows(e: Executing.State, pr: Proc) {
    && e.taken + e.queue == |pr.pushed|
    && e.taken == pr.taken + One(HasJob(e))
    && e.executing == pr.executing
    && LastInHand(e)
  }

  /** What becomes of the report of a job. */
  datatype Outcome = Outcome(delivery: Delivery, success: bool, error: string)

  lemma LaunchIsTake(e: Executing.State, s: State, w: WorkerId)
    requires Executing.Balanced(e) && Executing.Tallied(e) && Executing.Enabled(e, Executing.Launch)
    requires w in s.procs && Shows(e, s.procs[w])
    ensures WorkEnabled(s, w, Take) && Shows(Executing.Next(e, Executing.Launch), WorkNext(s, w, Take).procs[w])
  {
    assert Executing.InHand(e, e.loop.job) && Executing.TalliedAt(e, e.loop.job);
    assert e.loop.job == s.procs[w].taken;
  }

  lemma ReportShows(e: Executing.State, j: nat, pr: Proc)
    requires Executing.TalliedAt(e, j) && Executing.Enabled(e, Executing.Report(j)) && Shows(e, pr)
    ensures j in pr.executing && j < |pr.pushed|
    ensures Shows(Executing.Next(e, Executing.Report(j)), pr.(executing := pr.executing - {j}))
  {
  }

  /** A report that lands behind an error is the landing and then the loss. */
  lemma ReportTrace(s: State, w: WorkerId, j: nat, o: Outcome) returns (run: seq<Label>, s': State)
    requires w in s.procs && j in s.procs[w].executing && j < |s.procs[w].pushed| && Deliverable(o.delivery, |s.resultsTopic|)
    ensures Leads(s, run, s') && w in s'.procs && s'.procs[w] == s.procs[w].(executing := s.procs[w].executing - {j})
    ensures s'.resultsTopic == AfterWrite(s.resultsTopic, ResultOf(s.procs[w].pushed[j], w, o.success, o.error), o.delivery)
  {
    assert Leads(s, [], s);
    match o.delivery
    case Delivered(p) => run, s' := Go(s, [], s, Work(w, Report(j, p, o.success, o.error)));
    case Refused => run, s' := Go(s, [], s, Work(w, ReportLost(j)));
    case Unacknowledged(p) =>
      run, s' := Go(s, [], s, Work(w, ReportUnacknowledged(j, p, o.success, o.error)));
      run, s' := Go(s, run, s', Work(w, ReportLost(j)));
  }

  lemma ReportIsReport(e: Executing.State, j: nat, s: State, w: WorkerId, o: Outcome) returns (run: seq<Label>, s': State)
    requires Executing.Tallied(e) && Executing.Enabled(e, Executing.Report(j))
    requires w in s.procs && Shows(e, s.procs[w]) && Deliverable(o.delivery, |s.resultsTopic|)
    ensures Leads(s, run, s') && w in s'.procs && Shows(Executing.Next(e, Executing.Report(j)), s'.procs[w])
    ensures j < |s.procs[w].pushed|
    ensures s'.resultsTopic == AfterWrite(s.resultsTopic, ResultOf(s.procs[w].pushed[j], w, o.success, o.error), o.delivery)
  {
    assert Executing.TalliedAt(e, j);
    ReportShows(e, j, s.procs[w]);
    run, s' := ReportTrace(s, w, j, o);
  }

  /** The channel takes a job: the consumer has read a message addressed to this worker, for which the
      pipeline then has room, too. */
  lemma PushIsConsume(e: Executing.State, s: State, w: WorkerId, p: nat)
    requires Executing.Enabled(e, Executing.Push) && w in s.procs && Shows(e, s.procs[w])
    requires Ready(s.jobsTopic, s.procs[w].group, p) && s.jobsTopic[p][s.procs[w].group.pos[p]].worker == w
    ensures ReadEnabled(s, w, Consume(p)) && Shows(Executing.Next(e, Executing.Push), ReadNext(s, w, Consume(p)).procs[w])
  {
  }

  /** All other steps of the executor are hidden. */
  lemma HiddenSteps(e: Executing.State, l: Executing.Step, pr: Proc)
    requires Executing.Enabled(e, l) && Shows(e, pr) && !(l.Push? || l.Launch? || l.Report?)
    ensures Shows(Executing.Next(e, l), pr)
  {
  }

  /** Every step of the executor between two pushes is a run of the pipeline, for whatever outcome its
      report has. */
  lemma ExecutorStep(e: Executing.State, l: Executing.Step, s: State, w: WorkerId, o: Outcome) returns (run: seq<Label>, s': State)
    requires Executing.Balanced(e) && Executing.Tallied(e) && Executing.Enabled(e, l) && !l.Push?
    requires w in s.procs && Shows(e, s.procs[w]) && Deliverable(o.delivery, |s.resultsTopic|)
    ensures Leads(s, run, s') && w in s'.procs && Shows(Executing.Next(e, l), s'.procs[w])
    ensures |s'.resultsTopic| == |s.resultsTopic|
  {
    assert Leads(s, [], s);
    if l.Launch? {
      LaunchIsTake(e, s, w);
      run, s' := Go(s, [], s, Work(w, Take));
    } else if l.Report? {
      run, s' := ReportIsReport(e, l.job, s, w, o);
    } else {
      HiddenSteps(e, l, s.procs[w]);
      run, s' := [], s;
    }
  }

  predicate Possibly(outcomes: nat -> Outcome, j: nat, partitions: nat) { Deliverable(outcomes(j).delivery, partitions) }

  /** A whole run of the executor over what is on its channel is a run of the pipeline, whatever becomes of
      the report of each job. */
  lemma {:induction false} ExecutorRun(e: Executing.State, steps: seq<Executing.Step>, s: State, w: WorkerId, outcomes: nat -> Outcome)
    returns (run: seq<Label>, s': State)
    requires Executing.Balanced(e) && Executing.Tallied(e) && Executing.IsRun(e, steps)
    requires forall k :: 0 <= k < |steps| ==> !steps[k].Push?
    requires w in s.procs && Shows(e, s.procs[w]) && forall j :: Possibly(outcomes, j, |s.resultsTopic|)
    ensures Leads(s, run, s') && w in s'.procs && Shows(Executing.End(e, steps), s'.procs[w])
    decreases |steps|
  {
    if steps == [] {
      run, s' := [], s;
      assert Leads(s, [], s);
    } else {
      var s1, more;
      var j := if steps[0].Report? then steps[0].job else 0;
      assert Possibly(outcomes, j, |s.resultsTopic|);
      run, s1 := ExecutorStep(e, steps[0], s, w, outcomes(j));
      Executing.Steps(e, steps[0]);
      assert forall k :: 0 <= k < |steps[1..]| ==> steps[1..][k] == steps[k + 1];
      more, s' := ExecutorRun(Executing.Next(e, steps[0]), steps[1..], s1, w, outcomes);
      RunsCompose(s, run, s1, more, s');
      run := run + more;
    }
  }

  // ----- Sessions -----

  function BuryLabel(m: Move): BuryStep {
    match m
    case HandleNext(q) => Insert(q)
    case CommitNext(q) => CommitLetter(q)
    case Rewind(q) => RejoinLetters(q)
  }

  /** What a session of the dead-letter group does is a run of the pipeline. */
  lemma {:induction false} BuryingSession(s: State, moves: seq<Move>, g: Group) returns (run: seq<Label>, e: State)
    requires Walks(s.deadTopic, s.undertaker, moves, g)
    ensures Leads(s, run, e) && e == s.(undertaker := g, book := e.book)
    decreases |moves|
  {
    assert Leads(s, [], s);
    if moves == [] {
      run, e := [], s;
    } else {
      var s1, more;
      run, s1 := Go(s, [], s, Bury(BuryLabel(moves[0])));
      more, e := BuryingSession(s1, moves[1..], g);
      RunsCompose(s, run, s1, more, e);
      run := run + more;
    }
  }

  /** Nothing is in the way of the move: a message is handled or committed in a partition that owes no
      letter, and its row is not locked. Starting over needs nothing. */
  predicate Unhindered(t: Topic<ResultMessage>, locked: set<JobId>, owing: set<nat>, g: Group, m: Move) {
    match m
    case HandleNext(p) => p !in owing && p < |g.pos| && Has(t, p, g.pos[p]) && t[p][g.pos[p]].job !in locked
    case CommitNext(p) => p !in owing
    case Rewind(_) => true
  }

  function OwingAfter(owing: set<nat>, m: Move): set<nat> { if m.Rewind? then owing - {m.partition} else owing }

  ghost predicate AllUnhindered(t: Topic<ResultMessage>, locked: set<JobId>, owing: set<nat>, g: Group, moves: seq<Move>, e: Group)
    requires Walks(t, g, moves, e)
    decreases |moves|
  {
    moves == []
    || (Unhindered(t, locked, owing, g, moves[0])
        && AllUnhindered(t, locked, OwingAfter(owing, moves[0]), AfterMove(g, moves[0]), moves[1..], e))
  }

  /** One HandleResult that returns nil. */
  lemma HandleWell(s: State, p: nat) returns (run: seq<Label>, e: State)
    requires |s.deadTopic| > 0 && Possible(s.resultsTopic, s.collector, HandleNext(p))
    requires Unhindered(s.resultsTopic, Locked(s), s.owing, s.collector, HandleNext(p))
    requires s.resultsTopic[p][s.collector.pos[p]].job in s.jobs
    ensures Leads(s, run, e) && e.collector == Handled(s.collector, p)
    ensures e == s.(jobs := e.jobs, collector := e.collector, deadTopic := e.deadTopic) && |e.deadTopic| == |s.deadTopic|
  {
    run, e := Collecting.HandleTrace(s, p, Delivered(0));
  }

  /** A commit or a restart of one partition. */
  lemma OffsetMove(s: State, m: Move) returns (run: seq<Label>, e: State)
    requires Records.CollectorOk(s.collector, s.owing, s.resultsTopic) && !m.HandleNext?
    requires Possible(s.resultsTopic, s.collector, m) && Unhindered(s.resultsTopic, Locked(s), s.owing, s.collector, m)
    ensures Leads(s, run, e)
    ensures e == s.(collector := AfterMove(s.collector, m), owing := OwingAfter(s.owing, m), book := e.book)
  {
    assert Leads(s, [], s);
    run, e := Go(s, [], s, Collect(if m.CommitNext? then CommitResult(m.partition) else RejoinResults(m.partition)));
  }

  /** One move of a session of the results group. */
  lemma CollectorMove(s: State, m: Move) returns (run: seq<Label>, e: State)
    requires Inv(s) && |s.deadTopic| > 0
    requires Possible(s.resultsTopic, s.collector, m) && Unhindered(s.resultsTopic, Locked(s), s.owing, s.collector, m)
    ensures Leads(s, run, e) && Inv(e) && |e.deadTopic| > 0
    ensures e.collector == AfterMove(s.collector, m) && e.owing == OwingAfter(s.owing, m)
    ensures e.resultsTopic == s.resultsTopic && e.dispatchers == s.dispatchers
  {
    if m.HandleNext? {
      Outcomes.ResultsNameJobs(s, m.partition, s.collector.pos[m.partition]);
      run, e := HandleWell(s, m.partition);
    } else {
      run, e := OffsetMove(s, m);
    }
    RunKeepsInv(s, run);
  }

  /** What a session of the results group does is a run of the pipeline, when nothing is in the way of any
      of its moves. */
  lemma {:induction false} CollectingSession(s: State, moves: seq<Move>, g: Group) returns (run: seq<Label>, e: State)
    requires Inv(s) && |s.deadTopic| > 0
    requires Walks(s.resultsTopic, s.collector, moves, g)
    requires AllUnhindered(s.resultsTopic, Locked(s), s.owing, s.collector, moves, g)
    ensures Leads(s, run, e) && e.collector == g
    decreases |moves|
  {
    if moves == [] {
      run, e := [], s;
      assert Leads(s, [], s);
    } else {
      var s1, more;
      run, s1 := CollectorMove(s, moves[0]);
      more, e := CollectingSession(s1, moves[1..], g);
      RunsCompose(s, run, s1, more, e);
      run := run + more;
    }
  }

  function ReadLabel(m: Move): ReadStep {
    match m
    case HandleNext(p) => Consume(p)
    case CommitNext(p) => CommitOffset(p)
    case Rewind(p) => Rejoin(p)
  }

  /** How much room on the channel the moves need: one place for each message they read for worker `w`. */
  ghost function Needs(t: Topic<JobMessage>, w: WorkerId, g: Group, moves: seq<Move>, e: Group): nat
    requires Walks(t, g, moves, e)
    decreases |moves|
  {
    if moves == [] then 0
    else
      var m := moves[0];
      One(m.HandleNext? && t[m.partition][g.pos[m.partition]].worker == w) + Needs(t, w, AfterMove(g, m), moves[1..], e)
  }

  /** What a session of a worker's group does is a run of the pipeline, when the channel, and the executor's
      hand, have room for the messages it reads for this worker. */
  lemma {:induction false} ReadingSession(s: State, w: WorkerId, moves: seq<Move>, g: Group) returns (run: seq<Label>, e: State)
    requires w in s.procs && Sound(s.procs[w].group, s.jobsTopic) && Walks(s.jobsTopic, s.procs[w].group, moves, g)
    requires s.procs[w].taken <= |s.procs[w].pushed|
    requires |s.procs[w].pushed| + Needs(s.jobsTopic, w, s.procs[w].group, moves, g) <= s.procs[w].taken + JOB_CHAN_CAPACITY + 1
    ensures Leads(s, run, e) && w in e.procs && e.procs[w].group == g
    ensures e == s.(procs := e.procs, book := e.book)
    decreases |moves|
  {
    assert Leads(s, [], s);
    if moves == [] {
      run, e := [], s;
    } else {
      var s1, more;
      GroupMovesSoundly(s.procs[w].group, s.jobsTopic, moves[0].partition);
      run, s1 := Go(s, [], s, Read(w, ReadLabel(moves[0])));
      more, e := ReadingSession(s1, w, moves[1..], g);
      RunsCompose(s, run, s1, more, e);
      run := run + more;
    }
  }
}
