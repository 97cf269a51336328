/** Whole runs that show why the promises are made to undisturbed jobs only. */
module Disturbing {
  import opened Types
  import opened Broker
  import opened Pipeline
  import Jobs
  import Dispatching

  function RunningJob(w: WorkerId, now: int): Job { Job(Running, "t", "{}", 0, 1, Some(w), now) }

  function Dispatched(j: JobId, w: WorkerId): JobMessage { JobMessage(j, w, "t", "{}", 0, 1) }

  function SubmittedJob(now: int): Job { Job(Queued, "t", "{}", 0, 0, None, now) }

  /** A worker process that has reported, and a job submitted. */
  lemma Arriving(s0: State, w: WorkerId, j: JobId) returns (run: seq<Label>, e: State)
    requires Init(s0) && w !in s0.workers
    ensures Leads(s0, run, e)
    ensures w in e.workers && e.jobs == map[j := SubmittedJob(s0.now)]
    ensures e.procs == map[w := Proc(FreshGroup(|s0.jobsTopic|), [], 0, {})]
    ensures e == s0.(jobs := e.jobs, workers := e.workers, procs := e.procs)
  {
    assert Leads(s0, [], s0);
    run, e := Go(s0, [], s0, Read(w, Start));
    run, e := Go(s0, run, e, Health(Heartbeat(w, 0.0, 0)));
    run, e := Go(s0, run, e, Api(Submit(j, "t", "{}", 0)));
  }

  /** Its job is claimed for it. */
  lemma Claiming(s0: State, w: WorkerId, d: DispatcherId, j: JobId) returns (run: seq<Label>, e: State)
    requires Init(s0) && w !in s0.workers
    ensures Leads(s0, run, e)
    ensures e.jobs == map[j := RunningJob(w, s0.now)]
    ensures e.dispatchers == map[d := Publishing([Dispatched(j, w)], 0, false)]
    ensures e.procs == map[w := Proc(FreshGroup(|s0.jobsTopic|), [], 0, {})]
    ensures e == s0.(jobs := e.jobs, workers := e.workers, dispatchers := e.dispatchers, procs := e.procs, book := e.book)
    ensures e.book.rough == e.book.disturbed == {}
  {
    var e1, more;
    run, e1 := Arriving(s0, w, j);
    assert Jobs.Available(e1.jobs, {}) == {j} && Locked(e1) == {};
    more, e := Dispatching.FetchTrace(e1, d, w, 1, {j}, [j]);
    RunsCompose(s0, run, e1, more, e);
    run := run + more;
    assert Jobs.Claim(e1.jobs, {j}, w) == map[j := RunningJob(w, s0.now)];
    assert Batch(e.jobs, [j], w) == [Dispatched(j, w)];
  }

  /** Its message is published, consumed and executed, and a success is reported. */
  lemma Reporting(s0: State, w: WorkerId, d: DispatcherId, j: JobId) returns (run: seq<Label>, e: State)
    requires Init(s0) && w !in s0.workers && |s0.jobsTopic| > 0 && |s0.resultsTopic| > 0
    ensures Leads(s0, run, e) && Locked(e) == {}
    ensures e.jobs == map[j := RunningJob(w, s0.now)]
    ensures Ready(e.resultsTopic, e.collector, 0) && e.collector == s0.collector && e.owing == {}
    ensures e.resultsTopic[0][e.collector.pos[0]] == ResultOf(Dispatched(j, w), w, true, "")
    ensures e.book.rough == e.book.disturbed == {}
  {
    var e1, e2, e3, e4;
    run, e1 := Claiming(s0, w, d, j);
    run, e2 := Go(s0, run, e1, Dispatch(d, Publish(0)));
    assert e2.jobsTopic[0] == [Dispatched(j, w)];
    run, e3 := Go(s0, run, e2, Read(w, Consume(0)));
    assert e3.procs[w].pushed == [Dispatched(j, w)];
    run, e4 := Go(s0, run, e3, Work(w, Take));
    assert e4.procs[w].executing == {0};
    run, e := Go(s0, run, e4, Work(w, Report(0, 0, true, "")));
  }

  /** A job can run to COMPLETED, neither disturbed nor rough. */
  lemma JobsCanComplete(s0: State, w: WorkerId, d: DispatcherId, j: JobId) returns (run: seq<Label>, e: State)
    requires Init(s0) && w !in s0.workers && |s0.jobsTopic| > 0 && |s0.resultsTopic| > 0
    ensures Leads(s0, run, e) && j in e.jobs && e.jobs[j].status.Completed?
    ensures e.book.rough == e.book.disturbed == {}
  {
    run, e := Reporting(s0, w, d, j);
    run, e := Go(s0, run, e, Collect(Handle(0)));
  }

  /** Terminal is not final for every job: cancelled while its result is under way, a job is DEAD and
      then COMPLETED. */
  lemma CancelledJobCompletes(s0: State, w: WorkerId, d: DispatcherId, j: JobId)
    returns (run: seq<Label>, dead: State, more: seq<Label>, e: State)
    requires Init(s0) && w !in s0.workers && |s0.jobsTopic| > 0 && |s0.resultsTopic| > 0
    ensures Leads(s0, run, dead) && j in dead.jobs && dead.jobs[j].status.Dead?
    ensures Leads(dead, more, e) && j in e.jobs && e.jobs[j].status.Completed?
  {
    var s;
    run, s := Reporting(s0, w, d, j);
    run, dead := Go(s0, run, s, Api(Cancel(j)));
    assert Locked(dead) == Locked(s);
    assert Leads(dead, [], dead);
    more, e := Go(dead, [], dead, Collect(Handle(0)));
  }

  /** The row of a job picked in a tick whose publish failed. */
  function Handed(j: Job): Job { j.(status := Queued, worker := None, attempts := j.attempts + 1) }

  function HandedBack(t: Jobs.Table, ids: set<JobId>): Jobs.Table {
    map j | j in t :: if j in ids then Handed(t[j]) else t[j]
  }

  /** One turn whose every publish is refused puts each picked job back to QUEUED one attempt poorer, in
      any table, and changes nothing else but the ledger. */
  lemma FailedPublishesCostAttempts(s: State, w: WorkerId, d: DispatcherId, limit: nat, ids: set<JobId>, order: seq<JobId>)
    returns (run: seq<Label>, e: State)
    requires w in s.workers && PhaseOf(s, d).Resting?
    requires Jobs.IsPick(s.jobs, Locked(s), limit, ids) && Jobs.Lists(order, ids)
    ensures Leads(s, run, e) && PhaseOf(e, d).Resting? && Locked(e) == Locked(s)
    ensures e == s.(jobs := HandedBack(s.jobs, ids), dispatchers := e.dispatchers, book := e.book)
  {
    var refused := (n: nat) => Dispatching.Answer(Refused, false);
    assert forall n :: Dispatching.Valid(refused, n, |s.jobsTopic|);
    run, e := Dispatching.ServeTrace(s, d, w, limit, ids, order, 0, refused);
    Dispatching.SameLocks(s, e, d);
    RefusedBatch(s.jobs, s.jobsTopic, order, ids, w, refused);
  }

  lemma RefusedBatch(t: Jobs.Table, topic: Topic<JobMessage>, order: seq<JobId>, ids: set<JobId>, w: WorkerId, answers: nat -> Dispatching.Answer)
    requires Jobs.Lists(order, ids) && ids <= t.Keys
    requires forall n :: Dispatching.Valid(answers, n, |topic|)
    requires forall n :: answers(n) == Dispatching.Answer(Refused, false)
    ensures var claimed := Jobs.Claim(t, ids, w);
            Dispatching.Sent(claimed, topic, Batch(claimed, order, w), 0, answers) == (HandedBack(t, ids), topic)
  {
    var claimed := Jobs.Claim(t, ids, w);
    var batch := Batch(claimed, order, w);
    Dispatching.SentReturns(claimed, topic, batch, 0, answers);
    AllReturned(claimed, order, ids, w, answers);
    assert Dispatching.Returned(claimed, ids) == HandedBack(t, ids);
    RefusedLeavesTopic(claimed, topic, batch, answers);
  }

  lemma AllReturned(t: Jobs.Table, order: seq<JobId>, ids: set<JobId>, w: WorkerId, answers: nat -> Dispatching.Answer)
    requires Jobs.Lists(order, ids) && ids <= t.Keys
    requires forall n :: answers(n) == Dispatching.Answer(Refused, false)
    ensures Dispatching.Back(Batch(t, order, w), 0, answers) == ids
  {
    var batch := Batch(t, order, w);
    forall j | j in ids ensures j in Dispatching.Back(batch, 0, answers) {
      assert j in order;
      var k :| 0 <= k < |order| && order[k] == j;
      assert batch[k].job == j && !answers(0 + k).delivery.Delivered?;
    }
    forall j | j in Dispatching.Back(batch, 0, answers) ensures j in ids {
      var k :| 0 <= k < |batch| && batch[k].job == j;
      assert order[k] in order;
    }
  }

  lemma {:induction false} RefusedLeavesTopic(t: Jobs.Table, topic: Topic<JobMessage>, batch: seq<JobMessage>, answers: nat -> Dispatching.Answer)
    requires forall n :: Dispatching.Valid(answers, n, |topic|)
    requires forall n :: answers(n) == Dispatching.Answer(Refused, false)
    ensures Dispatching.Sent(t, topic, batch, 0, answers).1 == topic
  {
    if batch != [] { RefusedLeavesTopic(t, topic, batch[..|batch| - 1], answers); }
  }

  function QueuedJob(attempts: nat, now: int): Job { Job(Queued, "t", "{}", 0, attempts, None, now) }

  /** Attempts have no bound of their own: for every n, a job may have been picked n times without any
      worker process ever having been there. */
  lemma {:induction false} AttemptsHaveNoBound(s0: State, w: WorkerId, d: DispatcherId, j: JobId, n: nat)
    returns (run: seq<Label>, e: State)
    requires Init(s0) && w in s0.workers
    ensures Leads(s0, run, e) && e.procs == map[] && e.jobs == map[j := QueuedJob(n, s0.now)]
    ensures w in e.workers && PhaseOf(e, d).Resting? && Locked(e) == {}
  {
    if n == 0 {
      assert Leads(s0, [], s0);
      run, e := Go(s0, [], s0, Api(Submit(j, "t", "{}", 0)));
    } else {
      var m, more;
      run, m := AttemptsHaveNoBound(s0, w, d, j, n - 1);
      assert Jobs.Available(m.jobs, {}) == {j};
      more, e := FailedPublishesCostAttempts(m, w, d, 1, {j}, [j]);
      RunsCompose(s0, run, m, more, e);
      run := run + more;
    }
  }
}
