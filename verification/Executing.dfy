/** The executor of one worker: the loop of Run and the goroutines it launches, interleaved step by
    step over the semaphore, the wait group and the running counter. */
module Executing {
  import opened Types
  import opened Broker
  import Pipeline

  /** Where the loop of Run is. The job in hand is named by its number in order of receipt. */
  datatype Loop =
    | Selecting
    | Received(job: nat)   // about to block on the semaphore
    | Acquired(job: nat)   // before wg.Add
    | Added(job: nat)      // before runningCount.Add
    | Counted(job: nat)    // before go
    | Draining             // wg.Wait
    | Returned

  /** The goroutines by how far they are: executing, after their report, after the semaphore receive,
      after wg.Done. A goroutine that has decremented the counter is gone. */
  datatype State = State(
    loop: Loop,
    queue: nat,
    closed: bool,
    cancelled: bool,
    taken: nat,
    executing: set<nat>,
    reported: set<nat>,
    released: set<nat>,
    done: set<nat>,
    sem: nat,
    wg: nat,
    runningCount: int,
    reports: multiset<nat>)

  datatype Step =
    | Push
    | Close
    | CancelContext
    | Receive
    | Drain
    | Acquire
    | Add
    | Count
    | Launch
    | Return
    | Report(job: nat)
    | Release(job: nat)
    | Done(job: nat)
    | Forget(job: nat)

  const Init := State(Selecting, 0, false, false, 0, {}, {}, {}, {}, 0, 0, 0, multiset{})

  predicate Enabled(s: State, l: Step) {
    match l
    case Push => s.queue < JOB_CHAN_CAPACITY && !s.closed
    case Close => !s.closed
    case CancelContext => true
    case Receive => s.loop.Selecting? && s.queue > 0
    case Drain => s.loop.Selecting? && (s.cancelled || (s.closed && s.queue == 0))
    case Acquire => s.loop.Received? && s.sem < MAX_CONCURRENCY
    case Add => s.loop.Acquired?
    case Count => s.loop.Added?
    case Launch => s.loop.Counted?
    case Return => s.loop.Draining? && s.wg == 0
    case Report(j) => j in s.executing
    case Release(j) => j in s.reported && s.sem > 0
    case Done(j) => j in s.released && s.wg > 0
    case Forget(j) => j in s.done
  }

  function Next(s: State, l: Step): State
    requires Enabled(s, l)
  {
    match l
    case Push => s.(queue := s.queue + 1)
    case Close => s.(closed := true)
    case CancelContext => s.(cancelled := true)
    case Receive => s.(loop := Received(s.taken), queue := s.queue - 1, taken := s.taken + 1)
    case Drain => s.(loop := Draining)
    case Acquire => s.(loop := Acquired(s.loop.job), sem := s.sem + 1)
    case Add => s.(loop := Added(s.loop.job), wg := s.wg + 1)
    case Count => s.(loop := Counted(s.loop.job), runningCount := s.runningCount + 1)
    case Launch => s.(loop := Selecting, executing := s.executing + {s.loop.job})
    case Return => s.(loop := Returned)
    case Report(j) => s.(executing := s.executing - {j}, reported := s.reported + {j}, reports := s.reports + multiset{j})
    case Release(j) => s.(reported := s.reported - {j}, released := s.released + {j}, sem := s.sem - 1)
    case Done(j) => s.(released := s.released - {j}, done := s.done + {j}, wg := s.wg - 1)
    case Forget(j) => s.(done := s.done - {j}, runningCount := s.runningCount - 1)
  }

  predicate InHand(s: State, j: nat) {
    (s.loop.Received? || s.loop.Acquired? || s.loop.Added? || s.loop.Counted?) && s.loop.job == j
  }

  predicate Disjoint(s: State) {
    && s.executing !! s.reported && s.executing !! s.released && s.executing !! s.done
    && s.reported !! s.released && s.reported !! s.done && s.released !! s.done
  }

  /** The counters count what they should: the semaphore covers every goroutine up to its release, the
      wait group up to its Done, the running counter up to its decrement, plus the launch under way. */
  ghost predicate Balanced(s: State) {
    && Disjoint(s)
    && s.sem == |s.executing| + |s.reported| + One(s.loop.Acquired? || s.loop.Added? || s.loop.Counted?)
    && s.sem <= MAX_CONCURRENCY
    && s.wg == |s.executing| + |s.reported| + |s.released| + One(s.loop.Added? || s.loop.Counted?)
    && s.runningCount == |s.executing| + |s.reported| + |s.released| + |s.done| + One(s.loop.Counted?)
  }

  function Launched(s: State): set<nat> { s.executing + s.reported + s.released + s.done }

  /** A job received is in hand or launched, and reported once it no longer executes. */
  predicate TalliedAt(s: State, j: nat) {
    && (j in Launched(s) ==> j < s.taken && !InHand(s, j))
    && (InHand(s, j) ==> j < s.taken)
    && s.reports[j] == One(j < s.taken && j !in s.executing && !InHand(s, j))
  }

  ghost predicate Tallied(s: State) {
    (forall j: nat :: TalliedAt(s, j)) && (s.loop.Returned? ==> s.wg == 0)
  }

  /** A goroutine moves from one stage to the next. */
  lemma Moves(a: set<nat>, b: set<nat>, j: nat)
    requires j in a && a !! b
    ensures |a - {j}| == |a| - 1 && |b + {j}| == |b| + 1
  {
  }

  /** A goroutine that starts. */
  lemma Starts(a: set<nat>, j: nat)
    requires j !in a
    ensures |a + {j}| == |a| + 1
  {
  }

  lemma LaunchBalanced(s: State)
    requires Balanced(s) && Enabled(s, Launch) && s.loop.job !in Launched(s)
    ensures Balanced(Next(s, Launch))
  {
    Starts(s.executing, s.loop.job);
  }

  lemma ReportBalanced(s: State, j: nat)
    requires Balanced(s) && Enabled(s, Report(j))
    ensures Balanced(Next(s, Report(j)))
  {
    Moves(s.executing, s.reported, j);
  }

  lemma ReleaseBalanced(s: State, j: nat)
    requires Balanced(s) && Enabled(s, Release(j))
    ensures Balanced(Next(s, Release(j)))
  {
    Moves(s.reported, s.released, j);
  }

  lemma DoneBalanced(s: State, j: nat)
    requires Balanced(s) && Enabled(s, Step.Done(j))
    ensures Balanced(Next(s, Step.Done(j)))
  {
    Moves(s.released, s.done, j);
  }

  lemma ForgetBalanced(s: State, j: nat)
    requires Balanced(s) && Enabled(s, Forget(j))
    ensures Balanced(Next(s, Forget(j)))
  {
    Moves(s.done, {}, j);
  }

  /** The steps of the loop before the launch, and those of the world, move no goroutine. */
  lemma LoopBalanced(s: State, l: Step)
    requires Balanced(s) && Enabled(s, l)
    requires !(l.Launch? || l.Report? || l.Release? || l.Done? || l.Forget?)
    ensures Balanced(Next(s, l))
  {
  }

  lemma BalancedStep(s: State, l: Step)
    requires Balanced(s) && Enabled(s, l) && Tallied(s)
    ensures Balanced(Next(s, l))
  {
    match l
    case Launch =>
      assert TalliedAt(s, s.loop.job);
      LaunchBalanced(s);
    case Report(j) => ReportBalanced(s, j);
    case Release(j) => ReleaseBalanced(s, j);
    case Done(j) => DoneBalanced(s, j);
    case Forget(j) => ForgetBalanced(s, j);
    case _ => LoopBalanced(s, l);
  }

  lemma TalliedStep(s: State, l: Step, j: nat)
    requires Enabled(s, l) && TalliedAt(s, j)
    ensures TalliedAt(Next(s, l), j)
  {
  }

  lemma Steps(s: State, l: Step)
    requires Balanced(s) && Tallied(s) && Enabled(s, l)
    ensures Balanced(Next(s, l)) && Tallied(Next(s, l))
  {
    BalancedStep(s, l);
    forall j: nat ensures TalliedAt(Next(s, l), j) { TalliedStep(s, l, j); }
  }

  ghost predicate IsRun(s: State, run: seq<Step>)
    decreases |run|
  {
    run == [] || (Enabled(s, run[0]) && IsRun(Next(s, run[0]), run[1..]))
  }

  ghost function End(s: State, run: seq<Step>): State
    requires IsRun(s, run)
    decreases |run|
  {
    if run == [] then s else End(Next(s, run[0]), run[1..])
  }

  ghost predicate Leads(s: State, run: seq<Step>, e: State) { IsRun(s, run) && End(s, run) == e }

  lemma {:induction false} RunKeeps(s: State, run: seq<Step>)
    requires Balanced(s) && Tallied(s) && IsRun(s, run)
    ensures Balanced(End(s, run)) && Tallied(End(s, run))
    decreases |run|
  {
    if run != [] {
      Steps(s, run[0]);
      RunKeeps(Next(s, run[0]), run[1..]);
    }
  }

  lemma Reached(run: seq<Step>, s: State)
    requires Leads(Init, run, s)
    ensures Balanced(s) && Tallied(s)
  {
    assert Init.executing == {} && Launched(Init) == {} && !Init.loop.Returned?;
    assert forall j: nat :: TalliedAt(Init, j);
    RunKeeps(Init, run);
  }

  /** Over all interleavings: at most five jobs execute; the count RunningJobs reports is never below
      the number executing; no job is reported twice. */
  lemma BoundedConcurrency(run: seq<Step>, s: State, j: nat)
    requires Leads(Init, run, s)
    ensures |s.executing| <= 5 && |s.executing| <= s.runningCount
    ensures s.sem == |s.executing| + |s.reported| + One(s.loop.Acquired? || s.loop.Added? || s.loop.Counted?)
    ensures s.runningCount == s.sem + |s.released| + |s.done| - One(s.loop.Acquired? || s.loop.Added?)
    ensures s.reports[j] <= 1
  {
    Reached(run, s);
    assert TalliedAt(s, j);
  }

  /** When Run has returned nothing executes, and every job taken from the channel was reported
      exactly once. */
  lemma ReturnedMeansReported(run: seq<Step>, s: State, j: nat)
    requires Leads(Init, run, s) && s.loop.Returned?
    ensures s.executing == {}
    ensures s.reports[j] == One(j < s.taken)
  {
    Reached(run, s);
    assert TalliedAt(s, j);
  }

  lemma {:induction false} OneMore(s: State, run: seq<Step>, e: State, l: Step)
    requires Leads(s, run, e) && Enabled(e, l)
    ensures Leads(s, run + [l], Next(e, l))
    decreases |run|
  {
    if run == [] {
      assert (run + [l])[1..] == [];
    } else {
      assert (run + [l])[0] == run[0] && (run + [l])[1..] == run[1..] + [l];
      OneMore(Next(s, run[0]), run[1..], e, l);
    }
  }

  lemma Go(run: seq<Step>, s: State, l: Step) returns (run': seq<Step>, e: State)
    requires Leads(Init, run, s) && Enabled(s, l)
    ensures Leads(Init, run', e) && e == Next(s, l)
  {
    OneMore(Init, run, s, l);
    run', e := run + [l], Next(s, l);
  }

  /** One job from the channel to the release of its slot, with the decrement still to come. */
  lemma OneJobLingers(run0: seq<Step>, s0: State) returns (run: seq<Step>, s: State)
    requires Leads(Init, run0, s0)
    requires s0.loop.Selecting? && s0.queue == 0 && !s0.closed && s0.sem == 0
    ensures Leads(Init, run, s)
    ensures s.loop.Selecting? && s.queue == 0 && !s.closed && s.sem == 0
    ensures s.runningCount == s0.runningCount + 1 && s.executing == s0.executing - {s0.taken}
  {
    var j := s0.taken;
    run, s := Go(run0, s0, Push);
    run, s := Go(run, s, Receive);
    run, s := Go(run, s, Acquire);
    run, s := Go(run, s, Add);
    run, s := Go(run, s, Count);
    run, s := Go(run, s, Launch);
    run, s := Go(run, s, Report(j));
    run, s := Go(run, s, Release(j));
  }

  /** The counter has no upper bound, although execution has: the goroutine frees its slot before it
      decrements, so for every n some run reports n running jobs while none executes. */
  lemma {:induction false} CounterOverstates(n: nat) returns (run: seq<Step>, s: State)
    ensures Leads(Init, run, s) && s.runningCount == n && s.executing == {}
    ensures s.loop.Selecting? && s.queue == 0 && !s.closed && s.sem == 0
  {
    if n == 0 {
      run, s := [], Init;
    } else {
      run, s := CounterOverstates(n - 1);
      run, s := OneJobLingers(run, s);
    }
  }

  // ----- execute, and what it reports -----

  /** The reporter publishes on the results topic. */
  class Reporter {
    const topic: Log<ResultMessage>
    const workerID: WorkerId

    constructor (topic: Log<ResultMessage>, workerID: WorkerId)
      ensures this.topic == topic && this.workerID == workerID
    {
      this.topic, this.workerID := topic, workerID;
    }

    method ReportResult(job: JobMessage, success: bool, errMsg: string, d: Delivery) returns (r: Result<string, Error>)
      requires Deliverable(d, |topic.parts|)
      modifies topic
      ensures topic.parts == AfterWrite(old(topic.parts), Pipeline.ResultOf(job, workerID, success, errMsg), d)
      ensures topic.parts == AfterWrite(old(topic.parts),
        ResultMessage(job.job, workerID, success, errMsg, job.jobType, job.payload, job.attempts), d)
      ensures r == if d.Delivered? then Ok(if success then "COMPLETED" else "REPORTED") else Err(Unavailable)
    {
      var msg := ResultMessage(job.job, workerID, success, errMsg, job.jobType, job.payload, job.attempts);
      var ok := topic.Write(msg, d);
      if !ok { return Err(Unavailable); }
      r := Ok(if success then "COMPLETED" else "REPORTED");
    }

    /** Executor.execute: one ReportResult call on every path, a success exactly when a runner is
        registered for the type and returns no error. `failure` is the error of that runner. */
    method Execute(job: JobMessage, runners: set<string>, failure: Option<string>, d: Delivery) returns (success: bool)
      requires Deliverable(d, |topic.parts|)
      modifies topic
      ensures var ran := job.jobType in runners;
              var error := if !ran then "no runner registered for job type" else if failure.Some? then failure.value else "";
              && topic.parts == AfterWrite(old(topic.parts), Pipeline.ResultOf(job, workerID, ran && failure.None?, error), d)
              && topic.parts == AfterWrite(old(topic.parts),
                   ResultMessage(job.job, workerID, ran && failure.None?, error, job.jobType, job.payload, job.attempts), d)
              && success == (ran && failure.None? && d.Delivered?)
    {
      if job.jobType !in runners {
        Fail(job, "no runner registered for job type", d);
        return false;
      }
      if failure.Some? {
        Fail(job, failure.value, d);
        return false;
      }
      var r := ReportResult(job, true, "", d);
      success := r.Ok?;
    }

    method Fail(job: JobMessage, errMsg: string, d: Delivery)
      requires Deliverable(d, |topic.parts|)
      modifies topic
      ensures topic.parts == AfterWrite(old(topic.parts), Pipeline.ResultOf(job, workerID, false, errMsg), d)
    {
      var _ := ReportResult(job, false, errMsg, d);
    }
  }

  // ----- The bounded job channel -----

  datatype Sending = Skipped | Sent | Blocked | Cancelled

  class JobChannel {
    var items: seq<JobMessage>

    constructor ()
      ensures items == []
    {
      items := [];
    }

    /** The handler of the jobs topic: messages for other workers are passed over; one for this worker
        waits for room or for the context to end. When both are ready Go may choose either. */
    method Handle(msg: JobMessage, workerID: WorkerId, cancelled: bool, preferCancel: bool) returns (r: Sending)
      requires |items| <= 10
      modifies this
      ensures |items| <= 10
      ensures items == if r.Sent? then old(items) + [msg] else old(items)
      ensures r.Skipped? <==> msg.worker != workerID
      ensures r.Sent? ==> |old(items)| < 10
      ensures r.Cancelled? ==> cancelled
      ensures r.Blocked? <==> msg.worker == workerID && |old(items)| == 10 && !cancelled
    {
      if msg.worker != workerID { return Skipped; }
      if |items| < JOB_CHAN_CAPACITY && !(cancelled && preferCancel) {
        items := items + [msg];
        return Sent;
      }
      r := if cancelled then Sending.Cancelled else Blocked;
    }
  }
}
