/** Counting along a run: how often a job is picked, and how often it became pending. */
module Picking {
  import opened Types
  import opened Pipeline
  import opened Lifecycle
  import Jobs
  import Outcomes
  import Records

  /** The step commits a FetchPending that picked the job. */
  ghost predicate PickedBy(s: State, l: Label, j: JobId)
    requires Enabled(s, l)
  {
    l.Dispatch? && l.dispatch.Commit? && j in PhaseOf(s, l.d).ids
  }

  ghost function Picks(s: State, run: seq<Label>, j: JobId): nat
    requires IsRun(s, run)
    decreases |run|
  {
    if run == [] then 0 else One(PickedBy(s, run[0], j)) + Picks(Next(s, run[0]), run[1..], j)
  }

  function Attempts(s: State, j: JobId): nat { if j in s.jobs then s.jobs[j].attempts else 0 }

  lemma ApiKeepsAttempts(s: State, l: ApiStep, j: JobId)
    requires ApiEnabled(s, l)
    ensures Attempts(ApiNext(s, l), j) == Attempts(s, j)
  {
  }

  lemma DispatchCountsAttempts(s: State, d: DispatcherId, l: DispatchStep, j: JobId)
    requires DispatchEnabled(s, d, l)
    ensures Attempts(DispatchNext(s, d, l), j) == Attempts(s, j) + One(PickedBy(s, Dispatch(d, l), j))
  {
  }

  lemma HealthKeepsAttempts(s: State, l: HealthStep, j: JobId)
    requires HealthEnabled(s, l)
    ensures Attempts(HealthNext(s, l), j) == Attempts(s, j)
  {
  }

  lemma CollectKeepsAttempts(s: State, l: CollectStep, j: JobId)
    requires CollectEnabled(s, l)
    ensures Attempts(CollectNext(s, l), j) == Attempts(s, j)
  {
  }

  lemma StepCountsAttempts(s: State, l: Label, j: JobId)
    requires Enabled(s, l)
    ensures Attempts(Next(s, l), j) == Attempts(s, j) + One(PickedBy(s, l, j))
  {
    match l
    case Api(a) => ApiKeepsAttempts(s, a, j);
    case Dispatch(d, a) => DispatchCountsAttempts(s, d, a, j);
    case Read(w, a) => assert ReadNext(s, w, a).jobs == s.jobs;
    case Work(w, a) => assert WorkNext(s, w, a).jobs == s.jobs;
    case Health(a) => HealthKeepsAttempts(s, a, j);
    case Collect(a) => CollectKeepsAttempts(s, a, j);
    case Bury(a) => assert BuryNext(s, a).jobs == s.jobs;
  }

  /** `attempts` counts the picks of the run. */
  lemma {:induction false} AttemptsCountPicks(s: State, run: seq<Label>, j: JobId)
    requires IsRun(s, run)
    ensures Attempts(End(s, run), j) == Attempts(s, j) + Picks(s, run, j)
    decreases |run|
  {
    if run != [] {
      StepCountsAttempts(s, run[0], j);
      AttemptsCountPicks(Next(s, run[0]), run[1..], j);
    }
  }

  predicate Pending(s: State, j: JobId) { j in s.jobs && s.jobs[j].Pending() }

  /** How often the job became QUEUED or RETRYING out of another state. */
  ghost function Episodes(s: State, run: seq<Label>, j: JobId): nat
    requires IsRun(s, run)
    decreases |run|
  {
    if run == [] then 0
    else
      var s' := Next(s, run[0]);
      One(!Pending(s, j) && Pending(s', j)) + Episodes(s', run[1..], j)
  }

  lemma PickEndsEpisode(s: State, l: Label, j: JobId)
    requires Records.LocksOk(s) && Enabled(s, l) && PickedBy(s, l, j)
    ensures Pending(s, j) && !Pending(Next(s, l), j)
  {
    assert Records.ClaimOk(PhaseOf(s, l.d), s.jobs, s.workers);
    assert Next(s, l) == DispatchNext(s, l.d, l.dispatch);
  }

  /** However many dispatchers run, each pending episode is claimed at most once: picks do not outnumber
      the episodes that have ended. */
  lemma {:induction false} EpisodesAreClaimedOnce(s: State, run: seq<Label>, j: JobId)
    requires Inv(s) && IsRun(s, run)
    ensures Picks(s, run, j) + One(Pending(End(s, run), j)) <= Episodes(s, run, j) + One(Pending(s, j))
    decreases |run|
  {
    if run != [] {
      KeepsInv(s, run[0]);
      if PickedBy(s, run[0], j) { PickEndsEpisode(s, run[0], j); }
      EpisodesAreClaimedOnce(Next(s, run[0]), run[1..], j);
    }
  }

  // ----- Exactly when three attempts are exceeded -----

  /** The job waits for an attempt beyond the limit. */
  predicate Exhausted(s: State, j: JobId) {
    j in s.jobs && s.jobs[j].status.Queued? && s.jobs[j].attempts >= MAX_ATTEMPTS
  }

  ghost predicate NeverOverpicked(s: State, run: seq<Label>, j: JobId)
    requires IsRun(s, run)
    decreases |run|
  {
    run == []
    || (!(PickedBy(s, run[0], j) && Exhausted(s, j)) && NeverOverpicked(Next(s, run[0]), run[1..], j))
  }

  /** A pick exceeds the limit if and only if it picks an exhausted job: RETRYING jobs have attempts left. */
  lemma PickExceeds(s: State, l: Label, j: JobId)
    requires Inv(s) && Enabled(s, l) && PickedBy(s, l, j)
    ensures Attempts(Next(s, l), j) > MAX_ATTEMPTS <==> Exhausted(s, j)
  {
    StepCountsAttempts(s, l, j);
    PickEndsEpisode(s, l, j);
    assert Outcomes.RowOk(s.jobs[j], s.workers);
    assert Outcomes.AttemptsOk(s.jobs[j], s.book.requeues[j] + s.book.rollbacks[j]);
  }

  /** A job stays within three attempts if and only if it is never picked while QUEUED with three used up. */
  lemma {:induction false} WithinLimitExactly(s: State, run: seq<Label>, j: JobId)
    requires Inv(s) && IsRun(s, run) && Attempts(s, j) <= MAX_ATTEMPTS
    ensures Attempts(End(s, run), j) <= MAX_ATTEMPTS <==> NeverOverpicked(s, run, j)
    decreases |run|
  {
    if run != [] {
      var s' := Next(s, run[0]);
      KeepsInv(s, run[0]);
      StepCountsAttempts(s, run[0], j);
      AttemptsCountPicks(s', run[1..], j);
      if PickedBy(s, run[0], j) { PickExceeds(s, run[0], j); }
      if Attempts(s', j) <= MAX_ATTEMPTS { WithinLimitExactly(s', run[1..], j); }
    }
  }

  /** The step takes a RUNNING job with its attempts used up back to the queue. */
  ghost predicate TakesBack(s: State, l: Label, j: JobId)
    requires Enabled(s, l)
  {
    && j in s.jobs && s.jobs[j].status.Running? && s.jobs[j].attempts >= MAX_ATTEMPTS
    && ((l.Health? && l.health.RequeueStale? && j in Jobs.StaleRunning(s.jobs, s.workers, s.now))
        || (l.Dispatch? && l.dispatch.Rollback? && PhaseOf(s, l.d).batch[PhaseOf(s, l.d).next].job == j))
  }

  lemma DispatchExhausts(s: State, d: DispatcherId, l: DispatchStep, j: JobId)
    requires DispatchEnabled(s, d, l) && !Exhausted(s, j)
    ensures Exhausted(DispatchNext(s, d, l), j) <==> TakesBack(s, Dispatch(d, l), j)
  {
  }

  lemma HealthExhausts(s: State, l: HealthStep, j: JobId)
    requires HealthEnabled(s, l) && !Exhausted(s, j)
    ensures Exhausted(HealthNext(s, l), j) <==> TakesBack(s, Health(l), j)
  {
  }

  lemma CollectExhausts(s: State, l: CollectStep, j: JobId)
    requires CollectEnabled(s, l) && !Exhausted(s, j)
    ensures !Exhausted(CollectNext(s, l), j)
  {
  }

  /** Exactly how a job becomes exhausted: RequeueStale or a rollback takes it back, neither of which looks
      at `attempts`. */
  lemma ExhaustedExactly(s: State, l: Label, j: JobId)
    requires Enabled(s, l) && !Exhausted(s, j)
    ensures Exhausted(Next(s, l), j) <==> TakesBack(s, l, j)
  {
    match l
    case Api(a) => assert !Exhausted(ApiNext(s, a), j);
    case Dispatch(d, a) => DispatchExhausts(s, d, a, j);
    case Read(w, a) => assert ReadNext(s, w, a).jobs == s.jobs;
    case Work(w, a) => assert WorkNext(s, w, a).jobs == s.jobs;
    case Health(a) => HealthExhausts(s, a, j);
    case Collect(a) => CollectExhausts(s, a, j);
    case Bury(a) => assert BuryNext(s, a).jobs == s.jobs;
  }
}
