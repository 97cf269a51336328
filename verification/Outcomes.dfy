/** What every reachable state keeps about the rows of the jobs table: their shape, how many attempts
    they have had, and that no outcome is without its message. */
module Outcomes {
  import opened Types
  import opened Broker
  import opened Pipeline
  import Jobs
  import Workers
  import Records
  import Messages

  // ----- Rows -----

  predicate RowOk(j: Job, workers: Workers.Table) {
    && !j.status.Failed?
    && (j.worker.Some? ==> j.worker.value in workers)
    && (j.status.Queued? ==> j.worker.None?)
    && (j.status.Running? ==> j.worker.Some? && j.attempts >= 1)
    && (j.status.Retrying? ==> 1 <= j.attempts < MAX_ATTEMPTS)
  }

  /** `extra` counts the requeues and rollbacks of the job: only those can push a row past three. */
  predicate AttemptsOk(j: Job, extra: nat) {
    j.attempts <= MAX_ATTEMPTS + extra && (j.status.Queued? ==> j.attempts < MAX_ATTEMPTS + extra)
  }

  ghost predicate Rows(jobs: Jobs.Table, workers: Workers.Table) {
    forall j :: j in jobs ==> RowOk(jobs[j], workers)
  }

  ghost predicate Attempts(jobs: Jobs.Table, requeues: multiset<JobId>, rollbacks: multiset<JobId>) {
    forall j :: j in jobs ==> AttemptsOk(jobs[j], requeues[j] + rollbacks[j])
  }

  ghost predicate RowsOk(s: State) {
    Rows(s.jobs, s.workers) && Attempts(s.jobs, s.book.requeues, s.book.rollbacks)
  }

  lemma ApiKeepsRows(s: State, l: ApiStep)
    requires RowsOk(s) && ApiEnabled(s, l)
    ensures RowsOk(ApiNext(s, l))
  {
  }

  lemma ClaimKeepsRows(jobs: Jobs.Table, workers: Workers.Table, ids: set<JobId>, w: WorkerId, requeues: multiset<JobId>, rollbacks: multiset<JobId>)
    requires Rows(jobs, workers) && Attempts(jobs, requeues, rollbacks) && w in workers
    requires forall j :: j in ids ==> j in jobs && jobs[j].Pending()
    ensures Rows(Jobs.Claim(jobs, ids, w), workers)
    ensures Attempts(Jobs.Claim(jobs, ids, w), requeues, rollbacks)
  {
  }

  lemma RollbackKeepsRows(jobs: Jobs.Table, workers: Workers.Table, j: JobId, requeues: multiset<JobId>, rollbacks: multiset<JobId>)
    requires Rows(jobs, workers) && Attempts(jobs, requeues, rollbacks)
    ensures Rows(Jobs.AfterRollback(jobs, j), workers)
    ensures j in jobs && jobs[j].status.Running? ==>
      Attempts(Jobs.AfterRollback(jobs, j), requeues, rollbacks + multiset{j})
  {
  }

  lemma DispatchKeepsRows(s: State, d: DispatcherId, l: DispatchStep)
    requires RowsOk(s) && Records.LocksOk(s) && DispatchEnabled(s, d, l)
    ensures RowsOk(DispatchNext(s, d, l))
  {
    var ph := PhaseOf(s, d);
    match l
    case Commit(order) =>
      assert Records.ClaimOk(ph, s.jobs, s.workers);
      ClaimKeepsRows(s.jobs, s.workers, ph.ids, ph.worker, s.book.requeues, s.book.rollbacks);
    case Rollback => RollbackKeepsRows(s.jobs, s.workers, ph.batch[ph.next].job, s.book.requeues, s.book.rollbacks);
    case _ =>
  }

  lemma RequeueKeepsRows(jobs: Jobs.Table, workers: Workers.Table, now: int, requeues: multiset<JobId>, rollbacks: multiset<JobId>)
    requires Rows(jobs, workers) && Attempts(jobs, requeues, rollbacks)
    ensures Rows(Jobs.AfterRequeue(jobs, workers, now), workers)
    ensures Attempts(Jobs.AfterRequeue(jobs, workers, now), requeues + multiset(Jobs.StaleRunning(jobs, workers, now)), rollbacks)
  {
    var ids := Jobs.StaleRunning(jobs, workers, now);
    forall j | j in jobs ensures multiset(ids)[j] == if j in ids then 1 else 0 {
    }
  }

  lemma HealthKeepsRows(s: State, l: HealthStep)
    requires RowsOk(s) && HealthEnabled(s, l)
    ensures RowsOk(HealthNext(s, l))
  {
    if l.RequeueStale? {
      RequeueKeepsRows(s.jobs, s.workers, s.now, s.book.requeues, s.book.rollbacks);
    }
  }

  lemma CollectKeepsRows(s: State, l: CollectStep)
    requires RowsOk(s) && Messages.SentOk(s) && Messages.IssuesGood(s) && CollectEnabled(s, l)
    ensures RowsOk(CollectNext(s, l))
  {
    if l.Handle? {
      var r := s.resultsTopic[l.partition][s.collector.pos[l.partition]];
      ResultsNameJobs(s, l.partition, s.collector.pos[l.partition]);
    }
  }

  /** Every published result names an existing job and one of its attempts, and carries its content:
      MarkCompleted and MarkFailed never report ErrNotFound to HandleResult. */
  lemma ResultsNameJobs(s: State, p: nat, o: nat)
    requires Messages.SentOk(s) && Messages.IssuesGood(s) && Has(s.resultsTopic, p, o)
    ensures var r := s.resultsTopic[p][o];
            && r.job in s.jobs && 1 <= r.attempts <= s.jobs[r.job].attempts
            && r.jobType == s.jobs[r.job].jobType && r.payload == s.jobs[r.job].payload && r.worker in s.workers
  {
    var r := s.resultsTopic[p][o];
    assert Messages.Sourced(s.book.issued, r);
    assert Messages.IssueFits((r.job, r.attempts), s.book.issued[(r.job, r.attempts)], s.jobs, s.workers);
  }

  lemma KeepsRows(s: State, l: Label)
    requires RowsOk(s) && Records.LocksOk(s) && Messages.SentOk(s) && Messages.IssuesGood(s) && Enabled(s, l)
    ensures RowsOk(Next(s, l))
  {
    match l
    case Api(a) => ApiKeepsRows(s, a);
    case Dispatch(d, a) => DispatchKeepsRows(s, d, a);
    case Read(w, a) => assert RowsOk(ReadNext(s, w, a));
    case Work(w, a) => assert RowsOk(WorkNext(s, w, a));
    case Health(a) => HealthKeepsRows(s, a);
    case Collect(a) => CollectKeepsRows(s, a);
    case Bury(a) => assert RowsOk(BuryNext(s, a));
  }

  // ----- Outcomes have their messages -----

  predicate Reported(t: Topic<ResultMessage>, p: nat, o: nat, j: JobId, success: bool) {
    Has(t, p, o) && t[p][o].job == j && t[p][o].success == success
  }

  /** The collector still has to finish handling a failure of the job. */
  predicate Unfinished(t: Topic<ResultMessage>, g: Group, p: nat, o: nat, j: JobId) {
    Reported(t, p, o, j, false) && p < |g.pos| && g.pos[p] <= o
  }

  /** A COMPLETED job has a success in the results topic. A DEAD job that was never cancelled has used
      its attempts, and its dead letter is published or still owed. */
  ghost predicate OutcomeOk(j: JobId, job: Job, cancelled: bool, results: Topic<ResultMessage>, g: Group, dead: Topic<ResultMessage>) {
    && (job.status.Completed? ==> exists p: nat, o: nat :: Reported(results, p, o, j, true))
    && (job.status.Dead? && !cancelled ==>
          && job.attempts >= MAX_ATTEMPTS
          && ((exists q: nat, o: nat :: Reported(dead, q, o, j, false))
              || (exists p: nat, o: nat :: Unfinished(results, g, p, o, j))))
  }

  ghost predicate JobOutcomeOk(s: State, j: JobId) {
    j in s.jobs ==> OutcomeOk(j, s.jobs[j], j in s.book.cancelled, s.resultsTopic, s.collector, s.deadTopic)
  }

  ghost predicate OutcomesOk(s: State) { forall j :: JobOutcomeOk(s, j) }

  lemma OutcomeGrows(j: JobId, job: Job, job': Job, cancelled: bool, cancelled': bool,
                     results: Topic<ResultMessage>, g: Group, dead: Topic<ResultMessage>,
                     results': Topic<ResultMessage>, g': Group, dead': Topic<ResultMessage>)
    requires OutcomeOk(j, job, cancelled, results, g, dead)
    requires job' == job || !job'.Terminal() || cancelled'
    requires job'.status.Completed? ==> job.status.Completed?
    requires cancelled ==> cancelled'
    requires forall p: nat, o: nat, ok :: Reported(results, p, o, j, ok) ==> Reported(results', p, o, j, ok)
    requires forall q: nat, o: nat :: Reported(dead, q, o, j, false) ==> Reported(dead', q, o, j, false)
    requires job'.status.Dead? && !cancelled' ==>
      forall p: nat, o: nat :: Unfinished(results, g, p, o, j) ==>
        Unfinished(results', g', p, o, j) || (exists q: nat, k: nat :: Reported(dead', q, k, j, false))
    ensures OutcomeOk(j, job', cancelled', results', g', dead')
  {
  }

  lemma ApiKeepsOutcome(s: State, l: ApiStep, j: JobId)
    requires JobOutcomeOk(s, j) && ApiEnabled(s, l)
    ensures JobOutcomeOk(ApiNext(s, l), j)
  {
  }

  lemma DispatchKeepsOutcome(s: State, d: DispatcherId, l: DispatchStep, j: JobId)
    requires JobOutcomeOk(s, j) && DispatchEnabled(s, d, l)
    ensures JobOutcomeOk(DispatchNext(s, d, l), j)
  {
  }

  lemma WorkKeepsOutcome(s: State, w: WorkerId, l: WorkStep, j: JobId)
    requires JobOutcomeOk(s, j) && WorkEnabled(s, w, l)
    ensures JobOutcomeOk(WorkNext(s, w, l), j)
  {
    if j in s.jobs {
      var s' := WorkNext(s, w, l);
      OutcomeGrows(j, s.jobs[j], s'.jobs[j], j in s.book.cancelled, j in s'.book.cancelled,
                   s.resultsTopic, s.collector, s.deadTopic, s'.resultsTopic, s'.collector, s'.deadTopic);
    }
  }

  lemma HealthKeepsOutcome(s: State, l: HealthStep, j: JobId)
    requires JobOutcomeOk(s, j) && HealthEnabled(s, l)
    ensures JobOutcomeOk(HealthNext(s, l), j)
  {
  }

  lemma HandleKeepsOutcome(s: State, p: nat, j: JobId)
    requires JobOutcomeOk(s, j) && Records.Positions(s) && CollectEnabled(s, Handle(p))
    ensures JobOutcomeOk(CollectNext(s, Handle(p)), j)
  {
    var o, s' := s.collector.pos[p], CollectNext(s, Handle(p));
    var r := s.resultsTopic[p][o];
    if j in s.jobs && j == r.job {
      assert Reported(s'.resultsTopic, p, o, j, r.success);
      assert s'.jobs[j].status.Dead? ==> Unfinished(s'.resultsTopic, s'.collector, p, o, j);
    } else if j in s.jobs {
      OutcomeGrows(j, s.jobs[j], s'.jobs[j], j in s.book.cancelled, j in s'.book.cancelled,
                   s.resultsTopic, s.collector, s.deadTopic, s'.resultsTopic, s'.collector, s'.deadTopic);
    }
  }

  lemma CollectKeepsOutcome(s: State, l: CollectStep, j: JobId)
    requires JobOutcomeOk(s, j) && Records.Positions(s) && CollectEnabled(s, l)
    ensures JobOutcomeOk(CollectNext(s, l), j)
  {
    if l.Handle? {
      HandleKeepsOutcome(s, l.partition, j);
    } else if j in s.jobs {
      var s' := CollectNext(s, l);
      if l.PublishDead? {
        assert Reported(s'.deadTopic, l.target, |s.deadTopic[l.target]|, s.resultsTopic[l.partition][s.collector.pos[l.partition]].job, false);
      }
      OutcomeGrows(j, s.jobs[j], s'.jobs[j], j in s.book.cancelled, j in s'.book.cancelled,
                   s.resultsTopic, s.collector, s.deadTopic, s'.resultsTopic, s'.collector, s'.deadTopic);
    }
  }

  lemma KeepsOutcome(s: State, l: Label, j: JobId)
    requires JobOutcomeOk(s, j) && Records.Positions(s) && Enabled(s, l)
    ensures JobOutcomeOk(Next(s, l), j)
  {
    match l
    case Api(a) => ApiKeepsOutcome(s, a, j);
    case Dispatch(d, a) => DispatchKeepsOutcome(s, d, a, j);
    case Read(w, a) => assert JobOutcomeOk(ReadNext(s, w, a), j);
    case Work(w, a) => WorkKeepsOutcome(s, w, a, j);
    case Health(a) => HealthKeepsOutcome(s, a, j);
    case Collect(a) => CollectKeepsOutcome(s, a, j);
    case Bury(a) => assert JobOutcomeOk(BuryNext(s, a), j);
  }

  // ----- Dead letters -----

  /** Every dead-letter message the consumer has handled, in particular every one below its committed
      offset, was inserted as a row. */
  ghost predicate LettersOk(g: Group, t: Topic<ResultMessage>, inserted: map<(nat, nat), Letter>) {
    && inserted.Keys == g.seen
    && (forall k :: k in inserted ==> Has(t, k.0, k.1) && inserted[k] == LetterOf(t[k.0][k.1]))
  }

  ghost predicate LettersGood(s: State) { LettersOk(s.undertaker, s.deadTopic, s.book.inserted) }

  lemma CollectKeepsLetters(s: State, l: CollectStep)
    requires LettersGood(s) && CollectEnabled(s, l)
    ensures LettersGood(CollectNext(s, l))
  {
  }

  lemma BuryKeepsLetters(s: State, l: BuryStep)
    requires LettersGood(s) && BuryEnabled(s, l)
    ensures LettersGood(BuryNext(s, l))
  {
  }

  lemma KeepsLetters(s: State, l: Label)
    requires LettersGood(s) && Enabled(s, l)
    ensures LettersGood(Next(s, l))
  {
    match l
    case Api(a) => assert LettersGood(ApiNext(s, a));
    case Dispatch(d, a) => assert LettersGood(DispatchNext(s, d, a));
    case Read(w, a) => assert LettersGood(ReadNext(s, w, a));
    case Work(w, a) => assert LettersGood(WorkNext(s, w, a));
    case Health(a) => assert LettersGood(HealthNext(s, a));
    case Collect(a) => CollectKeepsLetters(s, a);
    case Bury(a) => BuryKeepsLetters(s, a);
  }
}
