/** The heartbeat monitor: what one uninterrupted sweep clears, and what stays cleared. */
module Sweep {
  import opened Types
  import opened Pipeline
  import opened Lifecycle
  import opened Dispatching
  import Jobs
  import Workers
  import Outcomes

  /** Both statements of HearbeatMonitor.tick, with nothing in between. */
  ghost function Swept(s: State): State {
    HealthNext(HealthNext(s, MarkUnhealthy), RequeueStale)
  }

  /** After an uninterrupted sweep no RUNNING job belongs to a worker that was UNHEALTHY, stale, or, unless
      OFFLINE, without a heartbeat; and the sweep took nothing from any other worker. */
  lemma SweepIsExact(s: State, j: JobId)
    requires Inv(s) && j in s.jobs && s.jobs[j].status.Running?
    ensures j in Swept(s).jobs && s.jobs[j].worker.Some? && s.jobs[j].worker.value in s.workers
    ensures var lost := Workers.Lost(s.workers[s.jobs[j].worker.value], s.now);
            Swept(s).jobs[j] == if lost then s.jobs[j].(status := Queued, worker := None) else s.jobs[j]
    ensures var w := s.workers[s.jobs[j].worker.value];
            Swept(s).jobs[j] != s.jobs[j] <==>
              w.status == Unhealthy || (w.heartbeat.None? && w.status != Offline)
              || (w.heartbeat.Some? && w.heartbeat.value < s.now - 15_000_000)
  {
    assert Outcomes.RowOk(s.jobs[j], s.workers);
    var w := s.jobs[j].worker.value;
    var s' := HealthNext(s, MarkUnhealthy);
    assert s'.workers[w] == if Workers.Fading(s.workers[w], s.now) then s.workers[w].(status := Unhealthy) else s.workers[w];
    assert Workers.Abandoned(s'.workers[w], s.now) <==> Workers.Lost(s.workers[w], s.now);
  }

  lemma SweepClears(s: State)
    requires Inv(s)
    ensures forall j :: j in Swept(s).jobs && Swept(s).jobs[j].status.Running? ==>
      Swept(s).jobs[j].worker.Some? && Swept(s).jobs[j].worker.value in Swept(s).workers
      && !Workers.Lost(Swept(s).workers[Swept(s).jobs[j].worker.value], s.now)
  {
    forall j | j in Swept(s).jobs && Swept(s).jobs[j].status.Running?
      ensures Swept(s).jobs[j].worker.Some? && Swept(s).jobs[j].worker.value in Swept(s).workers
      ensures !Workers.Lost(Swept(s).workers[Swept(s).jobs[j].worker.value], s.now)
    {
      SweepIsExact(s, j);
    }
  }

  /** Worker `w` is lost, holds no RUNNING job, and no open FetchPending is about to give it one. */
  ghost predicate Cleared(s: State, w: WorkerId) {
    && w in s.workers && Workers.Abandoned(s.workers[w], s.now)
    && (forall j :: j in s.jobs && s.jobs[j].status.Running? ==> s.jobs[j].worker != Some(w))
    && (forall d :: d in s.dispatchers && s.dispatchers[d].Claiming? ==> s.dispatchers[d].worker != w)
  }

  /** A sweep clears every lost worker that no open FetchPending is about to serve. */
  lemma SweepLeavesCleared(s: State, w: WorkerId)
    requires Inv(s) && w in s.workers && Workers.Lost(s.workers[w], s.now)
    requires forall d :: d in s.dispatchers && s.dispatchers[d].Claiming? ==> s.dispatchers[d].worker != w
    ensures Cleared(Swept(s), w)
  {
    forall j | j in Swept(s).jobs && Swept(s).jobs[j].status.Running? ensures Swept(s).jobs[j].worker != Some(w) {
      SweepIsExact(s, j);
    }
  }

  lemma DispatchKeepsCleared(s: State, d: DispatcherId, l: DispatchStep, w: WorkerId)
    requires Cleared(s, w) && DispatchEnabled(s, d, l) && Prompt(s, Dispatch(d, l), w)
    ensures Cleared(DispatchNext(s, d, l), w)
  {
  }

  lemma HealthKeepsCleared(s: State, l: HealthStep, w: WorkerId)
    requires Cleared(s, w) && HealthEnabled(s, l) && Prompt(s, Health(l), w)
    ensures Cleared(HealthNext(s, l), w)
  {
  }

  lemma CollectKeepsCleared(s: State, l: CollectStep, w: WorkerId)
    requires Cleared(s, w) && CollectEnabled(s, l)
    ensures Cleared(CollectNext(s, l), w)
  {
  }

  lemma ApiKeepsCleared(s: State, l: ApiStep, w: WorkerId)
    requires Cleared(s, w) && ApiEnabled(s, l)
    ensures Cleared(ApiNext(s, l), w)
  {
  }

  lemma StepKeepsCleared(s: State, l: Label, w: WorkerId)
    requires Cleared(s, w) && Enabled(s, l) && Prompt(s, l, w)
    ensures Cleared(Next(s, l), w)
  {
    match l
    case Api(a) => ApiKeepsCleared(s, a, w);
    case Dispatch(d, a) => DispatchKeepsCleared(s, d, a, w);
    case Read(v, a) => assert Cleared(ReadNext(s, v, a), w);
    case Work(v, a) => assert Cleared(WorkNext(s, v, a), w);
    case Health(a) => HealthKeepsCleared(s, a, w);
    case Collect(a) => CollectKeepsCleared(s, a, w);
    case Bury(a) => assert Cleared(BuryNext(s, a), w);
  }

  /** With dispatcher ticks atomic, a cleared worker holds no RUNNING job in any later state until its
      next heartbeat is consumed. */
  lemma {:induction false} ClearedStaysCleared(s: State, run: seq<Label>, w: WorkerId)
    requires Cleared(s, w) && IsRun(s, run) && PromptRun(s, run, w)
    ensures Cleared(End(s, run), w)
    decreases |run|
  {
    if run != [] {
      StepKeepsCleared(s, run[0], w);
      ClearedStaysCleared(Next(s, run[0]), run[1..], w);
    }
  }

  /** Without that atomicity the property fails: a FetchPending still open for the worker hands it jobs
      after the sweep, exactly when it has locked any. */
  lemma OpenClaimRefillsWorker(s: State, d: DispatcherId, order: seq<JobId>)
    requires Inv(s) && DispatchEnabled(s, d, Commit(order))
    requires forall j :: j in s.jobs && s.jobs[j].status.Running? ==> s.jobs[j].worker != Some(PhaseOf(s, d).worker)
    ensures var s' := DispatchNext(s, d, Commit(order));
            (exists j :: j in s'.jobs && s'.jobs[j].status.Running? && s'.jobs[j].worker == Some(PhaseOf(s, d).worker))
            <==> PhaseOf(s, d).ids != {}
  {
    var s' := DispatchNext(s, d, Commit(order));
    if j :| j in PhaseOf(s, d).ids {
      assert j in s'.jobs && s'.jobs[j].worker == Some(PhaseOf(s, d).worker);
    }
  }

  class HeartbeatMonitor {
    const jobs: Jobs.JobsTable
    const workers: Workers.WorkersTable

    constructor (jobs: Jobs.JobsTable, workers: Workers.WorkersTable)
      ensures this.jobs == jobs && this.workers == workers
    {
      this.jobs, this.workers := jobs, workers;
    }

    /** One tick. If marking reports an error nothing is requeued, even if it has landed; if both
        statements run the tables are those of an uninterrupted sweep. In every case what landed is a run. */
    method Tick(now: int, mark: Fate, requeue: Fate, ghost s: State)
      returns (r: Result<(nat, nat), Error>, ghost run: seq<Label>, ghost e: State)
      requires s.jobs == jobs.rows && s.workers == workers.rows && s.now == now
      modifies jobs, workers
      ensures r.Ok? <==> mark.Runs? && requeue.Runs?
      ensures r.Ok? ==> jobs.rows == Swept(s).jobs && workers.rows == Swept(s).workers
      ensures workers.rows == if mark.Fails? && !mark.landed then old(workers.rows) else Workers.AfterMarkUnhealthy(old(workers.rows), now)
      ensures jobs.rows == if mark.Fails? || (requeue.Fails? && !requeue.landed) then old(jobs.rows)
                           else Jobs.AfterRequeue(old(jobs.rows), workers.rows, now)
      ensures Leads(s, run, e) && e.jobs == jobs.rows && e.workers == workers.rows
    {
      run, e := [], s;
      var unhealthy, requeued := 0, 0;
      if mark.Runs? || mark.landed {
        unhealthy := workers.MarkUnhealthy(now);
        run, e := Go(s, run, e, Health(MarkUnhealthy));
      }
      if mark.Fails? { return Err(Unavailable), run, e; }
      if requeue.Runs? || requeue.landed {
        requeued := jobs.RequeueStale(workers, now);
        run, e := Go(s, run, e, Health(RequeueStale));
      }
      if requeue.Fails? { return Err(Unavailable), run, e; }
      r := Ok((unhealthy, requeued));
    }
  }
}
