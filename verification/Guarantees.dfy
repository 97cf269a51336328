/** What the invariant gives, said of every run from an initial state. */
module Guarantees {
  import opened Types
  import opened Broker
  import opened Pipeline
  import opened Lifecycle
  import Jobs
  import Workers
  import Records
  import Messages
  import Outcomes
  import Tokens
  import Progress
  import Picking

  ghost predicate Reaches(s0: State, run: seq<Label>, s: State) {
    Init(s0) && IsRun(s0, run) && s == End(s0, run)
  }

  lemma Reached(s0: State, run: seq<Label>, s: State)
    requires Reaches(s0, run, s)
    ensures Inv(s)
  {
    InitInv(s0);
    RunKeepsInv(s0, run);
  }

  /** An undisturbed job has at most one live message among dispatchers, the jobs log, workers and
      the results log. It has one only while its row is RUNNING that attempt for that worker. */
  lemma ExclusiveToken(s0: State, run: seq<Label>, s: State, a: Place, b: Place, j: JobId)
    requires Reaches(s0, run, s)
    requires j !in s.book.disturbed && At(s, a, j)
    ensures At(s, b, j) ==> a == b
    ensures j in s.jobs && s.jobs[j].status.Running?
    ensures s.jobs[j].worker == Some(Tokens.WorkerAt(s, a, j)) && s.jobs[j].attempts == Tokens.AttemptAt(s, a, j)
  {
    Reached(s0, run, s);
    assert Tokens.TokenOk(s, a, j) && Tokens.TokenOk(s, b, j);
    Progress.HolderIsWorker(s, a, j);
  }

  predicate SameRow(s: State, s': State, j: JobId) {
    j in s.jobs && j in s'.jobs && s'.jobs[j] == s.jobs[j]
  }

  predicate Finished(s: State, j: JobId) { j in s.jobs && s.jobs[j].Terminal() }

  /** The collector handles a result that disagrees with the terminal row: a success of a job that is not
      COMPLETED, or a failure of one that is not DEAD with its attempts used up. */
  ghost predicate Revives(s: State, l: Label, j: JobId)
    requires Enabled(s, l)
  {
    && j in s.jobs && l.Collect? && l.collect.Handle?
    && var r := s.resultsTopic[l.collect.partition][s.collector.pos[l.collect.partition]];
    && r.job == j
    && if r.success then !s.jobs[j].status.Completed? else !(s.jobs[j].status.Dead? && s.jobs[j].attempts >= MAX_ATTEMPTS)
  }

  lemma ApiKeepsFinished(s: State, l: ApiStep, j: JobId)
    requires ApiEnabled(s, l) && Finished(s, j)
    ensures SameRow(s, ApiNext(s, l), j)
  {
  }

  lemma DispatchKeepsFinished(s: State, d: DispatcherId, l: DispatchStep, j: JobId)
    requires Records.LocksOk(s) && DispatchEnabled(s, d, l) && Finished(s, j)
    ensures SameRow(s, DispatchNext(s, d, l), j)
  {
    if PhaseOf(s, d).Claiming? { assert Records.ClaimOk(PhaseOf(s, d), s.jobs, s.workers); }
  }

  lemma HealthKeepsFinished(s: State, l: HealthStep, j: JobId)
    requires HealthEnabled(s, l) && Finished(s, j)
    ensures SameRow(s, HealthNext(s, l), j)
  {
  }

  lemma CollectRevives(s: State, l: CollectStep, j: JobId)
    requires CollectEnabled(s, l) && Finished(s, j)
    ensures SameRow(s, CollectNext(s, l), j) <==> !Revives(s, Collect(l), j)
  {
  }

  /** Exactly when a terminal row changes, for every job and every step: COMPLETED and DEAD are left only
      by handling a result that disagrees with them, and then always. */
  lemma TerminalChangesExactly(s: State, l: Label, j: JobId)
    requires Records.LocksOk(s) && Enabled(s, l) && Finished(s, j)
    ensures j in Next(s, l).jobs
    ensures Next(s, l).jobs[j] != s.jobs[j] <==> Revives(s, l, j)
  {
    match l
    case Api(a) => ApiKeepsFinished(s, a, j);
    case Dispatch(d, a) => DispatchKeepsFinished(s, d, a, j);
    case Read(w, a) => assert SameRow(s, ReadNext(s, w, a), j);
    case Work(w, a) => assert SameRow(s, WorkNext(s, w, a), j);
    case Health(a) => HealthKeepsFinished(s, a, j);
    case Collect(a) => CollectSameKeys(s, a, j); CollectRevives(s, a, j);
    case Bury(a) => assert SameRow(s, BuryNext(s, a), j);
  }

  lemma CollectSameKeys(s: State, l: CollectStep, j: JobId)
    requires CollectEnabled(s, l) && j in s.jobs
    ensures j in CollectNext(s, l).jobs
  {
  }

  ghost predicate NeverRevived(s: State, run: seq<Label>, j: JobId)
    requires IsRun(s, run)
    decreases |run|
  {
    run == [] || (!Revives(s, run[0], j) && NeverRevived(Next(s, run[0]), run[1..], j))
  }

  ghost predicate KeptThroughout(s: State, run: seq<Label>, j: JobId, row: Job)
    requires IsRun(s, run)
    decreases |run|
  {
    && j in s.jobs && s.jobs[j] == row
    && (run == [] || KeptThroughout(Next(s, run[0]), run[1..], j, row))
  }

  /** Over whole runs: a terminal row stands throughout if and only if no step revives it. */
  lemma {:induction false} TerminalStandsExactly(s: State, run: seq<Label>, j: JobId)
    requires Inv(s) && IsRun(s, run) && Finished(s, j)
    ensures KeptThroughout(s, run, j, s.jobs[j]) <==> NeverRevived(s, run, j)
    decreases |run|
  {
    if run != [] {
      TerminalChangesExactly(s, run[0], j);
      KeepsInv(s, run[0]);
      if !Revives(s, run[0], j) { TerminalStandsExactly(Next(s, run[0]), run[1..], j); }
    }
  }

  predicate Settled(s: State, j: JobId) { Finished(s, j) && j !in s.book.disturbed }

  /** Nothing revives an undisturbed job. */
  lemma StepKeepsTerminal(s: State, l: Label, j: JobId)
    requires Tokens.TokensOk(s) && Records.LocksOk(s) && Enabled(s, l) && Settled(s, j)
    ensures !Revives(s, l, j) && SameRow(s, Next(s, l), j)
  {
    TerminalChangesExactly(s, l, j);
    if l.Collect? && l.collect.Handle? {
      var p := l.collect.partition;
      var place := InResults(p, s.collector.pos[p]);
      assert Tokens.TokenOk(s, place, j);
      assert s.resultsTopic[p][s.collector.pos[p]].job == j ==> At(s, place, j);
    }
  }

  lemma {:induction false} RunIsLater(s: State, run: seq<Label>)
    requires IsRun(s, run)
    ensures s.book.disturbed <= End(s, run).book.disturbed
    ensures s.book.rough <= End(s, run).book.rough
    ensures s.jobs.Keys <= End(s, run).jobs.Keys
    decreases |run|
  {
    if run != [] {
      StepIsLater(s, run[0]);
      RunIsLater(Next(s, run[0]), run[1..]);
    }
  }

  /** COMPLETED and DEAD are absorbing: from any reachable state, a terminal row of a job that stays
      undisturbed never changes again. */
  lemma {:induction false} TerminalIsFinal(s: State, more: seq<Label>, j: JobId)
    requires Inv(s) && IsRun(s, more)
    requires j in s.jobs && s.jobs[j].Terminal()
    requires j !in End(s, more).book.disturbed
    ensures j in End(s, more).jobs && End(s, more).jobs[j] == s.jobs[j]
    decreases |more|
  {
    if more != [] {
      RunIsLater(s, more);
      StepKeepsTerminal(s, more[0], j);
      KeepsInv(s, more[0]);
      TerminalIsFinal(Next(s, more[0]), more[1..], j);
    }
  }

  /** attempts(j) is the number of FetchPending commits of the run that picked j, and only a requeue or a rollback lets it
      past three. */
  lemma AttemptBound(s0: State, run: seq<Label>, s: State, j: JobId)
    requires Reaches(s0, run, s) && j in s.jobs
    ensures s.jobs[j].attempts == Picking.Picks(s0, run, j)
    ensures forall n: nat :: (j, n) in s.book.issued <==> 1 <= n <= s.jobs[j].attempts
    ensures s.jobs[j].attempts <= 3 + s.book.requeues[j] + s.book.rollbacks[j]
    ensures s.jobs[j].status.Queued? ==> s.jobs[j].attempts <= 2 + s.book.requeues[j] + s.book.rollbacks[j]
    ensures s.jobs[j].status.Retrying? ==> 1 <= s.jobs[j].attempts <= 2
  {
    Reached(s0, run, s);
    Picking.AttemptsCountPicks(s0, run, j);
    forall n: nat | (j, n) in s.book.issued ensures 1 <= n <= s.jobs[j].attempts {
      assert Messages.IssueFits((j, n), s.book.issued[(j, n)], s.jobs, s.workers);
    }
  }

  /** A DEAD job that was never cancelled has its dead letter in the topic, or a failure of it lies at
      or beyond the committed offset of the results group, across crashes and restarts. */
  lemma NoDeadLetterLost(s0: State, run: seq<Label>, s: State, j: JobId)
    requires Reaches(s0, run, s)
    requires j in s.jobs && s.jobs[j].status.Dead? && j !in s.book.cancelled
    ensures (exists q: nat, o: nat :: Outcomes.Reported(s.deadTopic, q, o, j, false))
            || (exists p: nat, o: nat :: Outcomes.Reported(s.resultsTopic, p, o, j, false)
                                         && p < |s.collector.committed| && s.collector.committed[p] <= o)
  {
    Reached(s0, run, s);
    assert Outcomes.JobOutcomeOk(s, j);
    if p: nat, o: nat :| Outcomes.Unfinished(s.resultsTopic, s.collector, p, o, j) {
      assert Outcomes.Reported(s.resultsTopic, p, o, j, false) && s.collector.committed[p] <= o;
    }
  }

  /** The row tells all the message told; an empty payload has become an empty JSON object. */
  predicate KeepsContent(l: Letter, m: ResultMessage) {
    && l.job == m.job && l.worker == m.worker && l.jobType == m.jobType && l.attempts == m.attempts && l.error == m.error
    && (m.payload != "" ==> l.payload == m.payload) && (m.payload == "" ==> l.payload == "{}")
  }

  /** Every row ever inserted into dead_letters carries the type and the payload of its job's row, and was
      inserted for a failure that a worker had reported. */
  lemma LettersCarryTheJob(s0: State, run: seq<Label>, s: State, k: (nat, nat))
    requires Reaches(s0, run, s) && k in s.book.inserted
    ensures Has(s.deadTopic, k.0, k.1) && KeepsContent(s.book.inserted[k], s.deadTopic[k.0][k.1])
    ensures var l := s.book.inserted[k];
            && l.job in s.jobs && l.jobType == s.jobs[l.job].jobType
            && l.payload == (if s.jobs[l.job].payload == "" then "{}" else s.jobs[l.job].payload)
            && 1 <= l.attempts <= s.jobs[l.job].attempts
            && !s.deadTopic[k.0][k.1].success
  {
    Reached(s0, run, s);
    Provenance(s0, run, s);
    assert Genuine(s, s.deadTopic[k.0][k.1]);
  }

  /** Offsets below a committed offset have been handled, in every group; for the dead-letter group
      that means a row with the letter's content was inserted. */
  lemma CommitPrefix(s0: State, run: seq<Label>, s: State, p: nat, o: nat)
    requires Reaches(s0, run, s)
    ensures p < |s.collector.committed| && o < s.collector.committed[p] ==> (p, o) in s.collector.seen
    ensures forall w :: w in s.procs && p < |s.procs[w].group.committed| && o < s.procs[w].group.committed[p] ==>
      (p, o) in s.procs[w].group.seen
    ensures p < |s.undertaker.committed| && o < s.undertaker.committed[p] ==>
      (p, o) in s.book.inserted && Has(s.deadTopic, p, o) && KeepsContent(s.book.inserted[(p, o)], s.deadTopic[p][o])
  {
    Reached(s0, run, s);
    forall w | w in s.procs && p < |s.procs[w].group.committed| && o < s.procs[w].group.committed[p]
      ensures (p, o) in s.procs[w].group.seen
    {
      assert Records.ProcOk(s.procs[w], s.jobsTopic);
    }
  }

  /** A copy of the message is in a dispatcher's batch, in the jobs log, or was put on a job channel. */
  ghost predicate Copied(s: State, m: JobMessage) {
    || (exists d :: d in s.dispatchers && s.dispatchers[d].Publishing? && m in s.dispatchers[d].batch)
    || (exists p: nat, o: nat :: Has(s.jobsTopic, p, o) && s.jobsTopic[p][o] == m)
    || (exists w :: w in s.procs && m in s.procs[w].pushed)
  }

  lemma CopiesAreIssued(s: State, m: JobMessage)
    requires Inv(s) && Copied(s, m)
    ensures Messages.IsIssued(s.book.issued, m)
  {
    if d :| d in s.dispatchers && s.dispatchers[d].Publishing? && m in s.dispatchers[d].batch {
      assert Messages.BatchOk(s.dispatchers[d], s.book.issued);
    } else if w :| w in s.procs && m in s.procs[w].pushed {
      assert Messages.HeldOk(w, s.procs[w], s.book.issued);
    }
  }

  /** Concurrent dispatchers never hold the same row, each pending episode of a job is claimed at most
      once, and an attempt has one message content wherever copies of it are. */
  lemma DispatchExclusive(s0: State, run: seq<Label>, s: State)
    requires Reaches(s0, run, s)
    ensures forall d, e :: d != e ==> LockedBy(s, d) !! LockedBy(s, e)
    ensures forall d, j :: j in LockedBy(s, d) ==> j in s.jobs && s.jobs[j].Pending()
    ensures forall j :: Picking.Picks(s0, run, j) <= Picking.Episodes(s0, run, j)
    ensures forall m, n :: Copied(s, m) && Copied(s, n) && m.job == n.job && m.attempts == n.attempts ==> m == n
  {
    Reached(s0, run, s);
    forall d, e | d != e ensures LockedBy(s, d) !! LockedBy(s, e) {
      if d in s.dispatchers && e in s.dispatchers { assert Records.Apart(s.dispatchers[d], s.dispatchers[e]); }
    }
    forall d, j | j in LockedBy(s, d) ensures j in s.jobs && s.jobs[j].Pending() {
      assert Records.ClaimOk(s.dispatchers[d], s.jobs, s.workers);
    }
    forall j ensures Picking.Picks(s0, run, j) <= Picking.Episodes(s0, run, j) {
      InitInv(s0);
      Picking.EpisodesAreClaimedOnce(s0, run, j);
    }
    forall m | Copied(s, m) ensures Messages.IsIssued(s.book.issued, m) { CopiesAreIssued(s, m); }
  }

  /** A result descends from the job message of a dispatched attempt of an existing job, addressed to
      the worker that reports it. */
  ghost predicate Genuine(s: State, r: ResultMessage) {
    && r.job in s.jobs && 1 <= r.attempts <= s.jobs[r.job].attempts
    && r.jobType == s.jobs[r.job].jobType && r.payload == s.jobs[r.job].payload
    && (r.job, r.attempts) in s.book.issued && s.book.issued[(r.job, r.attempts)].worker == r.worker
  }

  /** A job message is the one of a dispatched attempt of an existing job, for a known worker. */
  ghost predicate Addressed(s: State, m: JobMessage) {
    && m.job in s.jobs && 1 <= m.attempts <= s.jobs[m.job].attempts && m.worker in s.workers
    && m.jobType == s.jobs[m.job].jobType && m.payload == s.jobs[m.job].payload && m.priority == s.jobs[m.job].priority
    && (m.job, m.attempts) in s.book.issued && s.book.issued[(m.job, m.attempts)] == m
  }

  /** Every message names an existing job and carries its content; in particular the collector never
      meets a job that is not in the table. COMPLETED means that a success was published. */
  lemma Provenance(s0: State, run: seq<Label>, s: State)
    requires Reaches(s0, run, s)
    ensures forall w, k :: w in s.procs && 0 <= k < |s.procs[w].pushed| ==> s.procs[w].pushed[k].worker == w
    ensures forall p: nat, o: nat :: Has(s.jobsTopic, p, o) ==> Addressed(s, s.jobsTopic[p][o])
    ensures forall p: nat, o: nat :: Has(s.resultsTopic, p, o) ==> Genuine(s, s.resultsTopic[p][o])
    ensures forall q: nat, o: nat :: Has(s.deadTopic, q, o) ==> Genuine(s, s.deadTopic[q][o]) && !s.deadTopic[q][o].success
    ensures forall j :: j in s.jobs && s.jobs[j].status.Completed? ==>
      exists p: nat, o: nat :: Outcomes.Reported(s.resultsTopic, p, o, j, true)
  {
    Reached(s0, run, s);
    forall w, k | w in s.procs && 0 <= k < |s.procs[w].pushed| ensures s.procs[w].pushed[k].worker == w {
      assert Messages.HeldOk(w, s.procs[w], s.book.issued);
    }
    forall m: JobMessage | Messages.IsIssued(s.book.issued, m) ensures Addressed(s, m) {
      assert Messages.IssueFits((m.job, m.attempts), m, s.jobs, s.workers);
    }
    forall p: nat, o: nat | Has(s.jobsTopic, p, o) ensures Messages.IsIssued(s.book.issued, s.jobsTopic[p][o]) {
    }
    forall r: ResultMessage | Messages.Sourced(s.book.issued, r) ensures Genuine(s, r) {
      assert Messages.IssueFits((r.job, r.attempts), s.book.issued[(r.job, r.attempts)], s.jobs, s.workers);
    }
    forall q: nat, o: nat | Has(s.deadTopic, q, o) ensures Messages.Sourced(s.book.issued, s.deadTopic[q][o]) {
    }
    forall j | j in s.jobs && s.jobs[j].status.Completed?
      ensures exists p: nat, o: nat :: Outcomes.Reported(s.resultsTopic, p, o, j, true)
    {
      assert Outcomes.JobOutcomeOk(s, j);
    }
  }

  /** The jobs a RequeueStale would take now belong to workers that have been silent for 15 s. */
  lemma LiveWorkersKeepJobs(s0: State, run: seq<Label>, s: State, j: JobId)
    requires Reaches(s0, run, s)
    requires j in Jobs.StaleRunning(s.jobs, s.workers, s.now)
    ensures s.jobs[j].status == Running && s.jobs[j].worker.Some? && s.jobs[j].worker.value in s.workers
    ensures var w := s.workers[s.jobs[j].worker.value]; w.heartbeat.None? || w.heartbeat.value < s.now - 15_000_000
  {
    Reached(s0, run, s);
  }

  /** QUEUED rows have no worker, RUNNING rows an existing one, nothing is ever FAILED, and the
      FetchAssigned sets over all workers partition the RUNNING rows. */
  lemma RowsOfEveryRun(s0: State, run: seq<Label>, s: State)
    requires Reaches(s0, run, s)
    ensures forall j :: j in s.jobs ==> Outcomes.RowOk(s.jobs[j], s.workers)
    ensures forall j :: j in s.jobs && s.jobs[j].status.Running? <==>
      exists w :: w in s.workers.Keys && j in Jobs.Assigned(s.jobs, w)
    ensures forall u, v :: u != v ==> Jobs.Assigned(s.jobs, u) !! Jobs.Assigned(s.jobs, v)
  {
    Reached(s0, run, s);
    forall j | j in s.jobs && s.jobs[j].status.Running? ensures s.jobs[j].worker.Some? && s.jobs[j].worker.value in s.workers {
      assert Outcomes.RowOk(s.jobs[j], s.workers);
    }
    Jobs.AssignedPartitions(s.jobs, s.workers.Keys);
  }
}
