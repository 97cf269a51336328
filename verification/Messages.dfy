/** What every reachable state keeps about job rows and the messages that name them: each attempt of a
    job was issued once, and everything in flight descends from what was issued. */
module Messages {
  import opened Types
  import opened Broker
  import opened Pipeline
  import Jobs
  import Workers
  import Records

  type Issues = map<(JobId, nat), JobMessage>

  // ----- Issues: the ledger of FetchPending -----

  ghost predicate IssueFits(k: (JobId, nat), m: JobMessage, jobs: Jobs.Table, workers: Workers.Table) {
    && k.0 in jobs && 1 <= k.1 <= jobs[k.0].attempts && m.worker in workers
    && m == JobMessage(k.0, m.worker, jobs[k.0].jobType, jobs[k.0].payload, jobs[k.0].priority, k.1)
  }

  /** The n-th time FetchPending picked job j is recorded under (j, n); there is such a record for
      exactly the n from 1 to attempts(j), and a RUNNING row belongs to the worker of the last one. */
  ghost predicate IssuesOk(issued: Issues, jobs: Jobs.Table, workers: Workers.Table) {
    && (forall k :: k in issued ==> IssueFits(k, issued[k], jobs, workers))
    && (forall j, n: nat :: j in jobs && 1 <= n <= jobs[j].attempts ==> (j, n) in issued)
    && (forall j :: j in jobs && jobs[j].status.Running? ==>
          (j, jobs[j].attempts) in issued && jobs[j].worker == Some(issued[(j, jobs[j].attempts)].worker))
  }

  lemma IssuesFollow(issued: Issues, jobs: Jobs.Table, workers: Workers.Table, jobs': Jobs.Table, workers': Workers.Table)
    requires IssuesOk(issued, jobs, workers)
    requires Jobs.Kept(jobs, jobs') && workers.Keys <= workers'.Keys
    ensures IssuesOk(issued, jobs', workers')
  {
    forall k | k in issued ensures IssueFits(k, issued[k], jobs', workers') {
      assert IssueFits(k, issued[k], jobs, workers);
    }
  }

  lemma KeepsIssues(s: State, l: Label)
    requires IssuesGood(s) && Records.LocksOk(s) && Enabled(s, l)
    ensures IssuesGood(Next(s, l))
  {
    match l
    case Api(a) => ApiKeepsIssues(s, a);
    case Dispatch(d, a) => DispatchKeepsIssues(s, d, a);
    case Read(w, a) => assert IssuesGood(ReadNext(s, w, a));
    case Work(w, a) => assert IssuesGood(WorkNext(s, w, a));
    case Health(a) => HealthKeepsIssues(s, a);
    case Collect(a) => CollectKeepsIssues(s, a);
    case Bury(a) => assert IssuesGood(BuryNext(s, a));
  }

  ghost predicate Extends(a: Issues, b: Issues) { forall k :: k in a ==> k in b && a[k] == b[k] }

  lemma BatchEntry(jobs: Jobs.Table, ids: set<JobId>, order: seq<JobId>, w: WorkerId, j: JobId)
    requires Jobs.Lists(order, ids) && ids <= jobs.Keys && j in ids
    ensures var e := Entries(Batch(jobs, order, w));
            (j, jobs[j].attempts) in e && e[(j, jobs[j].attempts)] == Jobs.MessageFor(j, jobs[j], w)
  {
    assert j in order;
    var i :| 0 <= i < |order| && order[i] == j;
    var batch := Batch(jobs, order, w);
    assert batch[i].job == j && batch[i].attempts == jobs[j].attempts;
  }

  lemma BatchKeys(jobs: Jobs.Table, ids: set<JobId>, order: seq<JobId>, w: WorkerId, k: (JobId, nat))
    requires Jobs.Lists(order, ids) && ids <= jobs.Keys && k in Entries(Batch(jobs, order, w))
    ensures k.0 in ids && k.1 == jobs[k.0].attempts
  {
    var batch := Batch(jobs, order, w);
    var i :| 0 <= i < |batch| && k == (batch[i].job, batch[i].attempts);
    assert order[i] in order;
  }

  lemma OldIssue(issued: Issues, jobs: Jobs.Table, workers: Workers.Table, ids: set<JobId>, order: seq<JobId>, w: WorkerId, k: (JobId, nat))
    requires IssuesOk(issued, jobs, workers) && k in issued
    requires Jobs.Lists(order, ids) && ids <= jobs.Keys
    ensures k !in Entries(Batch(Jobs.Claim(jobs, ids, w), order, w))
    ensures IssueFits(k, issued[k], Jobs.Claim(jobs, ids, w), workers)
  {
    var jobs' := Jobs.Claim(jobs, ids, w);
    assert IssueFits(k, issued[k], jobs, workers);
    if k in Entries(Batch(jobs', order, w)) { BatchKeys(jobs', ids, order, w, k); }
  }

  lemma NewIssue(jobs: Jobs.Table, workers: Workers.Table, ids: set<JobId>, order: seq<JobId>, w: WorkerId, k: (JobId, nat))
    requires Jobs.Lists(order, ids) && ids <= jobs.Keys && w in workers
    requires k in Entries(Batch(Jobs.Claim(jobs, ids, w), order, w))
    ensures IssueFits(k, Entries(Batch(Jobs.Claim(jobs, ids, w), order, w))[k], Jobs.Claim(jobs, ids, w), workers)
  {
    var jobs' := Jobs.Claim(jobs, ids, w);
    BatchKeys(jobs', ids, order, w, k);
    BatchEntry(jobs', ids, order, w, k.0);
  }

  /** Committing FetchPending issues attempt attempts(j) + 1 of each picked job, which is new. */
  lemma ClaimIssues(issued: Issues, jobs: Jobs.Table, workers: Workers.Table, ids: set<JobId>, order: seq<JobId>, w: WorkerId)
    requires IssuesOk(issued, jobs, workers) && w in workers
    requires Jobs.Lists(order, ids) && ids <= jobs.Keys
    ensures Extends(issued, issued + Entries(Batch(Jobs.Claim(jobs, ids, w), order, w)))
    ensures IssuesOk(issued + Entries(Batch(Jobs.Claim(jobs, ids, w), order, w)), Jobs.Claim(jobs, ids, w), workers)
  {
    var jobs' := Jobs.Claim(jobs, ids, w);
    var entries := Entries(Batch(jobs', order, w));
    forall k | k in issued ensures k !in entries && IssueFits(k, issued[k], jobs', workers) {
      OldIssue(issued, jobs, workers, ids, order, w, k);
    }
    forall k | k in entries ensures IssueFits(k, entries[k], jobs', workers) {
      NewIssue(jobs, workers, ids, order, w, k);
    }
    forall j | j in ids ensures (j, jobs'[j].attempts) in entries && entries[(j, jobs'[j].attempts)].worker == w {
      BatchEntry(jobs', ids, order, w, j);
    }
    JoinIssues(issued, entries, jobs, workers, ids, w);
  }

  lemma JoinIssues(issued: Issues, entries: Issues, jobs: Jobs.Table, workers: Workers.Table, ids: set<JobId>, w: WorkerId)
    requires IssuesOk(issued, jobs, workers) && ids <= jobs.Keys
    requires forall k :: k in issued ==> k !in entries && IssueFits(k, issued[k], Jobs.Claim(jobs, ids, w), workers)
    requires forall k :: k in entries ==> IssueFits(k, entries[k], Jobs.Claim(jobs, ids, w), workers)
    requires var jobs' := Jobs.Claim(jobs, ids, w);
             forall j :: j in ids ==> (j, jobs'[j].attempts) in entries && entries[(j, jobs'[j].attempts)].worker == w
    ensures Extends(issued, issued + entries) && IssuesOk(issued + entries, Jobs.Claim(jobs, ids, w), workers)
  {
  }

  ghost predicate IssuesGood(s: State) { IssuesOk(s.book.issued, s.jobs, s.workers) }

  lemma DispatchKeepsIssues(s: State, d: DispatcherId, l: DispatchStep)
    requires IssuesGood(s) && Records.LocksOk(s) && DispatchEnabled(s, d, l)
    ensures IssuesGood(DispatchNext(s, d, l))
    ensures Extends(s.book.issued, DispatchNext(s, d, l).book.issued)
  {
    var ph := PhaseOf(s, d);
    match l
    case Commit(order) => ClaimIssues(s.book.issued, s.jobs, s.workers, ph.ids, order, ph.worker);
    case Rollback =>
      Jobs.RowStatementsKeep(s.jobs, ph.batch[ph.next].job, 0);
      IssuesFollow(s.book.issued, s.jobs, s.workers, DispatchNext(s, d, l).jobs, s.workers);
    case _ =>
  }

  lemma ApiKeepsIssues(s: State, l: ApiStep)
    requires IssuesGood(s) && ApiEnabled(s, l)
    ensures IssuesGood(ApiNext(s, l))
  {
    match l {
      case Submit(id, jobType, payload, priority) => Jobs.CreateKeeps(s.jobs, id, jobType, payload, priority, s.now);
      case Cancel(id) => Jobs.RowStatementsKeep(s.jobs, id, 0);
    }
    IssuesFollow(s.book.issued, s.jobs, s.workers, ApiNext(s, l).jobs, s.workers);
  }

  lemma HealthKeepsIssues(s: State, l: HealthStep)
    requires IssuesGood(s) && HealthEnabled(s, l)
    ensures IssuesGood(HealthNext(s, l))
  {
    Jobs.RequeueKeeps(s.jobs, s.workers, s.now);
    IssuesFollow(s.book.issued, s.jobs, s.workers, HealthNext(s, l).jobs, HealthNext(s, l).workers);
  }

  lemma CollectKeepsIssues(s: State, l: CollectStep)
    requires IssuesGood(s) && CollectEnabled(s, l)
    ensures IssuesGood(CollectNext(s, l))
  {
    if l.Handle? {
      var r := s.resultsTopic[l.partition][s.collector.pos[l.partition]];
      Jobs.RowStatementsKeep(s.jobs, r.job, MAX_ATTEMPTS);
      IssuesFollow(s.book.issued, s.jobs, s.workers, CollectNext(s, l).jobs, s.workers);
    }
  }

  // ----- Messages descend from issues -----

  predicate IsIssued(issued: Issues, m: JobMessage) {
    (m.job, m.attempts) in issued && issued[(m.job, m.attempts)] == m
  }

  /** A result carries the content and the attempt of a job message, and comes from its addressee. */
  predicate Sourced(issued: Issues, r: ResultMessage) {
    (r.job, r.attempts) in issued
    && r == ResultOf(issued[(r.job, r.attempts)], issued[(r.job, r.attempts)].worker, r.success, r.error)
  }

  ghost predicate BatchOk(ph: Phase, issued: Issues) {
    ph.Publishing? ==>
      && ph.next <= |ph.batch|
      && (forall i :: 0 <= i < |ph.batch| ==> IsIssued(issued, ph.batch[i]))
      && (forall i, k :: 0 <= i < k < |ph.batch| ==> ph.batch[i].job != ph.batch[k].job)
  }

  ghost predicate BatchesOk(ds: map<DispatcherId, Phase>, issued: Issues) {
    forall d :: d in ds ==> BatchOk(ds[d], issued)
  }

  ghost predicate LogOk(t: Topic<JobMessage>, issued: Issues) {
    forall p: nat, o: nat :: Has(t, p, o) ==> IsIssued(issued, t[p][o])
  }

  /** A worker only ever holds messages addressed to it. */
  ghost predicate HeldOk(w: WorkerId, pr: Proc, issued: Issues) {
    forall k :: 0 <= k < |pr.pushed| ==> IsIssued(issued, pr.pushed[k]) && pr.pushed[k].worker == w
  }

  ghost predicate ProcsHoldOk(procs: map<WorkerId, Proc>, issued: Issues) {
    forall w :: w in procs ==> HeldOk(w, procs[w], issued)
  }

  ghost predicate ResultsOk(t: Topic<ResultMessage>, issued: Issues) {
    forall p: nat, o: nat :: Has(t, p, o) ==> Sourced(issued, t[p][o])
  }

  ghost predicate DeadOk(t: Topic<ResultMessage>, issued: Issues) {
    forall p: nat, o: nat :: Has(t, p, o) ==> Sourced(issued, t[p][o]) && !t[p][o].success
  }

  ghost predicate SentOk(s: State) {
    && BatchesOk(s.dispatchers, s.book.issued)
    && LogOk(s.jobsTopic, s.book.issued)
    && ProcsHoldOk(s.procs, s.book.issued)
    && ResultsOk(s.resultsTopic, s.book.issued)
    && DeadOk(s.deadTopic, s.book.issued)
  }

  lemma SentExtends(s: State, issued: Issues)
    requires SentOk(s) && Extends(s.book.issued, issued)
    ensures BatchesOk(s.dispatchers, issued) && LogOk(s.jobsTopic, issued) && ProcsHoldOk(s.procs, issued)
    ensures ResultsOk(s.resultsTopic, issued) && DeadOk(s.deadTopic, issued)
  {
    forall p: nat, o: nat | Has(s.jobsTopic, p, o) ensures IsIssued(issued, s.jobsTopic[p][o]) {
      assert IsIssued(s.book.issued, s.jobsTopic[p][o]);
    }
    forall d | d in s.dispatchers ensures BatchOk(s.dispatchers[d], issued) {
      assert BatchOk(s.dispatchers[d], s.book.issued);
    }
    forall w | w in s.procs ensures HeldOk(w, s.procs[w], issued) {
      assert HeldOk(w, s.procs[w], s.book.issued);
    }
  }

  lemma LogGrows(t: Topic<JobMessage>, p: nat, m: JobMessage, issued: Issues)
    requires LogOk(t, issued) && p < |t| && IsIssued(issued, m)
    ensures LogOk(Append(t, p, m), issued)
  {
    forall q: nat, o: nat | Has(Append(t, p, m), q, o) ensures IsIssued(issued, Append(t, p, m)[q][o]) {
      assert Has(t, q, o) || (q == p && o == |t[p]|);
    }
  }

  lemma ResultsGrow(t: Topic<ResultMessage>, p: nat, r: ResultMessage, issued: Issues)
    requires p < |t| && Sourced(issued, r)
    ensures ResultsOk(t, issued) ==> ResultsOk(Append(t, p, r), issued)
    ensures DeadOk(t, issued) && !r.success ==> DeadOk(Append(t, p, r), issued)
  {
    forall q: nat, o: nat | Has(Append(t, p, r), q, o) ensures Has(t, q, o) || (q == p && o == |t[p]|) {
    }
  }

  lemma CommitKeepsBatch(s: State, d: DispatcherId, order: seq<JobId>)
    requires IssuesGood(s) && Records.LocksOk(s) && DispatchEnabled(s, d, Commit(order))
    ensures var s' := DispatchNext(s, d, Commit(order)); BatchOk(s'.dispatchers[d], s'.book.issued)
  {
    var ph, s' := PhaseOf(s, d), DispatchNext(s, d, Commit(order));
    forall i | 0 <= i < |order| ensures IsIssued(s'.book.issued, s'.dispatchers[d].batch[i]) {
      assert order[i] in order;
      BatchEntry(s'.jobs, ph.ids, order, ph.worker, order[i]);
    }
  }

  lemma DispatchKeepsSent(s: State, d: DispatcherId, l: DispatchStep)
    requires SentOk(s) && IssuesGood(s) && Records.LocksOk(s) && DispatchEnabled(s, d, l)
    ensures SentOk(DispatchNext(s, d, l))
  {
    var ph := PhaseOf(s, d);
    match l
    case Commit(order) =>
      DispatchKeepsIssues(s, d, l);
      SentExtends(s, DispatchNext(s, d, l).book.issued);
      CommitKeepsBatch(s, d, order);
    case Publish(p) => LogGrows(s.jobsTopic, p, ph.batch[ph.next], s.book.issued);
    case PublishUnacknowledged(p) => LogGrows(s.jobsTopic, p, ph.batch[ph.next], s.book.issued);
    case _ =>
  }

  lemma ReadKeepsSent(s: State, w: WorkerId, l: ReadStep)
    requires SentOk(s) && ReadEnabled(s, w, l)
    ensures SentOk(ReadNext(s, w, l))
  {
    if l.Consume? {
      var p := l.partition;
      assert Has(s.jobsTopic, p, s.procs[w].group.pos[p]);
      assert HeldOk(w, s.procs[w], s.book.issued);
    }
  }

  lemma WorkKeepsSent(s: State, w: WorkerId, l: WorkStep)
    requires SentOk(s) && WorkEnabled(s, w, l)
    ensures SentOk(WorkNext(s, w, l))
  {
    var pr := s.procs[w];
    assert HeldOk(w, pr, s.book.issued);
    match l
    case Report(k, p, success, error) =>
      ResultsGrow(s.resultsTopic, p, ResultOf(pr.pushed[k], w, success, error), s.book.issued);
    case ReportUnacknowledged(k, p, success, error) =>
      ResultsGrow(s.resultsTopic, p, ResultOf(pr.pushed[k], w, success, error), s.book.issued);
    case _ =>
  }

  lemma CollectKeepsSent(s: State, l: CollectStep)
    requires SentOk(s) && Records.Positions(s) && CollectEnabled(s, l)
    ensures SentOk(CollectNext(s, l))
  {
    match l
    case PublishDead(p, q) =>
      assert Has(s.resultsTopic, p, s.collector.pos[p]);
      ResultsGrow(s.deadTopic, q, s.resultsTopic[p][s.collector.pos[p]], s.book.issued);
    case PublishDeadUnacknowledged(p, q) =>
      assert Has(s.resultsTopic, p, s.collector.pos[p]);
      ResultsGrow(s.deadTopic, q, s.resultsTopic[p][s.collector.pos[p]], s.book.issued);
    case _ =>
  }

  lemma ApiKeepsSent(s: State, l: ApiStep)
    requires SentOk(s) && ApiEnabled(s, l)
    ensures SentOk(ApiNext(s, l))
  {
  }

  lemma HealthKeepsSent(s: State, l: HealthStep)
    requires SentOk(s) && HealthEnabled(s, l)
    ensures SentOk(HealthNext(s, l))
  {
  }

  lemma BuryKeepsSent(s: State, l: BuryStep)
    requires SentOk(s) && BuryEnabled(s, l)
    ensures SentOk(BuryNext(s, l))
  {
  }

  lemma KeepsSent(s: State, l: Label)
    requires SentOk(s) && IssuesGood(s) && Records.LocksOk(s) && Records.Positions(s) && Enabled(s, l)
    ensures SentOk(Next(s, l))
  {
    match l
    case Api(a) => ApiKeepsSent(s, a);
    case Dispatch(d, a) => DispatchKeepsSent(s, d, a);
    case Read(w, a) => ReadKeepsSent(s, w, a);
    case Work(w, a) => WorkKeepsSent(s, w, a);
    case Health(a) => HealthKeepsSent(s, a);
    case Collect(a) => CollectKeepsSent(s, a);
    case Bury(a) => BuryKeepsSent(s, a);
  }
}
