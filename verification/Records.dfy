/** What every reachable state of the pipeline keeps about positions, locks, rows and messages. The
    invariants are stated of the components they depend on, so a step keeps those it does not touch. */
module Records {
  import opened Types
  import opened Broker
  import opened Pipeline
  import Jobs
  import Workers

  // ----- Positions -----

  ghost predicate ProcOk(pr: Proc, t: Topic<JobMessage>) {
    && Sound(pr.group, t)
    && pr.taken <= |pr.pushed| <= pr.taken + JOB_CHAN_CAPACITY + 1
    && (forall k :: k in pr.executing ==> k < pr.taken)
    && |pr.executing| <= MAX_CONCURRENCY
  }

  ghost predicate ProcsOk(procs: map<WorkerId, Proc>, t: Topic<JobMessage>) {
    forall w :: w in procs ==> ProcOk(procs[w], t)
  }

  /** A partition owes a dead letter only for a failure at its read position. */
  ghost predicate CollectorOk(g: Group, owing: set<nat>, t: Topic<ResultMessage>) {
    Sound(g, t) && forall p :: p in owing ==> Ready(t, g, p) && !t[p][g.pos[p]].success
  }

  ghost predicate Positions(s: State) {
    && ProcsOk(s.procs, s.jobsTopic)
    && CollectorOk(s.collector, s.owing, s.resultsTopic)
    && Sound(s.undertaker, s.deadTopic)
  }

  lemma ProcsSeeAppend(procs: map<WorkerId, Proc>, t: Topic<JobMessage>, p: nat, m: JobMessage)
    requires ProcsOk(procs, t) && p < |t|
    ensures ProcsOk(procs, Append(t, p, m))
  {
    forall w | w in procs ensures ProcOk(procs[w], Append(t, p, m)) {
      AppendKeepsSound(procs[w].group, t, p, m);
    }
  }

  lemma DispatchKeepsPositions(s: State, d: DispatcherId, l: DispatchStep)
    requires Positions(s) && DispatchEnabled(s, d, l)
    ensures Positions(DispatchNext(s, d, l))
  {
    var ph := PhaseOf(s, d);
    match l
    case Publish(p) => ProcsSeeAppend(s.procs, s.jobsTopic, p, ph.batch[ph.next]);
    case PublishUnacknowledged(p) => ProcsSeeAppend(s.procs, s.jobsTopic, p, ph.batch[ph.next]);
    case _ =>
  }

  lemma ProcMoves(pr: Proc, t: Topic<JobMessage>, p: nat)
    requires ProcOk(pr, t) && p < |t|
    ensures ProcOk(pr.(group := Committed(pr.group, p)), t)
    ensures ProcOk(pr.(group := Rewound(pr.group, p)), t)
    ensures pr.group.pos[p] < |t[p]| ==> ProcOk(pr.(group := Handled(pr.group, p)), t)
  {
    GroupMovesSoundly(pr.group, t, p);
  }

  lemma ReadKeepsPositions(s: State, w: WorkerId, l: ReadStep)
    requires Positions(s) && ReadEnabled(s, w, l)
    ensures Positions(ReadNext(s, w, l))
  {
    match l
    case Consume(p) => ProcMoves(s.procs[w], s.jobsTopic, p);
    case CommitOffset(p) => ProcMoves(s.procs[w], s.jobsTopic, p);
    case Rejoin(p) => ProcMoves(s.procs[w], s.jobsTopic, p);
    case _ =>
  }

  lemma ProcHolds(pr: Proc, t: Topic<JobMessage>, k: nat)
    requires ProcOk(pr, t)
    ensures pr.taken < |pr.pushed| && |pr.executing| < MAX_CONCURRENCY ==>
      ProcOk(pr.(taken := pr.taken + 1, executing := pr.executing + {pr.taken}), t)
    ensures ProcOk(pr.(executing := pr.executing - {k}), t)
  {
    assert k in pr.executing ==> |pr.executing - {k}| == |pr.executing| - 1;
    assert k !in pr.executing ==> pr.executing - {k} == pr.executing;
  }

  lemma CollectorSeesAppend(g: Group, owing: set<nat>, t: Topic<ResultMessage>, p: nat, r: ResultMessage)
    requires CollectorOk(g, owing, t) && p < |t|
    ensures CollectorOk(g, owing, Append(t, p, r))
  {
    AppendKeepsSound(g, t, p, r);
  }

  lemma WorkKeepsPositions(s: State, w: WorkerId, l: WorkStep)
    requires Positions(s) && WorkEnabled(s, w, l)
    ensures Positions(WorkNext(s, w, l))
  {
    var pr := s.procs[w];
    match l
    case Take => ProcHolds(pr, s.jobsTopic, 0);
    case Report(k, p, success, error) =>
      ProcHolds(pr, s.jobsTopic, k);
      CollectorSeesAppend(s.collector, s.owing, s.resultsTopic, p, ResultOf(pr.pushed[k], w, success, error));
    case ReportUnacknowledged(k, p, success, error) =>
      CollectorSeesAppend(s.collector, s.owing, s.resultsTopic, p, ResultOf(pr.pushed[k], w, success, error));
    case ReportLost(k) => ProcHolds(pr, s.jobsTopic, k);
  }

  lemma CollectorMoves(g: Group, owing: set<nat>, t: Topic<ResultMessage>, p: nat)
    requires CollectorOk(g, owing, t) && p < |t|
    ensures Ready(t, g, p) && !t[p][g.pos[p]].success ==> CollectorOk(g, owing + {p}, t)
    ensures Ready(t, g, p) ==> CollectorOk(Handled(g, p), owing - {p}, t)
    ensures CollectorOk(Committed(g, p), owing, t)
    ensures CollectorOk(Rewound(g, p), owing - {p}, t)
  {
    GroupMovesSoundly(g, t, p);
  }

  lemma CollectKeepsPositions(s: State, l: CollectStep)
    requires Positions(s) && CollectEnabled(s, l)
    ensures Positions(CollectNext(s, l))
  {
    match l
    case Handle(p) =>
      CollectorMoves(s.collector, s.owing, s.resultsTopic, p);
      assert s.owing - {p} == s.owing;
    case PublishDead(p, q) =>
      CollectorMoves(s.collector, s.owing, s.resultsTopic, p);
      AppendKeepsSound(s.undertaker, s.deadTopic, q, s.resultsTopic[p][s.collector.pos[p]]);
    case PublishDeadUnacknowledged(p, q) =>
      AppendKeepsSound(s.undertaker, s.deadTopic, q, s.resultsTopic[p][s.collector.pos[p]]);
    case CommitResult(p) => CollectorMoves(s.collector, s.owing, s.resultsTopic, p);
    case RejoinResults(p) => CollectorMoves(s.collector, s.owing, s.resultsTopic, p);
  }

  lemma BuryKeepsPositions(s: State, l: BuryStep)
    requires Positions(s) && BuryEnabled(s, l)
    ensures Positions(BuryNext(s, l))
  {
    match l
    case Insert(q) => GroupMovesSoundly(s.undertaker, s.deadTopic, q);
    case CommitLetter(q) => GroupMovesSoundly(s.undertaker, s.deadTopic, q);
    case RejoinLetters(q) => GroupMovesSoundly(s.undertaker, s.deadTopic, q);
  }

  lemma KeepsPositions(s: State, l: Label)
    requires Positions(s) && Enabled(s, l)
    ensures Positions(Next(s, l))
  {
    match l
    case Api(a) => assert Positions(ApiNext(s, a));
    case Dispatch(d, a) => DispatchKeepsPositions(s, d, a);
    case Read(w, a) => ReadKeepsPositions(s, w, a);
    case Work(w, a) => WorkKeepsPositions(s, w, a);
    case Health(a) => assert Positions(HealthNext(s, a));
    case Collect(a) => CollectKeepsPositions(s, a);
    case Bury(a) => BuryKeepsPositions(s, a);
  }

  // ----- Locks -----

  ghost predicate ClaimOk(ph: Phase, jobs: Jobs.Table, workers: Workers.Table) {
    ph.Claiming? ==> ph.worker in workers && forall j :: j in ph.ids ==> j in jobs && jobs[j].Pending()
  }

  ghost predicate Apart(a: Phase, b: Phase) { a.Claiming? && b.Claiming? ==> a.ids !! b.ids }

  /** Open statements hold disjoint sets of rows, and a locked row stays pending until its own
      statement commits. */
  ghost predicate Locks(ds: map<DispatcherId, Phase>, jobs: Jobs.Table, workers: Workers.Table) {
    && (forall d :: d in ds ==> ClaimOk(ds[d], jobs, workers))
    && (forall d, e :: d in ds && e in ds && d != e ==> Apart(ds[d], ds[e]))
  }

  lemma LockedMembers(s: State, d: DispatcherId)
    requires d in s.dispatchers && s.dispatchers[d].Claiming?
    ensures s.dispatchers[d].ids <= Locked(s)
  {
    forall j | j in s.dispatchers[d].ids ensures j in Locked(s) {
      assert j in LockedBy(s, d);
    }
  }

  lemma LocksFollowRows(s: State, jobs: Jobs.Table)
    requires Locks(s.dispatchers, s.jobs, s.workers)
    requires forall j :: j in Locked(s) && j in s.jobs ==> j in jobs && jobs[j].Pending() == s.jobs[j].Pending()
    ensures Locks(s.dispatchers, jobs, s.workers)
  {
    forall d | d in s.dispatchers ensures ClaimOk(s.dispatchers[d], jobs, s.workers) {
      if s.dispatchers[d].Claiming? { LockedMembers(s, d); }
    }
  }

  ghost predicate LocksOk(s: State) { Locks(s.dispatchers, s.jobs, s.workers) }

  lemma DispatchKeepsLocks(s: State, d: DispatcherId, l: DispatchStep)
    requires LocksOk(s) && DispatchEnabled(s, d, l)
    ensures LocksOk(DispatchNext(s, d, l))
  {
    var s' := DispatchNext(s, d, l);
    forall e | e in s'.dispatchers
      ensures ClaimOk(s'.dispatchers[e], s'.jobs, s'.workers)
      ensures e != d && d in s'.dispatchers ==> Apart(s'.dispatchers[e], s'.dispatchers[d]) && Apart(s'.dispatchers[d], s'.dispatchers[e])
    {
      if e in s.dispatchers && s.dispatchers[e].Claiming? {
        LockedMembers(s, e);
      }
    }
  }

  lemma ApiKeepsLocks(s: State, l: ApiStep)
    requires LocksOk(s) && ApiEnabled(s, l)
    ensures LocksOk(ApiNext(s, l))
  {
    LocksFollowRows(s, ApiNext(s, l).jobs);
  }

  lemma HealthKeepsLocks(s: State, l: HealthStep)
    requires LocksOk(s) && HealthEnabled(s, l)
    ensures LocksOk(HealthNext(s, l))
  {
    if l.RequeueStale? {
      forall j | j in s.jobs ensures s.jobs[j].Pending() ==> HealthNext(s, l).jobs[j] == s.jobs[j] {
      }
    }
  }

  lemma CollectKeepsLocks(s: State, l: CollectStep)
    requires LocksOk(s) && CollectEnabled(s, l)
    ensures LocksOk(CollectNext(s, l))
  {
    LocksFollowRows(s, CollectNext(s, l).jobs);
  }

  lemma KeepsLocks(s: State, l: Label)
    requires LocksOk(s) && Enabled(s, l)
    ensures LocksOk(Next(s, l))
  {
    match l
    case Api(a) => ApiKeepsLocks(s, a);
    case Dispatch(d, a) => DispatchKeepsLocks(s, d, a);
    case Read(w, a) => assert LocksOk(ReadNext(s, w, a));
    case Work(w, a) => assert LocksOk(WorkNext(s, w, a));
    case Health(a) => HealthKeepsLocks(s, a);
    case Collect(a) => CollectKeepsLocks(s, a);
    case Bury(a) => assert LocksOk(BuryNext(s, a));
  }
}
