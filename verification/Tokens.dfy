/** The exclusive token: an undisturbed job has at most one live message anywhere, and only while its
    row is RUNNING that very attempt. */
module Tokens {
  import opened Types
  import opened Broker
  import opened Pipeline
  import Records
  import Messages

  function AttemptAt(s: State, place: Place, j: JobId): nat
    requires At(s, place, j)
  {
    match place
    case Local(d, i) => s.dispatchers[d].batch[i].attempts
    case InLog(p, o) => s.jobsTopic[p][o].attempts
    case AtWorker(w, k) => s.procs[w].pushed[k].attempts
    case InResults(p, o) => s.resultsTopic[p][o].attempts
  }

  function WorkerAt(s: State, place: Place, j: JobId): WorkerId
    requires At(s, place, j)
  {
    match place
    case Local(d, i) => s.dispatchers[d].batch[i].worker
    case InLog(p, o) => s.jobsTopic[p][o].worker
    case AtWorker(w, k) => s.procs[w].pushed[k].worker
    case InResults(p, o) => s.resultsTopic[p][o].worker
  }

  ghost predicate TokenOk(s: State, place: Place, j: JobId) {
    At(s, place, j) && j !in s.book.disturbed ==>
      && j in s.book.place && s.book.place[j] == place
      && j in s.jobs && s.jobs[j].status.Running? && s.jobs[j].attempts == AttemptAt(s, place, j)
  }

  ghost predicate TokensOk(s: State) { forall place, j :: TokenOk(s, place, j) }

  /** A place other than a dispatcher does not see what dispatchers do with rows and batches. */
  lemma AtOutside(s: State, s': State, place: Place, j: JobId)
    requires s' == s.(jobs := s'.jobs, dispatchers := s'.dispatchers, book := s'.book)
    requires place.Local? ==> PhaseOf(s', place.dispatcher) == PhaseOf(s, place.dispatcher)
    ensures At(s', place, j) <==> At(s, place, j)
    ensures At(s, place, j) ==> AttemptAt(s', place, j) == AttemptAt(s, place, j)
  {
  }

  lemma AtUpstream(s: State, s': State, place: Place, j: JobId)
    requires s' == s.(jobs := s'.jobs, collector := s'.collector, owing := s'.owing, deadTopic := s'.deadTopic, book := s'.book)
    requires !place.InResults?
    ensures At(s', place, j) <==> At(s, place, j)
    ensures At(s, place, j) ==> AttemptAt(s', place, j) == AttemptAt(s, place, j)
  {
  }

  /** The place does not depend on worker process `w`. */
  predicate Apart(s: State, w: WorkerId, place: Place) {
    match place
    case InLog(p, o) => Has(s.jobsTopic, p, o) && s.jobsTopic[p][o].worker != w
    case AtWorker(v, _) => v != w
    case _ => true
  }

  lemma AtOtherWorkers(s: State, s': State, w: WorkerId, place: Place, j: JobId)
    requires s' == s.(procs := s'.procs, book := s'.book)
    requires s'.procs - {w} == s.procs - {w}
    requires Apart(s, w, place)
    ensures At(s', place, j) <==> At(s, place, j)
    ensures At(s, place, j) ==> AttemptAt(s', place, j) == AttemptAt(s, place, j)
  {
    assert forall v :: v != w ==> (v in s.procs <==> v in s.procs - {w}) && (v in s'.procs <==> v in s'.procs - {w});
    assert forall v :: v in s.procs - {w} ==> s'.procs[v] == (s'.procs - {w})[v] == (s.procs - {w})[v] == s.procs[v];
  }

  lemma ApiKeepsToken(s: State, l: ApiStep, place: Place, j: JobId)
    requires TokenOk(s, place, j) && ApiEnabled(s, l)
    ensures TokenOk(ApiNext(s, l), place, j)
  {
  }

  lemma HealthKeepsToken(s: State, l: HealthStep, place: Place, j: JobId)
    requires TokenOk(s, place, j) && HealthEnabled(s, l)
    ensures TokenOk(HealthNext(s, l), place, j)
  {
  }

  /** Handling the message at the read position takes it away and touches no other place. */
  lemma AtAfterHandle(s: State, p: nat, place: Place, j: JobId)
    requires CollectEnabled(s, Handle(p))
    ensures var s' := CollectNext(s, Handle(p));
            At(s', place, j) ==>
              At(s, place, j) && AttemptAt(s', place, j) == AttemptAt(s, place, j) && place != InResults(p, s.collector.pos[p])
  {
    if !place.InResults? { AtUpstream(s, CollectNext(s, Handle(p)), place, j); }
  }

  lemma HandleKeepsToken(s: State, p: nat, place: Place, j: JobId)
    requires CollectEnabled(s, Handle(p))
    requires TokenOk(s, place, j)
    requires TokenOk(s, InResults(p, s.collector.pos[p]), s.resultsTopic[p][s.collector.pos[p]].job)
    ensures TokenOk(CollectNext(s, Handle(p)), place, j)
  {
    assert At(s, InResults(p, s.collector.pos[p]), s.resultsTopic[p][s.collector.pos[p]].job);
    AtAfterHandle(s, p, place, j);
  }

  lemma RejoinKeepsToken(s: State, p: nat, place: Place, j: JobId)
    requires CollectEnabled(s, RejoinResults(p))
    requires TokenOk(s, place, j)
    ensures TokenOk(CollectNext(s, RejoinResults(p)), place, j)
  {
  }

  lemma CollectKeepsToken(s: State, l: CollectStep, place: Place, j: JobId)
    requires TokensOk(s) && CollectEnabled(s, l)
    ensures TokenOk(CollectNext(s, l), place, j)
  {
    assert TokenOk(s, place, j);
    if l.Handle? {
      HandleKeepsToken(s, l.partition, place, j);
    } else if l.RejoinResults? {
      RejoinKeepsToken(s, l.partition, place, j);
    }
  }

  lemma ReportKeepsToken(s: State, w: WorkerId, k: nat, p: nat, success: bool, error: string, place: Place, j: JobId)
    requires CollectorFits(s) && WorkEnabled(s, w, Report(k, p, success, error)) && k < s.procs[w].taken
    requires TokenOk(s, place, j)
    requires TokenOk(s, AtWorker(w, k), s.procs[w].pushed[k].job)
    ensures TokenOk(WorkNext(s, w, Report(k, p, success, error)), place, j)
  {
    assert At(s, AtWorker(w, k), s.procs[w].pushed[k].job);
    if place == InResults(p, |s.resultsTopic[p]|) {
      assert !At(s, place, j);
    }
  }

  lemma TakeKeepsToken(s: State, w: WorkerId, place: Place, j: JobId)
    requires WorkEnabled(s, w, Take) && TokenOk(s, place, j)
    ensures TokenOk(WorkNext(s, w, Take), place, j)
  {
  }

  lemma LossKeepsToken(s: State, w: WorkerId, l: WorkStep, place: Place, j: JobId)
    requires WorkEnabled(s, w, l) && (l.ReportLost? || l.ReportUnacknowledged?) && TokenOk(s, place, j)
    requires CollectorFits(s)
    ensures TokenOk(WorkNext(s, w, l), place, j)
  {
  }

  lemma WorkKeepsToken(s: State, w: WorkerId, l: WorkStep, place: Place, j: JobId)
    requires TokensOk(s) && Records.Positions(s) && WorkEnabled(s, w, l)
    ensures TokenOk(WorkNext(s, w, l), place, j)
  {
    assert Records.ProcOk(s.procs[w], s.jobsTopic);
    assert TokenOk(s, place, j);
    match l
    case Take => TakeKeepsToken(s, w, place, j);
    case Report(k, p, success, error) => ReportKeepsToken(s, w, k, p, success, error, place, j);
    case _ => LossKeepsToken(s, w, l, place, j);
  }

  /** Read positions do not run past the ends of the partitions. */
  ghost predicate CollectorFits(s: State) {
    |s.collector.pos| == |s.resultsTopic| && forall p :: 0 <= p < |s.resultsTopic| ==> s.collector.pos[p] <= |s.resultsTopic[p]|
  }

  lemma ConsumeKeepsToken(s: State, w: WorkerId, p: nat, place: Place, j: JobId)
    requires ReadEnabled(s, w, Consume(p))
    requires TokenOk(s, place, j)
    requires TokenOk(s, InLog(p, s.procs[w].group.pos[p]), s.jobsTopic[p][s.procs[w].group.pos[p]].job)
    ensures TokenOk(ReadNext(s, w, Consume(p)), place, j)
  {
    var o := s.procs[w].group.pos[p];
    var s' := ReadNext(s, w, Consume(p));
    if s.jobsTopic[p][o].worker == w {
      assert At(s, InLog(p, o), s.jobsTopic[p][o].job);
    }
    if Apart(s, w, place) {
      assert s'.procs - {w} == s.procs - {w};
      AtOtherWorkers(s, s', w, place, j);
    }
  }

  lemma ReadKeepsToken(s: State, w: WorkerId, l: ReadStep, place: Place, j: JobId)
    requires TokensOk(s) && ReadEnabled(s, w, l)
    requires Messages.LogOk(s.jobsTopic, s.book.issued) && Messages.IssuesGood(s)
    ensures TokenOk(ReadNext(s, w, l), place, j)
  {
    assert TokenOk(s, place, j);
    match l
    case Start => StartKeepsToken(s, w, place, j);
    case Consume(p) => ConsumeKeepsToken(s, w, p, place, j);
    case _ => LeaveKeepsToken(s, w, l, place, j);
  }

  /** A new process: no message in the log is addressed to it yet. */
  lemma StartKeepsToken(s: State, w: WorkerId, place: Place, j: JobId)
    requires ReadEnabled(s, w, Start) && TokenOk(s, place, j)
    requires Messages.LogOk(s.jobsTopic, s.book.issued) && Messages.IssuesGood(s)
    ensures TokenOk(ReadNext(s, w, Start), place, j)
  {
    if place.InLog? && Has(s.jobsTopic, place.partition, place.offset) {
      var m := s.jobsTopic[place.partition][place.offset];
      assert Messages.IssueFits((m.job, m.attempts), m, s.jobs, s.workers);
    }
  }

  lemma LeaveKeepsToken(s: State, w: WorkerId, l: ReadStep, place: Place, j: JobId)
    requires ReadEnabled(s, w, l) && TokenOk(s, place, j)
    requires l.Rejoin? || l.CommitOffset? || l.WorkerCrash?
    ensures TokenOk(ReadNext(s, w, l), place, j)
  {
  }

  lemma CommitKeepsToken(s: State, d: DispatcherId, order: seq<JobId>, place: Place, j: JobId)
    requires DispatchEnabled(s, d, Commit(order)) && Records.ClaimOk(PhaseOf(s, d), s.jobs, s.workers)
    requires TokenOk(s, place, j)
    ensures TokenOk(DispatchNext(s, d, Commit(order)), place, j)
  {
    var ph, s' := PhaseOf(s, d), DispatchNext(s, d, Commit(order));
    assert j in ph.ids <==> j in order;
    if place.Local? && place.dispatcher == d {
      if At(s', place, j) { assert order[place.index] == j; }
    } else {
      AtOutside(s, s', place, j);
    }
  }

  lemma PublishKeepsToken(s: State, d: DispatcherId, p: nat, place: Place, j: JobId)
    requires DispatchEnabled(s, d, Publish(p)) && Messages.BatchOk(PhaseOf(s, d), s.book.issued)
    requires TokenOk(s, place, j)
    requires TokenOk(s, Local(d, PhaseOf(s, d).next), PhaseOf(s, d).batch[PhaseOf(s, d).next].job)
    requires forall w :: w in s.procs ==> Records.ProcOk(s.procs[w], s.jobsTopic)
    ensures TokenOk(DispatchNext(s, d, Publish(p)), place, j)
  {
    assert At(s, Local(d, PhaseOf(s, d).next), PhaseOf(s, d).batch[PhaseOf(s, d).next].job);
  }

  lemma RollbackKeepsToken(s: State, d: DispatcherId, place: Place, j: JobId)
    requires DispatchEnabled(s, d, Rollback)
    requires TokenOk(s, place, j)
    requires TokenOk(s, Local(d, PhaseOf(s, d).next), PhaseOf(s, d).batch[PhaseOf(s, d).next].job)
    ensures TokenOk(DispatchNext(s, d, Rollback), place, j)
  {
    assert At(s, Local(d, PhaseOf(s, d).next), PhaseOf(s, d).batch[PhaseOf(s, d).next].job);
  }

  lemma StrayKeepsToken(s: State, d: DispatcherId, p: nat, place: Place, j: JobId)
    requires DispatchEnabled(s, d, PublishUnacknowledged(p))
    requires TokenOk(s, place, j)
    ensures TokenOk(DispatchNext(s, d, PublishUnacknowledged(p)), place, j)
  {
  }

  /** The dispatcher steps that touch neither rows nor the topic. */
  lemma QuietKeepsToken(s: State, d: DispatcherId, l: DispatchStep, place: Place, j: JobId)
    requires DispatchEnabled(s, d, l) && TokenOk(s, place, j)
    requires !l.Commit? && !l.Publish? && !l.PublishUnacknowledged? && !l.Rollback?
    ensures TokenOk(DispatchNext(s, d, l), place, j)
  {
    if !place.Local? || place.dispatcher != d { AtOutside(s, DispatchNext(s, d, l), place, j); }
  }

  lemma DispatchKeepsToken(s: State, d: DispatcherId, l: DispatchStep, place: Place, j: JobId)
    requires TokensOk(s) && Records.Positions(s) && Records.LocksOk(s) && DispatchEnabled(s, d, l)
    requires Messages.SentOk(s)
    ensures TokenOk(DispatchNext(s, d, l), place, j)
  {
    assert TokenOk(s, place, j);
    match l
    case Commit(order) => CommitKeepsToken(s, d, order, place, j);
    case Publish(p) => PublishKeepsToken(s, d, p, place, j);
    case Rollback => RollbackKeepsToken(s, d, place, j);
    case PublishUnacknowledged(p) => StrayKeepsToken(s, d, p, place, j);
    case _ => QuietKeepsToken(s, d, l, place, j);
  }

  lemma BuryKeepsToken(s: State, l: BuryStep, place: Place, j: JobId)
    requires TokenOk(s, place, j) && BuryEnabled(s, l)
    ensures TokenOk(BuryNext(s, l), place, j)
  {
  }
}
