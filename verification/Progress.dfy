/** A job that is never disturbed, lost or rolled back always has its message while RUNNING, and every
    step that touches it brings it closer to COMPLETED or DEAD. */
module Progress {
  import opened Types
  import opened Broker
  import opened Pipeline
  import opened Tokens
  import Records
  import Messages

  ghost predicate Smooth(s: State, j: JobId) {
    j in s.jobs && s.jobs[j].status.Running? && j !in s.book.rough ==>
      j in s.book.place && At(s, s.book.place[j], j)
  }

  /** Only rough jobs have been requeued or rolled back. */
  ghost predicate ExtrasAreRough(b: Ledger) {
    forall j :: j !in b.rough ==> b.requeues[j] == 0 && b.rollbacks[j] == 0
  }

  predicate RoughCovers(b: Ledger) { b.disturbed <= b.rough }

  lemma ApiKeepsSmooth(s: State, l: ApiStep, j: JobId)
    requires Smooth(s, j) && ApiEnabled(s, l)
    ensures Smooth(ApiNext(s, l), j)
  {
  }

  lemma HealthKeepsSmooth(s: State, l: HealthStep, j: JobId)
    requires Smooth(s, j) && HealthEnabled(s, l)
    ensures Smooth(HealthNext(s, l), j)
  {
  }

  /** Handling a result touches no other place. */
  lemma OthersStay(s: State, p: nat, place: Place, j: JobId)
    requires CollectEnabled(s, Handle(p)) && At(s, place, j) && place != InResults(p, s.collector.pos[p])
    ensures At(CollectNext(s, Handle(p)), place, j)
  {
    if !place.InResults? { AtUpstream(s, CollectNext(s, Handle(p)), place, j); }
  }

  lemma HandleEndsRunning(s: State, p: nat)
    requires CollectEnabled(s, Handle(p))
    ensures var j := s.resultsTopic[p][s.collector.pos[p]].job;
            j in CollectNext(s, Handle(p)).jobs && !CollectNext(s, Handle(p)).jobs[j].status.Running?
  {
  }

  lemma HandleKeepsSmooth(s: State, p: nat, j: JobId)
    requires Smooth(s, j) && CollectEnabled(s, Handle(p))
    ensures Smooth(CollectNext(s, Handle(p)), j)
  {
    HandleEndsRunning(s, p);
    if j != s.resultsTopic[p][s.collector.pos[p]].job && j in s.jobs && j in s.book.place && At(s, s.book.place[j], j) {
      OthersStay(s, p, s.book.place[j], j);
    }
  }

  lemma CollectKeepsSmooth(s: State, l: CollectStep, j: JobId)
    requires Smooth(s, j) && Records.Positions(s) && CollectEnabled(s, l)
    ensures Smooth(CollectNext(s, l), j)
  {
    if l.Handle? {
      HandleKeepsSmooth(s, l.partition, j);
    } else if j in s.book.place && !s.book.place[j].InResults? {
      AtUpstream(s, CollectNext(s, l), s.book.place[j], j);
    }
  }

  lemma TakeKeepsSmooth(s: State, w: WorkerId, j: JobId)
    requires Smooth(s, j) && WorkEnabled(s, w, Take)
    ensures Smooth(WorkNext(s, w, Take), j)
  {
  }

  lemma ReportKeepsSmooth(s: State, w: WorkerId, k: nat, p: nat, success: bool, error: string, j: JobId)
    requires Smooth(s, j) && WorkEnabled(s, w, Report(k, p, success, error)) && RoughCovers(s.book)
    requires Records.CollectorOk(s.collector, s.owing, s.resultsTopic) && k < s.procs[w].taken
    requires s.procs[w].pushed[k].job == j ==> TokenOk(s, AtWorker(w, k), j)
    ensures Smooth(WorkNext(s, w, Report(k, p, success, error)), j)
  {
    if s.procs[w].pushed[k].job == j {
      assert At(s, AtWorker(w, k), j);
    }
  }

  lemma LossKeepsSmooth(s: State, w: WorkerId, l: WorkStep, j: JobId)
    requires Smooth(s, j) && WorkEnabled(s, w, l) && (l.ReportLost? || l.ReportUnacknowledged?)
    requires Records.CollectorOk(s.collector, s.owing, s.resultsTopic) && l.index < s.procs[w].taken
    requires s.procs[w].pushed[l.index].job == j ==> TokenOk(s, AtWorker(w, l.index), j)
    requires RoughCovers(s.book)
    ensures Smooth(WorkNext(s, w, l), j)
  {
  }

  lemma WorkKeepsSmooth(s: State, w: WorkerId, l: WorkStep, j: JobId)
    requires Smooth(s, j) && WorkEnabled(s, w, l)
    requires Records.Positions(s)
    requires !l.Take? && s.procs[w].pushed[l.index].job == j ==> TokenOk(s, AtWorker(w, l.index), j)
    requires RoughCovers(s.book)
    ensures Smooth(WorkNext(s, w, l), j)
  {
    assert Records.ProcOk(s.procs[w], s.jobsTopic);
    match l
    case Take => TakeKeepsSmooth(s, w, j);
    case Report(k, p, success, error) => ReportKeepsSmooth(s, w, k, p, success, error, j);
    case _ => LossKeepsSmooth(s, w, l, j);
  }

  lemma HolderIsWorker(s: State, place: Place, j: JobId)
    requires TokenOk(s, place, j) && At(s, place, j) && j !in s.book.disturbed
    requires Messages.SentOk(s) && Messages.IssuesGood(s)
    ensures s.jobs[j].worker == Some(WorkerAt(s, place, j))
  {
    match place
    case Local(d, i) => assert Messages.IsIssued(s.book.issued, s.dispatchers[d].batch[i]) by {
      assert Messages.BatchOk(s.dispatchers[d], s.book.issued);
    }
    case InLog(p, o) => assert Messages.IsIssued(s.book.issued, s.jobsTopic[p][o]);
    case AtWorker(w, k) => assert Messages.IsIssued(s.book.issued, s.procs[w].pushed[k]) by {
      assert Messages.HeldOk(w, s.procs[w], s.book.issued);
    }
    case InResults(p, o) => assert Messages.Sourced(s.book.issued, s.resultsTopic[p][o]);
  }

  lemma CrashKeepsSmooth(s: State, w: WorkerId, j: JobId)
    requires Smooth(s, j) && TokensOk(s) && RoughCovers(s.book) && ReadEnabled(s, w, WorkerCrash)
    requires Messages.SentOk(s) && Messages.IssuesGood(s)
    ensures Smooth(ReadNext(s, w, WorkerCrash), j)
  {
    if j in s.jobs && s.jobs[j].status.Running? && j !in s.book.rough {
      var place, s' := s.book.place[j], ReadNext(s, w, WorkerCrash);
      assert TokenOk(s, place, j);
      HolderIsWorker(s, place, j);
      if place.AtWorker? { assert Messages.HeldOk(place.worker, s.procs[place.worker], s.book.issued); }
      if WorkerAt(s, place, j) != w {
        assert s'.procs - {w} == s.procs - {w};
        AtOtherWorkers(s, s', w, place, j);
      } else {
        assert j in AssignedTo(s.jobs, w);
      }
    }
  }

  lemma ConsumeKeepsSmooth(s: State, w: WorkerId, p: nat, j: JobId)
    requires ReadEnabled(s, w, Consume(p)) && Smooth(s, j) && RoughCovers(s.book)
    requires TokenOk(s, InLog(p, s.procs[w].group.pos[p]), j)
    ensures Smooth(ReadNext(s, w, Consume(p)), j)
  {
    var o, s' := s.procs[w].group.pos[p], ReadNext(s, w, Consume(p));
    if s.jobsTopic[p][o].job == j && s.jobsTopic[p][o].worker == w {
      assert At(s, InLog(p, o), j);
    } else if j in s.book.place && Apart(s, w, s.book.place[j]) {
      assert s'.procs - {w} == s.procs - {w};
      AtOtherWorkers(s, s', w, s.book.place[j], j);
    }
  }

  lemma ReadKeepsSmooth(s: State, w: WorkerId, l: ReadStep, j: JobId)
    requires Smooth(s, j) && TokensOk(s) && RoughCovers(s.book) && ReadEnabled(s, w, l)
    requires Messages.SentOk(s) && Messages.IssuesGood(s) && Records.Positions(s)
    ensures Smooth(ReadNext(s, w, l), j)
  {
    match l
    case WorkerCrash => CrashKeepsSmooth(s, w, j);
    case Consume(p) =>
      assert TokenOk(s, InLog(p, s.procs[w].group.pos[p]), j);
      ConsumeKeepsSmooth(s, w, p, j);
    case Rejoin(p) => RejoinKeepsSmooth(s, w, p, j);
    case CommitOffset(p) => OffsetKeepsSmooth(s, w, p, j);
    case Start => StartKeepsSmooth(s, w, j);
  }

  lemma RejoinKeepsSmooth(s: State, w: WorkerId, p: nat, j: JobId)
    requires Smooth(s, j) && ReadEnabled(s, w, Rejoin(p)) && Records.ProcOk(s.procs[w], s.jobsTopic)
    ensures Smooth(ReadNext(s, w, Rejoin(p)), j)
  {
  }

  lemma OffsetKeepsSmooth(s: State, w: WorkerId, p: nat, j: JobId)
    requires Smooth(s, j) && ReadEnabled(s, w, CommitOffset(p))
    ensures Smooth(ReadNext(s, w, CommitOffset(p)), j)
  {
  }

  lemma StartKeepsSmooth(s: State, w: WorkerId, j: JobId)
    requires Smooth(s, j) && ReadEnabled(s, w, Start)
    ensures Smooth(ReadNext(s, w, Start), j)
  {
  }

  lemma PublishKeepsSmooth(s: State, d: DispatcherId, p: nat, j: JobId)
    requires Smooth(s, j) && DispatchEnabled(s, d, Publish(p)) && RoughCovers(s.book)
    requires TokenOk(s, Local(d, PhaseOf(s, d).next), PhaseOf(s, d).batch[PhaseOf(s, d).next].job)
    requires forall w :: w in s.procs ==> Records.ProcOk(s.procs[w], s.jobsTopic)
    ensures Smooth(DispatchNext(s, d, Publish(p)), j)
  {
    var m := PhaseOf(s, d).batch[PhaseOf(s, d).next];
    assert At(s, Local(d, PhaseOf(s, d).next), m.job);
    if m.worker in s.procs { assert Records.ProcOk(s.procs[m.worker], s.jobsTopic); }
  }

  lemma CommitKeepsSmooth(s: State, d: DispatcherId, order: seq<JobId>, j: JobId)
    requires Smooth(s, j) && DispatchEnabled(s, d, Commit(order))
    ensures Smooth(DispatchNext(s, d, Commit(order)), j)
  {
    var s' := DispatchNext(s, d, Commit(order));
    assert j in PhaseOf(s, d).ids <==> j in order;
    if j in order {
      var i :| 0 <= i < |order| && order[i] == j;
      assert s'.book.place[j] == Local(d, i);
    } else if j in s.book.place && (!s.book.place[j].Local? || s.book.place[j].dispatcher != d) {
      AtOutside(s, s', s.book.place[j], j);
    }
  }

  lemma QuietKeepsSmooth(s: State, d: DispatcherId, l: DispatchStep, j: JobId)
    requires Smooth(s, j) && DispatchEnabled(s, d, l)
    requires !l.Commit? && !l.Publish? && !l.PublishUnacknowledged?
    ensures Smooth(DispatchNext(s, d, l), j)
  {
    if j in s.book.place && (!s.book.place[j].Local? || s.book.place[j].dispatcher != d) {
      AtOutside(s, DispatchNext(s, d, l), s.book.place[j], j);
    }
  }

  lemma DispatchKeepsSmooth(s: State, d: DispatcherId, l: DispatchStep, j: JobId)
    requires Smooth(s, j) && TokensOk(s) && RoughCovers(s.book) && DispatchEnabled(s, d, l)
    requires Records.Positions(s)
    ensures Smooth(DispatchNext(s, d, l), j)
  {
    match l
    case Publish(p) => PublishKeepsSmooth(s, d, p, j);
    case PublishUnacknowledged(p) =>
    case Commit(order) => CommitKeepsSmooth(s, d, order, j);
    case _ => QuietKeepsSmooth(s, d, l, j);
  }

  lemma BuryKeepsSmooth(s: State, l: BuryStep, j: JobId)
    requires Smooth(s, j) && BuryEnabled(s, l)
    ensures Smooth(BuryNext(s, l), j)
  {
  }
}
