/** A smooth job goes through: it has a continuation that ends it and keeps it smooth, unless it is already
    lost with its dispatcher. */
module Finishing {
  import opened Types
  import opened Broker
  import opened Pipeline
  import opened Tokens
  import opened Lifecycle
  import opened Termination
  import Messages
  import Outcomes
  import Progress
  import Records
  import Recovering
  import Guarantees

  /** RUNNING, and its message is on its way. */
  predicate Carried(s: State, j: JobId) { j in s.jobs && s.jobs[j].status.Running? && j !in s.book.rough }

  /** The dispatcher still holds the message, and its publish has failed, or it is for a worker process that
      is gone. */
  predicate Doomed(s: State, j: JobId) {
    && Carried(s, j) && Outstanding(s, j) && s.book.place[j].Local?
    && var Local(d, i) := s.book.place[j];
    var ph := s.dispatchers[d];
    (ph.failed && ph.next == i) || ph.batch[i].worker !in s.procs
  }

  lemma CarriedIsOutstanding(s: State, j: JobId)
    requires Inv(s) && Carried(s, j)
    ensures Outstanding(s, j)
  {
    assert Progress.Smooth(s, j);
  }

  /** Messages elsewhere are of other jobs. */
  lemma OnlyThere(s: State, place: Place, i: JobId, j: JobId)
    requires Inv(s) && Carried(s, j) && Outstanding(s, j) && At(s, place, i) && place != s.book.place[j]
    ensures i != j
  {
    assert TokenOk(s, place, i);
  }

  // ----- How far it is to the next stage -----

  function PositionsOf(s: State, w: WorkerId): seq<nat> { if w in s.procs then s.procs[w].group.pos else [] }

  function Gap(from: nat, to: nat): nat { if from <= to then to - from else 0 }

  function Waiting(s: State, w: WorkerId): nat { if w in s.procs then Gap(s.procs[w].taken, |s.procs[w].pushed|) else 0 }

  function Busy(s: State, w: WorkerId): nat { if w in s.procs then |s.procs[w].executing| else 0 }

  function Reader(s: State, p: nat, o: nat): WorkerId { if Has(s.jobsTopic, p, o) then s.jobsTopic[p][o].worker else 0 }

  function A(s: State, place: Place): nat {
    match place
    case Local(d, i) => if PhaseOf(s, d).Publishing? then Gap(PhaseOf(s, d).next, i) else 0
    case InLog(p, o) => var pos := PositionsOf(s, Reader(s, p, o)); if p < |pos| then Gap(pos[p], o) else 0
    case AtWorker(w, k) => if w in s.procs then Gap(s.procs[w].taken, k) else 0
    case InResults(_, _) => |Recovering.Claimers(s)|
  }

  function B(s: State, place: Place): nat {
    match place
    case Local(_, _) => 0
    case InLog(p, o) => Waiting(s, Reader(s, p, o))
    case AtWorker(w, _) => Busy(s, w)
    case InResults(p, o) => if p < |s.collector.pos| then Gap(s.collector.pos[p], o) else 0
  }

  function C(s: State, place: Place): nat {
    match place
    case Local(_, _) => 0
    case InLog(p, o) => Busy(s, Reader(s, p, o))
    case AtWorker(_, _) => 0
    case InResults(p, _) => One(p !in s.owing)
  }

  predicate Nearer(s: State, s': State, place: Place) {
    || A(s', place) < A(s, place)
    || (A(s', place) == A(s, place)
        && (B(s', place) < B(s, place) || (B(s', place) == B(s, place) && C(s', place) < C(s, place))))
  }

  /** The step keeps the job on its way, and takes it to the next stage or nearer to it. */
  ghost predicate Helps(s: State, s': State, j: JobId)
    requires j in s.book.place
  {
    && j in s'.jobs && j !in s'.book.rough && !Doomed(s', j)
    && (!Untouched(s, s', j) || (j in s'.book.place && s'.book.place[j] == s.book.place[j] && Nearer(s, s', s.book.place[j])))
  }

  // ----- In the dispatcher -----

  lemma EarlierHelps(s: State, j: JobId, d: DispatcherId, l: DispatchStep)
    requires Carried(s, j) && Outstanding(s, j) && !Doomed(s, j) && |s.jobsTopic| > 0
    requires s.book.place[j].Local? && s.book.place[j].dispatcher == d && s.dispatchers[d].next < s.book.place[j].index
    requires Messages.BatchOk(s.dispatchers[d], s.book.issued)
    requires l == if s.dispatchers[d].failed then RollbackFails else Publish(0)
    ensures DispatchEnabled(s, d, l) && Helps(s, DispatchNext(s, d, l), j)
  {
    var ph := s.dispatchers[d];
    assert ph.batch[ph.next].job != ph.batch[s.book.place[j].index].job;
  }

  lemma OwnPublishHelps(s: State, j: JobId, d: DispatcherId)
    requires Carried(s, j) && Outstanding(s, j) && !Doomed(s, j) && |s.jobsTopic| > 0
    requires s.book.place[j].Local? && s.book.place[j].dispatcher == d && s.dispatchers[d].next == s.book.place[j].index
    ensures DispatchEnabled(s, d, Publish(0)) && Helps(s, DispatchNext(s, d, Publish(0)), j)
  {
  }

  lemma LocalStep(s: State, j: JobId) returns (l: Label)
    requires Inv(s) && Carried(s, j) && Outstanding(s, j) && !Doomed(s, j) && |s.jobsTopic| > 0
    requires s.book.place[j].Local?
    ensures Enabled(s, l) && Helps(s, Next(s, l), j)
  {
    var Local(d, i) := s.book.place[j];
    if s.dispatchers[d].next < i {
      assert Messages.BatchOk(s.dispatchers[d], s.book.issued);
      var a := if s.dispatchers[d].failed then RollbackFails else Publish(0);
      EarlierHelps(s, j, d, a);
      l := Dispatch(d, a);
    } else {
      OwnPublishHelps(s, j, d);
      l := Dispatch(d, Publish(0));
    }
  }

  // ----- In the jobs log, and at the worker -----

  lemma OtherConsumeHelps(s: State, j: JobId, w: WorkerId, p: nat, o: nat)
    requires Carried(s, j) && Outstanding(s, j)
    requires s.book.place[j] == InLog(p, o) && s.jobsTopic[p][o].worker == w
    requires s.procs[w].taken <= |s.procs[w].pushed| <= s.procs[w].taken + JOB_CHAN_CAPACITY
    requires s.procs[w].group.pos[p] < o
    requires s.jobsTopic[p][s.procs[w].group.pos[p]].worker == w ==> s.jobsTopic[p][s.procs[w].group.pos[p]].job != j
    ensures ReadEnabled(s, w, Consume(p)) && Helps(s, ReadNext(s, w, Consume(p)), j)
  {
  }

  lemma OwnConsumeHelps(s: State, j: JobId, w: WorkerId, p: nat, o: nat)
    requires Carried(s, j) && Outstanding(s, j)
    requires s.book.place[j] == InLog(p, o) && s.jobsTopic[p][o].worker == w
    requires s.procs[w].taken <= |s.procs[w].pushed| <= s.procs[w].taken + JOB_CHAN_CAPACITY
    requires s.procs[w].group.pos[p] == o
    ensures ReadEnabled(s, w, Consume(p)) && Helps(s, ReadNext(s, w, Consume(p)), j)
  {
  }

  lemma ConsumeHelps(s: State, j: JobId, w: WorkerId, p: nat, o: nat)
    requires Inv(s) && Carried(s, j) && Outstanding(s, j)
    requires s.book.place[j] == InLog(p, o) && s.jobsTopic[p][o].worker == w
    requires |s.procs[w].pushed| - s.procs[w].taken <= JOB_CHAN_CAPACITY
    ensures ReadEnabled(s, w, Consume(p)) && Helps(s, ReadNext(s, w, Consume(p)), j)
  {
    assert Records.ProcOk(s.procs[w], s.jobsTopic);
    var q := s.procs[w].group.pos[p];
    if q < o {
      if s.jobsTopic[p][q].worker == w { OnlyThere(s, InLog(p, q), s.jobsTopic[p][q].job, j); }
      OtherConsumeHelps(s, j, w, p, o);
    } else {
      OwnConsumeHelps(s, j, w, p, o);
    }
  }

  /** The job is on its way to the worker's executor, or on its channel. */
  predicate Bound(s: State, j: JobId, w: WorkerId) {
    && Carried(s, j) && Outstanding(s, j) && w in s.procs
    && match s.book.place[j]
       case InLog(p, o) => s.jobsTopic[p][o].worker == w
       case AtWorker(v, k) => v == w && k !in s.procs[w].executing
       case _ => false
  }

  lemma TakeHelps(s: State, j: JobId, w: WorkerId)
    requires Bound(s, j, w) && s.procs[w].taken < |s.procs[w].pushed| && |s.procs[w].executing| < MAX_CONCURRENCY
    ensures WorkEnabled(s, w, Take) && Helps(s, WorkNext(s, w, Take), j)
  {
  }

  /** Another job of the worker is reported. */
  lemma OtherReportHelps(s: State, j: JobId, w: WorkerId, k: nat)
    requires Bound(s, j, w) && |s.resultsTopic| > 0
    requires k in s.procs[w].executing && k < s.procs[w].taken <= |s.procs[w].pushed| && s.procs[w].pushed[k].job != j
    ensures WorkEnabled(s, w, Report(k, 0, true, "")) && Helps(s, WorkNext(s, w, Report(k, 0, true, "")), j)
  {
  }

  lemma OwnReportHelps(s: State, j: JobId, w: WorkerId, k: nat)
    requires Carried(s, j) && Outstanding(s, j) && |s.resultsTopic| > 0
    requires s.book.place[j] == AtWorker(w, k) && k in s.procs[w].executing
    ensures WorkEnabled(s, w, Report(k, 0, true, "")) && Helps(s, WorkNext(s, w, Report(k, 0, true, "")), j)
  {
  }

  /** Make room at the worker: take a job, or if all slots are in use report one. */
  lemma MakeRoom(s: State, j: JobId, w: WorkerId) returns (l: Label)
    requires Inv(s) && Bound(s, j, w) && |s.resultsTopic| > 0 && s.procs[w].taken < |s.procs[w].pushed|
    ensures Enabled(s, l) && Helps(s, Next(s, l), j)
  {
    if |s.procs[w].executing| < MAX_CONCURRENCY {
      TakeHelps(s, j, w);
      l := Work(w, Take);
    } else {
      var k :| k in s.procs[w].executing;
      assert Records.ProcOk(s.procs[w], s.jobsTopic);
      OnlyThere(s, AtWorker(w, k), s.procs[w].pushed[k].job, j);
      OtherReportHelps(s, j, w, k);
      l := Work(w, Report(k, 0, true, ""));
    }
  }

  lemma LogStep(s: State, j: JobId) returns (l: Label)
    requires Inv(s) && Carried(s, j) && Outstanding(s, j) && s.book.place[j].InLog? && |s.resultsTopic| > 0
    ensures Enabled(s, l) && Helps(s, Next(s, l), j)
  {
    var InLog(p, o) := s.book.place[j];
    var w := s.jobsTopic[p][o].worker;
    if |s.procs[w].pushed| - s.procs[w].taken <= JOB_CHAN_CAPACITY {
      ConsumeHelps(s, j, w, p, o);
      l := Read(w, Consume(p));
    } else {
      l := MakeRoom(s, j, w);
    }
  }

  lemma WorkerStep(s: State, j: JobId) returns (l: Label)
    requires Inv(s) && Carried(s, j) && Outstanding(s, j) && s.book.place[j].AtWorker? && |s.resultsTopic| > 0
    ensures Enabled(s, l) && Helps(s, Next(s, l), j)
  {
    var AtWorker(w, k) := s.book.place[j];
    if k in s.procs[w].executing {
      OwnReportHelps(s, j, w, k);
      l := Work(w, Report(k, 0, true, ""));
    } else {
      l := MakeRoom(s, j, w);
    }
  }

  // ----- In the results log -----

  lemma AbortHelps(s: State, j: JobId, d: DispatcherId)
    requires Carried(s, j) && Outstanding(s, j) && s.book.place[j].InResults? && d in Recovering.Claimers(s)
    ensures DispatchEnabled(s, d, Abort) && Helps(s, DispatchNext(s, d, Abort), j)
  {
    assert Recovering.Claimers(DispatchNext(s, d, Abort)) == Recovering.Claimers(s) - {d};
  }

  lemma PayHelps(s: State, j: JobId, p: nat, o: nat)
    requires Carried(s, j) && Outstanding(s, j) && s.book.place[j] == InResults(p, o) && p in s.owing && |s.deadTopic| > 0
    ensures CollectEnabled(s, PublishDead(p, 0)) && Helps(s, CollectNext(s, PublishDead(p, 0)), j)
  {
    assert Recovering.Claimers(CollectNext(s, PublishDead(p, 0))) == Recovering.Claimers(s);
  }

  lemma OtherHandleHelps(s: State, j: JobId, p: nat, o: nat)
    requires Carried(s, j) && Outstanding(s, j) && s.book.place[j] == InResults(p, o)
    requires CollectEnabled(s, Handle(p)) && Recovering.Claimers(s) == {}
    requires s.collector.pos[p] < o && s.resultsTopic[p][s.collector.pos[p]].job != j
    ensures Helps(s, CollectNext(s, Handle(p)), j)
  {
    assert Recovering.Claimers(CollectNext(s, Handle(p))) == {};
  }

  lemma OwnHandleHelps(s: State, j: JobId, p: nat, o: nat)
    requires Carried(s, j) && Outstanding(s, j) && s.book.place[j] == InResults(p, o)
    requires CollectEnabled(s, Handle(p)) && s.collector.pos[p] == o
    ensures Helps(s, CollectNext(s, Handle(p)), j)
  {
  }

  lemma HandleHelps(s: State, j: JobId, p: nat, o: nat)
    requires Inv(s) && Carried(s, j) && Outstanding(s, j) && s.book.place[j] == InResults(p, o) && p !in s.owing
    requires Recovering.Claimers(s) == {}
    ensures CollectEnabled(s, Handle(p)) && Helps(s, CollectNext(s, Handle(p)), j)
  {
    var q := s.collector.pos[p];
    Recovering.NoClaimsNoLocks(s);
    Outcomes.ResultsNameJobs(s, p, q);
    if q < o {
      OnlyThere(s, InResults(p, q), s.resultsTopic[p][q].job, j);
      OtherHandleHelps(s, j, p, o);
    } else {
      OwnHandleHelps(s, j, p, o);
    }
  }

  lemma ResultStep(s: State, j: JobId) returns (l: Label)
    requires Inv(s) && Carried(s, j) && Outstanding(s, j) && s.book.place[j].InResults? && |s.deadTopic| > 0
    ensures Enabled(s, l) && Helps(s, Next(s, l), j)
  {
    var InResults(p, o) := s.book.place[j];
    if Recovering.Claimers(s) != {} {
      var d :| d in Recovering.Claimers(s);
      AbortHelps(s, j, d);
      l := Dispatch(d, Abort);
    } else if p in s.owing {
      PayHelps(s, j, p, o);
      l := Collect(PublishDead(p, 0));
    } else {
      HandleHelps(s, j, p, o);
      l := Collect(Handle(p));
    }
  }

  // ----- All the way -----

  /** There is a partition in every topic. */
  predicate Wired(s: State) { |s.jobsTopic| > 0 && |s.resultsTopic| > 0 && |s.deadTopic| > 0 }

  lemma HelpfulStep(s: State, j: JobId) returns (l: Label)
    requires Inv(s) && Carried(s, j) && Outstanding(s, j) && !Doomed(s, j) && Wired(s)
    ensures Enabled(s, l) && Helps(s, Next(s, l), j)
  {
    match s.book.place[j]
    case Local(_, _) => l := LocalStep(s, j);
    case InLog(_, _) => l := LogStep(s, j);
    case AtWorker(_, _) => l := WorkerStep(s, j);
    case InResults(_, _) => l := ResultStep(s, j);
  }

  /** One step of the way, with the measure it lowers. */
  lemma Onward(s: State, j: JobId) returns (l: Label)
    requires Inv(s) && Carried(s, j) && !Doomed(s, j) && Wired(s)
    ensures Enabled(s, l) && Inv(Next(s, l)) && Wired(Next(s, l))
    ensures j in Next(s, l).jobs && j !in Next(s, l).book.rough && !Doomed(Next(s, l), j)
    ensures 0 <= Rank(Next(s, l), j) <= Rank(s, j)
    ensures Rank(Next(s, l), j) == Rank(s, j) ==> PlaceOf(Next(s, l), j) == PlaceOf(s, j) && Nearer(s, Next(s, l), PlaceOf(s, j))
  {
    CarriedIsOutstanding(s, j);
    l := HelpfulStep(s, j);
    StepKeepsWires(s, l);
    KeepsInv(s, l);
    SmoothIsLimited(Next(s, l), j);
    StepComesCloser(s, l, j);
  }

  /** Step by step, a job on its way reaches its verdict. */
  lemma {:induction false} CarriedJobGetsVerdict(s: State, j: JobId) returns (run: seq<Label>, e: State)
    requires Inv(s) && j in s.jobs && j !in s.book.rough && !Doomed(s, j) && Wired(s)
    ensures Leads(s, run, e) && Inv(e) && Wired(e)
    ensures j in e.jobs && j !in e.book.rough && !e.jobs[j].status.Running?
    decreases Rank(s, j), A(s, PlaceOf(s, j)), B(s, PlaceOf(s, j)), C(s, PlaceOf(s, j))
  {
    if !s.jobs[j].status.Running? {
      run, e := [], s;
      assert Leads(s, [], s);
    } else {
      var l := Onward(s, j);
      var more;
      more, e := CarriedJobGetsVerdict(Next(s, l), j);
      First(s, l, more, e);
      run := [l] + more;
    }
  }

  function PlaceOf(s: State, j: JobId): Place { if j in s.book.place then s.book.place[j] else Local(0, 0) }

  lemma StepKeepsWires(s: State, l: Label)
    requires Enabled(s, l) && Wired(s)
    ensures Wired(Next(s, l))
  {
    match l
    case Api(a) => assert Wired(ApiNext(s, a));
    case Dispatch(d, a) => DispatchKeepsWires(s, d, a);
    case Read(w, a) => assert Wired(ReadNext(s, w, a));
    case Work(w, a) => WorkKeepsWires(s, w, a);
    case Health(a) => assert Wired(HealthNext(s, a));
    case Collect(a) => CollectKeepsWires(s, a);
    case Bury(a) => assert Wired(BuryNext(s, a));
  }

  lemma DispatchKeepsWires(s: State, d: DispatcherId, l: DispatchStep)
    requires DispatchEnabled(s, d, l) && Wired(s)
    ensures Wired(DispatchNext(s, d, l))
  {
  }

  lemma WorkKeepsWires(s: State, w: WorkerId, l: WorkStep)
    requires WorkEnabled(s, w, l) && Wired(s)
    ensures Wired(WorkNext(s, w, l))
  {
  }

  lemma CollectKeepsWires(s: State, l: CollectStep)
    requires CollectEnabled(s, l) && Wired(s)
    ensures Wired(CollectNext(s, l))
  {
  }

  /** And then, if that was a retry, on from there. */
  lemma SmoothJobFinishes(s: State, j: JobId) returns (run: seq<Label>, e: State)
    requires Inv(s) && j in s.jobs && j !in s.book.rough && !Doomed(s, j) && Wired(s)
    ensures Leads(s, run, e) && j in e.jobs && e.jobs[j].Terminal() && j !in e.book.rough
  {
    run, e := CarriedJobGetsVerdict(s, j);
    SmoothIsLimited(e, j);
    assert Outcomes.RowOk(e.jobs[j], e.workers);
    if e.jobs[j].Pending() {
      var s1, more := e, [];
      more, e := Recovering.UnfinishedJobsCanComplete(s1, j);
      RunsCompose(s, run, s1, more, e);
      run := run + more;
    }
  }

  // ----- What is doomed stays so -----

  /** The step leaves the job lost with its dispatcher, or the ledger notes it. */
  ghost predicate StillDoomed(s: State, s': State, j: JobId) { j in s'.book.rough || Doomed(s', j) }

  lemma ApiLeavesDoomed(s: State, l: ApiStep, j: JobId)
    requires ApiEnabled(s, l) && Doomed(s, j)
    ensures StillDoomed(s, ApiNext(s, l), j)
  {
  }

  lemma CommitLeavesDoomed(s: State, d: DispatcherId, order: seq<JobId>, j: JobId)
    requires DispatchEnabled(s, d, Commit(order)) && Doomed(s, j) && j !in PhaseOf(s, d).ids
    ensures StillDoomed(s, DispatchNext(s, d, Commit(order)), j)
  {
    var s' := DispatchNext(s, d, Commit(order));
    var own := s.book.place[j].dispatcher;
    assert j !in order && j !in Placing(d, order);
    assert s'.jobs[j] == s.jobs[j] && s'.book.place[j] == s.book.place[j] && s'.book.rough == s.book.rough;
    assert d != own && s'.dispatchers[own] == s.dispatchers[own] && s'.procs == s.procs;
    AtOutside(s, s', s.book.place[j], j);
  }

  lemma PublishLeavesDoomed(s: State, d: DispatcherId, l: DispatchStep, j: JobId)
    requires DispatchEnabled(s, d, l) && Doomed(s, j) && (l.Publish? || l.PublishUnacknowledged? || l.PublishFails?)
    requires Messages.BatchOk(PhaseOf(s, d), s.book.issued)
    requires d != s.book.place[j].dispatcher ==> PhaseOf(s, d).batch[PhaseOf(s, d).next].job != j
    ensures StillDoomed(s, DispatchNext(s, d, l), j)
  {
  }

  lemma RollbackLeavesDoomed(s: State, d: DispatcherId, l: DispatchStep, j: JobId)
    requires DispatchEnabled(s, d, l) && Doomed(s, j) && (l.Rollback? || l.RollbackFails?)
    requires Messages.BatchOk(PhaseOf(s, d), s.book.issued)
    ensures StillDoomed(s, DispatchNext(s, d, l), j)
  {
  }

  lemma QuietLeavesDoomed(s: State, d: DispatcherId, l: DispatchStep, j: JobId)
    requires DispatchEnabled(s, d, l) && Doomed(s, j)
    requires l.Lock? || l.Abort? || l.Finish?
    ensures StillDoomed(s, DispatchNext(s, d, l), j)
  {
    var s' := DispatchNext(s, d, l);
    var own := s.book.place[j].dispatcher;
    assert d != own;
    assert s'.dispatchers[own] == s.dispatchers[own] && s'.book == s.book && s'.procs == s.procs;
    AtOutside(s, s', s.book.place[j], j);
  }

  lemma DispatcherCrashLeavesDoomed(s: State, d: DispatcherId, j: JobId)
    requires DispatchEnabled(s, d, DispatcherCrash) && Doomed(s, j)
    ensures StillDoomed(s, DispatchNext(s, d, DispatcherCrash), j)
  {
    var Local(own, i) := s.book.place[j];
    if own == d {
      assert PhaseOf(s, d).batch[i].job == j;
      assert j in Unsent(PhaseOf(s, d));
    }
  }

  lemma DispatchLeavesDoomed(s: State, d: DispatcherId, l: DispatchStep, j: JobId)
    requires Inv(s) && DispatchEnabled(s, d, l) && Doomed(s, j)
    ensures StillDoomed(s, DispatchNext(s, d, l), j)
  {
    if l.Commit? {
      assert Records.ClaimOk(PhaseOf(s, d), s.jobs, s.workers);
      CommitLeavesDoomed(s, d, l.order, j);
    } else if l.Lock? || l.Abort? || l.Finish? {
      QuietLeavesDoomed(s, d, l, j);
    } else if l.DispatcherCrash? {
      DispatcherCrashLeavesDoomed(s, d, j);
    } else {
      assert Messages.BatchOk(PhaseOf(s, d), s.book.issued);
      if d != s.book.place[j].dispatcher {
        OnlyThere(s, Local(d, PhaseOf(s, d).next), PhaseOf(s, d).batch[PhaseOf(s, d).next].job, j);
      }
      if l.Rollback? || l.RollbackFails? { RollbackLeavesDoomed(s, d, l, j); } else { PublishLeavesDoomed(s, d, l, j); }
    }
  }

  lemma ConsumeLeavesDoomed(s: State, w: WorkerId, p: nat, j: JobId)
    requires ReadEnabled(s, w, Consume(p)) && Doomed(s, j)
    requires var m := s.jobsTopic[p][s.procs[w].group.pos[p]]; m.worker == w ==> m.job != j
    ensures StillDoomed(s, ReadNext(s, w, Consume(p)), j)
  {
  }

  lemma ComingLeavesDoomed(s: State, w: WorkerId, l: ReadStep, j: JobId)
    requires ReadEnabled(s, w, l) && Doomed(s, j) && !l.Consume?
    requires s.jobs[j].worker == Some(WorkerAt(s, s.book.place[j], j)) && s.jobs[j].worker.value in s.workers
    ensures StillDoomed(s, ReadNext(s, w, l), j)
  {
  }

  lemma ReadLeavesDoomed(s: State, w: WorkerId, l: ReadStep, j: JobId)
    requires Inv(s) && ReadEnabled(s, w, l) && Doomed(s, j)
    ensures StillDoomed(s, ReadNext(s, w, l), j)
  {
    if l.Consume? {
      var q := s.procs[w].group.pos[l.partition];
      assert Records.ProcOk(s.procs[w], s.jobsTopic);
      if s.jobsTopic[l.partition][q].worker == w { OnlyThere(s, InLog(l.partition, q), s.jobsTopic[l.partition][q].job, j); }
      ConsumeLeavesDoomed(s, w, l.partition, j);
    } else {
      assert TokenOk(s, s.book.place[j], j);
      Progress.HolderIsWorker(s, s.book.place[j], j);
      assert Outcomes.RowOk(s.jobs[j], s.workers);
      ComingLeavesDoomed(s, w, l, j);
    }
  }

  lemma TakeLeavesDoomed(s: State, w: WorkerId, j: JobId)
    requires WorkEnabled(s, w, Take) && Doomed(s, j)
    ensures StillDoomed(s, WorkNext(s, w, Take), j)
  {
  }

  lemma ReportLeavesDoomed(s: State, w: WorkerId, l: WorkStep, j: JobId)
    requires WorkEnabled(s, w, l) && Doomed(s, j) && !l.Take? && s.procs[w].pushed[l.index].job != j
    ensures StillDoomed(s, WorkNext(s, w, l), j)
  {
  }

  lemma WorkLeavesDoomed(s: State, w: WorkerId, l: WorkStep, j: JobId)
    requires Inv(s) && WorkEnabled(s, w, l) && Doomed(s, j)
    ensures StillDoomed(s, WorkNext(s, w, l), j)
  {
    if l.Take? {
      TakeLeavesDoomed(s, w, j);
    } else {
      OnlyThere(s, AtWorker(w, l.index), s.procs[w].pushed[l.index].job, j);
      ReportLeavesDoomed(s, w, l, j);
    }
  }

  lemma HealthLeavesDoomed(s: State, l: HealthStep, j: JobId)
    requires HealthEnabled(s, l) && Doomed(s, j)
    ensures StillDoomed(s, HealthNext(s, l), j)
  {
  }

  lemma HandleLeavesDoomed(s: State, p: nat, j: JobId)
    requires CollectEnabled(s, Handle(p)) && Doomed(s, j) && s.resultsTopic[p][s.collector.pos[p]].job != j
    ensures StillDoomed(s, CollectNext(s, Handle(p)), j)
  {
  }

  lemma OtherwiseLeavesDoomed(s: State, l: CollectStep, j: JobId)
    requires CollectEnabled(s, l) && Doomed(s, j) && !l.Handle?
    ensures StillDoomed(s, CollectNext(s, l), j)
  {
  }

  lemma CollectLeavesDoomed(s: State, l: CollectStep, j: JobId)
    requires Inv(s) && CollectEnabled(s, l) && Doomed(s, j)
    ensures StillDoomed(s, CollectNext(s, l), j)
  {
    if l.Handle? {
      var p := l.partition;
      OnlyThere(s, InResults(p, s.collector.pos[p]), s.resultsTopic[p][s.collector.pos[p]].job, j);
      HandleLeavesDoomed(s, p, j);
    } else {
      OtherwiseLeavesDoomed(s, l, j);
    }
  }

  lemma StepLeavesDoomed(s: State, l: Label, j: JobId)
    requires Inv(s) && Enabled(s, l) && Doomed(s, j)
    ensures StillDoomed(s, Next(s, l), j)
  {
    match l
    case Api(a) => ApiLeavesDoomed(s, a, j);
    case Dispatch(d, a) => DispatchLeavesDoomed(s, d, a, j);
    case Read(w, a) => ReadLeavesDoomed(s, w, a, j);
    case Work(w, a) => WorkLeavesDoomed(s, w, a, j);
    case Health(a) => HealthLeavesDoomed(s, a, j);
    case Collect(a) => CollectLeavesDoomed(s, a, j);
    case Bury(a) => assert Doomed(BuryNext(s, a), j);
  }

  lemma {:induction false} DoomedJobsNeverFinish(s: State, run: seq<Label>, e: State, j: JobId)
    requires Inv(s) && Doomed(s, j) && Leads(s, run, e) && j !in e.book.rough
    ensures Doomed(e, j)
    decreases |run|
  {
    if run != [] {
      StepLeavesDoomed(s, run[0], j);
      KeepsInv(s, run[0]);
      Guarantees.RunIsLater(Next(s, run[0]), run[1..]);
      DoomedJobsNeverFinish(Next(s, run[0]), run[1..], e, j);
    }
  }

  ghost predicate EndsWell(s: State, run: seq<Label>, j: JobId) {
    IsRun(s, run) && j in End(s, run).jobs && End(s, run).jobs[j].Terminal() && j !in End(s, run).book.rough
  }

  /** Exactly which jobs can still reach COMPLETED or DEAD undisturbed, with every message delivered: all
      smooth ones but those already lost with their dispatcher. */
  lemma SmoothJobsFinishExactly(s: State, j: JobId)
    requires Inv(s) && j in s.jobs && j !in s.book.rough && Wired(s)
    ensures (exists run :: EndsWell(s, run, j)) <==> !Doomed(s, j)
  {
    if !Doomed(s, j) {
      var run, e := SmoothJobFinishes(s, j);
      assert EndsWell(s, run, j);
    } else if run :| EndsWell(s, run, j) {
      DoomedJobsNeverFinish(s, run, End(s, run), j);
    }
  }
}
