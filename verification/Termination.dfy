/** A measure that falls with every step that touches a smooth job. */
module Termination {
  import opened Types
  import opened Broker
  import opened Pipeline
  import opened Tokens
  import Records
  import Messages
  import Outcomes
  import Progress
  import opened Lifecycle
  import Guarantees

  /** How far the message of a RUNNING job still has to go. */
  function Stage(s: State, place: Place): nat {
    match place
    case Local(_, _) => 6
    case InLog(_, _) => 5
    case AtWorker(w, k) => if w in s.procs && k in s.procs[w].executing then 3 else 4
    case InResults(_, _) => 2
  }

  function StageOf(s: State, j: JobId): nat
    requires j in s.jobs
  {
    if s.jobs[j].Terminal() then 0
    else if !s.jobs[j].status.Running? then 1
    else if j in s.book.place then Stage(s, s.book.place[j])
    else 7
  }

  /** (3 - attempts, stage), read lexicographically. */
  function Rank(s: State, j: JobId): int
    requires j in s.jobs
  {
    if s.jobs[j].Terminal() then 0 else (MAX_ATTEMPTS - s.jobs[j].attempts) * 8 + StageOf(s, j)
  }

  /** Nothing an observer of the job could see has changed: its row, nor where its message is. */
  predicate Untouched(s: State, s': State, j: JobId) {
    j in s.jobs && j in s'.jobs && s'.jobs[j] == s.jobs[j] && StageOf(s', j) == StageOf(s, j)
  }

  ghost predicate Closer(s: State, s': State, j: JobId) {
    j in s.jobs && j in s'.jobs && j !in s'.book.rough ==> Untouched(s, s', j) || Rank(s', j) < Rank(s, j)
  }

  /** At most three dispatches: pending jobs have one left. */
  predicate Limited(s: State, j: JobId) {
    j in s.jobs && j !in s.book.rough ==>
      s.jobs[j].attempts <= MAX_ATTEMPTS && (s.jobs[j].Pending() ==> s.jobs[j].attempts < MAX_ATTEMPTS)
  }

  lemma SmoothIsLimited(s: State, j: JobId)
    requires Outcomes.RowsOk(s) && Progress.ExtrasAreRough(s.book)
    ensures Limited(s, j)
    ensures j in s.jobs && j !in s.book.rough ==> 0 <= Rank(s, j) <= 25
    ensures j in s.jobs && j !in s.book.rough ==> (Rank(s, j) == 0 <==> s.jobs[j].Terminal())
  {
    if j in s.jobs {
      assert Outcomes.RowOk(s.jobs[j], s.workers);
      assert Outcomes.AttemptsOk(s.jobs[j], s.book.requeues[j] + s.book.rollbacks[j]);
    }
  }

  lemma ApiComesCloser(s: State, l: ApiStep, j: JobId)
    requires ApiEnabled(s, l)
    requires Limited(s, j)
    ensures Closer(s, ApiNext(s, l), j)
  {
  }

  lemma CommitComesCloser(s: State, d: DispatcherId, order: seq<JobId>, j: JobId)
    requires DispatchEnabled(s, d, Commit(order)) && Records.ClaimOk(PhaseOf(s, d), s.jobs, s.workers)
    ensures Closer(s, DispatchNext(s, d, Commit(order)), j)
  {
    var s' := DispatchNext(s, d, Commit(order));
    assert j in PhaseOf(s, d).ids <==> j in order;
    if j in order {
      var i :| 0 <= i < |order| && order[i] == j;
      assert s'.book.place[j] == Local(d, i);
    }
  }

  lemma PublishComesCloser(s: State, d: DispatcherId, p: nat, j: JobId)
    requires DispatchEnabled(s, d, Publish(p)) && Progress.RoughCovers(s.book)
    requires TokenOk(s, Local(d, PhaseOf(s, d).next), PhaseOf(s, d).batch[PhaseOf(s, d).next].job)
    ensures Closer(s, DispatchNext(s, d, Publish(p)), j)
  {
    var ph := PhaseOf(s, d);
    assert At(s, Local(d, ph.next), ph.batch[ph.next].job);
  }

  lemma DispatchComesCloser(s: State, d: DispatcherId, l: DispatchStep, j: JobId)
    requires DispatchEnabled(s, d, l) && TokensOk(s) && Records.LocksOk(s) && Progress.RoughCovers(s.book)
    ensures Closer(s, DispatchNext(s, d, l), j)
  {
    match l
    case Commit(order) => CommitComesCloser(s, d, order, j);
    case Publish(p) => PublishComesCloser(s, d, p, j);
    case _ =>
  }

  lemma ConsumeComesCloser(s: State, w: WorkerId, p: nat, j: JobId)
    requires ReadEnabled(s, w, Consume(p)) && Progress.RoughCovers(s.book)
    requires Records.ProcOk(s.procs[w], s.jobsTopic)
    requires TokenOk(s, InLog(p, s.procs[w].group.pos[p]), s.jobsTopic[p][s.procs[w].group.pos[p]].job)
    ensures Closer(s, ReadNext(s, w, Consume(p)), j)
  {
    var o := s.procs[w].group.pos[p];
    if s.jobsTopic[p][o].worker == w { assert At(s, InLog(p, o), s.jobsTopic[p][o].job); }
  }

  lemma CrashComesCloser(s: State, w: WorkerId, j: JobId)
    requires ReadEnabled(s, w, WorkerCrash) && Progress.RoughCovers(s.book) && TokensOk(s)
    requires Progress.Smooth(s, j) && Messages.SentOk(s) && Messages.IssuesGood(s)
    ensures Closer(s, ReadNext(s, w, WorkerCrash), j)
  {
    if j in s.jobs && s.jobs[j].status.Running? && j !in s.book.rough && s.book.place[j].AtWorker? {
      var place := s.book.place[j];
      assert TokenOk(s, place, j);
      Progress.HolderIsWorker(s, place, j);
      assert Messages.HeldOk(place.worker, s.procs[place.worker], s.book.issued);
      assert place.worker == w ==> j in AssignedTo(s.jobs, w);
    }
  }

  lemma ReadComesCloser(s: State, w: WorkerId, l: ReadStep, j: JobId)
    requires ReadEnabled(s, w, l) && TokensOk(s) && Progress.RoughCovers(s.book)
    requires Progress.Smooth(s, j) && Messages.SentOk(s) && Messages.IssuesGood(s)
    requires Records.Positions(s)
    ensures Closer(s, ReadNext(s, w, l), j)
  {
    match l
    case Consume(p) => ConsumeComesCloser(s, w, p, j);
    case WorkerCrash => CrashComesCloser(s, w, j);
    case Start => StartComesCloser(s, w, j);
    case CommitOffset(p) => OffsetComesCloser(s, w, p, j);
    case Rejoin(p) => RejoinComesCloser(s, w, p, j);
  }

  lemma OffsetComesCloser(s: State, w: WorkerId, p: nat, j: JobId)
    requires ReadEnabled(s, w, CommitOffset(p))
    ensures Closer(s, ReadNext(s, w, CommitOffset(p)), j)
  {
  }

  lemma RejoinComesCloser(s: State, w: WorkerId, p: nat, j: JobId)
    requires ReadEnabled(s, w, Rejoin(p))
    ensures Closer(s, ReadNext(s, w, Rejoin(p)), j)
  {
  }

  lemma StartComesCloser(s: State, w: WorkerId, j: JobId)
    requires ReadEnabled(s, w, Start) && Progress.Smooth(s, j)
    ensures Closer(s, ReadNext(s, w, Start), j)
  {
  }

  lemma WorkComesCloser(s: State, w: WorkerId, l: WorkStep, j: JobId)
    requires WorkEnabled(s, w, l) && Progress.RoughCovers(s.book) && Progress.Smooth(s, j)
    requires Records.ProcOk(s.procs[w], s.jobsTopic)
    requires !l.Take? ==> TokenOk(s, AtWorker(w, l.index), s.procs[w].pushed[l.index].job)
    ensures Closer(s, WorkNext(s, w, l), j)
  {
    if !l.Take? { assert At(s, AtWorker(w, l.index), s.procs[w].pushed[l.index].job); }
  }

  lemma HealthComesCloser(s: State, l: HealthStep, j: JobId)
    requires HealthEnabled(s, l)
    ensures Closer(s, HealthNext(s, l), j)
  {
  }

  lemma HandleComesCloser(s: State, p: nat, j: JobId)
    requires CollectEnabled(s, Handle(p)) && Progress.RoughCovers(s.book) && Limited(s, j)
    requires TokenOk(s, InResults(p, s.collector.pos[p]), s.resultsTopic[p][s.collector.pos[p]].job)
    ensures Closer(s, CollectNext(s, Handle(p)), j)
  {
    assert At(s, InResults(p, s.collector.pos[p]), s.resultsTopic[p][s.collector.pos[p]].job);
  }

  lemma CollectComesCloser(s: State, l: CollectStep, j: JobId)
    requires CollectEnabled(s, l) && TokensOk(s) && Progress.RoughCovers(s.book)
    requires Limited(s, j)
    ensures Closer(s, CollectNext(s, l), j)
  {
    if l.Handle? {
      assert TokenOk(s, InResults(l.partition, s.collector.pos[l.partition]), s.resultsTopic[l.partition][s.collector.pos[l.partition]].job);
      HandleComesCloser(s, l.partition, j);
    }
  }

  lemma BuryComesCloser(s: State, l: BuryStep, j: JobId)
    requires BuryEnabled(s, l)
    ensures Closer(s, BuryNext(s, l), j)
  {
  }

  lemma WorkingComesCloser(s: State, w: WorkerId, l: WorkStep, j: JobId)
    requires Inv(s) && WorkEnabled(s, w, l)
    ensures Closer(s, WorkNext(s, w, l), j)
  {
    assert Records.ProcOk(s.procs[w], s.jobsTopic) && Progress.Smooth(s, j);
    if !l.Take? { assert TokenOk(s, AtWorker(w, l.index), s.procs[w].pushed[l.index].job); }
    WorkComesCloser(s, w, l, j);
  }

  lemma ReadingComesCloser(s: State, w: WorkerId, l: ReadStep, j: JobId)
    requires Inv(s) && ReadEnabled(s, w, l)
    ensures Closer(s, ReadNext(s, w, l), j)
  {
    assert Progress.Smooth(s, j);
    ReadComesCloser(s, w, l, j);
  }

  /** Every step, by whomever, leaves a smooth job as it was or lowers its rank. */
  lemma StepComesCloser(s: State, l: Label, j: JobId)
    requires Inv(s) && Enabled(s, l)
    ensures Closer(s, Next(s, l), j)
  {
    SmoothIsLimited(s, j);
    match l
    case Api(a) => ApiComesCloser(s, a, j);
    case Dispatch(d, a) => DispatchComesCloser(s, d, a, j);
    case Read(w, a) => ReadingComesCloser(s, w, a, j);
    case Work(w, a) => WorkingComesCloser(s, w, a, j);
    case Health(a) => HealthComesCloser(s, a, j);
    case Collect(a) => CollectComesCloser(s, a, j);
    case Bury(a) => BuryComesCloser(s, a, j);
  }

  // ----- Whole runs -----

  /** How many steps of the run touch the job. */
  ghost function Touches(s: State, run: seq<Label>, j: JobId): nat
    requires IsRun(s, run)
    decreases |run|
  {
    if run == [] then 0
    else (if Untouched(s, Next(s, run[0]), j) then 0 else 1) + Touches(Next(s, run[0]), run[1..], j)
  }

  /** A job that stays smooth is touched at most rank-many times, hence at most 25 times, is dispatched
      at most three times, and has rank 0 exactly when it is COMPLETED or DEAD. */
  lemma {:induction false} SmoothJobsTerminate(s: State, run: seq<Label>, j: JobId)
    requires Inv(s) && IsRun(s, run)
    requires j in s.jobs && j !in End(s, run).book.rough
    ensures var e := End(s, run);
            && j in e.jobs
            && Touches(s, run, j) + Rank(e, j) <= Rank(s, j) <= 25
            && 0 <= Rank(e, j) && (Rank(e, j) == 0 <==> e.jobs[j].Terminal())
            && e.jobs[j].attempts <= MAX_ATTEMPTS
    decreases |run|
  {
    SmoothIsLimited(s, j);
    Guarantees.RunIsLater(s, run);
    if run != [] {
      var s' := Next(s, run[0]);
      StepIsLater(s, run[0]);
      KeepsInv(s, run[0]);
      Guarantees.RunIsLater(s', run[1..]);
      assert Closer(s, s', j) by { StepComesCloser(s, run[0], j); }
      SmoothJobsTerminate(s', run[1..], j);
    }
  }

  /** The step touches one of the jobs. */
  ghost predicate Busy(s: State, s': State, js: set<JobId>) { exists j :: j in js && !Untouched(s, s', j) }

  ghost function BusySteps(s: State, run: seq<Label>, js: set<JobId>): nat
    requires IsRun(s, run)
    decreases |run|
  {
    if run == [] then 0
    else (if Busy(s, Next(s, run[0]), js) then 1 else 0) + BusySteps(Next(s, run[0]), run[1..], js)
  }

  lemma {:induction false} BusyWithOneMore(s: State, run: seq<Label>, js: set<JobId>, j: JobId)
    requires IsRun(s, run) && j in js
    ensures BusySteps(s, run, js) <= Touches(s, run, j) + BusySteps(s, run, js - {j})
    decreases |run|
  {
    if run != [] {
      var s' := Next(s, run[0]);
      BusyWithOneMore(s', run[1..], js, j);
      if i :| i in js && !Untouched(s, s', i) {
        assert i == j || i in js - {j};
      }
    }
  }

  lemma {:induction false} NobodyIsBusy(s: State, run: seq<Label>)
    requires IsRun(s, run)
    ensures BusySteps(s, run, {}) == 0
    decreases |run|
  {
    if run != [] { NobodyIsBusy(Next(s, run[0]), run[1..]); }
  }

  /** However long a run is, at most 25 of its steps per job do anything to jobs that stay smooth. */
  lemma {:induction false} BusyStepsAreBounded(s: State, run: seq<Label>, js: set<JobId>)
    requires Inv(s) && IsRun(s, run)
    requires js <= s.jobs.Keys && js !! End(s, run).book.rough
    ensures BusySteps(s, run, js) <= 25 * |js|
    decreases |js|
  {
    if js == {} {
      NobodyIsBusy(s, run);
    } else {
      var j :| j in js;
      BusyWithOneMore(s, run, js, j);
      SmoothJobsTerminate(s, run, j);
      BusyStepsAreBounded(s, run, js - {j});
    }
  }

  ghost predicate NoSubmissions(run: seq<Label>) {
    forall k :: 0 <= k < |run| && run[k].Api? ==> run[k].api.Cancel?
  }

  lemma SameJobs(s: State, l: Label)
    requires Enabled(s, l) && (l.Api? ==> l.api.Cancel?)
    ensures Next(s, l).jobs.Keys == s.jobs.Keys
  {
    match l
    case Api(a) => assert ApiNext(s, a).jobs.Keys == s.jobs.Keys;
    case Dispatch(d, a) => DispatchSameJobs(s, d, a);
    case Read(w, a) => assert ReadNext(s, w, a).jobs == s.jobs;
    case Work(w, a) => assert WorkNext(s, w, a).jobs == s.jobs;
    case Health(a) => HealthSameJobs(s, a);
    case Collect(a) => CollectSameJobs(s, a);
    case Bury(a) => assert BuryNext(s, a).jobs == s.jobs;
  }

  lemma HealthSameJobs(s: State, l: HealthStep)
    requires HealthEnabled(s, l)
    ensures HealthNext(s, l).jobs.Keys == s.jobs.Keys
  {
  }

  lemma CollectSameJobs(s: State, l: CollectStep)
    requires CollectEnabled(s, l)
    ensures CollectNext(s, l).jobs.Keys == s.jobs.Keys
  {
  }

  lemma DispatchSameJobs(s: State, d: DispatcherId, l: DispatchStep)
    requires DispatchEnabled(s, d, l)
    ensures DispatchNext(s, d, l).jobs.Keys == s.jobs.Keys
  {
  }

  /** The step leaves every row, and every live message of a job, as it was. */
  ghost predicate Idle(s: State, s': State) {
    s'.jobs == s.jobs && forall j :: j in s.jobs ==> StageOf(s', j) == StageOf(s, j)
  }

  lemma IdleIsNotBusy(s: State, s': State)
    requires s'.jobs.Keys == s.jobs.Keys
    ensures Idle(s, s') <==> !Busy(s, s', s.jobs.Keys)
  {
    if Idle(s, s') {
      forall j | j in s.jobs ensures Untouched(s, s', j) {
      }
    }
    if forall j :: j in s.jobs ==> Untouched(s, s', j) {
      assert s'.jobs == s.jobs;
    }
  }

  ghost function WorkingSteps(s: State, run: seq<Label>): nat
    requires IsRun(s, run)
    decreases |run|
  {
    if run == [] then 0
    else (if Idle(s, Next(s, run[0])) then 0 else 1) + WorkingSteps(Next(s, run[0]), run[1..])
  }

  lemma {:induction false} WorkingIsBusy(s: State, run: seq<Label>)
    requires IsRun(s, run) && NoSubmissions(run)
    ensures WorkingSteps(s, run) == BusySteps(s, run, s.jobs.Keys)
    decreases |run|
  {
    if run != [] {
      var s' := Next(s, run[0]);
      SameJobs(s, run[0]);
      assert NoSubmissions(run[1..]) by { assert forall k :: 0 <= k < |run[1..]| ==> run[1..][k] == run[k + 1]; }
      WorkingIsBusy(s', run[1..]);
      IdleIsNotBusy(s, s');
    }
  }

  /** A run without new submissions in which every job stays smooth: whatever is interleaved, and however
      long it is, at most 25 steps per job change any row or move any live job message. */
  lemma RunsAreBounded(s: State, run: seq<Label>)
    requires Inv(s) && IsRun(s, run) && NoSubmissions(run)
    requires s.jobs.Keys !! End(s, run).book.rough
    ensures WorkingSteps(s, run) <= 25 * |s.jobs|
  {
    WorkingIsBusy(s, run);
    BusyStepsAreBounded(s, run, s.jobs.Keys);
    assert |s.jobs.Keys| == |s.jobs|;
  }

  /** A smooth RUNNING job is never stuck without its message: exactly one place holds it. */
  lemma SmoothJobsHaveTheirMessage(s: State, j: JobId)
    requires Inv(s) && j in s.jobs && s.jobs[j].status.Running? && j !in s.book.rough
    ensures exists place :: At(s, place, j) && forall other :: At(s, other, j) ==> other == place
  {
    assert Progress.Smooth(s, j);
    var place := s.book.place[j];
    assert At(s, place, j);
    forall other | At(s, other, j) ensures other == place {
      assert TokenOk(s, other, j);
    }
  }
}
