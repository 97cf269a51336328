/** No dead ends: from every reachable state, every unfinished job can still run to COMPLETED. */
module Recovering {
  import opened Types
  import opened Broker
  import opened Pipeline
  import opened Lifecycle
  import Jobs
  import Workers
  import Dispatching
  import Messages
  import Outcomes
  import Termination

  // ----- Open claims are given up -----

  function Claimers(s: State): set<DispatcherId> {
    set d | d in s.dispatchers && s.dispatchers[d].Claiming?
  }

  lemma {:induction false} GiveUpClaims(s: State) returns (run: seq<Label>, e: State)
    ensures Leads(s, run, e) && Claimers(e) == {}
    ensures e == s.(dispatchers := e.dispatchers)
    ensures forall d :: d in e.dispatchers ==> d in s.dispatchers && (s.dispatchers[d].Publishing? ==> e.dispatchers[d] == s.dispatchers[d])
    ensures forall d :: d in s.dispatchers && s.dispatchers[d].Publishing? ==> d in e.dispatchers
    ensures forall d :: d in e.dispatchers && e.dispatchers[d].Publishing? ==> s.dispatchers[d].Publishing?
    decreases |Claimers(s)|
  {
    assert Leads(s, [], s);
    if Claimers(s) == {} {
      run, e := [], s;
    } else {
      var d :| d in Claimers(s);
      var s1;
      run, s1 := Go(s, [], s, Dispatch(d, Abort));
      assert Claimers(s1) == Claimers(s) - {d};
      var more;
      more, e := GiveUpClaims(s1);
      RunsCompose(s, run, s1, more, e);
      run := run + more;
    }
  }

  lemma NoClaimsNoLocks(s: State)
    requires Claimers(s) == {}
    ensures Locked(s) == {}
  {
    forall j | j in Locked(s) ensures exists d :: d in Claimers(s) {
      var d :| d in s.dispatchers && s.dispatchers[d].Claiming? && j in s.dispatchers[d].ids;
      assert d in Claimers(s);
    }
  }

  // ----- A RUNNING job is taken back -----

  /** Enough time for the worker's heartbeat to become stale. */
  function Silence(w: Worker, now: int): nat
    requires w.heartbeat.Some?
  {
    if w.heartbeat.value < now then STALE + 1 else w.heartbeat.value - now + STALE + 1
  }

  lemma WaitOut(s: State, w: WorkerId) returns (run: seq<Label>, e: State)
    requires w in s.workers && s.workers[w].heartbeat.Some?
    ensures Leads(s, run, e) && w in e.workers && Workers.Stale(e.workers[w], e.now)
    ensures e == s.(now := e.now)
  {
    assert Leads(s, [], s);
    run, e := Go(s, [], s, Health(Advance(Silence(s.workers[w], s.now))));
  }

  lemma HearFrom(s: State, w: WorkerId) returns (run: seq<Label>, e: State)
    requires w in s.workers
    ensures Leads(s, run, e) && w in e.workers && e.workers[w].heartbeat.Some?
    ensures e == s.(workers := e.workers)
  {
    assert Leads(s, [], s);
    if s.workers[w].heartbeat.Some? {
      run, e := [], s;
    } else {
      run, e := Go(s, [], s, Health(Heartbeat(w, 0.0, 0)));
    }
  }

  /** Whatever has become of its message, a RUNNING job is back in the queue once its worker has been
      silent for long enough. It is disturbed by that only if the attempt was outstanding. */
  lemma RequeueJob(s: State, j: JobId) returns (run: seq<Label>, e: State)
    requires j in s.jobs && s.jobs[j].status.Running? && s.jobs[j].worker.Some? && s.jobs[j].worker.value in s.workers
    ensures Leads(s, run, e) && j in e.jobs && e.jobs[j].Pending()
    ensures e == s.(now := e.now, jobs := e.jobs, workers := e.workers, book := e.book)
    ensures j !in s.book.disturbed && !Outstanding(s, j) ==> j !in e.book.disturbed
  {
    var w := s.jobs[j].worker.value;
    var s1, s2, more;
    run, s1 := HearFrom(s, w);
    more, s2 := WaitOut(s1, w);
    RunsCompose(s, run, s1, more, s2);
    run := run + more;
    assert Outstanding(s2, j) == Outstanding(s, j) by { SameTokens(s, s2, j); }
    assert j in Jobs.StaleRunning(s2.jobs, s2.workers, s2.now);
    run, e := Go(s, run, s2, Health(RequeueStale));
  }

  lemma SameTokens(s: State, s': State, j: JobId)
    requires s' == s.(now := s'.now, workers := s'.workers)
    ensures Outstanding(s', j) == Outstanding(s, j)
  {
  }

  // ----- A fresh worker and a fresh dispatcher -----

  lemma {:induction false} FreshId(used: set<nat>) returns (n: nat)
    ensures n !in used && forall m :: m in used ==> m < n
    decreases |used|
  {
    if used == {} {
      n := 0;
    } else {
      var x :| x in used;
      n := FreshId(used - {x});
      if n <= x { n := x + 1; }
      assert forall m :: m in used ==> m == x || m in used - {x};
    }
  }

  lemma {:induction false} Listing(ids: set<JobId>) returns (order: seq<JobId>)
    ensures Jobs.Lists(order, ids)
    decreases |ids|
  {
    if ids == {} {
      order := [];
    } else {
      var x :| x in ids;
      var front := Listing(ids - {x});
      order := front + [x];
    }
  }

  lemma ListingFrom(ids: set<JobId>, j: JobId) returns (order: seq<JobId>)
    requires j in ids
    ensures Jobs.Lists(order, ids) && order[0] == j
  {
    var rest := Listing(ids - {j});
    order := [j] + rest;
  }

  lemma Hire(s: State, w: WorkerId) returns (run: seq<Label>, e: State)
    requires w !in s.workers && w !in s.procs
    ensures Leads(s, run, e) && w in e.workers
    ensures e == s.(workers := e.workers, procs := s.procs[w := Proc(FreshGroup(|s.jobsTopic|), [], 0, {})])
  {
    assert Leads(s, [], s);
    run, e := Go(s, [], s, Read(w, Start));
    run, e := Go(s, run, e, Health(Heartbeat(w, 0.0, 0)));
  }

  /** The job is claimed for the worker, first in a batch with everything else that is pending. */
  lemma ClaimJob(s: State, d: DispatcherId, w: WorkerId, j: JobId) returns (run: seq<Label>, e: State)
    requires Claimers(s) == {} && d !in s.dispatchers && w in s.workers && j in s.jobs && s.jobs[j].Pending()
    ensures Leads(s, run, e) && Claimers(e) == {}
    ensures d in e.dispatchers && e.dispatchers[d].Publishing? && e.dispatchers[d].next == 0 && !e.dispatchers[d].failed
    ensures var batch := e.dispatchers[d].batch; |batch| > 0 && batch[0].job == j && batch[0].worker == w
    ensures e == s.(jobs := e.jobs, dispatchers := e.dispatchers, book := e.book) && e.jobs.Keys == s.jobs.Keys
    ensures e.book.rough == s.book.rough && e.book.disturbed == s.book.disturbed
  {
    NoClaimsNoLocks(s);
    var avail := Jobs.Available(s.jobs, {});
    var order := ListingFrom(avail, j);
    run, e := Dispatching.FetchTrace(s, d, w, |avail|, avail, order);
    assert Claimers(e) == {};
  }

  /** Its message is published to partition 0. */
  lemma PublishJob(s: State, d: DispatcherId, w: WorkerId, j: JobId) returns (run: seq<Label>, e: State)
    requires d in s.dispatchers && s.dispatchers[d].Publishing? && s.dispatchers[d].next == 0 && !s.dispatchers[d].failed
    requires var batch := s.dispatchers[d].batch; |batch| > 0 && batch[0].job == j && batch[0].worker == w
    requires w in s.procs && |s.jobsTopic| > 0 && Claimers(s) == {}
    ensures Leads(s, run, e) && Claimers(e) == {}
    ensures e == s.(jobsTopic := e.jobsTopic, dispatchers := e.dispatchers, book := e.book)
    ensures exists m: JobMessage :: m.job == j && m.worker == w && e.jobsTopic == Append(s.jobsTopic, 0, m)
    ensures e.book.rough == s.book.rough && e.book.disturbed == s.book.disturbed
  {
    assert Leads(s, [], s);
    run, e := Go(s, [], s, Dispatch(d, Publish(0)));
    assert Claimers(e) == {};
    var m := s.dispatchers[d].batch[0];
    assert m.job == j && m.worker == w && e.jobsTopic == Append(s.jobsTopic, 0, m);
  }

  // ----- The worker reads up to the message, and runs the job -----

  /** The process has read nothing addressed to it yet. */
  ghost predicate Idle(s: State, w: WorkerId) {
    && w in s.procs && s.procs[w].pushed == [] && s.procs[w].taken == 0 && s.procs[w].executing == {}
    && |s.procs[w].group.pos| == |s.procs[w].group.committed| == |s.jobsTopic|
  }

  lemma {:induction false} SkipOthers(s: State, w: WorkerId, o: nat) returns (run: seq<Label>, e: State)
    requires Idle(s, w) && 0 < |s.jobsTopic| && s.procs[w].group.pos[0] <= o <= |s.jobsTopic[0]|
    requires forall i :: 0 <= i < o ==> s.jobsTopic[0][i].worker != w
    ensures e == s.(procs := e.procs)
    ensures Leads(s, run, e) && Idle(e, w) && e.procs[w].group.pos[0] == o
    decreases o - s.procs[w].group.pos[0]
  {
    assert Leads(s, [], s);
    if s.procs[w].group.pos[0] == o {
      run, e := [], s;
    } else {
      var s1, more;
      run, s1 := Go(s, [], s, Read(w, Consume(0)));
      more, e := SkipOthers(s1, w, o);
      RunsCompose(s, run, s1, more, e);
      run := run + more;
    }
  }

  lemma RunJob(s: State, w: WorkerId, j: JobId) returns (run: seq<Label>, e: State)
    requires Idle(s, w) && 0 < |s.jobsTopic| && s.procs[w].group.pos[0] < |s.jobsTopic[0]| && 0 < |s.resultsTopic|
    requires var m := s.jobsTopic[0][s.procs[w].group.pos[0]]; m.job == j && m.worker == w
    ensures Leads(s, run, e)
    ensures exists r: ResultMessage :: r.job == j && r.success && e.resultsTopic == Append(s.resultsTopic, 0, r)
    ensures e == s.(procs := e.procs, resultsTopic := e.resultsTopic, book := e.book)
    ensures e.book.rough == s.book.rough && e.book.disturbed == s.book.disturbed
  {
    var m := s.jobsTopic[0][s.procs[w].group.pos[0]];
    var s1, s2;
    assert Leads(s, [], s);
    run, s1 := Go(s, [], s, Read(w, Consume(0)));
    assert s1.procs[w].pushed == [m] && s1.procs[w].executing == {};
    run, s2 := Go(s, run, s1, Work(w, Take));
    assert s2.procs[w].executing == {0};
    run, e := Go(s, run, s2, Work(w, Report(0, 0, true, "")));
    assert e.resultsTopic == Append(s.resultsTopic, 0, ResultOf(m, w, true, ""));
  }

  // ----- The collector works off what lies before the result -----

  ghost predicate Workable(s: State) {
    && |s.resultsTopic| > 0 && |s.deadTopic| > 0 && Claimers(s) == {}
    && |s.collector.pos| == |s.resultsTopic|
    && (forall o :: 0 <= o < |s.resultsTopic[0]| ==> s.resultsTopic[0][o].job in s.jobs)
  }

  lemma PayOff(s: State) returns (run: seq<Label>, e: State)
    requires Workable(s) && s.collector.pos[0] < |s.resultsTopic[0]| && 0 in s.owing
    ensures Leads(s, run, e) && Workable(e)
    ensures e.collector.pos[0] == s.collector.pos[0] + 1 && 0 !in e.owing
    ensures e == s.(collector := e.collector, owing := e.owing, deadTopic := e.deadTopic)
  {
    assert Leads(s, [], s);
    run, e := Go(s, [], s, Collect(PublishDead(0, 0)));
  }

  lemma HandleOne(s: State) returns (run: seq<Label>, e: State)
    requires Workable(s) && s.collector.pos[0] < |s.resultsTopic[0]| && 0 !in s.owing
    ensures Leads(s, run, e) && Workable(e)
    ensures e == s.(jobs := e.jobs, collector := e.collector, owing := e.owing)
    ensures if 0 in e.owing then e.collector == s.collector else e.collector.pos[0] == s.collector.pos[0] + 1
    ensures var r := s.resultsTopic[0][s.collector.pos[0]];
            r.success ==> r.job in e.jobs && e.jobs[r.job].status.Completed? && 0 !in e.owing
  {
    NoClaimsNoLocks(s);
    assert Leads(s, [], s);
    run, e := Go(s, [], s, Collect(Handle(0)));
  }

  /** One result is handled, and its dead letter published if it owes one. */
  lemma WorkOffOne(s: State) returns (run: seq<Label>, e: State)
    requires Workable(s) && s.collector.pos[0] < |s.resultsTopic[0]|
    ensures Leads(s, run, e) && Workable(e)
    ensures e.collector.pos[0] == s.collector.pos[0] + 1 && 0 !in e.owing
    ensures e == s.(jobs := e.jobs, collector := e.collector, owing := e.owing, deadTopic := e.deadTopic)
    ensures var r := s.resultsTopic[0][s.collector.pos[0]];
            0 !in s.owing && r.success ==> r.job in e.jobs && e.jobs[r.job].status.Completed?
  {
    if 0 in s.owing {
      run, e := PayOff(s);
    } else {
      run, e := HandleOne(s);
      if 0 in e.owing {
        var s1, more := e, [];
        more, e := PayOff(s1);
        RunsCompose(s, run, s1, more, e);
        run := run + more;
      }
    }
  }

  lemma {:induction false} WorkOff(s: State, o: nat) returns (run: seq<Label>, e: State)
    requires Workable(s) && s.collector.pos[0] <= o <= |s.resultsTopic[0]|
    requires 0 in s.owing ==> s.collector.pos[0] < o
    ensures Leads(s, run, e) && Workable(e)
    ensures e.collector.pos[0] == o && 0 !in e.owing
    ensures e == s.(jobs := e.jobs, collector := e.collector, owing := e.owing, deadTopic := e.deadTopic)
    decreases o - s.collector.pos[0]
  {
    if s.collector.pos[0] == o {
      run, e := [], s;
      assert Leads(s, [], s);
    } else {
      var s1, more;
      run, s1 := WorkOffOne(s);
      more, e := WorkOff(s1, o);
      RunsCompose(s, run, s1, more, e);
      run := run + more;
    }
  }

  // ----- Together -----

  lemma Onward(s0: State, run: seq<Label>, s: State, more: seq<Label>, e: State) returns (all: seq<Label>)
    requires Inv(s0) && Leads(s0, run, s) && Leads(s, more, e)
    ensures Leads(s0, all, e) && Inv(e)
  {
    RunsCompose(s0, run, s, more, e);
    all := run + more;
    RunKeepsInv(s0, all);
  }

  /** From pending to a published success, by a new worker and a new dispatcher. */
  lemma PendingJobReports(s: State, j: JobId) returns (run: seq<Label>, e: State)
    requires Inv(s) && Claimers(s) == {} && j in s.jobs && s.jobs[j].Pending()
    requires |s.jobsTopic| > 0 && |s.resultsTopic| > 0
    ensures Leads(s, run, e) && Inv(e) && Claimers(e) == {} && e.jobs.Keys == s.jobs.Keys
    ensures exists r: ResultMessage :: r.job == j && r.success && e.resultsTopic == Append(s.resultsTopic, 0, r)
    ensures e.collector == s.collector && e.owing == s.owing && e.deadTopic == s.deadTopic
    ensures e.book.rough == s.book.rough && e.book.disturbed == s.book.disturbed
  {
    var w := FreshId(s.workers.Keys + s.procs.Keys);
    var d := FreshId(s.dispatchers.Keys);
    var s1, s2, s3, s4, more;
    NobodyWritesTo(s, w);
    run, s1 := Hire(s, w);
    more, s2 := ClaimJob(s1, d, w, j);
    RunsCompose(s, run, s1, more, s2);
    run := run + more;
    more, s3 := PublishJob(s2, d, w, j);
    RunsCompose(s, run, s2, more, s3);
    run := run + more;
    more, s4 := SkipOthers(s3, w, |s.jobsTopic[0]|);
    RunsCompose(s, run, s3, more, s4);
    run := run + more;
    more, e := RunJob(s4, w, j);
    run := Onward(s, run, s4, more, e);
    assert Claimers(e) == Claimers(s4) == Claimers(s3);
  }

  lemma NobodyWritesTo(s: State, w: WorkerId)
    requires Messages.SentOk(s) && Messages.IssuesGood(s) && w !in s.workers
    ensures forall p: nat, o: nat :: Has(s.jobsTopic, p, o) ==> s.jobsTopic[p][o].worker != w
  {
    forall p: nat, o: nat | Has(s.jobsTopic, p, o) ensures s.jobsTopic[p][o].worker != w {
      var m := s.jobsTopic[p][o];
      assert Messages.IsIssued(s.book.issued, m);
      assert Messages.IssueFits((m.job, m.attempts), m, s.jobs, s.workers);
    }
  }

  lemma ReportedJobCompletes(s: State, j: JobId, before: Topic<ResultMessage>, r: ResultMessage)
    returns (run: seq<Label>, e: State)
    requires Inv(s) && Claimers(s) == {} && |s.deadTopic| > 0 && |before| > 0
    requires s.resultsTopic == Append(before, 0, r) && r.job == j && r.success
    requires s.collector.pos[0] <= |before[0]|
    ensures Leads(s, run, e) && j in e.jobs && e.jobs[j].status.Completed?
    ensures e.book == s.book
  {
    forall o | 0 <= o < |s.resultsTopic[0]| ensures s.resultsTopic[0][o].job in s.jobs {
      Outcomes.ResultsNameJobs(s, 0, o);
    }
    assert 0 in s.owing ==> Ready(s.resultsTopic, s.collector, 0) && !s.resultsTopic[0][s.collector.pos[0]].success;
    var s1, more;
    run, s1 := WorkOff(s, |before[0]|);
    more, e := WorkOffOne(s1);
    RunsCompose(s, run, s1, more, e);
    run := run + more;
  }

  lemma PendingJobCanComplete(s: State, j: JobId) returns (run: seq<Label>, e: State)
    requires Inv(s) && Claimers(s) == {} && j in s.jobs && s.jobs[j].Pending()
    requires |s.jobsTopic| > 0 && |s.resultsTopic| > 0 && |s.deadTopic| > 0
    ensures Leads(s, run, e) && j in e.jobs && e.jobs[j].status.Completed?
    ensures e.book.rough == s.book.rough && e.book.disturbed == s.book.disturbed
  {
    var s1, more;
    run, s1 := PendingJobReports(s, j);
    var r: ResultMessage :| r.job == j && r.success && s1.resultsTopic == Append(s.resultsTopic, 0, r);
    more, e := ReportedJobCompletes(s1, j, s.resultsTopic, r);
    RunsCompose(s, run, s1, more, e);
    run := run + more;
  }

  /** From every state with the invariant, every unfinished job has a continuation that completes it,
      whatever was lost or is in the way. A pending job needs nothing for that which would disturb it or
      lose a message; a RUNNING job whose message is gone is recovered without being disturbed. */
  lemma UnfinishedJobsCanComplete(s: State, j: JobId) returns (run: seq<Label>, e: State)
    requires Inv(s) && j in s.jobs && !s.jobs[j].Terminal()
    requires |s.jobsTopic| > 0 && |s.resultsTopic| > 0 && |s.deadTopic| > 0
    ensures Leads(s, run, e) && j in e.jobs && e.jobs[j].status.Completed?
    ensures s.jobs[j].Pending() ==> e.book.rough == s.book.rough && e.book.disturbed == s.book.disturbed
    ensures j !in s.book.disturbed && !Outstanding(s, j) ==> j !in e.book.disturbed
  {
    var s1, s2, more;
    run, s1 := GiveUpClaims(s);
    RunKeepsInv(s, run);
    assert Outstanding(s1, j) == Outstanding(s, j);
    more, s2 := PutBack(s1, j);
    RunsCompose(s, run, s1, more, s2);
    run := run + more;
    more, e := PendingJobCanComplete(s2, j);
    RunsCompose(s, run, s2, more, e);
    run := run + more;
  }

  lemma PutBack(s: State, j: JobId) returns (run: seq<Label>, e: State)
    requires Inv(s) && Claimers(s) == {} && j in s.jobs && !s.jobs[j].Terminal()
    ensures Leads(s, run, e) && Inv(e) && Claimers(e) == {} && j in e.jobs && e.jobs[j].Pending()
    ensures |e.jobsTopic| == |s.jobsTopic| && |e.resultsTopic| == |s.resultsTopic| && |e.deadTopic| == |s.deadTopic|
    ensures s.jobs[j].Pending() ==> e == s
    ensures j !in s.book.disturbed && !Outstanding(s, j) ==> j !in e.book.disturbed
  {
    assert Outcomes.RowOk(s.jobs[j], s.workers);
    if s.jobs[j].status.Running? {
      run, e := RequeueJob(s, j);
      RunKeepsInv(s, run);
    } else {
      run, e := [], s;
      assert Leads(s, [], s);
    }
  }

  /** In particular a job that is not rough never gets stuck short of its last rank. */
  lemma SmoothJobsCanFinish(s: State, j: JobId) returns (run: seq<Label>, e: State)
    requires Inv(s) && j in s.jobs && !s.jobs[j].Terminal() && j !in s.book.rough
    requires |s.jobsTopic| > 0 && |s.resultsTopic| > 0 && |s.deadTopic| > 0
    ensures Leads(s, run, e) && j in e.jobs && 0 == Termination.Rank(e, j) < Termination.Rank(s, j)
    ensures s.jobs[j].Pending() ==> j !in e.book.rough
  {
    Termination.SmoothIsLimited(s, j);
    run, e := UnfinishedJobsCanComplete(s, j);
  }
}
