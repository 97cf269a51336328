/** The result collector and the dead-letter consumer: what handling a message does, and why handling
    it again does no harm to the jobs table. */
module Collecting {
  import opened Types
  import opened Broker
  import Jobs
  import Pipeline
  import Letters

  // ----- Handling results, on tables -----

  function Applied(t: Jobs.Table, r: ResultMessage): Jobs.Table {
    if r.success then Jobs.AfterCompleted(t, r.job) else Jobs.AfterFailed(t, r.job, MAX_ATTEMPTS)
  }

  /** Handling the result publishes a dead letter. */
  predicate Buries(t: Jobs.Table, r: ResultMessage) {
    !r.success && r.job in t && t[r.job].attempts >= MAX_ATTEMPTS
  }

  function AppliedAll(t: Jobs.Table, rs: seq<ResultMessage>): Jobs.Table {
    if rs == [] then t else Applied(AppliedAll(t, rs[..|rs| - 1]), rs[|rs| - 1])
  }

  /** The dead letters published while handling the results in order. */
  function Buried(t: Jobs.Table, rs: seq<ResultMessage>): seq<ResultMessage> {
    if rs == [] then []
    else
      var front, last := rs[..|rs| - 1], rs[|rs| - 1];
      Buried(t, front) + if Buries(AppliedAll(t, front), last) then [last] else []
  }

  /** The verdict of the last result for the job, if there is one. */
  function Verdict(rs: seq<ResultMessage>, j: JobId, attempts: nat): Option<JobStatus> {
    if rs == [] then None
    else
      var last := rs[|rs| - 1];
      if last.job != j then Verdict(rs[..|rs| - 1], j, attempts)
      else Some(if last.success then Completed else Jobs.FailedStatus(attempts, MAX_ATTEMPTS))
  }

  /** Handling results changes nothing but statuses, and leaves each job with the verdict of the last
      result that names it. */
  lemma {:induction false} LastResultDecides(t: Jobs.Table, rs: seq<ResultMessage>)
    ensures AppliedAll(t, rs).Keys == t.Keys
    ensures forall j :: j in t ==>
      var v := Verdict(rs, j, t[j].attempts);
      AppliedAll(t, rs)[j] == if v.Some? then t[j].(status := v.value) else t[j]
  {
    if rs != [] {
      LastResultDecides(t, rs[..|rs| - 1]);
    }
  }

  lemma {:induction false} VerdictOfTwice(rs: seq<ResultMessage>, again: seq<ResultMessage>, j: JobId, attempts: nat)
    ensures Verdict(rs + again, j, attempts) ==
            if Verdict(again, j, attempts).Some? then Verdict(again, j, attempts) else Verdict(rs, j, attempts)
  {
    if again == [] {
      assert rs + again == rs;
    } else {
      var front := again[..|again| - 1];
      assert (rs + again)[..|rs + again| - 1] == rs + front;
      VerdictOfTwice(rs, front, j, attempts);
    }
  }

  /** Redelivery is invisible to the jobs table: after a sequence of results, handling any suffix of it
      once more leaves every row as it was. */
  lemma RedeliveryInvisible(t: Jobs.Table, rs: seq<ResultMessage>, k: nat)
    requires k <= |rs|
    ensures AppliedAll(t, rs + rs[k..]) == AppliedAll(t, rs)
  {
    LastResultDecides(t, rs);
    LastResultDecides(t, rs + rs[k..]);
    forall j | j in t ensures AppliedAll(t, rs + rs[k..])[j] == AppliedAll(t, rs)[j] {
      VerdictOfTwice(rs, rs[k..], j, t[j].attempts);
      VerdictOfTwice(rs[..k], rs[k..], j, t[j].attempts);
      assert rs[..k] + rs[k..] == rs;
    }
  }

  function Filtered(t: Jobs.Table, rs: seq<ResultMessage>): seq<ResultMessage> {
    if rs == [] then []
    else Filtered(t, rs[..|rs| - 1]) + if Buries(t, rs[|rs| - 1]) then [rs[|rs| - 1]] else []
  }

  /** Attempts do not move while results are handled, so which results bury their job is settled by the
      table as it was at first. */
  lemma {:induction false} BuriedIsFiltered(t: Jobs.Table, rs: seq<ResultMessage>)
    ensures Buried(t, rs) == Filtered(t, rs)
  {
    if rs != [] {
      BuriedIsFiltered(t, rs[..|rs| - 1]);
      LastResultDecides(t, rs[..|rs| - 1]);
    }
  }

  lemma {:induction false} FilteredInParts(t: Jobs.Table, a: seq<ResultMessage>, b: seq<ResultMessage>)
    ensures Filtered(t, a + b) == Filtered(t, a) + Filtered(t, b)
  {
    if b == [] {
      assert a + b == a;
    } else {
      var front := b[..|b| - 1];
      assert (a + b)[..|a + b| - 1] == a + front;
      FilteredInParts(t, a, front);
    }
  }

  /** The only repeated effect is that the suffix publishes its own dead letters once more. */
  lemma RedeliveryRepeatsLetters(t: Jobs.Table, rs: seq<ResultMessage>, k: nat)
    requires k <= |rs|
    ensures Buried(t, rs + rs[k..]) == Buried(t, rs) + Filtered(t, rs[k..])
    ensures Buried(t, rs) == Filtered(t, rs[..k]) + Filtered(t, rs[k..])
  {
    BuriedIsFiltered(t, rs + rs[k..]);
    BuriedIsFiltered(t, rs);
    FilteredInParts(t, rs, rs[k..]);
    FilteredInParts(t, rs[..k], rs[k..]);
    assert rs[..k] + rs[k..] == rs;
  }

  /** With a dispatch in between it is not: a failure delivered again while a later attempt of the job
      is RUNNING ends that attempt's RUNNING state, whatever the attempt's own outcome will be. */
  lemma RedeliveryAfterDispatchShows(t: Jobs.Table, r: ResultMessage, w: WorkerId)
    requires r.job in t && t[r.job].Pending()
    ensures var running := Jobs.Claim(t, {r.job}, w);
            running[r.job].status.Running? && Applied(running, r)[r.job] != running[r.job]
  {
  }

  // ----- The handlers -----

  class ResultCollector {
    const jobs: Jobs.JobsTable
    const producer: Log<ResultMessage>
    var cached: set<JobId> // jobs with an entry in the status cache

    constructor (jobs: Jobs.JobsTable, producer: Log<ResultMessage>)
      ensures this.jobs == jobs && this.producer == producer && cached == {}
    {
      this.jobs, this.producer, this.cached := jobs, producer, {};
    }

    /** The cache entry goes on every path. The offset may be committed only on Ok: then the row has
        its verdict, and if that is DEAD by failure the dead letter is in the topic. A verdict that lands
        behind an error publishes nothing. */
    method HandleResult(msg: ResultMessage, db: Fate, d: Delivery) returns (r: Result<(), Error>)
      requires Deliverable(d, |producer.parts|)
      modifies this, jobs, producer
      ensures cached == old(cached) - {msg.job}
      ensures jobs.rows == if db.Fails? && !db.landed then old(jobs.rows) else Applied(old(jobs.rows), msg)
      ensures producer.parts ==
              if db.Runs? && Buries(old(jobs.rows), msg) then AfterWrite(old(producer.parts), msg, d)
              else old(producer.parts)
      ensures jobs.rows.Keys == old(jobs.rows).Keys && forall j :: j in jobs.rows && j != msg.job ==> jobs.rows[j] == old(jobs.rows)[j]
      ensures msg.job in jobs.rows && (db.Runs? || db.landed) ==>
        jobs.rows[msg.job] == old(jobs.rows)[msg.job].(status :=
          if msg.success then Completed else if old(jobs.rows)[msg.job].attempts >= 3 then Dead else Retrying)
      ensures db.Runs? && !msg.success && msg.job in jobs.rows && jobs.rows[msg.job].status == Dead ==>
        (d.Delivered? || d.Unacknowledged? ==>
           producer.parts == old(producer.parts)[d.partition := old(producer.parts)[d.partition] + [msg]])
      ensures producer.parts != old(producer.parts) ==>
        db.Runs? && !msg.success && msg.job in jobs.rows && jobs.rows[msg.job].status == Dead && !d.Refused?
      ensures r.Ok? <==> db.Runs? && msg.job in old(jobs.rows) && (Buries(old(jobs.rows), msg) ==> d.Delivered?)
      ensures r == Err(NotFound) <==> db.Runs? && msg.job !in old(jobs.rows)
    {
      cached := cached - {msg.job};
      if db.Fails? {
        if db.landed {
          if msg.success {
            var _ := jobs.MarkCompleted(msg.job);
          } else {
            var _ := jobs.MarkFailed(msg.job, MAX_ATTEMPTS);
          }
        }
        return Err(Unavailable);
      }
      if msg.success {
        r := jobs.MarkCompleted(msg.job);
        return;
      }
      var status := jobs.MarkFailed(msg.job, MAX_ATTEMPTS);
      if status.Err? { return Err(status.error); }
      if status.value.Dead? {
        var ok := producer.Write(msg, d);
        if !ok { return Err(Unavailable); }
      }
      r := Ok(());
    }
  }

  /** The pipeline steps of one HandleResult: on Ok the read position has moved on, on Err after a DEAD
      verdict the letter is still owed. */
  lemma HandleTrace(s: Pipeline.State, p: nat, d: Delivery) returns (run: seq<Pipeline.Label>, e: Pipeline.State)
    requires Pipeline.CollectEnabled(s, Pipeline.Handle(p)) && Deliverable(d, |s.deadTopic|)
    ensures Pipeline.Leads(s, run, e)
    ensures var msg := s.resultsTopic[p][s.collector.pos[p]];
            && e.jobs == Applied(s.jobs, msg)
            && e.deadTopic == (if Buries(s.jobs, msg) then AfterWrite(s.deadTopic, msg, d) else s.deadTopic)
            && (if Buries(s.jobs, msg) && !d.Delivered? then e.collector == s.collector && e.owing == s.owing + {p}
                else e.collector == Handled(s.collector, p) && e.owing == s.owing)
    ensures e == s.(jobs := e.jobs, deadTopic := e.deadTopic, collector := e.collector, owing := e.owing)
  {
    var msg := s.resultsTopic[p][s.collector.pos[p]];
    assert Pipeline.Leads(s, [], s);
    run, e := Pipeline.Go(s, [], s, Pipeline.Collect(Pipeline.Handle(p)));
    if Buries(s.jobs, msg) && d.Delivered? {
      run, e := Pipeline.Go(s, run, e, Pipeline.Collect(Pipeline.PublishDead(p, d.partition)));
    } else if Buries(s.jobs, msg) && d.Unacknowledged? {
      run, e := Pipeline.Go(s, run, e, Pipeline.Collect(Pipeline.PublishDeadUnacknowledged(p, d.partition)));
    }
  }

  /** A verdict that lands behind an error ends the session; that is handling and then starting over. */
  lemma LandedVerdictTrace(s: Pipeline.State, p: nat) returns (run: seq<Pipeline.Label>, e: Pipeline.State)
    requires Pipeline.CollectEnabled(s, Pipeline.Handle(p)) && |s.resultsTopic| == |s.collector.committed| == |s.collector.pos|
    ensures Pipeline.Leads(s, run, e)
    ensures e == s.(jobs := Applied(s.jobs, s.resultsTopic[p][s.collector.pos[p]]), collector := e.collector, owing := e.owing, book := e.book)
    ensures e.collector.pos == s.collector.pos[p := s.collector.committed[p]] && e.collector.committed == s.collector.committed
    ensures e.owing == s.owing
  {
    assert Pipeline.Leads(s, [], s);
    run, e := Pipeline.Go(s, [], s, Pipeline.Collect(Pipeline.Handle(p)));
    run, e := Pipeline.Go(s, run, e, Pipeline.Collect(Pipeline.RejoinResults(p)));
  }

  class DeadLetterConsumer {
    const letters: Letters.DeadLettersTable

    constructor (letters: Letters.DeadLettersTable)
      ensures this.letters == letters
    {
      this.letters := letters;
    }

    /** `id` is the id the database draws for the row. */
    method Handle(msg: ResultMessage, id: nat, insert: Fate) returns (r: Result<(), Error>)
      requires id !in letters.rows
      modifies letters
      ensures r.Ok? <==> insert.Runs?
      ensures letters.rows == if insert.Fails? && !insert.landed then old(letters.rows) else old(letters.rows)[id := Letters.OpenRow(Pipeline.LetterOf(msg))]
      ensures insert.Runs? || insert.landed ==>
        && letters.rows.Keys == old(letters.rows).Keys + {id}
        && (forall x :: x in old(letters.rows) ==> letters.rows[x] == old(letters.rows)[x])
        && letters.rows[id] == Letters.DeadLetter(msg.job, Some(msg.worker), msg.jobType,
                                                  if msg.payload == "" then "{}" else msg.payload,
                                                  msg.attempts, msg.error, Letters.Open, None, None)
    {
      var payload := msg.payload;
      if |payload| == 0 { payload := "{}"; }
      if insert.Runs? || insert.landed {
        letters.Insert(id, msg.job, Some(msg.worker), msg.jobType, payload, msg.attempts, msg.error);
      }
      r := if insert.Runs? then Ok(()) else Err(Unavailable);
    }
  }
}
