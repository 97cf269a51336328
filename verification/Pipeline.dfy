/** The job lifecycle as a labelled transition system. One label is one SQL statement, one append to
    a topic, or one move of a process; any number of dispatchers, workers and partitions interleave.
    `Enabled` says when a step can happen, `Next` what it does; both are built from the same
    statement functions the classes implement. */
module Pipeline {
  import opened Types
  import opened Broker
  import Jobs
  import Workers

  /** FetchPending is split: rows are locked first and updated at commit. `failed` means that the
      publish of batch[next] reported an error and its rollback is outstanding. */
  datatype Phase =
    | Resting
    | Claiming(worker: WorkerId, ids: set<JobId>)
    | Publishing(batch: seq<JobMessage>, next: nat, failed: bool)

  /** A worker process: its position in the jobs topic, everything it ever put on its job channel,
      how many of those its executor has taken, and which of those still run. */
  datatype Proc = Proc(group: Group, pushed: seq<JobMessage>, taken: nat, executing: set<nat>)

  /** Where the one live message of a dispatched job is. */
  datatype Place =
    | Local(dispatcher: DispatcherId, index: nat)
    | InLog(partition: nat, offset: nat)
    | AtWorker(worker: WorkerId, index: nat)
    | InResults(partition: nat, offset: nat)

  /** A row of dead_letters as the dead-letter consumer writes it. */
  datatype Letter = Letter(job: JobId, worker: WorkerId, jobType: string, payload: string, attempts: nat, error: string)

  /** History, read by no step but into history. `disturbed` holds the jobs cancelled or requeued while
      an attempt was outstanding, redelivered, or published by a write that was not acknowledged;
      `rough` adds the jobs otherwise cancelled or requeued while RUNNING and those whose message was
      lost or rolled back; `place` follows the message of every job not disturbed. */
  datatype Ledger = Ledger(
    issued: map<(JobId, nat), JobMessage>,
    requeues: multiset<JobId>,
    rollbacks: multiset<JobId>,
    cancelled: set<JobId>,
    disturbed: set<JobId>,
    rough: set<JobId>,
    place: map<JobId, Place>,
    inserted: map<(nat, nat), Letter>)

  datatype State = State(
    now: int,
    jobs: Jobs.Table,
    workers: Workers.Table,
    dispatchers: map<DispatcherId, Phase>,
    jobsTopic: Topic<JobMessage>,
    procs: map<WorkerId, Proc>,
    resultsTopic: Topic<ResultMessage>,
    collector: Group,
    owing: set<nat>, // partitions whose current message left its job DEAD, dead letter not yet published
    deadTopic: Topic<ResultMessage>,
    undertaker: Group,
    book: Ledger)

  datatype ApiStep =
    | Submit(id: JobId, jobType: string, payload: string, priority: int)
    | Cancel(id: JobId)

  datatype DispatchStep =
    | Lock(worker: WorkerId, limit: nat, ids: set<JobId>)
    | Abort
    | Commit(order: seq<JobId>)
    | Publish(partition: nat)
    | PublishUnacknowledged(partition: nat)
    | PublishFails
    | Rollback
    | RollbackFails
    | Finish
    | DispatcherCrash

  datatype ReadStep =
    | Start
    | Consume(partition: nat)
    | CommitOffset(partition: nat)
    | Rejoin(partition: nat)
    | WorkerCrash

  datatype WorkStep =
    | Take
    | Report(index: nat, partition: nat, success: bool, error: string)
    | ReportUnacknowledged(index: nat, partition: nat, success: bool, error: string)
    | ReportLost(index: nat)

  datatype HealthStep =
    | Register(worker: WorkerId)
    | Heartbeat(worker: WorkerId, cpu: real, running: int)
    | MarkUnhealthy
    | RequeueStale
    | Advance(delta: nat)

  datatype CollectStep =
    | Handle(partition: nat)
    | PublishDead(partition: nat, target: nat)
    | PublishDeadUnacknowledged(partition: nat, target: nat)
    | CommitResult(partition: nat)
    | RejoinResults(partition: nat)

  datatype BuryStep =
    | Insert(partition: nat)
    | CommitLetter(partition: nat)
    | RejoinLetters(partition: nat)

  datatype Label =
    | Api(api: ApiStep)
    | Dispatch(d: DispatcherId, dispatch: DispatchStep)
    | Read(w: WorkerId, read: ReadStep)
    | Work(w: WorkerId, work: WorkStep)
    | Health(health: HealthStep)
    | Collect(collect: CollectStep)
    | Bury(bury: BuryStep)

  function PhaseOf(s: State, d: DispatcherId): Phase {
    if d in s.dispatchers then s.dispatchers[d] else Resting
  }

  function LockedBy(s: State, d: DispatcherId): set<JobId> {
    if PhaseOf(s, d).Claiming? then PhaseOf(s, d).ids else {}
  }

  /** Row locks of all open FetchPending statements; statements on these rows wait. */
  function LockedIn(ds: map<DispatcherId, Phase>): set<JobId> {
    set d, j | d in ds && ds[d].Claiming? && j in ds[d].ids :: j
  }

  function Locked(s: State): set<JobId> { LockedIn(s.dispatchers) }

  /** The group can fetch from the partition. */
  predicate Ready<T>(t: Topic<T>, g: Group, p: nat) {
    p < |t| && p < |g.pos| && g.pos[p] < |t[p]|
  }

  /** The place holds a message of the job that can still take effect: unsent in a dispatcher, not yet
      read by its addressee, on that worker's channel or executing, or a result not yet applied. */
  predicate At(s: State, place: Place, j: JobId) {
    match place
    case Local(d, i) =>
      d in s.dispatchers && s.dispatchers[d].Publishing?
      && s.dispatchers[d].next <= i < |s.dispatchers[d].batch| && s.dispatchers[d].batch[i].job == j
    case InLog(p, o) =>
      Has(s.jobsTopic, p, o) && s.jobsTopic[p][o].job == j && s.jobsTopic[p][o].worker in s.procs
      && p < |s.procs[s.jobsTopic[p][o].worker].group.pos| && s.procs[s.jobsTopic[p][o].worker].group.pos[p] <= o
    case AtWorker(w, k) =>
      w in s.procs && k < |s.procs[w].pushed| && s.procs[w].pushed[k].job == j
      && (s.procs[w].taken <= k || k in s.procs[w].executing)
    case InResults(p, o) =>
      Has(s.resultsTopic, p, o) && s.resultsTopic[p][o].job == j
      && p < |s.collector.pos| && (s.collector.pos[p] < o || (s.collector.pos[p] == o && p !in s.owing))
  }

  /** An attempt of the job is outstanding: its one message is still live. */
  predicate Outstanding(s: State, j: JobId) { j in s.book.place && At(s, s.book.place[j], j) }

  // ----- API -----

  predicate ApiEnabled(s: State, l: ApiStep) {
    match l
    case Submit(id, _, _, _) => id !in s.jobs
    case Cancel(id) => id !in Locked(s)
  }

  function ApiNext(s: State, l: ApiStep): State
    requires ApiEnabled(s, l)
  {
    match l
    case Submit(id, jobType, payload, priority) =>
      s.(jobs := Jobs.AfterCreate(s.jobs, id, jobType, payload, priority, s.now))
    case Cancel(id) =>
      if id !in s.jobs || !s.jobs[id].Cancellable() then s
      else
        var hit := if s.jobs[id].status.Running? then {id} else {};
        s.(jobs := Jobs.AfterCancel(s.jobs, id),
           book := s.book.(cancelled := s.book.cancelled + {id},
                           disturbed := s.book.disturbed + (set j | j in hit && Outstanding(s, j)),
                           rough := s.book.rough + hit))
  }

  // ----- Dispatcher -----

  /** A message is live in a worker's log only while that worker's process is there to read it. */
  function AfterPlaced(b: Ledger, j: JobId, place: Place, live: bool): Ledger {
    if live then b.(place := b.place[j := place]) else b.(rough := b.rough + {j})
  }

  function Batch(jobs: Jobs.Table, order: seq<JobId>, w: WorkerId): seq<JobMessage>
    requires forall j :: j in order ==> j in jobs
  {
    seq(|order|, i requires 0 <= i < |order| => Jobs.MessageFor(order[i], jobs[order[i]], w))
  }

  /** A batch in the ledger, by job and attempt. */
  function Entries(batch: seq<JobMessage>): map<(JobId, nat), JobMessage>
    requires forall i, k :: 0 <= i < k < |batch| ==> batch[i].job != batch[k].job
  {
    map i | 0 <= i < |batch| :: (batch[i].job, batch[i].attempts) := batch[i]
  }

  /** The messages of a fresh batch are all with the dispatcher. */
  function Placing(d: DispatcherId, order: seq<JobId>): (places: map<JobId, Place>)
    requires Workers.Distinct(order)
    ensures forall i :: 0 <= i < |order| ==> order[i] in places && places[order[i]] == Local(d, i)
    ensures forall j :: j in places ==> j in order
  {
    map i | 0 <= i < |order| :: order[i] := Local(d, i)
  }

  ghost predicate DispatchEnabled(s: State, d: DispatcherId, l: DispatchStep) {
    var ph := PhaseOf(s, d);
    match l
    case Lock(w, limit, ids) => ph.Resting? && w in s.workers && Jobs.IsPick(s.jobs, Locked(s), limit, ids)
    case Abort => ph.Claiming?
    case Commit(order) => ph.Claiming? && Jobs.Lists(order, ph.ids) && ph.ids <= s.jobs.Keys
    case Publish(p) => ph.Publishing? && ph.next < |ph.batch| && !ph.failed && p < |s.jobsTopic|
    case PublishUnacknowledged(p) => ph.Publishing? && ph.next < |ph.batch| && !ph.failed && p < |s.jobsTopic|
    case PublishFails => ph.Publishing? && ph.next < |ph.batch| && !ph.failed
    case Rollback =>
      ph.Publishing? && ph.next < |ph.batch| && ph.failed && ph.batch[ph.next].job !in Locked(s)
    case RollbackFails => ph.Publishing? && ph.next < |ph.batch| && ph.failed
    case Finish => ph.Publishing? && ph.next == |ph.batch|
    case DispatcherCrash => true
  }

  function Unsent(ph: Phase): set<JobId> {
    if ph.Publishing? then set i | ph.next <= i < |ph.batch| :: ph.batch[i].job else {}
  }

  ghost function DispatchNext(s: State, d: DispatcherId, l: DispatchStep): State
    requires DispatchEnabled(s, d, l)
  {
    var ph := PhaseOf(s, d);
    match l
    case Lock(w, limit, ids) => s.(dispatchers := s.dispatchers[d := Claiming(w, ids)])
    case Abort => s.(dispatchers := s.dispatchers[d := Resting])
    case Commit(order) =>
      var jobs := Jobs.Claim(s.jobs, ph.ids, ph.worker);
      var batch := Batch(jobs, order, ph.worker);
      s.(jobs := jobs,
         dispatchers := s.dispatchers[d := Publishing(batch, 0, false)],
         book := s.book.(issued := s.book.issued + Entries(batch),
                         place := s.book.place + Placing(d, order)))
    case Publish(p) =>
      var m := ph.batch[ph.next];
      s.(jobsTopic := Append(s.jobsTopic, p, m),
         dispatchers := s.dispatchers[d := ph.(next := ph.next + 1)],
         book := AfterPlaced(s.book, m.job, InLog(p, |s.jobsTopic[p]|), m.worker in s.procs))
    case PublishUnacknowledged(p) =>
      var m := ph.batch[ph.next];
      s.(jobsTopic := Append(s.jobsTopic, p, m),
         book := s.book.(disturbed := s.book.disturbed + {m.job}, rough := s.book.rough + {m.job}))
    case PublishFails => s.(dispatchers := s.dispatchers[d := ph.(failed := true)])
    case Rollback =>
      var j := ph.batch[ph.next].job;
      s.(jobs := Jobs.AfterRollback(s.jobs, j),
         dispatchers := s.dispatchers[d := ph.(next := ph.next + 1, failed := false)],
         book := s.book.(rough := s.book.rough + {j},
                         rollbacks := if j in s.jobs && s.jobs[j].status.Running?
                                      then s.book.rollbacks + multiset{j} else s.book.rollbacks))
    case RollbackFails =>
      s.(dispatchers := s.dispatchers[d := ph.(next := ph.next + 1, failed := false)],
         book := s.book.(rough := s.book.rough + {ph.batch[ph.next].job}))
    case Finish => s.(dispatchers := s.dispatchers[d := Resting])
    case DispatcherCrash =>
      s.(dispatchers := s.dispatchers[d := Resting], book := s.book.(rough := s.book.rough + Unsent(ph)))
  }

  // ----- Worker process: the consumer of the jobs topic -----

  /** Besides a full channel, the executor may hold one job it has received but has no slot for. */
  predicate ReadEnabled(s: State, w: WorkerId, l: ReadStep) {
    match l
    case Start => w !in s.procs && w !in s.workers
    case Consume(p) =>
      && w in s.procs && Ready(s.jobsTopic, s.procs[w].group, p)
      && var pr := s.procs[w];
      && pr.taken <= |pr.pushed|
      && (s.jobsTopic[p][pr.group.pos[p]].worker == w ==> |pr.pushed| - pr.taken <= JOB_CHAN_CAPACITY)
    case CommitOffset(p) => w in s.procs && p < |s.procs[w].group.pos| == |s.procs[w].group.committed|
    case Rejoin(p) =>
      && w in s.procs && p < |s.jobsTopic| == |s.procs[w].group.pos| == |s.procs[w].group.committed|
      && s.procs[w].group.pos[p] <= |s.jobsTopic[p]|
    case WorkerCrash => w in s.procs
  }

  function JobsIn(part: seq<JobMessage>, lo: nat, hi: nat, w: WorkerId): set<JobId>
    requires hi <= |part|
  {
    set o | lo <= o < hi && part[o].worker == w :: part[o].job
  }

  function AssignedTo(jobs: Jobs.Table, w: WorkerId): set<JobId> {
    set j | j in jobs && jobs[j].worker == Some(w)
  }

  /** A process that stops loses what is on its channel and what it executes; it comes back under a
      new id, so nobody reads the messages addressed to the old one again. */
  function ReadNext(s: State, w: WorkerId, l: ReadStep): State
    requires ReadEnabled(s, w, l)
  {
    match l
    case Start => s.(procs := s.procs[w := Proc(FreshGroup(|s.jobsTopic|), [], 0, {})])
    case Consume(p) =>
      var pr := s.procs[w];
      var m := s.jobsTopic[p][pr.group.pos[p]];
      var group := Handled(pr.group, p);
      if m.worker != w then s.(procs := s.procs[w := pr.(group := group)])
      else
        s.(procs := s.procs[w := pr.(group := group, pushed := pr.pushed + [m])],
           book := s.book.(place := s.book.place[m.job := AtWorker(w, |pr.pushed|)]))
    case CommitOffset(p) =>
      s.(procs := s.procs[w := s.procs[w].(group := Committed(s.procs[w].group, p))])
    case Rejoin(p) =>
      var g := s.procs[w].group;
      var again := JobsIn(s.jobsTopic[p], g.committed[p], g.pos[p], w);
      s.(procs := s.procs[w := s.procs[w].(group := Rewound(g, p))],
         book := s.book.(disturbed := s.book.disturbed + again, rough := s.book.rough + again))
    case WorkerCrash =>
      s.(procs := s.procs - {w}, book := s.book.(rough := s.book.rough + AssignedTo(s.jobs, w)))
  }

  // ----- Worker process: executor and reporter -----

  predicate WorkEnabled(s: State, w: WorkerId, l: WorkStep) {
    && w in s.procs
    && var pr := s.procs[w];
    match l
    case Take => pr.taken < |pr.pushed| && |pr.executing| < MAX_CONCURRENCY
    case Report(k, p, _, _) => k in pr.executing && k < |pr.pushed| && p < |s.resultsTopic|
    case ReportUnacknowledged(k, p, _, _) => k in pr.executing && k < |pr.pushed| && p < |s.resultsTopic|
    case ReportLost(k) => k in pr.executing && k < |pr.pushed|
  }

  /** What ReportResult publishes for a job taken from a JobMessage. */
  function ResultOf(m: JobMessage, w: WorkerId, success: bool, error: string): ResultMessage {
    ResultMessage(m.job, w, success, error, m.jobType, m.payload, m.attempts)
  }

  function WorkNext(s: State, w: WorkerId, l: WorkStep): State
    requires WorkEnabled(s, w, l)
  {
    var pr := s.procs[w];
    match l
    case Take => s.(procs := s.procs[w := pr.(taken := pr.taken + 1, executing := pr.executing + {pr.taken})])
    case Report(k, p, success, error) =>
      var m := pr.pushed[k];
      s.(resultsTopic := Append(s.resultsTopic, p, ResultOf(m, w, success, error)),
         procs := s.procs[w := pr.(executing := pr.executing - {k})],
         book := s.book.(place := s.book.place[m.job := InResults(p, |s.resultsTopic[p]|)]))
    case ReportUnacknowledged(k, p, success, error) =>
      var m := pr.pushed[k];
      s.(resultsTopic := Append(s.resultsTopic, p, ResultOf(m, w, success, error)),
         book := s.book.(disturbed := s.book.disturbed + {m.job}, rough := s.book.rough + {m.job}))
    case ReportLost(k) =>
      s.(procs := s.procs[w := pr.(executing := pr.executing - {k})],
         book := s.book.(rough := s.book.rough + {pr.pushed[k].job}))
  }

  // ----- Heartbeats and the monitor -----

  predicate HealthEnabled(s: State, l: HealthStep) {
    match l
    case Register(w) => w !in s.workers && w !in s.procs
    case _ => true
  }

  function HealthNext(s: State, l: HealthStep): State
    requires HealthEnabled(s, l)
  {
    match l
    case Register(w) => s.(workers := Workers.AfterRegister(s.workers, w, s.now))
    case Heartbeat(w, cpu, running) => s.(workers := Workers.AfterHeartbeat(s.workers, w, cpu, running, s.now))
    case MarkUnhealthy => s.(workers := Workers.AfterMarkUnhealthy(s.workers, s.now))
    case RequeueStale =>
      var ids := Jobs.StaleRunning(s.jobs, s.workers, s.now);
      s.(jobs := Jobs.AfterRequeue(s.jobs, s.workers, s.now),
         book := s.book.(requeues := s.book.requeues + multiset(ids),
                         disturbed := s.book.disturbed + (set j | j in ids && Outstanding(s, j)),
                       rough := s.book.rough + ids))
    case Advance(delta) => s.(now := s.now + delta)
  }

  // ----- Result collector -----

  predicate CollectEnabled(s: State, l: CollectStep) {
    match l
    case Handle(p) =>
      && Ready(s.resultsTopic, s.collector, p) && p !in s.owing
      && var j := s.resultsTopic[p][s.collector.pos[p]].job;
      && j in s.jobs && j !in Locked(s)
    case PublishDead(p, q) => Ready(s.resultsTopic, s.collector, p) && p in s.owing && q < |s.deadTopic|
    case PublishDeadUnacknowledged(p, q) => Ready(s.resultsTopic, s.collector, p) && p in s.owing && q < |s.deadTopic|
    case CommitResult(p) => p < |s.collector.pos| == |s.collector.committed| && p !in s.owing
    case RejoinResults(p) =>
      p < |s.resultsTopic| == |s.collector.pos| == |s.collector.committed|
      && s.collector.pos[p] <= |s.resultsTopic[p]| && (p in s.owing ==> s.collector.pos[p] < |s.resultsTopic[p]|)
  }

  function JobsOf(part: seq<ResultMessage>, lo: nat, hi: nat): set<JobId>
    requires hi <= |part|
  {
    set o | lo <= o < hi :: part[o].job
  }

  function CollectNext(s: State, l: CollectStep): State
    requires CollectEnabled(s, l)
  {
    match l
    case Handle(p) =>
      var r := s.resultsTopic[p][s.collector.pos[p]];
      if r.success then
        s.(jobs := Jobs.AfterCompleted(s.jobs, r.job), collector := Handled(s.collector, p))
      else
        var jobs := Jobs.AfterFailed(s.jobs, r.job, MAX_ATTEMPTS);
        if jobs[r.job].status.Dead? then s.(jobs := jobs, owing := s.owing + {p})
        else s.(jobs := jobs, collector := Handled(s.collector, p))
    case PublishDead(p, q) =>
      s.(deadTopic := Append(s.deadTopic, q, s.resultsTopic[p][s.collector.pos[p]]),
         owing := s.owing - {p}, collector := Handled(s.collector, p))
    case PublishDeadUnacknowledged(p, q) =>
      s.(deadTopic := Append(s.deadTopic, q, s.resultsTopic[p][s.collector.pos[p]]))
    case CommitResult(p) => s.(collector := Committed(s.collector, p))
    case RejoinResults(p) =>
      var hi := s.collector.pos[p] + (if p in s.owing then 1 else 0);
      var again := JobsOf(s.resultsTopic[p], s.collector.committed[p], hi);
      s.(collector := Rewound(s.collector, p), owing := s.owing - {p},
         book := s.book.(disturbed := s.book.disturbed + again, rough := s.book.rough + again))
  }

  // ----- Dead-letter consumer -----

  predicate BuryEnabled(s: State, l: BuryStep) {
    match l
    case Insert(q) => Ready(s.deadTopic, s.undertaker, q)
    case CommitLetter(q) => q < |s.undertaker.pos| == |s.undertaker.committed|
    case RejoinLetters(q) => q < |s.undertaker.pos| == |s.undertaker.committed|
  }

  /** An empty payload is stored as an empty JSON object. */
  function LetterOf(r: ResultMessage): Letter {
    Letter(r.job, r.worker, r.jobType, if r.payload == "" then "{}" else r.payload, r.attempts, r.error)
  }

  function BuryNext(s: State, l: BuryStep): State
    requires BuryEnabled(s, l)
  {
    match l
    case Insert(q) =>
      var o := s.undertaker.pos[q];
      s.(undertaker := Handled(s.undertaker, q),
         book := s.book.(inserted := s.book.inserted[(q, o) := LetterOf(s.deadTopic[q][o])]))
    case CommitLetter(q) => s.(undertaker := Committed(s.undertaker, q))
    case RejoinLetters(q) => s.(undertaker := Rewound(s.undertaker, q))
  }

  // ----- Runs -----

  ghost predicate Enabled(s: State, l: Label) {
    match l
    case Api(a) => ApiEnabled(s, a)
    case Dispatch(d, a) => DispatchEnabled(s, d, a)
    case Read(w, a) => ReadEnabled(s, w, a)
    case Work(w, a) => WorkEnabled(s, w, a)
    case Health(a) => HealthEnabled(s, a)
    case Collect(a) => CollectEnabled(s, a)
    case Bury(a) => BuryEnabled(s, a)
  }

  ghost function Next(s: State, l: Label): State
    requires Enabled(s, l)
  {
    match l
    case Api(a) => ApiNext(s, a)
    case Dispatch(d, a) => DispatchNext(s, d, a)
    case Read(w, a) => ReadNext(s, w, a)
    case Work(w, a) => WorkNext(s, w, a)
    case Health(a) => HealthNext(s, a)
    case Collect(a) => CollectNext(s, a)
    case Bury(a) => BuryNext(s, a)
  }

  ghost predicate IsRun(s: State, run: seq<Label>)
    decreases |run|
  {
    run == [] || (Enabled(s, run[0]) && IsRun(Next(s, run[0]), run[1..]))
  }

  ghost function End(s: State, run: seq<Label>): State
    requires IsRun(s, run)
    decreases |run|
  {
    if run == [] then s else End(Next(s, run[0]), run[1..])
  }

  /** The run leads from `s` to `e`. */
  ghost predicate Leads(s: State, run: seq<Label>, e: State) { IsRun(s, run) && End(s, run) == e }

  lemma {:induction false} OneMore(s: State, run: seq<Label>, e: State, l: Label)
    requires Leads(s, run, e) && Enabled(e, l)
    ensures Leads(s, run + [l], Next(e, l))
    decreases |run|
  {
    if run == [] {
      assert (run + [l])[0] == l && (run + [l])[1..] == [];
      assert IsRun(Next(s, l), []);
    } else {
      assert (run + [l])[0] == run[0] && (run + [l])[1..] == run[1..] + [l];
      OneMore(Next(s, run[0]), run[1..], e, l);
    }
  }

  lemma Go(s0: State, run: seq<Label>, s: State, l: Label) returns (run': seq<Label>, e: State)
    requires Leads(s0, run, s) && Enabled(s, l)
    ensures Leads(s0, run', e) && e == Next(s, l)
  {
    OneMore(s0, run, s, l);
    run', e := run + [l], Next(s, l);
  }

  lemma First(s: State, l: Label, run: seq<Label>, e: State)
    requires Enabled(s, l) && Leads(Next(s, l), run, e)
    ensures Leads(s, [l] + run, e)
  {
    assert ([l] + run)[1..] == run;
  }

  lemma {:induction false} RunsCompose(s: State, a: seq<Label>, m: State, b: seq<Label>, e: State)
    requires Leads(s, a, m) && Leads(m, b, e)
    ensures Leads(s, a + b, e)
    decreases |a|
  {
    if a == [] {
      assert a + b == b;
    } else {
      assert (a + b)[0] == a[0] && (a + b)[1..] == a[1..] + b;
      RunsCompose(Next(s, a[0]), a[1..], m, b, e);
    }
  }

  /** No jobs and no messages yet; the workers table may hold rows of workers that are gone. */
  ghost predicate Init(s: State) {
    && s.jobs == map[] && Workers.Honest(s.workers, s.now)
    && s.dispatchers == map[] && s.procs == map[] && s.owing == {}
    && (forall p :: 0 <= p < |s.jobsTopic| ==> s.jobsTopic[p] == [])
    && (forall p :: 0 <= p < |s.resultsTopic| ==> s.resultsTopic[p] == [])
    && (forall p :: 0 <= p < |s.deadTopic| ==> s.deadTopic[p] == [])
    && s.collector == FreshGroup(|s.resultsTopic|) && s.undertaker == FreshGroup(|s.deadTopic|)
    && s.book == Ledger(map[], multiset{}, multiset{}, {}, {}, {}, map[], map[])
  }
}
