/** The dispatcher: which jobs one tick assigns, and that the tick is a run of the pipeline. */
module Dispatching {
  import opened Types
  import opened Broker
  import opened Pipeline
  import Jobs
  import Workers

  // ----- The assignment of one tick, on tables -----

  /** One worker's turn: what its FetchPending picked, and which of these were rolled back. */
  datatype Turn = Turn(worker: WorkerId, capacity: nat, ids: set<JobId>, returned: set<JobId>)

  function Returned(t: Jobs.Table, ids: set<JobId>): Jobs.Table {
    map j | j in t :: if j in ids && t[j].status.Running? then t[j].(status := Queued, worker := None) else t[j]
  }

  function AfterTurn(t: Jobs.Table, u: Turn): Jobs.Table {
    Returned(Jobs.Claim(t, u.ids, u.worker), u.returned)
  }

  /** The turns lead from table to table, each a FetchPending of its capacity. */
  ghost predicate Ticks(t: Jobs.Table, locked: set<JobId>, turns: seq<Turn>, t': Jobs.Table)
    decreases |turns|
  {
    if turns == [] then t' == t
    else
      && Jobs.IsPick(t, locked, turns[0].capacity, turns[0].ids)
      && turns[0].returned <= turns[0].ids
      && Ticks(AfterTurn(t, turns[0]), locked, turns[1..], t')
  }

  function Capacity(turns: seq<Turn>): nat {
    if turns == [] then 0 else turns[0].capacity + Capacity(turns[1..])
  }

  function Picked(turns: seq<Turn>): (ids: set<JobId>)
    ensures forall i, j :: 0 <= i < |turns| && j in turns[i].ids ==> j in ids
    ensures forall j :: j in ids ==> exists i :: 0 <= i < |turns| && j in turns[i].ids
  {
    if turns == [] then {}
    else
      assert forall i :: 1 <= i < |turns| ==> turns[i] == turns[1..][i - 1];
      turns[0].ids + Picked(turns[1..])
  }

  lemma TurnWithoutReturns(t: Jobs.Table, u: Turn)
    requires u.returned == {}
    ensures AfterTurn(t, u) == Jobs.Claim(t, u.ids, u.worker)
  {
  }

  /** Blocks follow each other in rank: nothing in a later block is in, or outranks, an earlier one. */
  ghost predicate InBlocks(t: Jobs.Table, turns: seq<Turn>) {
    forall i, k, a, b :: 0 <= i < k < |turns| && a in turns[i].ids && b in turns[k].ids ==> Precedes(t, a, b)
  }

  predicate Precedes(t: Jobs.Table, a: JobId, b: JobId) {
    a != b && a in t && b in t && !Jobs.Outranks(t[b], t[a])
  }

  predicate NoReturns(turns: seq<Turn>) { forall i :: 0 <= i < |turns| ==> turns[i].returned == {} }

  /** The rows of each block are claimed for its worker, and the others are as they were. */
  ghost predicate RowsClaimed(t: Jobs.Table, turns: seq<Turn>, t': Jobs.Table) {
    && t'.Keys == t.Keys
    && (forall i :: 0 <= i < |turns| ==> BlockClaimed(t, turns[i], t'))
    && (forall j :: j in t && j !in Picked(turns) ==> t'[j] == t[j])
  }

  predicate BlockClaimed(t: Jobs.Table, u: Turn, t': Jobs.Table) {
    forall j :: j in u.ids ==> j in t && j in t' && t'[j] == Jobs.Claimed(t[j], u.worker)
  }

  lemma {:induction false} TurnsPickInBlocks(t: Jobs.Table, locked: set<JobId>, turns: seq<Turn>, t': Jobs.Table)
    requires Ticks(t, locked, turns, t') && NoReturns(turns)
    ensures Jobs.IsPick(t, locked, Capacity(turns), Picked(turns)) && InBlocks(t, turns)
    decreases |turns|
  {
    if turns != [] {
      var u, rest := turns[0], turns[1..];
      TurnWithoutReturns(t, u);
      var t1 := Jobs.Claim(t, u.ids, u.worker);
      TurnsPickInBlocks(t1, locked, rest, t');
      Jobs.PickThenPick(t, locked, u.capacity, Capacity(rest), u.ids, Picked(rest), u.worker);
      BlocksInOrder(t, t1, turns);
    }
  }

  lemma {:induction false} TurnsClaimRows(t: Jobs.Table, locked: set<JobId>, turns: seq<Turn>, t': Jobs.Table)
    requires Ticks(t, locked, turns, t') && NoReturns(turns)
    ensures RowsClaimed(t, turns, t')
    decreases |turns|
  {
    if turns != [] {
      var u, rest := turns[0], turns[1..];
      TurnWithoutReturns(t, u);
      var t1 := Jobs.Claim(t, u.ids, u.worker);
      TurnsClaimRows(t1, locked, rest, t');
      TurnsPickInBlocks(t1, locked, rest, t');
      Jobs.PickThenPick(t, locked, u.capacity, Capacity(rest), u.ids, Picked(rest), u.worker);
      RowsOfBlocks(t, t1, turns, t');
    }
  }

  /** Without publish failures the whole tick is one greedy pick: of all available jobs it takes the
      first by (priority desc, created_at asc), as many as all capacities together allow, in blocks
      that follow the order of the workers, and each row is claimed for the worker of its block. */
  lemma TickIsGreedy(t: Jobs.Table, locked: set<JobId>, turns: seq<Turn>, t': Jobs.Table)
    requires Ticks(t, locked, turns, t') && NoReturns(turns)
    ensures Jobs.IsPick(t, locked, Capacity(turns), Picked(turns)) && InBlocks(t, turns)
    ensures RowsClaimed(t, turns, t')
    ensures PickedByRank(t, locked, Picked(turns)) && BlocksByRank(t, turns)
  {
    TurnsPickInBlocks(t, locked, turns, t');
    TurnsClaimRows(t, locked, turns, t');
    PicksAreByRank(t, locked, Capacity(turns), Picked(turns));
    BlocksAreByRank(t, turns);
  }

  /** Every pending, unlocked job left out has a lower priority than every picked one, or the same and no
      earlier creation. */
  ghost predicate PickedByRank(t: Jobs.Table, locked: set<JobId>, ids: set<JobId>) {
    forall i, k :: i in ids && k in t && k !in ids && k !in locked && t[k].status in {Queued, Retrying} ==>
      && i in t
      && (t[k].priority < t[i].priority || (t[k].priority == t[i].priority && t[i].createdAt <= t[k].createdAt))
  }

  /** So has every job of a later block, compared with one of an earlier block. */
  ghost predicate BlocksByRank(t: Jobs.Table, turns: seq<Turn>) {
    forall m, n :: 0 <= m < n < |turns| ==> RanksBefore(t, turns[m].ids, turns[n].ids)
  }

  ghost predicate RanksBefore(t: Jobs.Table, earlier: set<JobId>, later: set<JobId>) {
    forall i, k :: i in earlier && k in later ==>
      && i in t && k in t
      && (t[k].priority < t[i].priority || (t[k].priority == t[i].priority && t[i].createdAt <= t[k].createdAt))
  }

  lemma PicksAreByRank(t: Jobs.Table, locked: set<JobId>, limit: nat, ids: set<JobId>)
    requires Jobs.IsPick(t, locked, limit, ids)
    ensures PickedByRank(t, locked, ids)
  {
    forall k | k in t && k !in ids && k !in locked && t[k].status in {Queued, Retrying}
      ensures forall i :: i in ids ==>
        i in t && (t[k].priority < t[i].priority || (t[k].priority == t[i].priority && t[i].createdAt <= t[k].createdAt))
    {
      Jobs.PickIsByPriorityAndAge(t, locked, limit, ids, k);
    }
  }

  lemma BlocksAreByRank(t: Jobs.Table, turns: seq<Turn>)
    requires InBlocks(t, turns)
    ensures BlocksByRank(t, turns)
  {
    forall m, n | 0 <= m < n < |turns| ensures RanksBefore(t, turns[m].ids, turns[n].ids) {
      forall i, k | i in turns[m].ids && k in turns[n].ids ensures Precedes(t, i, k) {
      }
    }
  }

  lemma RowsOfBlocks(t: Jobs.Table, t1: Jobs.Table, turns: seq<Turn>, t': Jobs.Table)
    requires turns != [] && t1 == Jobs.Claim(t, turns[0].ids, turns[0].worker)
    requires turns[0].ids <= t.Keys && turns[0].ids !! Picked(turns[1..])
    requires RowsClaimed(t1, turns[1..], t')
    ensures RowsClaimed(t, turns, t')
  {
    var u, rest := turns[0], turns[1..];
    forall i | 0 <= i < |turns| ensures BlockClaimed(t, turns[i], t') {
      if i == 0 {
        assert forall j :: j in u.ids ==> j !in Picked(rest);
      } else {
        assert turns[i] == rest[i - 1] && turns[i].ids <= Picked(rest);
        assert BlockClaimed(t1, turns[i], t');
      }
    }
  }

  lemma BlocksInOrder(t: Jobs.Table, t1: Jobs.Table, turns: seq<Turn>)
    requires turns != [] && t1 == Jobs.Claim(t, turns[0].ids, turns[0].worker)
    requires turns[0].ids <= t.Keys && Picked(turns[1..]) <= t.Keys && turns[0].ids !! Picked(turns[1..])
    requires forall a, b :: a in turns[0].ids && b in Picked(turns[1..]) ==> !Jobs.Outranks(t[b], t[a])
    requires InBlocks(t1, turns[1..])
    ensures InBlocks(t, turns)
  {
    var rest := turns[1..];
    forall i, k, a, b | 0 <= i < k < |turns| && a in turns[i].ids && b in turns[k].ids
      ensures Precedes(t, a, b)
    {
      assert turns[k] == rest[k - 1] && b in Picked(rest);
      if i > 0 {
        assert turns[i] == rest[i - 1];
        assert Precedes(t1, a, b);
      }
    }
  }

  /** With publish failures a rolled-back job may be picked again, but still no job that is passed over
      in the whole tick outranks one that is picked. */
  lemma {:induction false} NeverPickedNeverOutranks(t: Jobs.Table, locked: set<JobId>, turns: seq<Turn>, t': Jobs.Table, a: JobId, b: JobId)
    requires Ticks(t, locked, turns, t')
    requires a in Picked(turns)
    requires b in Jobs.Available(t, locked) && b !in Picked(turns)
    ensures a in t && !Jobs.Outranks(t[b], t[a])
    ensures t[b].priority < t[a].priority || (t[b].priority == t[a].priority && t[a].createdAt <= t[b].createdAt)
    decreases |turns|
  {
    var u, rest := turns[0], turns[1..];
    if a !in u.ids {
      NeverPickedNeverOutranks(AfterTurn(t, u), locked, rest, t', a, b);
    }
  }

  lemma {:induction false} TickExtends(t0: Jobs.Table, locked: set<JobId>, turns: seq<Turn>, t: Jobs.Table, u: Turn)
    requires Ticks(t0, locked, turns, t)
    requires Jobs.IsPick(t, locked, u.capacity, u.ids) && u.returned <= u.ids
    ensures Ticks(t0, locked, turns + [u], AfterTurn(t, u))
    decreases |turns|
  {
    if turns == [] {
      assert (turns + [u])[1..] == [];
    } else {
      assert (turns + [u])[0] == turns[0] && (turns + [u])[1..] == turns[1..] + [u];
      TickExtends(AfterTurn(t0, turns[0]), locked, turns[1..], t, u);
    }
  }

  // ----- What kind of steps a tick takes -----

  /** The step is no heartbeat of `w`, and if it is a FetchPending, then for a worker that is healthy
      now: nothing comes between reading the workers and locking rows. */
  predicate Prompt(s: State, l: Label, w: WorkerId) {
    && !(l.Health? && l.health.Heartbeat? && l.health.worker == w)
    && (l.Dispatch? && l.dispatch.Lock? ==>
          l.dispatch.worker in s.workers && Workers.Healthy(s.workers[l.dispatch.worker], s.now))
  }

  ghost predicate PromptRun(s: State, run: seq<Label>, w: WorkerId)
    requires IsRun(s, run)
    decreases |run|
  {
    run == [] || (Prompt(s, run[0], w) && PromptRun(Next(s, run[0]), run[1..], w))
  }

  /** Steps of dispatchers, and claims only for these workers. */
  ghost predicate By(run: seq<Label>, ws: set<WorkerId>) {
    forall k :: 0 <= k < |run| ==> run[k].Dispatch? && (run[k].dispatch.Lock? ==> run[k].dispatch.worker in ws)
  }

  lemma ByJoin(a: seq<Label>, b: seq<Label>, w: WorkerId, ws: set<WorkerId>)
    requires By(a, ws) && By(b, {w}) && w in ws
    ensures By(a + b, ws)
  {
  }

  /** Dispatchers change neither the workers nor the time: what claims for healthy workers only is prompt. */
  lemma {:induction false} ByIsPrompt(s: State, run: seq<Label>, ws: set<WorkerId>, w: WorkerId)
    requires IsRun(s, run) && By(run, ws)
    requires forall v :: v in ws ==> v in s.workers && Workers.Healthy(s.workers[v], s.now)
    ensures PromptRun(s, run, w)
    decreases |run|
  {
    if run != [] {
      var s' := Next(s, run[0]);
      assert s'.workers == s.workers && s'.now == s.now by {
        assert s' == DispatchNext(s, run[0].d, run[0].dispatch);
      }
      assert By(run[1..], ws) by { assert forall k :: 0 <= k < |run[1..]| ==> run[1..][k] == run[k + 1]; }
      ByIsPrompt(s', run[1..], ws, w);
    }
  }

  // ----- The dispatcher itself -----

  /** How many jobs a worker may pick in its turn: none without room, or when its FetchPending errs. */
  function Offer(rows: Workers.Table, w: WorkerId, failing: set<WorkerId>): seq<(WorkerId, nat)>
    requires w in rows
  {
    var capacity := MAX_JOBS_PER_WORKER - rows[w].runningJobs;
    if capacity <= 0 || w in failing then [] else [(w, capacity)]
  }

  /** A worker is offered 5 - running_jobs, if that is positive. */
  lemma OfferIsRoomLeft(rows: Workers.Table, w: WorkerId, failing: set<WorkerId>)
    requires w in rows
    ensures Offer(rows, w, failing) == if w in failing || rows[w].runningJobs >= 5 then [] else [(w, 5 - rows[w].runningJobs)]
  {
  }

  /** A heartbeat makes its worker healthy, for all that was before, and the next tick offers it 5 less what
      the heartbeat says is running; so does a registration, with nothing running. */
  lemma HeartbeatsMakeRoom(rows: Workers.Table, w: WorkerId, cpu: real, running: int, now: int, later: int)
    requires now <= later < now + 15_000_000
    ensures var after := Workers.AfterHeartbeat(rows, w, cpu, running, now);
            && w in after && Workers.Healthy(after[w], later)
            && Offer(after, w, {}) == if running >= 5 then [] else [(w, 5 - running)]
    ensures var after := Workers.AfterRegister(rows, w, now);
            w in after && Workers.Healthy(after[w], later) && Offer(after, w, {}) == [(w, 5)]
  {
  }

  /** Who gets a turn, in order. */
  function Plan(rows: Workers.Table, ids: seq<WorkerId>, failing: set<WorkerId>): seq<(WorkerId, nat)>
    requires forall w :: w in ids ==> w in rows
  {
    if ids == [] then []
    else Plan(rows, ids[..|ids| - 1], failing) + Offer(rows, ids[|ids| - 1], failing)
  }

  function Offers(turns: seq<Turn>): seq<(WorkerId, nat)> {
    seq(|turns|, i requires 0 <= i < |turns| => (turns[i].worker, turns[i].capacity))
  }

  /** How many jobs all workers that can be served have room for. */
  function Room(rows: Workers.Table, ids: seq<WorkerId>, failing: set<WorkerId>): nat
    requires forall w :: w in ids ==> w in rows
  {
    if ids == [] then 0
    else
      var front, w := ids[..|ids| - 1], ids[|ids| - 1];
      Room(rows, front, failing) + if w in failing then 0 else Max(0, 5 - rows[w].runningJobs)
  }

  function Max(a: int, b: int): int { if a < b then b else a }

  function SumOf(offers: seq<(WorkerId, nat)>): nat {
    if offers == [] then 0 else SumOf(offers[..|offers| - 1]) + offers[|offers| - 1].1
  }

  lemma {:induction false} PlanFillsRoom(rows: Workers.Table, ids: seq<WorkerId>, failing: set<WorkerId>)
    requires forall w :: w in ids ==> w in rows
    ensures SumOf(Plan(rows, ids, failing)) == Room(rows, ids, failing)
  {
    if ids != [] {
      var front, w := ids[..|ids| - 1], ids[|ids| - 1];
      PlanFillsRoom(rows, front, failing);
      var before, offer := Plan(rows, front, failing), Offer(rows, w, failing);
      if offer == [] {
        assert before + offer == before;
      } else {
        assert (before + offer)[..|before + offer| - 1] == before;
      }
    }
  }

  lemma {:induction false} CapacityOneMore(turns: seq<Turn>, u: Turn)
    ensures Capacity(turns + [u]) == Capacity(turns) + u.capacity
  {
    if turns == [] {
      assert (turns + [u])[1..] == [];
    } else {
      assert (turns + [u])[1..] == turns[1..] + [u];
      CapacityOneMore(turns[1..], u);
    }
  }

  lemma {:induction false} CapacityIsSum(turns: seq<Turn>)
    ensures Capacity(turns) == SumOf(Offers(turns))
  {
    if turns != [] {
      var front, last := turns[..|turns| - 1], turns[|turns| - 1];
      CapacityIsSum(front);
      CapacityOneMore(front, last);
      assert front + [last] == turns;
      assert Offers(turns)[..|turns| - 1] == Offers(front);
    }
  }

  /** A tick that follows the plan, without publish failures: exactly the best N available jobs are
      claimed, N being what is available or what the served workers have room for, if that is less. */
  lemma PlannedTickIsGreedy(t: Jobs.Table, locked: set<JobId>, turns: seq<Turn>, t': Jobs.Table,
                            rows: Workers.Table, ids: seq<WorkerId>, failing: set<WorkerId>)
    requires Ticks(t, locked, turns, t') && NoReturns(turns)
    requires (forall w :: w in ids ==> w in rows) && Offers(turns) == Plan(rows, ids, failing)
    ensures Jobs.IsPick(t, locked, Room(rows, ids, failing), Picked(turns))
    ensures |Picked(turns)| == Min(Room(rows, ids, failing), |Jobs.Available(t, locked)|)
    ensures PickedByRank(t, locked, Picked(turns)) && BlocksByRank(t, turns)
    ensures InBlocks(t, turns) && RowsClaimed(t, turns, t')
  {
    PlanFillsRoom(rows, ids, failing);
    CapacityIsSum(turns);
    TickIsGreedy(t, locked, turns, t');
  }

  class Dispatcher {
    const jobs: Jobs.JobsTable
    const workers: Workers.WorkersTable
    const topic: Log<JobMessage>

    constructor (jobs: Jobs.JobsTable, workers: Workers.WorkersTable, topic: Log<JobMessage>)
      ensures this.jobs == jobs && this.workers == workers && this.topic == topic
    {
      this.jobs, this.workers, this.topic := jobs, workers, topic;
    }

    /** The tables and the topic are those of a pipeline state. */
    ghost predicate Mirrors(s: State)
      reads jobs, workers, topic
    {
      s.jobs == jobs.rows && s.workers == workers.rows && s.jobsTopic == topic.parts
    }

    /** The publish loop over the rows one FetchPending returned; `answers(from + k)` is what becomes of
        the k-th publish. */
    method PublishBatch(order: seq<JobId>, w: WorkerId, from: nat, answers: nat -> Answer)
      requires forall j :: j in order ==> j in jobs.rows
      requires forall n :: Valid(answers, n, |topic.parts|)
      modifies jobs, topic
      ensures |topic.parts| == old(|topic.parts|)
      ensures (jobs.rows, topic.parts) ==
              Sent(old(jobs.rows), old(topic.parts), Batch(old(jobs.rows), order, w), from, answers)
    {
      var fetched := jobs.rows;
      ghost var parts := topic.parts;
      ghost var batch := Batch(fetched, order, w);
      for k := 0 to |order|
        invariant |topic.parts| == |parts|
        invariant (jobs.rows, topic.parts) == Sent(fetched, parts, batch[..k], from, answers)
      {
        var m := Jobs.MessageFor(order[k], fetched[order[k]], w);
        SentOneMore(fetched, parts, batch, k, from, answers);
        assert batch[k] == m;
        var ok := topic.Write(m, answers(from + k).delivery);
        if !ok && !answers(from + k).rollbackFails {
          var _ := jobs.RollbackToQueued(m.job);
        }
      }
      assert batch[..|order|] == batch;
    }

    /** One worker's turn: fetch, then publish what was fetched. */
    method Serve(w: WorkerId, capacity: nat, locked: set<JobId>, from: nat, answers: nat -> Answer, ghost s: State, ghost d: DispatcherId)
      returns (count: nat, ghost u: Turn, ghost run: seq<Label>, ghost e: State)
      requires Mirrors(s) && locked == Locked(s) && PhaseOf(s, d).Resting? && w in s.workers
      requires forall n :: Valid(answers, n, |topic.parts|)
      modifies jobs, topic
      ensures u.worker == w && u.capacity == capacity && count == |u.ids|
      ensures Jobs.IsPick(old(jobs.rows), locked, capacity, u.ids) && u.returned <= u.ids
      ensures jobs.rows == AfterTurn(old(jobs.rows), u)
      ensures (forall n :: Acknowledged(answers, n)) ==> u.returned == {}
      ensures |topic.parts| == old(|topic.parts|)
      ensures Leads(s, run, e) && Mirrors(e) && e == With(s, d, Resting, jobs.rows, topic.parts, e.book)
      ensures By(run, {w})
    {
      var order, picked := jobs.FetchPending(w, capacity, locked);
      ghost var claimed := jobs.rows;
      PublishBatch(order, w, from, answers);
      count := |order|;
      ghost var batch := Batch(claimed, order, w);
      SentReturns(claimed, old(topic.parts), batch, from, answers);
      Jobs.ListedSize(order, picked);
      run, e := ServeTrace(s, d, w, capacity, picked, order, from, answers);
      u := Turn(w, capacity, picked, Back(batch, from, answers));
      BackWithin(claimed, order, picked, w, from, answers);
    }

    /** A turn after those of `turns0`. */
    method ServeNext(w: WorkerId, capacity: nat, locked: set<JobId>, total0: nat, answers: nat -> Answer,
                     ghost t0: Jobs.Table, ghost turns0: seq<Turn>, ghost s: State, ghost run0: seq<Label>, ghost m: State,
                     ghost d: DispatcherId, ghost ws: set<WorkerId>)
      returns (total: nat, ghost turns: seq<Turn>, ghost run: seq<Label>, ghost e: State)
      requires Leads(s, run0, m) && Mirrors(m) && Around(s, m) && By(run0, ws) && w in ws
      requires locked == Locked(s) && PhaseOf(s, d).Resting? && w in workers.rows
      requires forall n :: Valid(answers, n, |topic.parts|)
      requires SoFar(t0, locked, answers, turns0, jobs.rows, total0)
      modifies jobs, topic
      ensures Leads(s, run, e) && Mirrors(e) && Around(s, e) && By(run, ws) && |topic.parts| == old(|topic.parts|)
      ensures SoFar(t0, locked, answers, turns, jobs.rows, total)
      ensures Offers(turns) == Offers(turns0) + [(w, capacity)]
    {
      AroundSameLocks(s, m);
      ghost var t := jobs.rows;
      ghost var u, more;
      var count;
      count, u, more, e := Serve(w, capacity, locked, total0, answers, m, d);
      NextTurn(s, run0, m, more, e, d);
      ByJoin(run0, more, w, ws);
      SoFarExtends(t0, locked, answers, turns0, t, total0, u);
      total, run, turns := total0 + count, run0 + more, turns0 + [u];
    }

    /** A turn, unless the worker has no room or its FetchPending errs. */
    method Offered(w: WorkerId, failing: set<WorkerId>, locked: set<JobId>, total0: nat, answers: nat -> Answer,
                   ghost t0: Jobs.Table, ghost turns0: seq<Turn>, ghost s: State, ghost run0: seq<Label>, ghost m: State,
                     ghost d: DispatcherId, ghost ws: set<WorkerId>)
      returns (total: nat, ghost turns: seq<Turn>, ghost run: seq<Label>, ghost e: State)
      requires Leads(s, run0, m) && Mirrors(m) && Around(s, m) && By(run0, ws) && w in ws
      requires locked == Locked(s) && PhaseOf(s, d).Resting? && w in workers.rows
      requires forall n :: Valid(answers, n, |topic.parts|)
      requires SoFar(t0, locked, answers, turns0, jobs.rows, total0)
      modifies jobs, topic
      ensures Leads(s, run, e) && Mirrors(e) && Around(s, e) && By(run, ws) && |topic.parts| == old(|topic.parts|)
      ensures SoFar(t0, locked, answers, turns, jobs.rows, total)
      ensures Offers(turns) == Offers(turns0) + Offer(workers.rows, w, failing)
    {
      var capacity := MAX_JOBS_PER_WORKER - workers.rows[w].runningJobs;
      if capacity <= 0 || w in failing { return total0, turns0, run0, m; }
      total, turns, run, e := ServeNext(w, capacity, locked, total0, answers, t0, turns0, s, run0, m, d, ws);
    }

    /** The loop over the healthy workers. */
    method ServeAll(healthy: seq<WorkerId>, failing: set<WorkerId>, locked: set<JobId>, answers: nat -> Answer, ghost s: State, ghost d: DispatcherId)
      returns (total: nat, ghost turns: seq<Turn>, ghost run: seq<Label>, ghost e: State)
      requires Mirrors(s) && locked == Locked(s) && PhaseOf(s, d).Resting?
      requires forall w :: w in healthy ==> w in workers.rows
      requires forall n :: Valid(answers, n, |topic.parts|)
      modifies jobs, topic
      ensures Offers(turns) == Plan(workers.rows, healthy, failing)
      ensures SoFar(old(jobs.rows), locked, answers, turns, jobs.rows, total)
      ensures Leads(s, run, e) && Mirrors(e) && Around(s, e) && By(run, set w | w in healthy)
    {
      total, turns, run, e := 0, [], [], s;
      ghost var ws := set w | w in healthy;
      for k := 0 to |healthy|
        invariant Leads(s, run, e) && Mirrors(e) && Around(s, e) && By(run, ws) && |topic.parts| == old(|topic.parts|)
        invariant Offers(turns) == Plan(workers.rows, healthy[..k], failing)
        invariant SoFar(old(jobs.rows), locked, answers, turns, jobs.rows, total)
      {
        PlanOneMore(workers.rows, healthy, k, failing);
        total, turns, run, e := Offered(healthy[k], failing, locked, total, answers, old(jobs.rows), turns, s, run, e, d, ws);
      }
      assert healthy[..|healthy|] == healthy;
    }

    /** One tick: the tables change as the turns say, the turns follow the plan, and all of it is a run
        of the pipeline in which only dispatcher `d` moves. `failing` are the workers whose
        FetchPending errs. */
    method Tick(now: int, workersFail: bool, failing: set<WorkerId>, locked: set<JobId>, answers: nat -> Answer, ghost s: State, ghost d: DispatcherId)
      returns (total: nat, ghost ids: seq<WorkerId>, ghost turns: seq<Turn>, ghost run: seq<Label>, ghost e: State)
      requires Mirrors(s) && now == s.now && locked == Locked(s) && PhaseOf(s, d).Resting?
      requires forall n :: Valid(answers, n, |topic.parts|)
      modifies jobs, topic
      ensures if workersFail then ids == [] else Workers.HealthyList(workers.rows, now, ids)
      ensures (forall w :: w in ids ==> w in workers.rows) && Offers(turns) == Plan(workers.rows, ids, failing)
      ensures Ticks(old(jobs.rows), locked, turns, jobs.rows) && total == AssignedIn(turns)
      ensures (forall n :: Acknowledged(answers, n)) ==>
        && NoReturns(turns) && Jobs.IsPick(old(jobs.rows), locked, Room(workers.rows, ids, failing), Picked(turns))
        && PickedByRank(old(jobs.rows), locked, Picked(turns)) && BlocksByRank(old(jobs.rows), turns)
      ensures Leads(s, run, e) && Mirrors(e) && Around(s, e)
      ensures forall w :: PromptRun(s, run, w)
    {
      var healthy := [];
      if !workersFail { healthy := workers.FetchHealthy(now); }
      ids := healthy;
      total, turns, run, e := ServeAll(healthy, failing, locked, answers, s, d);
      forall w ensures PromptRun(s, run, w) { ByIsPrompt(s, run, (set v | v in healthy), w); }
      if forall n :: Acknowledged(answers, n) {
        PlannedTickIsGreedy(old(jobs.rows), locked, turns, jobs.rows, workers.rows, ids, failing);
      }
    }
  }

  ghost predicate SoFar(t0: Jobs.Table, locked: set<JobId>, answers: nat -> Answer, turns: seq<Turn>, t: Jobs.Table, total: nat) {
    && Ticks(t0, locked, turns, t) && total == AssignedIn(turns)
    && ((forall n :: Acknowledged(answers, n)) ==> NoReturns(turns))
  }

  lemma SoFarExtends(t0: Jobs.Table, locked: set<JobId>, answers: nat -> Answer, turns: seq<Turn>, t: Jobs.Table, total: nat, u: Turn)
    requires SoFar(t0, locked, answers, turns, t, total)
    requires Jobs.IsPick(t, locked, u.capacity, u.ids) && u.returned <= u.ids
    requires (forall n :: Acknowledged(answers, n)) ==> u.returned == {}
    ensures SoFar(t0, locked, answers, turns + [u], AfterTurn(t, u), total + |u.ids|)
    ensures Offers(turns + [u]) == Offers(turns) + [(u.worker, u.capacity)]
  {
    TickExtends(t0, locked, turns, t, u);
    assert (turns + [u])[..|turns|] == turns;
  }

  function AssignedIn(turns: seq<Turn>): nat {
    if turns == [] then 0 else AssignedIn(turns[..|turns| - 1]) + |turns[|turns| - 1].ids|
  }

  /** Only rows, the jobs topic and the ledger differ; every dispatcher is where it was. */
  ghost predicate Around(s: State, e: State) {
    && e == s.(jobs := e.jobs, jobsTopic := e.jobsTopic, book := e.book, dispatchers := e.dispatchers)
    && forall f :: PhaseOf(e, f) == PhaseOf(s, f)
  }

  lemma AroundSameLocks(s: State, e: State)
    requires Around(s, e)
    ensures Locked(e) == Locked(s)
  {
    forall j | j in Locked(s) ensures j in Locked(e) {
      var f :| f in s.dispatchers && s.dispatchers[f].Claiming? && j in s.dispatchers[f].ids;
      assert PhaseOf(e, f) == PhaseOf(s, f);
    }
    forall j | j in Locked(e) ensures j in Locked(s) {
      var f :| f in e.dispatchers && e.dispatchers[f].Claiming? && j in e.dispatchers[f].ids;
      assert PhaseOf(e, f) == PhaseOf(s, f);
    }
  }

  lemma NextTurn(s: State, run: seq<Label>, m: State, more: seq<Label>, e: State, d: DispatcherId)
    requires Leads(s, run, m) && Leads(m, more, e) && PhaseOf(s, d).Resting?
    requires Around(s, m) && e == With(m, d, Resting, e.jobs, e.jobsTopic, e.book)
    ensures Leads(s, run + more, e) && Around(s, e)
  {
    RunsCompose(s, run, m, more, e);
    forall f ensures PhaseOf(e, f) == PhaseOf(s, f) {
      assert PhaseOf(m, f) == PhaseOf(s, f);
    }
  }

  lemma PlanOneMore(rows: Workers.Table, ids: seq<WorkerId>, k: nat, failing: set<WorkerId>)
    requires forall w :: w in ids ==> w in rows
    requires k < |ids|
    ensures Plan(rows, ids[..k + 1], failing) == Plan(rows, ids[..k], failing) + Offer(rows, ids[k], failing)
  {
    assert ids[..k + 1][..k] == ids[..k];
  }

  /** What becomes of one publish, and of the rollback if it reports an error. */
  datatype Answer = Answer(delivery: Delivery, rollbackFails: bool)

  predicate Acknowledged(answers: nat -> Answer, n: nat) { answers(n).delivery.Delivered? }

  predicate Valid(answers: nat -> Answer, n: nat, partitions: nat) { Deliverable(answers(n).delivery, partitions) }

  /** Table and topic after publishing a batch. */
  function Sent(t: Jobs.Table, topic: Topic<JobMessage>, batch: seq<JobMessage>, from: nat, answers: nat -> Answer): (r: (Jobs.Table, Topic<JobMessage>))
    requires forall n :: Valid(answers, n, |topic|)
    ensures |r.1| == |topic|
  {
    if batch == [] then (t, topic)
    else
      var k := |batch| - 1;
      var (t1, topic1) := Sent(t, topic, batch[..k], from, answers);
      assert Valid(answers, from + k, |topic|);
      (AfterAnswer(t1, batch[k].job, answers(from + k)), AfterWrite(topic1, batch[k], answers(from + k).delivery))
  }

  lemma SentOneMore(t: Jobs.Table, topic: Topic<JobMessage>, batch: seq<JobMessage>, k: nat, from: nat, answers: nat -> Answer)
    requires forall n :: Valid(answers, n, |topic|)
    requires k < |batch|
    ensures Deliverable(answers(from + k).delivery, |topic|)
    ensures var before := Sent(t, topic, batch[..k], from, answers);
            var a := answers(from + k);
            Sent(t, topic, batch[..k + 1], from, answers)
            == (AfterAnswer(before.0, batch[k].job, a), AfterWrite(before.1, batch[k], a.delivery))
  {
    assert Valid(answers, from + k, |topic|);
    assert batch[..k + 1][..k] == batch[..k];
  }

  function AfterAnswer(t: Jobs.Table, j: JobId, a: Answer): Jobs.Table {
    if a.delivery.Delivered? || a.rollbackFails then t else Jobs.AfterRollback(t, j)
  }

  /** The jobs of the batch that were rolled back. */
  function Back(batch: seq<JobMessage>, from: nat, answers: nat -> Answer): set<JobId> {
    set k | 0 <= k < |batch| && !answers(from + k).delivery.Delivered? && !answers(from + k).rollbackFails :: batch[k].job
  }

  lemma {:induction false} SentReturns(t: Jobs.Table, topic: Topic<JobMessage>, batch: seq<JobMessage>, from: nat, answers: nat -> Answer)
    requires forall n :: Valid(answers, n, |topic|)
    ensures Sent(t, topic, batch, from, answers).0 == Returned(t, Back(batch, from, answers))
  {
    if batch == [] {
      ReturnedTwice(t, {}, {});
    } else {
      var k := |batch| - 1;
      assert batch[..k + 1] == batch;
      SentReturns(t, topic, batch[..k], from, answers);
      SentOneMore(t, topic, batch, k, from, answers);
      BackOneMore(batch, from, answers);
      ReturnsOneMore(t, Back(batch[..k], from, answers), batch[k].job, answers(from + k));
    }
  }

  lemma BackWithin(t: Jobs.Table, order: seq<JobId>, ids: set<JobId>, w: WorkerId, from: nat, answers: nat -> Answer)
    requires Jobs.Lists(order, ids) && ids <= t.Keys
    ensures Back(Batch(t, order, w), from, answers) <= ids
    ensures (forall n :: Acknowledged(answers, n)) ==> Back(Batch(t, order, w), from, answers) == {}
  {
    var batch := Batch(t, order, w);
    forall j | j in Back(batch, from, answers) ensures j in ids && !(forall n :: Acknowledged(answers, n)) {
      var k :| 0 <= k < |batch| && !answers(from + k).delivery.Delivered? && batch[k].job == j;
      assert order[k] in order && !Acknowledged(answers, from + k);
    }
  }

  function BackOf(j: JobId, a: Answer): set<JobId> {
    if a.delivery.Delivered? || a.rollbackFails then {} else {j}
  }

  lemma BackOneMore(batch: seq<JobMessage>, from: nat, answers: nat -> Answer)
    requires batch != []
    ensures var k := |batch| - 1;
            Back(batch, from, answers) == Back(batch[..k], from, answers) + BackOf(batch[k].job, answers(from + k))
  {
  }

  lemma ReturnsOneMore(t: Jobs.Table, back: set<JobId>, j: JobId, a: Answer)
    ensures AfterAnswer(Returned(t, back), j, a) == Returned(t, back + BackOf(j, a))
  {
    ReturnedTwice(t, back, BackOf(j, a));
    ReturnedTwice(Returned(t, back), {}, {});
  }

  /** The state with what a dispatcher can change. */
  function With(s: State, d: DispatcherId, ph: Phase, jobs: Jobs.Table, topic: Topic<JobMessage>, book: Ledger): State {
    s.(jobs := jobs, jobsTopic := topic, book := book, dispatchers := s.dispatchers[d := ph])
  }

  lemma WithTwice(s: State, e: State, d: DispatcherId, ph: Phase, f: State)
    requires e == With(s, d, ph, e.jobs, e.jobsTopic, e.book)
    requires f == With(e, d, PhaseOf(f, d), f.jobs, f.jobsTopic, f.book)
    ensures f == With(s, d, PhaseOf(f, d), f.jobs, f.jobsTopic, f.book)
    ensures !PhaseOf(s, d).Claiming? && !ph.Claiming? ==> Locked(e) == Locked(s)
  {
    assert s.dispatchers[d := ph][d := PhaseOf(f, d)] == s.dispatchers[d := PhaseOf(f, d)];
    if !PhaseOf(s, d).Claiming? && !ph.Claiming? { SameLocks(s, e, d); }
  }

  lemma ReturnedTwice(t: Jobs.Table, a: set<JobId>, b: set<JobId>)
    ensures Returned(Returned(t, a), b) == Returned(t, a + b)
    ensures Returned(t, {}) == t
  {
  }

  lemma SameLocks(s: State, e: State, d: DispatcherId)
    requires e.dispatchers == s.dispatchers[d := PhaseOf(e, d)]
    requires !PhaseOf(s, d).Claiming? && !PhaseOf(e, d).Claiming?
    ensures Locked(e) == Locked(s)
  {
    forall j | j in Locked(s) ensures j in Locked(e) {
      var f :| f in s.dispatchers && s.dispatchers[f].Claiming? && j in s.dispatchers[f].ids;
      assert f in e.dispatchers && e.dispatchers[f] == s.dispatchers[f];
    }
    forall j | j in Locked(e) ensures j in Locked(s) {
      var f :| f in e.dispatchers && e.dispatchers[f].Claiming? && j in e.dispatchers[f].ids;
      assert f in s.dispatchers && e.dispatchers[f] == s.dispatchers[f];
    }
  }

  lemma DispatcherMoves(s0: State, run: seq<Label>, s: State, d: DispatcherId, l: DispatchStep) returns (run': seq<Label>, e: State)
    requires Leads(s0, run, s) && DispatchEnabled(s, d, l)
    ensures Leads(s0, run', e) && e == DispatchNext(s, d, l) && run' == run + [Dispatch(d, l)]
  {
    OneMore(s0, run, s, Dispatch(d, l));
    run', e := run + [Dispatch(d, l)], DispatchNext(s, d, l);
  }

  /** The pipeline steps of a rollback after a publish that reported an error. */
  lemma RollbackTrace(s0: State, run0: seq<Label>, s: State, d: DispatcherId, rollbackFails: bool)
    returns (run: seq<Label>, e: State)
    requires Leads(s0, run0, s)
    requires PhaseOf(s, d).Publishing? && PhaseOf(s, d).next < |PhaseOf(s, d).batch| && !PhaseOf(s, d).failed
    requires PhaseOf(s, d).batch[PhaseOf(s, d).next].job !in Locked(s)
    ensures forall ws :: By(run0, ws) ==> By(run, ws)
    ensures Leads(s0, run, e)
    ensures e == With(s, d, PhaseOf(s, d).(next := PhaseOf(s, d).next + 1),
                      if rollbackFails then s.jobs else Jobs.AfterRollback(s.jobs, PhaseOf(s, d).batch[PhaseOf(s, d).next].job),
                      s.jobsTopic, e.book)
  {
    run, e := DispatcherMoves(s0, run0, s, d, PublishFails);
    SameLocks(s, e, d);
    var e1 := e;
    run, e := DispatcherMoves(s0, run, e, d, if rollbackFails then RollbackFails else Rollback);
    WithTwice(s, e1, d, PhaseOf(e1, d), e);
  }

  /** The pipeline steps of one publish, and of what follows an error. */
  lemma PublishTrace(s0: State, run0: seq<Label>, s: State, d: DispatcherId, a: Answer)
    returns (run: seq<Label>, e: State)
    requires Leads(s0, run0, s) && Deliverable(a.delivery, |s.jobsTopic|)
    requires PhaseOf(s, d).Publishing? && PhaseOf(s, d).next < |PhaseOf(s, d).batch| && !PhaseOf(s, d).failed
    requires PhaseOf(s, d).batch[PhaseOf(s, d).next].job !in Locked(s)
    ensures forall ws :: By(run0, ws) ==> By(run, ws)
    ensures Leads(s0, run, e)
    ensures var m := PhaseOf(s, d).batch[PhaseOf(s, d).next];
            e == With(s, d, PhaseOf(s, d).(next := PhaseOf(s, d).next + 1),
                      AfterAnswer(s.jobs, m.job, a), AfterWrite(s.jobsTopic, m, a.delivery), e.book)
  {
    if a.delivery.Delivered? {
      run, e := DispatcherMoves(s0, run0, s, d, Publish(a.delivery.partition));
    } else {
      run, e := run0, s;
      if a.delivery.Unacknowledged? {
        run, e := DispatcherMoves(s0, run, e, d, PublishUnacknowledged(a.delivery.partition));
      }
      run, e := RollbackTrace(s0, run, e, d, a.rollbackFails);
    }
  }

  /** The pipeline steps of the first k publishes of a batch. */
  lemma {:induction false} BatchTrace(s0: State, run0: seq<Label>, s: State, d: DispatcherId, k: nat, from: nat, answers: nat -> Answer)
    returns (run: seq<Label>, e: State)
    requires Leads(s0, run0, s)
    requires PhaseOf(s, d).Publishing? && PhaseOf(s, d).next == 0 && !PhaseOf(s, d).failed && k <= |PhaseOf(s, d).batch|
    requires forall i :: 0 <= i < |PhaseOf(s, d).batch| ==> PhaseOf(s, d).batch[i].job !in Locked(s)
    requires forall n :: Valid(answers, n, |s.jobsTopic|)
    ensures forall ws :: By(run0, ws) ==> By(run, ws)
    ensures Leads(s0, run, e)
    ensures var after := Sent(s.jobs, s.jobsTopic, PhaseOf(s, d).batch[..k], from, answers);
            e == With(s, d, PhaseOf(s, d).(next := k), after.0, after.1, e.book)
    decreases k, 0
  {
    if k == 0 {
      run, e := run0, s;
      assert s.dispatchers[d := PhaseOf(s, d)] == s.dispatchers;
    } else {
      run, e := LastTrace(s0, run0, s, d, k - 1, from, answers);
    }
  }

  lemma {:induction false} LastTrace(s0: State, run0: seq<Label>, s: State, d: DispatcherId, k: nat, from: nat, answers: nat -> Answer)
    returns (run: seq<Label>, e: State)
    requires Leads(s0, run0, s)
    requires PhaseOf(s, d).Publishing? && PhaseOf(s, d).next == 0 && !PhaseOf(s, d).failed && k < |PhaseOf(s, d).batch|
    requires forall i :: 0 <= i < |PhaseOf(s, d).batch| ==> PhaseOf(s, d).batch[i].job !in Locked(s)
    requires forall n :: Valid(answers, n, |s.jobsTopic|)
    ensures forall ws :: By(run0, ws) ==> By(run, ws)
    ensures Leads(s0, run, e)
    ensures var after := Sent(s.jobs, s.jobsTopic, PhaseOf(s, d).batch[..k + 1], from, answers);
            e == With(s, d, PhaseOf(s, d).(next := k + 1), after.0, after.1, e.book)
    decreases k, 1
  {
    SentOneMore(s.jobs, s.jobsTopic, PhaseOf(s, d).batch, k, from, answers);
    var e1;
    run, e1 := BatchTrace(s0, run0, s, d, k, from, answers);
    SameLocks(s, e1, d);
    run, e := PublishTrace(s0, run, e1, d, answers(from + k));
    WithTwice(s, e1, d, PhaseOf(e1, d), e);
  }

  /** The pipeline steps of one FetchPending. */
  lemma FetchTrace(s: State, d: DispatcherId, w: WorkerId, capacity: nat, ids: set<JobId>, order: seq<JobId>)
    returns (run: seq<Label>, e: State)
    requires PhaseOf(s, d).Resting? && w in s.workers
    requires Jobs.IsPick(s.jobs, Locked(s), capacity, ids) && Jobs.Lists(order, ids)
    ensures By(run, {w})
    ensures Leads(s, run, e)
    ensures var claimed := Jobs.Claim(s.jobs, ids, w);
            e == With(s, d, Publishing(Batch(claimed, order, w), 0, false), claimed, s.jobsTopic, e.book)
    ensures e.book == s.book.(issued := e.book.issued, place := s.book.place + Placing(d, order))
  {
    assert Leads(s, [], s);
    var e1;
    run, e1 := DispatcherMoves(s, [], s, d, Lock(w, capacity, ids));
    run, e := DispatcherMoves(s, run, e1, d, Commit(order));
    WithTwice(s, e1, d, PhaseOf(e1, d), e);
  }

  /** The pipeline steps of one worker's turn. */
  lemma ServeTrace(s: State, d: DispatcherId, w: WorkerId, capacity: nat, ids: set<JobId>, order: seq<JobId>, from: nat, answers: nat -> Answer)
    returns (run: seq<Label>, e: State)
    requires PhaseOf(s, d).Resting? && w in s.workers
    requires Jobs.IsPick(s.jobs, Locked(s), capacity, ids) && Jobs.Lists(order, ids)
    requires forall n :: Valid(answers, n, |s.jobsTopic|)
    ensures By(run, {w})
    ensures Leads(s, run, e)
    ensures var claimed := Jobs.Claim(s.jobs, ids, w);
            var after := Sent(claimed, s.jobsTopic, Batch(claimed, order, w), from, answers);
            e == With(s, d, Resting, after.0, after.1, e.book)
  {
    var batch := Batch(Jobs.Claim(s.jobs, ids, w), order, w);
    var e1, e2;
    run, e1 := FetchTrace(s, d, w, capacity, ids, order);
    SameLocks(s, e1, d);
    forall i | 0 <= i < |batch| ensures batch[i].job !in Locked(e1) {
      assert order[i] in order;
    }
    run, e2 := BatchTrace(s, run, e1, d, |batch|, from, answers);
    assert batch[..|batch|] == batch;
    WithTwice(s, e1, d, PhaseOf(e1, d), e2);
    run, e := DispatcherMoves(s, run, e2, d, Finish);
    WithTwice(s, e2, d, PhaseOf(e2, d), e);
  }
}
