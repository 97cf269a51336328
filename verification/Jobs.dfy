/** The jobs table. Every SQL statement is a function from table to table (FetchPending, whose
    order leaves ties open, is a relation); the class runs the statements in place. */
module Jobs {
  import opened Types
  import Workers

  type Table = map<JobId, Job>

  /** ORDER BY priority DESC, created_at ASC, read strictly. */
  predicate Outranks(a: Job, b: Job) {
    a.priority > b.priority || (a.priority == b.priority && a.createdAt < b.createdAt)
  }

  /** The rows FetchPending may lock: pending, and not locked by another open statement. */
  function Available(t: Table, locked: set<JobId>): set<JobId> {
    set j | j in t && t[j].Pending() && j !in locked
  }

  /** `ids` are as many of `avail` as the limit allows, none of them outranked by one left behind.
      Equal ranks are picked in any order. */
  predicate Top(t: Table, avail: set<JobId>, limit: nat, ids: set<JobId>)
    requires avail <= t.Keys
  {
    && ids <= avail
    && |ids| == Min(limit, |avail|)
    && forall i, k :: i in ids && k in avail - ids ==> !Outranks(t[k], t[i])
  }

  /** `ids` is what the CTE of FetchPending may pick. */
  predicate IsPick(t: Table, locked: set<JobId>, limit: nat, ids: set<JobId>) {
    Top(t, Available(t, locked), limit, ids)
  }

  function Claimed(j: Job, w: WorkerId): Job {
    j.(status := Running, worker := Some(w), attempts := j.attempts + 1)
  }

  /** The UPDATE half of FetchPending. */
  function Claim(t: Table, ids: set<JobId>, w: WorkerId): Table {
    map j | j in t :: if j in ids then Claimed(t[j], w) else t[j]
  }

  function AfterCreate(t: Table, id: JobId, jobType: string, payload: string, priority: int, now: int): Table {
    t[id := Job(Queued, jobType, payload, priority, 0, None, now)]
  }

  function AfterCancel(t: Table, id: JobId): Table {
    if id in t && t[id].Cancellable() then t[id := t[id].(status := Dead)] else t
  }

  function AfterCompleted(t: Table, id: JobId): Table {
    if id in t then t[id := t[id].(status := Completed)] else t
  }

  function FailedStatus(attempts: nat, max: nat): JobStatus {
    if attempts >= max then Dead else Retrying
  }

  function AfterFailed(t: Table, id: JobId, max: nat): Table {
    if id in t then t[id := t[id].(status := FailedStatus(t[id].attempts, max))] else t
  }

  function AfterRollback(t: Table, id: JobId): Table {
    if id in t && t[id].status.Running? then t[id := t[id].(status := Queued, worker := None)] else t
  }

  /** The rows RequeueStale changes. */
  function StaleRunning(t: Table, ws: Workers.Table, now: int): set<JobId> {
    set j | j in t && t[j].status.Running? && t[j].worker.Some? && t[j].worker.value in ws
            && Workers.Abandoned(ws[t[j].worker.value], now)
  }

  function AfterRequeue(t: Table, ws: Workers.Table, now: int): Table {
    map j | j in t ::
      if j in StaleRunning(t, ws, now) then t[j].(status := Queued, worker := None) else t[j]
  }

  predicate SameContent(a: Job, b: Job) {
    a.jobType == b.jobType && a.payload == b.payload && a.priority == b.priority
  }

  /** Content and attempts stand, and the row does not start RUNNING or change the worker it runs on. */
  predicate RowKept(j: Job, j': Job) {
    && j' == j.(status := j'.status, worker := j'.worker)
    && (j'.status.Running? ==> j.status.Running? && j'.worker == j.worker)
  }

  /** What every statement but FetchPending does: no row goes, and every row is kept or new. */
  ghost predicate Kept(t: Table, t': Table) {
    && t.Keys <= t'.Keys
    && forall j :: j in t' ==>
         if j in t then RowKept(t[j], t'[j]) else t'[j].attempts == 0 && t'[j].status.Queued?
  }

  lemma CreateKeeps(t: Table, id: JobId, jobType: string, payload: string, priority: int, now: int)
    requires id !in t
    ensures Kept(t, AfterCreate(t, id, jobType, payload, priority, now))
  {
  }

  lemma RowStatementsKeep(t: Table, id: JobId, max: nat)
    ensures Kept(t, AfterCancel(t, id))
    ensures Kept(t, AfterRollback(t, id))
    ensures Kept(t, AfterCompleted(t, id))
    ensures Kept(t, AfterFailed(t, id, max))
  {
  }

  lemma RequeueKeeps(t: Table, ws: Workers.Table, now: int)
    ensures Kept(t, AfterRequeue(t, ws, now))
  {
  }

  function Assigned(t: Table, w: WorkerId): set<JobId> {
    set j | j in t && t[j].status.Running? && t[j].worker == Some(w)
  }

  function MessageFor(id: JobId, j: Job, w: WorkerId): JobMessage {
    JobMessage(id, w, j.jobType, j.payload, j.priority, j.attempts)
  }

  /** `order` lists `ids`, each once: RETURNING promises no order. */
  ghost predicate Lists(order: seq<JobId>, ids: set<JobId>) {
    Workers.Distinct(order) && forall x :: x in order <==> x in ids
  }

  lemma {:induction false} ListedSize(order: seq<JobId>, ids: set<JobId>)
    requires Lists(order, ids)
    ensures |order| == |ids|
  {
    if order != [] {
      var front, last := order[..|order| - 1], order[|order| - 1];
      assert order == front + [last] && last in order;
      forall x ensures x in front <==> x in ids - {last} {
        assert x in order <==> x in front || x == last;
      }
      ListedSize(front, ids - {last});
    } else {
      assert ids == {};
    }
  }

  /** MarkFailed has no guard. It leaves a terminal row as it was exactly when the row is DEAD with
      its attempts used up; every other terminal row is resurrected or changed. */
  lemma MarkFailedKeepsTerminal(t: Table, id: JobId, max: nat)
    requires id in t && t[id].Terminal()
    ensures AfterFailed(t, id, max)[id] == t[id] <==> t[id].status.Dead? && t[id].attempts >= max
    ensures AfterFailed(t, id, max)[id].Terminal() <==> t[id].attempts >= max
  {
    assert AfterFailed(t, id, max)[id].status == FailedStatus(t[id].attempts, max);
  }

  /** Likewise MarkCompleted revives a cancelled or dead job as COMPLETED. */
  lemma MarkCompletedKeepsTerminal(t: Table, id: JobId)
    requires id in t && t[id].Terminal()
    ensures AfterCompleted(t, id)[id] == t[id] <==> t[id].status.Completed?
  {
    assert AfterCompleted(t, id)[id].status == Completed;
  }

  /** Two picks in a row, the second against what the first left, are one pick of both limits. */
  lemma PickThenPick(t: Table, locked: set<JobId>, n: nat, m: nat, a: set<JobId>, b: set<JobId>, w: WorkerId)
    requires IsPick(t, locked, n, a)
    requires IsPick(Claim(t, a, w), locked, m, b)
    ensures a !! b
    ensures IsPick(t, locked, n + m, a + b)
    ensures forall i, k :: i in a && k in b ==> !Outranks(t[k], t[i])
  {
    var t' := Claim(t, a, w);
    ClaimShrinks(t, locked, a, w);
    assert Top(t, Available(t', locked), m, b) by {
      assert forall i, k :: i in t && k in t ==> Outranks(t[k], t[i]) == Outranks(t'[k], t'[i]);
    }
    TopThenTop(t, Available(t, locked), n, m, a, b);
  }

  /** What a pick means for the columns: the rows left behind have a lower priority than the picked ones, or
      the same and no earlier creation. */
  lemma PickIsByPriorityAndAge(t: Table, locked: set<JobId>, limit: nat, ids: set<JobId>, k: JobId)
    requires IsPick(t, locked, limit, ids)
    requires k in t && t[k].status in {Queued, Retrying} && k !in locked && k !in ids
    ensures |ids| == limit
    ensures forall i :: i in ids ==>
      && i in t && t[i].status in {Queued, Retrying} && i !in locked
      && (t[k].priority < t[i].priority || (t[k].priority == t[i].priority && t[i].createdAt <= t[k].createdAt))
  {
    var avail := Available(t, locked);
    assert k in avail - ids;
    Sizes(ids, avail - ids);
    assert ids + (avail - ids) == avail && |avail - ids| > 0;
    forall i | i in ids ensures i in t && !Outranks(t[k], t[i]) && i in avail {
    }
  }

  lemma ClaimShrinks(t: Table, locked: set<JobId>, a: set<JobId>, w: WorkerId)
    ensures Available(Claim(t, a, w), locked) == Available(t, locked) - a
  {
  }

  lemma TopThenTop(t: Table, avail: set<JobId>, n: nat, m: nat, a: set<JobId>, b: set<JobId>)
    requires avail <= t.Keys
    requires Top(t, avail, n, a) && Top(t, avail - a, m, b)
    ensures a !! b && Top(t, avail, n + m, a + b)
    ensures forall i, k :: i in a && k in b ==> !Outranks(t[k], t[i])
  {
    Sizes(a, avail - a);
    assert a + (avail - a) == avail;
    Sizes(a, b);
    assert avail - a - b == avail - (a + b);
  }

  lemma Sizes<T>(a: set<T>, b: set<T>)
    requires a !! b
    ensures |a + b| == |a| + |b|
  {
  }

  /** The rows FetchAssigned returns, over all workers, are the RUNNING rows, each in one set. */
  lemma AssignedPartitions(t: Table, ws: set<WorkerId>)
    requires forall j :: j in t && t[j].status.Running? ==> t[j].worker.Some? && t[j].worker.value in ws
    ensures forall j :: j in t && t[j].status.Running? <==> exists w :: w in ws && j in Assigned(t, w)
    ensures forall u, v :: u != v ==> Assigned(t, u) !! Assigned(t, v)
  {
    forall j | j in t && t[j].status.Running?
      ensures exists w :: w in ws && j in Assigned(t, w)
    {
      assert j in Assigned(t, t[j].worker.value);
    }
  }

  class JobsTable {
    var rows: Table

    constructor ()
      ensures rows == map[]
    {
      rows := map[];
    }

    method Create(id: JobId, jobType: string, payload: string, priority: int, now: int) returns (r: Result<Job, Error>)
      modifies this
      ensures r.Ok? <==> id !in old(rows)
      ensures rows == if r.Ok? then AfterCreate(old(rows), id, jobType, payload, priority, now) else old(rows)
      ensures rows == if r.Ok? then old(rows)[id := Job(Queued, jobType, payload, priority, 0, None, now)] else old(rows)
      ensures r.Ok? ==> r.value == rows[id]
    {
      if id in rows { return Err(AlreadyExists); }
      var j := Job(Queued, jobType, payload, priority, 0, None, now);
      rows := rows[id := j];
      r := Ok(j);
    }

    method Cancel(id: JobId) returns (r: Result<(), Error>)
      modifies this
      ensures rows == AfterCancel(old(rows), id)
      ensures r.Ok? <==> id in old(rows) && old(rows)[id].status in {Queued, Running, Retrying}
      ensures rows == if r.Ok? then old(rows)[id := old(rows)[id].(status := Dead)] else old(rows)
    {
      if id in rows && rows[id].Cancellable() {
        rows := rows[id := rows[id].(status := Dead)];
        return Ok(());
      }
      r := Err(NotFound);
    }

    method Get(id: JobId) returns (r: Result<Job, Error>)
      ensures r == if id in rows then Ok(rows[id]) else Err(NotFound)
    {
      if id in rows { return Ok(rows[id]); }
      r := Err(NotFound);
    }

    method Best(candidates: set<JobId>) returns (best: JobId)
      requires candidates != {} && candidates <= rows.Keys
      ensures best in candidates
      ensures forall k :: k in candidates ==> !Outranks(rows[k], rows[best])
      ensures forall k :: k in candidates ==>
        rows[k].priority < rows[best].priority
        || (rows[k].priority == rows[best].priority && rows[best].createdAt <= rows[k].createdAt)
    {
      best :| best in candidates;
      var rest := candidates - {best};
      while rest != {}
        invariant best in candidates && rest <= candidates
        invariant forall k :: k in candidates && k !in rest ==> !Outranks(rows[k], rows[best])
        decreases rest
      {
        var k :| k in rest;
        if Outranks(rows[k], rows[best]) {
          best := k;
        }
        rest := rest - {k};
      }
    }

    method PickTop(avail: set<JobId>, limit: nat) returns (picked: set<JobId>)
      requires avail <= rows.Keys
      ensures Top(rows, avail, limit, picked)
      ensures forall i, k :: i in picked && k in avail - picked ==>
        rows[k].priority < rows[i].priority || (rows[k].priority == rows[i].priority && rows[i].createdAt <= rows[k].createdAt)
    {
      picked := {};
      var rest := avail;
      while |picked| < limit && rest != {}
        invariant picked !! rest && picked + rest == avail
        invariant |picked| <= limit
        invariant forall i, k :: i in picked && k in rest ==> !Outranks(rows[k], rows[i])
        decreases rest
      {
        var b := Best(rest);
        picked, rest := picked + {b}, rest - {b};
      }
      Sizes(picked, rest);
    }

    /** `locked` are the rows other open statements hold; SKIP LOCKED passes over them. Of the pending
        rows that are left the statement takes the highest priorities, and of equal ones the oldest rows. */
    method FetchPending(w: WorkerId, limit: nat, locked: set<JobId>) returns (order: seq<JobId>, ghost ids: set<JobId>)
      modifies this
      ensures IsPick(old(rows), locked, limit, ids) && Lists(order, ids)
      ensures rows == Claim(old(rows), ids, w)
      ensures forall i :: i in ids ==>
        && i in old(rows) && old(rows)[i].status in {Queued, Retrying} && i !in locked
        && rows[i] == old(rows)[i].(status := Running, worker := Some(w), attempts := old(rows)[i].attempts + 1)
      ensures rows.Keys == old(rows).Keys && forall k :: k in old(rows) && k !in ids ==> rows[k] == old(rows)[k]
      ensures |ids| <= limit
      ensures forall k :: k in old(rows) && old(rows)[k].status in {Queued, Retrying} && k !in locked && k !in ids ==>
        && |ids| == limit
        && forall i :: i in ids ==>
             old(rows)[k].priority < old(rows)[i].priority
             || (old(rows)[k].priority == old(rows)[i].priority && old(rows)[i].createdAt <= old(rows)[k].createdAt)
    {
      ghost var before := rows;
      var picked := PickTop(Available(rows, locked), limit);
      rows := map j | j in rows :: if j in picked then Claimed(rows[j], w) else rows[j];
      ids := picked;
      order := Enumerate(picked);
      forall k | k in before && before[k].status in {Queued, Retrying} && k !in locked && k !in ids
        ensures |ids| == limit
        ensures forall i :: i in ids ==>
          before[k].priority < before[i].priority || (before[k].priority == before[i].priority && before[i].createdAt <= before[k].createdAt)
      {
        PickIsByPriorityAndAge(before, locked, limit, ids, k);
      }
    }

    method RequeueStale(workers: Workers.WorkersTable, now: int) returns (affected: nat)
      modifies this
      ensures rows == AfterRequeue(old(rows), workers.rows, now)
      ensures affected == |StaleRunning(old(rows), workers.rows, now)|
      ensures rows.Keys == old(rows).Keys
      ensures forall j :: j in rows ==>
        var taken := old(rows)[j].status == Running && old(rows)[j].worker.Some? && old(rows)[j].worker.value in workers.rows
                     && (var w := workers.rows[old(rows)[j].worker.value];
                         w.status == Unhealthy || (w.heartbeat.Some? && w.heartbeat.value < now - 15_000_000));
        rows[j] == if taken then old(rows)[j].(status := Queued, worker := None) else old(rows)[j]
    {
      var hit := StaleRunning(rows, workers.rows, now);
      affected := |hit|;
      rows := map j | j in rows :: if j in hit then rows[j].(status := Queued, worker := None) else rows[j];
    }

    method MarkCompleted(id: JobId) returns (r: Result<(), Error>)
      modifies this
      ensures rows == AfterCompleted(old(rows), id)
      ensures r == if id in old(rows) then Ok(()) else Err(NotFound)
      ensures rows == if r.Ok? then old(rows)[id := old(rows)[id].(status := Completed)] else old(rows)
    {
      if id !in rows { return Err(NotFound); }
      rows := rows[id := rows[id].(status := Completed)];
      r := Ok(());
    }

    method MarkFailed(id: JobId, max: nat) returns (r: Result<JobStatus, Error>)
      modifies this
      ensures rows == AfterFailed(old(rows), id, max)
      ensures r == if id in old(rows) then Ok(if old(rows)[id].attempts >= max then Dead else Retrying) else Err(NotFound)
      ensures rows == if r.Ok? then old(rows)[id := old(rows)[id].(status := r.value)] else old(rows)
    {
      if id !in rows { return Err(NotFound); }
      var status := if rows[id].attempts >= max then Dead else Retrying;
      rows := rows[id := rows[id].(status := status)];
      r := Ok(status);
    }

    method FetchAssigned(w: WorkerId) returns (order: seq<JobId>)
      ensures Lists(order, Assigned(rows, w))
      ensures forall j :: j in order <==> j in rows && rows[j].status == Running && rows[j].worker == Some(w)
    {
      order := Enumerate(Assigned(rows, w));
    }

    method RollbackToQueued(id: JobId) returns (r: Result<(), Error>)
      modifies this
      ensures rows == AfterRollback(old(rows), id)
      ensures r.Ok? <==> id in old(rows) && old(rows)[id].status == Running
      ensures rows == if r.Ok? then old(rows)[id := old(rows)[id].(status := Queued, worker := None)] else old(rows)
    {
      if id in rows && rows[id].status.Running? {
        rows := rows[id := rows[id].(status := Queued, worker := None)];
        return Ok(());
      }
      r := Err(NotFound);
    }
  }

  /** Scanning the rows of a result, in whatever order they come. */
  method Enumerate(ids: set<JobId>) returns (order: seq<JobId>)
    ensures Lists(order, ids)
  {
    order := [];
    var rest := ids;
    while rest != {}
      invariant rest <= ids && Lists(order, ids - rest)
      decreases rest
    {
      var j :| j in rest;
      order, rest := order + [j], rest - {j};
    }
  }
}
