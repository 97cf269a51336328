/** The workers table. Every SQL statement is a function from table to table; the class holds
    the table and runs the statements in place. */
module Workers {
  import opened Types

  type Table = map<WorkerId, Worker>

  /** last_heartbeat < now() - 15 s; a NULL heartbeat compares as unknown, hence false. */
  predicate Stale(w: Worker, now: int) { w.heartbeat.Some? && w.heartbeat.value < now - STALE }

  /** The workers FetchHealthy selects. */
  predicate Healthy(w: Worker, now: int) {
    !w.status.Offline? && !w.status.Unhealthy? && w.heartbeat.Some? && w.heartbeat.value > now - STALE
  }

  /** The workers whose RUNNING jobs RequeueStale takes. */
  predicate Abandoned(w: Worker, now: int) { Stale(w, now) || w.status.Unhealthy? }

  /** The workers a whole monitor tick treats as lost. */
  predicate Lost(w: Worker, now: int) {
    Abandoned(w, now) || (w.heartbeat.None? && !w.status.Offline?)
  }

  function AfterRegister(t: Table, id: WorkerId, now: int): Table {
    t[id := Worker(Idle, None, 0, Some(now))]
  }

  function AfterHeartbeat(t: Table, id: WorkerId, cpu: real, running: int, now: int): Table {
    var status :=
      if id !in t || t[id].status.Offline? || t[id].status.Unhealthy? then Idle else t[id].status;
    t[id := Worker(status, Some(cpu), running, Some(now))]
  }

  /** The rows MarkUnhealthy changes. */
  predicate Fading(w: Worker, now: int) {
    !w.status.Unhealthy? && !w.status.Offline? && (w.heartbeat.None? || Stale(w, now))
  }

  function AfterMarkUnhealthy(t: Table, now: int): Table {
    map w | w in t :: if Fading(t[w], now) then t[w].(status := Unhealthy) else t[w]
  }

  /** running_jobs ASC, cpu ASC NULLS LAST. */
  predicate LoadedAtMost(a: Worker, b: Worker) {
    a.runningJobs < b.runningJobs
    || (a.runningJobs == b.runningJobs
        && (b.cpu.None? || (a.cpu.Some? && a.cpu.value <= b.cpu.value)))
  }

  predicate Distinct<T(==)>(s: seq<T>) { forall i, j :: 0 <= i < j < |s| ==> s[i] != s[j] }

  /** What FetchHealthy may return: every healthy worker once, least loaded first. */
  ghost predicate HealthyList(t: Table, now: int, ids: seq<WorkerId>) {
    && Distinct(ids)
    && (forall w :: w in ids <==> w in t && Healthy(t[w], now))
    && (forall i, j :: 0 <= i < j < |ids| ==> LoadedAtMost(t[ids[i]], t[ids[j]]))
  }

  /** UNHEALTHY is a true report: the last consumed heartbeat is more than 15 s old, or there is none. */
  ghost predicate Honest(t: Table, now: int) {
    forall w :: w in t && t[w].status.Unhealthy? ==> t[w].heartbeat.None? || Stale(t[w], now)
  }

  /** A worker whose heartbeat is exactly 15 s old gets no new jobs, yet keeps those it has; every
      other worker that is neither OFFLINE nor healthy is lost to the next monitor tick. */
  lemma HealthyOrLost(w: Worker, now: int)
    requires !w.status.Offline?
    ensures !(Healthy(w, now) && Lost(w, now))
    ensures !Healthy(w, now) && !Lost(w, now) <==> !w.status.Unhealthy? && w.heartbeat == Some(now - STALE)
  {
    if w.heartbeat.Some? {
      assert w.heartbeat.value < now - STALE || w.heartbeat.value == now - STALE || w.heartbeat.value > now - STALE;
    }
  }

  class WorkersTable {
    var rows: Table

    constructor ()
      ensures rows == map[]
    {
      rows := map[];
    }

    /** The database draws the id; it must be new. */
    method Register(id: WorkerId, now: int) returns (w: Worker)
      requires id !in rows
      modifies this
      ensures rows == AfterRegister(old(rows), id, now) && w == rows[id]
      ensures rows == old(rows)[id := Worker(Idle, None, 0, Some(now))]
    {
      w := Worker(Idle, None, 0, Some(now));
      rows := rows[id := w];
    }

    method UpsertHeartbeat(id: WorkerId, cpu: real, running: int, now: int)
      modifies this
      ensures rows == AfterHeartbeat(old(rows), id, cpu, running, now)
      ensures rows.Keys == old(rows).Keys + {id} && forall v :: v in old(rows) && v != id ==> rows[v] == old(rows)[v]
      ensures rows[id].cpu == Some(cpu) && rows[id].runningJobs == running && rows[id].heartbeat == Some(now)
      ensures rows[id].status ==
              if id !in old(rows) || old(rows)[id].status in {Offline, Unhealthy} then Idle else old(rows)[id].status
    {
      if id !in rows {
        rows := rows[id := Worker(Idle, Some(cpu), running, Some(now))];
      } else {
        var w := rows[id].(cpu := Some(cpu), runningJobs := running, heartbeat := Some(now));
        if w.status.Offline? || w.status.Unhealthy? {
          w := w.(status := Idle);
        }
        rows := rows[id := w];
      }
    }

    method MarkUnhealthy(now: int) returns (affected: nat)
      modifies this
      ensures rows == AfterMarkUnhealthy(old(rows), now)
      ensures affected == |set w | w in old(rows) && Fading(old(rows)[w], now)|
      ensures rows.Keys == old(rows).Keys
      ensures forall w :: w in rows ==>
        var was := old(rows)[w];
        var silent := was.heartbeat.None? || was.heartbeat.value < now - 15_000_000;
        rows[w] == if silent && was.status !in {Unhealthy, Offline} then was.(status := Unhealthy) else was
    {
      var hit := set w | w in rows && Fading(rows[w], now);
      affected := |hit|;
      rows := map w | w in rows :: if w in hit then rows[w].(status := Unhealthy) else rows[w];
    }

    method FetchHealthy(now: int) returns (ids: seq<WorkerId>)
      ensures HealthyList(rows, now, ids)
      ensures forall w :: w in ids <==>
        w in rows && rows[w].status !in {Offline, Unhealthy} && rows[w].heartbeat.Some? && rows[w].heartbeat.value > now - 15_000_000
      ensures forall i, j :: 0 <= i < j < |ids| ==>
        && rows[ids[i]].runningJobs <= rows[ids[j]].runningJobs
        && (rows[ids[i]].runningJobs == rows[ids[j]].runningJobs && rows[ids[j]].cpu.Some? ==>
              rows[ids[i]].cpu.Some? && rows[ids[i]].cpu.value <= rows[ids[j]].cpu.value)
    {
      ids := [];
      var rest := set w | w in rows && Healthy(rows[w], now);
      ghost var all := rest;
      while rest != {}
        invariant rest <= all && Distinct(ids)
        invariant forall w :: w in ids <==> w in all && w !in rest
        invariant forall i :: 0 <= i < |ids| ==> ids[i] in rows
        invariant forall i, j :: 0 <= i < j < |ids| ==> LoadedAtMost(rows[ids[i]], rows[ids[j]])
        invariant forall i, w :: 0 <= i < |ids| && w in rest ==> LoadedAtMost(rows[ids[i]], rows[w])
        decreases rest
      {
        var w := LeastLoaded(rest);
        ids := ids + [w];
        rest := rest - {w};
      }
    }

    method LeastLoaded(candidates: set<WorkerId>) returns (best: WorkerId)
      requires candidates != {} && candidates <= rows.Keys
      ensures best in candidates
      ensures forall w :: w in candidates ==> LoadedAtMost(rows[best], rows[w])
    {
      best :| best in candidates;
      var rest := candidates - {best};
      while rest != {}
        invariant best in candidates && rest <= candidates
        invariant forall w :: w in candidates && w !in rest ==> LoadedAtMost(rows[best], rows[w])
        decreases rest
      {
        var w :| w in rest;
        if !LoadedAtMost(rows[best], rows[w]) {
          best := w;
        }
        rest := rest - {w};
      }
    }
  }
}
