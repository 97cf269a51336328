/** The dead_letters table. */
module Letters {
  import opened Types
  import Pipeline

  type LetterId = nat

  datatype LetterStatus = Open | Replayed

  datatype DeadLetter = DeadLetter(job: JobId, worker: Option<WorkerId>, jobType: string, payload: string,
                                   attempts: nat, error: string, status: LetterStatus,
                                   replayedAt: Option<int>, replayedJob: Option<JobId>)

  type Table = map<LetterId, DeadLetter>

  function OpenRow(l: Pipeline.Letter): DeadLetter {
    DeadLetter(l.job, Some(l.worker), l.jobType, l.payload, l.attempts, l.error, Open, None, None)
  }

  function AfterReplayed(t: Table, id: LetterId, job: JobId, now: int): Table {
    if id in t then t[id := t[id].(status := Replayed, replayedAt := Some(now), replayedJob := Some(job))] else t
  }

  class DeadLettersTable {
    var rows: Table

    constructor ()
      ensures rows == map[]
    {
      rows := map[];
    }

    method Insert(id: LetterId, job: JobId, worker: Option<WorkerId>, jobType: string, payload: string, attempts: nat, error: string)
      requires id !in rows
      modifies this
      ensures rows == old(rows)[id := DeadLetter(job, worker, jobType, payload, attempts, error, Open, None, None)]
    {
      rows := rows[id := DeadLetter(job, worker, jobType, payload, attempts, error, Open, None, None)];
    }

    method Get(id: LetterId) returns (r: Result<DeadLetter, Error>)
      ensures r == if id in rows then Ok(rows[id]) else Err(NotFound)
    {
      if id !in rows { return Err(NotFound); }
      r := Ok(rows[id]);
    }

    method MarkReplayed(id: LetterId, job: JobId, now: int) returns (r: Result<(), Error>)
      modifies this
      ensures rows == AfterReplayed(old(rows), id, job, now)
      ensures r.Ok? <==> id in old(rows)
      ensures rows == if r.Ok?
        then old(rows)[id := old(rows)[id].(status := Replayed, replayedAt := Some(now), replayedJob := Some(job))] else old(rows)
    {
      if id !in rows { return Err(NotFound); }
      rows := rows[id := rows[id].(status := Replayed, replayedAt := Some(now), replayedJob := Some(job))];
      r := Ok(());
    }

    method Delete(id: LetterId) returns (r: Result<(), Error>)
      modifies this
      ensures rows == old(rows) - {id}
      ensures r.Ok? <==> id in old(rows)
    {
      if id !in rows { return Err(NotFound); }
      rows := rows - {id};
      r := Ok(());
    }
  }
}
