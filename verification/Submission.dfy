/** Idempotent submission: concurrent SubmitJob requests over a key store with expiring entries. */
module Submission {
  import opened Types
  import Jobs

  type RequestId = nat

  /** SHA-256 of the type bytes followed by the payload bytes, without a separator. Collisions of the
      hash itself are left out, so a digest is what was hashed. */
  datatype Digest = Digest(bytes: string)

  /** An idempotency key: the text "auto:" and a digest in hex, or any other text. A client may send
      either. */
  datatype Key = Auto(digest: Digest) | Named(text: string)

  const IDEMPOTENCY_TTL: int := 24 * 3600 * 1_000_000

  function PayloadHash(jobType: string, payload: string): Digest { Digest(jobType + payload) }

  function ContentKey(jobType: string, payload: string): Key { Auto(PayloadHash(jobType, payload)) }

  /** Equal keys do not mean equal content: without a separator they mean it exactly when the types
      have the same length. */
  lemma EqualKeysEqualContent(type1: string, payload1: string, type2: string, payload2: string)
    requires ContentKey(type1, payload1) == ContentKey(type2, payload2)
    ensures type1 == type2 && payload1 == payload2 <==> |type1| == |type2|
  {
    var bytes := type1 + payload1;
    assert bytes == type2 + payload2;
    if |type1| == |type2| {
      assert type1 == bytes[..|type1|] == type2;
      assert payload1 == bytes[|type1|..] == payload2;
    }
  }

  lemma DifferentJobsShareAKey()
    ensures ContentKey("echo", "1{}") == ContentKey("echo1", "{}")
  {
    assert "echo" + "1{}" == "echo1" + "{}";
  }

  /** `job` also names the lifetime of the entry: a request draws a fresh id and sets at most one. */
  datatype Entry = Entry(job: JobId, hash: Digest, expires: int)

  type Store = map<Key, Entry>

  predicate Live(store: Store, key: Key, now: int) { key in store && now < store[key].expires }

  datatype Phase =
    | Begun
    | Won                        // SETNX set the key
    | Lost                       // SETNX found the key, GET is to come
    | Duplicate(existing: JobId) // GET returned an entry with the same hash
    | Answered(code: nat, job: Option<JobId>)

  datatype Request = Request(key: Key, hash: Digest, id: JobId, jobType: string, payload: string, priority: int,
                             phase: Phase, entry: Option<JobId>) // entry: the lifetime that decided the request

  datatype State = State(now: int, store: Store, jobs: Jobs.Table, requests: map<RequestId, Request>)

  datatype Step =
    | Begin(r: RequestId, header: Option<Key>, id: JobId, jobType: string, payload: string, priority: int)
    | SetNx(r: RequestId)
    | SetNxFails(r: RequestId, landed: bool)
    | Get(r: RequestId)
    | GetFails(r: RequestId)
    | Create(r: RequestId)
    | CreateFails(r: RequestId, landed: bool)
    | Fetch(r: RequestId)
    | FetchFails(r: RequestId)
    | Advance(delta: nat)
    | Elsewhere(jobs: Jobs.Table)

  predicate In(s: State, r: RequestId, phase: Phase) { r in s.requests && s.requests[r].phase == phase }

  /** Job ids are fresh: no other request, entry or row has them. Everything else that happens to the
      jobs table keeps its rows and creates none under the id of a request. */
  ghost predicate Enabled(s: State, l: Step) {
    match l
    case Begin(r, _, id, _, _, _) =>
      r !in s.requests && id !in s.jobs && (forall q :: q in s.requests ==> s.requests[q].id != id)
    case SetNx(r) => In(s, r, Begun)
    case SetNxFails(r, _) => In(s, r, Begun)
    case Get(r) => In(s, r, Lost)
    case GetFails(r) => In(s, r, Lost)
    case Create(r) => In(s, r, Won)
    case CreateFails(r, _) => In(s, r, Won)
    case Fetch(r) => r in s.requests && s.requests[r].phase.Duplicate?
    case FetchFails(r) => r in s.requests && s.requests[r].phase.Duplicate?
    case Advance(_) => true
    case Elsewhere(jobs) =>
      && s.jobs.Keys <= jobs.Keys && (forall j :: j in s.jobs ==> Jobs.SameContent(s.jobs[j], jobs[j]))
      && forall q :: q in s.requests && s.requests[q].id in jobs ==> s.requests[q].id in s.jobs
  }

  function Move(s: State, r: RequestId, phase: Phase, entry: Option<JobId>): State
    requires r in s.requests
  {
    s.(requests := s.requests[r := s.requests[r].(phase := phase, entry := entry)])
  }

  function Put(s: State, r: RequestId): State
    requires r in s.requests
  {
    var q := s.requests[r];
    s.(store := s.store[q.key := Entry(q.id, q.hash, s.now + IDEMPOTENCY_TTL)])
  }

  function Insert(s: State, r: RequestId): State
    requires r in s.requests
  {
    var q := s.requests[r];
    s.(jobs := Jobs.AfterCreate(s.jobs, q.id, q.jobType, q.payload, q.priority, s.now))
  }

  ghost function Next(s: State, l: Step): State
    requires Enabled(s, l)
  {
    match l
    case Begin(r, header, id, jobType, payload, priority) =>
      var hash := PayloadHash(jobType, payload);
      var key := if header.Some? then header.value else ContentKey(jobType, payload);
      s.(requests := s.requests[r := Request(key, hash, id, jobType, payload, priority, Begun, None)])
    case SetNx(r) =>
      if Live(s.store, s.requests[r].key, s.now) then Move(s, r, Lost, None)
      else Move(Put(s, r), r, Won, Some(s.requests[r].id))
    case SetNxFails(r, landed) =>
      Move(if landed && !Live(s.store, s.requests[r].key, s.now) then Put(s, r) else s, r, Answered(500, None), None)
    case Get(r) =>
      var q := s.requests[r];
      if !Live(s.store, q.key, s.now) then Move(s, r, Answered(500, None), None)
      else
        var e := s.store[q.key];
        if e.hash != q.hash then Move(s, r, Answered(409, None), Some(e.job))
        else Move(s, r, Duplicate(e.job), Some(e.job))
    case GetFails(r) => Move(s, r, Answered(500, None), None)
    case Create(r) => Move(Insert(s, r), r, Answered(201, Some(s.requests[r].id)), s.requests[r].entry)
    case CreateFails(r, landed) =>
      Move(if landed then Insert(s, r) else s, r, Answered(500, None), s.requests[r].entry)
    case Fetch(r) =>
      var j := s.requests[r].phase.existing;
      if j in s.jobs then Move(s, r, Answered(200, Some(j)), s.requests[r].entry)
      else Move(s, r, Answered(500, None), s.requests[r].entry)
    case FetchFails(r) => Move(s, r, Answered(500, None), s.requests[r].entry)
    case Advance(delta) => s.(now := s.now + delta)
    case Elsewhere(jobs) => s.(jobs := jobs)
  }

  // ----- Invariant -----

  /** The request that set the entry of this lifetime. */
  ghost predicate Owns(s: State, o: RequestId, j: JobId, key: Key) {
    o in s.requests && s.requests[o].id == j && s.requests[o].key == key && !s.requests[o].phase.Begun?
  }

  /** The row under a request's id exists only if that request set its entry and went on to create;
      it has the request's content as long as nobody changes content. */
  predicate CreatedOk(q: Request, jobs: Jobs.Table) {
    && (q.id in jobs ==> q.entry == Some(q.id) && q.phase.Answered? && (q.phase.code == 201 || q.phase.code == 500))
    && (q.phase.Won? ==> q.entry == Some(q.id))
    && (q.phase.Begun? || q.phase.Lost? ==> q.entry.None?)
    && (q.phase.Duplicate? ==> q.entry == Some(q.phase.existing))
    && (q.phase.Answered? && q.phase.code == 201 ==> q.phase.job == Some(q.id) && q.id in jobs)
    && (q.phase.Answered? && q.phase.code == 200 ==> q.phase.job.Some? && q.phase.job == q.entry && q.phase.job.value in jobs)
    && (q.phase.Answered? && q.phase.code == 409 ==> q.entry.Some?)
  }

  /** The hash is of the request's own content, and so is the row under its id. */
  predicate ContentOk(q: Request, jobs: Jobs.Table) {
    && q.hash == Digest(q.jobType + q.payload)
    && (q.id in jobs ==>
          jobs[q.id].jobType == q.jobType && jobs[q.id].payload == q.payload && jobs[q.id].priority == q.priority)
  }

  /** The entry that decided a request was set by a request with the same key, and with the same hash
      unless the request was refused. */
  ghost predicate DecidedOk(s: State, r: RequestId)
    requires r in s.requests
  {
    s.requests[r].entry.Some? ==>
      exists o :: Owns(s, o, s.requests[r].entry.value, s.requests[r].key)
                  && (s.requests[o].hash == s.requests[r].hash <==> s.requests[r].phase != Answered(409, None))
  }

  ghost predicate RequestOk(s: State, r: RequestId) {
    r in s.requests ==> CreatedOk(s.requests[r], s.jobs) && ContentOk(s.requests[r], s.jobs) && DecidedOk(s, r)
  }

  ghost predicate EntryOk(s: State, k: Key) {
    k in s.store ==> exists o :: Owns(s, o, s.store[k].job, k) && s.requests[o].hash == s.store[k].hash
  }

  ghost predicate Distinct(s: State) {
    forall a, b :: a in s.requests && b in s.requests && a != b ==> s.requests[a].id != s.requests[b].id
  }

  ghost predicate Inv(s: State) {
    (forall r :: RequestOk(s, r)) && (forall k :: EntryOk(s, k)) && Distinct(s)
  }

  ghost predicate Init(s: State) { s.store == map[] && s.requests == map[] }

  lemma OwnersStay(s: State, l: Step, o: RequestId, j: JobId, key: Key)
    requires Enabled(s, l) && Owns(s, o, j, key)
    ensures Owns(Next(s, l), o, j, key) && Next(s, l).requests[o].hash == s.requests[o].hash
  {
  }

  lemma CreatedStep(s: State, l: Step, r: RequestId)
    requires Enabled(s, l) && r in s.requests && CreatedOk(s.requests[r], s.jobs) && Distinct(s)
    ensures CreatedOk(Next(s, l).requests[r], Next(s, l).jobs)
  {
  }

  lemma ContentStep(s: State, l: Step, r: RequestId)
    requires Enabled(s, l) && Distinct(s) && r in Next(s, l).requests
    requires r in s.requests ==> ContentOk(s.requests[r], s.jobs)
    ensures ContentOk(Next(s, l).requests[r], Next(s, l).jobs)
  {
  }

  lemma DecidedStep(s: State, l: Step, r: RequestId)
    requires Enabled(s, l) && r in s.requests && RequestOk(s, r) && EntryOk(s, s.requests[r].key)
    ensures DecidedOk(Next(s, l), r)
  {
    var s' := Next(s, l);
    var q, q' := s.requests[r], s'.requests[r];
    if q'.entry.Some? && q'.entry == q.entry {
      var o :| Owns(s, o, q.entry.value, q.key) && (s.requests[o].hash == q.hash <==> q.phase != Answered(409, None));
      OwnersStay(s, l, o, q.entry.value, q.key);
    } else if q'.entry.Some? {
      match l {
        case SetNx(_) => assert Owns(s', r, q.id, q.key);
        case Get(_) =>
          var o :| Owns(s, o, s.store[q.key].job, q.key) && s.requests[o].hash == s.store[q.key].hash;
          OwnersStay(s, l, o, s.store[q.key].job, q.key);
      }
    }
  }

  lemma EntryStep(s: State, l: Step, k: Key)
    requires Enabled(s, l) && EntryOk(s, k)
    ensures EntryOk(Next(s, l), k)
  {
    var s' := Next(s, l);
    if k in s.store && k in s'.store && s'.store[k] == s.store[k] {
      var o :| Owns(s, o, s.store[k].job, k) && s.requests[o].hash == s.store[k].hash;
      OwnersStay(s, l, o, s.store[k].job, k);
    } else if k in s'.store {
      match l {
        case SetNx(r) => assert Owns(s', r, s'.store[k].job, k);
        case SetNxFails(r, _) => assert Owns(s', r, s'.store[k].job, k);
      }
    }
  }

  lemma StepKeepsInv(s: State, l: Step)
    requires Inv(s) && Enabled(s, l)
    ensures Inv(Next(s, l))
  {
    var s' := Next(s, l);
    forall r | r in s'.requests ensures ContentOk(s'.requests[r], s'.jobs) {
      assert RequestOk(s, r);
      ContentStep(s, l, r);
    }
    forall r ensures RequestOk(s', r) {
      if r in s.requests {
        assert RequestOk(s, r) && EntryOk(s, s.requests[r].key);
        CreatedStep(s, l, r);
        DecidedStep(s, l, r);
      }
    }
    forall k ensures EntryOk(s', k) {
      assert EntryOk(s, k);
      EntryStep(s, l, k);
    }
  }

  ghost predicate IsRun(s: State, run: seq<Step>)
    decreases |run|
  {
    run == [] || (Enabled(s, run[0]) && IsRun(Next(s, run[0]), run[1..]))
  }

  ghost function End(s: State, run: seq<Step>): State
    requires IsRun(s, run)
    decreases |run|
  {
    if run == [] then s else End(Next(s, run[0]), run[1..])
  }

  lemma {:induction false} RunKeepsInv(s: State, run: seq<Step>)
    requires Inv(s) && IsRun(s, run)
    ensures Inv(End(s, run))
    decreases |run|
  {
    if run != [] {
      StepKeepsInv(s, run[0]);
      RunKeepsInv(Next(s, run[0]), run[1..]);
    }
  }

  // ----- What every run keeps -----

  lemma Reached(s0: State, run: seq<Step>, s: State)
    requires Init(s0) && IsRun(s0, run) && s == End(s0, run)
    ensures Inv(s)
  {
    RunKeepsInv(s0, run);
  }

  /** At most one job is created per lifetime of an entry, whoever else is decided by that entry. */
  lemma OneJobPerEntry(s0: State, run: seq<Step>, s: State, a: RequestId, b: RequestId)
    requires Init(s0) && IsRun(s0, run) && s == End(s0, run)
    requires a in s.requests && b in s.requests && s.requests[a].entry == s.requests[b].entry
    requires s.requests[a].id in s.jobs && s.requests[b].id in s.jobs
    ensures a == b
  {
    Reached(s0, run, s);
    assert RequestOk(s, a) && RequestOk(s, b);
  }

  /** A 200 or 201 names the job stored in the entry that decided it. That job exists; on 201 it has the
      type, payload and priority of the request, on 200 a type and payload that concatenate to the same. */
  lemma AnswersNameTheEntry(s0: State, run: seq<Step>, s: State, r: RequestId)
    requires Init(s0) && IsRun(s0, run) && s == End(s0, run)
    requires r in s.requests && s.requests[r].phase.Answered? && s.requests[r].phase.code in {200, 201}
    ensures s.requests[r].phase.job.Some? && s.requests[r].phase.job == s.requests[r].entry
    ensures s.requests[r].phase.job.value in s.jobs
    ensures var row := s.jobs[s.requests[r].phase.job.value];
            && (s.requests[r].phase.code == 201 ==>
                  row.jobType == s.requests[r].jobType && row.payload == s.requests[r].payload && row.priority == s.requests[r].priority)
            && row.jobType + row.payload == s.requests[r].jobType + s.requests[r].payload
  {
    Reached(s0, run, s);
    assert RequestOk(s, r) && DecidedOk(s, r);
    var o :| Owns(s, o, s.requests[r].entry.value, s.requests[r].key) && s.requests[o].hash == s.requests[r].hash;
    assert RequestOk(s, o);
  }

  /** A request decided by an entry that was set with another hash never creates a job, and is told so:
      it is answered 409 exactly when the hashes differ. */
  lemma MismatchNeverCreates(s0: State, run: seq<Step>, s: State, r: RequestId, o: RequestId)
    requires Init(s0) && IsRun(s0, run) && s == End(s0, run)
    requires r in s.requests && s.requests[r].entry.Some? && Owns(s, o, s.requests[r].entry.value, s.requests[r].key)
    ensures s.requests[o].hash != s.requests[r].hash ==> s.requests[r].id !in s.jobs
    ensures s.requests[o].hash != s.requests[r].hash <==> s.requests[r].phase == Answered(409, None)
  {
    Reached(s0, run, s);
    assert RequestOk(s, r);
  }

  /** Requests without a header are never refused, as long as clients do not send automatic keys of
      other content themselves. */
  lemma AutomaticKeysNeverConflict(s0: State, run: seq<Step>, s: State, r: RequestId)
    requires Init(s0) && IsRun(s0, run) && s == End(s0, run)
    requires forall q :: q in s.requests && s.requests[q].key.Auto? ==> s.requests[q].key.digest == s.requests[q].hash
    requires r in s.requests && s.requests[r].key.Auto?
    ensures s.requests[r].phase != Answered(409, None)
  {
    Reached(s0, run, s);
    assert RequestOk(s, r);
  }

  // ----- The store and the handler, one request at a time -----

  datatype CheckError = PayloadMismatch | StoreFailed

  datatype Verdict = FreshRequest | DuplicateOf(job: JobId) | CheckFailed(error: CheckError)

  class IdempotencyStore {
    var store: Store

    constructor ()
      ensures store == map[]
    {
      store := map[];
    }

    /** SETNX at `now`, and if the key was there GET at `later`, by when the entry may have expired. */
    method Check(key: Key, id: JobId, pHash: Digest, now: int, later: int, setNx: Fate, getFails: bool) returns (v: Verdict)
      modifies this
      ensures store == if !Live(old(store), key, now) && (setNx.Fails? ==> setNx.landed)
                       then WithEntry(old(store), key, id, pHash, now) else old(store)
      ensures v == if setNx.Fails? then CheckFailed(StoreFailed)
                   else if !Live(old(store), key, now) then FreshRequest
                   else if getFails || !Live(old(store), key, later) then CheckFailed(StoreFailed)
                   else if old(store)[key].hash != pHash then CheckFailed(PayloadMismatch)
                   else DuplicateOf(old(store)[key].job)
      ensures v.FreshRequest? ==> store == old(store)[key := Entry(id, pHash, now + 24 * 3600 * 1_000_000)]
    {
      var vacant := key !in store || store[key].expires <= now;
      if setNx.Fails? {
        if setNx.landed && vacant {
          store := store[key := Entry(id, pHash, now + IDEMPOTENCY_TTL)];
        }
        return CheckFailed(StoreFailed);
      }
      if vacant {
        store := store[key := Entry(id, pHash, now + IDEMPOTENCY_TTL)];
        return FreshRequest;
      }
      if getFails || store[key].expires <= later { return CheckFailed(StoreFailed); }
      var existing := store[key];
      if existing.hash != pHash { return CheckFailed(PayloadMismatch); }
      v := DuplicateOf(existing.job);
    }
  }

  function WithEntry(store: Store, key: Key, id: JobId, hash: Digest, now: int): Store {
    store[key := Entry(id, hash, now + IDEMPOTENCY_TTL)]
  }

  /** What becomes of the statements of one SubmitJob. */
  datatype Faults = Faults(setNx: Fate, getFails: bool, create: Fate, fetchFails: bool)

  const NO_FAULTS := Faults(Runs, false, Runs, false)

  /** What SubmitJob does and answers, by what the store held for the key. */
  predicate Answer(store: Store, rows: Jobs.Table, store': Store, rows': Jobs.Table, code: nat, job: Option<Job>,
                   key: Key, id: JobId, jobType: string, payload: string, priority: int, now: int, later: int, f: Faults)
  {
    var hash := PayloadHash(jobType, payload);
    if jobType == "" then code == 400 && job.None? && rows' == rows && store' == store
    else
      && store' == (if !Live(store, key, now) && (f.setNx.Fails? ==> f.setNx.landed) then WithEntry(store, key, id, hash, now) else store)
      && if f.setNx.Fails? then code == 500 && job.None? && rows' == rows
         else if !Live(store, key, now) then
           if id in rows then code == 500 && job.None? && rows' == rows
           else
             && rows' == (if f.create.Fails? && !f.create.landed then rows
                          else Jobs.AfterCreate(rows, id, jobType, payload, priority, now))
             && if f.create.Fails? then code == 500 && job.None? else code == 201 && job == Some(rows'[id])
         else
           && rows' == rows
           && if f.getFails || !Live(store, key, later) then code == 500 && job.None?
              else if store[key].hash != hash then code == 409 && job.None?
              else if f.fetchFails || store[key].job !in rows then code == 500 && job.None?
              else code == 200 && job == Some(rows[store[key].job])
  }

  /** Submitting the same request again within the TTL never creates a second job, whatever became of the
      create of the first. It is answered with the first one's job if and only if that create has landed;
      otherwise the entry names a job that is not there, and the request is answered 500 until it expires. */
  lemma SubmitAgain(store: Store, rows: Jobs.Table, store1: Store, rows1: Jobs.Table, code1: nat, job1: Option<Job>,
                    store2: Store, rows2: Jobs.Table, code2: nat, job2: Option<Job>, key: Key, id1: JobId, id2: JobId,
                    jobType: string, payload: string, priority: int, now1: int, now2: int, f: Faults)
    requires Answer(store, rows, store1, rows1, code1, job1, key, id1, jobType, payload, priority, now1, now1, f)
    requires Answer(store1, rows1, store2, rows2, code2, job2, key, id2, jobType, payload, priority, now2, now2, NO_FAULTS)
    requires jobType != "" && !Live(store, key, now1) && f.setNx.Runs? && id1 !in rows && now1 <= now2 < now1 + 24 * 3600 * 1_000_000
    ensures rows2 == rows1 && store2 == store1
    ensures var landed := f.create.Fails? ==> f.create.landed;
            && rows1.Keys == (if landed then rows.Keys + {id1} else rows.Keys)
            && code2 == (if landed then 200 else 500) && job2 == (if landed then Some(rows1[id1]) else None)
    ensures code1 == 201 ==> job2 == job1
  {
    assert store1[key] == Entry(id1, PayloadHash(jobType, payload), now1 + IDEMPOTENCY_TTL);
    assert Live(store1, key, now2);
  }

  class JobHandler {
    const jobs: Jobs.JobsTable
    const idempotency: IdempotencyStore

    constructor (jobs: Jobs.JobsTable, idempotency: IdempotencyStore)
      ensures this.jobs == jobs && this.idempotency == idempotency
    {
      this.jobs, this.idempotency := jobs, idempotency;
    }

    /** SubmitJob with no other request in between, whatever becomes of its statements. */
    method SubmitJob(header: Option<Key>, id: JobId, jobType: string, payload: string, priority: int, now: int, later: int, f: Faults)
      returns (code: nat, job: Option<Job>)
      modifies jobs, idempotency
      ensures var key := if header.Some? then header.value else ContentKey(jobType, payload);
              Answer(old(idempotency.store), old(jobs.rows), idempotency.store, jobs.rows, code, job,
                     key, id, jobType, payload, priority, now, later, f)
      ensures code == 400 <==> jobType == ""
      ensures code == 201 ==>
        && id !in old(jobs.rows) && jobs.rows == old(jobs.rows)[id := Job(Queued, jobType, payload, priority, 0, None, now)]
        && job == Some(Job(Queued, jobType, payload, priority, 0, None, now))
        && var key := if header.Some? then header.value else Auto(Digest(jobType + payload));
           (key !in old(idempotency.store) || old(idempotency.store)[key].expires <= now)
      ensures code in {200, 409} ==>
        var key := if header.Some? then header.value else Auto(Digest(jobType + payload));
        && key in old(idempotency.store) && now < old(idempotency.store)[key].expires
        && (code == 200 <==> old(idempotency.store)[key].hash.bytes == jobType + payload)
        && (code == 200 ==> old(idempotency.store)[key].job in jobs.rows && job == Some(jobs.rows[old(idempotency.store)[key].job]))
      ensures code != 201 && jobs.rows != old(jobs.rows) ==> code == 500 && f.create == Fails(true)
    {
      if jobType == "" { return 400, None; }
      var key := ContentKey(jobType, payload);
      if header.Some? { key := header.value; }
      var v := idempotency.Check(key, id, PayloadHash(jobType, payload), now, later, f.setNx, f.getFails);
      match v {
        case CheckFailed(PayloadMismatch) => return 409, None;
        case CheckFailed(StoreFailed) => return 500, None;
        case DuplicateOf(existing) =>
          if f.fetchFails { return 500, None; }
          var found := jobs.Get(existing);
          if found.Err? { return 500, None; }
          return 200, Some(found.value);
        case FreshRequest =>
      }
      if f.create.Fails? {
        if f.create.landed {
          var _ := jobs.Create(id, jobType, payload, priority, now);
        }
        return 500, None;
      }
      var created := jobs.Create(id, jobType, payload, priority, now);
      if created.Err? { return 500, None; }
      return 201, Some(created.value);
    }

    /** What the caller is told is true of the row unless the statement landed behind an error. */
    method CancelJob(id: JobId, cancel: Fate) returns (code: nat)
      modifies jobs
      ensures jobs.rows == if cancel.Fails? && !cancel.landed then old(jobs.rows) else Jobs.AfterCancel(old(jobs.rows), id)
      ensures code == 500 <==> cancel.Fails?
      ensures code == 204 <==> cancel.Runs? && id in old(jobs.rows) && old(jobs.rows)[id].status in {Queued, Running, Retrying}
      ensures code == 204 ==> jobs.rows == old(jobs.rows)[id := old(jobs.rows)[id].(status := Dead)]
      ensures code == 404 ==> jobs.rows == old(jobs.rows)
      ensures code in {204, 404, 500}
    {
      if cancel.Fails? {
        if cancel.landed {
          var _ := jobs.Cancel(id);
        }
        return 500;
      }
      var r := jobs.Cancel(id);
      code := if r.Ok? then 204 else 404;
    }
  }
}
