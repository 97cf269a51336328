/** Replaying dead letters: concurrent Replay requests over the dead_letters and jobs tables. A request
    reads the letter, creates a job, and marks the letter, in three statements. */
module Replaying {
  import opened Types
  import opened Letters
  import Jobs

  type ReplayId = nat

  datatype Phase =
    | Begun
    | Ready(jobType: string, payload: string) // the letter was read and was OPEN
    | Created(jobType: string, payload: string)
    | Answered(code: int)

  /** `id` is the id models.NewJob draws for the new job. */
  datatype Request = Request(letter: LetterId, id: JobId, phase: Phase)

  /** `drawn` holds every letter id ever used: the database does not draw one twice. */
  datatype State = State(letters: Table, drawn: set<LetterId>, jobs: Jobs.Table, replays: map<ReplayId, Request>)

  datatype Step =
    | Begin(r: ReplayId, letter: LetterId, id: JobId)
    | Read(r: ReplayId)
    | ReadFails(r: ReplayId)
    | Create(r: ReplayId, now: int)
    | CreateFails(r: ReplayId, landed: bool, now: int)
    | Mark(r: ReplayId, now: int)
    | MarkFails(r: ReplayId, landed: bool, now: int)
    | Delete(letter: LetterId)
    | Arrive(letter: LetterId, row: DeadLetter)
    | Elsewhere(jobs: Jobs.Table)

  /** What the rest of the system does to the jobs table: rows stay and keep their content, and no
      other job gets an id that a replay has drawn. */
  ghost predicate OthersMayDo(s: State, jobs: Jobs.Table) {
    && s.jobs.Keys <= jobs.Keys
    && (forall j :: j in s.jobs ==> Jobs.SameContent(s.jobs[j], jobs[j]))
    && (forall r :: r in s.replays && s.replays[r].id in jobs ==> s.replays[r].id in s.jobs)
  }

  ghost predicate Enabled(s: State, l: Step) {
    match l
    case Begin(r, _, id) =>
      r !in s.replays && id !in s.jobs && forall q :: q in s.replays ==> s.replays[q].id != id
    case Read(r) => r in s.replays && s.replays[r].phase.Begun?
    case ReadFails(r) => r in s.replays && s.replays[r].phase.Begun?
    case Create(r, _) => r in s.replays && s.replays[r].phase.Ready?
    case CreateFails(r, _, _) => r in s.replays && s.replays[r].phase.Ready?
    case Mark(r, _) => r in s.replays && s.replays[r].phase.Created?
    case MarkFails(r, _, _) => r in s.replays && s.replays[r].phase.Created?
    case Delete(_) => true
    case Arrive(x, row) => x !in s.drawn && row.status.Open? && row.replayedJob.None?
    case Elsewhere(jobs) => OthersMayDo(s, jobs)
  }

  function Move(s: State, r: ReplayId, phase: Phase): State
    requires r in s.replays
  {
    s.(replays := s.replays[r := s.replays[r].(phase := phase)])
  }

  function Insert(s: State, r: ReplayId, now: int): State
    requires r in s.replays && s.replays[r].phase.Ready?
  {
    var p := s.replays[r].phase;
    s.(jobs := Jobs.AfterCreate(s.jobs, s.replays[r].id, p.jobType, p.payload, 0, now))
  }

  function Marked(s: State, r: ReplayId, now: int): State
    requires r in s.replays
  {
    s.(letters := AfterReplayed(s.letters, s.replays[r].letter, s.replays[r].id, now))
  }

  function AfterRead(s: State, x: LetterId): Phase {
    if x !in s.letters then Answered(404)
    else if s.letters[x].status.Replayed? then Answered(409)
    else Ready(s.letters[x].jobType, s.letters[x].payload)
  }

  function Next(s: State, l: Step): State
    requires Enabled(s, l)
  {
    match l
    case Begin(r, x, id) => s.(replays := s.replays[r := Request(x, id, Begun)])
    case Read(r) => Move(s, r, AfterRead(s, s.replays[r].letter))
    case ReadFails(r) => Move(s, r, Answered(500))
    case Create(r, now) => var p := s.replays[r].phase; Move(Insert(s, r, now), r, Created(p.jobType, p.payload))
    case CreateFails(r, landed, now) => Move(if landed then Insert(s, r, now) else s, r, Answered(500))
    case Mark(r, now) => Move(Marked(s, r, now), r, Answered(if s.replays[r].letter in s.letters then 201 else 500))
    case MarkFails(r, landed, now) => Move(if landed then Marked(s, r, now) else s, r, Answered(500))
    case Delete(x) => s.(letters := s.letters - {x})
    case Arrive(x, row) => s.(letters := s.letters[x := row], drawn := s.drawn + {x})
    case Elsewhere(jobs) => s.(jobs := jobs)
  }

  ghost predicate Leads(s: State, run: seq<Step>, e: State)
    decreases |run|
  {
    if run == [] then s == e else Enabled(s, run[0]) && Leads(Next(s, run[0]), run[1..], e)
  }

  ghost predicate Init(s: State) {
    s.replays == map[] && s.letters.Keys <= s.drawn && forall x :: x in s.letters ==> s.letters[x].status.Open?
  }

  // ----- Invariant -----

  predicate Yields(q: Request, jobs: Jobs.Table) { q.id in jobs }

  /** The job under a replay's id. */
  predicate Copies(jobs: Jobs.Table, j: JobId, jobType: string, payload: string) {
    j in jobs && jobs[j].jobType == jobType && jobs[j].payload == payload && jobs[j].priority == 0
  }

  predicate ReplayOk(q: Request, letters: Table, drawn: set<LetterId>, jobs: Jobs.Table) {
    && (q.phase.Ready? || q.phase.Created? ==>
          && q.letter in drawn
          && (q.letter in letters ==>
                letters[q.letter].jobType == q.phase.jobType && letters[q.letter].payload == q.phase.payload))
    && (q.phase.Created? ==> Copies(jobs, q.id, q.phase.jobType, q.phase.payload))
    && (Yields(q, jobs) ==> q.letter in drawn && (q.phase.Created? || q.phase == Answered(201) || q.phase == Answered(500)))
    && (q.phase == Answered(201) ==> Yields(q, jobs))
  }

  ghost predicate LetterOk(s: State, x: LetterId) {
    x in s.letters && s.letters[x].status.Replayed? ==>
      exists r :: r in s.replays && s.replays[r].letter == x && s.letters[x].replayedJob == Some(s.replays[r].id)
                  && Copies(s.jobs, s.replays[r].id, s.letters[x].jobType, s.letters[x].payload)
  }

  ghost predicate Inv(s: State) {
    && s.letters.Keys <= s.drawn
    && (forall r :: r in s.replays ==> ReplayOk(s.replays[r], s.letters, s.drawn, s.jobs))
    && (forall a, b :: a in s.replays && b in s.replays && a != b ==> s.replays[a].id != s.replays[b].id)
    && (forall x :: LetterOk(s, x))
  }

  lemma ReplayStep(s: State, l: Step, r: ReplayId)
    requires Inv(s) && Enabled(s, l) && r in Next(s, l).replays
    ensures ReplayOk(Next(s, l).replays[r], Next(s, l).letters, Next(s, l).drawn, Next(s, l).jobs)
  {
    if r in s.replays {
      assert ReplayOk(s.replays[r], s.letters, s.drawn, s.jobs);
    }
  }

  lemma LetterStep(s: State, l: Step, x: LetterId)
    requires Inv(s) && Enabled(s, l)
    ensures LetterOk(Next(s, l), x)
  {
    var s' := Next(s, l);
    if x in s.letters && s.letters[x].status.Replayed? && x in s'.letters && s'.letters[x] == s.letters[x] {
      assert LetterOk(s, x);
      var r :| r in s.replays && s.replays[r].letter == x && s.letters[x].replayedJob == Some(s.replays[r].id)
               && Copies(s.jobs, s.replays[r].id, s.letters[x].jobType, s.letters[x].payload);
      assert s'.replays[r].letter == x && s'.replays[r].id == s.replays[r].id;
    } else if x in s'.letters && s'.letters[x].status.Replayed? {
      match l {
        case Mark(r, _) => assert ReplayOk(s.replays[r], s.letters, s.drawn, s.jobs) && r in s'.replays;
        case MarkFails(r, _, _) => assert ReplayOk(s.replays[r], s.letters, s.drawn, s.jobs) && r in s'.replays;
      }
    }
  }

  lemma StepKeepsInv(s: State, l: Step)
    requires Inv(s) && Enabled(s, l)
    ensures Inv(Next(s, l))
  {
    forall r | r in Next(s, l).replays
      ensures ReplayOk(Next(s, l).replays[r], Next(s, l).letters, Next(s, l).drawn, Next(s, l).jobs)
    {
      ReplayStep(s, l, r);
    }
    forall x ensures LetterOk(Next(s, l), x) { LetterStep(s, l, x); }
  }

  lemma {:induction false} RunKeepsInv(s: State, run: seq<Step>, e: State)
    requires Inv(s) && Leads(s, run, e)
    ensures Inv(e)
    decreases |run|
  {
    if run != [] {
      StepKeepsInv(s, run[0]);
      RunKeepsInv(Next(s, run[0]), run[1..], e);
    }
  }

  // ----- In every interleaving -----

  /** REPLAYED means that the letter names an existing job that was made from it, with its type and
      payload and priority 0. */
  lemma ReplayedNamesItsJob(s0: State, run: seq<Step>, s: State, x: LetterId)
    requires Init(s0) && Leads(s0, run, s)
    requires x in s.letters && s.letters[x].status.Replayed?
    ensures s.letters[x].replayedJob.Some?
    ensures Copies(s.jobs, s.letters[x].replayedJob.value, s.letters[x].jobType, s.letters[x].payload)
    ensures exists r :: r in s.replays && s.replays[r].letter == x && s.letters[x].replayedJob == Some(s.replays[r].id)
  {
    RunKeepsInv(s0, run, s);
    assert LetterOk(s, x);
  }

  /** Who is told 201 has a job; who is told 404 or 409 has none. */
  lemma AnswersTellTheJob(s0: State, run: seq<Step>, s: State, r: ReplayId)
    requires Init(s0) && Leads(s0, run, s) && r in s.replays && s.replays[r].phase.Answered?
    ensures s.replays[r].phase.code == 201 ==> Yields(s.replays[r], s.jobs)
    ensures s.replays[r].phase.code in {404, 409} ==> !Yields(s.replays[r], s.jobs)
  {
    RunKeepsInv(s0, run, s);
    assert ReplayOk(s.replays[r], s.letters, s.drawn, s.jobs);
  }

  /** The letter was there once, and is REPLAYED or deleted by now. */
  predicate Spent(s: State, x: LetterId) {
    x in s.drawn && (x in s.letters ==> s.letters[x].status.Replayed?)
  }

  lemma SpentStays(s: State, l: Step, x: LetterId)
    requires Enabled(s, l) && Spent(s, x)
    ensures Spent(Next(s, l), x)
  {
  }

  /** From when a letter is marked, no request that has not read it yet makes a job of it. */
  lemma {:induction false} SpentYieldsNoMore(s: State, run: seq<Step>, e: State, x: LetterId, r: ReplayId)
    requires Inv(s) && Leads(s, run, e) && Spent(s, x)
    requires r in s.replays ==> s.replays[r].phase.Begun? || (s.replays[r].phase.Answered? && !Yields(s.replays[r], s.jobs))
    requires r in e.replays && e.replays[r].letter == x
    ensures !Yields(e.replays[r], e.jobs)
    decreases |run|
  {
    if run == [] {
      assert ReplayOk(s.replays[r], s.letters, s.drawn, s.jobs);
    } else {
      var s' := Next(s, run[0]);
      StepKeepsInv(s, run[0]);
      SpentStays(s, run[0], x);
      if r in s.replays {
        assert ReplayOk(s.replays[r], s.letters, s.drawn, s.jobs);
        LetterIsKept(s, run, e, r);
      }
      SpentYieldsNoMore(s', run[1..], e, x, r);
    }
  }

  lemma {:induction false} LetterIsKept(s: State, run: seq<Step>, e: State, r: ReplayId)
    requires Leads(s, run, e) && r in s.replays
    ensures r in e.replays && e.replays[r].letter == s.replays[r].letter && e.replays[r].id == s.replays[r].id
    decreases |run|
  {
    if run != [] { LetterIsKept(Next(s, run[0]), run[1..], e, r); }
  }

  // ----- One request at a time -----

  /** A step that starts no second request for the letter while one is under way, and leaves no job
      behind without its mark. */
  ghost predicate Careful(s: State, l: Step, x: LetterId) {
    && (l.Begin? && l.letter == x ==> forall q :: q in s.replays && s.replays[q].letter == x ==> s.replays[q].phase.Answered?)
    && (l.CreateFails? && l.r in s.replays && s.replays[l.r].letter == x ==> !l.landed)
    && (l.MarkFails? && l.r in s.replays && s.replays[l.r].letter == x ==> l.landed)
  }

  ghost predicate CarefulRun(s: State, run: seq<Step>, x: LetterId)
    decreases |run|
  {
    run == [] || (Enabled(s, run[0]) && Careful(s, run[0], x) && CarefulRun(Next(s, run[0]), run[1..], x))
  }

  predicate Of(s: State, x: LetterId, r: ReplayId) { r in s.replays && s.replays[r].letter == x }

  /** At most one request for the letter is under way, and at most one has a job. */
  predicate SerialPair(s: State, x: LetterId, a: ReplayId, b: ReplayId) {
    Of(s, x, a) && Of(s, x, b) ==>
      && (a != b ==> s.replays[a].phase.Answered? || s.replays[b].phase.Answered?)
      && (s.replays[a].phase.Ready? ==> !Yields(s.replays[b], s.jobs))
      && (Yields(s.replays[a], s.jobs) && Yields(s.replays[b], s.jobs) ==> a == b)
  }

  predicate DoneIsSpent(s: State, x: LetterId, a: ReplayId) {
    Of(s, x, a) && s.replays[a].phase.Answered? && Yields(s.replays[a], s.jobs) ==> Spent(s, x)
  }

  ghost predicate Serial(s: State, x: LetterId) {
    && (forall a :: DoneIsSpent(s, x, a))
    && (forall a, b :: SerialPair(s, x, a, b))
  }

  lemma CarefulKeepsDone(s: State, l: Step, x: LetterId, a: ReplayId)
    requires Inv(s) && Enabled(s, l) && Careful(s, l, x) && DoneIsSpent(s, x, a)
    ensures DoneIsSpent(Next(s, l), x, a)
  {
    if a in s.replays {
      assert ReplayOk(s.replays[a], s.letters, s.drawn, s.jobs);
    }
  }

  lemma CarefulKeepsPair(s: State, l: Step, x: LetterId, a: ReplayId, b: ReplayId)
    requires Inv(s) && Enabled(s, l) && Careful(s, l, x)
    requires DoneIsSpent(s, x, a) && DoneIsSpent(s, x, b) && SerialPair(s, x, a, b) && SerialPair(s, x, b, a)
    ensures SerialPair(Next(s, l), x, a, b)
  {
    if a in s.replays { assert ReplayOk(s.replays[a], s.letters, s.drawn, s.jobs); }
    if b in s.replays { assert ReplayOk(s.replays[b], s.letters, s.drawn, s.jobs); }
  }

  lemma CarefulKeepsSerial(s: State, l: Step, x: LetterId)
    requires Inv(s) && Enabled(s, l) && Careful(s, l, x) && Serial(s, x)
    ensures Serial(Next(s, l), x)
  {
    forall a ensures DoneIsSpent(Next(s, l), x, a) {
      assert DoneIsSpent(s, x, a);
      CarefulKeepsDone(s, l, x, a);
    }
    forall a, b ensures SerialPair(Next(s, l), x, a, b) {
      assert DoneIsSpent(s, x, a) && DoneIsSpent(s, x, b) && SerialPair(s, x, a, b) && SerialPair(s, x, b, a);
      CarefulKeepsPair(s, l, x, a, b);
    }
  }

  lemma {:induction false} CarefulRunKeepsSerial(s: State, run: seq<Step>, e: State, x: LetterId)
    requires Inv(s) && Serial(s, x) && Leads(s, run, e) && CarefulRun(s, run, x)
    ensures Serial(e, x)
    decreases |run|
  {
    if run != [] {
      CarefulKeepsSerial(s, run[0], x);
      StepKeepsInv(s, run[0]);
      CarefulRunKeepsSerial(Next(s, run[0]), run[1..], e, x);
    }
  }

  /** Serial replays of a letter whose marks do not fail make at most one job of it. */
  lemma SerialReplaysMakeOneJob(s0: State, run: seq<Step>, s: State, x: LetterId, a: ReplayId, b: ReplayId)
    requires Init(s0) && Leads(s0, run, s) && CarefulRun(s0, run, x)
    requires Of(s, x, a) && Of(s, x, b) && Yields(s.replays[a], s.jobs) && Yields(s.replays[b], s.jobs)
    ensures a == b
  {
    CarefulRunKeepsSerial(s0, run, s, x);
    assert SerialPair(s, x, a, b);
  }

  // ----- Without care -----

  lemma Before(s: State, l: Step, run: seq<Step>, e: State)
    requires Enabled(s, l) && Leads(Next(s, l), run, e)
    ensures Leads(s, [l] + run, e)
  {
    assert ([l] + run)[1..] == run;
  }

  /** In every state with an open letter, two requests at once can make two jobs of it, both told 201. */
  lemma RacingReplaysMakeTwoJobs(s: State, x: LetterId, a: ReplayId, b: ReplayId, i: JobId, j: JobId, now: int)
    returns (run: seq<Step>, e: State)
    requires x in s.letters && s.letters[x].status.Open?
    requires a !in s.replays && b !in s.replays && a != b
    requires i !in s.jobs && j !in s.jobs && i != j && forall q :: q in s.replays ==> s.replays[q].id !in {i, j}
    ensures Leads(s, run, e) && Of(e, x, a) && Of(e, x, b)
    ensures Yields(e.replays[a], e.jobs) && Yields(e.replays[b], e.jobs)
    ensures e.replays[a].phase == Answered(201) && e.replays[b].phase == Answered(201)
  {
    var s1 := Next(s, Begin(a, x, i));
    var s2 := Next(s1, Begin(b, x, j));
    var s3 := Next(s2, Read(a));
    var s4 := Next(s3, Read(b));
    var s5 := Next(s4, Create(a, now));
    var s6 := Next(s5, Create(b, now));
    var s7 := Next(s6, Mark(a, now));
    e := Next(s7, Mark(b, now));
    run := [];
    Before(s7, Mark(b, now), run, e);
    run := [Mark(b, now)] + run;
    Before(s6, Mark(a, now), run, e);
    run := [Mark(a, now)] + run;
    Before(s5, Create(b, now), run, e);
    run := [Create(b, now)] + run;
    Before(s4, Create(a, now), run, e);
    run := [Create(a, now)] + run;
    Before(s3, Read(b), run, e);
    run := [Read(b)] + run;
    Before(s2, Read(a), run, e);
    run := [Read(a)] + run;
    Before(s1, Begin(b, x, j), run, e);
    run := [Begin(b, x, j)] + run;
    Before(s, Begin(a, x, i), run, e);
    run := [Begin(a, x, i)] + run;
  }

  /** A mark that fails leaves the letter OPEN behind its job, and the next request makes another. */
  lemma UnmarkedJobIsMadeAgain(s: State, a: ReplayId, x: LetterId, b: ReplayId, j: JobId, now: int)
    returns (run: seq<Step>, e: State)
    requires Of(s, x, a) && s.replays[a].phase.Created? && Yields(s.replays[a], s.jobs)
    requires x in s.letters && s.letters[x].status.Open?
    requires b !in s.replays && j !in s.jobs && forall q :: q in s.replays ==> s.replays[q].id != j
    ensures Leads(s, run, e) && Of(e, x, a) && Of(e, x, b)
    ensures Yields(e.replays[a], e.jobs) && Yields(e.replays[b], e.jobs)
  {
    var s1 := Next(s, MarkFails(a, false, now));
    var s2 := Next(s1, Begin(b, x, j));
    var s3 := Next(s2, Read(b));
    e := Next(s3, Create(b, now));
    run := [];
    Before(s3, Create(b, now), run, e);
    run := [Create(b, now)] + run;
    Before(s2, Read(b), run, e);
    run := [Read(b)] + run;
    Before(s1, Begin(b, x, j), run, e);
    run := [Begin(b, x, j)] + run;
    Before(s, MarkFails(a, false, now), run, e);
    run := [MarkFails(a, false, now)] + run;
  }

  /** So does a create that lands behind a 500, which nobody marks. */
  lemma LandedCreateIsMadeAgain(s: State, a: ReplayId, x: LetterId, b: ReplayId, j: JobId, now: int)
    returns (run: seq<Step>, e: State)
    requires Of(s, x, a) && s.replays[a].phase.Ready? && x in s.letters && s.letters[x].status.Open?
    requires b !in s.replays && j !in s.jobs && forall q :: q in s.replays ==> s.replays[q].id != j
    ensures Leads(s, run, e) && Of(e, x, a) && Of(e, x, b)
    ensures Yields(e.replays[a], e.jobs) && e.replays[a].phase == Answered(500)
    ensures Yields(e.replays[b], e.jobs)
  {
    var s1 := Next(s, CreateFails(a, true, now));
    var s2 := Next(s1, Begin(b, x, j));
    var s3 := Next(s2, Read(b));
    e := Next(s3, Create(b, now));
    run := [];
    Before(s3, Create(b, now), run, e);
    run := [Create(b, now)] + run;
    Before(s2, Read(b), run, e);
    run := [Read(b)] + run;
    Before(s1, Begin(b, x, j), run, e);
    run := [Begin(b, x, j)] + run;
    Before(s, CreateFails(a, true, now), run, e);
    run := [CreateFails(a, true, now)] + run;
  }

  // ----- Exactly when another job can be made of a letter -----

  predicate OpenNow(s: State, x: LetterId) { x in s.letters && s.letters[x].status.Open? }

  predicate UnderWay(s: State, x: LetterId, r: ReplayId) { Of(s, x, r) && s.replays[r].phase.Ready? }

  /** The letter is not OPEN, and nobody has read it while it was and has yet to create. */
  ghost predicate Barren(s: State, x: LetterId) { !OpenNow(s, x) && forall r :: !UnderWay(s, x, r) }

  /** Request r has made a job of the letter that had none in `s`. */
  predicate Further(s: State, e: State, x: LetterId, r: ReplayId) {
    Of(e, x, r) && Yields(e.replays[r], e.jobs) && !(r in s.replays && Yields(s.replays[r], s.jobs))
  }

  lemma BarrenStays(s: State, l: Step, x: LetterId)
    requires Inv(s) && Enabled(s, l) && x in s.drawn && Barren(s, x)
    ensures x in Next(s, l).drawn && Barren(Next(s, l), x)
    ensures forall r :: !Further(s, Next(s, l), x, r)
  {
    var s' := Next(s, l);
    forall r ensures !UnderWay(s', x, r) && !Further(s, s', x, r) {
      assert !UnderWay(s, x, r);
    }
  }

  lemma {:induction false} BarrenYieldsNothing(s: State, run: seq<Step>, e: State, x: LetterId, r: ReplayId)
    requires Inv(s) && Leads(s, run, e) && x in s.drawn && Barren(s, x)
    ensures !Further(s, e, x, r)
    decreases |run|
  {
    if run != [] {
      var s' := Next(s, run[0]);
      StepKeepsInv(s, run[0]);
      BarrenStays(s, run[0], x);
      BarrenYieldsNothing(s', run[1..], e, x, r);
      assert !Further(s, s', x, r);
      if r in s'.replays { LetterIsKept(s', run[1..], e, r); }
    }
  }

  lemma {:induction false} FreshId(used: set<nat>) returns (n: nat)
    ensures forall m :: m in used ==> m < n
    decreases |used|
  {
    if used == {} {
      n := 0;
    } else {
      var x :| x in used;
      n := FreshId(used - {x});
      if n <= x { n := x + 1; }
      assert forall m :: m in used ==> m == x || m in used - {x};
    }
  }

  lemma ReadyYields(s: State, x: LetterId, r: ReplayId) returns (run: seq<Step>, e: State)
    requires Inv(s) && UnderWay(s, x, r)
    ensures Leads(s, run, e) && Further(s, e, x, r)
  {
    assert ReplayOk(s.replays[r], s.letters, s.drawn, s.jobs);
    e := Next(s, Create(r, 0));
    Before(s, Create(r, 0), [], e);
    run := [Create(r, 0)] + [];
  }

  lemma OpenYields(s: State, x: LetterId) returns (run: seq<Step>, e: State, r: ReplayId)
    requires Inv(s) && OpenNow(s, x)
    ensures Leads(s, run, e) && Further(s, e, x, r)
  {
    r := FreshId(s.replays.Keys);
    var id := FreshId(s.jobs.Keys + set q | q in s.replays :: s.replays[q].id);
    assert forall q :: q in s.replays ==> s.replays[q].id != id;
    var s1 := Next(s, Begin(r, x, id));
    var s2 := Next(s1, Read(r));
    StepKeepsInv(s, Begin(r, x, id));
    StepKeepsInv(s1, Read(r));
    run, e := ReadyYields(s2, x, r);
    Before(s1, Read(r), run, e);
    run := [Read(r)] + run;
    Before(s, Begin(r, x, id), run, e);
    run := [Begin(r, x, id)] + run;
  }

  ghost predicate MakesFurther(s: State, run: seq<Step>, e: State, x: LetterId, r: ReplayId) {
    Leads(s, run, e) && Further(s, e, x, r)
  }

  /** Some continuation makes a further job of the letter. */
  ghost predicate Fertile(s: State, x: LetterId) {
    exists run: seq<Step>, e: State, r: ReplayId :: MakesFurther(s, run, e, x, r)
  }

  /** Whatever has happened so far, a further job can be made of a letter if and only if it is OPEN or some
      request has read it OPEN and has yet to create. */
  lemma FurtherJobExactly(s: State, x: LetterId)
    requires Inv(s) && x in s.drawn
    ensures Fertile(s, x) <==> OpenNow(s, x) || exists r :: UnderWay(s, x, r)
  {
    if OpenNow(s, x) {
      var run, e, r := OpenYields(s, x);
      assert MakesFurther(s, run, e, x, r);
    } else if r :| UnderWay(s, x, r) {
      var run, e := ReadyYields(s, x, r);
      assert MakesFurther(s, run, e, x, r);
    } else {
      forall run: seq<Step>, e: State, r: ReplayId | Leads(s, run, e) ensures !Further(s, e, x, r) {
        BarrenYieldsNothing(s, run, e, x, r);
      }
    }
  }

  // ----- The handler, one request at a time -----

  class DeadLetterHandler {
    const letters: DeadLettersTable
    const jobs: Jobs.JobsTable

    constructor (letters: DeadLettersTable, jobs: Jobs.JobsTable)
      ensures this.letters == letters && this.jobs == jobs
    {
      this.letters, this.jobs := letters, jobs;
    }

    /** The handler is one request's walk through the machine: with nobody else about, its tables and
        its answer are those of a run. `id` is the fresh id of the new job. */
    method Replay(x: LetterId, id: JobId, now: int, readFails: bool, create: Fate, mark: Fate, ghost drawn: set<LetterId>)
      returns (code: int, replayed: Option<JobId>, ghost run: seq<Step>, ghost e: State)
      requires id !in jobs.rows
      modifies letters, jobs
      ensures Leads(State(old(letters.rows), drawn, old(jobs.rows), map[]), run, e)
      ensures letters.rows == e.letters && jobs.rows == e.jobs && e.replays == map[0 := Request(x, id, Answered(code))]
      ensures replayed == if code == 201 then Some(id) else None
      ensures id in jobs.rows ==>
        && x in old(letters.rows) && old(letters.rows)[x].status == Open
        && jobs.rows == old(jobs.rows)[id := Job(Queued, old(letters.rows)[x].jobType, old(letters.rows)[x].payload, 0, 0, None, now)]
      ensures id !in jobs.rows ==> jobs.rows == old(jobs.rows) && letters.rows == old(letters.rows)
      ensures code == 404 <==> !readFails && x !in old(letters.rows)
      ensures code == 409 <==> !readFails && x in old(letters.rows) && old(letters.rows)[x].status == Replayed
      ensures code == 201 <==> !readFails && create.Runs? && mark.Runs? && x in old(letters.rows) && old(letters.rows)[x].status.Open?
      ensures code == 201 ==> letters.rows == AfterReplayed(old(letters.rows), x, id, now)
      ensures id in jobs.rows <==>
        !readFails && x in old(letters.rows) && old(letters.rows)[x].status.Open? && (create.Fails? ==> create.landed)
    {
      ghost var s0 := State(letters.rows, drawn, jobs.rows, map[]);
      if readFails {
        run, e := NotRead(s0, x, id, false);
        return 500, None, run, e;
      }
      var found := letters.Get(x);
      if found.Err? || found.value.status.Replayed? {
        run, e := NotRead(s0, x, id, true);
        return if found.Err? then 404 else 409, None, run, e;
      }
      if create.Fails? {
        if create.landed {
          var _ := jobs.Create(id, found.value.jobType, found.value.payload, 0, now);
        }
        run, e := NotCreated(s0, x, id, create.landed, now);
        return 500, None, run, e;
      }
      var _ := jobs.Create(id, found.value.jobType, found.value.payload, 0, now);
      run, e := JobMade(s0, x, id, mark, now);
      if mark.Fails? {
        if mark.landed {
          var _ := letters.MarkReplayed(x, id, now);
        }
        return 500, None, run, e;
      }
      var marked := letters.MarkReplayed(x, id, now);
      return if marked.Ok? then 201 else 500, if marked.Ok? then Some(id) else None, run, e;
    }
  }

  lemma TwoSteps(s: State, l: Step, m: Step) returns (run: seq<Step>, e: State)
    requires Enabled(s, l) && Enabled(Next(s, l), m)
    ensures Leads(s, run, e) && e == Next(Next(s, l), m)
  {
    e := Next(Next(s, l), m);
    Before(Next(s, l), m, [], e);
    Before(s, l, [m], e);
    run := [l] + [m];
  }

  ghost predicate Alone(s: State, id: JobId) { s.replays == map[] && id !in s.jobs }

  /** The four walks of a request that is alone. */
  lemma NotRead(s: State, x: LetterId, id: JobId, ran: bool) returns (run: seq<Step>, e: State)
    requires Alone(s, id)
    requires ran ==> x !in s.letters || s.letters[x].status.Replayed?
    ensures Leads(s, run, e) && e.letters == s.letters && e.jobs == s.jobs
    ensures e.replays == map[0 := Request(x, id, Answered(if !ran then 500 else if x in s.letters then 409 else 404))]
  {
    run, e := TwoSteps(s, Begin(0, x, id), if ran then Read(0) else ReadFails(0));
  }

  predicate IsOpen(s: State, x: LetterId) { x in s.letters && s.letters[x].status.Open? }

  function WithJob(s: State, x: LetterId, id: JobId, now: int): Jobs.Table
    requires x in s.letters
  {
    Jobs.AfterCreate(s.jobs, id, s.letters[x].jobType, s.letters[x].payload, 0, now)
  }

  lemma NotCreated(s: State, x: LetterId, id: JobId, landed: bool, now: int) returns (run: seq<Step>, e: State)
    requires Alone(s, id) && IsOpen(s, x)
    ensures Leads(s, run, e) && e.letters == s.letters && e.jobs == (if landed then WithJob(s, x, id, now) else s.jobs)
    ensures e.replays == map[0 := Request(x, id, Answered(500))]
  {
    var s1 := Next(s, Begin(0, x, id));
    run, e := TwoSteps(s1, Read(0), CreateFails(0, landed, now));
    Before(s, Begin(0, x, id), run, e);
    run := [Begin(0, x, id)] + run;
  }

  lemma JobMade(s: State, x: LetterId, id: JobId, mark: Fate, now: int) returns (run: seq<Step>, e: State)
    requires Alone(s, id) && IsOpen(s, x)
    ensures Leads(s, run, e) && e.jobs == WithJob(s, x, id, now)
    ensures e.letters == if mark.Fails? && !mark.landed then s.letters else AfterReplayed(s.letters, x, id, now)
    ensures e.replays == map[0 := Request(x, id, Answered(if mark.Fails? then 500 else 201))]
  {
    var s1 := Next(s, Begin(0, x, id));
    var s2 := Next(s1, Read(0));
    assert s2 == s.(replays := map[0 := Request(x, id, Ready(s.letters[x].jobType, s.letters[x].payload))]);
    run, e := TwoSteps(s2, Create(0, now), if mark.Fails? then MarkFails(0, mark.landed, now) else Mark(0, now));
    Before(s1, Read(0), run, e);
    Before(s, Begin(0, x, id), [Read(0)] + run, e);
    run := [Begin(0, x, id)] + ([Read(0)] + run);
  }
}
