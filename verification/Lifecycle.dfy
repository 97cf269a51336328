/** The invariant of every reachable state, and what it means for the life of a job. */
module Lifecycle {
  import opened Types
  import opened Pipeline
  import Workers
  import Records
  import Messages
  import Outcomes
  import Tokens
  import Progress

  /** An undisturbed job has at most one live message; a smooth RUNNING job has one. */
  ghost predicate Followed(s: State) { Tokens.TokensOk(s) && forall j :: Progress.Smooth(s, j) }

  ghost predicate Inv(s: State) {
    && Records.Positions(s)
    && Records.LocksOk(s)
    && Messages.IssuesGood(s)
    && Messages.SentOk(s)
    && Outcomes.RowsOk(s)
    && Outcomes.OutcomesOk(s)
    && Outcomes.LettersGood(s)
    && Followed(s)
    && Progress.RoughCovers(s.book) && Progress.ExtrasAreRough(s.book)
    && Workers.Honest(s.workers, s.now)
  }

  lemma InitInv(s: State)
    requires Init(s)
    ensures Inv(s)
  {
    forall place, j ensures Tokens.TokenOk(s, place, j) {
    }
  }

  lemma ApiKeepsFollowed(s: State, l: ApiStep)
    requires Inv(s) && ApiEnabled(s, l)
    ensures Followed(ApiNext(s, l))
  {
    forall place, j ensures Tokens.TokenOk(ApiNext(s, l), place, j) {
      assert Tokens.TokenOk(s, place, j);
      Tokens.ApiKeepsToken(s, l, place, j);
    }
    forall j ensures Progress.Smooth(ApiNext(s, l), j) {
      Progress.ApiKeepsSmooth(s, l, j);
    }
  }

  lemma DispatchKeepsFollowed(s: State, d: DispatcherId, l: DispatchStep)
    requires Inv(s) && DispatchEnabled(s, d, l)
    ensures Followed(DispatchNext(s, d, l))
  {
    forall place, j ensures Tokens.TokenOk(DispatchNext(s, d, l), place, j) {
      Tokens.DispatchKeepsToken(s, d, l, place, j);
    }
    forall j ensures Progress.Smooth(DispatchNext(s, d, l), j) {
      Progress.DispatchKeepsSmooth(s, d, l, j);
    }
  }

  lemma ReadKeepsFollowed(s: State, w: WorkerId, l: ReadStep)
    requires Inv(s) && ReadEnabled(s, w, l)
    ensures Followed(ReadNext(s, w, l))
  {
    forall place, j ensures Tokens.TokenOk(ReadNext(s, w, l), place, j) {
      Tokens.ReadKeepsToken(s, w, l, place, j);
    }
    forall j ensures Progress.Smooth(ReadNext(s, w, l), j) {
      Progress.ReadKeepsSmooth(s, w, l, j);
    }
  }

  lemma WorkKeepsFollowed(s: State, w: WorkerId, l: WorkStep)
    requires Inv(s) && WorkEnabled(s, w, l)
    ensures Followed(WorkNext(s, w, l))
  {
    forall place, j ensures Tokens.TokenOk(WorkNext(s, w, l), place, j) {
      assert Tokens.TokenOk(s, place, j);
      Tokens.WorkKeepsToken(s, w, l, place, j);
    }
    forall j ensures Progress.Smooth(WorkNext(s, w, l), j) {
      if !l.Take? { assert Tokens.TokenOk(s, AtWorker(w, l.index), j); }
      Progress.WorkKeepsSmooth(s, w, l, j);
    }
  }

  lemma HealthKeepsFollowed(s: State, l: HealthStep)
    requires Inv(s) && HealthEnabled(s, l)
    ensures Followed(HealthNext(s, l))
  {
    forall place, j ensures Tokens.TokenOk(HealthNext(s, l), place, j) {
      assert Tokens.TokenOk(s, place, j);
      Tokens.HealthKeepsToken(s, l, place, j);
    }
    forall j ensures Progress.Smooth(HealthNext(s, l), j) {
      Progress.HealthKeepsSmooth(s, l, j);
    }
  }

  lemma CollectKeepsFollowed(s: State, l: CollectStep)
    requires Inv(s) && CollectEnabled(s, l)
    ensures Followed(CollectNext(s, l))
  {
    forall place, j ensures Tokens.TokenOk(CollectNext(s, l), place, j) {
      Tokens.CollectKeepsToken(s, l, place, j);
    }
    forall j ensures Progress.Smooth(CollectNext(s, l), j) {
      Progress.CollectKeepsSmooth(s, l, j);
    }
  }

  lemma BuryKeepsFollowed(s: State, l: BuryStep)
    requires Inv(s) && BuryEnabled(s, l)
    ensures Followed(BuryNext(s, l))
  {
    forall place, j ensures Tokens.TokenOk(BuryNext(s, l), place, j) {
      assert Tokens.TokenOk(s, place, j);
      Tokens.BuryKeepsToken(s, l, place, j);
    }
    forall j ensures Progress.Smooth(BuryNext(s, l), j) {
      Progress.BuryKeepsSmooth(s, l, j);
    }
  }

  lemma KeepsFollowed(s: State, l: Label)
    requires Inv(s) && Enabled(s, l)
    ensures Followed(Next(s, l))
  {
    match l
    case Api(a) => ApiKeepsFollowed(s, a);
    case Dispatch(d, a) => DispatchKeepsFollowed(s, d, a);
    case Read(w, a) => ReadKeepsFollowed(s, w, a);
    case Work(w, a) => WorkKeepsFollowed(s, w, a);
    case Health(a) => HealthKeepsFollowed(s, a);
    case Collect(a) => CollectKeepsFollowed(s, a);
    case Bury(a) => BuryKeepsFollowed(s, a);
  }

  /** History only grows, and time does not run backwards. */
  ghost predicate Later(s: State, s': State) {
    && s.now <= s'.now
    && s.book.cancelled <= s'.book.cancelled
    && s.book.disturbed <= s'.book.disturbed
    && s.book.rough <= s'.book.rough
    && s.jobs.Keys <= s'.jobs.Keys
    && s.workers.Keys <= s'.workers.Keys
    && (Progress.RoughCovers(s.book) ==> Progress.RoughCovers(s'.book))
    && (Progress.ExtrasAreRough(s.book) ==> Progress.ExtrasAreRough(s'.book))
    && (Workers.Honest(s.workers, s.now) ==> Workers.Honest(s'.workers, s'.now))
  }

  lemma ApiIsLater(s: State, l: ApiStep)
    requires ApiEnabled(s, l)
    ensures Later(s, ApiNext(s, l))
  {
  }

  lemma WorkIsLater(s: State, w: WorkerId, l: WorkStep)
    requires WorkEnabled(s, w, l)
    ensures Later(s, WorkNext(s, w, l))
  {
  }

  lemma DispatchIsLater(s: State, d: DispatcherId, l: DispatchStep)
    requires DispatchEnabled(s, d, l)
    ensures Later(s, DispatchNext(s, d, l))
  {
  }

  lemma ReadIsLater(s: State, w: WorkerId, l: ReadStep)
    requires ReadEnabled(s, w, l)
    ensures Later(s, ReadNext(s, w, l))
  {
  }

  lemma HealthIsLater(s: State, l: HealthStep)
    requires HealthEnabled(s, l)
    ensures Later(s, HealthNext(s, l))
  {
  }

  lemma CollectIsLater(s: State, l: CollectStep)
    requires CollectEnabled(s, l)
    ensures Later(s, CollectNext(s, l))
  {
  }

  lemma StepIsLater(s: State, l: Label)
    requires Enabled(s, l)
    ensures Later(s, Next(s, l))
  {
    match l
    case Api(a) => ApiIsLater(s, a);
    case Dispatch(d, a) => DispatchIsLater(s, d, a);
    case Read(w, a) => ReadIsLater(s, w, a);
    case Work(w, a) => WorkIsLater(s, w, a);
    case Health(a) => HealthIsLater(s, a);
    case Collect(a) => CollectIsLater(s, a);
    case Bury(a) => assert Later(s, BuryNext(s, a));
  }

  lemma KeepsInv(s: State, l: Label)
    requires Inv(s) && Enabled(s, l)
    ensures Inv(Next(s, l))
  {
    Records.KeepsPositions(s, l);
    Records.KeepsLocks(s, l);
    Messages.KeepsIssues(s, l);
    Messages.KeepsSent(s, l);
    Outcomes.KeepsRows(s, l);
    forall j ensures Outcomes.JobOutcomeOk(Next(s, l), j) {
      assert Outcomes.JobOutcomeOk(s, j);
      Outcomes.KeepsOutcome(s, l, j);
    }
    Outcomes.KeepsLetters(s, l);
    KeepsFollowed(s, l);
    StepIsLater(s, l);
  }

  lemma {:induction false} RunKeepsInv(s: State, run: seq<Label>)
    requires Inv(s) && IsRun(s, run)
    ensures Inv(End(s, run))
    decreases |run|
  {
    if run != [] {
      KeepsInv(s, run[0]);
      RunKeepsInv(Next(s, run[0]), run[1..]);
    }
  }
}
