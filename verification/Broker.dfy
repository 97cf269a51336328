/** Topics are append-only partitions; a consumer group has, per partition, a read position and a
    committed offset. A group's session restarts at the committed offset. */
module Broker {
  import opened Types

  type Topic<T> = seq<seq<T>>

  function Append<T>(t: Topic<T>, p: nat, m: T): Topic<T>
    requires p < |t|
  {
    t[p := t[p] + [m]]
  }

  predicate Has<T>(t: Topic<T>, p: nat, o: nat) { p < |t| && o < |t[p]| }

  /** `seen` is history: every offset whose handler has returned without an error. */
  datatype Group = Group(pos: seq<nat>, committed: seq<nat>, seen: set<(nat, nat)>)

  function FreshGroup(partitions: nat): Group {
    Group(seq(partitions, _ => 0), seq(partitions, _ => 0), {})
  }

  /** The handler of the message at the read position returned nil. */
  function Handled(g: Group, p: nat): Group
    requires p < |g.pos|
  {
    g.(pos := g.pos[p := g.pos[p] + 1], seen := g.seen + {(p, g.pos[p])})
  }

  function Committed(g: Group, p: nat): Group
    requires p < |g.pos| == |g.committed|
  {
    g.(committed := g.committed[p := g.pos[p]])
  }

  /** A new session on the partition: crash and restart, or a rebalance. */
  function Rewound(g: Group, p: nat): Group
    requires p < |g.pos| == |g.committed|
  {
    g.(pos := g.pos[p := g.committed[p]])
  }

  /** Positions lie in the topic, commits do not run ahead of the session, and every offset below
      the read position, hence below the committed offset, has been handled. */
  ghost predicate Sound<T>(g: Group, t: Topic<T>) {
    && |g.pos| == |g.committed| == |t|
    && (forall p :: 0 <= p < |t| ==> g.committed[p] <= g.pos[p] <= |t[p]|)
    && (forall p, o :: 0 <= p < |t| && 0 <= o < g.pos[p] ==> (p, o) in g.seen)
  }

  lemma GroupMovesSoundly<T>(g: Group, t: Topic<T>, p: nat)
    requires Sound(g, t) && p < |t|
    ensures g.pos[p] < |t[p]| ==> Sound(Handled(g, p), t)
    ensures Sound(Committed(g, p), t)
    ensures Sound(Rewound(g, p), t)
  {
  }

  lemma AppendKeepsSound<T>(g: Group, t: Topic<T>, p: nat, m: T)
    requires Sound(g, t) && p < |t|
    ensures Sound(g, Append(t, p, m))
  {
  }

  /** What becomes of one write to a topic: it is acknowledged, it is refused, or it lands although
      the writer gets an error. */
  datatype Delivery = Delivered(partition: nat) | Refused | Unacknowledged(partition: nat)

  predicate Deliverable(d: Delivery, partitions: nat) { d.Refused? || d.partition < partitions }

  function AfterWrite<T>(t: Topic<T>, m: T, d: Delivery): Topic<T>
    requires Deliverable(d, |t|)
  {
    if d.Refused? then t else Append(t, d.partition, m)
  }

  class Log<T> {
    var parts: Topic<T>

    constructor (partitions: nat)
      ensures |parts| == partitions && forall p :: 0 <= p < partitions ==> parts[p] == []
    {
      parts := seq(partitions, _ => []);
    }

    method Write(m: T, d: Delivery) returns (ok: bool)
      requires Deliverable(d, |parts|)
      modifies this
      ensures parts == AfterWrite(old(parts), m, d) && ok == d.Delivered?
      ensures parts == if d.Refused? then old(parts) else old(parts)[d.partition := old(parts)[d.partition] + [m]]
    {
      if !d.Refused? {
        parts := parts[d.partition := parts[d.partition] + [m]];
      }
      ok := d.Delivered?;
    }
  }

  datatype Fetch = Message(partition: nat) | Cancelled | Temporary(interrupted: bool) | Fatal

  /** A commit that reports an error may have landed. */
  datatype Commit = Done | CommitTemporary(interrupted: bool, landed: bool) | CommitFatal(landed: bool)

  /** What arrives in the topic before one round of the consume loop, which partitions the reader has to
      start over after a rebalance, and what the world answers. */
  datatype Round<T> = Round(arrivals: Topic<T>, rebalanced: seq<nat>, fetch: Fetch, handlerFails: bool, commit: Commit)

  /** The topic with arrivals at the end of each partition. */
  function Grown<T>(t: Topic<T>, arrivals: Topic<T>): (r: Topic<T>)
    requires |arrivals| == |t|
    ensures |r| == |t|
  {
    seq(|t|, p requires 0 <= p < |t| => t[p] + arrivals[p])
  }

  function AllArrived<T>(t: Topic<T>, script: seq<Round<T>>): (r: Topic<T>)
    requires forall k :: 0 <= k < |script| ==> |script[k].arrivals| == |t|
    ensures |r| == |t|
  {
    if script == [] then t else Grown(AllArrived(t, script[..|script| - 1]), script[|script| - 1].arrivals)
  }

  // ----- Moves of a session -----

  datatype Move = HandleNext(partition: nat) | CommitNext(partition: nat) | Rewind(partition: nat)

  predicate Possible<T>(t: Topic<T>, g: Group, m: Move) {
    m.partition < |t| == |g.pos| == |g.committed| && (m.HandleNext? ==> g.pos[m.partition] < |t[m.partition]|)
  }

  function AfterMove(g: Group, m: Move): Group
    requires m.partition < |g.pos| == |g.committed|
  {
    match m
    case HandleNext(p) => Handled(g, p)
    case CommitNext(p) => Committed(g, p)
    case Rewind(p) => Rewound(g, p)
  }

  /** The moves lead the group from `g` to `e`. */
  ghost predicate Walks<T>(t: Topic<T>, g: Group, moves: seq<Move>, e: Group)
    decreases |moves|
  {
    if moves == [] then g == e else Possible(t, g, moves[0]) && Walks(t, AfterMove(g, moves[0]), moves[1..], e)
  }

  predicate Within(g: Group, moves: seq<Move>) {
    |g.pos| == |g.committed| && forall k :: 0 <= k < |moves| ==> moves[k].partition < |g.pos|
  }

  /** The messages the moves handle, in order. */
  function HandledIn(g: Group, moves: seq<Move>): seq<(nat, nat)>
    requires Within(g, moves)
    decreases |moves|
  {
    if moves == [] then []
    else
      var m := moves[0];
      Handling(g, m) + HandledIn(AfterMove(g, m), moves[1..])
  }

  lemma {:induction false} WalksAreWithin<T>(t: Topic<T>, g: Group, moves: seq<Move>, e: Group)
    requires Walks(t, g, moves, e) && |g.pos| == |g.committed| == |t|
    ensures Within(g, moves) && |e.pos| == |e.committed| == |t|
    decreases |moves|
  {
    if moves != [] { WalksAreWithin(t, AfterMove(g, moves[0]), moves[1..], e); }
  }

  lemma {:induction false} HandledOn<T>(t: Topic<T>, g: Group, moves: seq<Move>, e: Group, m: Move)
    requires Walks(t, g, moves, e) && Within(g, moves) && Possible(t, e, m) && |e.pos| == |g.pos|
    ensures Within(g, moves + [m])
    ensures HandledIn(g, moves + [m]) == HandledIn(g, moves) + Handling(e, m)
    decreases |moves|
  {
    if moves == [] {
      assert (moves + [m])[0] == m && (moves + [m])[1..] == [];
    } else {
      assert (moves + [m])[0] == moves[0] && (moves + [m])[1..] == moves[1..] + [m];
      WithinRest(g, moves);
      HandledOn(t, AfterMove(g, moves[0]), moves[1..], e, m);
    }
  }

  lemma {:induction false} WalkOn<T>(t: Topic<T>, g: Group, moves: seq<Move>, e: Group, m: Move)
    requires Walks(t, g, moves, e) && Possible(t, e, m)
    ensures Walks(t, g, moves + [m], AfterMove(e, m))
    decreases |moves|
  {
    if moves == [] {
      assert (moves + [m])[1..] == [];
    } else {
      assert (moves + [m])[0] == moves[0] && (moves + [m])[1..] == moves[1..] + [m];
      WalkOn(t, AfterMove(g, moves[0]), moves[1..], e, m);
    }
  }

  /** What a session has done it could have done with all that arrived since. */
  lemma {:induction false} WalkSeesArrivals<T>(t: Topic<T>, arrivals: Topic<T>, g: Group, moves: seq<Move>, e: Group)
    requires Walks(t, g, moves, e) && |arrivals| == |t|
    ensures Walks(Grown(t, arrivals), g, moves, e)
    decreases |moves|
  {
    if moves != [] { WalkSeesArrivals(t, arrivals, AfterMove(g, moves[0]), moves[1..], e); }
  }

  datatype Exit = StillRunning | Stopped | Failed

  /** The k-th message handled in a session is, within its partition, the one right after those
      handled before it. */
  ghost predicate InOrder(start: seq<nat>, handled: seq<(nat, nat)>) {
    forall k :: 0 <= k < |handled| ==>
      handled[k].0 < |start| && handled[k].1 == start[handled[k].0] + Count(handled[..k], handled[k].0)
  }

  function Count(handled: seq<(nat, nat)>, p: nat): nat {
    if handled == [] then 0
    else Count(handled[..|handled| - 1], p) + (if handled[|handled| - 1].0 == p then 1 else 0)
  }

  /** A session that started in `g0` and has handled `handled` may be in `g`. */
  ghost predicate SessionOk<T>(t: Topic<T>, g0: Group, g: Group, handled: seq<(nat, nat)>) {
    && |g0.pos| == |g0.committed| == |t|
    && Sound(g, t)
    && InOrder(g0.pos, handled)
    && (forall p :: 0 <= p < |t| ==> g.pos[p] == g0.pos[p] + Count(handled, p))
    && (forall p :: 0 <= p < |t| ==> g0.committed[p] <= g.committed[p])
    && (forall h :: h in g.seen <==> h in g0.seen || h in handled)
  }

  lemma CountBounds(handled: seq<(nat, nat)>, k: nat, p: nat)
    requires k < |handled|
    ensures Count(handled[..k], p) + (if handled[k].0 == p then 1 else 0) <= Count(handled, p)
  {
    var front := handled[..|handled| - 1];
    if k < |front| {
      CountBounds(front, k, p);
      assert front[..k] == handled[..k];
    }
  }

  lemma CountOn(handled: seq<(nat, nat)>, m: (nat, nat), p: nat)
    ensures Count(handled + [m], p) == Count(handled, p) + if m.0 == p then 1 else 0
  {
    assert (handled + [m])[..|handled|] == handled;
  }

  /** The message after those handled of its partition was not handled, and goes on in order. */
  lemma InOrderOn(start: seq<nat>, handled: seq<(nat, nat)>, m: (nat, nat))
    requires InOrder(start, handled) && m.0 < |start| && m.1 == start[m.0] + Count(handled, m.0)
    ensures m !in handled && InOrder(start, handled + [m])
  {
    var handled' := handled + [m];
    forall k | 0 <= k < |handled'|
      ensures handled'[k].0 < |start| && handled'[k].1 == start[handled'[k].0] + Count(handled'[..k], handled'[k].0)
      ensures k < |handled| ==> handled[k] != m
    {
      if k < |handled| {
        CountBounds(handled, k, m.0);
        assert handled'[..k] == handled[..k];
      } else {
        assert handled'[..k] == handled;
      }
    }
  }

  /** Handling the next message of a partition extends the session, by a message it had not handled. */
  lemma HandledExtendsSession<T>(t: Topic<T>, g0: Group, g: Group, handled: seq<(nat, nat)>, p: nat)
    requires SessionOk(t, g0, g, handled)
    requires p < |t| && g.pos[p] < |t[p]|
    ensures (p, g.pos[p]) !in handled
    ensures SessionOk(t, g0, Handled(g, p), handled + [(p, g.pos[p])])
  {
    var m := (p, g.pos[p]);
    InOrderOn(g0.pos, handled, m);
    forall q ensures Count(handled + [m], q) == Count(handled, q) + if p == q then 1 else 0 { CountOn(handled, m, q); }
    GroupMovesSoundly(g, t, p);
  }

  lemma CommitKeepsSession<T>(t: Topic<T>, g0: Group, g: Group, handled: seq<(nat, nat)>, p: nat)
    requires SessionOk(t, g0, g, handled) && p < |t|
    ensures SessionOk(t, g0, Committed(g, p), handled)
  {
    GroupMovesSoundly(g, t, p);
  }

  /** The handler was called on what it handled, and, if that made the session fail, on one message more,
      the next of its partition, which stays uncommitted. */
  ghost predicate AttemptedOk<T>(t: Topic<T>, g: Group, exit: Exit, handled: seq<(nat, nat)>, attempted: seq<(nat, nat)>)
    requires |g.pos| == |g.committed| == |t|
  {
    attempted == handled
    || (exit.Failed? && |attempted| > 0 && attempted[..|attempted| - 1] == handled
        && (var (p, o) := attempted[|attempted| - 1]; Has(t, p, o) && o == g.pos[p] >= g.committed[p]))
  }

  lemma WithinRest(g: Group, moves: seq<Move>)
    requires Within(g, moves) && moves != []
    ensures Within(AfterMove(g, moves[0]), moves[1..])
  {
    assert forall k :: 0 <= k < |moves[1..]| ==> moves[1..][k] == moves[k + 1];
  }

  function Handling(g: Group, m: Move): seq<(nat, nat)>
    requires m.partition < |g.pos|
  {
    if m.HandleNext? then [(m.partition, g.pos[m.partition])] else []
  }

  predicate NoRewinds(moves: seq<Move>) { forall k :: 0 <= k < |moves| ==> !moves[k].Rewind? }

  lemma MoveExtendsSession<T>(t: Topic<T>, g0: Group, g: Group, handled: seq<(nat, nat)>, m: Move)
    requires SessionOk(t, g0, g, handled) && Possible(t, g, m) && !m.Rewind?
    ensures SessionOk(t, g0, AfterMove(g, m), handled + Handling(g, m))
  {
    if m.HandleNext? {
      HandledExtendsSession(t, g0, g, handled, m.partition);
    } else {
      CommitKeepsSession(t, g0, g, handled, m.partition);
      assert handled + [] == handled;
    }
  }

  lemma HandledInParts(g: Group, moves: seq<Move>, handled: seq<(nat, nat)>)
    requires Within(g, moves) && moves != []
    ensures Within(AfterMove(g, moves[0]), moves[1..])
    ensures handled + HandledIn(g, moves) == handled + Handling(g, moves[0]) + HandledIn(AfterMove(g, moves[0]), moves[1..])
  {
    WithinRest(g, moves);
  }

  /** Between rebalances, whatever a session walks it handles in order, without gaps or repeats. */
  lemma {:induction false} WalksAreSessions<T>(t: Topic<T>, g0: Group, g: Group, handled: seq<(nat, nat)>, moves: seq<Move>, e: Group, all: seq<(nat, nat)>)
    requires SessionOk(t, g0, g, handled) && Walks(t, g, moves, e)
    requires Within(g, moves) && NoRewinds(moves) && all == handled + HandledIn(g, moves)
    ensures SessionOk(t, g0, e, all)
    decreases |moves|
  {
    if moves == [] {
      assert all == handled;
    } else {
      HandledInParts(g, moves, handled);
      MoveExtendsSession(t, g0, g, handled, moves[0]);
      assert NoRewinds(moves[1..]) by { assert forall k :: 0 <= k < |moves[1..]| ==> moves[1..][k] == moves[k + 1]; }
      WalksAreSessions(t, g0, AfterMove(g, moves[0]), handled + Handling(g, moves[0]), moves[1..], e, all);
    }
  }

  lemma WalkIsSession<T>(t: Topic<T>, g0: Group, moves: seq<Move>, e: Group)
    requires Sound(g0, t) && Walks(t, g0, moves, e) && Within(g0, moves) && NoRewinds(moves)
    ensures SessionOk(t, g0, e, HandledIn(g0, moves))
  {
    assert [] + HandledIn(g0, moves) == HandledIn(g0, moves);
    WalksAreSessions(t, g0, g0, [], moves, e, HandledIn(g0, moves));
  }

  lemma ArrivalsKeepSound<T>(t: Topic<T>, arrivals: Topic<T>, g: Group)
    requires Sound(g, t) && |arrivals| == |t|
    ensures Sound(g, Grown(t, arrivals))
  {
  }

  lemma {:induction false} WalksAreSound<T>(t: Topic<T>, g: Group, moves: seq<Move>, e: Group)
    requires Sound(g, t) && Walks(t, g, moves, e)
    ensures Sound(e, t)
    decreases |moves|
  {
    if moves != [] {
      GroupMovesSoundly(g, t, moves[0].partition);
      WalksAreSound(t, AfterMove(g, moves[0]), moves[1..], e);
    }
  }

  function AfterMoves(g: Group, moves: seq<Move>): Group
    requires Within(g, moves)
    decreases |moves|
  {
    if moves == [] then g else WithinRest(g, moves); AfterMoves(AfterMove(g, moves[0]), moves[1..])
  }

  lemma WithinPart(g: Group, moves: seq<Move>, i: nat)
    requires Within(g, moves) && i <= |moves|
    ensures Within(g, moves[..i])
  {
  }

  lemma {:induction false} WalkInParts<T>(t: Topic<T>, g: Group, moves: seq<Move>, e: Group, i: nat)
    requires Walks(t, g, moves, e) && Within(g, moves) && i <= |moves|
    ensures Within(g, moves[..i])
    ensures var m := AfterMoves(g, moves[..i]); Walks(t, g, moves[..i], m) && Walks(t, m, moves[i..], e) && Within(m, moves[i..])
    decreases |moves|
  {
    WithinPart(g, moves, i);
    if i == 0 {
      assert moves[0..] == moves;
    } else {
      WithinRest(g, moves);
      WalkInParts(t, AfterMove(g, moves[0]), moves[1..], e, i - 1);
      assert moves[..i][1..] == moves[1..][..i - 1] && moves[i..] == moves[1..][i - 1..];
    }
  }

  /** What the moves from i to k handle is a session of its own. */
  ghost predicate IsSegment<T>(t: Topic<T>, g: Group, moves: seq<Move>, i: nat, k: nat)
    requires i <= k <= |moves|
  {
    && Within(g, moves[..i]) && Within(AfterMoves(g, moves[..i]), moves[i..k])
    && var m := AfterMoves(g, moves[..i]);
    Walks(t, g, moves[..i], m) && SessionOk(t, m, AfterMoves(m, moves[i..k]), HandledIn(m, moves[i..k]))
  }

  lemma BeginningIsSession<T>(t: Topic<T>, g: Group, moves: seq<Move>, e: Group, n: nat)
    requires Sound(g, t) && Walks(t, g, moves, e) && Within(g, moves) && n <= |moves| && NoRewinds(moves[..n])
    ensures Within(g, moves[..n]) && SessionOk(t, g, AfterMoves(g, moves[..n]), HandledIn(g, moves[..n]))
  {
    WalkInParts(t, g, moves, e, n);
    WalkIsSession(t, g, moves[..n], AfterMoves(g, moves[..n]));
  }

  /** Every stretch of a walk without a rebalance is a session: in order, no gaps, no repeats. */
  lemma SegmentsAreSessions<T>(t: Topic<T>, g: Group, moves: seq<Move>, e: Group, i: nat, k: nat)
    requires Sound(g, t) && Walks(t, g, moves, e) && Within(g, moves)
    requires i <= k <= |moves| && NoRewinds(moves[i..k])
    ensures IsSegment(t, g, moves, i, k)
  {
    WalkInParts(t, g, moves, e, i);
    var m := AfterMoves(g, moves[..i]);
    WalksAreSound(t, g, moves[..i], m);
    assert moves[i..][..k - i] == moves[i..k];
    BeginningIsSession(t, m, moves[i..], e, k - i);
  }

  /** Without a rebalance the next message of a partition is one the session has not handled. */
  lemma NextIsNew<T>(t: Topic<T>, g0: Group, moves: seq<Move>, e: Group, p: nat)
    requires Sound(g0, t) && Walks(t, g0, moves, e) && Within(g0, moves) && NoRewinds(moves)
    requires p < |t| == |e.pos| == |e.committed| && e.pos[p] < |t[p]|
    ensures (p, e.pos[p]) !in HandledIn(g0, moves)
  {
    WalkIsSession(t, g0, moves, e);
    HandledExtendsSession(t, g0, e, HandledIn(g0, moves), p);
  }

  lemma AllSegments<T>(t: Topic<T>, g: Group, moves: seq<Move>, e: Group)
    requires Sound(g, t) && Walks(t, g, moves, e) && Within(g, moves)
    ensures Sound(e, t)
    ensures forall i, k :: 0 <= i <= k <= |moves| && NoRewinds(moves[i..k]) ==> IsSegment(t, g, moves, i, k)
  {
    WalksAreSound(t, g, moves, e);
    forall i, k | 0 <= i <= k <= |moves| && NoRewinds(moves[i..k]) ensures IsSegment(t, g, moves, i, k) {
      SegmentsAreSessions(t, g, moves, e, i, k);
    }
  }

  lemma WithoutRebalance<T>(t: Topic<T>, g: Group, moves: seq<Move>, e: Group, exit: Exit, attempted: seq<(nat, nat)>)
    requires Sound(g, t) && Walks(t, g, moves, e) && Within(g, moves) && |e.pos| == |e.committed| == |t|
    requires AttemptedOk(t, e, exit, HandledIn(g, moves), attempted)
    ensures NoRewinds(moves) ==> SessionOk(t, g, e, HandledIn(g, moves))
    ensures NoRewinds(moves) && attempted != HandledIn(g, moves) ==> attempted[|attempted| - 1] !in HandledIn(g, moves)
  {
    if NoRewinds(moves) {
      WalkIsSession(t, g, moves, e);
      if attempted != HandledIn(g, moves) { NextIsNew(t, g, moves, e, attempted[|attempted| - 1].0); }
    }
  }

  // ----- What one round does, in the fields of the script -----

  /** Where the reader stands in a partition after the rebalances of the round. */
  function Standing<T>(g: Group, round: Round<T>, p: nat): nat
    requires p < |g.pos| == |g.committed|
  {
    if p in round.rebalanced then g.committed[p] else g.pos[p]
  }

  /** The message the round fetches: the one the reader stands at, if it is there. */
  function Fetched<T>(t: Topic<T>, g: Group, round: Round<T>): Option<(nat, nat)>
    requires |g.pos| == |g.committed| == |t|
  {
    if round.fetch.Message? && round.fetch.partition < |t|
       && Standing(g, round, round.fetch.partition) < |t[round.fetch.partition]|
    then Some((round.fetch.partition, Standing(g, round, round.fetch.partition)))
    else None
  }

  /** The commit of the round takes effect. */
  predicate Lands(c: Commit) { c.Done? || c.landed }

  /** From group `g`, having handled `before`, the round led to `g'`, with `handled`, `attempted` and `exit`. */
  ghost predicate RoundDid<T>(t: Topic<T>, g: Group, round: Round<T>, g': Group, exit: Exit,
                              before: seq<(nat, nat)>, handled: seq<(nat, nat)>, attempted: seq<(nat, nat)>)
    requires |g.pos| == |g.committed| == |t| == |g'.pos| == |g'.committed|
  {
    var m := Fetched(t, g, round);
    if m.Some? then MessageDid(t, g, round, g', exit, before, handled, attempted, m.value.0, m.value.1)
    else
      && handled == attempted == before
      && (forall q :: 0 <= q < |t| ==> g'.pos[q] == Standing(g, round, q) && g'.committed[q] == g.committed[q])
      && exit == (match round.fetch
                  case Message(_) => StillRunning
                  case Cancelled => Stopped
                  case Temporary(interrupted) => if interrupted then Stopped else StillRunning
                  case Fatal => Exit.Failed)
  }

  /** The part of RoundDid for the message fetched. */
  ghost predicate MessageDid<T>(t: Topic<T>, g: Group, round: Round<T>, g': Group, exit: Exit, before: seq<(nat, nat)>,
                                handled: seq<(nat, nat)>, attempted: seq<(nat, nat)>, p: nat, o: nat)
    requires |g.pos| == |g.committed| == |t| == |g'.pos| == |g'.committed|
  {
    && attempted == before + [(p, o)] && p < |t|
    && (forall q :: 0 <= q < |t| && q != p ==> g'.pos[q] == Standing(g, round, q) && g'.committed[q] == g.committed[q])
    && if round.handlerFails then
         handled == before && exit == Exit.Failed && g'.pos[p] == o && g'.committed[p] == g.committed[p]
       else
         && handled == before + [(p, o)] && g'.pos[p] == o + 1
         && g'.committed[p] == (if Lands(round.commit) then o + 1 else g.committed[p])
         && exit == (match round.commit
                     case Done => StillRunning
                     case CommitTemporary(interrupted, _) => if interrupted then Stopped else StillRunning
                     case CommitFatal(_) => Exit.Failed)
  }

  /** The group, and what was handled, before a round. */
  datatype Stage = Stage(group: Group, handled: seq<(nat, nat)>)

  /** Round i of the script led from stage `a` to stage `b`. */
  ghost predicate RoundLed<T>(topic0: Topic<T>, script: seq<Round<T>>, i: nat, a: Stage, b: Stage, exit: Exit, attempted: seq<(nat, nat)>)
    requires i < |script| && forall k :: 0 <= k < |script| ==> |script[k].arrivals| == |topic0|
  {
    && |a.group.pos| == |a.group.committed| == |topic0| == |b.group.pos| == |b.group.committed|
    && RoundDid(AllArrived(topic0, script[..i + 1]), a.group, script[i], b.group, exit, a.handled, b.handled, attempted)
  }

  /** The rounds led from stage to stage, all but the last without an exit. */
  ghost predicate RanThrough<T>(topic0: Topic<T>, script: seq<Round<T>>, stages: seq<Stage>, exit: Exit, attempted: seq<(nat, nat)>)
    requires forall k :: 0 <= k < |script| ==> |script[k].arrivals| == |topic0|
  {
    && 0 < |stages| <= |script| + 1
    && (|stages| == 1 ==> exit.StillRunning? && attempted == stages[0].handled)
    && (forall i :: 0 <= i < |stages| - 2 ==> RoundLed(topic0, script, i, stages[i], stages[i + 1], StillRunning, stages[i + 1].handled))
    && (|stages| > 1 ==>
          RoundLed(topic0, script, |stages| - 2, stages[|stages| - 2], stages[|stages| - 1], exit, attempted))
  }

  lemma RunOn<T>(topic0: Topic<T>, script: seq<Round<T>>, stages: seq<Stage>, b: Stage, exit: Exit, attempted: seq<(nat, nat)>)
    requires forall k :: 0 <= k < |script| ==> |script[k].arrivals| == |topic0|
    requires 0 < |stages| <= |script|
    requires RanThrough(topic0, script, stages, StillRunning, stages[|stages| - 1].handled)
    requires RoundLed(topic0, script, |stages| - 1, stages[|stages| - 1], b, exit, attempted)
    ensures RanThrough(topic0, script, stages + [b], exit, attempted)
  {
    var all := stages + [b];
    forall i | 0 <= i < |all| - 2 ensures RoundLed(topic0, script, i, all[i], all[i + 1], StillRunning, all[i + 1].handled) {
      assert all[i] == stages[i] && all[i + 1] == stages[i + 1];
    }
  }

  /** A round that fetches (p, o) and whose handler does not fail. */
  ghost predicate WellHandled<T>(topic0: Topic<T>, script: seq<Round<T>>, stages: seq<Stage>, i: nat, m: (nat, nat))
    requires forall k :: 0 <= k < |script| ==> |script[k].arrivals| == |topic0|
  {
    && i < |script| && i < |stages| && |stages[i].group.pos| == |stages[i].group.committed| == |topic0|
    && Fetched(AllArrived(topic0, script[..i + 1]), stages[i].group, script[i]) == Some(m) && !script[i].handlerFails
  }

  /** Whatever a run lists as handled was fetched in a round whose handler did not fail. */
  lemma {:induction false} HandledDidNotFail<T>(topic0: Topic<T>, script: seq<Round<T>>, stages: seq<Stage>, exit: Exit,
                                                attempted: seq<(nat, nat)>, m: (nat, nat))
    requires forall k :: 0 <= k < |script| ==> |script[k].arrivals| == |topic0|
    requires RanThrough(topic0, script, stages, exit, attempted) && stages[0].handled == []
    requires m in stages[|stages| - 1].handled
    ensures exists i :: WellHandled(topic0, script, stages, i, m)
    decreases |stages|
  {
    var n := |stages| - 2;
    assert RoundLed(topic0, script, n, stages[n], stages[n + 1], exit, attempted);
    if m in stages[n].handled {
      var front := stages[..n + 1];
      assert RanThrough(topic0, script, front, StillRunning, front[n].handled) by {
        if n > 0 { assert RoundLed(topic0, script, n - 1, stages[n - 1], stages[n], StillRunning, stages[n].handled); }
      }
      HandledDidNotFail(topic0, script, front, StillRunning, front[n].handled, m);
      var i :| WellHandled(topic0, script, front, i, m);
      assert WellHandled(topic0, script, stages, i, m);
    } else {
      assert WellHandled(topic0, script, stages, n, m);
    }
  }

  class Consumer<T> {
    var topic: Topic<T> // grows from outside
    var group: Group

    constructor (topic: Topic<T>, group: Group)
      requires Sound(group, topic)
      ensures this.topic == topic && this.group == group
    {
      this.topic := topic;
      this.group := group;
    }

    /** The consume loop over any script of arrivals, rebalances and answers. `handled` lists the messages
        whose handler succeeded, `attempted` those it was called on, `moves` what happened to the group, and
        `stages` where it stood before each round: every round taken did what its own fields of the script
        say, and only the last may have ended the loop. Between rebalances the order is kept without gaps
        or repeats. */
    method Run(script: seq<Round<T>>)
      returns (exit: Exit, handled: seq<(nat, nat)>, attempted: seq<(nat, nat)>, ghost moves: seq<Move>, ghost stages: seq<Stage>)
      requires Sound(group, topic)
      requires forall k :: 0 <= k < |script| ==> |script[k].arrivals| == |topic|
      requires forall k :: 0 <= k < |script| ==> Answerable(script[k])
      modifies this
      ensures RanThrough(old(topic), script, stages, exit, attempted)
      ensures stages[0] == Stage(old(group), []) && stages[|stages| - 1] == Stage(group, handled)
      ensures topic == AllArrived(old(topic), script[..|stages| - 1]) && (exit.StillRunning? ==> |stages| == |script| + 1)
      ensures Walks(topic, old(group), moves, group) && Within(old(group), moves) && handled == HandledIn(old(group), moves)
      ensures Sound(group, topic)
      ensures forall i, k :: 0 <= i <= k <= |moves| && NoRewinds(moves[i..k]) ==> IsSegment(topic, old(group), moves, i, k)
      ensures NoRewinds(moves) ==> SessionOk(topic, old(group), group, handled)
      ensures AttemptedOk(topic, group, exit, handled, attempted)
      ensures NoRewinds(moves) && attempted != handled ==> attempted[|attempted| - 1] !in handled
    {
      ghost var start := group;
      exit, handled, attempted, moves, stages := Rounds(script);
      AllSegments(topic, start, moves, group);
      WithoutRebalance(topic, start, moves, group, exit, attempted);
    }

    /** The loop itself. */
    method Rounds(script: seq<Round<T>>)
      returns (exit: Exit, handled: seq<(nat, nat)>, attempted: seq<(nat, nat)>, ghost moves: seq<Move>, ghost stages: seq<Stage>)
      requires Sound(group, topic)
      requires forall k :: 0 <= k < |script| ==> |script[k].arrivals| == |topic|
      requires forall k :: 0 <= k < |script| ==> Answerable(script[k])
      modifies this
      ensures RanThrough(old(topic), script, stages, exit, attempted)
      ensures stages[0] == Stage(old(group), []) && stages[|stages| - 1] == Stage(group, handled)
      ensures topic == AllArrived(old(topic), script[..|stages| - 1]) && (exit.StillRunning? ==> |stages| == |script| + 1)
      ensures Sound(old(group), topic) && Walked(old(group), handled, moves)
      ensures AttemptedOk(topic, group, exit, handled, attempted)
    {
      exit, handled, attempted, moves, stages := StillRunning, [], [], [], [Stage(group, [])];
      ghost var start := group;
      for i := 0 to |script|
        invariant exit == StillRunning && attempted == handled && Sound(start, topic) && |topic| == old(|topic|)
        invariant Walked(start, handled, moves)
        invariant |stages| == i + 1 && stages[0] == Stage(start, []) && stages[i] == Stage(group, handled)
        invariant topic == AllArrived(old(topic), script[..i]) && RanThrough(old(topic), script, stages, StillRunning, handled)
      {
        Arrive(script, i, start, moves, old(topic));
        exit, handled, attempted, moves := OneRound(script[i], start, handled, moves);
        RunOn(old(topic), script, stages, Stage(group, handled), exit, attempted);
        stages := stages + [Stage(group, handled)];
        if !exit.StillRunning? { break; }
        assert attempted == handled;
      }
    }

    predicate Answerable(round: Round<T>)
      reads this
    {
      && (round.fetch.Message? ==> round.fetch.partition < |topic|)
      && forall k :: 0 <= k < |round.rebalanced| ==> round.rebalanced[k] < |topic|
    }

    /** The session has come from `start` to `group` by `moves`, handling `handled`. */
    ghost predicate Walked(start: Group, handled: seq<(nat, nat)>, moves: seq<Move>)
      reads this
    {
      && |start.pos| == |start.committed| == |group.pos| == |group.committed| == |topic|
      && Walks(topic, start, moves, group) && Within(start, moves) && handled == HandledIn(start, moves)
    }

    /** The topic grows by what arrives before round i. */
    method Arrive(script: seq<Round<T>>, i: nat, ghost start: Group, ghost moves: seq<Move>, ghost topic0: Topic<T>)
      requires i < |script| && |topic| == |topic0| && forall k :: 0 <= k < |script| ==> |script[k].arrivals| == |topic0|
      requires Sound(start, topic) && Walks(topic, start, moves, group)
      requires topic == AllArrived(topic0, script[..i])
      modifies this`topic
      ensures topic == AllArrived(topic0, script[..i + 1]) && |topic| == old(|topic|)
      ensures Sound(start, topic) && Walks(topic, start, moves, group)
    {
      WalkSeesArrivals(topic, script[i].arrivals, start, moves, group);
      ArrivalsKeepSound(topic, script[i].arrivals, start);
      assert script[..i + 1][..i] == script[..i];
      topic := Grown(topic, script[i].arrivals);
    }

    /** The reader takes up the partitions it was given anew at their committed offsets. */
    method Rebalance(partitions: seq<nat>, ghost start: Group, handled0: seq<(nat, nat)>, ghost moves0: seq<Move>)
      returns (handled: seq<(nat, nat)>, ghost moves: seq<Move>)
      requires Walked(start, handled0, moves0) && forall k :: 0 <= k < |partitions| ==> partitions[k] < |topic|
      modifies this`group
      ensures Walked(start, handled, moves) && handled == handled0
      ensures group.committed == old(group).committed
      ensures forall q :: 0 <= q < |topic| ==>
        group.pos[q] == if q in partitions then old(group).committed[q] else old(group).pos[q]
    {
      handled, moves := handled0, moves0;
      for k := 0 to |partitions|
        invariant Walked(start, handled, moves) && handled == handled0
        invariant group.committed == old(group).committed
        invariant forall q :: 0 <= q < |topic| ==>
          group.pos[q] == if q in partitions[..k] then old(group).committed[q] else old(group).pos[q]
      {
        handled, moves := Step(Rewind(partitions[k]), start, handled, moves);
        assert partitions[..k + 1] == partitions[..k] + [partitions[k]];
      }
      assert partitions[..|partitions|] == partitions;
    }

    /** Fetch, handle, commit. If the handler fails, so does Run, with the offset uncommitted and the message
        not counted as handled; if it succeeds the message is handled, and its offset committed if the
        commit lands. */
    method OneRound(round: Round<T>, ghost start: Group, handled0: seq<(nat, nat)>, ghost moves0: seq<Move>)
      returns (exit: Exit, handled: seq<(nat, nat)>, attempted: seq<(nat, nat)>, ghost moves: seq<Move>)
      requires Sound(start, topic) && Walked(start, handled0, moves0)
      requires Answerable(round)
      modifies this`group
      ensures Walked(start, handled, moves) && AttemptedOk(topic, group, exit, handled, attempted)
      ensures RoundDid(topic, old(group), round, group, exit, handled0, handled, attempted)
    {
      handled, moves := Rebalance(round.rebalanced, start, handled0, moves0);
      attempted := handled;
      match round.fetch
      case Cancelled => exit := Stopped;
      case Fatal => exit := Exit.Failed;
      case Temporary(interrupted) => exit := if interrupted then Stopped else StillRunning;
      case Message(p) =>
        if group.pos[p] >= |topic[p]| { return StillRunning, handled, attempted, moves; } // nothing to fetch yet
        exit, handled, attempted, moves := HandleAndCommit(round, p, start, handled, moves);
    }

    /** What follows the fetch of the next message of partition p. */
    method HandleAndCommit(round: Round<T>, p: nat, ghost start: Group, handled0: seq<(nat, nat)>, ghost moves0: seq<Move>)
      returns (exit: Exit, handled: seq<(nat, nat)>, attempted: seq<(nat, nat)>, ghost moves: seq<Move>)
      requires Sound(start, topic) && Walked(start, handled0, moves0)
      requires p < |topic| && group.pos[p] < |topic[p]|
      modifies this`group
      ensures Walked(start, handled, moves) && AttemptedOk(topic, group, exit, handled, attempted)
      ensures attempted == handled0 + [(p, old(group).pos[p])]
      ensures forall q :: 0 <= q < |topic| && q != p ==> group.pos[q] == old(group).pos[q] && group.committed[q] == old(group).committed[q]
      ensures round.handlerFails ==>
        handled == handled0 && exit == Exit.Failed && group == old(group)
      ensures !round.handlerFails ==>
        && handled == attempted && group.pos[p] == old(group).pos[p] + 1
        && group.committed[p] == (if round.commit.Done? || round.commit.landed then old(group).pos[p] + 1 else old(group).committed[p])
        && exit == (match round.commit
                    case Done => StillRunning
                    case CommitTemporary(interrupted, _) => if interrupted then Stopped else StillRunning
                    case CommitFatal(_) => Exit.Failed)
    {
      WalksAreSound(topic, start, moves0, group);
      if round.handlerFails { return Exit.Failed, handled0, handled0 + [(p, group.pos[p])], moves0; }
      handled, moves := Step(HandleNext(p), start, handled0, moves0);
      match round.commit {
        case Done =>
          handled, moves := Step(CommitNext(p), start, handled, moves);
          exit := StillRunning;
        case CommitTemporary(interrupted, landed) =>
          if landed { handled, moves := Step(CommitNext(p), start, handled, moves); }
          exit := if interrupted then Stopped else StillRunning;
        case CommitFatal(landed) =>
          if landed { handled, moves := Step(CommitNext(p), start, handled, moves); }
          exit := Exit.Failed;
      }
      attempted := handled;
    }

    /** One move of the group. */
    method Step(m: Move, ghost start: Group, handled0: seq<(nat, nat)>, ghost moves0: seq<Move>)
      returns (handled: seq<(nat, nat)>, ghost moves: seq<Move>)
      requires Possible(topic, group, m) && Walked(start, handled0, moves0)
      modifies this`group
      ensures group == AfterMove(old(group), m) && Walked(start, handled, moves)
      ensures handled == handled0 + Handling(old(group), m)
    {
      WalkOn(topic, start, moves0, group, m);
      HandledOn(topic, start, moves0, group, m);
      handled, moves := handled0, moves0 + [m];
      match m
      case HandleNext(p) =>
        handled := handled + [(p, group.pos[p])];
        group := Handled(group, p);
      case CommitNext(p) => group := Committed(group, p);
      case Rewind(p) => group := Rewound(group, p);
    }
  }
}
