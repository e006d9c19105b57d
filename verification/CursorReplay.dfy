/** What a consumer makes of the committed deltas: replaying them in order rebuilds the drive up to the cursor. */
module CursorReplay {
  import opened Prelude
  import opened DeltaFeed
  import opened CursorProtocol
  import opened CursorSafety
  import Box = ResultOutbox

  // ---- Every move of the cursor has a published delta ----

  /** The delta starts no later than the move does, ends where it ends, and reports the log in between. */
  predicate Covers(s: State, delta: Output, move: Move) {
    && delta.Delta? && delta.from <= Position(move.before) <= delta.to == move.after <= |s.log|
    && delta.changes == Collapsed(s.log[delta.from..delta.to])
  }

  ghost predicate MovePublished(s: State, move: Move) {
    exists send :: send in s.box.published && Covers(s, send.1.output, move)
  }

  ghost predicate MovesPublished(s: State) {
    forall k | 0 <= k < |s.moves| :: MovePublished(s, s.moves[k])
  }

  lemma MovePublishedKept(s: State, later: State, move: Move)
    requires MovePublished(s, move) && Grows(s, later)
    ensures MovePublished(later, move)
  {
    var send :| send in s.box.published && Covers(s, send.1.output, move);
    var delta := send.1.output;
    assert later.log[delta.from..delta.to] == s.log[delta.from..delta.to];
    assert send in later.box.published && Covers(later, delta, move);
  }

  /** The delta of a commit that writes was published before. */
  lemma CommitWasPublished(s: State, a: Action)
    requires Inv(s) && Enabled(s, a) && a.WriteCommit? && Next(s, a).moves != s.moves
    ensures |Next(s, a).moves| == |s.moves| + 1 && Next(s, a).moves[..|s.moves|] == s.moves
    ensures MovePublished(s, Next(s, a).moves[|s.moves|])
  {
    MovesFollowRow(s, a);
    CommitterHoldsDelta(s, a.w);
    var pc := s.box.workers[a.w];
    var send := (pc.key.privateId, Box.PublicOf(pc.key.privateId, pc.content));
    assert ReadsOk(s);
    assert send in s.box.published && Covers(s, send.1.output, Next(s, a).moves[|s.moves|]);
  }

  lemma PublishedMovesGrow(s: State, later: State)
    requires MovesPublished(s) && Grows(s, later)
    requires later.moves == s.moves
      || (|later.moves| == |s.moves| + 1 && later.moves[..|s.moves|] == s.moves
          && MovePublished(s, later.moves[|s.moves|]))
    ensures MovesPublished(later)
  {
    forall k | 0 <= k < |later.moves| ensures MovePublished(later, later.moves[k]) {
      if k < |s.moves| {
        assert later.moves[k] == s.moves[k] && MovePublished(s, s.moves[k]);
      }
      MovePublishedKept(s, later, later.moves[k]);
    }
  }

  lemma StepKeepsMovesPublished(s: State, a: Action)
    requires Inv(s) && MovesPublished(s) && Enabled(s, a)
    ensures MovesPublished(Next(s, a))
  {
    StepKeepsInv(s, a);
    MovesFollowRow(s, a);
    if Next(s, a).moves != s.moves {
      CommitWasPublished(s, a);
    }
    PublishedMovesGrow(s, Next(s, a));
  }

  lemma {:induction false} ReachableMovesPublished(trace: seq<State>, actions: seq<Action>, i: nat)
    requires Run(trace, actions) && i < |trace|
    ensures MovesPublished(trace[i])
  {
    if i > 0 {
      ReachableMovesPublished(trace, actions, i - 1);
      ReachableInv(trace, actions, i - 1);
      StepKeepsMovesPublished(trace[i - 1], actions[i - 1]);
    }
  }

  // ---- Replaying overlapping stretches of the log ----

  lemma {:induction false} LastOfJoined(xs: seq<Change>, ys: seq<Change>)
    ensures LastById(xs + ys) == LastById(xs) + LastById(ys)
    decreases |ys|
  {
    if ys == [] {
      assert xs + ys == xs;
    } else {
      var all := xs + ys;
      assert all[..|all| - 1] == xs + ys[..|ys| - 1] && all[|all| - 1] == ys[|ys| - 1];
      LastOfJoined(xs, ys[..|ys| - 1]);
    }
  }

  lemma OverwrittenTwice<K, V>(items: map<K, V>, head: map<K, V>, again: map<K, V>, rest: map<K, V>)
    ensures items + (head + again) + (again + rest) == items + (head + (again + rest))
  {
  }

  /** A stretch may start early: what it repeats is overwritten by what it repeats. */
  lemma OverlapIsHarmless(r: Replica, log: seq<Change>, from: nat, before: nat, to: nat, q: Replica)
    requires from <= before <= to <= |log|
    requires q.items == Replay(r, log[..before]).items
    ensures Replay(q, Collapsed(log[from..to])).items == Replay(r, log[..to]).items
  {
    CollapsePreservesReplay(q, log[from..to]);
    ReplayIsLastWins(q, log[from..to]);
    ReplayIsLastWins(r, log[..before]);
    ReplayIsLastWins(r, log[..to]);
    var (head, again, rest) := (log[..from], log[from..before], log[before..to]);
    assert log[..before] == head + again && log[from..to] == again + rest && log[..to] == head + (again + rest);
    LastOfJoined(head, again);
    LastOfJoined(again, rest);
    LastOfJoined(head, again + rest);
    OverwrittenTwice(r.items, LastById(head), LastById(again), LastById(rest));
  }

  predicate AllCover(s: State, deltas: seq<Output>, n: nat) {
    |deltas| == n <= |s.moves| && forall k | 0 <= k < n :: Covers(s, deltas[k], s.moves[k])
  }

  /** One delta for every move of the cursor, published, in the order of the moves. */
  ghost predicate CommittedDeltas(s: State, deltas: seq<Output>, n: nat) {
    && AllCover(s, deltas, n)
    && forall k | 0 <= k < n :: exists send :: send in s.box.published && send.1.output == deltas[k]
  }

  function ReplayAll(r: Replica, deltas: seq<Output>): Replica
    requires forall d | d in deltas :: d.Delta?
  {
    if deltas == [] then r
    else Replay(ReplayAll(r, deltas[..|deltas| - 1]), deltas[|deltas| - 1].changes)
  }

  lemma {:induction false} DeltasExist(s: State, n: nat) returns (deltas: seq<Output>)
    requires MovesPublished(s) && n <= |s.moves|
    ensures CommittedDeltas(s, deltas, n)
  {
    if n == 0 {
      return [];
    }
    deltas := DeltasExist(s, n - 1);
    assert MovePublished(s, s.moves[n - 1]);
    var send :| send in s.box.published && Covers(s, send.1.output, s.moves[n - 1]);
    deltas := deltas + [send.1.output];
  }

  /** The replica holds what `r` would after the log as far as the `n`-th move. */
  ghost predicate Rebuilt(s: State, q: Replica, r: Replica, n: nat)
    requires n <= |s.moves|
  {
    After(s, n) <= |s.log| && q.items == Replay(r, s.log[..After(s, n)]).items
  }

  lemma MoveFollows(s: State, n: nat)
    requires Chained(s) && 1 <= n <= |s.moves|
    ensures Position(s.moves[n - 1].before) == After(s, n - 1) && s.moves[n - 1].after == After(s, n)
  {
    assert LinkFollows(s, s.moves[n - 1], After(s, n - 1));
  }

  /** The delta of a move brings a replica from before the move to after it. */
  lemma DeltaMovesReplica(s: State, delta: Output, n: nat, r: Replica, q: Replica)
    requires Chained(s) && 1 <= n <= |s.moves| && Covers(s, delta, s.moves[n - 1]) && Rebuilt(s, q, r, n - 1)
    ensures Rebuilt(s, Replay(q, delta.changes), r, n)
  {
    MoveFollows(s, n);
    OverlapIsHarmless(r, s.log, delta.from, After(s, n - 1), delta.to, q);
  }

  lemma {:induction false} ReplayOfDeltas(s: State, deltas: seq<Output>, n: nat, r: Replica, start: Replica)
    requires Chained(s) && AllCover(s, deltas, n) && Rebuilt(s, start, r, 0)
    ensures Rebuilt(s, ReplayAll(start, deltas), r, n)
    decreases n
  {
    if n > 0 {
      var front := deltas[..n - 1];
      assert AllCover(s, front, n - 1);
      ReplayOfDeltas(s, front, n - 1, r, start);
      DeltaMovesReplica(s, deltas[n - 1], n, r, ReplayAll(start, front));
    }
  }

  /**
   * In every run, each move of the cursor has a published delta that starts no later than the move; and a
   * consumer that holds the drive's items as of the seed, and replays any such deltas in the order of the moves,
   * holds the items as of the cursor - also where a delta listed the drive anew from its beginning.
   */
  lemma CommittedDeltasRebuildTheDrive(trace: seq<State>, actions: seq<Action>, n: nat, r: Replica, start: Replica)
    requires Run(trace, actions) && n < |trace|
    ensures trace[n].seed <= Cursor(trace[n]) <= |trace[n].log|
    ensures exists deltas :: CommittedDeltas(trace[n], deltas, |trace[n].moves|)
    ensures start.items == Replay(r, trace[n].log[..trace[n].seed]).items ==>
      forall deltas | CommittedDeltas(trace[n], deltas, |trace[n].moves|) ::
        ReplayAll(start, deltas).items == Replay(r, trace[n].log[..Cursor(trace[n])]).items
  {
    var s := trace[n];
    ReachableInv(trace, actions, n);
    ReachableMovesPublished(trace, actions, n);
    var some := DeltasExist(s, |s.moves|);
    if start.items == Replay(r, s.log[..s.seed]).items {
      forall deltas | CommittedDeltas(s, deltas, |s.moves|)
        ensures ReplayAll(start, deltas).items == Replay(r, s.log[..Cursor(s)]).items
      {
        ReplayOfDeltas(s, deltas, |s.moves|, r, start);
      }
    }
  }
}
