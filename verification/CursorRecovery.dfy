/**
 * Progress of the synchronisation protocol: whatever has happened, once the lease in force has ended a new worker
 * can lease the cursor, publish all that is new in the drive, and commit.
 */
module CursorRecovery {
  import opened Prelude
  import opened DeltaFeed
  import opened Outbox
  import opened CursorProtocol
  import opened CursorSafety
  import Stores = CursorStores
  import Box = ResultOutbox

  /** The run goes on, from where it was. */
  ghost predicate Continues(trace: seq<State>, actions: seq<Action>, longer: seq<State>, more: seq<Action>) {
    Steps(longer, more) && trace <= longer && actions <= more
  }

  lemma Extended(trace: seq<State>, actions: seq<Action>, a: Action) returns (longer: seq<State>, more: seq<Action>)
    requires Steps(trace, actions) && Enabled(trace[|actions|], a)
    ensures Continues(trace, actions, longer, more) && |more| == |actions| + 1
    ensures longer[|more|] == Next(trace[|actions|], a) && more == actions + [a]
  {
    longer, more := trace + [Next(trace[|actions|], a)], actions + [a];
  }

  /** The worker `w` has not been seen before. */
  predicate Unused(s: State, w: nat) {
    w !in s.box.workers && w !in s.syncs && w !in s.settling && !Owns(s.row, w)
  }

  lemma UnusedWorker(s: State) returns (w: nat)
    requires RowOk(s)
    ensures Unused(s, w)
  {
    w := UnusedNumber(s.box.workers.Keys + s.syncs.Keys + s.settling.Keys);
    assert w !in s.box.workers.Keys + s.syncs.Keys + s.settling.Keys;
  }

  /** The worker has the lease, and has not committed. */
  predicate Holds(row: Entity, w: nat) {
    Owns(row, w) && row.value.committedBy.None?
  }

  predicate LeaseOver(s: State) {
    s.row.Some? && s.row.value.until.Some? ==> s.row.value.until.value <= s.clock
  }

  /** Nothing but the worker's own doing has changed: the log, the clock, the results. */
  predicate SameWorld(s: State, later: State) {
    && later.log == s.log && later.clock == s.clock && later.seed == s.seed
    && later.box.records == s.box.records && later.box.published == s.box.published && later.moves == s.moves
  }

  // ---- The worker's way, step by step ----

  lemma LeaseEnds(trace: seq<State>, actions: seq<Action>) returns (longer: seq<State>, more: seq<Action>)
    requires Steps(trace, actions)
    ensures Continues(trace, actions, longer, more) && LeaseOver(longer[|more|])
    ensures longer[|more|] == trace[|actions|].(clock := longer[|more|].clock)
  {
    var s := trace[|actions|];
    longer, more := trace, actions;
    if !LeaseOver(s) {
      longer, more := Extended(trace, actions, Tick(s.row.value.until.value));
    }
  }

  lemma WorkerStarts(trace: seq<State>, actions: seq<Action>, w: nat, e: Box.Event)
    returns (longer: seq<State>, more: seq<Action>)
    requires Steps(trace, actions) && Unused(trace[|actions|], w) && Box.EventKey(e) !in trace[|actions|].box.records
    ensures Continues(trace, actions, longer, more)
    ensures var (s, later) := (trace[|actions|], longer[|more|]);
      && SameWorld(s, later) && later.row == s.row && w in later.box.workers && w in later.syncs
      && later.box.workers[w] == Box.Processing(e) && later.syncs[w] == Starting(s.clock)
  {
    longer, more := Extended(trace, actions, BoxStep(Box.Arrive(w, e)));
    longer, more := Extended(longer, more, BoxStep(Box.Lookup(w)));
    longer, more := Extended(longer, more, StartSync(w));
  }

  predicate Syncs(s: State, w: nat, e: Box.Event) {
    w in s.box.workers && s.box.workers[w] == Box.Processing(e) && w in s.syncs
  }

  lemma WorkerLeases(trace: seq<State>, actions: seq<Action>, w: nat, e: Box.Event)
    returns (longer: seq<State>, more: seq<Action>)
    requires Steps(trace, actions) && LeaseOver(trace[|actions|]) && Syncs(trace[|actions|], w, e)
    requires trace[|actions|].syncs[w] == Starting(trace[|actions|].clock)
    ensures Continues(trace, actions, longer, more)
    ensures var (s, later) := (trace[|actions|], longer[|more|]);
      && SameWorld(s, later) && Syncs(later, w, e) && later.syncs[w] == Holding
      && Holds(later.row, w) && LinkOf(later.row) == LinkOf(s.row)
  {
    longer, more := Extended(trace, actions, ReadForAcquire(w, trace[|actions|].clock));
    longer, more := Extended(longer, more, WriteAcquire(w));
  }

  function News(s: State): Output
    requires Cursor(s) <= |s.log|
  {
    Delta(Cursor(s), |s.log|, Collapsed(s.log[Cursor(s)..]))
  }

  lemma WorkerReads(trace: seq<State>, actions: seq<Action>, w: nat, e: Box.Event)
    returns (longer: seq<State>, more: seq<Action>)
    requires Steps(trace, actions) && Syncs(trace[|actions|], w, e) && trace[|actions|].syncs[w] == Holding
    ensures Continues(trace, actions, longer, more)
    ensures var (s, later) := (trace[|actions|], longer[|more|]);
      && SameWorld(s, later) && Syncs(later, w, e) && later.row == s.row && later.syncs[w] == Listing
      && w in later.seen && later.seen[w] == LinkOf(s.row)
  {
    longer, more := Extended(trace, actions, ReadCursor(w));
  }

  lemma WorkerLists(trace: seq<State>, actions: seq<Action>, w: nat, e: Box.Event)
    returns (longer: seq<State>, more: seq<Action>)
    requires Steps(trace, actions) && Syncs(trace[|actions|], w, e)
    requires Cursor(trace[|actions|]) <= |trace[|actions|].log|
    requires trace[|actions|].syncs[w] == Holding
    ensures Continues(trace, actions, longer, more)
    ensures var (s, later) := (trace[|actions|], longer[|more|]);
      SameWorld(s, later) && Syncs(later, w, e) && later.row == s.row && later.syncs[w] == Listed(News(s))
  {
    var s := trace[|actions|];
    longer, more := WorkerReads(trace, actions, w, e);
    assert s.log[Cursor(s)..|s.log|] == s.log[Cursor(s)..];
    longer, more := Extended(longer, more, ListChanges(w, false, |s.log|));
  }

  function Winner(e: Box.Event, news: Output, w: nat): DeltaRun {
    Box.ProcessingResult(e.id, e.correlationId, "completed", news,
                         Some(Checkpoint(if news.Delta? then news.to else 0, w)))
  }

  lemma WorkerRenews(trace: seq<State>, actions: seq<Action>, w: nat, e: Box.Event, news: Output)
    returns (longer: seq<State>, more: seq<Action>)
    requires Steps(trace, actions) && Syncs(trace[|actions|], w, e) && Holds(trace[|actions|].row, w)
    requires trace[|actions|].syncs[w] == Listed(news)
    ensures Continues(trace, actions, longer, more)
    ensures var (s, later) := (trace[|actions|], longer[|more|]);
      && SameWorld(s, later) && Holds(later.row, w) && LinkOf(later.row) == LinkOf(s.row)
      && w in later.box.workers && later.box.workers[w] == Box.Staging(e, Winner(e, news, w))
  {
    longer, more := Extended(trace, actions, ReadForRenew(w));
    longer, more := Extended(longer, more, WriteRenew(w, trace[|actions|].clock));
  }

  lemma WorkerStages(trace: seq<State>, actions: seq<Action>, w: nat, e: Box.Event, result: DeltaRun)
    returns (longer: seq<State>, more: seq<Action>)
    requires Steps(trace, actions) && w in trace[|actions|].box.workers
    requires trace[|actions|].box.workers[w] == Box.Staging(e, result)
    requires Box.EventKey(e) !in trace[|actions|].box.records
    ensures Continues(trace, actions, longer, more)
    ensures var (s, later) := (trace[|actions|], longer[|more|]);
      && later == s.(box := later.box) && later.box.published == s.box.published
      && later.box.records == s.box.records[Box.EventKey(e) := Record(Box.PrivateOf(e, result), Pending)]
      && w in later.box.workers
      && later.box.workers[w] == Box.Dispatching(Box.EventKey(e), Box.PrivateOf(e, result))
  {
    longer, more := Extended(trace, actions, BoxStep(Box.CreateRecord(w)));
    longer, more := Extended(longer, more, BoxStep(Box.ReadBack(w)));
  }

  lemma WorkerPublishes(trace: seq<State>, actions: seq<Action>, w: nat, e: Box.Event, result: DeltaRun)
    returns (longer: seq<State>, more: seq<Action>)
    requires Steps(trace, actions) && w in trace[|actions|].box.workers
    requires trace[|actions|].box.workers[w] == Box.Dispatching(Box.EventKey(e), Box.PrivateOf(e, result))
    requires Box.Dispatchable(Box.PrivateOf(e, result))
    ensures Continues(trace, actions, longer, more)
    ensures var (s, later) := (trace[|actions|], longer[|more|]);
      && later == s.(box := later.box) && later.box.records == s.box.records && w in later.box.workers
      && later.box.workers[w] == Box.Announced(Box.EventKey(e), Box.PrivateOf(e, result))
      && |later.box.published| == |s.box.published| + 1
      && later.box.published[|s.box.published|].1.output == result.output
  {
    longer, more := Extended(trace, actions, BoxStep(Box.Publish(w)));
  }

  lemma CommitSucceeds(s: State, w: nat, e: Box.Event, news: Output)
    requires w in s.box.workers && news.Delta? && Holds(s.row, w)
    requires w in s.settling && s.settling[w] == (s.clock, s.row)
    requires s.box.workers[w] == Box.Announced(Box.EventKey(e), Box.PrivateOf(e, Winner(e, news, w)))
    ensures Enabled(s, WriteCommit(w, s.clock))
    ensures var later := Next(s, WriteCommit(w, s.clock));
      && later.log == s.log && later.box == Box.Next(s.box, Box.Ack(w)) && Cursor(later) == news.to
      && later.moves == s.moves + [Move(w, LinkOf(s.row), news.to)]
  {
  }

  lemma WorkerCommits(trace: seq<State>, actions: seq<Action>, w: nat, e: Box.Event, news: Output)
    returns (longer: seq<State>, more: seq<Action>)
    requires Steps(trace, actions) && w in trace[|actions|].box.workers && news.Delta? && Holds(trace[|actions|].row, w)
    requires trace[|actions|].box.workers[w]
          == Box.Announced(Box.EventKey(e), Box.PrivateOf(e, Winner(e, news, w)))
    ensures Continues(trace, actions, longer, more)
    ensures var (s, later) := (trace[|actions|], longer[|more|]);
      && later.log == s.log && later.box.records == s.box.records && later.box.published == s.box.published
      && Cursor(later) == news.to && w in later.box.workers
      && later.moves == s.moves + [Move(w, LinkOf(s.row), news.to)]
      && later.box.workers[w] == Box.Acknowledged(Box.EventKey(e), Box.PrivateOf(e, Winner(e, news, w)))
  {
    longer, more := Extended(trace, actions, ReadForCommit(w));
    CommitSucceeds(longer[|more|], w, e, news);
    longer, more := Extended(longer, more, WriteCommit(w, trace[|actions|].clock));
  }

  lemma WorkerMarks(trace: seq<State>, actions: seq<Action>, w: nat, key: Box.RecordKey)
    returns (longer: seq<State>, more: seq<Action>)
    requires Steps(trace, actions) && w in trace[|actions|].box.workers
    requires trace[|actions|].box.workers[w].Acknowledged? && trace[|actions|].box.workers[w].key == key
    requires key in trace[|actions|].box.records
    ensures Continues(trace, actions, longer, more)
    ensures longer[|more|] == trace[|actions|].(box := longer[|more|].box)
    ensures longer[|more|].box.published == trace[|actions|].box.published
    ensures longer[|more|].box.records == MarkedSent(trace[|actions|].box.records, key)
  {
    longer, more := Extended(trace, actions, BoxStep(Box.Mark(w)));
  }

  // ---- The way as a whole ----

  lemma WorkerSyncs(trace: seq<State>, actions: seq<Action>, w: nat, e: Box.Event)
    returns (longer: seq<State>, more: seq<Action>)
    requires Steps(trace, actions) && LeaseOver(trace[|actions|]) && Unused(trace[|actions|], w)
    requires Cursor(trace[|actions|]) <= |trace[|actions|].log| && Box.EventKey(e) !in trace[|actions|].box.records
    ensures Continues(trace, actions, longer, more)
    ensures var (s, later) := (trace[|actions|], longer[|more|]);
      && SameWorld(s, later) && Holds(later.row, w) && LinkOf(later.row) == LinkOf(s.row)
      && w in later.box.workers && later.box.workers[w] == Box.Staging(e, Winner(e, News(s), w))
  {
    longer, more := WorkerStarts(trace, actions, w, e);
    longer, more := WorkerLeases(longer, more, w, e);
    longer, more := WorkerLists(longer, more, w, e);
    longer, more := WorkerRenews(longer, more, w, e, News(trace[|actions|]));
  }

  lemma WorkerSettles(trace: seq<State>, actions: seq<Action>, w: nat, e: Box.Event, news: Output)
    returns (longer: seq<State>, more: seq<Action>)
    requires Steps(trace, actions) && w in trace[|actions|].box.workers && news.Delta? && Holds(trace[|actions|].row, w)
    requires trace[|actions|].box.workers[w] == Box.Staging(e, Winner(e, news, w))
    requires Box.EventKey(e) !in trace[|actions|].box.records && e.id != "" && e.correlationId != ""
    ensures Continues(trace, actions, longer, more)
    ensures var (s, later) := (trace[|actions|], longer[|more|]);
      && later.log == s.log && Cursor(later) == news.to
      && later.moves == s.moves + [Move(w, LinkOf(s.row), news.to)]
      && |later.box.published| == |s.box.published| + 1
      && later.box.published[|s.box.published|].1.output == news
      && later.box.records == s.box.records[Box.EventKey(e) := Record(Box.PrivateOf(e, Winner(e, news, w)), Sent)]
  {
    var result := Winner(e, news, w);
    longer, more := WorkerStages(trace, actions, w, e, result);
    longer, more := WorkerPublishes(longer, more, w, e, result);
    longer, more := WorkerCommits(longer, more, w, e, news);
    longer, more := WorkerMarks(longer, more, w, Box.EventKey(e));
  }

  /**
   * From every reachable state - workers crashed anywhere, leases and commits lost - and for every event not yet
   * processed, the run can go on so that, when the lease in force has ended, a new worker publishes exactly the
   * changes that the cursor has not passed and commits: the cursor stands at the end of the drive's log.
   */
  lemma CursorCanCatchUp(trace: seq<State>, actions: seq<Action>, e: Box.Event)
    returns (longer: seq<State>, more: seq<Action>, w: nat)
    requires Run(trace, actions) && Box.EventKey(e) !in trace[|actions|].box.records
    requires e.id != "" && e.correlationId != ""
    ensures Continues(trace, actions, longer, more) && Run(longer, more)
    ensures Cursor(trace[|actions|]) <= |trace[|actions|].log|
    ensures var (s, later) := (trace[|actions|], longer[|more|]);
      && later.log == s.log && Cursor(later) == |s.log|
      && later.moves == s.moves + [Move(w, LinkOf(s.row), |s.log|)]
      && |later.box.published| == |s.box.published| + 1
      && later.box.published[|s.box.published|].1.output == News(s)
      && later.box.records == s.box.records[
           Box.EventKey(e) := Record(Box.PrivateOf(e, Winner(e, News(s), w)), Sent)]
  {
    ReachableInv(trace, actions, |actions|);
    w := UnusedWorker(trace[|actions|]);
    longer, more := LeaseEnds(trace, actions);
    longer, more := WorkerSyncs(longer, more, w, e);
    longer, more := WorkerSettles(longer, more, w, e, News(trace[|actions|]));
  }

  // ---- Staged deltas ----

  lemma TimerCommits(
    trace: seq<State>, actions: seq<Action>, w: nat, key: Box.RecordKey, content: Box.Content<Output, Checkpoint>)
    returns (longer: seq<State>, more: seq<Action>)
    requires Steps(trace, actions) && Committing(trace[|actions|], w)
    requires trace[|actions|].box.workers[w] == Box.Announced(key, content)
    ensures Continues(trace, actions, longer, more)
    ensures longer[|more|].box == Box.Next(trace[|actions|].box, Box.Ack(w))
  {
    longer, more := Extended(trace, actions, ReadForCommit(w));
    longer, more := Extended(longer, more, WriteCommit(w, trace[|actions|].clock));
  }

  lemma TimerAcknowledges(
    trace: seq<State>, actions: seq<Action>, w: nat, key: Box.RecordKey, content: Box.Content<Output, Checkpoint>)
    returns (longer: seq<State>, more: seq<Action>)
    requires Steps(trace, actions) && w in trace[|actions|].box.workers
    requires trace[|actions|].box.workers[w] == Box.Announced(key, content)
    ensures Continues(trace, actions, longer, more)
    ensures var (s, later) := (trace[|actions|], longer[|more|]);
      && later.box.records == s.box.records && w in later.box.workers
      && later.box.workers[w] == Box.Acknowledged(key, content)
  {
    if Committing(trace[|actions|], w) {
      longer, more := TimerCommits(trace, actions, w, key, content);
    } else {
      longer, more := Extended(trace, actions, BoxStep(Box.Ack(w)));
    }
  }

  /** It dispatches the record: publishes it and, where it is a delta, tries the commit. */
  lemma TimerDispatches(trace: seq<State>, actions: seq<Action>, w: nat, key: Box.RecordKey)
    returns (longer: seq<State>, more: seq<Action>)
    requires Steps(trace, actions) && Unused(trace[|actions|], w)
    requires key in trace[|actions|].box.records && key.ResultKey?
    requires trace[|actions|].box.records[key].state == Pending
    requires Box.Dispatchable(trace[|actions|].box.records[key].content)
    ensures Continues(trace, actions, longer, more)
    ensures var (s, later) := (trace[|actions|], longer[|more|]);
      && later.box.records == s.box.records && w in later.box.workers
      && later.box.workers[w] == Box.Acknowledged(key, s.box.records[key].content)
  {
    longer, more := Extended(trace, actions, BoxStep(Box.TimerPick(w, key)));
    longer, more := Extended(longer, more, BoxStep(Box.Publish(w)));
    longer, more := TimerAcknowledges(longer, more, w, key, trace[|actions|].box.records[key].content);
  }

  /** From every reachable state the timer can publish a dispatchable staged result and mark it sent. */
  lemma PendingDeltasCanBeRecovered(trace: seq<State>, actions: seq<Action>, key: Box.RecordKey)
    returns (longer: seq<State>, more: seq<Action>)
    requires Run(trace, actions) && key in trace[|actions|].box.records && key.ResultKey?
    requires Box.Dispatchable(trace[|actions|].box.records[key].content)
    ensures Continues(trace, actions, longer, more) && Run(longer, more) && key in longer[|more|].box.records
    ensures longer[|more|].box.records[key] == Record(trace[|actions|].box.records[key].content, Sent)
    ensures Box.IsPublished(longer[|more|].box, key)
  {
    longer, more := trace, actions;
    if trace[|actions|].box.records[key].state == Pending {
      ReachableInv(trace, actions, |actions|);
      var w := UnusedWorker(trace[|actions|]);
      longer, more := TimerDispatches(trace, actions, w, key);
      longer, more := WorkerMarks(longer, more, w, key);
    }
    ReachableInv(longer, more, |more|);
  }

  // ---- From the beginning ----

  function Fresh(log: seq<Change>): State {
    State(Box.Start(), None, 0, 0, log, map[], map[], 0, map[], [])
  }

  /** In a drive that has never been synchronised, one event brings the cursor from 0 past everything. */
  lemma PlainRunCommits(log: seq<Change>, e: Box.Event) returns (trace: seq<State>, actions: seq<Action>)
    requires e.id != "" && e.correlationId != ""
    ensures Run(trace, actions) && trace[0] == Fresh(log) && Cursor(trace[0]) == 0
    ensures Cursor(trace[|actions|]) == |log| && |trace[|actions|].box.published| == 1
    ensures trace[|actions|].box.published[0].1.output == Delta(0, |log|, Collapsed(log))
  {
    trace, actions := [Fresh(log)], [];
    var w: nat;
    trace, actions, w := CursorCanCatchUp(trace, actions, e);
    assert log[0..] == log;
  }
}
