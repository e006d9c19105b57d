/**
 * A seed written in the middle of a run (function_app.py `_ensure_onedrive_subscription`): the cursor is read, the
 * latest position listed, and the seed written over whatever the row holds by then. When that does no harm.
 */
module LateSeeds {
  import opened Prelude
  import opened DeltaFeed
  import opened Outbox
  import opened CursorProtocol
  import opened CursorSafety
  import opened CursorRecovery
  import Stores = CursorStores
  import Box = ResultOutbox

  /** The seed is written; what is counted from the seed starts anew. */
  function Seeded(s: State, position: nat): State {
    s.(row := Stores.Merged(s.row, Some(position), s.nextEtag), nextEtag := s.nextEtag + 1,
       seed := position, moves := [])
  }

  // ---- Seeds that do no harm ----

  /** Whoever owns the lease has not read the cursor yet. */
  ghost predicate NoReaderOwns(s: State) {
    forall w | w in s.seen :: !Owns(s.row, w)
  }

  lemma SeedKeepsSync(s: State, position: nat, w: nat)
    requires w in s.syncs && SyncOk(s, w, s.syncs[w]) && RowOk(s)
    ensures SyncOk(Seeded(s, position), w, s.syncs[w])
  {
  }

  lemma SeedKeepsSyncs(s: State, position: nat)
    requires SyncsOk(s) && RowOk(s)
    ensures SyncsOk(Seeded(s, position))
  {
    forall w | w in s.syncs ensures SyncOk(Seeded(s, position), w, s.syncs[w]) {
      SeedKeepsSync(s, position, w);
    }
  }

  lemma SeedKeepsResults(s: State, position: nat)
    requires ResultsOk(s)
    ensures ResultsOk(Seeded(s, position))
  {
    forall w | w in s.box.workers ensures PcOk(Seeded(s, position), s.box.workers[w]) {
      assert PcOk(s, s.box.workers[w]);
    }
    forall k | k in s.box.records ensures ContentOk(Seeded(s, position), s.box.records[k].content) {
      assert ContentOk(s, s.box.records[k].content);
    }
  }

  lemma SeedKeepsRow(s: State, position: nat)
    requires RowOk(s) && position <= |s.log|
    ensures RowOk(Seeded(s, position)) && Cursor(Seeded(s, position)) == position
  {
  }

  /** Such a seed does not come between a reading of the cursor and the commit that relies on it. */
  ghost predicate Undisturbing(s: State, position: nat) {
    NoReaderOwns(s) || LinkOf(s.row) == Some(position)
  }

  lemma SeedKeepsReads(s: State, position: nat)
    requires ReadsOk(s) && Undisturbing(s, position)
    ensures ReadsOk(Seeded(s, position))
  {
  }

  /** Unless a reader owns the lease, a seed leaves the protocol in a state from which it is as safe as ever. */
  lemma SeedKeepsInv(s: State, position: nat)
    requires Inv(s) && position <= |s.log| && Undisturbing(s, position)
    ensures Inv(Seeded(s, position))
  {
    SeedKeepsRow(s, position);
    SeedKeepsSyncs(s, position);
    SeedKeepsReads(s, position);
    SeedKeepsResults(s, position);
  }

  lemma SeedKeepsReports(s: State, position: nat, i: nat)
    ensures Reported(Seeded(s, position), i) <==> Reported(s, i)
  {
    var later := Seeded(s, position);
    forall output ensures Reports(later, output, i) <==> Reports(s, output, i) {
    }
  }

  /**
   * A late seed does no harm, in any run that goes on from it, if no owner of the lease has read the cursor or if
   * it changes no link: the cursor never moves back behind the seed, every change from the seed to the cursor is in
   * a published result, and so are all those before the seed that were when it was written.
   */
  lemma LateSeedIsHarmless(
    trace: seq<State>, actions: seq<Action>, position: nat, later: seq<State>, more: seq<Action>, i: nat, j: nat)
    requires Run(trace, actions) && position <= |trace[|actions|].log| && Undisturbing(trace[|actions|], position)
    requires Steps(later, more) && later[0] == Seeded(trace[|actions|], position) && i <= j < |later|
    ensures position <= Cursor(later[i]) <= Cursor(later[j])
    ensures forall n: nat | position <= n < Cursor(later[j]) :: Reported(later[j], n)
    ensures forall n: nat | Reported(trace[|actions|], n) :: Reported(later[j], n)
  {
    var s := trace[|actions|];
    ReachableInv(trace, actions, |actions|);
    SeedKeepsInv(s, position);
    StepsKeepInv(later, more, j);
    StepsOnlyGrow(later, more, 0, i);
    StepsOnlyGrow(later, more, i, j);
    StepsOnlyGrow(later, more, 0, j);
    forall n: nat | Reported(s, n) ensures Reported(later[j], n) {
      SeedKeepsReports(s, position, n);
      ReportedKept(later[0], later[j], n);
    }
  }

  // ---- Seeds that can still be undone ----

  /** The run can go on so that the cursor stands before the position. */
  ghost predicate FallsBehind(s: State, position: nat) {
    exists trace, actions, j ::
      Steps(trace, actions) && trace[0] == s && 0 <= j < |trace| && Cursor(trace[j]) < position
  }

  predicate Named(e: Box.Event) {
    e.id != "" && e.correlationId != ""
  }

  /** The owner's `process` can yet return, or has returned, a link before the position. */
  predicate Yields(s: State, w: nat, e: Box.Event, position: nat) {
    if Syncs(s, w, e) && s.syncs[w].Listing? then
      w in s.seen && Position(s.seen[w]) < position && Position(s.seen[w]) <= |s.log|
    else if Syncs(s, w, e) then
      s.syncs[w].Listed? && s.syncs[w].delta.Delta? && s.syncs[w].delta.to < position
    else
      && w in s.box.workers && s.box.workers[w].Staging?
      && var news := s.box.workers[w].result.output;
         s.box.workers[w] == Box.Staging(e, Winner(e, news, w)) && news.Delta? && news.to < position
  }

  /** The owner is still at work on an event without a result. */
  predicate CanYetStage(s: State, w: nat, e: Box.Event, position: nat) {
    Named(e) && Box.EventKey(e) !in s.box.records && Yields(s, w, e, position)
  }

  predicate Carries(content: Box.Content<Output, Checkpoint>, w: nat, position: nat) {
    && Box.Dispatchable(content) && content.result.checkpoint.Some?
    && content.result.checkpoint.value.owner == w && content.result.checkpoint.value.link < position
  }

  /** The owner's result is staged, and the timer can yet commit it. */
  predicate IsStaged(s: State, w: nat, key: Box.RecordKey, position: nat) {
    && key.ResultKey? && key in s.box.records && s.box.records[key].state == Pending
    && Carries(s.box.records[key].content, w, position)
  }

  /** The owner's result is being dispatched by worker `v`. */
  predicate IsInHand(s: State, w: nat, v: nat, position: nat) {
    && v in s.box.workers && (s.box.workers[v].Dispatching? || s.box.workers[v].Announced?)
    && s.box.workers[v].key.ResultKey? && Carries(s.box.workers[v].content, w, position)
  }

  /** The owner of the lease has read the cursor, and its link before the position can still be committed. */
  ghost predicate CanCommitBefore(s: State, w: nat, position: nat) {
    && Owns(s.row, w)
    && ((exists e :: CanYetStage(s, w, e, position)) || (exists key :: IsStaged(s, w, key, position))
        || exists v :: IsInHand(s, w, v, position))
  }

  lemma ListedIsCommitted(trace: seq<State>, actions: seq<Action>, w: nat, e: Box.Event, news: Output)
    returns (longer: seq<State>, more: seq<Action>)
    requires Steps(trace, actions) && Syncs(trace[|actions|], w, e) && Holds(trace[|actions|].row, w)
    requires trace[|actions|].syncs[w] == Listed(news) && news.Delta?
    requires Named(e) && Box.EventKey(e) !in trace[|actions|].box.records
    ensures Continues(trace, actions, longer, more) && Cursor(longer[|more|]) == news.to
  {
    longer, more := WorkerRenews(trace, actions, w, e, news);
    longer, more := WorkerSettles(longer, more, w, e, news);
  }

  lemma ListingIsCommitted(trace: seq<State>, actions: seq<Action>, w: nat, e: Box.Event)
    returns (longer: seq<State>, more: seq<Action>)
    requires Steps(trace, actions) && Syncs(trace[|actions|], w, e) && Holds(trace[|actions|].row, w)
    requires trace[|actions|].syncs[w] == Listing
    requires w in trace[|actions|].seen && Position(trace[|actions|].seen[w]) <= |trace[|actions|].log|
    requires Named(e) && Box.EventKey(e) !in trace[|actions|].box.records
    ensures Continues(trace, actions, longer, more)
    ensures Cursor(longer[|more|]) == Position(trace[|actions|].seen[w])
  {
    var s := trace[|actions|];
    longer, more := Extended(trace, actions, ListChanges(w, false, Position(s.seen[w])));
    longer, more := ListedIsCommitted(longer, more, w, e, DeltaSince(s, w, false, Position(s.seen[w])));
  }

  lemma YieldIsCommitted(trace: seq<State>, actions: seq<Action>, w: nat, e: Box.Event, position: nat)
    returns (longer: seq<State>, more: seq<Action>)
    requires Steps(trace, actions) && Holds(trace[|actions|].row, w) && CanYetStage(trace[|actions|], w, e, position)
    ensures Continues(trace, actions, longer, more) && Cursor(longer[|more|]) < position
  {
    var s := trace[|actions|];
    if Syncs(s, w, e) && s.syncs[w].Listing? {
      longer, more := ListingIsCommitted(trace, actions, w, e);
    } else if Syncs(s, w, e) {
      longer, more := ListedIsCommitted(trace, actions, w, e, s.syncs[w].delta);
    } else {
      longer, more := WorkerSettles(trace, actions, w, e, s.box.workers[w].result.output);
    }
  }

  lemma AnnouncedIsCommitted(trace: seq<State>, actions: seq<Action>, w: nat, v: nat, position: nat)
    returns (longer: seq<State>, more: seq<Action>)
    requires Steps(trace, actions) && Holds(trace[|actions|].row, w) && Committing(trace[|actions|], v)
    requires var checkpoint := trace[|actions|].box.workers[v].content.result.checkpoint.value;
      checkpoint.owner == w && checkpoint.link < position
    ensures Continues(trace, actions, longer, more) && Cursor(longer[|more|]) < position
  {
    longer, more := Extended(trace, actions, ReadForCommit(v));
    longer, more := Extended(longer, more, WriteCommit(v, trace[|actions|].clock));
  }

  lemma InHandIsCommitted(trace: seq<State>, actions: seq<Action>, w: nat, v: nat, position: nat)
    returns (longer: seq<State>, more: seq<Action>)
    requires Steps(trace, actions) && Holds(trace[|actions|].row, w) && IsInHand(trace[|actions|], w, v, position)
    ensures Continues(trace, actions, longer, more) && Cursor(longer[|more|]) < position
  {
    longer, more := trace, actions;
    if trace[|actions|].box.workers[v].Dispatching? {
      longer, more := Extended(trace, actions, BoxStep(Box.Publish(v)));
    }
    longer, more := AnnouncedIsCommitted(longer, more, w, v, position);
  }

  lemma StagedIsCommitted(trace: seq<State>, actions: seq<Action>, w: nat, v: nat, key: Box.RecordKey, position: nat)
    returns (longer: seq<State>, more: seq<Action>)
    requires Steps(trace, actions) && Holds(trace[|actions|].row, w) && Unused(trace[|actions|], v)
    requires IsStaged(trace[|actions|], w, key, position)
    ensures Continues(trace, actions, longer, more) && Cursor(longer[|more|]) < position
  {
    longer, more := Extended(trace, actions, BoxStep(Box.TimerPick(v, key)));
    longer, more := InHandIsCommitted(longer, more, w, v, position);
  }

  /** As long as an owner can still commit a link before the seed, some run goes on in which the cursor moves back. */
  lemma LateSeedCanBeUndone(trace: seq<State>, actions: seq<Action>, w: nat, position: nat)
    requires Run(trace, actions) && position <= |trace[|actions|].log|
    requires CanCommitBefore(trace[|actions|], w, position)
    ensures Cursor(Seeded(trace[|actions|], position)) == position
    ensures FallsBehind(Seeded(trace[|actions|], position), position)
  {
    var s, seeded := trace[|actions|], Seeded(trace[|actions|], position);
    ReachableInv(trace, actions, |actions|);
    var later, more := [seeded], [];
    if e :| CanYetStage(s, w, e, position) {
      later, more := YieldIsCommitted(later, more, w, e, position);
    } else if key :| IsStaged(s, w, key, position) {
      var v := UnusedWorker(s);
      later, more := StagedIsCommitted(later, more, w, v, key, position);
    } else {
      var v :| IsInHand(s, w, v, position);
      later, more := InHandIsCommitted(later, more, w, v, position);
    }
    assert Cursor(later[|more|]) < position;
  }

  // ---- What the row tells ----

  function OwnerOf(row: Entity): Option<nat> {
    if row.Some? then row.value.owner else None
  }

  /** What the row shows: its link, and the owner of the lease. */
  predicate Shows(s: State, link: Option<nat>, owner: Option<nat>) {
    LinkOf(s.row) == link && OwnerOf(s.row) == owner
  }

  function FreshAt(log: seq<Change>, link: Option<nat>): State {
    State(Box.Start(), Some(Stores.Row(link, None, None, None, 0)), 1, 0, log, map[], map[], Position(link), map[], [])
  }

  /** A run in which worker `w` has leased the row and has read the cursor. */
  lemma ReaderOwnsLease(log: seq<Change>, link: Option<nat>, w: nat, e: Box.Event)
    returns (trace: seq<State>, actions: seq<Action>)
    requires Position(link) <= |log| && Named(e)
    ensures Run(trace, actions) && trace[|actions|].log == log && Shows(trace[|actions|], link, Some(w))
    ensures CanYetStage(trace[|actions|], w, e, Position(link) + 1)
  {
    trace, actions := [FreshAt(log, link)], [];
    trace, actions := WorkerStarts(trace, actions, w, e);
    trace, actions := WorkerLeases(trace, actions, w, e);
    trace, actions := WorkerReads(trace, actions, w, e);
  }

  lemma StagesBeforeMore(s: State, w: nat, e: Box.Event, at: nat, position: nat)
    requires CanYetStage(s, w, e, at) && at <= position
    ensures CanYetStage(s, w, e, position)
  {
  }

  function Later(p: nat, q: nat): nat {
    if p < q then q else p
  }

  /**
   * A run that ends in a state with such a row, and can go on from the seed so that the cursor stands before the
   * seed, or before where it stood.
   */
  ghost predicate Harms(
    trace: seq<State>, actions: seq<Action>, link: Option<nat>, owner: Option<nat>, position: nat) {
    && Run(trace, actions) && Shows(trace[|actions|], link, owner) && position <= |trace[|actions|].log|
    && FallsBehind(Seeded(trace[|actions|], position), Later(Position(link), position))
  }

  lemma OwnedRowsAreHarmed(link: Option<nat>, owner: nat, position: nat)
    returns (trace: seq<State>, actions: seq<Action>)
    requires Position(link) < position
    ensures Harms(trace, actions, link, Some(owner), position)
  {
    var e := Box.Event("onedrive", "id", "id", "", None);
    trace, actions := ReaderOwnsLease(seq(position, _ => Change("", "")), link, owner, e);
    StagesBeforeMore(trace[|actions|], owner, e, Position(link) + 1, position);
    LateSeedCanBeUndone(trace, actions, owner, position);
  }

  lemma CursorIsPassed(link: Option<nat>, owner: Option<nat>, position: nat)
    returns (trace: seq<State>, actions: seq<Action>)
    requires position < Position(link)
    ensures Harms(trace, actions, link, owner, position)
  {
    var log := seq(Position(link), _ => Change("", ""));
    trace, actions := [FreshAt(log, link)], [];
    if owner.Some? {
      trace, actions := ReaderOwnsLease(log, link, owner.value, Box.Event("onedrive", "id", "id", "", None));
    }
    var later := [Seeded(trace[|actions|], position)];
    assert Steps(later, []) && Cursor(later[0]) == position;
  }

  lemma SeedIsSafe(trace: seq<State>, actions: seq<Action>, position: nat)
    requires Run(trace, actions) && position <= |trace[|actions|].log|
    requires position > 0 ==> Undisturbing(trace[|actions|], position)
    ensures !FallsBehind(Seeded(trace[|actions|], position), position)
  {
    var seeded := Seeded(trace[|actions|], position);
    forall later, more, j | position > 0 && Steps(later, more) && later[0] == seeded && 0 <= j < |later|
      ensures Cursor(later[j]) >= position
    {
      LateSeedIsHarmless(trace, actions, position, later, more, j, j);
    }
  }

  lemma UnownedRowsAreUndisturbed(s: State, link: Option<nat>, owner: Option<nat>, position: nat)
    requires Shows(s, link, owner) && Position(link) <= position
    requires owner.None? || (position > 0 && Position(link) == position)
    ensures Undisturbing(s, position)
  {
  }

  /**
   * All that a seeder can see is the row. Whatever else goes on, the seed is safe - the cursor never again stands
   * before it or before where it stood - if and only if it is the row's own position, or beyond it in a row that
   * names no lease owner.
   */
  lemma RowDecidesLateSeeds(link: Option<nat>, owner: Option<nat>, position: nat)
    ensures (forall trace, actions :: !Harms(trace, actions, link, owner, position)) <==>
      position == Position(link) || (position > Position(link) && owner.None?)
  {
    if position < Position(link) {
      var trace, actions := CursorIsPassed(link, owner, position);
    } else if position > Position(link) && owner.Some? {
      var trace, actions := OwnedRowsAreHarmed(link, owner.value, position);
    } else {
      forall trace: seq<State>, actions ensures !Harms(trace, actions, link, owner, position) {
        if Run(trace, actions) && Shows(trace[|actions|], link, owner) && position <= |trace[|actions|].log| {
          if position > 0 {
            UnownedRowsAreUndisturbed(trace[|actions|], link, owner, position);
          }
          SeedIsSafe(trace, actions, position);
        }
      }
    }
  }

  // ---- Races of the seeding itself ----

  /** The seeder found no cursor at step `i`, and listed the latest position at step `k`. */
  predicate SeederSaw(trace: seq<State>, i: nat, k: nat, position: nat) {
    i <= k < |trace| && LinkOf(trace[i].row).None? && position == |trace[k].log|
  }

  lemma CatchesUp(trace: seq<State>, actions: seq<Action>, e: Box.Event)
    returns (longer: seq<State>, more: seq<Action>)
    requires Run(trace, actions) && Named(e) && Box.EventKey(e) !in trace[|actions|].box.records
    ensures Run(longer, more) && longer[0] == trace[0] && Cursor(longer[|more|]) == |trace[|actions|].log|
  {
    var w: nat;
    longer, more, w := CursorCanCatchUp(trace, actions, e);
    assert longer[0] == trace[0];
  }

  /** The drive changes, and a worker commits, between the seeder's listing and its write: the cursor moves back. */
  lemma SeedCanMoveBack(c: Change, e: Box.Event) returns (trace: seq<State>, actions: seq<Action>)
    requires Named(e)
    ensures Run(trace, actions) && SeederSaw(trace, 0, 0, 0)
    ensures Cursor(trace[|actions|]) == 1 && Cursor(Seeded(trace[|actions|], 0)) == 0
  {
    trace, actions := [CursorRecovery.Fresh([])], [];
    trace, actions := Extended(trace, actions, Append(c));
    trace, actions := CatchesUp(trace, actions, e);
  }

  /** A worker lists a change and crashes, and the seed is written past it: the cursor passes an unpublished change. */
  lemma SeedCanSkip(c: Change, e: Box.Event) returns (trace: seq<State>, actions: seq<Action>, w: nat)
    requires Named(e)
    ensures Run(trace, actions) && |actions| >= 1 && actions[|actions| - 1] == BoxStep(Box.Crash(w))
    ensures SeederSaw(trace, 0, |actions|, 1)
    ensures w in trace[|actions|].syncs && trace[|actions|].syncs[w] == Listed(Delta(0, 1, Collapsed([c])))
    ensures trace[|actions|].seed == 0 < Cursor(Seeded(trace[|actions|], 1))
    ensures !Reported(Seeded(trace[|actions|], 1), 0)
  {
    w := 1;
    trace, actions := [CursorRecovery.Fresh([c])], [];
    trace, actions := WorkerStarts(trace, actions, w, e);
    trace, actions := WorkerLeases(trace, actions, w, e);
    trace, actions := WorkerLists(trace, actions, w, e);
    assert [c][0..] == [c];
    trace, actions := Extended(trace, actions, BoxStep(Box.Crash(w)));
    assert trace[|actions|].box.published == [];
  }
}
