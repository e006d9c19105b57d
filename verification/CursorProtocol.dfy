/**
 * OneDrive synchronisation end to end (onedrive_sync.py, function_app.py): workers lease the cursor
 * row, list the drive's changes, and stage, publish and commit through the result outbox.
 *
 * Every table operation is a read step and a conditional write step; steps of all workers and of
 * the timer interleave freely, workers may crash anywhere, the clock and the drive move on between
 * steps. The drive is an append-only log of changes and a delta link is a position in it.
 * A worker's number doubles as the fresh lease owner that its one `process` call draws.
 */
module CursorProtocol {
  import opened Prelude
  import opened DeltaFeed
  import Stores = CursorStores
  import Box = ResultOutbox

  const LEASE_SECONDS: nat := 720

  datatype Output = Delta(from: nat, to: nat, changes: seq<Change>) | Other(text: string)

  datatype Checkpoint = Checkpoint(link: nat, owner: nat)

  type DeltaRun = Box.ProcessingResult<Output, Checkpoint>
  type BoxAction = Box.Action<Output, Checkpoint>
  type Entity = Option<Stores.Row<nat, nat>>

  /** Where a worker is inside its `process` call. */
  datatype Sync =
    | Starting(since: int)
    | AcquireRead(now: int, entity: Entity)
    | Holding
    | Listing
    | Listed(delta: Output)
    | RenewRead(delta: Output, at: int, entity: Entity)
    | Failing
    | FailRead(at: int, entity: Entity)
    | Finished

  /** One write of the cursor: by which owner, from which link to which. */
  datatype Move = Move(owner: nat, before: Option<nat>, after: nat)

  datatype State = State(
    box: Box.State<Output, Checkpoint>,
    row: Entity,
    nextEtag: nat,
    clock: int,
    log: seq<Change>,
    syncs: map<nat, Sync>,
    settling: map<nat, (int, Entity)>, // the read step of a worker's commit, or of its release on abandon
    seed: nat,                         // the position the drive was seeded with
    seen: map<nat, Option<nat>>,      // history: the cursor that each owner read
    moves: seq<Move>                   // history: the writes of the cursor
  )

  datatype Action =
    | Tick(now: int)
    | Append(change: Change)
    | BoxStep(step: BoxAction)
    | StartSync(w: nat)
    | ReadForAcquire(w: nat, now: int)
    | WriteAcquire(w: nat)
    | ReadCursor(w: nat)
    | ListChanges(w: nat, expired: bool, to: nat)
    | ReadForRenew(w: nat)
    | WriteRenew(w: nat, now: int)
    | Fail(w: nat)
    | ReadForRelease(w: nat)
    | WriteRelease(w: nat, now: int)
    | ReadForCommit(w: nat)
    | WriteCommit(w: nat, now: int)
    | ReadForAbandon(w: nat)
    | WriteAbandon(w: nat, now: int)

  function Position(link: Option<nat>): nat {
    if link.Some? then link.value else 0
  }

  function LinkOf(row: Entity): Option<nat> {
    if row.Some? then row.value.link else None
  }

  function Cursor(s: State): nat {
    Position(LinkOf(s.row))
  }

  predicate Owns(row: Entity, w: nat) {
    row.Some? && row.value.owner == Some(w)
  }

  // ---- Steps ----

  predicate InProcess(s: State, w: nat) {
    w in s.box.workers && s.box.workers[w].Processing?
  }

  predicate InSync(s: State, w: nat) {
    InProcess(s, w) && w in s.syncs
  }

  predicate Committing(s: State, w: nat) {
    && w in s.box.workers && s.box.workers[w].Announced?
    && s.box.workers[w].content.Private? && s.box.workers[w].content.result.checkpoint.Some?
  }

  /** Outbox steps that touch neither the lease nor the cursor. */
  predicate Free(s: State, step: BoxAction) {
    match step
    case Finish(w, r) => r.checkpoint.None? && r.output.Other? && w !in s.syncs
    case Abandon(w) => w in s.box.workers && s.box.workers[w].Abandoning? && s.box.workers[w].result.checkpoint.None?
    case Ack(w) => w in s.box.workers && s.box.workers[w].Announced? && !Committing(s, w)
    case _ => true
  }

  predicate LosingLease(s: State, w: nat) {
    w in s.box.workers && s.box.workers[w].Abandoning? && s.box.workers[w].result.checkpoint.Some?
  }

  /** The part of `process` inside its `try`, where any exception leads to the release. */
  predicate InTry(sync: Sync) {
    sync.Holding? || sync.Listing? || sync.Listed? || sync.RenewRead?
  }

  predicate Enabled(s: State, a: Action) {
    match a
    case Tick(now) => s.clock <= now
    case Append(_) => true
    case BoxStep(step) => Box.Enabled(s.box, step) && Free(s, step)
    case StartSync(w) => InProcess(s, w) && w !in s.syncs
    case ReadForAcquire(w, now) => InSync(s, w) && s.syncs[w].Starting? && s.syncs[w].since <= now <= s.clock
    case WriteAcquire(w) => InSync(s, w) && s.syncs[w].AcquireRead?
    case ReadCursor(w) => InSync(s, w) && s.syncs[w].Holding?
    case ListChanges(w, _, to) =>
      InSync(s, w) && s.syncs[w].Listing? && w in s.seen && Position(s.seen[w]) <= to <= |s.log|
    case ReadForRenew(w) => InSync(s, w) && s.syncs[w].Listed?
    case WriteRenew(w, now) => InSync(s, w) && s.syncs[w].RenewRead? && s.syncs[w].at <= now <= s.clock
    case Fail(w) => InSync(s, w) && InTry(s.syncs[w])
    case ReadForRelease(w) => InSync(s, w) && s.syncs[w].Failing?
    case WriteRelease(w, now) => InSync(s, w) && s.syncs[w].FailRead? && s.syncs[w].at <= now <= s.clock
    case ReadForCommit(w) => Committing(s, w)
    case WriteCommit(w, now) => Committing(s, w) && w in s.settling && s.settling[w].0 <= now <= s.clock
    case ReadForAbandon(w) => LosingLease(s, w)
    case WriteAbandon(w, now) => LosingLease(s, w) && w in s.settling && s.settling[w].0 <= now <= s.clock
  }

  function GoSync(s: State, w: nat, sync: Sync): State {
    s.(syncs := s.syncs[w := sync])
  }

  function Written(s: State, entity: Entity, plan: Stores.Plan<nat, nat>): State {
    s.(row := Stores.Execute(s.row, entity, plan, s.nextEtag).0, nextEtag := s.nextEtag + 1)
  }

  predicate Succeeds(s: State, entity: Entity, plan: Stores.Plan<nat, nat>) {
    Stores.Execute(s.row, entity, plan, s.nextEtag).1
  }

  /** What `process` returns: the delta, and in private how to move the cursor past it. */
  function DeltaResult(s: State, w: nat, delta: Output): DeltaRun
    requires InProcess(s, w)
  {
    var event := s.box.workers[w].event;
    var link := if delta.Delta? then delta.to else 0;
    Box.ProcessingResult(event.id, event.correlationId, "completed", delta, Some(Checkpoint(link, w)))
  }

  function DeltaSince(s: State, w: nat, expired: bool, to: nat): Output
    requires w in s.seen && Position(s.seen[w]) <= to <= |s.log|
  {
    var from := if expired then 0 else Position(s.seen[w]);
    Delta(from, to, Collapsed(s.log[from..to]))
  }

  function CommitPlan(s: State, w: nat, now: int): Stores.Plan<nat, nat>
    requires Committing(s, w) && w in s.settling
  {
    var checkpoint := s.box.workers[w].content.result.checkpoint.value;
    Stores.PlanCommit(s.settling[w].1, Some(checkpoint.link), Some(checkpoint.owner), now)
  }

  function NextCommit(s: State, w: nat, now: int): State
    requires Enabled(s, WriteCommit(w, now))
  {
    var checkpoint := s.box.workers[w].content.result.checkpoint.value;
    var (entity, plan) := (s.settling[w].1, CommitPlan(s, w, now));
    var after := Written(s, entity, plan).(
      box := Box.Next(s.box, Box.Ack(w)), // a refused commit is logged, and the result still counts as sent
      settling := s.settling - {w}
    );
    if plan.Update? && Succeeds(s, entity, plan)
    then after.(moves := s.moves + [Move(checkpoint.owner, LinkOf(s.row), checkpoint.link)])
    else after
  }

  function NextRenew(s: State, w: nat, now: int): State
    requires Enabled(s, WriteRenew(w, now))
  {
    var sync := s.syncs[w];
    var plan := Stores.PlanRenew(sync.entity, Some(w), LEASE_SECONDS, now);
    var after := Written(s, sync.entity, plan);
    if !Succeeds(s, sync.entity, plan) then GoSync(after, w, Failing)
    else GoSync(after, w, Finished).(box := Box.Next(s.box, Box.Finish(w, DeltaResult(s, w, sync.delta))))
  }

  function Next(s: State, a: Action): State
    requires Enabled(s, a)
  {
    match a
    case Tick(now) => s.(clock := now)
    case Append(change) => s.(log := s.log + [change])
    case BoxStep(step) => s.(box := Box.Next(s.box, step))
    case StartSync(w) => GoSync(s, w, Starting(s.clock))
    case ReadForAcquire(w, now) => GoSync(s, w, AcquireRead(now, s.row))
    case WriteAcquire(w) =>
      var (entity, now) := (s.syncs[w].entity, s.syncs[w].now);
      var plan := Stores.PlanAcquire(entity, Some(w), LEASE_SECONDS, now);
      if Succeeds(s, entity, plan) then GoSync(Written(s, entity, plan), w, Holding)
      else GoSync(s, w, Finished).(box := Box.Next(s.box, Box.Crash(w)))
    case ReadCursor(w) => GoSync(s, w, Listing).(seen := s.seen[w := LinkOf(s.row)])
    case ListChanges(w, expired, to) =>
      GoSync(s, w, Listed(DeltaSince(s, w, expired, to)))
    case ReadForRenew(w) => GoSync(s, w, RenewRead(s.syncs[w].delta, s.clock, s.row))
    case WriteRenew(w, now) => NextRenew(s, w, now)
    case Fail(w) => GoSync(s, w, Failing)
    case ReadForRelease(w) => GoSync(s, w, FailRead(s.clock, s.row))
    case WriteRelease(w, now) =>
      var after := Written(s, s.syncs[w].entity, Stores.PlanRelease(s.syncs[w].entity, Some(w), now));
      GoSync(after, w, Finished).(box := Box.Next(s.box, Box.Crash(w)))
    case ReadForCommit(w) => s.(settling := s.settling[w := (s.clock, s.row)])
    case WriteCommit(w, now) => NextCommit(s, w, now)
    case ReadForAbandon(w) => s.(settling := s.settling[w := (s.clock, s.row)])
    case WriteAbandon(w, now) =>
      var owner := s.box.workers[w].result.checkpoint.value.owner;
      var after := Written(s, s.settling[w].1, Stores.PlanRelease(s.settling[w].1, Some(owner), now));
      after.(box := Box.Next(s.box, Box.Abandon(w)), settling := s.settling - {w})
  }

  /** Seeding happens before the first run: the row is absent, or holds the seed and no lease. */
  ghost predicate Init(s: State) {
    && s.box == Box.Start() && s.syncs == map[] && s.settling == map[] && s.seen == map[] && s.moves == []
    && s.seed == Cursor(s) <= |s.log|
    && (s.row.Some? ==> s.row.value.owner.None? && s.row.value.until.None? && s.row.value.etag < s.nextEtag)
  }

  // ---- What holds in every reachable state ----

  /** A snapshot with the row's etag is the row. */
  ghost predicate Snapshot(s: State, entity: Entity) {
    entity.Some? ==>
      && entity.value.etag < s.nextEtag && s.row.Some?
      && (s.row.value.etag == entity.value.etag ==> s.row == entity)
  }

  ghost predicate RowOk(s: State) {
    s.row.Some? ==>
      var row := s.row.value;
      && row.etag < s.nextEtag
      && Position(row.link) <= |s.log|
      && (row.owner.Some? ==> row.owner.value in s.syncs && row.until.Some?)
      && (row.until.Some? ==> row.until.value <= s.clock + LEASE_SECONDS)
  }

  /** The delta starts no later than the cursor its owner read, and reports the log up to its end. */
  ghost predicate DeltaOk(s: State, owner: nat, delta: Output) {
    && delta.Delta? && owner in s.seen
    && delta.from <= Position(s.seen[owner]) <= delta.to <= |s.log|
    && delta.changes == Collapsed(s.log[delta.from..delta.to])
  }

  ghost predicate SyncOk(s: State, w: nat, sync: Sync) {
    match sync
    case Starting(_) => !Owns(s.row, w) && w !in s.seen
    case AcquireRead(now, entity) => !Owns(s.row, w) && w !in s.seen && now <= s.clock && Snapshot(s, entity)
    case Holding => w !in s.seen
    case Listing => w in s.seen
    case Listed(delta) => DeltaOk(s, w, delta)
    case RenewRead(delta, at, entity) =>
      && DeltaOk(s, w, delta) && Snapshot(s, entity) && at <= s.clock
      && (entity.Some? && entity.value.until.Some? ==> entity.value.until.value <= at + LEASE_SECONDS)
    case FailRead(_, entity) => Snapshot(s, entity)
    case _ => true
  }

  ghost predicate SyncsOk(s: State) {
    && (forall w | w in s.syncs :: SyncOk(s, w, s.syncs[w]))
    && (forall w | w in s.settling :: Snapshot(s, s.settling[w].1))
  }

  /** While an owner holds the row, the cursor is still the one it read. */
  ghost predicate ReadsOk(s: State) {
    forall w | w in s.seen ::
      && w in s.syncs && Position(s.seen[w]) <= |s.log|
      && (Owns(s.row, w) ==> LinkOf(s.row) == s.seen[w])
  }

  ghost predicate ResultOk(s: State, r: DeltaRun) {
    if r.checkpoint.None? then r.output.Other?
    else
      DeltaOk(s, r.checkpoint.value.owner, r.output) && r.checkpoint.value.link == r.output.to
  }

  ghost predicate PcOk(s: State, pc: Box.Pc<Output, Checkpoint>) {
    Box.HasResult(pc) ==> ResultOk(s, pc.result)
  }

  ghost predicate ContentOk(s: State, c: Box.Content<Output, Checkpoint>) {
    c.Private? ==> ResultOk(s, c.result)
  }

  ghost predicate ResultsOk(s: State) {
    && (forall w | w in s.box.workers :: PcOk(s, s.box.workers[w]))
    && (forall k | k in s.box.records :: ContentOk(s, s.box.records[k].content))
  }

  predicate Reports(s: State, output: Output, i: nat) {
    && output.Delta? && output.from <= i < output.to <= |s.log|
    && output.changes == Collapsed(s.log[output.from..output.to])
  }

  /** Some published result reports the log across position `i`. */
  ghost predicate Reported(s: State, i: nat) {
    exists send :: send in s.box.published && Reports(s, send.1.output, i)
  }

  ghost predicate CursorReported(s: State) {
    forall i: nat | s.seed <= i < Cursor(s) :: Reported(s, i)
  }

  /** A write of the cursor starts from `previous`, which is what its owner read, and moves no way back. */
  ghost predicate LinkFollows(s: State, move: Move, previous: nat) {
    && Position(move.before) == previous <= move.after
    && move.owner in s.seen && move.before == s.seen[move.owner]
  }

  function After(s: State, k: int): nat
    requires k <= |s.moves|
  {
    if k <= 0 then s.seed else s.moves[k - 1].after
  }

  /** The cursor's writes form an unbroken chain from the seed: none was lost or overwritten. */
  ghost predicate Chained(s: State) {
    && s.seed <= Cursor(s) == After(s, |s.moves|)
    && (forall k | 0 <= k < |s.moves| :: LinkFollows(s, s.moves[k], After(s, k)))
  }

  ghost predicate Inv(s: State) {
    Box.Inv(s.box) && RowOk(s) && SyncsOk(s) && ReadsOk(s) && ResultsOk(s) && CursorReported(s) && Chained(s)
  }
}
