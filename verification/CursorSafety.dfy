/** Proofs about the synchronisation protocol: its invariant, and safety over whole runs. */
module CursorSafety {
  import opened Prelude
  import opened DeltaFeed
  import opened CursorProtocol
  import Stores = CursorStores
  import Box = ResultOutbox

  // ---- What every step does to the histories and to the row ----

  ghost predicate Grows(s: State, later: State) {
    && s.log <= later.log && s.box.published <= later.box.published
    && s.clock <= later.clock && s.nextEtag <= later.nextEtag && s.seed == later.seed
    && (forall w | w in s.seen :: w in later.seen && later.seen[w] == s.seen[w])
    && s.syncs.Keys <= later.syncs.Keys
  }

  /** The row is untouched, or written with an etag that no snapshot has. */
  ghost predicate RowMoves(s: State, later: State) {
    s.row == later.row || (later.row.Some? && later.row.value.etag == s.nextEtag < later.nextEtag)
  }

  lemma StepMovesRow(s: State, a: Action)
    requires Enabled(s, a)
    ensures RowMoves(s, Next(s, a))
  {
  }

  lemma SnapshotKept(s: State, later: State, entity: Entity)
    requires Snapshot(s, entity) && RowMoves(s, later) && s.nextEtag <= later.nextEtag
    ensures Snapshot(later, entity)
  {
  }

  lemma DeltaKept(s: State, later: State, owner: nat, delta: Output)
    requires DeltaOk(s, owner, delta) && Grows(s, later)
    ensures DeltaOk(later, owner, delta)
  {
    assert later.log[delta.from..delta.to] == s.log[delta.from..delta.to];
  }

  // ---- The outbox part ----

  /** The outbox step inside a step, if there is one. */
  ghost function StepOfBox(s: State, a: Action): Option<BoxAction>
    requires Enabled(s, a)
  {
    match a
    case BoxStep(step) => Some(step)
    case WriteAcquire(w) => if Next(s, a).syncs[w].Holding? then None else Some(Box.Crash(w))
    case WriteRenew(w, _) =>
      if Next(s, a).syncs[w].Failing? then None else Some(Box.Finish(w, DeltaResult(s, w, s.syncs[w].delta)))
    case WriteRelease(w, _) => Some(Box.Crash(w))
    case WriteCommit(w, _) => Some(Box.Ack(w))
    case WriteAbandon(w, _) => Some(Box.Abandon(w))
    case _ => None
  }

  lemma BoxFollows(s: State, a: Action)
    requires Enabled(s, a)
    ensures match StepOfBox(s, a)
      case None => Next(s, a).box == s.box
      case Some(step) => Box.Enabled(s.box, step) && Next(s, a).box == Box.Next(s.box, step)
  {
  }

  lemma StepGrows(s: State, a: Action)
    requires Enabled(s, a) && (a.ReadCursor? ==> a.w !in s.seen)
    ensures Grows(s, Next(s, a))
  {
    BoxFollows(s, a);
    if StepOfBox(s, a).Some? {
      Box.StepGrows(s.box, StepOfBox(s, a).value);
    }
  }

  lemma BoxInvKept(s: State, a: Action)
    requires Box.Inv(s.box) && Enabled(s, a)
    ensures Box.Inv(Next(s, a).box)
  {
    BoxFollows(s, a);
    if StepOfBox(s, a).Some? {
      Box.StepKeepsInv(s.box, StepOfBox(s, a).value);
    }
  }

  lemma ResultKept(s: State, later: State, r: DeltaRun)
    requires ResultOk(s, r) && Grows(s, later)
    ensures ResultOk(later, r)
  {
    if r.checkpoint.Some? {
      DeltaKept(s, later, r.checkpoint.value.owner, r.output);
    }
  }

  lemma FinishedResultOk(s: State, a: Action)
    requires SyncsOk(s) && Enabled(s, a)
    ensures match StepOfBox(s, a) case Some(Finish(_, r)) => ResultOk(s, r) case _ => true
  {
    if a.WriteRenew? {
      assert SyncOk(s, a.w, s.syncs[a.w]);
    }
  }

  lemma PcKept(s: State, a: Action, w: nat)
    requires SyncsOk(s) && ResultsOk(s) && Enabled(s, a) && Grows(s, Next(s, a)) && w in Next(s, a).box.workers
    ensures PcOk(Next(s, a), Next(s, a).box.workers[w])
  {
    BoxFollows(s, a);
    FinishedResultOk(s, a);
    var pc := Next(s, a).box.workers[w];
    if Box.HasResult(pc) {
      if StepOfBox(s, a).Some? {
        Box.ResultsOnlyMove(s.box, StepOfBox(s, a).value, w);
      }
      if w in s.box.workers {
        assert PcOk(s, s.box.workers[w]);
      }
      ResultKept(s, Next(s, a), pc.result);
    }
  }

  lemma ContentKept(s: State, a: Action, k: Box.RecordKey)
    requires ResultsOk(s) && Enabled(s, a) && Grows(s, Next(s, a)) && k in Next(s, a).box.records
    ensures ContentOk(Next(s, a), Next(s, a).box.records[k].content)
  {
    BoxFollows(s, a);
    var content := Next(s, a).box.records[k].content;
    if content.Private? {
      if StepOfBox(s, a).Some? {
        Box.ContentsOnlyMove(s.box, StepOfBox(s, a).value, k);
      }
      if k in s.box.records {
        assert ContentOk(s, s.box.records[k].content);
      } else {
        var w := StepOfBox(s, a).value.w;
        assert PcOk(s, s.box.workers[w]);
      }
      ResultKept(s, Next(s, a), content.result);
    }
  }

  lemma ResultsKept(s: State, a: Action)
    requires SyncsOk(s) && ResultsOk(s) && Enabled(s, a) && Grows(s, Next(s, a))
    ensures ResultsOk(Next(s, a))
  {
    forall w | w in Next(s, a).box.workers ensures PcOk(Next(s, a), Next(s, a).box.workers[w]) {
      PcKept(s, a, w);
    }
    forall k | k in Next(s, a).box.records ensures ContentOk(Next(s, a), Next(s, a).box.records[k].content) {
      ContentKept(s, a, k);
    }
  }

  // ---- The row, the snapshots, and what the owners read ----

  /** How a step changes the row: each conditional write goes over the very row its snapshot shows. */
  ghost predicate RowStep(s: State, a: Action, later: State) {
    later.row == s.row ||
    (later.row.Some? && later.row.value.until.Some? && later.row.value.etag < later.nextEtag &&
     var (was, row) := (LinkOf(s.row), later.row.value);
     match a
     case WriteAcquire(w) =>
       w in s.syncs && s.syncs[w].AcquireRead? && row.link == was && row.owner == Some(w)
         && row.until.value == s.syncs[w].now + LEASE_SECONDS
     case WriteRenew(w, now) =>
       row.link == was && Owns(s.row, w) && row.owner == Some(w) && row.until.value == now + LEASE_SECONDS
         && now <= s.clock
     case WriteRelease(w, now) => Owns(s.row, w) && row.link == was && row.owner == None
       && row.until.value == now <= s.clock
     case WriteAbandon(w, now) =>
       && LosingLease(s, w) && Owns(s.row, s.box.workers[w].result.checkpoint.value.owner)
       && row.link == was && row.owner == None && row.until.value == now <= s.clock
     case WriteCommit(w, now) =>
       && Committing(s, w) && row.owner == None && row.until.value == now <= s.clock
       && var checkpoint := s.box.workers[w].content.result.checkpoint.value;
       Owns(s.row, checkpoint.owner) && row.link == Some(checkpoint.link)
     case _ => false)
  }

  lemma AcquireIsRowStep(s: State, a: Action)
    requires Enabled(s, a) && a.WriteAcquire? && SyncOk(s, a.w, s.syncs[a.w])
    ensures RowStep(s, a, Next(s, a))
  {
  }

  lemma RenewIsRowStep(s: State, a: Action)
    requires Enabled(s, a) && a.WriteRenew? && SyncOk(s, a.w, s.syncs[a.w])
    ensures RowStep(s, a, Next(s, a))
  {
  }

  lemma ReleaseIsRowStep(s: State, a: Action)
    requires Enabled(s, a) && a.WriteRelease? && SyncOk(s, a.w, s.syncs[a.w])
    ensures RowStep(s, a, Next(s, a))
  {
  }

  lemma SyncWriteIsRowStep(s: State, a: Action)
    requires SyncsOk(s) && Enabled(s, a) && (a.WriteAcquire? || a.WriteRenew? || a.WriteRelease?)
    ensures RowStep(s, a, Next(s, a))
  {
    assert SyncOk(s, a.w, s.syncs[a.w]);
    match a
    case WriteAcquire(_) => AcquireIsRowStep(s, a);
    case WriteRenew(_, _) => RenewIsRowStep(s, a);
    case WriteRelease(_, _) => ReleaseIsRowStep(s, a);
  }

  lemma SettlingWriteIsRowStep(s: State, a: Action)
    requires SyncsOk(s) && ResultsOk(s) && Enabled(s, a) && (a.WriteCommit? || a.WriteAbandon?)
    ensures RowStep(s, a, Next(s, a))
  {
    assert Snapshot(s, s.settling[a.w].1);
  }

  lemma StepIsRowStep(s: State, a: Action)
    requires SyncsOk(s) && ResultsOk(s) && Enabled(s, a)
    ensures RowStep(s, a, Next(s, a))
  {
    if a.WriteAcquire? || a.WriteRenew? || a.WriteRelease? {
      SyncWriteIsRowStep(s, a);
    } else if a.WriteCommit? || a.WriteAbandon? {
      SettlingWriteIsRowStep(s, a);
    }
  }

  /** Only its own acquire makes an owner of `w`. */
  lemma OwnersAreNew(s: State, a: Action, later: State, w: nat)
    requires RowStep(s, a, later) && Owns(later.row, w) && !Owns(s.row, w)
    ensures a == WriteAcquire(w)
  {
  }

  lemma ReadersAreNew(s: State, a: Action, w: nat)
    requires Enabled(s, a) && w in Next(s, a).seen && w !in s.seen
    ensures a == ReadCursor(w)
  {
  }

  lemma OtherSyncKept(s: State, a: Action, w: nat)
    requires SyncsOk(s) && ResultsOk(s) && Enabled(s, a) && Grows(s, Next(s, a)) && w in s.syncs
    requires Next(s, a).syncs[w] == s.syncs[w]
    ensures SyncOk(Next(s, a), w, s.syncs[w])
  {
    var later, sync := Next(s, a), s.syncs[w];
    StepMovesRow(s, a);
    StepIsRowStep(s, a);
    if Owns(later.row, w) && !Owns(s.row, w) {
      OwnersAreNew(s, a, later, w);
    }
    if w in later.seen && w !in s.seen {
      ReadersAreNew(s, a, w);
    }
    assert SyncOk(s, w, sync);
    if sync.AcquireRead? || sync.RenewRead? || sync.FailRead? {
      SnapshotKept(s, later, sync.entity);
    }
    if sync.Listed? || sync.RenewRead? {
      DeltaKept(s, later, w, sync.delta);
    }
  }

  /** After its write a worker holds the lease and has read nothing yet, or is past syncing. */
  lemma OwnWriteMoves(s: State, a: Action, later: State, w: nat)
    requires Enabled(s, a) && (a.WriteAcquire? || a.WriteRenew? || a.WriteRelease?) && a.w == w && later == Next(s, a)
    ensures later.seen == s.seen
    ensures (a.WriteAcquire? && later.syncs[w].Holding?) || later.syncs[w].Failing? || later.syncs[w].Finished?
  {
  }

  lemma OwnWriteKept(s: State, a: Action, later: State, w: nat)
    requires Enabled(s, a) && (a.WriteAcquire? || a.WriteRenew? || a.WriteRelease?) && a.w == w && later == Next(s, a)
    requires SyncOk(s, w, s.syncs[w])
    ensures SyncOk(later, w, later.syncs[w])
  {
    OwnWriteMoves(s, a, later, w);
  }

  lemma OwnReadKept(s: State, a: Action, w: nat)
    requires SyncsOk(s) && RowOk(s)
    requires Enabled(s, a) && (a.ReadForAcquire? || a.ReadForRenew? || a.ReadForRelease?) && a.w == w
    ensures SyncOk(Next(s, a), w, Next(s, a).syncs[w])
  {
    assert SyncOk(s, w, s.syncs[w]);
  }

  lemma OwnMoveKept(s: State, a: Action, w: nat)
    requires SyncsOk(s) && ReadsOk(s) && RowOk(s)
    requires Enabled(s, a) && (a.StartSync? || a.ReadCursor? || a.ListChanges? || a.Fail?) && a.w == w
    ensures SyncOk(Next(s, a), w, Next(s, a).syncs[w])
  {
    if w in s.syncs {
      assert SyncOk(s, w, s.syncs[w]);
    } else {
      assert w !in s.seen && !Owns(s.row, w);
    }
  }

  lemma SyncsMoveAlone(s: State, a: Action, w: nat)
    requires Enabled(s, a) && w in Next(s, a).syncs
    requires w in s.syncs ==> Next(s, a).syncs[w] != s.syncs[w]
    ensures
      || ((a.WriteAcquire? || a.WriteRenew? || a.WriteRelease?) && a.w == w)
      || ((a.ReadForAcquire? || a.ReadForRenew? || a.ReadForRelease?) && a.w == w)
      || ((a.StartSync? || a.ReadCursor? || a.ListChanges? || a.Fail?) && a.w == w)
  {
  }

  lemma OwnSyncKept(s: State, a: Action, w: nat)
    requires SyncsOk(s) && ReadsOk(s) && RowOk(s) && Enabled(s, a) && w in Next(s, a).syncs
    requires w in s.syncs ==> Next(s, a).syncs[w] != s.syncs[w]
    ensures SyncOk(Next(s, a), w, Next(s, a).syncs[w])
  {
    SyncsMoveAlone(s, a, w);
    if a.WriteAcquire? || a.WriteRenew? || a.WriteRelease? {
      assert SyncOk(s, w, s.syncs[w]);
      OwnWriteKept(s, a, Next(s, a), w);
    } else if a.ReadForAcquire? || a.ReadForRenew? || a.ReadForRelease? {
      OwnReadKept(s, a, w);
    } else {
      OwnMoveKept(s, a, w);
    }
  }

  lemma SettlersReadTheRow(s: State, a: Action, w: nat)
    requires Enabled(s, a) && w in Next(s, a).settling
    ensures (w in s.settling && Next(s, a).settling[w] == s.settling[w])
      || (Next(s, a).settling[w].1 == s.row && Next(s, a).row == s.row && Next(s, a).nextEtag == s.nextEtag)
  {
  }

  lemma SettlingKept(s: State, later: State, w: nat)
    requires RowOk(s) && SyncsOk(s) && RowMoves(s, later) && s.nextEtag <= later.nextEtag && w in later.settling
    requires (w in s.settling && later.settling[w] == s.settling[w])
      || (later.settling[w].1 == s.row && later.row == s.row && later.nextEtag == s.nextEtag)
    ensures Snapshot(later, later.settling[w].1)
  {
    if w in s.settling && later.settling[w] == s.settling[w] {
      SnapshotKept(s, later, s.settling[w].1);
    }
  }

  lemma SyncKept(s: State, a: Action, w: nat)
    requires SyncsOk(s) && ReadsOk(s) && RowOk(s) && ResultsOk(s)
    requires Enabled(s, a) && Grows(s, Next(s, a)) && w in Next(s, a).syncs
    ensures SyncOk(Next(s, a), w, Next(s, a).syncs[w])
  {
    if w in s.syncs && Next(s, a).syncs[w] == s.syncs[w] {
      OtherSyncKept(s, a, w);
    } else {
      OwnSyncKept(s, a, w);
    }
  }

  lemma SyncsKept(s: State, a: Action)
    requires SyncsOk(s) && ReadsOk(s) && RowOk(s) && ResultsOk(s) && Enabled(s, a) && Grows(s, Next(s, a))
    ensures SyncsOk(Next(s, a))
  {
    var later := Next(s, a);
    forall w | w in later.syncs ensures SyncOk(later, w, later.syncs[w]) {
      SyncKept(s, a, w);
    }
    forall w | w in later.settling ensures Snapshot(later, later.settling[w].1) {
      SettlersReadTheRow(s, a, w);
      StepMovesRow(s, a);
      SettlingKept(s, later, w);
    }
  }

  /** Whoever commits holds a published winner with a sound delta. */
  lemma CommitterHoldsDelta(s: State, w: nat)
    requires Box.Inv(s.box) && ResultsOk(s) && Committing(s, w)
    ensures var pc := s.box.workers[w];
      && ResultOk(s, pc.content.result)
      && pc.key.ResultKey? && (pc.key.privateId, Box.PublicOf(pc.key.privateId, pc.content)) in s.box.published
  {
    var pc := s.box.workers[w];
    assert Box.WorkerSound(s.box, pc);
    assert ContentOk(s, s.box.records[pc.key].content);
  }

  lemma RowKept(s: State, a: Action, later: State)
    requires RowOk(s) && SyncsOk(s) && Box.Inv(s.box) && ResultsOk(s)
    requires Enabled(s, a) && Grows(s, later) && RowStep(s, a, later)
    ensures RowOk(later)
  {
    if a.WriteAcquire? {
      assert SyncOk(s, a.w, s.syncs[a.w]);
    } else if a.WriteCommit? {
      CommitterHoldsDelta(s, a.w);
    }
  }

  /** The cursor moves only in a commit, which leaves the row without an owner. */
  lemma ReadKept(s: State, a: Action, later: State, w: nat)
    requires ReadsOk(s) && SyncsOk(s) && Enabled(s, a) && Grows(s, later) && RowStep(s, a, later) && w in s.seen
    ensures w in later.syncs && Position(later.seen[w]) <= |later.log|
    ensures Owns(later.row, w) ==> LinkOf(later.row) == later.seen[w]
  {
    if a == WriteAcquire(w) {
      assert SyncOk(s, w, s.syncs[w]);
    }
  }

  lemma ReadsKept(s: State, a: Action)
    requires ReadsOk(s) && SyncsOk(s) && RowOk(s) && Enabled(s, a) && Grows(s, Next(s, a)) && RowStep(s, a, Next(s, a))
    ensures ReadsOk(Next(s, a))
  {
    var later := Next(s, a);
    forall w | w in later.seen
      ensures w in later.syncs && Position(later.seen[w]) <= |later.log|
      ensures Owns(later.row, w) ==> LinkOf(later.row) == later.seen[w]
    {
      if w in s.seen {
        ReadKept(s, a, later, w);
      } else {
        ReadersAreNew(s, a, w);
      }
    }
  }

  // ---- The cursor and what has been published ----

  lemma ReportedKept(s: State, later: State, i: nat)
    requires Reported(s, i) && Grows(s, later)
    ensures Reported(later, i)
  {
    var send :| send in s.box.published && Reports(s, send.1.output, i);
    var delta := send.1.output;
    assert later.log[delta.from..delta.to] == s.log[delta.from..delta.to];
    assert send in later.box.published && Reports(later, delta, i);
  }

  /** A commit moves the cursor over positions that its own, already published, delta reports. */
  lemma CursorReportKept(s: State, a: Action, later: State)
    requires Inv(s) && Enabled(s, a) && Grows(s, later) && RowStep(s, a, later)
    ensures CursorReported(later)
    ensures Cursor(s) <= Cursor(later)
  {
    if a.WriteCommit? && later.row != s.row {
      CommitterHoldsDelta(s, a.w);
      var result := s.box.workers[a.w].content.result;
      var key := s.box.workers[a.w].key.privateId;
      var send := (key, Box.PublicOf(key, s.box.workers[a.w].content));
      assert LinkOf(s.row) == s.seen[result.checkpoint.value.owner];
      forall i: nat | Cursor(s) <= i < Cursor(later) ensures Reported(s, i) {
        assert send in s.box.published && Reports(s, send.1.output, i);
      }
    }
    forall i: nat | later.seed <= i < Cursor(later) ensures Reported(later, i) {
      ReportedKept(s, later, i);
    }
  }

  lemma OnlyCommitsMove(s: State, a: Action)
    requires Enabled(s, a) && !a.WriteCommit?
    ensures Next(s, a).moves == s.moves
  {
  }

  lemma CommitMovesCursor(s: State, a: Action, later: State)
    requires Enabled(s, a) && a.WriteCommit? && later == Next(s, a) && Snapshot(s, s.settling[a.w].1)
    ensures var checkpoint := s.box.workers[a.w].content.result.checkpoint.value;
      if later.moves != s.moves then
        && later.moves == s.moves + [Move(checkpoint.owner, LinkOf(s.row), checkpoint.link)]
        && Owns(s.row, checkpoint.owner) && LinkOf(later.row) == Some(checkpoint.link)
      else LinkOf(later.row) == LinkOf(s.row)
  {
  }

  lemma MovesFollowRow(s: State, a: Action)
    requires SyncsOk(s) && ResultsOk(s) && Enabled(s, a)
    ensures var later := Next(s, a);
      if a.WriteCommit? && later.moves != s.moves then
        && Committing(s, a.w)
        && var checkpoint := s.box.workers[a.w].content.result.checkpoint.value;
        && later.moves == s.moves + [Move(checkpoint.owner, LinkOf(s.row), checkpoint.link)]
        && Owns(s.row, checkpoint.owner) && LinkOf(later.row) == Some(checkpoint.link)
      else later.moves == s.moves && LinkOf(later.row) == LinkOf(s.row)
  {
    StepIsRowStep(s, a);
    if a.WriteCommit? {
      assert Snapshot(s, s.settling[a.w].1);
      CommitMovesCursor(s, a, Next(s, a));
    } else {
      OnlyCommitsMove(s, a);
    }
  }

  lemma LinkKept(s: State, later: State, k: nat)
    requires k < |s.moves| && s.moves <= later.moves && s.seed == later.seed
    requires LinkFollows(s, s.moves[k], After(s, k))
    requires forall w | w in s.seen :: w in later.seen && later.seen[w] == s.seen[w]
    ensures LinkFollows(later, later.moves[k], After(later, k))
  {
    assert later.moves[k] == s.moves[k];
    assert k > 0 ==> later.moves[k - 1] == s.moves[k - 1];
  }

  lemma ChainGrows(s: State, later: State)
    requires Chained(s) && s.seed == later.seed
    requires forall w | w in s.seen :: w in later.seen && later.seen[w] == s.seen[w]
    requires
      || (later.moves == s.moves && Cursor(later) == Cursor(s))
      || (|later.moves| == |s.moves| + 1 && s.moves <= later.moves
          && LinkFollows(later, later.moves[|s.moves|], Cursor(s)) && later.moves[|s.moves|].after == Cursor(later))
    ensures Chained(later)
  {
    forall k | 0 <= k < |later.moves| ensures LinkFollows(later, later.moves[k], After(later, k)) {
      if k < |s.moves| {
        LinkKept(s, later, k);
      }
    }
  }

  lemma ChainKept(s: State, a: Action)
    requires Inv(s) && Enabled(s, a) && Grows(s, Next(s, a))
    ensures Chained(Next(s, a))
  {
    MovesFollowRow(s, a);
    if a.WriteCommit? && Next(s, a).moves != s.moves {
      CommitterHoldsDelta(s, a.w);
    }
    ChainGrows(s, Next(s, a));
  }

  lemma StepKeepsInv(s: State, a: Action)
    requires Inv(s) && Enabled(s, a)
    ensures Inv(Next(s, a)) && Grows(s, Next(s, a)) && RowStep(s, a, Next(s, a))
  {
    if a.ReadCursor? {
      assert SyncOk(s, a.w, s.syncs[a.w]);
    }
    StepGrows(s, a);
    StepIsRowStep(s, a);
    BoxInvKept(s, a);
    RowKept(s, a, Next(s, a));
    SyncsKept(s, a);
    ReadsKept(s, a);
    ResultsKept(s, a);
    CursorReportKept(s, a, Next(s, a));
    ChainKept(s, a);
  }

  // ---- Whole runs ----

  /** Steps from any state on. */
  ghost predicate Steps(trace: seq<State>, actions: seq<Action>) {
    && |trace| == |actions| + 1
    && forall i {:trigger actions[i]} | 0 <= i < |actions| ::
      Enabled(trace[i], actions[i]) && trace[i + 1] == Next(trace[i], actions[i])
  }

  ghost predicate Run(trace: seq<State>, actions: seq<Action>) {
    Steps(trace, actions) && Init(trace[0])
  }

  lemma InitInv(s: State)
    requires Init(s)
    ensures Inv(s)
  {
  }

  lemma {:induction false} StepsKeepInv(trace: seq<State>, actions: seq<Action>, i: nat)
    requires Steps(trace, actions) && Inv(trace[0]) && i < |trace|
    ensures Inv(trace[i])
  {
    if i > 0 {
      StepsKeepInv(trace, actions, i - 1);
      StepKeepsInv(trace[i - 1], actions[i - 1]);
    }
  }

  lemma ReachableInv(trace: seq<State>, actions: seq<Action>, i: nat)
    requires Run(trace, actions) && i < |trace|
    ensures Inv(trace[i])
  {
    InitInv(trace[0]);
    StepsKeepInv(trace, actions, i);
  }

  /** What the collapsed stretch of a log says about the change at one of its positions. */
  lemma StretchNamesTheChange(log: seq<Change>, from: nat, to: nat, i: nat) returns (j: nat)
    requires from <= i < to <= |log|
    ensures i <= j < |log| && log[j].id == log[i].id && log[j] in Collapsed(log[from..to])
    ensures log[i].id == "" ==> j == i
  {
    var part, at := log[from..to], i - from;
    CollapsedRepresents(part, at);
    var k :| at <= k < |part| && part[k].id == part[at].id && part[k] in Collapsed(part)
      && (part[at].id == "" ==> k == at);
    j := from + k;
  }

  /** A result that reports across position i names the change there, or a later one to its item. */
  lemma ReportNamesTheChange(s: State, i: nat)
    requires Reported(s, i)
    ensures i < |s.log| && exists send, j ::
      && send in s.box.published && send.1.output.Delta? && i <= j < |s.log|
      && s.log[j].id == s.log[i].id && s.log[j] in send.1.output.changes
      && (s.log[i].id == "" ==> j == i)
  {
    var send :| send in s.box.published && Reports(s, send.1.output, i);
    var j := StretchNamesTheChange(s.log, send.1.output.from, send.1.output.to, i);
    assert s.log[j] in send.1.output.changes;
  }

  /**
   * The cursor never runs ahead of publication. In every run, each change logged after the seed and
   * before the committed cursor is in some result published by then, itself or through a later
   * change to the same item.
   */
  lemma CommittedChangesArePublished(trace: seq<State>, actions: seq<Action>, n: nat, i: nat)
    requires Run(trace, actions) && n < |trace| && trace[n].seed <= i < Cursor(trace[n])
    ensures var s := trace[n];
      i < |s.log| && exists send, j ::
        && send in s.box.published && send.1.output.Delta? && i <= j < |s.log|
        && s.log[j].id == s.log[i].id && s.log[j] in send.1.output.changes
        && (s.log[i].id == "" ==> j == i)
  {
    ReachableInv(trace, actions, n);
    ReportNamesTheChange(trace[n], i);
  }

  /** Replaying a published result is replaying the stretch of the log that it reports. */
  lemma PublishedResultsReplayTheLog(trace: seq<State>, actions: seq<Action>, n: nat, i: nat, replica: Replica)
    requires Run(trace, actions) && n < |trace| && trace[n].seed <= i < Cursor(trace[n])
    ensures var s := trace[n];
      exists send ::
        && send in s.box.published && send.1.output.Delta? && send.1.output.from <= i < send.1.output.to <= |s.log|
        && Replay(replica, send.1.output.changes) == Replay(replica, s.log[send.1.output.from..send.1.output.to])
  {
    ReachableInv(trace, actions, n);
    var s := trace[n];
    assert Reported(s, i);
    var send :| send in s.box.published && Reports(s, send.1.output, i);
    CollapsePreservesReplay(replica, s.log[send.1.output.from..send.1.output.to]);
  }

  lemma GrowsTransitive(s: State, t: State, u: State)
    requires Grows(s, t) && Grows(t, u)
    ensures Grows(s, u)
  {
  }

  lemma StepOnlyGrows(s: State, a: Action, later: State)
    requires Inv(s) && Enabled(s, a) && later == Next(s, a)
    ensures Grows(s, later) && Cursor(s) <= Cursor(later)
  {
    StepKeepsInv(s, a);
    CursorReportKept(s, a, later);
  }

  lemma EachStepGrows(trace: seq<State>, actions: seq<Action>, n: nat)
    requires Steps(trace, actions) && Inv(trace[0]) && n < |actions|
    ensures Grows(trace[n], trace[n + 1]) && Cursor(trace[n]) <= Cursor(trace[n + 1])
  {
    var s, a := trace[n], actions[n];
    StepsKeepInv(trace, actions, n);
    StepOnlyGrows(s, a, trace[n + 1]);
  }

  lemma {:induction false} StepsOnlyGrow(trace: seq<State>, actions: seq<Action>, i: nat, j: nat)
    requires Steps(trace, actions) && Inv(trace[0]) && i <= j < |trace|
    ensures Grows(trace[i], trace[j]) && Cursor(trace[i]) <= Cursor(trace[j])
    decreases j
  {
    if i < j {
      StepsOnlyGrow(trace, actions, i, j - 1);
      EachStepGrows(trace, actions, j - 1);
      GrowsTransitive(trace[i], trace[j - 1], trace[j]);
    }
  }

  lemma CursorNeverMovesBack(trace: seq<State>, actions: seq<Action>, i: nat, j: nat)
    requires Run(trace, actions) && i <= j < |trace|
    ensures Cursor(trace[i]) <= Cursor(trace[j])
  {
    InitInv(trace[0]);
    StepsOnlyGrow(trace, actions, i, j);
  }

  /**
   * Fencing: a commit that writes does so over the very cursor its owner read after its acquire,
   * even when the lease has long expired; so the writes form one unbroken chain from the seed.
   */
  lemma CommitsAreFenced(trace: seq<State>, actions: seq<Action>, n: nat)
    requires Run(trace, actions) && n < |actions|
    ensures LinkOf(trace[n + 1].row) != LinkOf(trace[n].row) ==> actions[n].WriteCommit?
    ensures trace[n + 1].moves != trace[n].moves ==>
      && |trace[n + 1].moves| == |trace[n].moves| + 1
      && var move := trace[n + 1].moves[|trace[n].moves|];
      && trace[n + 1].moves == trace[n].moves + [move]
      && move.owner in trace[n].seen && trace[n].seen[move.owner] == LinkOf(trace[n].row) == move.before
      && Owns(trace[n].row, move.owner) && LinkOf(trace[n + 1].row) == Some(move.after)
    ensures Chained(trace[n + 1])
  {
    ReachableInv(trace, actions, n);
    StepKeepsInv(trace[n], actions[n]);
    MovesFollowRow(trace[n], actions[n]);
    if actions[n].WriteCommit? {
      CommitterHoldsDelta(trace[n], actions[n].w);
    }
  }

  // ---- The lease excludes other owners ----

  predicate Until(row: Entity, time: int) {
    row.Some? && row.value.until.Some? && row.value.until.value >= time
  }

  /** While another owner's lease runs, an acquire fails and leaves the row as it was. */
  lemma RunningLeaseRefusesOthers(s: State, w: nat, owner: nat)
    requires SyncsOk(s) && Enabled(s, WriteAcquire(w))
    requires Owns(s.row, owner) && owner != w && Until(s.row, s.clock + 1)
    ensures var later := Next(s, WriteAcquire(w));
      later.row == s.row && later.syncs[w].Finished? && later.box.workers[w].Over?
  {
    assert SyncOk(s, w, s.syncs[w]);
  }

  /**
   * The step gives up `owner`'s lease and writes that to the row: its own release or abandonment, or the commit
   * of its delta. An attempt that is refused, or that finds nothing left to do, is none.
   */
  predicate LetsGo(s: State, a: Action, later: State, owner: nat) {
    && later.row != s.row
    && match a
       case WriteRelease(w, _) => w == owner
       case WriteAbandon(w, _) => LosingLease(s, w) && s.box.workers[w].result.checkpoint.value.owner == owner
       case WriteCommit(w, _) => Committing(s, w) && s.box.workers[w].content.result.checkpoint.value.owner == owner
       case _ => false
  }

  lemma LeaseSurvivesStep(s: State, a: Action, owner: nat, time: int)
    requires Inv(s) && Enabled(s, a) && Owns(s.row, owner) && Until(s.row, time) && s.clock < time
    requires !LetsGo(s, a, Next(s, a), owner)
    ensures Owns(Next(s, a).row, owner) && Until(Next(s, a).row, time)
  {
    StepKeepsInv(s, a);
    var later := Next(s, a);
    if later.row != s.row {
      if a.WriteAcquire? {
        assert SyncOk(s, a.w, s.syncs[a.w]);
        RunningLeaseRefusesOthers(s, a.w, owner);
      } else if a.WriteRenew? {
        assert SyncOk(s, a.w, s.syncs[a.w]);
      }
    }
  }

  lemma ClockMovesOn(s: State, a: Action)
    requires Enabled(s, a)
    ensures s.clock <= Next(s, a).clock
  {
  }

  lemma LeaseSurvivesAt(trace: seq<State>, actions: seq<Action>, k: nat, owner: nat, time: int)
    requires Run(trace, actions) && k < |actions|
    requires Owns(trace[k].row, owner) && Until(trace[k].row, time) && trace[k].clock < time
    requires !LetsGo(trace[k], actions[k], trace[k + 1], owner)
    ensures Owns(trace[k + 1].row, owner) && Until(trace[k + 1].row, time)
  {
    ReachableInv(trace, actions, k);
    LeaseSurvivesStep(trace[k], actions[k], owner, time);
  }

  /** A lease holds to its end, whatever is attempted, unless its delta is in fact committed or it is released. */
  lemma {:induction false} LeaseHolds(
    trace: seq<State>, actions: seq<Action>, i: nat, j: nat, owner: nat, time: int)
    requires Run(trace, actions) && i <= j < |trace|
    requires Owns(trace[i].row, owner) && Until(trace[i].row, time) && trace[j].clock < time
    requires forall k | i <= k < j :: !LetsGo(trace[k], actions[k], trace[k + 1], owner)
    ensures Owns(trace[j].row, owner) && Until(trace[j].row, time)
    decreases j
  {
    if i < j {
      ClockMovesOn(trace[j - 1], actions[j - 1]);
      LeaseHolds(trace, actions, i, j - 1, owner, time);
      LeaseSurvivesAt(trace, actions, j - 1, owner, time);
    }
  }
}
