/**
 * Who fails, or whose result loses, lets the lease go (onedrive_sync.py `process`, `abandon`): after the release no
 * later state finds the owner in the row, whatever others have written meanwhile.
 */
module CursorRelease {
  import opened Prelude
  import opened DeltaFeed
  import opened CursorProtocol
  import opened CursorSafety
  import Stores = CursorStores
  import Box = ResultOutbox

  /** The owner's `process` has failed or returned: it acquires and renews no more. */
  predicate Leaves(s: State, w: nat) {
    w in s.syncs && (s.syncs[w].Failing? || s.syncs[w].FailRead? || s.syncs[w].Finished?)
  }

  lemma LeaversStay(s: State, a: Action, later: State, w: nat)
    requires Enabled(s, a) && Leaves(s, w) && later == Next(s, a)
    ensures Leaves(later, w) && (s.syncs[w].Finished? ==> later.syncs[w].Finished?)
  {
    if w in later.syncs && later.syncs[w] != s.syncs[w] {
      SyncsMoveAlone(s, a, w);
      if a.WriteAcquire? || a.WriteRenew? || a.WriteRelease? {
        OwnWriteMoves(s, a, later, w);
      }
    }
  }

  /** Only a release or a commit changes the row of a leaving owner, and then it is none. */
  lemma LeaversGainNothing(s: State, a: Action, later: State, w: nat)
    requires RowStep(s, a, later) && Enabled(s, a) && Leaves(s, w)
    ensures Owns(later.row, w) ==> later.row == s.row
  {
  }

  // ---- What a release goes by ----

  predicate Early(pc: Box.Pc<Output, Checkpoint>) {
    pc.Received? || pc.Processing? || pc.Staging? || pc.Reading?
  }

  /** The row has been read, to renew the lease or to release it. */
  predicate HasRead(sync: Sync) {
    sync.RenewRead? || sync.FailRead?
  }

  /** The snapshot that a release goes by shows the row, as long as the owner is in it. */
  ghost predicate ReleaseOk(s: State, w: nat) {
    && (w in s.syncs && HasRead(s.syncs[w]) && Owns(s.row, w) ==> s.row == s.syncs[w].entity)
    && (w in s.box.workers && Box.HasResult(s.box.workers[w]) && s.box.workers[w].result.checkpoint.Some? ==>
          && s.box.workers[w].result.checkpoint.value.owner == w && w in s.syncs && s.syncs[w].Finished?)
    && (w in s.settling ==> w in s.box.workers && !Early(s.box.workers[w]))
    && (LosingLease(s, w) && w in s.settling && Owns(s.row, w) ==> s.row == s.settling[w].1)
  }

  lemma OwnReadersRead(s: State, a: Action, w: nat)
    requires Enabled(s, a) && (a == ReadForRelease(w) || a == ReadForRenew(w))
    ensures Next(s, a).syncs[w].entity == s.row == Next(s, a).row
  {
  }

  lemma OwnMovesReadNothing(s: State, a: Action, w: nat)
    requires Enabled(s, a)
    requires (a.StartSync? || a.ReadCursor? || a.ListChanges? || a.Fail? || a.ReadForAcquire?) && a.w == w
    ensures !HasRead(Next(s, a).syncs[w])
  {
  }

  lemma ReadersSeeTheRow(s: State, a: Action, later: State, w: nat)
    requires ReleaseOk(s, w) && Enabled(s, a) && later == Next(s, a) && RowStep(s, a, later)
    ensures w in later.syncs && HasRead(later.syncs[w]) && Owns(later.row, w) ==> later.row == later.syncs[w].entity
  {
    if w in later.syncs && HasRead(later.syncs[w]) {
      if a == ReadForRelease(w) || a == ReadForRenew(w) {
        OwnReadersRead(s, a, w);
      } else {
        if w !in s.syncs || later.syncs[w] != s.syncs[w] {
          SyncsMoveAlone(s, a, w);
          if a.WriteAcquire? || a.WriteRenew? || a.WriteRelease? {
            OwnWriteMoves(s, a, later, w);
          } else {
            OwnMovesReadNothing(s, a, w);
          }
        }
        if a == WriteAcquire(w) || (a.WriteRenew? && a.w == w) {
          OwnWriteMoves(s, a, later, w);
        }
      }
    }
  }

  lemma FinishersOwnResults(s: State, a: Action)
    requires Enabled(s, a)
    ensures match StepOfBox(s, a)
      case Some(Finish(w, r)) =>
        r.checkpoint.Some? ==>
          r.checkpoint.value.owner == w && w in Next(s, a).syncs && Next(s, a).syncs[w].Finished?
      case _ => true
  {
  }

  lemma ResultsAreOwn(s: State, a: Action, later: State, w: nat)
    requires ReleaseOk(s, w) && Enabled(s, a) && later == Next(s, a)
    ensures w in later.box.workers && Box.HasResult(later.box.workers[w])
            && later.box.workers[w].result.checkpoint.Some? ==>
      later.box.workers[w].result.checkpoint.value.owner == w && w in later.syncs && later.syncs[w].Finished?
  {
    BoxFollows(s, a);
    FinishersOwnResults(s, a);
    if w in later.box.workers && Box.HasResult(later.box.workers[w]) {
      if StepOfBox(s, a).Some? {
        Box.ResultsOnlyMove(s.box, StepOfBox(s, a).value, w);
      }
      if Leaves(s, w) {
        LeaversStay(s, a, later, w);
      }
    }
  }

  lemma LateStaysLate(box: Box.State<Output, Checkpoint>, step: BoxAction, w: nat)
    requires Box.Enabled(box, step) && w in box.workers && !Early(box.workers[w])
    ensures w in Box.Next(box, step).workers && !Early(Box.Next(box, step).workers[w])
  {
  }

  lemma SettlersBegin(s: State, a: Action, w: nat)
    requires Enabled(s, a) && w in Next(s, a).settling && w !in s.settling
    ensures w in s.box.workers && !Early(s.box.workers[w]) && StepOfBox(s, a).None?
  {
  }

  lemma SettlersAreLate(s: State, a: Action, later: State, w: nat)
    requires ReleaseOk(s, w) && Enabled(s, a) && later == Next(s, a)
    ensures w in later.settling ==> w in later.box.workers && !Early(later.box.workers[w])
  {
    if w in later.settling {
      BoxFollows(s, a);
      if w !in s.settling {
        SettlersBegin(s, a, w);
      } else if StepOfBox(s, a).Some? {
        LateStaysLate(s.box, StepOfBox(s, a).value, w);
      }
    }
  }

  lemma AbandonersReadBack(box: Box.State<Output, Checkpoint>, step: BoxAction, w: nat)
    requires Box.Enabled(box, step) && w in Box.Next(box, step).workers && Box.Next(box, step).workers[w].Abandoning?
    ensures w in box.workers && (box.workers[w].Reading? || box.workers[w] == Box.Next(box, step).workers[w])
  {
  }

  lemma NewLosersWereEarly(s: State, a: Action, w: nat)
    requires Enabled(s, a) && LosingLease(Next(s, a), w) && !LosingLease(s, w)
    ensures w in s.box.workers && Early(s.box.workers[w]) && StepOfBox(s, a).Some?
  {
    BoxFollows(s, a);
    if StepOfBox(s, a).Some? {
      AbandonersReadBack(s.box, StepOfBox(s, a).value, w);
    }
  }

  lemma KeptSnapshots(s: State, a: Action, w: nat)
    requires Enabled(s, a) && w in Next(s, a).settling && LosingLease(s, w)
    ensures if a == ReadForAbandon(w) then Next(s, a).settling[w].1 == Next(s, a).row
      else w in s.settling && Next(s, a).settling[w] == s.settling[w]
  {
  }

  lemma LosersSeeTheRow(s: State, a: Action, later: State, w: nat)
    requires ReleaseOk(s, w) && Enabled(s, a) && later == Next(s, a) && RowStep(s, a, later)
    ensures LosingLease(later, w) && w in later.settling && Owns(later.row, w) ==> later.row == later.settling[w].1
  {
    if LosingLease(later, w) && w in later.settling && Owns(later.row, w) {
      if LosingLease(s, w) {
        LeaversGainNothing(s, a, later, w);
        KeptSnapshots(s, a, w);
      } else {
        NewLosersWereEarly(s, a, w);
        if w !in s.settling {
          SettlersBegin(s, a, w);
        }
      }
    }
  }

  lemma {:induction false} ReachableReleases(trace: seq<State>, actions: seq<Action>, i: nat, w: nat)
    requires Run(trace, actions) && i < |trace|
    ensures ReleaseOk(trace[i], w)
  {
    if i > 0 {
      var s, a := trace[i - 1], actions[i - 1];
      ReachableReleases(trace, actions, i - 1, w);
      ReachableInv(trace, actions, i - 1);
      StepIsRowStep(s, a);
      ReadersSeeTheRow(s, a, trace[i], w);
      ResultsAreOwn(s, a, trace[i], w);
      SettlersAreLate(s, a, trace[i], w);
      LosersSeeTheRow(s, a, trace[i], w);
    }
  }

  // ---- The renewal ----

  lemma RenewalDecides(s: State, w: nat, now: int)
    requires Enabled(s, WriteRenew(w, now)) && ReleaseOk(s, w) && SyncOk(s, w, s.syncs[w])
    ensures var later := Next(s, WriteRenew(w, now));
      if Owns(s.row, w) then
        && Owns(later.row, w) && later.row.value.until == Some(now + 720)
        && later.box.workers[w].Staging? && later.box.workers[w].result.output == s.syncs[w].delta
      else later.row == s.row && later.box == s.box && later.syncs[w] == Failing
  {
  }

  /**
   * A listed delta becomes a result if and only if its owner still has the lease when it renews it, for another 720
   * seconds; otherwise the `process` call fails, whatever it has listed.
   */
  lemma ResultsNeedTheLease(trace: seq<State>, actions: seq<Action>, i: nat)
    requires Run(trace, actions) && i < |actions| && actions[i].WriteRenew?
    ensures var (s, later, w) := (trace[i], trace[i + 1], actions[i].w);
      if Owns(s.row, w) then
        && Owns(later.row, w) && later.row.value.until == Some(actions[i].now + 720)
        && later.box.workers[w].Staging? && later.box.workers[w].result.output == s.syncs[w].delta
      else later.row == s.row && later.box == s.box && later.syncs[w] == Failing
  {
    ReachableInv(trace, actions, i);
    ReachableReleases(trace, actions, i, actions[i].w);
    RenewalDecides(trace[i], actions[i].w, actions[i].now);
  }

  /** A worker that has begun to synchronise has no result but its delta. */
  predicate BringsDelta(s: State, w: nat) {
    w in s.syncs && w in s.box.workers && Box.HasResult(s.box.workers[w]) ==>
      s.box.workers[w].result.checkpoint.Some?
  }

  lemma FinishersBringDeltas(s: State, a: Action, w: nat)
    requires Enabled(s, a)
    ensures match StepOfBox(s, a)
      case Some(Finish(v, r)) => v == w && w in Next(s, a).syncs ==> r.checkpoint.Some?
      case _ => true
    ensures w in Next(s, a).syncs && w !in s.syncs ==> InProcess(s, w) && Next(s, a).box == s.box
  {
  }

  lemma DeltaIsBrought(s: State, a: Action, later: State, w: nat)
    requires BringsDelta(s, w) && Enabled(s, a) && later == Next(s, a)
    ensures BringsDelta(later, w)
  {
    BoxFollows(s, a);
    FinishersBringDeltas(s, a, w);
    if w in later.syncs && w in later.box.workers && Box.HasResult(later.box.workers[w]) && StepOfBox(s, a).Some? {
      Box.ResultsOnlyMove(s.box, StepOfBox(s, a).value, w);
    }
  }

  /** In every run, the result of a worker that has begun to synchronise is a delta, reported as the log has it. */
  lemma {:induction false} SyncsBringDeltas(trace: seq<State>, actions: seq<Action>, i: nat, w: nat)
    requires Run(trace, actions) && i < |trace|
    ensures BringsDelta(trace[i], w)
    ensures w in trace[i].syncs && w in trace[i].box.workers && Box.HasResult(trace[i].box.workers[w]) ==>
      var delta := trace[i].box.workers[w].result.output;
      && delta.Delta? && delta.from <= delta.to <= |trace[i].log|
      && delta.changes == Collapsed(trace[i].log[delta.from..delta.to])
  {
    ReachableInv(trace, actions, i);
    if i > 0 {
      SyncsBringDeltas(trace, actions, i - 1, w);
      DeltaIsBrought(trace[i - 1], actions[i - 1], trace[i], w);
    }
    if w in trace[i].box.workers {
      assert PcOk(trace[i], trace[i].box.workers[w]);
    }
  }

  // ---- The release ----

  /** The last step of a failed `process` by the owner, or of a result of its own that has lost. */
  predicate LetsGoOf(s: State, a: Action, w: nat) {
    Enabled(s, a) && ((a.WriteRelease? && a.w == w) || (a.WriteAbandon? && a.w == w))
  }

  lemma ReleaseTakesEffect(s: State, a: Action, w: nat)
    requires LetsGoOf(s, a, w) && ReleaseOk(s, w)
    ensures Leaves(Next(s, a), w) && !Owns(Next(s, a).row, w)
  {
  }

  lemma GoneStaysGone(s: State, a: Action, later: State, w: nat)
    requires Enabled(s, a) && later == Next(s, a) && RowStep(s, a, later) && Leaves(s, w) && !Owns(s.row, w)
    ensures Leaves(later, w) && !Owns(later.row, w)
  {
    LeaversStay(s, a, later, w);
    LeaversGainNothing(s, a, later, w);
  }

  lemma ReleasedAt(trace: seq<State>, actions: seq<Action>, i: nat, w: nat)
    requires Run(trace, actions) && i < |actions| && LetsGoOf(trace[i], actions[i], w)
    ensures Leaves(trace[i + 1], w) && !Owns(trace[i + 1].row, w)
  {
    ReachableReleases(trace, actions, i, w);
    ReleaseTakesEffect(trace[i], actions[i], w);
  }

  lemma GoneAt(trace: seq<State>, actions: seq<Action>, i: nat, w: nat)
    requires Run(trace, actions) && i < |actions| && Leaves(trace[i], w) && !Owns(trace[i].row, w)
    ensures Leaves(trace[i + 1], w) && !Owns(trace[i + 1].row, w)
  {
    var s, a := trace[i], actions[i];
    ReachableInv(trace, actions, i);
    StepIsRowStep(s, a);
    GoneStaysGone(s, a, trace[i + 1], w);
  }

  /** Whoever has failed, or has abandoned a losing result, is never the owner of the lease again. */
  lemma {:induction false} LosersLetGo(trace: seq<State>, actions: seq<Action>, i: nat, j: nat, w: nat)
    requires Run(trace, actions) && i < j < |trace| && LetsGoOf(trace[i], actions[i], w)
    ensures Leaves(trace[j], w) && !Owns(trace[j].row, w)
    decreases j
  {
    if j == i + 1 {
      ReleasedAt(trace, actions, i, w);
    } else {
      LosersLetGo(trace, actions, i, j - 1, w);
      GoneAt(trace, actions, j - 1, w);
    }
  }

  // ---- Nothing is settled without its commit or its release ----

  /** The worker has tried the commit of the delta that it has published. */
  ghost predicate TriedCommit(actions: seq<Action>, i: nat, w: nat) {
    exists k | 0 <= k < |actions| && k < i :: actions[k].WriteCommit? && actions[k].w == w
  }

  /** The worker is past the acknowledgement of a delta. */
  predicate HasAcknowledged(s: State, w: nat) {
    && w in s.box.workers && s.box.workers[w].Acknowledged?
    && s.box.workers[w].content.Private? && s.box.workers[w].content.result.checkpoint.Some?
  }

  predicate IsOver(s: State, w: nat) {
    w in s.box.workers && s.box.workers[w].Over?
  }

  lemma AcknowledgersCommit(s: State, a: Action, w: nat)
    requires Enabled(s, a)
    ensures HasAcknowledged(Next(s, a), w) ==> HasAcknowledged(s, w) || (a.WriteCommit? && a.w == w)
    ensures LosingLease(s, w) ==>
      LosingLease(Next(s, a), w) || IsOver(Next(s, a), w) || (a.WriteAbandon? && a.w == w)
  {
    BoxFollows(s, a);
  }

  /**
   * A delta is acknowledged, and then marked sent, only after its commit was tried; and a delta that lost is left,
   * short of a crash, only by the release of its lease.
   */
  lemma {:induction false} DeltasAreSettled(trace: seq<State>, actions: seq<Action>, i: nat, w: nat)
    requires Run(trace, actions) && i < |trace|
    ensures HasAcknowledged(trace[i], w) ==> TriedCommit(actions, i, w)
    ensures i < |actions| && LosingLease(trace[i], w) ==>
      || LosingLease(trace[i + 1], w) || IsOver(trace[i + 1], w)
      || (actions[i].WriteAbandon? && actions[i].w == w)
  {
    if i > 0 {
      DeltasAreSettled(trace, actions, i - 1, w);
      AcknowledgersCommit(trace[i - 1], actions[i - 1], w);
    }
    if i < |actions| {
      AcknowledgersCommit(trace[i], actions[i], w);
    }
  }

  /** An expired delta token costs a full listing, and loses nothing: it replays as all of the log that was listed. */
  lemma ExpiredTokensListEverything(s: State, w: nat, to: nat, replica: Replica)
    requires Enabled(s, ListChanges(w, true, to))
    ensures var listed := Next(s, ListChanges(w, true, to)).syncs[w];
      && listed.Listed? && listed.delta.Delta? && listed.delta.to == to
      && Replay(replica, listed.delta.changes) == Replay(replica, s.log[..to])
  {
    assert s.log[0..to] == s.log[..to];
    CollapsePreservesReplay(replica, s.log[..to]);
  }
}
