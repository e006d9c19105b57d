/** Proofs about concurrent quota calls: conservation, linearizability, and why retries suffice. */
module QuotaSafety {
  import opened Prelude
  import opened Quota
  import opened QuotaProtocol

  // ---- One step ----

  /** Either no commit and the tables stay, or exactly one commit by the stepping call. */
  ghost predicate TablesMove(s: State, a: Action, later: State) {
    && later.maxRetries == s.maxRetries && s.calls.Keys <= later.calls.Keys
    && if later.commits == s.commits
       then later.counters == s.counters && later.reserved == s.reserved && later.nextEtag == s.nextEtag
       else
         && a.Step? && a.c in s.calls && s.calls[a.c].pc.Submit? && later.nextEtag == s.nextEtag + 1
         && var call := s.calls[a.c];
         && later.commits == s.commits + [Commit(a.c, call.partition, call.event)]
         && Accepts(s.counters, s.reserved, call.partition, call.event, call.pc.seen)
         && later.reserved == WithEvent(s.reserved, call.partition, call.event)
         && later.counters.Keys == s.counters.Keys + {call.partition}
         && later.counters[call.partition].etag == s.nextEtag
         && (forall q | q in s.counters && q != call.partition :: later.counters[q] == s.counters[q])
         && later.calls[a.c].pc == Returned(Allowed)
  }

  lemma StepMovesTables(s: State, a: Action)
    requires Enabled(s, a)
    ensures TablesMove(s, a, Next(s, a))
  {
  }

  /** Only the stepping call changes, and never what it was called with. */
  ghost predicate CallsMove(s: State, a: Action, later: State) {
    && (forall c | c in s.calls ::
          && c in later.calls && (c != a.c ==> later.calls[c] == s.calls[c])
          && later.calls[c].partition == s.calls[c].partition && later.calls[c].event == s.calls[c].event
          && later.calls[c].limit == s.calls[c].limit && later.calls[c].since == s.calls[c].since
          && later.calls[c].answersBefore == s.calls[c].answersBefore)
    && (a.Invoke? <==> a.c !in s.calls)
    && (forall c | c in later.calls && c !in s.calls ::
          c == a.c && later.calls[c].answersBefore == |s.answers| && later.calls[c].answeredAt.None?
            && later.calls[c].pc.ReadRow?)
  }

  lemma StepMovesCalls(s: State, a: Action)
    requires Enabled(s, a)
    ensures CallsMove(s, a, Next(s, a))
    ensures !a.Invoke? ==> Active(s.calls[a.c])
  {
  }

  predicate Acceptable(s: State, c: nat) {
    && c in s.calls && s.calls[c].pc.Submit?
    && Accepts(s.counters, s.reserved, s.calls[c].partition, s.calls[c].event, s.calls[c].pc.seen)
  }

  function CountOf(s: State, p: Partition): nat {
    if p in s.counters then s.counters[p].count else 0
  }

  /** An accepted transaction counts on from the counter as it is, below the caller's limit. */
  lemma AcceptedCountIsCurrent(s: State, c: nat)
    requires Inv(s) && Acceptable(s, c)
    ensures var (call, p) := (s.calls[c], s.calls[c].partition);
      (if call.pc.seen.Some? then call.pc.seen.value.count else 0) == CountOf(s, p) == |At(s.reserved, p)| < call.limit
  {
    assert CallOk(s, c, s.calls[c]);
  }

  lemma CommittedTables(s: State, c: nat)
    requires Conserved(s.counters, s.reserved, s.nextEtag) && s.reserved == ReservedAfter(s.commits) && Acceptable(s, c)
    requires (if s.calls[c].pc.seen.Some? then s.calls[c].pc.seen.value.count else 0) ==
      CountOf(s, s.calls[c].partition)
    ensures var later := Committed(s, c);
      Conserved(later.counters, later.reserved, later.nextEtag) && later.reserved == ReservedAfter(later.commits)
  {
    var (later, call) := (Committed(s, c), s.calls[c]);
    CommitConserves(TableState(s.counters, s.reserved, s.nextEtag), call.partition, call.event);
    assert later.commits[..|later.commits| - 1] == s.commits;
  }

  predicate SameTables(s: State, later: State) {
    && later.counters == s.counters && later.reserved == s.reserved
    && later.nextEtag == s.nextEtag && later.commits == s.commits
  }

  lemma StepCommitsOrNot(s: State, a: Action)
    requires Enabled(s, a)
    ensures !SameTables(s, Next(s, a)) ==>
      a.Step? && Acceptable(s, a.c) && SameTables(Committed(s, a.c), Next(s, a))
  {
  }

  lemma StepKeepsTables(s: State, a: Action, later: State)
    requires Inv(s) && Enabled(s, a) && later == Next(s, a)
    ensures Conserved(later.counters, later.reserved, later.nextEtag) && later.reserved == ReservedAfter(later.commits)
  {
    StepCommitsOrNot(s, a);
    if !SameTables(s, later) {
      AcceptedCountIsCurrent(s, a.c);
      CommittedTables(s, a.c);
    }
  }

  lemma InterferenceKept(s: State, later: State, c: nat, p: Partition, from: nat, to: nat)
    requires Interfered(s, c, p, from, to) && s.commits <= later.commits
    ensures forall more: nat | to <= more :: Interfered(later, c, p, from, more)
  {
    var k :| from <= k < to && k < |s.commits| && s.commits[k].partition == p && s.commits[k].call != c;
    assert later.commits[k] == s.commits[k];
  }

  /** Reading stays valid, or another call's commit has come between. */
  lemma ReadsStayOk(s: State, a: Action, later: State, c: nat)
    requires c in s.calls && CallOk(s, c, s.calls[c]) && TablesMove(s, a, later) && (a.Step? ==> a.c != c)
    requires s.calls[c].pc.ReadCounter? || s.calls[c].pc.Submit?
    ensures RowReadOk(later, c, s.calls[c])
    ensures s.calls[c].pc.Submit? ==> CounterReadOk(later, c, s.calls[c])
  {
    var call := s.calls[c];
    if Interfered(s, c, call.partition, call.attemptSince, |s.commits|) {
      InterferenceKept(s, later, c, call.partition, call.attemptSince, |s.commits|);
    } else if later.commits != s.commits && s.calls[a.c].partition == call.partition {
      assert later.commits[|s.commits|].partition == call.partition && later.commits[|s.commits|].call != c;
      assert Interfered(later, c, call.partition, call.attemptSince, |later.commits|);
    }
  }

  lemma FailuresKept(s: State, later: State, c: nat, call: Call)
    requires FailuresOk(s, c, call) && s.commits <= later.commits
    ensures forall after: Call | after.failed == call.failed && after.since == call.since
      && after.partition == call.partition
        && after.attemptSince == call.attemptSince :: FailuresOk(later, c, after)
  {
    forall k | 0 <= k < |call.failed| ensures Interfered(later, c, call.partition, call.failed[k].0, call.failed[k].1) {
      InterferenceKept(s, later, c, call.partition, call.failed[k].0, call.failed[k].1);
    }
  }

  /** A call that does not step keeps its account, whoever else commits. */
  lemma BystanderKept(s: State, a: Action, later: State, c: nat)
    requires c in s.calls && CallOk(s, c, s.calls[c]) && TablesMove(s, a, later)
    requires c in later.calls && later.calls[c] == s.calls[c] && (a.Step? ==> a.c != c)
    ensures CallOk(later, c, s.calls[c])
  {
    FailuresKept(s, later, c, s.calls[c]);
    if s.calls[c].pc.ReadCounter? || s.calls[c].pc.Submit? {
      ReadsStayOk(s, a, later, c);
    }
  }

  lemma ReaderReads(s: State, a: Action, later: State)
    requires Enabled(s, a) && !a.Invoke? && (a.Step? ==> !s.calls[a.c].pc.Submit?) && later == Next(s, a)
    ensures var (call, after) := (s.calls[a.c], later.calls[a.c]);
      && later == s.(calls := later.calls, answers := later.answers)
      && after.failed == call.failed && after.since == call.since && after.attemptSince == call.attemptSince
      && after.partition == call.partition && after.event == call.event && after.limit == call.limit
      && (Active(after) ==> after.answeredAt == call.answeredAt)
      && after.pc != Returned(Exhausted)
      && (after.pc == Returned(Allowed) || after.pc.ReadCounter? ==>
            (call.event in At(s.reserved, call.partition) <==> after.pc == Returned(Allowed)))
      && (after.pc.Submit? ==>
            && call.pc.ReadCounter?
            && after.pc.seen == (if call.partition in s.counters then Some(s.counters[call.partition]) else None)
            && (after.pc.seen.Some? ==> after.pc.seen.value.count < call.limit))
  {
  }

  lemma ReaderKept(s: State, a: Action, later: State)
    requires Enabled(s, a) && !a.Invoke? && (a.Step? ==> !s.calls[a.c].pc.Submit?) && later == Next(s, a)
    requires CallOk(s, a.c, s.calls[a.c]) && Conserved(s.counters, s.reserved, s.nextEtag)
    ensures CallOk(later, a.c, later.calls[a.c])
  {
    ReaderReads(s, a, later);
    FailuresKept(s, later, a.c, s.calls[a.c]);
  }

  lemma CommitterKept(s: State, a: Action)
    requires Inv(s) && Enabled(s, a) && a.Step? && Acceptable(s, a.c)
    ensures CallOk(Next(s, a), a.c, Next(s, a).calls[a.c])
  {
    assert CallOk(s, a.c, s.calls[a.c]);
    FailuresKept(s, Next(s, a), a.c, s.calls[a.c]);
  }

  /** A conflict is charged to another call's commit during the attempt. */
  lemma ConflictIsCharged(s: State, c: nat)
    requires c in s.calls && CallOk(s, c, s.calls[c]) && s.calls[c].pc.Submit? && !Acceptable(s, c)
    ensures Interfered(s, c, s.calls[c].partition, s.calls[c].attemptSince, |s.commits|)
  {
  }

  lemma LoserKept(s: State, a: Action, later: State)
    requires Enabled(s, a) && a.Step? && s.calls[a.c].pc.Submit? && !Acceptable(s, a.c) && later == Next(s, a)
    requires CallOk(s, a.c, s.calls[a.c])
    ensures CallOk(later, a.c, later.calls[a.c])
  {
    var call := s.calls[a.c];
    ConflictIsCharged(s, a.c);
    var after := later.calls[a.c];
    forall k | 0 <= k < |after.failed|
      ensures Interfered(later, a.c, call.partition, after.failed[k].0, after.failed[k].1)
    {
      if k < |call.failed| {
        InterferenceKept(s, later, a.c, call.partition, call.failed[k].0, call.failed[k].1);
      } else {
        InterferenceKept(s, later, a.c, call.partition, call.attemptSince, |s.commits|);
      }
    }
  }

  lemma StepperKept(s: State, a: Action)
    requires Inv(s) && Enabled(s, a) && !a.Invoke?
    ensures CallOk(Next(s, a), a.c, Next(s, a).calls[a.c])
  {
    assert CallOk(s, a.c, s.calls[a.c]);
    if !a.Step? || !s.calls[a.c].pc.Submit? {
      ReaderKept(s, a, Next(s, a));
    } else if Acceptable(s, a.c) {
      CommitterKept(s, a);
    } else {
      LoserKept(s, a, Next(s, a));
    }
  }

  lemma NewcomerOk(s: State, a: Action, c: nat)
    requires Inv(s) && Enabled(s, a) && a.Invoke? && a.c == c
    ensures CallOk(Next(s, a), c, Next(s, a).calls[c])
  {
  }

  lemma CallKept(s: State, a: Action, c: nat)
    requires Inv(s) && Enabled(s, a) && c in Next(s, a).calls
    ensures CallOk(Next(s, a), c, Next(s, a).calls[c])
  {
    StepMovesTables(s, a);
    StepMovesCalls(s, a);
    if c !in s.calls {
      NewcomerOk(s, a, c);
    } else if !a.Invoke? && c == a.c {
      StepperKept(s, a);
    } else {
      BystanderKept(s, a, Next(s, a), c);
    }
  }

  lemma StepKeepsInv(s: State, a: Action)
    requires Inv(s) && Enabled(s, a)
    ensures Inv(Next(s, a))
  {
    StepMovesTables(s, a);
    StepKeepsTables(s, a, Next(s, a));
    forall c | c in Next(s, a).calls ensures CallOk(Next(s, a), c, Next(s, a).calls[c]) {
      CallKept(s, a, c);
    }
  }

  lemma {:induction false} ReachableInv(trace: seq<State>, actions: seq<Action>, i: nat)
    requires Run(trace, actions) && i < |trace|
    ensures Inv(trace[i])
  {
    if i > 0 {
      ReachableInv(trace, actions, i - 1);
      StepKeepsInv(trace[i - 1], actions[i - 1]);
    }
  }

  /** Conservation: the counter row exists exactly when event rows do, and its count is their number. */
  lemma CounterCountsEvents(trace: seq<State>, actions: seq<Action>, i: nat, p: Partition)
    requires Run(trace, actions) && i < |trace|
    ensures p in trace[i].counters <==> At(trace[i].reserved, p) != {}
    ensures p in trace[i].counters ==> trace[i].counters[p].count == |At(trace[i].reserved, p)|
  {
    ReachableInv(trace, actions, i);
  }

  // ---- A limit that all callers of a partition share ----

  ghost predicate LimitsWithin(s: State, p: Partition, limit: nat) {
    forall c | c in s.calls && s.calls[c].partition == p :: s.calls[c].limit <= limit
  }

  lemma StepKeepsLimits(s: State, a: Action, c: nat)
    requires Enabled(s, a) && c in Next(s, a).calls
    ensures c !in s.calls ==> a.Invoke?
    ensures Next(s, a).calls[c].limit == if c in s.calls then s.calls[c].limit else a.limit
  {
  }

  lemma StepStaysWithin(s: State, a: Action, p: Partition, limit: nat)
    requires Inv(s) && Enabled(s, a) && LimitsWithin(Next(s, a), p, limit)
    requires |At(s.reserved, p)| <= limit
    ensures |At(Next(s, a).reserved, p)| <= limit
  {
    StepCommitsOrNot(s, a);
    if !SameTables(s, Next(s, a)) {
      AcceptedCountIsCurrent(s, a.c);
      assert Next(s, a).calls[a.c].limit == s.calls[a.c].limit
        && Next(s, a).calls[a.c].partition == s.calls[a.c].partition;
    }
  }

  lemma LimitsOnlyAccumulate(s: State, a: Action, p: Partition, limit: nat)
    requires Enabled(s, a) && LimitsWithin(Next(s, a), p, limit)
    ensures LimitsWithin(s, p, limit)
  {
    forall c | c in s.calls && s.calls[c].partition == p ensures s.calls[c].limit <= limit {
      assert c in Next(s, a).calls && Next(s, a).calls[c].partition == p
        && Next(s, a).calls[c].limit == s.calls[c].limit;
    }
  }

  /** The reservations of a repository-day never exceed the limit its callers share. */
  lemma {:induction false} LimitHolds(trace: seq<State>, actions: seq<Action>, i: nat, p: Partition, limit: nat)
    requires Run(trace, actions) && i < |trace| && LimitsWithin(trace[i], p, limit)
    ensures |At(trace[i].reserved, p)| <= limit
  {
    if i > 0 {
      LimitsOnlyAccumulate(trace[i - 1], actions[i - 1], p, limit);
      LimitHolds(trace, actions, i - 1, p, limit);
      ReachableInv(trace, actions, i - 1);
      StepStaysWithin(trace[i - 1], actions[i - 1], p, limit);
    }
  }

  // ---- Retries ----

  function CommitsIn(commits: seq<Commit>, p: Partition): nat {
    if commits == [] then 0
    else CommitsIn(commits[..|commits| - 1], p) + if commits[|commits| - 1].partition == p then 1 else 0
  }

  lemma {:induction false} EachCommitIsOneReservation(trace: seq<State>, actions: seq<Action>, i: nat, p: Partition)
    requires Run(trace, actions) && i < |trace|
    ensures CommitsIn(trace[i].commits, p) == |At(trace[i].reserved, p)|
  {
    if i > 0 {
      EachCommitIsOneReservation(trace, actions, i - 1, p);
      StepMovesTables(trace[i - 1], actions[i - 1]);
      if trace[i].commits != trace[i - 1].commits {
        assert trace[i].commits[..|trace[i].commits| - 1] == trace[i - 1].commits;
      }
    }
  }

  /** `places[k]` is a commit in the call's partition by another call, made during the `k`-th failed attempt. */
  ghost predicate ChargedTo(s: State, c: nat, call: Call, places: seq<nat>) {
    && |places| <= |call.failed|
    && (forall k | 0 <= k < |places| ::
          && call.failed[k].0 <= places[k] < call.failed[k].1 && places[k] < |s.commits|
          && s.commits[places[k]].partition == call.partition && s.commits[places[k]].call != c)
    && (forall j, k | 0 <= j < k < |places| :: places[j] < places[k])
  }

  lemma {:induction false} ChargesOf(s: State, c: nat, call: Call, n: nat) returns (places: seq<nat>)
    requires FailuresOk(s, c, call) && n <= |call.failed|
    ensures |places| == n && ChargedTo(s, c, call, places)
  {
    if n == 0 {
      return [];
    }
    var before := ChargesOf(s, c, call, n - 1);
    var (from, to) := call.failed[n - 1];
    assert Interfered(s, c, call.partition, from, to);
    var k :| from <= k < to && k < |s.commits| && s.commits[k].partition == call.partition && s.commits[k].call != c;
    assert forall j | 0 <= j < n - 1 :: before[j] < call.failed[j].1 <= from;
    places := before + [k];
  }

  /**
   * Every failed attempt of a call is charged to a commit that another call made during that very attempt. The
   * attempts follow each other inside the call, so the commits are all different.
   */
  lemma FailuresAreCharged(trace: seq<State>, actions: seq<Action>, i: nat, c: nat)
    requires Run(trace, actions) && i < |trace| && c in trace[i].calls
    ensures var call := trace[i].calls[c];
      && (exists places :: |places| == |call.failed| && ChargedTo(trace[i], c, call, places))
      && (forall k | 0 <= k < |call.failed| :: call.since <= call.failed[k].0 && call.failed[k].1 <= call.attemptSince)
      && (forall j, k | 0 <= j < k < |call.failed| :: call.failed[j].1 <= call.failed[k].0)
    ensures trace[i].calls[c].pc == Returned(Exhausted) ==> |trace[i].calls[c].failed| == trace[i].maxRetries
  {
    ReachableInv(trace, actions, i);
    var call := trace[i].calls[c];
    assert CallOk(trace[i], c, call);
    var places := ChargesOf(trace[i], c, call, |call.failed|);
  }

  lemma {:induction false} PlacesAreCounted(commits: seq<Commit>, p: Partition, places: seq<nat>)
    requires forall k | 0 <= k < |places| :: places[k] < |commits| && commits[places[k]].partition == p
    requires forall j, k | 0 <= j < k < |places| :: places[j] < places[k]
    ensures |places| <= CommitsIn(commits, p)
  {
    var n := |places|;
    if n > 0 {
      assert places[n - 1] < |commits|;
      var front := commits[..|commits| - 1];
      if places[n - 1] == |commits| - 1 {
        PlacesAreCounted(front, p, places[..n - 1]);
      } else {
        PlacesAreCounted(front, p, places);
      }
    }
  }

  /** With a shared limit below `max_retries`, no call ever runs out of retries. */
  lemma RetriesSuffice(trace: seq<State>, actions: seq<Action>, i: nat, c: nat, limit: nat)
    requires Run(trace, actions) && i < |trace| && c in trace[i].calls
    requires LimitsWithin(trace[i], trace[i].calls[c].partition, limit) && limit < trace[i].maxRetries
    ensures trace[i].calls[c].pc != Returned(Exhausted)
  {
    var s, call := trace[i], trace[i].calls[c];
    FailuresAreCharged(trace, actions, i, c);
    var places :| |places| == |call.failed| && ChargedTo(s, c, call, places);
    PlacesAreCounted(s.commits, call.partition, places);
    EachCommitIsOneReservation(trace, actions, i, call.partition);
    LimitHolds(trace, actions, i, call.partition, limit);
  }
}
