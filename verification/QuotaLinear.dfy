/** Concurrent quota calls and `Quota.Allow`: linearizability, its exact limits, and when a refusal is justified. */
module QuotaLinear {
  import opened Prelude
  import opened Quota
  import opened QuotaProtocol
  import opened QuotaSafety

  // ---- The answers, in the order of their linearization points ----

  /** What a step adds to the answers, and what that does to the reservations. */
  ghost predicate AnswersMove(s: State, a: Action, later: State) {
    if later.answers == s.answers then
      later.reserved == s.reserved && forall c | c in s.calls && c in later.calls ::
        later.calls[c].answeredAt == s.calls[c].answeredAt
    else
      && a.Step? && a.c in s.calls && a.c in later.calls && later.calls[a.c].answeredAt == Some(|s.answers|)
      && var (call, ok) := (s.calls[a.c], later.calls[a.c].pc == Returned(Allowed));
      && (!ok ==> later.calls[a.c].pc == Returned(Refused))
      && later.answers == s.answers + [Answer(a.c, call.partition, call.event, call.limit, ok)]
      && (!(call.pc.ReadCounter? && call.event in At(s.reserved, call.partition)) ==>
            (ok, later.reserved) == (Allow(s.reserved, call.partition, call.event, call.limit).1,
                                     Allow(s.reserved, call.partition, call.event, call.limit).0))
  }

  lemma SubmitAnswers(s: State, a: Action)
    requires Inv(s) && Enabled(s, a) && a.Step? && s.calls[a.c].pc.Submit?
    ensures AnswersMove(s, a, Next(s, a))
  {
    if Acceptable(s, a.c) {
      AcceptedCountIsCurrent(s, a.c);
    }
  }

  lemma ReadAnswers(s: State, a: Action)
    requires Conserved(s.counters, s.reserved, s.nextEtag) && Enabled(s, a) && a.Step? && !s.calls[a.c].pc.Submit?
    ensures AnswersMove(s, a, Next(s, a))
  {
    assert Conserved(s.counters, s.reserved, s.nextEtag);
  }

  /** An answer is the specification's at its own step; a refusal as long as no one else has reserved the event. */
  lemma StepAnswers(s: State, a: Action)
    requires Inv(s) && Enabled(s, a)
    ensures AnswersMove(s, a, Next(s, a))
  {
    if a.Step? && s.calls[a.c].pc.Submit? {
      SubmitAnswers(s, a);
    } else if a.Step? {
      ReadAnswers(s, a);
    }
  }

  lemma AnswerPlacesKept(s: State, a: Action, later: State, c: nat)
    requires Placed(s) && CallsMove(s, a, later) && AnswersMove(s, a, later) && c in later.calls
    requires c == a.c && !a.Invoke? ==> Active(s.calls[c])
    requires c == a.c && later.answers == s.answers ==>
      later.calls[c].pc != Returned(Allowed) && later.calls[c].pc != Returned(Refused)
    ensures AnswerOk(later, c, later.calls[c])
  {
    if c in s.calls {
      assert AnswerOk(s, c, s.calls[c]);
    }
  }

  lemma AnswersComeWithReturns(s: State, a: Action)
    requires Enabled(s, a) && Next(s, a).answers == s.answers
    ensures Next(s, a).calls[a.c].pc != Returned(Allowed) && Next(s, a).calls[a.c].pc != Returned(Refused)
  {
  }

  lemma StepKeepsAnswerPlaces(s: State, a: Action, later: State)
    requires Placed(s) && Inv(s) && Enabled(s, a) && later == Next(s, a)
    ensures forall c | c in later.calls :: AnswerOk(later, c, later.calls[c])
  {
    StepMovesCalls(s, a);
    StepAnswers(s, a);
    forall c | c in later.calls ensures AnswerOk(later, c, later.calls[c]) {
      if later.answers == s.answers {
        AnswersComeWithReturns(s, a);
      }
      AnswerPlacesKept(s, a, later, c);
    }
  }

  lemma PlacedAnswersKept(s: State, a: Action, later: State)
    requires Placed(s) && CallsMove(s, a, later) && AnswersMove(s, a, later)
    requires !a.Invoke? ==> a.c in s.calls && Active(s.calls[a.c])
    ensures forall k | 0 <= k < |later.answers| ::
      later.answers[k].call in later.calls && later.calls[later.answers[k].call].answeredAt == Some(k)
  {
    forall k | 0 <= k < |later.answers|
      ensures later.answers[k].call in later.calls && later.calls[later.answers[k].call].answeredAt == Some(k)
    {
      if k < |s.answers| {
        assert later.answers[k] == s.answers[k];
        assert AnswerOk(s, s.answers[k].call, s.calls[s.answers[k].call]);
      }
    }
  }

  lemma StepKeepsPlaced(s: State, a: Action)
    requires Inv(s) && Placed(s) && Enabled(s, a)
    ensures Placed(Next(s, a))
  {
    StepKeepsAnswerPlaces(s, a, Next(s, a));
    StepMovesCalls(s, a);
    StepAnswers(s, a);
    PlacedAnswersKept(s, a, Next(s, a));
  }

  /** In every run each answered call has exactly one place among the answers, between its beginning and its end. */
  lemma {:induction false} AnswersHavePlaces(trace: seq<State>, actions: seq<Action>, i: nat)
    requires Run(trace, actions) && i < |trace|
    ensures Placed(trace[i])
    ensures forall j, k | 0 <= j < k < |trace[i].answers| :: trace[i].answers[j].call != trace[i].answers[k].call
  {
    if i > 0 {
      AnswersHavePlaces(trace, actions, i - 1);
      ReachableInv(trace, actions, i - 1);
      StepKeepsPlaced(trace[i - 1], actions[i - 1]);
    }
  }

  lemma StepAccumulates(s: State, a: Action)
    requires Inv(s) && Enabled(s, a)
    ensures var later := Next(s, a);
      && s.answers <= later.answers
      && (forall c | c in s.calls :: c in later.calls && later.calls[c].answersBefore == s.calls[c].answersBefore
            && (s.calls[c].answeredAt.Some? ==> later.calls[c].answeredAt == s.calls[c].answeredAt))
      && (forall d | d in later.calls && d !in s.calls :: later.calls[d].answersBefore == |s.answers|)
  {
    StepMovesCalls(s, a);
    StepAnswers(s, a);
    if a.c in s.calls {
      assert CallOk(s, a.c, s.calls[a.c]);
    }
  }

  lemma {:induction false} AnswersAccumulate(trace: seq<State>, actions: seq<Action>, i: nat, j: nat)
    requires Run(trace, actions) && i <= j < |trace|
    ensures trace[i].answers <= trace[j].answers
    ensures forall c | c in trace[i].calls ::
      c in trace[j].calls && (trace[i].calls[c].answeredAt.Some? ==>
        trace[j].calls[c].answeredAt == trace[i].calls[c].answeredAt)
    ensures forall d | d in trace[j].calls && d !in trace[i].calls ::
      trace[j].calls[d].answersBefore >= |trace[i].answers|
    decreases j
  {
    if i < j {
      AnswersAccumulate(trace, actions, i, j - 1);
      ReachableInv(trace, actions, j - 1);
      StepAccumulates(trace[j - 1], actions[j - 1]);
    }
  }

  /** Real time is respected, in every run: a call that has its answer precedes every call that begins later. */
  lemma OrderRespectsRealTime(trace: seq<State>, actions: seq<Action>, i: nat, j: nat, c: nat, d: nat)
    requires Run(trace, actions) && i <= j < |trace|
    requires c in trace[i].calls && trace[i].calls[c].answeredAt.Some?
    requires d !in trace[i].calls && d in trace[j].calls
    ensures c in trace[j].calls && trace[j].calls[c].answeredAt.Some?
    ensures trace[j].calls[c].answeredAt.value < trace[j].calls[d].answersBefore
    ensures trace[j].calls[d].answeredAt.Some? ==>
      trace[j].calls[c].answeredAt.value < trace[j].calls[d].answeredAt.value
  {
    AnswersAccumulate(trace, actions, i, j);
    AnswersHavePlaces(trace, actions, i);
    AnswersHavePlaces(trace, actions, j);
    assert AnswerOk(trace[i], c, trace[i].calls[c]) && AnswerOk(trace[j], d, trace[j].calls[d]);
  }

  // ---- Exactly which runs follow the specification in this order ----

  lemma AppendedAnswer(answers: seq<Answer>, a: Answer)
    requires AnswersFollowSpec(answers) && a.ok == SpecAnswer(answers, a)
    ensures AnswersFollowSpec(answers + [a])
    ensures SpecState(answers + [a]) == Allow(SpecState(answers), a.partition, a.event, a.limit).0
  {
    var all := answers + [a];
    assert all[..|answers|] == answers;
    forall k | 0 <= k < |all| ensures all[k].ok == SpecAnswer(all[..k], all[k]) {
      if k < |answers| {
        assert all[..k] == answers[..k];
      }
    }
  }

  /** The step refuses a call whose event has come to be reserved since the call read its absent row. */
  ghost predicate StaleRefusal(s: State, a: Action) {
    && Enabled(s, a) && a.Step? && s.calls[a.c].pc.ReadCounter?
    && s.calls[a.c].event in At(s.reserved, s.calls[a.c].partition)
    && Next(s, a).calls[a.c].pc == Returned(Refused)
  }

  ghost predicate Following(s: State) {
    AnswersFollowSpec(s.answers) && s.reserved == SpecState(s.answers)
  }

  lemma FreshStepFollows(s: State, a: Action)
    requires Inv(s) && Enabled(s, a) && Following(s) && !StaleRefusal(s, a)
    ensures Following(Next(s, a))
  {
    StepAnswers(s, a);
    var later := Next(s, a);
    if later.answers != s.answers {
      AppendedAnswer(s.answers, later.answers[|s.answers|]);
    }
  }

  lemma StaleStepBreaks(s: State, a: Action)
    requires Inv(s) && Enabled(s, a) && s.reserved == SpecState(s.answers) && StaleRefusal(s, a)
    ensures !AnswersFollowSpec(Next(s, a).answers)
  {
    var later := Next(s, a);
    assert later.answers[..|s.answers|] == s.answers;
    assert later.answers[|s.answers|].ok != SpecAnswer(s.answers, later.answers[|s.answers|]);
  }

  lemma LongerAnswersFollow(answers: seq<Answer>, more: seq<Answer>)
    requires answers <= more && AnswersFollowSpec(more)
    ensures AnswersFollowSpec(answers)
  {
    forall k | 0 <= k < |answers| ensures answers[k].ok == SpecAnswer(answers[..k], answers[k]) {
      assert more[..k] == answers[..k] && more[k] == answers[k];
    }
  }

  lemma StepFollowsUnlessStale(s: State, a: Action, later: State)
    requires Inv(s) && Enabled(s, a) && later == Next(s, a)
    requires AnswersFollowSpec(s.answers) ==> s.reserved == SpecState(s.answers)
    ensures AnswersFollowSpec(later.answers) <==> AnswersFollowSpec(s.answers) && !StaleRefusal(s, a)
    ensures AnswersFollowSpec(later.answers) ==> later.reserved == SpecState(later.answers)
  {
    if AnswersFollowSpec(s.answers) {
      if StaleRefusal(s, a) {
        StaleStepBreaks(s, a);
      } else {
        FreshStepFollows(s, a);
      }
    } else if AnswersFollowSpec(later.answers) {
      StepAccumulates(s, a);
      LongerAnswersFollow(s.answers, later.answers);
    }
  }

  /** None of the first `i` steps is a stale refusal. */
  ghost predicate NoneStale(trace: seq<State>, actions: seq<Action>, i: nat)
    requires i <= |actions| <= |trace|
  {
    forall k | 0 <= k < i :: !StaleRefusal(trace[k], actions[k])
  }

  lemma NoneStaleNext(trace: seq<State>, actions: seq<Action>, i: nat)
    requires 1 <= i <= |actions| <= |trace|
    ensures NoneStale(trace, actions, i)
       <==> NoneStale(trace, actions, i - 1) && !StaleRefusal(trace[i - 1], actions[i - 1])
  {
  }

  lemma StepAt(trace: seq<State>, actions: seq<Action>, i: nat) returns (s: State, a: Action)
    requires Run(trace, actions) && i < |actions|
    ensures s == trace[i] && a == actions[i] && Inv(s) && Enabled(s, a) && trace[i + 1] == Next(s, a)
  {
    s, a := trace[i], actions[i];
    ReachableInv(trace, actions, i);
  }

  /**
   * In any run, whatever the limits and however calls overlap, the answers are those of the sequential
   * specification if and only if no refusal finds its own event reserved when it reads the counter; and
   * then the specification ends in the table's reservations.
   */
  lemma {:induction false} OnlyStaleRefusalsDeviate(trace: seq<State>, actions: seq<Action>, i: nat)
    requires Run(trace, actions) && i < |trace|
    ensures AnswersFollowSpec(trace[i].answers) <==> NoneStale(trace, actions, i)
    ensures AnswersFollowSpec(trace[i].answers) ==> trace[i].reserved == SpecState(trace[i].answers)
  {
    if i > 0 {
      OnlyStaleRefusalsDeviate(trace, actions, i - 1);
      NoneStaleNext(trace, actions, i);
      var s, a := StepAt(trace, actions, i - 1);
      StepFollowsUnlessStale(s, a, trace[i]);
    }
  }

  // ---- Calls that do not overlap ----

  /** Between its row read and its transaction, a call's event stays unreserved: nobody else wants it. */
  lemma StepKeepsRowsAbsent(s: State, a: Action, c: nat)
    requires RowsAbsent(s) && Quiet(s) && Enabled(s, a) && c in Next(s, a).calls
    requires Next(s, a).calls[c].pc.ReadCounter? || Next(s, a).calls[c].pc.Submit?
    ensures Next(s, a).calls[c].event !in At(Next(s, a).reserved, Next(s, a).calls[c].partition)
  {
    StepMovesTables(s, a);
    StepMovesCalls(s, a);
    if c != a.c {
      assert c in s.calls && Active(s.calls[c]);
      assert a.Step? ==> Active(s.calls[a.c]);
    }
  }

  lemma StepKeepsRows(s: State, a: Action)
    requires RowsAbsent(s) && Quiet(s) && Enabled(s, a)
    ensures RowsAbsent(Next(s, a))
  {
    forall c | c in Next(s, a).calls && (Next(s, a).calls[c].pc.ReadCounter? || Next(s, a).calls[c].pc.Submit?)
      ensures Next(s, a).calls[c].event !in At(Next(s, a).reserved, Next(s, a).calls[c].partition)
    {
      StepKeepsRowsAbsent(s, a, c);
    }
  }

  ghost predicate QuietRun(trace: seq<State>, actions: seq<Action>) {
    Run(trace, actions) && forall i | 0 <= i < |trace| :: Quiet(trace[i])
  }

  lemma {:induction false} QuietRunsKeepRows(trace: seq<State>, actions: seq<Action>, i: nat)
    requires QuietRun(trace, actions) && i < |trace|
    ensures RowsAbsent(trace[i])
  {
    if i > 0 {
      QuietRunsKeepRows(trace, actions, i - 1);
      StepKeepsRows(trace[i - 1], actions[i - 1]);
    }
  }

  /**
   * In a run where no two calls for one event of one repository-day overlap, no refusal is stale, and so the
   * answers are those of the sequential specification, which ends in the very reservations of the table.
   */
  lemma AnswersAreSequential(trace: seq<State>, actions: seq<Action>, i: nat)
    requires QuietRun(trace, actions) && i < |trace|
    ensures NoneStale(trace, actions, i)
    ensures AnswersFollowSpec(trace[i].answers) && SpecState(trace[i].answers) == trace[i].reserved
  {
    forall k | 0 <= k < i ensures !StaleRefusal(trace[k], actions[k]) {
      QuietRunsKeepRows(trace, actions, k);
    }
    OnlyStaleRefusalsDeviate(trace, actions, i);
  }

  // ---- Linearizability under shared limits ----

  predicate IsAnswerTo(a: Answer, call: Call) {
    a.partition == call.partition && a.event == call.event && a.limit == call.limit
  }

  /**
   * The order explains the run so far: it holds every answer given, perhaps with answers to calls that have
   * none yet, no call twice, and is what the sequential specification answers.
   */
  ghost predicate Explains(s: State, order: seq<Answer>) {
    && AnswersFollowSpec(order)
    && (forall a | a in s.answers :: a in order)
    && (forall k | 0 <= k < |order| :: order[k].call in s.calls && IsAnswerTo(order[k], s.calls[order[k].call]))
    && (forall j, k | 0 <= j < k < |order| :: order[j].call != order[k].call)
  }

  /** The call has its answer before the other begins. */
  predicate Precedes(first: Call, second: Call) {
    first.answeredAt.Some? && first.answeredAt.value < second.answersBefore
  }

  ghost predicate InRealTime(s: State, order: seq<Answer>) {
    forall j, k | 0 <= j < |order| && 0 <= k < |order| && order[j].call in s.calls && order[k].call in s.calls
                  && Precedes(s.calls[order[j].call], s.calls[order[k].call]) :: j < k
  }

  ghost predicate Linearizable(s: State) {
    exists order :: Explains(s, order) && InRealTime(s, order)
  }

  /** All callers of a repository-day have one limit. */
  ghost predicate SharedLimits(s: State) {
    forall c, d | c in s.calls && d in s.calls && s.calls[c].partition == s.calls[d].partition ::
      s.calls[c].limit == s.calls[d].limit
  }

  lemma AnswersAreInRealTime(s: State)
    requires Placed(s)
    ensures InRealTime(s, s.answers)
    ensures forall k | 0 <= k < |s.answers| :: IsAnswerTo(s.answers[k], s.calls[s.answers[k].call])
  {
    forall k | 0 <= k < |s.answers|
      ensures AnswerOk(s, s.answers[k].call, s.calls[s.answers[k].call])
    {
    }
  }

  // A reservation has an accepted answer.

  ghost predicate Accepted(answers: seq<Answer>, p: Partition, event: string) {
    exists k | 0 <= k < |answers| :: answers[k].ok && answers[k].partition == p && answers[k].event == event
  }

  lemma StepAccepts(s: State, a: Action, p: Partition, event: string)
    requires Inv(s) && Enabled(s, a) && event in At(Next(s, a).reserved, p) && event !in At(s.reserved, p)
    ensures Accepted(Next(s, a).answers, p, event)
  {
    StepCommitsOrNot(s, a);
    var answer := Next(s, a).answers[|s.answers|];
    assert answer.ok && answer.partition == p && answer.event == event;
  }

  lemma {:induction false} ReservedWereAccepted(
    trace: seq<State>, actions: seq<Action>, i: nat, p: Partition, event: string)
    requires Run(trace, actions) && i < |trace| && event in At(trace[i].reserved, p)
    ensures Accepted(trace[i].answers, p, event)
  {
    if i > 0 {
      var s, a := StepAt(trace, actions, i - 1);
      if event in At(s.reserved, p) {
        ReservedWereAccepted(trace, actions, i - 1, p, event);
        StepAccumulates(s, a);
        var k :| 0 <= k < |s.answers| && s.answers[k].ok && s.answers[k].partition == p && s.answers[k].event == event;
        assert trace[i].answers[k] == s.answers[k];
      } else {
        StepAccepts(s, a, p, event);
      }
    }
  }

  // No order can refuse an event and accept it elsewhere.

  ghost predicate LimitedBy(order: seq<Answer>, p: Partition, limit: nat) {
    forall k | 0 <= k < |order| && order[k].partition == p :: order[k].limit == limit
  }

  lemma SpecNext(order: seq<Answer>, k: nat)
    requires k < |order|
    ensures SpecState(order[..k + 1])
         == Allow(SpecState(order[..k]), order[k].partition, order[k].event, order[k].limit).0
  {
    assert order[..k + 1][..k] == order[..k] && order[..k + 1][k] == order[k];
  }

  lemma FullNext(reserved: Reserved, a: Answer, p: Partition, event: string, limit: nat)
    requires a.partition == p ==> a.limit == limit
    ensures var later := Allow(reserved, a.partition, a.event, a.limit).0;
      && At(reserved, p) <= At(later, p)
      && (|At(reserved, p)| >= limit ==> At(later, p) == At(reserved, p))
  {
  }

  /** Once the event is in, it stays in; and once the day is full without it, it stays out. */
  lemma {:induction false} FullStaysFull(order: seq<Answer>, j: nat, k: nat, p: Partition, event: string, limit: nat)
    requires j <= k <= |order| && LimitedBy(order, p, limit)
    ensures event in At(SpecState(order[..j]), p) ==> event in At(SpecState(order[..k]), p)
    ensures |At(SpecState(order[..j]), p)| >= limit && event !in At(SpecState(order[..j]), p) ==>
      |At(SpecState(order[..k]), p)| >= limit && event !in At(SpecState(order[..k]), p)
    decreases k
  {
    if j < k {
      FullStaysFull(order, j, k - 1, p, event, limit);
      SpecNext(order, k - 1);
      FullNext(SpecState(order[..k - 1]), order[k - 1], p, event, limit);
    }
  }

  lemma NoOrderTurnsBack(order: seq<Answer>, j: nat, k: nat)
    requires AnswersFollowSpec(order) && j < |order| && k < |order|
    requires order[j].partition == order[k].partition && order[j].event == order[k].event
    requires LimitedBy(order, order[j].partition, order[j].limit)
    ensures order[j].ok ==> order[k].ok
  {
    var (p, event, limit) := (order[j].partition, order[j].event, order[j].limit);
    SpecNext(order, j);
    SpecNext(order, k);
    if j < k {
      FullStaysFull(order, j + 1, k, p, event, limit);
    } else {
      FullStaysFull(order, k, j, p, event, limit);
    }
  }

  lemma StaleRefusalIsAnswered(s: State, a: Action)
    requires Enabled(s, a) && StaleRefusal(s, a)
    ensures var call := s.calls[a.c];
      Next(s, a).answers == s.answers + [Answer(a.c, call.partition, call.event, call.limit, false)]
      && Next(s, a).reserved == s.reserved
  {
  }

  /** A stale refusal leaves a refusal and an acceptance of one event among the answers. */
  lemma StaleRefusalConflicts(trace: seq<State>, actions: seq<Action>, i: nat, k: nat)
    returns (refused: Answer, accepted: Answer)
    requires Run(trace, actions) && k < i < |trace| && StaleRefusal(trace[k], actions[k])
    ensures refused in trace[i].answers && accepted in trace[i].answers && !refused.ok && accepted.ok
    ensures refused.partition == accepted.partition && refused.event == accepted.event
  {
    var s, a := StepAt(trace, actions, k);
    var call := s.calls[a.c];
    StaleRefusalIsAnswered(s, a);
    ReservedWereAccepted(trace, actions, k, call.partition, call.event);
    var j :| 0 <= j < |s.answers| && s.answers[j].ok && s.answers[j].partition == call.partition
      && s.answers[j].event == call.event;
    AnswersAccumulate(trace, actions, k + 1, i);
    assert trace[i].answers[j] == s.answers[j] && trace[i].answers[|s.answers|] == trace[k + 1].answers[|s.answers|];
    refused, accepted := trace[i].answers[|s.answers|], trace[i].answers[j];
  }

  lemma ConflictsHaveNoOrder(s: State, order: seq<Answer>, refused: Answer, accepted: Answer)
    requires SharedLimits(s) && refused in s.answers && accepted in s.answers && !refused.ok && accepted.ok
    requires refused.partition == accepted.partition && refused.event == accepted.event
    ensures !Explains(s, order)
  {
    if Explains(s, order) {
      var j :| 0 <= j < |order| && order[j] == accepted;
      var k :| 0 <= k < |order| && order[k] == refused;
      assert LimitedBy(order, order[j].partition, order[j].limit);
      NoOrderTurnsBack(order, j, k);
    }
  }

  /**
   * Linearizability: when the callers of a repository-day share their limit, a run is linearizable to the
   * specification if and only if none of its refusals is stale. It then is in the order of the answers, which
   * ends in the table's reservations; otherwise no order whatever explains it, in real time or not.
   */
  lemma LinearizableUnlessStale(trace: seq<State>, actions: seq<Action>, i: nat)
    requires Run(trace, actions) && i < |trace| && SharedLimits(trace[i])
    ensures Linearizable(trace[i]) <==> NoneStale(trace, actions, i)
    ensures (exists order :: Explains(trace[i], order)) <==> NoneStale(trace, actions, i)
    ensures NoneStale(trace, actions, i) ==>
      && Explains(trace[i], trace[i].answers) && InRealTime(trace[i], trace[i].answers)
      && SpecState(trace[i].answers) == trace[i].reserved
  {
    if NoneStale(trace, actions, i) {
      OnlyStaleRefusalsDeviate(trace, actions, i);
      AnswersHavePlaces(trace, actions, i);
      AnswersAreInRealTime(trace[i]);
      assert Explains(trace[i], trace[i].answers);
    } else {
      var k :| 0 <= k < i && StaleRefusal(trace[k], actions[k]);
      var refused, accepted := StaleRefusalConflicts(trace, actions, i, k);
      forall order ensures !Explains(trace[i], order) {
        ConflictsHaveNoOrder(trace[i], order, refused, accepted);
      }
    }
  }

  // ---- When a single refusal is justified ----

  lemma {:induction false} ReservationsAccumulate(commits: seq<Commit>, k: nat, p: Partition)
    requires k <= |commits|
    ensures At(ReservedAfter(commits[..k]), p) <= At(ReservedAfter(commits), p)
  {
    if k < |commits| {
      ReservationsAccumulate(commits[..|commits| - 1], k, p);
      assert commits[..|commits| - 1][..k] == commits[..k];
    } else {
      assert commits[..k] == commits;
    }
  }

  /** The specification would refuse the call at the moment when `k` reservations were committed. */
  ghost predicate RefusedThen(s: State, call: Call, k: nat)
    requires k <= |s.commits|
  {
    !Allow(ReservedAfter(s.commits[..k]), call.partition, call.event, call.limit).1
  }

  lemma RefusedThenIsRefusedNow(s: State, call: Call, k: nat)
    requires s.reserved == ReservedAfter(s.commits) && k <= |s.commits| && RefusedThen(s, call, k)
    requires |At(s.reserved, call.partition)| <= call.limit
    ensures call.event !in At(s.reserved, call.partition)
  {
    var earlier := At(ReservedAfter(s.commits[..k]), call.partition);
    ReservationsAccumulate(s.commits, k, call.partition);
    if earlier != At(s.reserved, call.partition) {
      LargerSet(earlier, At(s.reserved, call.partition));
    }
  }

  /**
   * With a limit that all callers share, a refusal is the specification's at some moment of the call
   * exactly when the call's own event has no row at the moment the counter is read.
   */
  lemma RefusalIsJustified(trace: seq<State>, actions: seq<Action>, i: nat)
    requires Run(trace, actions) && i < |actions| && actions[i].Step?
    requires trace[i].calls[actions[i].c].pc.ReadCounter?
    requires trace[i + 1].calls[actions[i].c].pc == Returned(Refused)
    requires LimitsWithin(trace[i], trace[i].calls[actions[i].c].partition, trace[i].calls[actions[i].c].limit)
    ensures var (s, call) := (trace[i], trace[i].calls[actions[i].c]);
      (exists k | call.since <= k <= |s.commits| :: RefusedThen(s, call, k)) <==>
        call.event !in At(s.reserved, call.partition)
  {
    var (s, call) := (trace[i], trace[i].calls[actions[i].c]);
    ReachableInv(trace, actions, i);
    assert CallOk(s, actions[i].c, call);
    LimitHolds(trace, actions, i, call.partition, call.limit);
    assert |At(s.reserved, call.partition)| >= call.limit;
    if call.event !in At(s.reserved, call.partition) {
      assert s.commits[..|s.commits|] == s.commits;
      assert RefusedThen(s, call, |s.commits|);
    }
    forall k | call.since <= k <= |s.commits| && RefusedThen(s, call, k)
      ensures call.event !in At(s.reserved, call.partition)
    {
      RefusedThenIsRefusedNow(s, call, k);
    }
  }
}
