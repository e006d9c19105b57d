/**
 * Runs of concurrent quota calls that go wrong: calls that exhaust their retries, which happens exactly when the
 * limit that the callers share reaches `max_retries`, and calls refused although their event is accepted, with and
 * without an order that explains them.
 */
module QuotaRuns {
  import opened Prelude
  import opened Quota
  import opened QuotaProtocol
  import opened QuotaSafety
  import opened QuotaLinear

  lemma Extended(trace: seq<State>, actions: seq<Action>, a: Action) returns (longer: seq<State>, more: seq<Action>)
    requires Run(trace, actions) && Enabled(trace[|actions|], a)
    ensures Run(longer, more) && |more| == |actions| + 1
    ensures longer[|more|] == Next(trace[|actions|], a) && longer[|actions|] == trace[|actions|]
    ensures more[|actions|] == a
  {
    longer, more := trace + [Next(trace[|actions|], a)], actions + [a];
  }

  function Fresh(maxRetries: nat): State {
    State(map[], map[], 0, maxRetries, map[], [], [])
  }

  const VICTIM: nat := 0

  /** The victim's event is `Name(0)`, that of the `k`-th call in its way is `Name(k)`. */
  function Name(k: nat): string {
    seq(k + 1, _ => 'x')
  }

  ghost predicate Counted(s: State, p: Partition, k: nat) {
    && (if k == 0 then p !in s.counters
        else p in s.counters && s.counters[p].count == k && s.counters[p].etag < s.nextEtag)
    && (forall event | event in At(s.reserved, p) :: 2 <= |event| <= k + 1)
  }

  /** `k` attempts of the victim have met a conflict, each with a reservation of its own. */
  ghost predicate Stage(s: State, p: Partition, limit: nat, k: nat) {
    && (forall c | c in s.calls :: c <= k && s.calls[c].limit == limit)
    && VICTIM in s.calls && s.calls[VICTIM].partition == p && s.calls[VICTIM].event == Name(0)
    && |s.calls[VICTIM].failed| == k <= s.maxRetries
    && s.calls[VICTIM].pc == (if k == s.maxRetries then Returned(Exhausted) else ReadRow)
    && Counted(s, p, k)
  }

  /** The victim reads its absent row and the counter, and is about to submit. */
  lemma VictimReads(trace: seq<State>, actions: seq<Action>, p: Partition, limit: nat, k: nat)
    returns (longer: seq<State>, more: seq<Action>)
    requires Run(trace, actions) && Stage(trace[|actions|], p, limit, k)
    requires k < trace[|actions|].maxRetries && k < limit
    ensures Run(longer, more)
    ensures var (s, later) := (trace[|actions|], longer[|more|]);
      && later == s.(calls := later.calls) && later.calls.Keys == s.calls.Keys
      && (forall c | c in s.calls && c != VICTIM :: later.calls[c] == s.calls[c])
      && later.calls[VICTIM]
         == s.calls[VICTIM].(pc := Submit(if p in s.counters then Some(s.counters[p]) else None))
  {
    longer, more := Extended(trace, actions, Step(VICTIM));
    longer, more := Extended(longer, more, Step(VICTIM));
  }

  /** A new call enters and reads that its event is new. */
  lemma OtherReads(trace: seq<State>, actions: seq<Action>, p: Partition, event: string, limit: nat, c: nat)
    returns (longer: seq<State>, more: seq<Action>)
    requires Run(trace, actions) && limit >= 1
    requires var s := trace[|actions|];
      c !in s.calls && event !in At(s.reserved, p) && (p in s.counters ==> s.counters[p].count < limit)
    ensures Run(longer, more)
    ensures var (s, later) := (trace[|actions|], longer[|more|]);
      && c in later.calls && later == s.(calls := s.calls[c := later.calls[c]])
      && later.calls[c].partition == p && later.calls[c].event == event && later.calls[c].limit == limit
      && later.calls[c].pc == Submit(if p in s.counters then Some(s.counters[p]) else None)
      && later.calls[c].answersBefore == |s.answers|
  {
    longer, more := Extended(trace, actions, Invoke(c, p, event, limit));
    longer, more := Extended(longer, more, Step(c));
    longer, more := Extended(longer, more, Step(c));
  }

  /** The victim and call `c` have both read the same counter, and are about to submit. */
  ghost predicate BothSubmit(s: State, p: Partition, limit: nat, k: nat, c: nat) {
    var seen := if p in s.counters then Some(s.counters[p]) else None;
    && Counted(s, p, k) && (forall d | d in s.calls :: d <= k + 1 && s.calls[d].limit == limit)
    && c in s.calls && c != VICTIM && s.calls[c].partition == p && s.calls[c].event == Name(k + 1)
    && s.calls[c].pc == Submit(seen)
    && VICTIM in s.calls && s.calls[VICTIM].partition == p && s.calls[VICTIM].event == Name(0)
    && s.calls[VICTIM].pc == Submit(seen) && |s.calls[VICTIM].failed| == k < s.maxRetries
  }

  /** Its transaction goes through, and then the victim's does not. */
  lemma OtherWins(trace: seq<State>, actions: seq<Action>, p: Partition, limit: nat, k: nat, c: nat)
    returns (longer: seq<State>, more: seq<Action>)
    requires Run(trace, actions) && BothSubmit(trace[|actions|], p, limit, k, c)
    ensures Run(longer, more) && longer[|more|].maxRetries == trace[|actions|].maxRetries
    ensures Stage(longer[|more|], p, limit, k + 1)
  {
    longer, more := Extended(trace, actions, Step(c));
    assert Counted(longer[|more|], p, k + 1);
    longer, more := Extended(longer, more, Step(VICTIM));
  }

  lemma BothRead(trace: seq<State>, actions: seq<Action>, p: Partition, limit: nat, k: nat)
    returns (longer: seq<State>, more: seq<Action>)
    requires Run(trace, actions) && Stage(trace[|actions|], p, limit, k)
    requires k < trace[|actions|].maxRetries && k < limit
    ensures Run(longer, more) && longer[|more|].maxRetries == trace[|actions|].maxRetries
    ensures BothSubmit(longer[|more|], p, limit, k, k + 1)
  {
    longer, more := VictimReads(trace, actions, p, limit, k);
    assert Name(k + 1) !in At(longer[|more|].reserved, p);
    longer, more := OtherReads(longer, more, p, Name(k + 1), limit, k + 1);
  }

  lemma NextRound(trace: seq<State>, actions: seq<Action>, p: Partition, limit: nat, k: nat)
    returns (longer: seq<State>, more: seq<Action>)
    requires Run(trace, actions) && Stage(trace[|actions|], p, limit, k)
    requires k < trace[|actions|].maxRetries && k < limit
    ensures Run(longer, more) && longer[|more|].maxRetries == trace[|actions|].maxRetries
    ensures Stage(longer[|more|], p, limit, k + 1)
  {
    longer, more := BothRead(trace, actions, p, limit, k);
    longer, more := OtherWins(longer, more, p, limit, k, k + 1);
  }

  lemma {:induction false} Rounds(p: Partition, limit: nat, maxRetries: nat, k: nat)
    returns (trace: seq<State>, actions: seq<Action>)
    requires 1 <= maxRetries <= limit && k <= maxRetries
    ensures Run(trace, actions) && trace[|actions|].maxRetries == maxRetries
    ensures Stage(trace[|actions|], p, limit, k)
  {
    if k == 0 {
      trace, actions := [Fresh(maxRetries)], [];
      trace, actions := Extended(trace, actions, Invoke(VICTIM, p, Name(0), limit));
    } else {
      trace, actions := Rounds(p, limit, maxRetries, k - 1);
      trace, actions := NextRound(trace, actions, p, limit, k - 1);
    }
  }

  /** A run in which callers that share the limit in `p` exhaust the retries of one of them. */
  ghost predicate Exhausts(
    trace: seq<State>, actions: seq<Action>, c: nat, p: Partition, limit: nat, maxRetries: nat) {
    && Run(trace, actions) && trace[|actions|].maxRetries == maxRetries && LimitsWithin(trace[|actions|], p, limit)
    && c in trace[|actions|].calls && trace[|actions|].calls[c].partition == p
    && trace[|actions|].calls[c].pc == Returned(Exhausted)
  }

  /** With a shared limit of `max_retries` or more, overlapping calls can exhaust the retries. */
  lemma ExhaustionIsReachable(p: Partition, limit: nat, maxRetries: nat)
    returns (trace: seq<State>, actions: seq<Action>)
    requires 1 <= maxRetries <= limit
    ensures Exhausts(trace, actions, VICTIM, p, limit, maxRetries)
    ensures forall c | c in trace[|actions|].calls :: trace[|actions|].calls[c].limit == limit
  {
    trace, actions := Rounds(p, limit, maxRetries, maxRetries);
  }

  /** The exhaustion error can occur if and only if the shared limit is not below `max_retries`. */
  lemma ExhaustionNeedsTheLimit(p: Partition, limit: nat, maxRetries: nat)
    requires maxRetries >= 1
    ensures (exists trace, actions, c :: Exhausts(trace, actions, c, p, limit, maxRetries)) <==> maxRetries <= limit
  {
    if maxRetries <= limit {
      var trace, actions := ExhaustionIsReachable(p, limit, maxRetries);
    }
    forall trace, actions, c | Exhausts(trace, actions, c, p, limit, maxRetries) ensures maxRetries <= limit {
      if limit < maxRetries {
        RetriesSuffice(trace, actions, |actions|, c, limit);
      }
    }
  }

  // ---- An accepted event is refused ----

  /** A new call reserves its event undisturbed. */
  lemma OtherReserves(trace: seq<State>, actions: seq<Action>, p: Partition, event: string, limit: nat, c: nat)
    returns (longer: seq<State>, more: seq<Action>)
    requires Run(trace, actions) && limit >= 1
    requires var s := trace[|actions|];
      && c !in s.calls && event !in At(s.reserved, p)
      && (p in s.counters ==> s.counters[p].count < limit && s.counters[p].etag < s.nextEtag)
    ensures Run(longer, more)
    ensures var (s, later) := (trace[|actions|], longer[|more|]);
      && later.maxRetries == s.maxRetries && later.calls.Keys == s.calls.Keys + {c}
      && (forall d | d in s.calls :: later.calls[d] == s.calls[d])
      && later.calls[c].partition == p && later.calls[c].event == event && later.calls[c].limit == limit
      && later.answers == s.answers + [Answer(c, p, event, limit, true)]
      && later.calls[c].answersBefore == |s.answers| && later.calls[c].answeredAt == Some(|s.answers|)
      && later.reserved == WithEvent(s.reserved, p, event) && later.nextEtag == s.nextEtag + 1
      && p in later.counters && later.counters[p].etag == s.nextEtag
      && later.counters[p].count == (if p in s.counters then s.counters[p].count else 0) + 1
  {
    longer, more := OtherReads(trace, actions, p, event, limit, c);
    longer, more := Extended(longer, more, Step(c));
  }

  /** `n` calls have reserved one event each. */
  lemma {:induction false} Filled(p: Partition, limit: nat, maxRetries: nat, n: nat)
    returns (trace: seq<State>, actions: seq<Action>)
    requires maxRetries >= 1 && n <= limit
    ensures Run(trace, actions) && trace[|actions|].maxRetries == maxRetries && Counted(trace[|actions|], p, n)
    ensures forall c | c in trace[|actions|].calls :: 1 <= c <= n && trace[|actions|].calls[c].limit == limit
  {
    if n == 0 {
      trace, actions := [Fresh(maxRetries)], [];
    } else {
      trace, actions := Filled(p, limit, maxRetries, n - 1);
      trace, actions := OtherReserves(trace, actions, p, Name(n), limit, n);
    }
  }

  /** The victim finds no row for its event, and then another call takes the last place for that event. */
  lemma LastPlaceTaken(p: Partition, limit: nat, maxRetries: nat) returns (trace: seq<State>, actions: seq<Action>)
    requires limit >= 1 && maxRetries >= 1
    ensures Run(trace, actions) && trace[|actions|].maxRetries == maxRetries
    ensures forall c | c in trace[|actions|].calls :: trace[|actions|].calls[c].limit == limit
    ensures var s := trace[|actions|];
      && VICTIM in s.calls && s.calls[VICTIM].partition == p && s.calls[VICTIM].event == Name(0)
      && s.calls[VICTIM].pc == ReadCounter && Name(0) in At(s.reserved, p)
      && p in s.counters && s.counters[p].count == limit
  {
    trace, actions := Filled(p, limit, maxRetries, limit - 1);
    trace, actions := Extended(trace, actions, Invoke(VICTIM, p, Name(0), limit));
    trace, actions := Extended(trace, actions, Step(VICTIM));
    trace, actions := OtherReserves(trace, actions, p, Name(0), limit, limit);
  }

  /**
   * Whatever the shared limit, two overlapping calls for one event can end with that event accepted and one of
   * them refused, so that the answers are not the specification's.
   */
  lemma OverlapCanRefuseAcceptedEvent(p: Partition, limit: nat, maxRetries: nat)
    returns (trace: seq<State>, actions: seq<Action>)
    requires limit >= 1 && maxRetries >= 1
    ensures Run(trace, actions) && trace[|actions|].maxRetries == maxRetries
    ensures forall c | c in trace[|actions|].calls :: trace[|actions|].calls[c].limit == limit
    ensures var s := trace[|actions|];
      && VICTIM in s.calls && s.calls[VICTIM].partition == p && s.calls[VICTIM].pc == Returned(Refused)
      && s.calls[VICTIM].event in At(s.reserved, p)
      && !AnswersFollowSpec(s.answers)
  {
    trace, actions := LastPlaceTaken(p, limit, maxRetries);
    var before := |actions|;
    trace, actions := Extended(trace, actions, Step(VICTIM));
    assert StaleRefusal(trace[before], actions[before]);
    OnlyStaleRefusalsDeviate(trace, actions, before + 1);
  }

  /** The call began after `place` answers, and gave the next one. */
  predicate IsPlaced(call: Call, place: nat) {
    call.answersBefore == place && call.answeredAt == Some(place)
  }

  /** The victim, at limit 1, finds no row; calls at limit 2 reserve another event, and then the victim's. */
  lemma LaxerCallsReserve(p: Partition, maxRetries: nat) returns (trace: seq<State>, actions: seq<Action>)
    requires maxRetries >= 1
    ensures Run(trace, actions)
    ensures var s := trace[|actions|];
      && s.calls.Keys == {VICTIM, 1, 2} && s.calls[VICTIM].pc == ReadCounter && s.calls[VICTIM].limit == 1
      && s.calls[VICTIM].partition == p && s.calls[VICTIM].event == Name(0)
      && Name(0) in At(s.reserved, p) && p in s.counters && s.counters[p].count == 2
      && s.answers == [Answer(1, p, Name(1), 2, true), Answer(2, p, Name(0), 2, true)]
      && (forall c | c == 1 || c == 2 :: s.calls[c].partition == p && s.calls[c].limit == 2)
      && s.calls[1].event == Name(1) && s.calls[2].event == Name(0)
      && s.calls[VICTIM].answersBefore == 0 && IsPlaced(s.calls[1], 0) && IsPlaced(s.calls[2], 1)
  {
    trace, actions := [Fresh(maxRetries)], [];
    trace, actions := Extended(trace, actions, Invoke(VICTIM, p, Name(0), 1));
    trace, actions := Extended(trace, actions, Step(VICTIM));
    assert |Name(1)| != |Name(0)|;
    trace, actions := OtherReserves(trace, actions, p, Name(1), 2, 1);
    trace, actions := OtherReserves(trace, actions, p, Name(0), 2, 2);
  }

  lemma FirstFollows(first: Answer)
    requires first.ok && first.limit == 2
    ensures AnswersFollowSpec([first]) && At(SpecState([first]), first.partition) == {first.event}
  {
    assert [first][..0] == [];
    assert SpecState([]) == map[];
  }

  lemma VictimFollows(first: Answer, victim: Answer)
    requires first.ok && first.limit == 2 && !victim.ok && victim.limit == 1
    requires first.partition == victim.partition && first.event != victim.event
    ensures AnswersFollowSpec([first, victim]) && SpecState([first, victim]) == SpecState([first])
  {
    FirstFollows(first);
    AppendedAnswer([first], victim);
    assert [first] + [victim] == [first, victim];
  }

  lemma SecondFollows(first: Answer, victim: Answer, second: Answer)
    requires first.ok && first.limit == 2 && !victim.ok && victim.limit == 1 && second.ok && second.limit == 2
    requires first.partition == victim.partition == second.partition
    requires first.event != victim.event == second.event
    ensures AnswersFollowSpec([first, victim, second])
  {
    FirstFollows(first);
    VictimFollows(first, victim);
    AppendedAnswer([first, victim], second);
    assert [first, victim] + [second] == [first, victim, second];
  }

  /** The victim is refused after all: stale, but right had it come between the other two. */
  lemma VictimIsRefused(p: Partition, maxRetries: nat) returns (trace: seq<State>, actions: seq<Action>)
    requires maxRetries >= 1
    ensures Run(trace, actions) && |actions| >= 1 && StaleRefusal(trace[|actions| - 1], actions[|actions| - 1])
    ensures var s := trace[|actions|];
      && s.calls.Keys == {VICTIM, 1, 2}
      && s.answers
         == [Answer(1, p, Name(1), 2, true), Answer(2, p, Name(0), 2, true), Answer(VICTIM, p, Name(0), 1, false)]
      && IsAnswerTo(Answer(1, p, Name(1), 2, true), s.calls[1])
      && IsAnswerTo(Answer(2, p, Name(0), 2, true), s.calls[2])
      && IsAnswerTo(Answer(VICTIM, p, Name(0), 1, false), s.calls[VICTIM])
      && s.calls[VICTIM].answersBefore == 0 && s.calls[VICTIM].answeredAt == Some(2)
      && IsPlaced(s.calls[1], 0) && IsPlaced(s.calls[2], 1)
  {
    trace, actions := LaxerCallsReserve(p, maxRetries);
    trace, actions := Extended(trace, actions, Step(VICTIM));
  }

  lemma InTurnInRealTime(s: State, first: Answer, victim: Answer, second: Answer)
    requires first.call in s.calls && victim.call in s.calls && second.call in s.calls
    requires IsPlaced(s.calls[first.call], 0) && IsPlaced(s.calls[second.call], 1)
    requires s.calls[victim.call].answersBefore == 0 && s.calls[victim.call].answeredAt == Some(2)
    ensures InRealTime(s, [first, victim, second])
  {
  }

  lemma AnswersInTurn(s: State, first: Answer, victim: Answer, second: Answer)
    requires AnswersFollowSpec([first, victim, second]) && s.answers == [first, second, victim]
    requires first.call != victim.call && victim.call != second.call && first.call != second.call
    requires forall a | a in s.answers :: a.call in s.calls && IsAnswerTo(a, s.calls[a.call])
    ensures Explains(s, [first, victim, second])
  {
    assert first in s.answers && victim in s.answers && second in s.answers;
  }

  /** Where limits differ, a run with a stale refusal may be linearizable: by an order in which it comes earlier. */
  lemma UnsharedLimitsMayExplain(p: Partition, maxRetries: nat)
    returns (trace: seq<State>, actions: seq<Action>, order: seq<Answer>)
    requires maxRetries >= 1
    ensures Run(trace, actions) && !NoneStale(trace, actions, |actions|)
    ensures Explains(trace[|actions|], order) && InRealTime(trace[|actions|], order)
    ensures Linearizable(trace[|actions|])
  {
    trace, actions := VictimIsRefused(p, maxRetries);
    var (first, victim, second) :=
      (Answer(1, p, Name(1), 2, true), Answer(VICTIM, p, Name(0), 1, false), Answer(2, p, Name(0), 2, true));
    assert |Name(1)| != |Name(0)|;
    order := [first, victim, second];
    SecondFollows(first, victim, second);
    AnswersInTurn(trace[|actions|], first, victim, second);
    InTurnInRealTime(trace[|actions|], first, victim, second);
  }
}
