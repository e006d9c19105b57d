/**
 * Concurrent calls of the table quota (quota.py): each call reads its event row, reads the counter,
 * and submits one two-row transaction guarded by the counter's etag, retrying on a conflict. The
 * steps of any number of calls interleave freely. The specification is `Quota.Allow`.
 */
module QuotaProtocol {
  import opened Prelude
  import opened Quota

  datatype Pc = ReadRow | ReadCounter | Submit(seen: Option<Counter>) | Returned(outcome: Outcome) | Dropped

  /** `since`, `attemptSince`: commits made when the call, and its current attempt, began. */
  datatype Call = Call(
    partition: Partition,
    event: string,
    limit: nat,
    pc: Pc,
    since: nat,
    attemptSince: nat,
    failed: seq<(nat, nat)>, // history: the commits made before and after each failed attempt
    answersBefore: nat,      // history: answers given in linear order when the call began
    answeredAt: Option<nat>  // history: the place of its own answer in that order
  )

  datatype Commit = Commit(call: nat, partition: Partition, event: string)

  datatype Answer = Answer(call: nat, partition: Partition, event: string, limit: nat, ok: bool)

  datatype State = State(
    counters: map<Partition, Counter>,
    reserved: Reserved,
    nextEtag: nat,
    maxRetries: nat,
    calls: map<nat, Call>,
    commits: seq<Commit>,  // history: the committed transactions
    answers: seq<Answer>   // history: the answers, each at its linearization point
  )

  datatype Action = Invoke(c: nat, partition: Partition, event: string, limit: nat) | Step(c: nat) | Drop(c: nat)

  predicate Active(call: Call) {
    !call.pc.Returned? && !call.pc.Dropped?
  }

  predicate Enabled(s: State, a: Action) {
    match a
    case Invoke(c, _, _, limit) => c !in s.calls && limit >= 1
    case Step(c) => c in s.calls && Active(s.calls[c])
    case Drop(c) => c in s.calls && Active(s.calls[c])
  }

  function Return(s: State, c: nat, ok: bool): State
    requires c in s.calls
  {
    var call := s.calls[c];
    var pc := Returned(if ok then Allowed else Refused);
    s.(calls := s.calls[c := call.(pc := pc, answeredAt := Some(|s.answers|))],
       answers := s.answers + [Answer(c, call.partition, call.event, call.limit, ok)])
  }

  function Committed(s: State, c: nat): State
    requires c in s.calls && s.calls[c].pc.Submit?
  {
    var call := s.calls[c];
    var count := if call.pc.seen.Some? then call.pc.seen.value.count else 0;
    s.(counters := s.counters[call.partition := Counter(count + 1, s.nextEtag)],
       reserved := WithEvent(s.reserved, call.partition, call.event),
       nextEtag := s.nextEtag + 1,
       commits := s.commits + [Commit(c, call.partition, call.event)])
  }

  function Conflicted(s: State, c: nat): State
    requires c in s.calls
  {
    var call := s.calls[c];
    var failed := call.failed + [(call.attemptSince, |s.commits|)];
    var pc := if |failed| >= s.maxRetries then Returned(Exhausted) else ReadRow;
    s.(calls := s.calls[c := call.(pc := pc, failed := failed, attemptSince := |s.commits|)])
  }

  function Stepped(s: State, c: nat): State
    requires c in s.calls && Active(s.calls[c])
  {
    var call := s.calls[c];
    match call.pc
    case ReadRow =>
      if call.event in At(s.reserved, call.partition) then Return(s, c, true)
      else s.(calls := s.calls[c := call.(pc := ReadCounter)])
    case ReadCounter =>
      var seen := if call.partition in s.counters then Some(s.counters[call.partition]) else None;
      if seen.Some? && seen.value.count >= call.limit then Return(s, c, false)
      else s.(calls := s.calls[c := call.(pc := Submit(seen))])
    case Submit(seen) =>
      if Accepts(s.counters, s.reserved, call.partition, call.event, seen) then Return(Committed(s, c), c, true)
      else Conflicted(s, c)
    case _ => s
  }

  function Next(s: State, a: Action): State
    requires Enabled(s, a)
  {
    match a
    case Invoke(c, p, event, limit) =>
      s.(calls := s.calls[c := Call(p, event, limit, ReadRow, |s.commits|, |s.commits|, [], |s.answers|, None)])
    case Step(c) => Stepped(s, c)
    case Drop(c) => s.(calls := s.calls[c := s.calls[c].(pc := Dropped)])
  }

  ghost predicate Init(s: State) {
    && s.counters == map[] && s.reserved == map[] && s.maxRetries >= 1
    && s.calls == map[] && s.commits == [] && s.answers == []
  }

  ghost predicate Run(trace: seq<State>, actions: seq<Action>) {
    && |trace| == |actions| + 1
    && Init(trace[0])
    && forall i {:trigger actions[i]} | 0 <= i < |actions| ::
      Enabled(trace[i], actions[i]) && trace[i + 1] == Next(trace[i], actions[i])
  }

  // ---- Histories ----

  function ReservedAfter(commits: seq<Commit>): Reserved {
    if commits == [] then map[]
    else
      var last := commits[|commits| - 1];
      WithEvent(ReservedAfter(commits[..|commits| - 1]), last.partition, last.event)
  }

  function SpecState(answers: seq<Answer>): Reserved {
    if answers == [] then map[]
    else
      var last := answers[|answers| - 1];
      Allow(SpecState(answers[..|answers| - 1]), last.partition, last.event, last.limit).0
  }

  function SpecAnswer(before: seq<Answer>, a: Answer): bool {
    Allow(SpecState(before), a.partition, a.event, a.limit).1
  }

  /** Every answer is the specification's, given after the answers before it. */
  ghost predicate AnswersFollowSpec(answers: seq<Answer>) {
    forall k | 0 <= k < |answers| :: answers[k].ok == SpecAnswer(answers[..k], answers[k])
  }

  /** No two running calls reserve the same event in the same repository-day. */
  ghost predicate Quiet(s: State) {
    forall c, d | c in s.calls && d in s.calls && c != d && Active(s.calls[c]) && Active(s.calls[d]) ::
      s.calls[c].partition != s.calls[d].partition || s.calls[c].event != s.calls[d].event
  }

  /** A commit of another call in partition `p`, among the commits from `from` up to `to`. */
  ghost predicate Interfered(s: State, c: nat, p: Partition, from: nat, to: nat) {
    exists k | from <= k < to && k < |s.commits| :: s.commits[k].partition == p && s.commits[k].call != c
  }

  // ---- What holds in every reachable state ----

  /** Each failed attempt lies after the one before, and met a commit of another call. */
  ghost predicate FailuresOk(s: State, c: nat, call: Call) {
    && (forall k | 0 <= k < |call.failed| ::
          && call.since <= call.failed[k].0 <= call.failed[k].1 <= call.attemptSince
          && Interfered(s, c, call.partition, call.failed[k].0, call.failed[k].1))
    && (forall j, k | 0 <= j < k < |call.failed| :: call.failed[j].1 <= call.failed[k].0)
  }

  /** The event row was absent: if it is there by now, another call has committed it. */
  ghost predicate RowReadOk(s: State, c: nat, call: Call) {
    call.event in At(s.reserved, call.partition) ==> Interfered(s, c, call.partition, call.attemptSince, |s.commits|)
  }

  /** The counter that was read: it is still there, or another call has committed since. */
  ghost predicate CounterReadOk(s: State, c: nat, call: Call)
    requires call.pc.Submit?
  {
    match call.pc.seen
    case None => call.partition in s.counters ==> Interfered(s, c, call.partition, call.attemptSince, |s.commits|)
    case Some(k) =>
      && call.partition in s.counters && k.count < call.limit && k.etag < s.nextEtag
      && (if s.counters[call.partition].etag == k.etag then s.counters[call.partition] == k
          else Interfered(s, c, call.partition, call.attemptSince, |s.commits|))
  }

  ghost predicate CallOk(s: State, c: nat, call: Call) {
    && call.limit >= 1
    && call.since <= call.attemptSince <= |s.commits|
    && (Active(call) ==>
          && call.answeredAt.None? && |call.failed| < s.maxRetries
          && forall k | 0 <= k < |s.commits| :: s.commits[k].call != c)
    && (call.pc == Returned(Exhausted) ==> |call.failed| == s.maxRetries)
    && FailuresOk(s, c, call)
    && (call.pc == Returned(Allowed) ==> call.event in At(s.reserved, call.partition))
    && (call.pc.ReadCounter? || call.pc.Submit? ==> RowReadOk(s, c, call))
    && (call.pc.Submit? ==> CounterReadOk(s, c, call))
  }

  ghost predicate Inv(s: State) {
    && s.maxRetries >= 1
    && Conserved(s.counters, s.reserved, s.nextEtag)
    && s.reserved == ReservedAfter(s.commits)
    && (forall k | 0 <= k < |s.commits| :: s.commits[k].call in s.calls)
    && (forall c | c in s.calls :: CallOk(s, c, s.calls[c]))
  }

  /** The calls' answers sit in linear order between their beginning and their end. */
  ghost predicate AnswerOk(s: State, c: nat, call: Call) {
    && call.answersBefore <= |s.answers|
    && (call.pc == Returned(Allowed) || call.pc == Returned(Refused) <==> call.answeredAt.Some?)
    && (call.answeredAt.Some? ==>
          && call.answersBefore <= call.answeredAt.value < |s.answers|
          && s.answers[call.answeredAt.value]
             == Answer(c, call.partition, call.event, call.limit, call.pc == Returned(Allowed)))
  }

  /** Every answer has its call, and every answered call its place among the answers. */
  ghost predicate Placed(s: State) {
    && (forall c | c in s.calls :: AnswerOk(s, c, s.calls[c]))
    && (forall k | 0 <= k < |s.answers| ::
          s.answers[k].call in s.calls && s.calls[s.answers[k].call].answeredAt == Some(k))
  }

  /** A call that has found no row for its event is still right. */
  ghost predicate RowsAbsent(s: State) {
    forall c | c in s.calls && (s.calls[c].pc.ReadCounter? || s.calls[c].pc.Submit?) ::
      s.calls[c].event !in At(s.reserved, s.calls[c].partition)
  }
}
