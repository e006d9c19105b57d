/** Daily quotas per repository (quota.py): the memory specification and the optimistic table loop. */
module Quota {
  import opened Prelude
  import opened Text

  /** One repository-day; its table key is a digest, taken to be injective. */
  datatype Partition = Partition(repository: string, day: string)

  /** The accepted events of every repository-day. */
  type Reserved = map<Partition, set<string>>

  datatype InputError = RepositoryRequired | EventRequired | LimitNotPositive

  function Fold(c: char): char {
    if 'A' <= c <= 'Z' then 'a' + (c - 'A') else c
  }

  function CaseFold(s: string): string {
    seq(|s|, i requires 0 <= i < |s| => Fold(s[i]))
  }

  function Validated(repository: string, eventId: string, limit: int): Result<(string, string), InputError> {
    var (r, e) := (CaseFold(Strip(repository)), Strip(eventId));
    if r == "" then Err(RepositoryRequired)
    else if e == "" then Err(EventRequired)
    else if limit < 1 then Err(LimitNotPositive)
    else Ok((r, e))
  }

  lemma CaseFoldIgnoresCaseOnly(s: string, t: string)
    ensures CaseFold(s) == CaseFold(t) <==> DifferInCaseOnly(s, t)
  {
    if CaseFold(s) == CaseFold(t) {
      assert |s| == |CaseFold(s)| == |t|;
      forall i | 0 <= i < |s| ensures SameLetter(s[i], t[i]) {
        assert CaseFold(s)[i] == CaseFold(t)[i];
      }
    }
  }

  /**
   * Requests are refused that name no repository or no event, or ask for no positive limit; and two that are not are
   * for one repository, one count and one limit, if and only if the names differ in case and outer white space only.
   */
  lemma CaseAndSpaceShareALimit(r: string, s: string, e: string, f: string, limit: int, other: int)
    ensures Validated(r, e, limit).Ok? <==> Strip(r) != "" && Strip(e) != "" && limit >= 1
    ensures Validated(r, e, limit) == Err(RepositoryRequired) <==> Strip(r) == ""
    ensures Validated(r, e, limit) == Err(EventRequired) <==> Strip(r) != "" && Strip(e) == ""
    ensures Validated(r, e, limit).Ok? ==> Validated(r, e, limit).value.1 == Strip(e)
    ensures Validated(r, e, limit).Ok? && Validated(s, f, other).Ok? ==>
      (Validated(r, e, limit).value.0 == Validated(s, f, other).value.0 <==> DifferInCaseOnly(Strip(r), Strip(s)))
  {
    CaseFoldIgnoresCaseOnly(Strip(r), Strip(s));
    assert |CaseFold(Strip(r))| == |Strip(r)|;
  }

  function At(reserved: Reserved, p: Partition): set<string> {
    if p in reserved then reserved[p] else {}
  }

  function WithEvent(reserved: Reserved, p: Partition, event: string): Reserved {
    reserved[p := At(reserved, p) + {event}]
  }

  /** `MemoryDailyQuota.allow` on validated inputs. */
  function Allow(reserved: Reserved, p: Partition, event: string, limit: nat): (Reserved, bool) {
    if event in At(reserved, p) then (reserved, true)
    else if |At(reserved, p)| >= limit then (reserved, false)
    else (WithEvent(reserved, p, event), true)
  }

  /** At most `limit` distinct events pass, the answer tells whether the event is in, and others are left alone. */
  lemma AllowMeaning(reserved: Reserved, p: Partition, event: string, limit: nat)
    requires |At(reserved, p)| <= limit
    ensures |At(Allow(reserved, p, event, limit).0, p)| <= limit
    ensures Allow(reserved, p, event, limit).1 <==> event in At(Allow(reserved, p, event, limit).0, p)
    ensures forall q | q != p :: At(Allow(reserved, p, event, limit).0, q) == At(reserved, q)
  {
  }

  datatype Request = Request(partition: Partition, event: string, limit: nat)

  function AllowAll(reserved: Reserved, requests: seq<Request>): Reserved {
    if requests == [] then reserved
    else
      var last := requests[|requests| - 1];
      Allow(AllowAll(reserved, requests[..|requests| - 1]), last.partition, last.event, last.limit).0
  }

  /** Reservations stay, and a full day stays as it is. */
  lemma {:induction false} AllowAllKeeps(reserved: Reserved, requests: seq<Request>, p: Partition, limit: nat)
    requires forall r | r in requests && r.partition == p :: r.limit <= limit
    ensures At(reserved, p) <= At(AllowAll(reserved, requests), p)
    ensures |At(reserved, p)| >= limit ==> At(AllowAll(reserved, requests), p) == At(reserved, p)
  {
    if requests != [] {
      AllowAllKeeps(reserved, requests[..|requests| - 1], p, limit);
    }
  }

  /**
   * Answers are final: whatever is asked in between, an event that has passed passes ever after, under any limit;
   * and one that was refused is refused ever after, as long as no one asks for the day with a larger limit.
   */
  lemma AnswersAreFinal(
    reserved: Reserved, p: Partition, event: string, limit: nat, requests: seq<Request>, largest: nat, again: nat)
    requires forall r | r in requests && r.partition == p :: r.limit <= largest
    ensures var (after, ok) := Allow(reserved, p, event, limit);
      var later := AllowAll(after, requests);
      && (ok ==> Allow(later, p, event, again).1)
      && (!ok && largest <= limit && again <= limit ==> !Allow(later, p, event, again).1)
  {
    var after := Allow(reserved, p, event, limit).0;
    AllowAllKeeps(after, requests, p, largest);
  }

  class MemoryDailyQuota {
    var events: Reserved

    constructor ()
      ensures events == map[]
    {
      events := map[];
    }

    method AllowEvent(repository: string, eventId: string, limit: int, day: string)
        returns (r: Result<bool, InputError>)
      modifies this
      ensures match Validated(repository, eventId, limit)
        case Err(e) => r == Err(e) && events == old(events)
        case Ok((repo, event)) => r.Ok? && (events, r.value) == Allow(old(events), Partition(repo, day), event, limit)
    {
      var inputs := Validated(repository, eventId, limit);
      if inputs.Err? {
        return Err(inputs.error);
      }
      var (repo, event) := inputs.value;
      var key := Partition(repo, day);
      var accepted := if key in events then events[key] else {};
      if event in accepted {
        return Ok(true);
      }
      if |accepted| >= limit {
        return Ok(false);
      }
      events := events[key := accepted + {event}];
      return Ok(true);
    }
  }

  // ---- The table: one counter row per partition, one row per event ----

  datatype Counter = Counter(count: nat, etag: nat)

  datatype Outcome = Allowed | Refused | Exhausted

  /** The transaction is accepted: the counter is as it was read, and the event row is new. */
  predicate Accepts(counters: map<Partition, Counter>, reserved: Reserved, p: Partition, event: string,
      seen: Option<Counter>)
  {
    && event !in At(reserved, p)
    && match seen
       case None => p !in counters
       case Some(c) => p in counters && counters[p].etag == c.etag
  }

  /** The counter row exists exactly when an event row does, and counts them. */
  ghost predicate Conserved(counters: map<Partition, Counter>, reserved: Reserved, nextEtag: nat) {
    forall p :: if p in counters
      then counters[p].count == |At(reserved, p)| > 0 && counters[p].etag < nextEtag
      else At(reserved, p) == {}
  }

  /** Others' reservations join the partition in turn, without repetition. */
  function Joined(accepted: set<string>, others: seq<string>): set<string> {
    accepted + set e | e in others
  }

  lemma JoinedNext(accepted: set<string>, others: seq<string>, i: nat)
    requires i < |others|
    ensures Joined(accepted, others[..i + 1]) == Joined(accepted, others[..i]) + {others[i]}
  {
    assert others[..i + 1] == others[..i] + [others[i]];
  }

  datatype TableState = TableState(counters: map<Partition, Counter>, reserved: Reserved, nextEtag: nat)

  /** `later` differs at most by reservations in `p`; if there is one, the counter row is a new version. */
  ghost predicate Advances(s: TableState, later: TableState, p: Partition) {
    && s.nextEtag <= later.nextEtag
    && At(s.reserved, p) <= At(later.reserved, p)
    && (forall q | q != p :: At(later.reserved, q) == At(s.reserved, q))
    && (if At(later.reserved, p) == At(s.reserved, p) then later.counters == s.counters && later.reserved == s.reserved
        else p in later.counters && later.counters[p].etag >= s.nextEtag)
  }

  lemma AdvancesTransitive(s: TableState, t: TableState, u: TableState, p: Partition)
    requires Advances(s, t, p) && Advances(t, u, p)
    ensures Advances(s, u, p)
  {
  }

  lemma CommitConserves(s: TableState, p: Partition, event: string)
    requires Conserved(s.counters, s.reserved, s.nextEtag) && event !in At(s.reserved, p)
    ensures var count := if p in s.counters then s.counters[p].count else 0;
      var later := TableState(s.counters[p := Counter(count + 1, s.nextEtag)], WithEvent(s.reserved, p, event),
        s.nextEtag + 1);
      Conserved(later.counters, later.reserved, later.nextEtag) && Advances(s, later, p)
  {
  }

  lemma LargerSet(small: set<string>, large: set<string>)
    requires small <= large && small != large
    ensures |small| < |large|
  {
    var e :| e in large && e !in small;
    assert |large - small| + |small| == |large - small + small|;
    assert large - small + small == large && e in large - small;
  }

  class QuotaTable {
    var counters: map<Partition, Counter>
    var reserved: Reserved
    var nextEtag: nat

    constructor ()
      ensures Valid() && reserved == map[]
    {
      counters, reserved, nextEtag := map[], map[], 0;
    }

    ghost predicate Valid()
      reads this
    {
      Conserved(counters, reserved, nextEtag)
    }

    ghost function View(): TableState
      reads this
    {
      TableState(counters, reserved, nextEtag)
    }

    /** `submit_transaction` of the counter write and the event row. */
    method Submit(p: Partition, event: string, seen: Option<Counter>) returns (ok: bool)
      requires Valid()
      requires seen.Some? && p in counters && counters[p].etag == seen.value.etag ==> counters[p] == seen.value
      modifies this
      ensures Valid() && Advances(old(View()), View(), p)
      ensures ok <==> Accepts(old(counters), old(reserved), p, event, seen)
      ensures reserved == if ok then WithEvent(old(reserved), p, event) else old(reserved)
    {
      if !Accepts(counters, reserved, p, event, seen) {
        return false;
      }
      CommitConserves(View(), p, event);
      var count := if seen.Some? then seen.value.count else 0;
      counters := counters[p := Counter(count + 1, nextEtag)];
      reserved := WithEvent(reserved, p, event);
      nextEtag := nextEtag + 1;
      return true;
    }

    method OtherReserves(p: Partition, event: string)
      requires Valid()
      modifies this
      ensures Valid() && Advances(old(View()), View(), p)
      ensures At(reserved, p) == old(At(reserved, p)) + {event}
    {
      var seen := if p in counters then Some(counters[p]) else None;
      var ok := Submit(p, event, seen);
      if !ok {
        assert event in old(At(reserved, p));
      }
    }

    /** Reservations that other callers commit in partition `p` meanwhile. */
    method OthersReserve(p: Partition, others: seq<string>)
      requires Valid()
      modifies this
      ensures Valid() && Advances(old(View()), View(), p)
      ensures At(reserved, p) == Joined(old(At(reserved, p)), others)
      ensures others == [] ==> View() == old(View())
    {
      for i := 0 to |others|
        invariant Valid() && Advances(old(View()), View(), p)
        invariant At(reserved, p) == Joined(old(At(reserved, p)), others[..i])
        invariant i == 0 ==> View() == old(View())
      {
        ghost var middle := View();
        OtherReserves(p, others[i]);
        AdvancesTransitive(old(View()), middle, View(), p);
        JoinedNext(old(At(reserved, p)), others, i);
      }
      assert others[..|others|] == others;
    }

    /**
     * One attempt of the optimistic loop, None when its transaction conflicts. Others reserve
     * `first` between the two reads, and `second` between the counter read and the transaction.
     */
    method Attempt(p: Partition, event: string, limit: nat, first: seq<string>, second: seq<string>)
      returns (r: Option<Outcome>)
      requires Valid() && limit >= 1
      modifies this
      ensures Valid() && Advances(old(View()), View(), p)
      ensures r.None? ==> At(reserved, p) != old(At(reserved, p))
      ensures r == Some(Allowed) ==> event in At(reserved, p)
      ensures r == Some(Refused) ==> |At(reserved, p)| >= limit
      ensures r != Some(Exhausted)
      ensures first == [] && second == [] ==>
        var (after, ok) := Allow(old(reserved), p, event, limit);
        reserved == after && r == Some(if ok then Allowed else Refused)
    {
      if event in At(reserved, p) {
        return Some(Allowed);
      }
      OthersReserve(p, first);
      ghost var middle := View();
      var counter := if p in counters then Some(counters[p]) else None;
      if counter.Some? && counter.value.count >= limit {
        return Some(Refused);
      }
      OthersReserve(p, second);
      AdvancesTransitive(old(View()), middle, View(), p);
      ghost var last := View();
      var ok := Submit(p, event, counter);
      AdvancesTransitive(old(View()), last, View(), p);
      return if ok then Some(Allowed) else None;
    }

    /** The optimistic loop; `others[i]` are the reservations of others during attempt `i`. */
    method AllowEvent(p: Partition, event: string, limit: nat, maxRetries: nat, others: seq<(seq<string>, seq<string>)>)
      returns (r: Outcome)
      requires Valid() && limit >= 1 && maxRetries >= 1 && |others| == maxRetries
      modifies this
      ensures Valid() && Advances(old(View()), View(), p)
      ensures r.Allowed? ==> event in At(reserved, p)
      ensures r.Refused? ==> |At(reserved, p)| >= limit
      ensures r.Exhausted? ==> |At(reserved, p)| >= |old(At(reserved, p))| + maxRetries
      ensures others[0] == ([], []) ==>
        var (after, ok) := Allow(old(reserved), p, event, limit);
        reserved == after && r == if ok then Allowed else Refused
    {
      for i := 0 to maxRetries
        invariant Valid() && Advances(old(View()), View(), p)
        invariant |At(reserved, p)| >= |old(At(reserved, p))| + i
        invariant i == 0 ==> reserved == old(reserved)
        invariant i > 0 ==> others[0] != ([], [])
      {
        ghost var before := View();
        var answer := Attempt(p, event, limit, others[i].0, others[i].1);
        AdvancesTransitive(old(View()), before, View(), p);
        if answer.Some? {
          return answer.value;
        }
        LargerSet(At(before.reserved, p), At(reserved, p));
      }
      return Exhausted;
    }
  }
}
