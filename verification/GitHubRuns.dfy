/** Exactly which GitHub deliveries can be published together under a limit. */
module GitHubRuns {
  import opened Prelude
  import opened Events
  import opened Text
  import opened GitHubIntake
  import Outbox
  import Inbox
  import Quota
  import Q = QuotaProtocol
  import QS = QuotaSafety

  lemma Extended(trace: seq<State>, actions: seq<Action>, a: Action) returns (longer: seq<State>, more: seq<Action>)
    requires Run(trace, actions) && Enabled(trace[|actions|], a)
    ensures Run(longer, more) && |more| == |actions| + 1
    ensures longer[|more|] == Next(trace[|actions|], a)
  {
    longer, more := trace + [Next(trace[|actions|], a)], actions + [a];
  }

  /** A GitHub delivery that the quota can charge to `p`. */
  predicate Chargeable(e: EventEnvelope, p: Quota.Partition) {
    e.source == SOURCE && RepositoryOf(e) == p.repository && p.repository != "" && Strip(e.id) != ""
  }

  predicate Unused(s: State, h: nat) {
    h !in s.handlers && h !in s.quota.calls && h !in s.inbox.workers
  }

  // ---- One delivery, undisturbed ----

  /** It is looked up, not found, admitted, and calls the quota. */
  lemma DeliveryArrives(trace: seq<State>, actions: seq<Action>, h: nat, e: EventEnvelope, p: Quota.Partition)
    returns (longer: seq<State>, more: seq<Action>)
    requires Run(trace, actions) && Unused(trace[|actions|], h) && trace[|actions|].limit >= 1
    requires Chargeable(e, p) && Outbox.KeyOf(e) !in trace[|actions|].inbox.records
    ensures Run(longer, more)
    ensures var (s, later) := (trace[|actions|], longer[|more|]);
      && h in later.quota.calls
      && later == s.(handlers := s.handlers[h := Charging(e)],
                     quota := s.quota.(calls := s.quota.calls[h := later.quota.calls[h]]))
      && later.quota.calls[h].partition == p && later.quota.calls[h].event == Strip(e.id)
      && later.quota.calls[h].limit == s.limit && later.quota.calls[h].pc == Q.ReadRow
  {
    var s := trace[|actions|];
    longer, more := Extended(trace, actions, Arrive(h, e));
    longer, more := Extended(longer, more, Lookup(h));
    assert longer[|more|] == s.(handlers := s.handlers[h := Admitting(e)]);
    longer, more := Extended(longer, more, Admit(h, true, p.day));
    assert longer[|more|].handlers == s.handlers[h := Charging(e)];
  }

  /** The quota allows it: at once when its id is reserved, and otherwise by a reservation below the limit. */
  lemma DeliveryIsCharged(trace: seq<State>, actions: seq<Action>, h: nat, p: Quota.Partition, id: string)
    returns (longer: seq<State>, more: seq<Action>)
    requires Run(trace, actions)
    requires var s := trace[|actions|];
      && h in s.handlers && s.handlers[h].Charging? && h in s.quota.calls
      && s.quota.calls[h].partition == p && s.quota.calls[h].event == id && s.quota.calls[h].pc == Q.ReadRow
      && Quota.Conserved(s.quota.counters, s.quota.reserved, s.quota.nextEtag)
      && (id in Quota.At(s.quota.reserved, p) || |Quota.At(s.quota.reserved, p)| < s.quota.calls[h].limit)
    ensures Run(longer, more)
    ensures var (s, later) := (trace[|actions|], longer[|more|]);
      && later == s.(quota := later.quota) && later.quota.calls.Keys == s.quota.calls.Keys
      && later.quota.calls[h].pc == Q.Returned(Quota.Allowed)
      && Quota.At(later.quota.reserved, p) == Quota.At(s.quota.reserved, p) + {id}
  {
    longer, more := Extended(trace, actions, QuotaStep(h));
    if id !in Quota.At(trace[|actions|].quota.reserved, p) {
      longer, more := Extended(longer, more, QuotaStep(h));
      longer, more := Extended(longer, more, QuotaStep(h));
    }
  }

  /** It is staged under its own key. */
  lemma DeliveryIsStaged(trace: seq<State>, actions: seq<Action>, h: nat, e: EventEnvelope)
    returns (longer: seq<State>, more: seq<Action>)
    requires Run(trace, actions)
    requires var s := trace[|actions|];
      && h in s.handlers && s.handlers[h] == Charging(e) && h !in s.inbox.workers
      && h in s.quota.calls && s.quota.calls[h].pc == Q.Returned(Quota.Allowed)
      && Outbox.KeyOf(e) !in s.inbox.records
    ensures Run(longer, more)
    ensures var (s, later) := (trace[|actions|], longer[|more|]);
      && later.quota == s.quota && later.limit == s.limit && later.handlers.Keys == s.handlers.Keys
      && later.inbox == s.inbox.(
           records := s.inbox.records[
             Outbox.KeyOf(e) := Outbox.Record(Outbox.Stored(e, PayloadHash(e)), Outbox.Pending)],
           workers := s.inbox.workers[h := Inbox.Reading(e, true)])
  {
    var s := trace[|actions|];
    longer, more := Extended(trace, actions, Charged(h));
    longer, more := Extended(longer, more, InboxStep(Inbox.CreateRecord(h, None)));
    assert longer[|more|].inbox.workers == s.inbox.workers[h := Inbox.Reading(e, true)];
  }

  /** It is read back and sent. */
  lemma DeliveryIsSent(trace: seq<State>, actions: seq<Action>, h: nat, e: EventEnvelope)
    returns (longer: seq<State>, more: seq<Action>)
    requires Run(trace, actions)
    requires var s := trace[|actions|];
      && h in s.inbox.workers && s.inbox.workers[h] == Inbox.Reading(e, true)
      && Outbox.KeyOf(e) in s.inbox.records
      && s.inbox.records[Outbox.KeyOf(e)] == Outbox.Record(Outbox.Stored(e, PayloadHash(e)), Outbox.Pending)
    ensures Run(longer, more)
    ensures var (s, later) := (trace[|actions|], longer[|more|]);
      && later == s.(inbox := later.inbox) && later.inbox.workers.Keys == s.inbox.workers.Keys
      && later.inbox.records == s.inbox.records && later.inbox.sends == s.inbox.sends + [e]
  {
    longer, more := Extended(trace, actions, InboxStep(Inbox.ReadBack(h)));
    assert longer[|more|].inbox.workers == trace[|actions|].inbox.workers[h := Inbox.Sending(e)];
    longer, more := Extended(longer, more, InboxStep(Inbox.Send(h)));
  }

  /** Handler `h` has come and has published the delivery. */
  predicate ServedNext(s: State, later: State, h: nat, e: EventEnvelope) {
    && later.handlers.Keys == s.handlers.Keys + {h} && later.quota.calls.Keys == s.quota.calls.Keys + {h}
    && later.inbox.workers.Keys == s.inbox.workers.Keys + {h}
    && later.inbox.records.Keys == s.inbox.records.Keys + {Outbox.KeyOf(e)}
    && later.inbox.sends == s.inbox.sends + [e]
  }

  lemma QuotaIsConserved(trace: seq<State>, actions: seq<Action>)
    requires Run(trace, actions)
    ensures var quota := trace[|actions|].quota;
      Quota.Conserved(quota.counters, quota.reserved, quota.nextEtag)
  {
    ReachableInv(trace, actions, |actions|);
  }

  lemma DeliveryIsPaid(trace: seq<State>, actions: seq<Action>, h: nat, e: EventEnvelope, p: Quota.Partition)
    returns (longer: seq<State>, more: seq<Action>)
    requires Run(trace, actions) && Unused(trace[|actions|], h)
    requires Chargeable(e, p) && Outbox.KeyOf(e) !in trace[|actions|].inbox.records
    requires |Quota.At(trace[|actions|].quota.reserved, p) + {Strip(e.id)}| <= trace[|actions|].limit
    ensures Run(longer, more)
    ensures var (s, later) := (trace[|actions|], longer[|more|]);
      && later.inbox == s.inbox && later.limit == s.limit && later.handlers == s.handlers[h := Charging(e)]
      && later.quota.calls.Keys == s.quota.calls.Keys + {h}
      && later.quota.calls[h].pc == Q.Returned(Quota.Allowed)
      && Quota.At(later.quota.reserved, p) == Quota.At(s.quota.reserved, p) + {Strip(e.id)}
  {
    QuotaIsConserved(trace, actions);
    longer, more := DeliveryArrives(trace, actions, h, e, p);
    longer, more := DeliveryIsCharged(longer, more, h, p, Strip(e.id));
  }

  lemma DeliveryIsPublished(trace: seq<State>, actions: seq<Action>, h: nat, e: EventEnvelope)
    returns (longer: seq<State>, more: seq<Action>)
    requires Run(trace, actions)
    requires var s := trace[|actions|];
      && h in s.handlers && s.handlers[h] == Charging(e) && h !in s.inbox.workers
      && h in s.quota.calls && s.quota.calls[h].pc == Q.Returned(Quota.Allowed)
      && Outbox.KeyOf(e) !in s.inbox.records
    ensures Run(longer, more)
    ensures var (s, later) := (trace[|actions|], longer[|more|]);
      && later.quota == s.quota && later.limit == s.limit && later.handlers.Keys == s.handlers.Keys
      && later.inbox.workers.Keys == s.inbox.workers.Keys + {h}
      && later.inbox.records.Keys == s.inbox.records.Keys + {Outbox.KeyOf(e)}
      && later.inbox.sends == s.inbox.sends + [e]
  {
    longer, more := DeliveryIsStaged(trace, actions, h, e);
    longer, more := DeliveryIsSent(longer, more, h, e);
  }

  lemma DeliveryIsServed(trace: seq<State>, actions: seq<Action>, h: nat, e: EventEnvelope, p: Quota.Partition)
    returns (longer: seq<State>, more: seq<Action>)
    requires Run(trace, actions) && Unused(trace[|actions|], h)
    requires Chargeable(e, p) && Outbox.KeyOf(e) !in trace[|actions|].inbox.records
    requires var reserved := Quota.At(trace[|actions|].quota.reserved, p);
      |reserved + {Strip(e.id)}| <= trace[|actions|].limit
    ensures Run(longer, more) && longer[|more|].limit == trace[|actions|].limit
    ensures ServedNext(trace[|actions|], longer[|more|], h, e)
    ensures Quota.At(longer[|more|].quota.reserved, p)
         == Quota.At(trace[|actions|].quota.reserved, p) + {Strip(e.id)}
  {
    longer, more := DeliveryIsPaid(trace, actions, h, e, p);
    longer, more := DeliveryIsPublished(longer, more, h, e);
  }

  // ---- Any number of deliveries ----

  predicate DifferentIds(events: seq<EventEnvelope>) {
    forall j, k | 0 <= j < k < |events| :: events[j].id != events[k].id
  }

  predicate AllChargeable(events: seq<EventEnvelope>, p: Quota.Partition) {
    forall k | 0 <= k < |events| :: Chargeable(events[k], p)
  }

  /** The ids that the quota tells apart. */
  function TrimsOf(events: seq<EventEnvelope>): set<string> {
    set e | e in events :: Strip(e.id)
  }

  /** The deliveries can pass together: each is chargeable, and their trimmed ids fit in. */
  predicate Fits(events: seq<EventEnvelope>, p: Quota.Partition, limit: nat) {
    AllChargeable(events, p) && |TrimsOf(events)| <= limit
  }

  predicate UnusedFrom(s: State, k: nat) {
    && (forall h | h in s.handlers.Keys :: h < k)
    && (forall h | h in s.quota.calls.Keys :: h < k)
    && (forall h | h in s.inbox.workers.Keys :: h < k)
  }

  predicate IsKeyOf(key: Outbox.Key, events: seq<EventEnvelope>, j: nat) {
    j < |events| && key == Outbox.KeyOf(events[j])
  }

  ghost predicate StagedOnly(keys: set<Outbox.Key>, events: seq<EventEnvelope>) {
    forall key | key in keys :: exists j :: IsKeyOf(key, events, j)
  }

  /** The first `k` deliveries have been published. */
  ghost predicate Served(s: State, events: seq<EventEnvelope>, p: Quota.Partition, k: nat)
    requires k <= |events|
  {
    && UnusedFrom(s, k)
    && StagedOnly(s.inbox.records.Keys, events[..k])
    && (forall j | 0 <= j < k :: events[j] in s.inbox.sends)
    && Quota.At(s.quota.reserved, p) == TrimsOf(events[..k])
  }

  lemma StagedOneMore(keys: set<Outbox.Key>, events: seq<EventEnvelope>, k: nat)
    requires k < |events| && StagedOnly(keys, events[..k])
    ensures StagedOnly(keys + {Outbox.KeyOf(events[k])}, events[..k + 1])
  {
    var more := events[..k + 1];
    assert IsKeyOf(Outbox.KeyOf(events[k]), more, k);
    forall key | key in keys ensures exists j :: IsKeyOf(key, more, j) {
      var j :| IsKeyOf(key, events[..k], j);
      assert IsKeyOf(key, more, j);
    }
  }

  lemma NextIsNew(s: State, events: seq<EventEnvelope>, p: Quota.Partition, k: nat)
    requires DifferentIds(events) && k < |events| && Served(s, events, p, k)
    ensures Unused(s, k) && Outbox.KeyOf(events[k]) !in s.inbox.records
  {
    assert forall j: nat :: !IsKeyOf(Outbox.KeyOf(events[k]), events[..k], j);
  }

  lemma TrimsGrow(events: seq<EventEnvelope>, k: nat)
    requires k < |events|
    ensures TrimsOf(events[..k + 1]) == TrimsOf(events[..k]) + {Strip(events[k].id)} <= TrimsOf(events)
  {
    assert events[..k + 1] == events[..k] + [events[k]];
    assert forall e | e in events[..k + 1] :: e in events;
  }

  lemma ServedGrows(s: State, later: State, events: seq<EventEnvelope>, p: Quota.Partition, k: nat)
    requires k < |events| && Served(s, events, p, k) && ServedNext(s, later, k, events[k])
    requires Quota.At(later.quota.reserved, p) == TrimsOf(events[..k + 1])
    ensures Served(later, events, p, k + 1)
  {
    StagedOneMore(s.inbox.records.Keys, events, k);
    assert UnusedFrom(later, k + 1);
  }

  function Fresh(limit: nat, maxRetries: nat): State {
    State(Q.State(map[], map[], 0, maxRetries, map[], [], []), Inbox.Start(), limit, map[])
  }

  /** A run that has published the first `k` deliveries. */
  ghost predicate Serves(trace: seq<State>, actions: seq<Action>, events: seq<EventEnvelope>, p: Quota.Partition,
      limit: nat, k: nat)
    requires k <= |events|
  {
    Run(trace, actions) && trace[|actions|].limit == limit && Served(trace[|actions|], events, p, k)
  }

  lemma NoneIsServed(events: seq<EventEnvelope>, p: Quota.Partition, limit: nat, maxRetries: nat)
    returns (trace: seq<State>, actions: seq<Action>)
    requires maxRetries >= 1
    ensures Serves(trace, actions, events, p, limit, 0)
  {
    trace, actions := [Fresh(limit, maxRetries)], [];
  }

  lemma OneMoreIsServed(trace: seq<State>, actions: seq<Action>, events: seq<EventEnvelope>, p: Quota.Partition,
      limit: nat, k: nat)
    returns (longer: seq<State>, more: seq<Action>)
    requires DifferentIds(events) && Fits(events, p, limit) && k < |events|
    requires Serves(trace, actions, events, p, limit, k)
    ensures Serves(longer, more, events, p, limit, k + 1)
  {
    var s := trace[|actions|];
    NextIsNew(s, events, p, k);
    TrimsGrow(events, k);
    SubsetIsNoLarger(TrimsOf(events[..k + 1]), TrimsOf(events));
    longer, more := DeliveryIsServed(trace, actions, k, events[k], p);
    ServedGrows(s, longer[|more|], events, p, k);
  }

  lemma {:induction false} AllAreServed(
    events: seq<EventEnvelope>, p: Quota.Partition, limit: nat, maxRetries: nat, k: nat)
    returns (trace: seq<State>, actions: seq<Action>)
    requires DifferentIds(events) && Fits(events, p, limit) && maxRetries >= 1 && k <= |events|
    ensures Serves(trace, actions, events, p, limit, k)
  {
    if k == 0 {
      trace, actions := NoneIsServed(events, p, limit, maxRetries);
    } else {
      trace, actions := AllAreServed(events, p, limit, maxRetries, k - 1);
      trace, actions := OneMoreIsServed(trace, actions, events, p, limit, k - 1);
    }
  }

  /** All these deliveries are published, and all are charged to the repository-day. */
  ghost predicate PublishesAll(trace: seq<State>, actions: seq<Action>, events: seq<EventEnvelope>,
      p: Quota.Partition)
  {
    && Run(trace, actions)
    && forall k | 0 <= k < |events| ::
         events[k] in trace[|actions|].inbox.sends && IsCharged(trace[|actions|], events[k], p)
  }

  lemma FittingDeliveriesPass(events: seq<EventEnvelope>, p: Quota.Partition, limit: nat, maxRetries: nat)
    returns (trace: seq<State>, actions: seq<Action>)
    requires DifferentIds(events) && Fits(events, p, limit) && maxRetries >= 1
    ensures PublishesAll(trace, actions, events, p) && trace[|actions|].limit == limit
  {
    trace, actions := AllAreServed(events, p, limit, maxRetries, |events|);
    assert events[..|events|] == events;
    forall k | 0 <= k < |events|
      ensures events[k] in trace[|actions|].inbox.sends && IsCharged(trace[|actions|], events[k], p)
    {
      assert Chargeable(events[k], p) && events[k] in events;
    }
  }

  /**
   * Whatever the limit, any number of deliveries of one repository whose different ids trim to one text can all be
   * published on a single reservation.
   */
  lemma UntrimmedIdsShareAReservation(
    events: seq<EventEnvelope>, p: Quota.Partition, id: string, limit: nat, maxRetries: nat)
    returns (trace: seq<State>, actions: seq<Action>)
    requires DifferentIds(events) && AllChargeable(events, p) && forall e | e in events :: Strip(e.id) == id
    requires limit >= 1 && maxRetries >= 1
    ensures PublishesAll(trace, actions, events, p) && trace[|actions|].limit == limit
  {
    SubsetIsNoLarger(TrimsOf(events), {id});
    trace, actions := FittingDeliveriesPass(events, p, limit, maxRetries);
  }

  // ---- Only those that fit ----

  /** Nothing blank is ever reserved, or reserved for. */
  ghost predicate NothingBlank(s: State) {
    && (forall c | c in s.quota.calls :: s.quota.calls[c].event != "" && s.quota.calls[c].partition.repository != "")
    && (forall p, id | id in Quota.At(s.quota.reserved, p) :: id != "" && p.repository != "")
  }

  lemma StepReservesNothingBlank(s: State, a: Action)
    requires NothingBlank(s) && Enabled(s, a)
    ensures NothingBlank(Next(s, a))
  {
    ComponentsFollow(s, a);
    if StepOfQuota(s, a).Some? {
      var (q, step, later) := (s.quota, StepOfQuota(s, a).value, Next(s, a).quota);
      QS.StepMovesTables(q, step);
      QS.StepMovesCalls(q, step);
      forall p, id | id in Quota.At(later.reserved, p) ensures id != "" && p.repository != "" {
        if id !in Quota.At(q.reserved, p) {
          assert p == q.calls[step.c].partition && id == q.calls[step.c].event;
        }
      }
    }
  }

  lemma {:induction false} ReachableNothingBlank(trace: seq<State>, actions: seq<Action>, i: nat)
    requires Run(trace, actions) && i < |trace|
    ensures NothingBlank(trace[i])
  {
    if i > 0 {
      ReachableNothingBlank(trace, actions, i - 1);
      StepReservesNothingBlank(trace[i - 1], actions[i - 1]);
    }
  }

  lemma PublishedDeliveriesFit(s: State, events: seq<EventEnvelope>, p: Quota.Partition)
    requires WithinLimit(s) && NothingBlank(s)
    requires forall e | e in events :: e.source == SOURCE && IsCharged(s, e, p)
    ensures Fits(events, p, s.limit)
  {
    forall k | 0 <= k < |events| ensures Chargeable(events[k], p) {
      assert events[k] in events;
    }
    SubsetIsNoLarger(TrimsOf(events), Quota.At(s.quota.reserved, p));
  }

  /**
   * Deliveries with different ids can all be published and charged to one repository-day if and only if each has
   * that repository and an id that is not blank, and their ids, once trimmed, are no more than the limit.
   */
  lemma DeliveriesThatPassTogether(events: seq<EventEnvelope>, p: Quota.Partition, limit: nat)
    requires DifferentIds(events) && forall e | e in events :: e.source == SOURCE
    ensures (exists trace: seq<State>, actions: seq<Action> ::
               PublishesAll(trace, actions, events, p) && trace[|actions|].limit == limit)
       <==> Fits(events, p, limit)
  {
    if Fits(events, p, limit) {
      var trace, actions := FittingDeliveriesPass(events, p, limit, 1);
    }
    forall trace: seq<State>, actions: seq<Action>
      | PublishesAll(trace, actions, events, p) && trace[|actions|].limit == limit
      ensures Fits(events, p, limit)
    {
      ReachableInv(trace, actions, |actions|);
      ReachableNothingBlank(trace, actions, |actions|);
      PublishedDeliveriesFit(trace[|actions|], events, p);
    }
  }
}
