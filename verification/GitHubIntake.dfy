/**
 * GitHub deliveries from request to queue (intake.py `github`): look the delivery up, admit it,
 * reserve quota, publish through the inbox. The quota calls are those of `QuotaProtocol` and the
 * publishing is that of `Inbox`, all interleaved with each other, with retries, crashes and the timer.
 */
module GitHubIntake {
  import opened Prelude
  import opened Events
  import opened Text
  import Outbox
  import Inbox
  import Quota
  import Q = QuotaProtocol
  import QS = QuotaSafety

  const SOURCE := "github"

  datatype Handler =
    | Looking(event: EventEnvelope)
    | Admitting(event: EventEnvelope)
    | Charging(event: EventEnvelope)
    | Publishing(event: EventEnvelope)
    | Ended

  datatype State = State(
    quota: Q.State,
    inbox: Inbox.State,
    limit: nat,
    handlers: map<nat, Handler>
  )

  datatype Action =
    | Arrive(h: nat, event: EventEnvelope)
    | Lookup(h: nat)
    | Admit(h: nat, admitted: bool, day: string) // the policy's verdict, and the day
    | QuotaStep(h: nat)
    | Charged(h: nat)
    | InboxStep(step: Inbox.Action)
    | Crash(h: nat)

  const REPOSITORY_KEY := "repository_id"

  /** The repository that a delivery is charged to: its id, which the event's metadata name, or else its full name. */
  function ScopeOf(e: EventEnvelope): string {
    if REPOSITORY_KEY in e.metadata && e.metadata[REPOSITORY_KEY].JText? && e.metadata[REPOSITORY_KEY].text != ""
    then e.metadata[REPOSITORY_KEY].text
    else if e.subject.Some? then e.subject.value
    else ""
  }

  function RepositoryOf(e: EventEnvelope): string {
    Quota.CaseFold(Strip(ScopeOf(e)))
  }

  predicate In(s: State, h: nat) {
    h in s.handlers
  }

  /** Inbox steps, except that GitHub events enter the inbox through their handlers only. */
  predicate Free(s: State, step: Inbox.Action) {
    step.Begin? ==> step.event.source != SOURCE
  }

  predicate Enabled(s: State, a: Action) {
    match a
    case Arrive(h, event) =>
      !In(s, h) && h !in s.inbox.workers && h !in s.quota.calls && event.source == SOURCE
    case Lookup(h) => In(s, h) && s.handlers[h].Looking? && h !in s.inbox.workers
    case Admit(h, _, _) => In(s, h) && s.handlers[h].Admitting? && h !in s.quota.calls
    case QuotaStep(h) => In(s, h) && s.handlers[h].Charging? && Q.Enabled(s.quota, Q.Step(h))
    case Charged(h) =>
      && In(s, h) && s.handlers[h].Charging? && h !in s.inbox.workers
      && h in s.quota.calls && s.quota.calls[h].pc.Returned?
    case InboxStep(step) => Inbox.Enabled(s.inbox, step) && Free(s, step)
    case Crash(h) => In(s, h)
  }

  function Goto(s: State, h: nat, handler: Handler): State {
    s.(handlers := s.handlers[h := handler])
  }

  function Publish(s: State, h: nat, event: EventEnvelope): State
    requires h !in s.inbox.workers
  {
    Goto(s, h, Publishing(event)).(inbox := Inbox.Next(s.inbox, Inbox.Begin(h, event)))
  }

  function Next(s: State, a: Action): State
    requires Enabled(s, a)
  {
    match a
    case Arrive(h, event) => Goto(s, h, Looking(event))
    case Lookup(h) =>
      var event := s.handlers[h].event;
      if Outbox.KeyOf(event) in s.inbox.records then Publish(s, h, event) // a duplicate, or a send to recover
      else Goto(s, h, Admitting(event))
    case Admit(h, admitted, day) =>
      var event := s.handlers[h].event;
      if !admitted then Goto(s, h, Ended)
      else (match Quota.Validated(ScopeOf(event), event.id, s.limit)
        case Err(_) => Goto(s, h, Ended)
        case Ok((repository, id)) =>
          Goto(s, h, Charging(event)).(
            quota := Q.Next(s.quota, Q.Invoke(h, Quota.Partition(repository, day), id, s.limit))))
    case QuotaStep(h) => s.(quota := Q.Next(s.quota, Q.Step(h)))
    case Charged(h) =>
      if s.quota.calls[h].pc == Q.Returned(Quota.Allowed) then Publish(s, h, s.handlers[h].event)
      else Goto(s, h, Ended)
    case InboxStep(step) => s.(inbox := Inbox.Next(s.inbox, step))
    case Crash(h) => Goto(s, h, Ended)
  }

  ghost predicate Init(s: State) {
    Q.Init(s.quota) && s.inbox == Inbox.Start() && s.handlers == map[]
  }

  ghost predicate Run(trace: seq<State>, actions: seq<Action>) {
    && |trace| == |actions| + 1
    && Init(trace[0])
    && forall i {:trigger actions[i]} | 0 <= i < |actions| ::
         Enabled(trace[i], actions[i]) && trace[i + 1] == Next(trace[i], actions[i])
  }

  // ---- What holds in every reachable state ----

  /** The delivery is reserved in the repository-day. */
  predicate IsCharged(s: State, e: EventEnvelope, p: Quota.Partition) {
    RepositoryOf(e) == p.repository && Strip(e.id) in Quota.At(s.quota.reserved, p)
  }

  /** Some day of the delivery's own repository has a reservation for it. */
  ghost predicate HasReservation(s: State, e: EventEnvelope) {
    exists p :: IsCharged(s, e, p)
  }

  ghost predicate HandlerOk(s: State, h: nat, handler: Handler) {
    match handler
    case Looking(event) => event.source == SOURCE && h !in s.quota.calls
    case Admitting(event) => event.source == SOURCE && h !in s.quota.calls
    case Charging(event) =>
      && event.source == SOURCE && h in s.quota.calls && s.quota.calls[h].event == Strip(event.id)
      && s.quota.calls[h].partition.repository == RepositoryOf(event)
    case _ => true
  }

  /** Handlers are in order, and every quota call is a handler's. */
  ghost predicate Handled(s: State) {
    && (forall h | h in s.handlers :: HandlerOk(s, h, s.handlers[h]))
    && (forall c | c in s.quota.calls :: c in s.handlers)
  }

  ghost predicate PcPaid(s: State, pc: Inbox.Pc) {
    (pc.Staging? || pc.Reading?) && pc.event.source == SOURCE ==>
      Outbox.KeyOf(pc.event) in s.inbox.records || HasReservation(s, pc.event)
  }

  ghost predicate Paid(s: State) {
    && (forall k | k in s.inbox.records && k.0 == SOURCE :: HasReservation(s, s.inbox.records[k].content.event))
    && (forall w | w in s.inbox.workers :: PcPaid(s, s.inbox.workers[w]))
  }

  ghost predicate WithinLimit(s: State) {
    && (forall c | c in s.quota.calls :: s.quota.calls[c].limit == s.limit)
    && (forall p :: |Quota.At(s.quota.reserved, p)| <= s.limit)
  }

  ghost predicate Inv(s: State) {
    && Q.Inv(s.quota) && Inbox.Inv(s.inbox)
    && Handled(s) && Paid(s) && WithinLimit(s)
  }

  // ---- The components' steps ----

  ghost function StepOfQuota(s: State, a: Action): Option<Q.Action>
    requires Enabled(s, a)
  {
    match a
    case QuotaStep(h) => Some(Q.Step(h))
    case Admit(h, admitted, day) =>
      (match Quota.Validated(ScopeOf(s.handlers[h].event), s.handlers[h].event.id, s.limit)
        case Ok((repository, id)) =>
          if admitted then Some(Q.Invoke(h, Quota.Partition(repository, day), id, s.limit)) else None
        case Err(_) => None)
    case _ => None
  }

  ghost function StepOfInbox(s: State, a: Action): Option<Inbox.Action>
    requires Enabled(s, a)
  {
    match a
    case InboxStep(step) => Some(step)
    case Lookup(h) => if Next(s, a).handlers[h].Publishing? then Some(Inbox.Begin(h, s.handlers[h].event)) else None
    case Charged(h) => if Next(s, a).handlers[h].Publishing? then Some(Inbox.Begin(h, s.handlers[h].event)) else None
    case _ => None
  }

  lemma ComponentsFollow(s: State, a: Action)
    requires Enabled(s, a)
    ensures match StepOfQuota(s, a)
      case None => Next(s, a).quota == s.quota
      case Some(step) => Q.Enabled(s.quota, step) && Next(s, a).quota == Q.Next(s.quota, step)
    ensures match StepOfInbox(s, a)
      case None => Next(s, a).inbox == s.inbox
      case Some(step) => Inbox.Enabled(s.inbox, step) && Next(s, a).inbox == Inbox.Next(s.inbox, step)
    ensures Next(s, a).limit == s.limit
  {
  }

  lemma ComponentsKept(s: State, a: Action)
    requires Q.Inv(s.quota) && Inbox.Inv(s.inbox) && Enabled(s, a)
    ensures Q.Inv(Next(s, a).quota) && Inbox.Inv(Next(s, a).inbox)
  {
    ComponentsFollow(s, a);
    if StepOfQuota(s, a).Some? {
      QS.StepKeepsInv(s.quota, StepOfQuota(s, a).value);
    }
    if StepOfInbox(s, a).Some? {
      Inbox.StepKeepsInv(s.inbox, StepOfInbox(s, a).value);
    }
  }

  /** Reservations are never taken back, and their owners' calls keep what they were called with. */
  ghost predicate QuotaGrows(s: State, later: State) {
    && (forall p :: Quota.At(s.quota.reserved, p) <= Quota.At(later.quota.reserved, p))
    && (forall c | c in s.quota.calls ::
          && c in later.quota.calls && later.quota.calls[c].event == s.quota.calls[c].event
          && later.quota.calls[c].partition == s.quota.calls[c].partition)
  }

  lemma StepGrowsQuota(s: State, a: Action)
    requires Enabled(s, a)
    ensures QuotaGrows(s, Next(s, a))
  {
    ComponentsFollow(s, a);
    if StepOfQuota(s, a).Some? {
      QS.StepMovesTables(s.quota, StepOfQuota(s, a).value);
      QS.StepMovesCalls(s.quota, StepOfQuota(s, a).value);
    }
  }

  lemma LimitKept(s: State, a: Action)
    requires Q.Inv(s.quota) && WithinLimit(s) && Enabled(s, a)
    ensures WithinLimit(Next(s, a))
  {
    ComponentsFollow(s, a);
    if StepOfQuota(s, a).Some? {
      var step := StepOfQuota(s, a).value;
      QS.StepMovesCalls(s.quota, step);
      forall c | c in Next(s, a).quota.calls ensures Next(s, a).quota.calls[c].limit == s.limit {
        QS.StepKeepsLimits(s.quota, step, c);
      }
      forall p ensures |Quota.At(Next(s, a).quota.reserved, p)| <= s.limit {
        QS.StepStaysWithin(s.quota, step, p, s.limit);
      }
    }
  }

  lemma CallsAreHandled(s: State, a: Action, c: nat)
    requires Handled(s) && Enabled(s, a) && c in Next(s, a).quota.calls
    ensures c in Next(s, a).handlers
    ensures c !in s.quota.calls ==> a.Admit? && a.h == c && Next(s, a).handlers[c].Charging?
  {
    ComponentsFollow(s, a);
    if StepOfQuota(s, a).Some? {
      QS.StepMovesCalls(s.quota, StepOfQuota(s, a).value);
    }
  }

  lemma HandlerStaysOk(s: State, later: State, h: nat, handler: Handler)
    requires HandlerOk(s, h, handler) && QuotaGrows(s, later)
    requires h in later.quota.calls ==> h in s.quota.calls
    ensures HandlerOk(later, h, handler)
  {
  }

  lemma AdmittedHandlerOk(s: State, a: Action)
    requires Handled(s) && Enabled(s, a) && a.Admit?
    ensures HandlerOk(Next(s, a), a.h, Next(s, a).handlers[a.h])
  {
    assert HandlerOk(s, a.h, s.handlers[a.h]);
  }

  lemma ArrivedHandlerOk(s: State, a: Action, later: State)
    requires Enabled(s, a) && a.Arrive? && later == Next(s, a)
    ensures HandlerOk(later, a.h, later.handlers[a.h])
  {
  }

  lemma LookedUpHandlerOk(s: State, a: Action, later: State)
    requires Enabled(s, a) && a.Lookup? && HandlerOk(s, a.h, s.handlers[a.h]) && later == Next(s, a)
    ensures HandlerOk(later, a.h, later.handlers[a.h])
  {
  }

  /** Whoever is neither new nor looking the delivery up moves to where nothing more is known. */
  lemma HandlersMove(s: State, a: Action, h: nat)
    requires Enabled(s, a) && !a.Admit? && h in Next(s, a).handlers
    requires h in s.handlers ==> Next(s, a).handlers[h] != s.handlers[h]
    ensures if a.Arrive? || a.Lookup? then a.h == h
      else Next(s, a).handlers[h].Publishing? || Next(s, a).handlers[h].Ended?
  {
  }

  lemma MovedHandlerOk(s: State, a: Action, h: nat)
    requires Handled(s) && Enabled(s, a) && !a.Admit? && h in Next(s, a).handlers
    requires h in s.handlers ==> Next(s, a).handlers[h] != s.handlers[h]
    ensures HandlerOk(Next(s, a), h, Next(s, a).handlers[h])
  {
    HandlersMove(s, a, h);
    if a.Arrive? {
      ArrivedHandlerOk(s, a, Next(s, a));
    } else if a.Lookup? {
      assert HandlerOk(s, h, s.handlers[h]);
      LookedUpHandlerOk(s, a, Next(s, a));
    }
  }

  lemma HandlerKept(s: State, a: Action, h: nat)
    requires Handled(s) && Enabled(s, a) && h in Next(s, a).handlers
    requires h in Next(s, a).quota.calls && h !in s.quota.calls ==>
      a.Admit? && a.h == h && Next(s, a).handlers[h].Charging?
    requires QuotaGrows(s, Next(s, a))
    ensures HandlerOk(Next(s, a), h, Next(s, a).handlers[h])
  {
    if a.Admit? && a.h == h {
      AdmittedHandlerOk(s, a);
    } else if h in s.handlers && Next(s, a).handlers[h] == s.handlers[h] {
      HandlerStaysOk(s, Next(s, a), h, s.handlers[h]);
    } else {
      MovedHandlerOk(s, a, h);
    }
  }

  lemma HandlersKept(s: State, a: Action)
    requires Handled(s) && Enabled(s, a)
    ensures Handled(Next(s, a))
  {
    StepGrowsQuota(s, a);
    forall c | c in Next(s, a).quota.calls ensures c in Next(s, a).handlers {
      CallsAreHandled(s, a, c);
    }
    forall h | h in Next(s, a).handlers ensures HandlerOk(Next(s, a), h, Next(s, a).handlers[h]) {
      if h in Next(s, a).quota.calls {
        CallsAreHandled(s, a, h);
      }
      HandlerKept(s, a, h);
    }
  }

  lemma ReservationKept(s: State, later: State, e: EventEnvelope)
    requires HasReservation(s, e) && QuotaGrows(s, later)
    ensures HasReservation(later, e)
  {
    var p :| IsCharged(s, e, p);
    assert IsCharged(later, e, p);
  }

  /** Only a charged or an already staged delivery begins to publish. */
  lemma BeginnersArePaid(s: State, a: Action)
    requires Inv(s) && Enabled(s, a)
    requires StepOfInbox(s, a).Some? && StepOfInbox(s, a).value.Begin?
    requires StepOfInbox(s, a).value.event.source == SOURCE
    ensures var event := StepOfInbox(s, a).value.event;
      Outbox.KeyOf(event) in s.inbox.records || HasReservation(s, event)
  {
    var event := StepOfInbox(s, a).value.event;
    if !a.Lookup? {
      assert a.Charged? && HandlerOk(s, a.h, s.handlers[a.h]);
      var call := s.quota.calls[a.h];
      assert Q.CallOk(s.quota, a.h, call);
      assert IsCharged(s, event, call.partition);
    }
  }

  /** A claim check is charged to the repository of the event that it stands for. */
  lemma DispatchKeepsCharge(s: State, e: EventEnvelope, container: Option<string>)
    requires HasReservation(s, e)
    ensures HasReservation(s, Inbox.Dispatched(e, container))
  {
    var p :| IsCharged(s, e, p);
    assert RepositoryOf(Inbox.Dispatched(e, container)) == RepositoryOf(e);
    assert IsCharged(s, Inbox.Dispatched(e, container), p);
  }

  lemma NewRecordsArePaid(s: State, a: Action, k: Outbox.Key)
    requires Paid(s) && Enabled(s, a) && k in Next(s, a).inbox.records && k !in s.inbox.records && k.0 == SOURCE
    ensures HasReservation(s, Next(s, a).inbox.records[k].content.event)
  {
    ComponentsFollow(s, a);
    var step := StepOfInbox(s, a).value;
    var pc := s.inbox.workers[step.w];
    assert step.CreateRecord? && PcPaid(s, pc);
    DispatchKeepsCharge(s, pc.event, step.container);
  }

  lemma RecordsKept(s: State, a: Action)
    requires Enabled(s, a)
    ensures Outbox.Extends(s.inbox.records, Next(s, a).inbox.records)
  {
    ComponentsFollow(s, a);
    if StepOfInbox(s, a).Some? {
      Inbox.StepGrows(s.inbox, StepOfInbox(s, a).value);
    }
  }

  lemma PcPaidKept(s: State, a: Action, w: nat)
    requires Inv(s) && Enabled(s, a) && w in Next(s, a).inbox.workers && QuotaGrows(s, Next(s, a))
    requires Outbox.Extends(s.inbox.records, Next(s, a).inbox.records)
    ensures PcPaid(Next(s, a), Next(s, a).inbox.workers[w])
  {
    ComponentsFollow(s, a);
    var pc := Next(s, a).inbox.workers[w];
    if (pc.Staging? || pc.Reading?) && pc.event.source == SOURCE {
      if StepOfInbox(s, a).Some? {
        Inbox.EventsOnlyMove(s.inbox, StepOfInbox(s, a).value, w);
      }
      if w in s.inbox.workers {
        assert PcPaid(s, s.inbox.workers[w]);
      } else {
        BeginnersArePaid(s, a);
      }
      if Outbox.KeyOf(pc.event) !in s.inbox.records {
        ReservationKept(s, Next(s, a), pc.event);
      }
    }
  }

  lemma PaidKept(s: State, a: Action)
    requires Inv(s) && Enabled(s, a)
    ensures Paid(Next(s, a))
  {
    var later := Next(s, a);
    StepGrowsQuota(s, a);
    RecordsKept(s, a);
    forall k | k in later.inbox.records && k.0 == SOURCE
      ensures HasReservation(later, later.inbox.records[k].content.event)
    {
      if k !in s.inbox.records {
        NewRecordsArePaid(s, a, k);
      }
      ReservationKept(s, later, later.inbox.records[k].content.event);
    }
    forall w | w in later.inbox.workers ensures PcPaid(later, later.inbox.workers[w]) {
      PcPaidKept(s, a, w);
    }
  }

  lemma StepKeepsInv(s: State, a: Action)
    requires Inv(s) && Enabled(s, a)
    ensures Inv(Next(s, a))
  {
    ComponentsFollow(s, a);
    ComponentsKept(s, a);
    HandlersKept(s, a);
    PaidKept(s, a);
    LimitKept(s, a);
  }

  lemma {:induction false} ReachableInv(trace: seq<State>, actions: seq<Action>, i: nat)
    requires Run(trace, actions) && i < |trace|
    ensures Inv(trace[i])
  {
    if i > 0 {
      ReachableInv(trace, actions, i - 1);
      StepKeepsInv(trace[i - 1], actions[i - 1]);
    }
  }

  // ---- The spend bound ----

  /** The ids of the deliveries ever published that are charged to the repository-day, and the ids once trimmed. */
  ghost function PublishedIds(s: State, p: Quota.Partition): set<string> {
    set e | e in s.inbox.sends && e.source == SOURCE && IsCharged(s, e, p) :: e.id
  }

  ghost function TrimmedIds(ids: set<string>): set<string> {
    set id | id in ids :: Strip(id)
  }

  /** No two of the ids differ in surrounding white space only. */
  ghost predicate ToldApart(ids: set<string>) {
    forall a, b | a in ids && b in ids && Strip(a) == Strip(b) :: a == b
  }

  lemma {:induction false} TrimmingKeepsSize(ids: set<string>)
    requires ToldApart(ids)
    ensures |TrimmedIds(ids)| == |ids|
  {
    if ids != {} {
      var id :| id in ids;
      TrimmingKeepsSize(ids - {id});
      assert TrimmedIds(ids) == TrimmedIds(ids - {id}) + {Strip(id)};
    }
  }

  /**
   * End to end, for every run: each staged and each published delivery is charged to some day of its own
   * repository; a repository-day is never charged for more than `limit` published deliveries, counting those
   * alike that differ in surrounding white space only; and so for more than `limit` ids if no two differ so.
   */
  lemma SpendIsBounded(trace: seq<State>, actions: seq<Action>, i: nat, p: Quota.Partition)
    requires Run(trace, actions) && i < |trace|
    ensures forall k | k in trace[i].inbox.records && k.0 == SOURCE ::
      HasReservation(trace[i], trace[i].inbox.records[k].content.event)
    ensures forall e | e in trace[i].inbox.sends && e.source == SOURCE :: HasReservation(trace[i], e)
    ensures |TrimmedIds(PublishedIds(trace[i], p))| <= trace[i].limit
    ensures ToldApart(PublishedIds(trace[i], p)) ==> |PublishedIds(trace[i], p)| <= trace[i].limit
  {
    var s := trace[i];
    ReachableInv(trace, actions, i);
    forall e | e in s.inbox.sends && e.source == SOURCE ensures HasReservation(s, e) {
      assert Inbox.IsStored(s.inbox, e) && Outbox.KeyOf(e) in s.inbox.records;
    }
    SubsetIsNoLarger(TrimmedIds(PublishedIds(s, p)), Quota.At(s.quota.reserved, p));
    if ToldApart(PublishedIds(s, p)) {
      TrimmingKeepsSize(PublishedIds(s, p));
    }
  }

  /** Ids without surrounding white space are always told apart. */
  lemma TrimmedIdsAreToldApart(ids: set<string>)
    requires forall id | id in ids :: Trimmed(id)
    ensures ToldApart(ids)
  {
    forall a, b | a in ids && b in ids && Strip(a) == Strip(b) ensures a == b {
      StripCharacterised(a);
      StripCharacterised(b);
    }
  }

  // ---- Redelivery ----

  lemma PublisherStaysAway(s: State, a: Action, h: nat)
    requires Enabled(s, a) && h in s.handlers && (s.handlers[h].Publishing? || s.handlers[h].Ended?)
    requires h !in s.quota.calls
    ensures var later := Next(s, a);
      h in later.handlers && (later.handlers[h].Publishing? || later.handlers[h].Ended?) && h !in later.quota.calls
  {
    ComponentsFollow(s, a);
    if StepOfQuota(s, a).Some? {
      QS.StepMovesCalls(s.quota, StepOfQuota(s, a).value);
    }
  }

  /** A redelivery of a staged record goes straight to publishing, and its handler never calls the quota. */
  lemma {:induction false} RedeliveryIsFree(trace: seq<State>, actions: seq<Action>, i: nat, j: nat)
    requires Run(trace, actions) && i < j < |trace| && actions[i].Lookup?
    requires Outbox.KeyOf(trace[i].handlers[actions[i].h].event) in trace[i].inbox.records
    ensures trace[i + 1].quota == trace[i].quota
    ensures var (h, event) := (actions[i].h, trace[i].handlers[actions[i].h].event);
      trace[i + 1].handlers[h] == Publishing(event) && trace[i + 1].inbox.workers[h] == Inbox.Staging(event)
    ensures var h := actions[i].h;
      && h in trace[j].handlers && (trace[j].handlers[h].Publishing? || trace[j].handlers[h].Ended?)
      && h !in trace[j].quota.calls
    decreases j
  {
    var h := actions[i].h;
    if j == i + 1 {
      ReachableInv(trace, actions, i);
      assert HandlerOk(trace[i], h, trace[i].handlers[h]);
    } else {
      RedeliveryIsFree(trace, actions, i, j - 1);
      PublisherStaysAway(trace[j - 1], actions[j - 1], h);
    }
  }
}
