/**
 * Which GitHub deliveries get through (intake.py `github`), in every run: those already staged, and those that the
 * policy admits and the quota allows; and which of them one limit counts together.
 */
module GitHubHandlers {
  import opened Prelude
  import opened Events
  import opened Text
  import opened GitHubIntake
  import Outbox
  import Inbox
  import Quota
  import Q = QuotaProtocol

  /** The quota can be asked for the delivery. */
  predicate IsRequest(e: EventEnvelope, limit: nat) {
    Strip(ScopeOf(e)) != "" && Strip(e.id) != "" && limit >= 1
  }

  /** The delivery is turned away: by the policy, as no valid request of the quota, or by the quota's answer. */
  predicate TurnsAway(s: State, a: Action, h: nat) {
    Enabled(s, a) &&
    match a
    case Admit(g, admitted, _) => g == h && !(admitted && IsRequest(s.handlers[h].event, s.limit))
    case Charged(g) => g == h && s.quota.calls[h].pc.outcome != Quota.Allowed
    case _ => false
  }

  /** The delivery may be published: it is staged already, or the quota has allowed it. */
  predicate LetsThrough(s: State, a: Action, h: nat) {
    Enabled(s, a) &&
    match a
    case Lookup(g) => g == h && Outbox.KeyOf(s.handlers[h].event) in s.inbox.records
    case Charged(g) => g == h && s.quota.calls[h].pc.outcome == Quota.Allowed
    case _ => false
  }

  /** The step is the handler's own, and no crash. */
  predicate Handles(a: Action, h: nat) {
    match a
    case Lookup(g) => g == h
    case Admit(g, _, _) => g == h
    case QuotaStep(g) => g == h
    case Charged(g) => g == h
    case _ => false
  }

  /** What the handler does next. */
  lemma HandlerMoves(s: State, a: Action, h: nat)
    requires Enabled(s, a) && h in s.handlers
    ensures var later := Next(s, a);
      && h in later.handlers
      && (TurnsAway(s, a, h) ==> later.handlers[h].Ended? && later.quota == s.quota && later.inbox == s.inbox)
      && (LetsThrough(s, a, h) ==>
            && s.handlers[h].event == later.handlers[h].event && later.handlers[h].Publishing?
            && h in later.inbox.workers && later.inbox.workers[h] == Inbox.Staging(s.handlers[h].event))
      && (later.handlers[h].Publishing? && !s.handlers[h].Publishing? ==> LetsThrough(s, a, h))
      && (s.handlers[h].Ended? ==> later.handlers[h].Ended? && !Handles(a, h))
  {
    if a.Admit? && a.h == h {
      Quota.CaseAndSpaceShareALimit(
        ScopeOf(s.handlers[h].event), ScopeOf(s.handlers[h].event), s.handlers[h].event.id, s.handlers[h].event.id,
        s.limit, s.limit);
    }
  }

  lemma {:induction false} EndedIsFinal(trace: seq<State>, actions: seq<Action>, i: nat, j: nat, h: nat)
    requires Run(trace, actions) && i <= j < |trace| && h in trace[i].handlers && trace[i].handlers[h].Ended?
    ensures h in trace[j].handlers && trace[j].handlers[h].Ended? && (j < |actions| ==> !Handles(actions[j], h))
    decreases j
  {
    if i < j {
      EndedIsFinal(trace, actions, i, j - 1, h);
      HandlerMoves(trace[j - 1], actions[j - 1], h);
    }
    if j < |actions| {
      HandlerMoves(trace[j], actions[j], h);
    }
  }

  /** A delivery turned away reserves and stages nothing, then or later. */
  lemma TurnedAwayIsFinal(trace: seq<State>, actions: seq<Action>, i: nat, j: nat, h: nat)
    requires Run(trace, actions) && i < j < |trace| && TurnsAway(trace[i], actions[i], h)
    ensures trace[i + 1].quota == trace[i].quota && trace[i + 1].inbox == trace[i].inbox
    ensures h in trace[j].handlers && trace[j].handlers[h].Ended? && (j < |actions| ==> !Handles(actions[j], h))
  {
    HandlerMoves(trace[i], actions[i], h);
    EndedIsFinal(trace, actions, i + 1, j, h);
  }

  /** Some earlier step has let the delivery through. */
  ghost predicate WasLetThrough(trace: seq<State>, actions: seq<Action>, j: nat, h: nat)
    requires |trace| == |actions| + 1
  {
    exists i | 0 <= i < |actions| && i < j :: LetsThrough(trace[i], actions[i], h)
  }

  /** Its handler enters the inbox with a delivery that was let through, and with no other. */
  lemma {:induction false} PublishersWereLetThrough(trace: seq<State>, actions: seq<Action>, j: nat, h: nat)
    requires Run(trace, actions) && j < |trace| && h in trace[j].handlers
    ensures trace[j].handlers[h].Publishing? ==> WasLetThrough(trace, actions, j, h)
    ensures j < |actions| && LetsThrough(trace[j], actions[j], h) ==>
      && trace[j + 1].handlers[h] == Publishing(trace[j].handlers[h].event)
      && h in trace[j + 1].inbox.workers
      && trace[j + 1].inbox.workers[h] == Inbox.Staging(trace[j].handlers[h].event)
  {
    if j > 0 && trace[j].handlers[h].Publishing? {
      var s, a := trace[j - 1], actions[j - 1];
      if h in s.handlers {
        PublishersWereLetThrough(trace, actions, j - 1, h);
        HandlerMoves(s, a, h);
      }
    }
    if j < |actions| {
      HandlerMoves(trace[j], actions[j], h);
    }
  }

  /** The metadata name the repository by an id. */
  predicate NamesId(e: EventEnvelope, id: string) {
    REPOSITORY_KEY in e.metadata && e.metadata[REPOSITORY_KEY] == JText(id) && id != ""
  }

  predicate NamesOnly(e: EventEnvelope, name: string) {
    REPOSITORY_KEY !in e.metadata && e.subject == Some(name)
  }

  /**
   * Deliveries that name their repository's id are counted together if and only if the ids agree but for case and
   * outer white space, whatever the repository is called; those that name none go by the repository's name.
   */
  lemma RenamedRepositoriesShareALimit(e: EventEnvelope, f: EventEnvelope, i: string, j: string)
    ensures NamesId(e, i) && NamesId(f, j) ==>
      (RepositoryOf(e) == RepositoryOf(f) <==> DifferInCaseOnly(Strip(i), Strip(j)))
    ensures NamesOnly(e, i) && NamesOnly(f, j) ==>
      (RepositoryOf(e) == RepositoryOf(f) <==> DifferInCaseOnly(Strip(i), Strip(j)))
  {
    Quota.CaseFoldIgnoresCaseOnly(Strip(i), Strip(j));
  }
}
