/**
 * What runs of the checkpointed analysis leave behind and can reach (worker.py `_analyze`, analysis.py): a completed
 * run has marked every checkpoint sent, and where the stored checkpoints are sound a new run can complete.
 */
module AnalysisRuns {
  import opened Prelude
  import opened Outbox
  import opened Analysis
  import opened AnalysisProtocol

  // ---- Completed runs leave nothing pending ----

  predicate IsSent(s: State, job: Job, name: string) {
    var id := CheckpointId(job.source, job.id, name);
    id in s.records && s.records[id].state == Sent
  }

  /** The checkpoints read are sent, and so is the one that is about to be read. */
  ghost predicate MarksOk(s: State, worker: Worker) {
    && |worker.results| <= |worker.job.names|
    && (forall k | 0 <= k < |worker.results| :: IsSent(s, worker.job, worker.job.names[k]))
    && (worker.pc.Checking? && |worker.results| < |worker.job.names| ==>
          IsSent(s, worker.job, worker.job.names[|worker.results|]))
  }

  lemma MarksStayOk(s: State, later: State, worker: Worker)
    requires MarksOk(s, worker) && Extends(s.records, later.records)
    ensures MarksOk(later, worker)
  {
  }

  /** Who begins to check a checkpoint has found it sent, or has marked it. */
  lemma CheckersHaveMarked(s: State, a: Action, w: nat, later: State)
    requires Enabled(s, a) && later == Next(s, a) && a != Check(w) && w in s.workers && WorkerOk(s, s.workers[w])
    requires |s.workers[w].results| < |s.workers[w].job.names| && later.workers[w].pc.Checking?
    ensures s.workers[w].pc.Checking? || IsSent(later, s.workers[w].job, Provider(s.workers[w]))
  {
  }

  lemma CheckedAreMarked(s: State, w: nat, later: State)
    requires Enabled(s, Check(w)) && later == Next(s, Check(w)) && MarksOk(s, s.workers[w])
    ensures w in later.workers && MarksOk(later, later.workers[w])
  {
    var worker, moved := s.workers[w], later.workers[w];
    assert later.records == s.records && moved.job == worker.job && !moved.pc.Checking?;
    forall k | 0 <= k < |moved.results| ensures IsSent(later, moved.job, moved.job.names[k]) {
      assert k < |worker.results| ==> IsSent(s, worker.job, worker.job.names[k]);
    }
  }

  lemma MarksNext(s: State, a: Action, w: nat)
    requires Inv(s) && Enabled(s, a) && w in Next(s, a).workers
    requires w in s.workers ==> MarksOk(s, s.workers[w])
    ensures MarksOk(Next(s, a), Next(s, a).workers[w])
  {
    if a == Check(w) {
      CheckedAreMarked(s, w, Next(s, a));
    } else if w in s.workers {
      StepExtends(s, a);
      StepMovesWorker(s, a, w);
      assert WorkerOk(s, s.workers[w]);
      MarksStayOk(s, Next(s, a), s.workers[w]);
      if |s.workers[w].results| < |s.workers[w].job.names| && Next(s, a).workers[w].pc.Checking? {
        CheckersHaveMarked(s, a, w, Next(s, a));
      }
    }
  }

  lemma {:induction false} ReachableMarks(trace: seq<State>, actions: seq<Action>, i: nat, w: nat)
    requires Run(trace, actions) && i < |trace| && w in trace[i].workers
    ensures MarksOk(trace[i], trace[i].workers[w])
  {
    if i > 0 {
      ReachableInv(trace, actions, i - 1);
      if w in trace[i - 1].workers {
        ReachableMarks(trace, actions, i - 1, w);
      }
      MarksNext(trace[i - 1], actions[i - 1], w);
    }
  }

  /**
   * A completed run has read one analysis of each provider that its event asks for - the one chosen, or all that are
   * configured for "both", or the default - and each of their checkpoints is marked sent, for good.
   */
  lemma CompletedRunsAreSettled(trace: seq<State>, actions: seq<Action>, i: nat, j: nat, w: nat)
    requires Run(trace, actions) && i <= j < |trace|
    requires w in trace[i].workers && trace[i].workers[w].pc.Completed?
    ensures var (job, routing) := (trace[i].workers[w].job, trace[0].routing);
      var choice := if job.selected == "" then routing.default else job.selected;
      && job.names == (if choice == "both" then routing.providers else [choice])
      && (forall name | name in job.names :: name in routing.providers && IsSent(trace[j], job, name))
      && |trace[i].workers[w].results| == |job.names|
  {
    ReachableInv(trace, actions, i);
    ReachableMarks(trace, actions, i, w);
    RunExtends(trace, actions, 0, i);
    RunExtends(trace, actions, i, j);
    assert WorkerOk(trace[i], trace[i].workers[w]);
    MarksStayOk(trace[i], trace[j], trace[i].workers[w]);
    RoutedProvidersAreConfigured(trace[0].routing, trace[i].workers[w].job.selected);
  }

  // ---- A new run can complete ----

  /** The run goes on, from where it was. */
  ghost predicate Continues(trace: seq<State>, actions: seq<Action>, longer: seq<State>, more: seq<Action>) {
    Run(trace, actions) && Run(longer, more) && trace <= longer && actions <= more
  }

  lemma Extended(trace: seq<State>, actions: seq<Action>, a: Action) returns (longer: seq<State>, more: seq<Action>)
    requires Run(trace, actions) && Enabled(trace[|actions|], a)
    ensures Continues(trace, actions, longer, more) && longer[|more|] == Next(trace[|actions|], a)
  {
    longer, more := trace + [Next(trace[|actions|], a)], actions + [a];
  }

  /** The worker stands before its `k`-th provider, or is done. */
  predicate Stands(s: State, w: nat, job: Job, k: nat) {
    && w in s.workers && s.workers[w].job == job && |s.workers[w].results| == k <= |job.names|
    && s.workers[w].pc == (if k == |job.names| then Completed else Looking)
  }

  /** Every stored checkpoint of the job is an analysis of its provider. */
  predicate Sound(s: State, job: Job) {
    forall name | name in job.names && CheckpointId(job.source, job.id, name) in s.records ::
      Interpreted(s.records[CheckpointId(job.source, job.id, name)].content, name).Ok?
  }

  lemma SoundWith(s: State, later: State, job: Job, name: string)
    requires Sound(s, job) && CheckpointId(job.source, job.id, name) in later.records
    requires Interpreted(later.records[CheckpointId(job.source, job.id, name)].content, name).Ok?
    requires forall id | id in later.records && id != CheckpointId(job.source, job.id, name) ::
      id in s.records && later.records[id].content == s.records[id].content
    ensures Sound(later, job)
  {
    forall other | other in job.names && CheckpointId(job.source, job.id, other) in later.records
      ensures Interpreted(later.records[CheckpointId(job.source, job.id, other)].content, other).Ok?
    {
      if CheckpointId(job.source, job.id, other) == CheckpointId(job.source, job.id, name) {
        var prefix := job.source + ":" + job.id + ":";
        assert CheckpointId(job.source, job.id, other)[|prefix|..] == other;
        assert CheckpointId(job.source, job.id, name)[|prefix|..] == name;
      }
    }
  }

  /** The checkpoint is in hand: it is marked if need be, and read. */
  lemma HeldIsRead(trace: seq<State>, actions: seq<Action>, w: nat, job: Job, k: nat)
    returns (longer: seq<State>, more: seq<Action>)
    requires Run(trace, actions) && k < |job.names| && w in trace[|actions|].workers
    requires var (s, id) := (trace[|actions|], CheckpointId(job.source, job.id, job.names[k]));
      && s.workers[w].job == job && |s.workers[w].results| == k && id in s.records
      && s.workers[w].pc == Held(s.records[id]) && Interpreted(s.records[id].content, job.names[k]).Ok?
    ensures Continues(trace, actions, longer, more) && Stands(longer[|more|], w, job, k + 1)
    ensures longer[|more|].called == trace[|actions|].called
    ensures longer[|more|].records ==
      MarkedSent(trace[|actions|].records, CheckpointId(job.source, job.id, job.names[k]))
  {
    longer, more := trace, actions;
    if trace[|actions|].workers[w].pc.Marking? {
      longer, more := Extended(longer, more, Mark(w));
    }
    longer, more := Extended(longer, more, Check(w));
  }

  /** A provider without a checkpoint is called, and its answer staged. */
  lemma ProviderAnswers(trace: seq<State>, actions: seq<Action>, w: nat, job: Job, k: nat, answer: AnalysisResult)
    returns (longer: seq<State>, more: seq<Action>)
    requires Run(trace, actions) && k < |job.names| && Stands(trace[|actions|], w, job, k)
    requires CheckpointId(job.source, job.id, job.names[k]) !in trace[|actions|].records
    ensures Continues(trace, actions, longer, more) && w in longer[|more|].workers
    ensures var (s, later, id) := (trace[|actions|], longer[|more|], CheckpointId(job.source, job.id, job.names[k]));
      && later.workers[w].job == job && |later.workers[w].results| == k
      && later.records == s.records[id := Record(AnalysisDict(answer), Pending)]
      && later.workers[w].pc == Held(later.records[id])
      && later.called == s.called + [(job.source, job.id, job.names[k])]
  {
    longer, more := Extended(trace, actions, Look(w));
    longer, more := Extended(longer, more, Answered(w, answer));
    longer, more := Extended(longer, more, CreateRecord(w));
    longer, more := Extended(longer, more, ReadBack(w));
  }

  /** The worker has a sound checkpoint of its `k`-th provider in hand, and all stored ones are sound. */
  predicate HasInHand(s: State, w: nat, job: Job, k: nat)
    requires k < |job.names|
  {
    var id := CheckpointId(job.source, job.id, job.names[k]);
    && w in s.workers && s.workers[w].job == job && |s.workers[w].results| == k && id in s.records
    && s.workers[w].pc == Held(s.records[id]) && Sound(s, job)
  }

  lemma CheckpointIsHeld(trace: seq<State>, actions: seq<Action>, w: nat, job: Job, k: nat, answer: AnalysisResult)
    returns (longer: seq<State>, more: seq<Action>)
    requires Run(trace, actions) && k < |job.names| && Stands(trace[|actions|], w, job, k)
    requires Sound(trace[|actions|], job) && IsAnswerOf(answer, job.names[k])
    ensures Continues(trace, actions, longer, more) && HasInHand(longer[|more|], w, job, k)
    ensures longer[|more|].called == trace[|actions|].called +
      if CheckpointId(job.source, job.id, job.names[k]) in trace[|actions|].records then []
      else [(job.source, job.id, job.names[k])]
  {
    if CheckpointId(job.source, job.id, job.names[k]) in trace[|actions|].records {
      longer, more := Extended(trace, actions, Look(w));
    } else {
      AnswersReadBack(answer, job.names[k]);
      longer, more := ProviderAnswers(trace, actions, w, job, k, answer);
      SoundWith(trace[|actions|], longer[|more|], job, job.names[k]);
    }
  }

  lemma ProviderIsRead(trace: seq<State>, actions: seq<Action>, w: nat, job: Job, k: nat, answer: AnalysisResult)
    returns (longer: seq<State>, more: seq<Action>)
    requires Run(trace, actions) && k < |job.names| && Stands(trace[|actions|], w, job, k)
    requires Sound(trace[|actions|], job) && IsAnswerOf(answer, job.names[k])
    ensures Continues(trace, actions, longer, more) && Stands(longer[|more|], w, job, k + 1)
    ensures Sound(longer[|more|], job)
    ensures longer[|more|].called == trace[|actions|].called +
      if CheckpointId(job.source, job.id, job.names[k]) in trace[|actions|].records then []
      else [(job.source, job.id, job.names[k])]
  {
    longer, more := CheckpointIsHeld(trace, actions, w, job, k, answer);
    var held := longer[|more|];
    longer, more := HeldIsRead(longer, more, w, job, k);
    SoundWith(held, longer[|more|], job, job.names[k]);
  }

  lemma {:induction false} ProvidersAreRead(
    trace: seq<State>, actions: seq<Action>, w: nat, job: Job, k: nat, answers: seq<AnalysisResult>)
    returns (longer: seq<State>, more: seq<Action>)
    requires Run(trace, actions) && Stands(trace[|actions|], w, job, k) && Sound(trace[|actions|], job)
    requires |answers| == |job.names| && forall n | 0 <= n < |answers| :: IsAnswerOf(answers[n], job.names[n])
    ensures Continues(trace, actions, longer, more) && Stands(longer[|more|], w, job, |job.names|)
    decreases |job.names| - k
  {
    longer, more := trace, actions;
    if k < |job.names| {
      longer, more := ProviderIsRead(trace, actions, w, job, k, answers[k]);
      longer, more := ProvidersAreRead(longer, more, w, job, k + 1, answers);
    }
  }

  /**
   * From every reachable state, whoever has crashed or failed: where the stored checkpoints of an event are sound and
   * its providers answer, a new run of the event can complete. An event that is routed nowhere fails at once.
   */
  lemma NewRunsCanComplete(trace: seq<State>, actions: seq<Action>, w: nat, source: string, id: string,
      selected: string, answers: seq<AnalysisResult>)
    returns (longer: seq<State>, more: seq<Action>)
    requires Run(trace, actions) && w !in trace[|actions|].workers
    requires var names := ProviderNames(trace[|actions|].routing, selected);
      names.Ok? ==>
        && Sound(trace[|actions|], Job(source, id, selected, names.value)) && |answers| == |names.value|
        && forall n | 0 <= n < |answers| :: IsAnswerOf(answers[n], names.value[n])
    ensures Continues(trace, actions, longer, more) && w in longer[|more|].workers
    ensures longer[|more|].workers[w].pc ==
      if ProviderNames(trace[|actions|].routing, selected).Ok? then Completed else Failed
  {
    var names := ProviderNames(trace[|actions|].routing, selected);
    longer, more := Extended(trace, actions, Begin(w, source, id, selected));
    if names.Ok? {
      longer, more := ProvidersAreRead(longer, more, w, Job(source, id, selected, names.value), 0, answers);
    }
  }
}
