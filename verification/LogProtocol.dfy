/** The same runtime and store under interference: any number of writers over any number of logs,
    interleaved between every two awaits of `record`. */
module LogProtocol {
  import opened Wrappers
  import opened Domain
  import opened EventLog
  import opened Seqs

  datatype Draft = Draft(payload: AgentEvent, causation: Option<EventId>, provenance: EventProvenance)

  /** Where a writer stands inside `record`: about to append, or about to refresh after a conflict. */
  datatype Phase =
    | Idle
    | Submitting(event: Event, next: Projection, retried: bool)
    | Conflicted(draft: Draft)

  datatype Writer = Writer(projection: Projection, phase: Phase)

  /** `returned` lists the events that `record` calls have returned, in order. */
  datatype World = World(logs: map<TaskId, seq<Event>>, writers: map<nat, Writer>, returned: seq<Event>)

  datatype Step =
    | Open(writer: nat, task: TaskId)
    | Recover(writer: nat, task: TaskId)
    | Refresh(writer: nat)
    | Begin(writer: nat, draft: Draft, id: EventId)
    | Submit(writer: nat)
    | Retry(writer: nat, id: EventId)

  function LogOf(w: World, task: TaskId): seq<Event> {
    FileOf(w.logs, task)
  }

  /** Drafts an event on a projection and validates it on a copy. */
  function Prepare(p: Projection, draft: Draft, id: EventId, retried: bool): Phase {
    var event := Event(id, p.task, NextSequence(p), draft.causation, draft.provenance, draft.payload);
    match Apply(p, event)
    case Success(next) => Submitting(event, next, retried)
    case Failure(_) => Idle
  }

  /** `load_task` followed by a replay: what a writer sees when it (re)reads its log. */
  function Reload(task: TaskId, log: seq<Event>): Option<Projection> {
    if !Contiguous(task, log) then None
    else match Fold(task, log) case Success(p) => Some(p) case Failure(_) => None
  }

  function SetWriter(w: World, i: nat, writer: Writer): World {
    w.(writers := w.writers[i := writer])
  }

  function DoSubmit(w: World, i: nat): World
    requires i in w.writers && w.writers[i].phase.Submitting?
  {
    var Submitting(event, next, retried) := w.writers[i].phase;
    var p := w.writers[i].projection;
    match StoreAppend(LogOf(w, event.task), event)
    case Success(log) =>
      World(w.logs[event.task := log], w.writers[i := Writer(next, Idle)], w.returned + [event])
    case Failure(error) =>
      if error == SequenceConflict && !retried
      then SetWriter(w, i, Writer(p, Conflicted(Draft(event.payload, event.causation, event.provenance))))
      else SetWriter(w, i, Writer(p, Idle))
  }

  /** One atomic step of one writer. A step that is not enabled leaves the world alone, so every
      sequence of steps is a run. */
  function Next(w: World, step: Step): World {
    match step
    case Open(i, task) =>
      if i in w.writers then w else SetWriter(w, i, Writer(NewProjection(task), Idle))
    case Recover(i, task) =>
      var log := LogOf(w, task);
      if i in w.writers || log == [] || Reload(task, log).None? then w
      else SetWriter(w, i, Writer(Reload(task, log).value, Idle))
    case Refresh(i) =>
      if i !in w.writers || !w.writers[i].phase.Idle? then w
      else
        var p := w.writers[i].projection;
        var reloaded := Reload(p.task, LogOf(w, p.task));
        if reloaded.None? then w else SetWriter(w, i, Writer(reloaded.value, Idle))
    case Begin(i, draft, id) =>
      if i !in w.writers || !w.writers[i].phase.Idle? then w
      else
        var p := w.writers[i].projection;
        if ForbiddenToChild(p.task, draft.payload) then w
        else SetWriter(w, i, Writer(p, Prepare(p, draft, id, false)))
    case Submit(i) =>
      if i !in w.writers || !w.writers[i].phase.Submitting? then w else DoSubmit(w, i)
    case Retry(i, id) =>
      if i !in w.writers || !w.writers[i].phase.Conflicted? then w
      else
        var Writer(p, Conflicted(draft)) := w.writers[i];
        var reloaded := Reload(p.task, LogOf(w, p.task));
        if reloaded.None? then SetWriter(w, i, Writer(p, Idle))
        else SetWriter(w, i, Writer(reloaded.value, Prepare(reloaded.value, draft, id, true)))
  }

  function Run(w: World, steps: seq<Step>): World {
    if steps == [] then w else Next(Run(w, steps[..|steps| - 1]), steps[|steps| - 1])
  }

  ghost predicate Sane(w: World) {
    forall t :: t in w.logs ==> Replayable(t, w.logs[t])
  }

  ghost predicate WriterSane(w: World, writer: Writer) {
    && IsPrefixProjection(writer.projection, writer.projection.task, LogOf(w, writer.projection.task))
    && (writer.phase.Submitting? ==> Apply(writer.projection, writer.phase.event) == Success(writer.phase.next))
  }

  ghost predicate WritersSane(w: World) {
    forall i :: i in w.writers ==> WriterSane(w, w.writers[i])
  }

  /** Each log is its original content followed by the returned events of that task: every
      successful `record` appended exactly its event, and nothing else appended anything. */
  ghost predicate Accounted(start: World, w: World) {
    forall t: TaskId :: AccountedFor(start, w, t)
  }

  ghost predicate AccountedFor(start: World, w: World, t: TaskId) {
    LogOf(w, t) == LogOf(start, t) + OfTask(w.returned, t)
  }

  /** No log has reached the ceiling of its 64-bit sequence numbers. */
  ghost predicate BelowCeiling(w: World) {
    forall t :: t in w.logs ==> |w.logs[t]| < U64_MAX
  }

  ghost predicate IsStart(w: World) {
    Sane(w) && w.writers == map[] && w.returned == []
  }

  lemma ReloadIsFold(task: TaskId, log: seq<Event>)
    requires Replayable(task, log)
    ensures Reload(task, log) == Some(Fold(task, log).value)
    ensures IsPrefixProjection(Fold(task, log).value, task, log)
  {
    FoldIsContiguous(task, log);
    WholeFoldIsPrefixProjection(task, log);
  }

  lemma OfTaskSnoc(events: seq<Event>, event: Event, task: TaskId)
    ensures OfTask(events + [event], task) == OfTask(events, task) + if event.task == task then [event] else []
  {
    assert (events + [event])[..|events|] == events;
  }

  lemma PrepareIsSane(w: World, p: Projection, draft: Draft, id: EventId, retried: bool)
    requires IsPrefixProjection(p, p.task, LogOf(w, p.task))
    ensures WriterSane(w, Writer(p, Prepare(p, draft, id, retried)))
  {}

  /** The world after writer `i` has appended `event` and adopted the projection `next`. */
  ghost function Grown(w: World, i: nat, event: Event, next: Projection): World {
    World(w.logs[event.task := LogOf(w, event.task) + [event]], w.writers[i := Writer(next, Idle)],
          w.returned + [event])
  }

  lemma GrownIsAccountedFor(start: World, w: World, i: nat, event: Event, next: Projection, t: TaskId)
    requires AccountedFor(start, w, t)
    ensures AccountedFor(start, Grown(w, i, event, next), t)
  {
    OfTaskSnoc(w.returned, event, t);
    Regroup(LogOf(start, t), OfTask(w.returned, t), [event]);
    AppendEmpty(OfTask(w.returned, t));
  }

  lemma GrownIsAccounted(start: World, w: World, i: nat, event: Event, next: Projection)
    requires Accounted(start, w)
    ensures Accounted(start, Grown(w, i, event, next))
  {
    forall t: TaskId
      ensures AccountedFor(start, Grown(w, i, event, next), t)
    {
      assert AccountedFor(start, w, t);
      GrownIsAccountedFor(start, w, i, event, next, t);
    }
  }

  lemma UnchangedIsAccounted(start: World, w: World, w': World)
    requires Accounted(start, w) && w'.logs == w.logs && w'.returned == w.returned
    ensures Accounted(start, w')
  {
    forall t: TaskId
      ensures AccountedFor(start, w', t)
    {
      assert AccountedFor(start, w, t);
    }
  }

  lemma OthersSurviveGrowth(w: World, i: nat, event: Event, next: Projection, j: nat)
    requires WritersSane(w) && j in w.writers && j != i
    ensures WriterSane(Grown(w, i, event, next), w.writers[j])
  {
    assert WriterSane(w, w.writers[j]);
    var p := w.writers[j].projection;
    if p.task == event.task {
      PrefixProjectionGrows(p, p.task, LogOf(w, p.task), [event]);
    }
  }

  lemma GrownIsSane(w: World, i: nat, event: Event, next: Projection)
    requires Sane(w) && WritersSane(w)
    requires Replayable(event.task, LogOf(w, event.task) + [event])
    requires Fold(event.task, LogOf(w, event.task) + [event]) == Success(next)
    ensures Sane(Grown(w, i, event, next)) && WritersSane(Grown(w, i, event, next))
  {
    var w' := Grown(w, i, event, next);
    WholeFoldIsPrefixProjection(event.task, LogOf(w, event.task) + [event]);
    FoldIsContiguous(event.task, LogOf(w, event.task) + [event]);
    forall j | j in w'.writers
      ensures WriterSane(w', w'.writers[j])
    {
      if j != i {
        OthersSurviveGrowth(w, i, event, next, j);
      }
    }
  }

  lemma AcceptedKeepsSanity(start: World, w: World, i: nat, event: Event, next: Projection, w': World)
    requires Sane(w) && WritersSane(w) && Accounted(start, w) && w' == Grown(w, i, event, next)
    requires Replayable(event.task, LogOf(w, event.task) + [event])
    requires Fold(event.task, LogOf(w, event.task) + [event]) == Success(next)
    ensures Sane(w') && WritersSane(w') && Accounted(start, w')
  {
    GrownIsSane(w, i, event, next);
    GrownIsAccounted(start, w, i, event, next);
  }

  lemma RefusedKeepsSanity(start: World, w: World, i: nat, w': World)
    requires Sane(w) && WritersSane(w) && Accounted(start, w)
    requires i in w.writers && w.writers[i].phase.Submitting? && w' == DoSubmit(w, i)
    requires StoreAppend(LogOf(w, w.writers[i].phase.event.task), w.writers[i].phase.event).Failure?
    ensures Sane(w') && WritersSane(w') && Accounted(start, w')
  {
    assert WriterSane(w, w.writers[i]);
    UnchangedIsAccounted(start, w, w');
    SameLogs(w, w', i);
  }

  lemma SubmitKeepsSanity(start: World, w: World, i: nat, w': World)
    requires Sane(w) && WritersSane(w) && Accounted(start, w) && BelowCeiling(w)
    requires i in w.writers && w.writers[i].phase.Submitting? && w' == DoSubmit(w, i)
    ensures Sane(w') && WritersSane(w') && Accounted(start, w')
  {
    var Writer(p, Submitting(event, next, _)) := w.writers[i];
    var log := LogOf(w, event.task);
    if StoreAppend(log, event).Success? {
      assert WriterSane(w, w.writers[i]) && Replayable(event.task, log);
      AcceptedAppendIsCurrent(event.task, log, p, event);
      AcceptedKeepsSanity(start, w, i, event, next, w');
    } else {
      RefusedKeepsSanity(start, w, i, w');
    }
  }

  lemma SameLogs(w: World, w': World, i: nat)
    requires WritersSane(w) && w'.logs == w.logs && i in w'.writers && WriterSane(w', w'.writers[i])
    requires forall j :: j in w'.writers && j != i ==> j in w.writers && w'.writers[j] == w.writers[j]
    ensures WritersSane(w')
  {}

  lemma QuietStepKeepsLogs(w: World, step: Step)
    requires !step.Submit? || step.writer !in w.writers || !w.writers[step.writer].phase.Submitting?
    ensures Next(w, step).logs == w.logs && Next(w, step).returned == w.returned
    ensures step.Submit? ==> Next(w, step) == w
  {}

  lemma QuietWriterIsSane(w: World, step: Step)
    requires Sane(w) && WritersSane(w) && !step.Submit? && Next(w, step) != w
    ensures step.writer in Next(w, step).writers && WriterSane(Next(w, step), Next(w, step).writers[step.writer])
  {
    var i := step.writer;
    var task := if step.Open? || step.Recover? then step.task else w.writers[i].projection.task;
    var log := LogOf(w, task);
    assert Replayable(task, log);
    ReloadIsFold(task, log);
    assert i in w.writers ==> WriterSane(w, w.writers[i]);
    match step {
      case Open(_, _) => assert log[..0] == [];
      case Begin(_, draft, id) => PrepareIsSane(w, w.writers[i].projection, draft, id, false);
      case Retry(_, id) => PrepareIsSane(w, Fold(task, log).value, w.writers[i].phase.draft, id, true);
      case _ =>
    }
  }

  /** Everything but a submission changes at most one writer. */
  lemma QuietStepKeepsWriters(w: World, step: Step)
    requires Sane(w) && WritersSane(w) && !step.Submit?
    ensures WritersSane(Next(w, step))
  {
    if Next(w, step) != w {
      QuietStepKeepsLogs(w, step);
      QuietWriterIsSane(w, step);
      SameLogs(w, Next(w, step), step.writer);
    }
  }

  lemma StepKeepsSanity(start: World, w: World, step: Step)
    requires Sane(w) && WritersSane(w) && Accounted(start, w) && BelowCeiling(w)
    ensures Sane(Next(w, step)) && WritersSane(Next(w, step)) && Accounted(start, Next(w, step))
  {
    if step.Submit? && step.writer in w.writers && w.writers[step.writer].phase.Submitting? {
      SubmitKeepsSanity(start, w, step.writer, Next(w, step));
      assert Next(w, step) == DoSubmit(w, step.writer);
    } else {
      QuietStepKeepsLogs(w, step);
      if !step.Submit? {
        QuietStepKeepsWriters(w, step);
      }
      UnchangedIsAccounted(start, w, Next(w, step));
    }
  }

  lemma StepOnlyAppends(w: World, step: Step, task: TaskId)
    ensures LogOf(w, task) <= LogOf(Next(w, step), task)
  {}

  /** Logs only grow: what was persisted stays, in place. */
  lemma {:induction false} RunOnlyAppends(w: World, steps: seq<Step>, task: TaskId)
    ensures LogOf(w, task) <= LogOf(Run(w, steps), task)
  {
    if steps != [] {
      RunOnlyAppends(w, steps[..|steps| - 1], task);
      StepOnlyAppends(Run(w, steps[..|steps| - 1]), steps[|steps| - 1], task);
    }
  }

  /** Every interleaving, from every replayable start: all logs replay, all projections are prefix
      folds, and the logs hold exactly the returned events. */
  lemma {:induction false} EveryInterleavingIsSound(start: World, steps: seq<Step>)
    requires IsStart(start) && BelowCeiling(Run(start, steps))
    ensures var w := Run(start, steps); Sane(w) && WritersSane(w) && Accounted(start, w)
  {
    if steps != [] {
      var w := Run(start, steps[..|steps| - 1]);
      forall t | t in w.logs
        ensures |w.logs[t]| < U64_MAX
      {
        StepOnlyAppends(w, steps[|steps| - 1], t);
      }
      EveryInterleavingIsSound(start, steps[..|steps| - 1]);
      StepKeepsSanity(start, w, steps[|steps| - 1]);
    }
  }

  /** A retry drafts on the log as it stands. */
  lemma RetryDrafts(w: World, i: nat, id: EventId)
    requires Sane(w) && i in w.writers && w.writers[i].phase.Conflicted?
    ensures var Writer(p, Conflicted(draft)) := w.writers[i];
            var log := LogOf(w, p.task);
            var q := Fold(p.task, log).value;
            && Fold(p.task, log).Success? && q.task == p.task && ExpectedSequence(log) == NextSequence(q)
            && Next(w, Retry(i, id)) == SetWriter(w, i, Writer(q, Prepare(q, draft, id, true)))
  {
    var task := w.writers[i].projection.task;
    ReloadIsFold(task, LogOf(w, task));
    ExpectedIsNext(task, LogOf(w, task));
    FoldIsContiguous(task, LogOf(w, task));
  }

  /** A draft made on the log as it stands loses to a sequence conflict only if somebody else appended
      meanwhile: whatever happens in between, a second conflict witnesses a longer log. */
  lemma ConflictMeansGrowth(w: World, i: nat, id: EventId, drafted: World, steps: seq<Step>, later: World)
    requires Sane(w) && i in w.writers && w.writers[i].phase.Conflicted?
    requires drafted == Next(w, Retry(i, id)) && drafted.writers[i].phase.Submitting?
    requires later == Run(drafted, steps)
    requires var event := drafted.writers[i].phase.event;
             StoreAppend(LogOf(later, event.task), event) == Failure(SequenceConflict)
    ensures var task := w.writers[i].projection.task; LogOf(w, task) < LogOf(later, task)
  {
    var task := w.writers[i].projection.task;
    RetryDrafts(w, i, id);
    RunOnlyAppends(drafted, steps, task);
  }

  lemma InputIsAlwaysTaken(p: Projection, event: Event)
    requires IsCycleInput(event.payload) && event.task == p.task && event.sequence == NextSequence(p)
    ensures Apply(p, event).Success?
    ensures p.status.IsTerminal() ==> Apply(p, event).value.status == Queued
  {}

  /** A stale writer's first submission conflicts and leaves the logs alone. */
  lemma StaleSubmissionConflicts(w: World, i: nat)
    requires Sane(w) && WritersSane(w) && BelowCeiling(w) && i in w.writers
    requires w.writers[i].phase.Submitting? && !w.writers[i].phase.retried
    requires var p := w.writers[i].projection; Fold(p.task, LogOf(w, p.task)) != Success(p)
    ensures var Writer(p, Submitting(event, _, _)) := w.writers[i];
            && event.task == p.task
            && Next(w, Submit(i)) ==
              SetWriter(w, i, Writer(p, Conflicted(Draft(event.payload, event.causation, event.provenance))))
  {
    var p := w.writers[i].projection;
    assert WriterSane(w, w.writers[i]);
    assert Replayable(p.task, LogOf(w, p.task));
    StaleMeansConflict(p.task, LogOf(w, p.task), p, w.writers[i].phase.event);
  }

  /** A retried submission goes through if nothing has been appended since. */
  lemma CurrentSubmissionAppends(w: World, i: nat)
    requires i in w.writers && w.writers[i].phase.Submitting?
    requires var event := w.writers[i].phase.event;
             event.sequence == ExpectedSequence(LogOf(w, event.task)) && !ContainsId(LogOf(w, event.task), event.id)
    ensures var event := w.writers[i].phase.event;
            LogOf(Next(w, Submit(i)), event.task) == LogOf(w, event.task) + [event]
  {}

  /** An input drafted while its task was running, when the task has ended meanwhile: the retry takes it
      without a look at the new status, so it lands straight on the finished task and queues it. */
  lemma StaleInputRestartsDirectly(w: World, i: nat, id: EventId, w1: World, w2: World)
    requires Sane(w) && WritersSane(w) && BelowCeiling(w) && i in w.writers
    requires w.writers[i].phase.Submitting? && !w.writers[i].phase.retried
             && IsCycleInput(w.writers[i].phase.event.payload)
    requires var p := w.writers[i].projection;
             var log := LogOf(w, p.task);
             !p.status.IsTerminal() && IsOver(StatusOf(p.task, log)) && !ContainsId(log, id)
    requires w1 == Next(w, Submit(i)) && w2 == Next(w1, Retry(i, id))
    ensures var event := w.writers[i].phase.event;
            var log := LogOf(w, event.task);
            var later := LogOf(Next(w2, Submit(i)), event.task);
            && |later| == |log| + 1 && log <= later && later[|log|].payload == event.payload
            && StatusOf(event.task, later) == Some(Queued)
  {
    var Writer(p, Submitting(event, _, _)) := w.writers[i];
    StaleSubmissionConflicts(w, i);
    RetryDrafts(w1, i, id);
    var log := LogOf(w, p.task);
    var q := Fold(p.task, log).value;
    var again := Event(id, p.task, NextSequence(q), event.causation, event.provenance, event.payload);
    InputIsAlwaysTaken(q, again);
    CurrentSubmissionAppends(w2, i);
    FoldSnoc(p.task, log, again);
  }
}
