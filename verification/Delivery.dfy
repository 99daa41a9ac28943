/** Returning a finished child's result to the main session, at most once per started execution. */
module Delivery {
  import opened Wrappers
  import opened Domain

  /** The execution to finish in the main log, and the child's terminal event with its summary. */
  datatype Result = Result(started: EventId, terminal: EventId, summary: string)

  /** The tool call that created the child: the trigger of its first triggered creation. */
  function TriggerOf(child: seq<Event>): Option<EventId> {
    if child == [] then None
    else
      match child[0].payload
      case Control(TaskCreated(Some(trigger))) => Some(trigger)
      case _ => TriggerOf(child[1..])
  }

  const NO_SUMMARY := "子任务已完成，但未返回文本摘要。"

  /** How a terminal control event reads; running out of budget has no reading. */
  function Conclusion(payload: AgentEvent): Option<string> {
    match payload
    case Control(TaskCompleted(Some(response))) => Some(response)
    case Control(TaskCompleted(None)) => Some(NO_SUMMARY)
    case Control(TaskFailed(reason)) => Some("子任务执行失败：" + reason)
    case Control(TaskCancelled(reason)) => Some("子任务已取消：" + reason)
    case Control(TaskExpired(reason)) => Some("子任务已过期：" + reason)
    case _ => None
  }

  /** The child's last conclusion. */
  function OutcomeOf(child: seq<Event>): Option<(EventId, string)> {
    if child == [] then None
    else
      var last := child[|child| - 1];
      match Conclusion(last.payload)
      case Some(summary) => Some((last.id, summary))
      case None => OutcomeOf(child[..|child| - 1])
  }

  /** The first execution in the main log that the trigger caused. */
  function StartedBy(main: seq<Event>, trigger: EventId): Option<EventId> {
    if main == [] then None
    else if main[0].causation == Some(trigger) && main[0].payload.Tool?
         && main[0].payload.tool.Started? then Some(main[0].id)
    else StartedBy(main[1..], trigger)
  }

  predicate Finishes(e: Event, started: EventId) {
    e.payload.Tool? && e.payload.tool.Finished? && e.payload.tool.started == started
  }

  predicate AlreadyFinished(main: seq<Event>, started: EventId) {
    exists k :: 0 <= k < |main| && Finishes(main[k], started)
  }

  /** What a delivery attempt would write, if anything. */
  function Due(main: seq<Event>, task: TaskId, child: seq<Event>): Option<Result> {
    if task == MAIN then None
    else
      match TriggerOf(child)
      case None => None
      case Some(trigger) =>
        match OutcomeOf(child)
        case None => None
        case Some(outcome) =>
          match StartedBy(main, trigger)
          case None => None
          case Some(started) =>
            if AlreadyFinished(main, started) then None else Some(Result(started, outcome.0, outcome.1))
  }

  /** A delivery needs a concluded child that was created by a tool call whose execution the main log
      started and has not finished; it quotes exactly those. */
  lemma DueIffUnfinished(main: seq<Event>, task: TaskId, child: seq<Event>)
    ensures match Due(main, task, child)
            case None =>
              || task == MAIN || TriggerOf(child).None? || OutcomeOf(child).None?
              || StartedBy(main, TriggerOf(child).value).None?
              || AlreadyFinished(main, StartedBy(main, TriggerOf(child).value).value)
            case Some(d) =>
              && task != MAIN && !AlreadyFinished(main, d.started)
              && (exists k ::
                    0 <= k < |main| && main[k].id == d.started && main[k].payload.Tool? && main[k].payload.tool.Started?
                              && TriggerOf(child).Some? && main[k].causation == TriggerOf(child))
              && (exists k ::
                    0 <= k < |child| && child[k].id == d.terminal && Conclusion(child[k].payload) == Some(d.summary)
                              && forall j :: k < j < |child| ==> Conclusion(child[j].payload).None?)
  {
    if Due(main, task, child).Some? {
      StartedIsThere(main, TriggerOf(child).value);
      OutcomeIsLast(child);
    }
  }

  lemma {:induction false} StartedIsThere(main: seq<Event>, trigger: EventId)
    requires StartedBy(main, trigger).Some?
    ensures exists k ::
              0 <= k < |main| && main[k].id == StartedBy(main, trigger).value && main[k].causation == Some(trigger)
                        && main[k].payload.Tool? && main[k].payload.tool.Started?
  {
    if main[0].causation == Some(trigger) && main[0].payload.Tool? && main[0].payload.tool.Started? {
      assert main[0].id == StartedBy(main, trigger).value;
    } else {
      StartedIsThere(main[1..], trigger);
      var k :| 0 <= k < |main[1..]| && main[1..][k].id == StartedBy(main, trigger).value
        && main[1..][k].causation == Some(trigger)
               && main[1..][k].payload.Tool? && main[1..][k].payload.tool.Started?;
      assert main[k + 1] == main[1..][k];
    }
  }

  lemma {:induction false} OutcomeIsLast(child: seq<Event>)
    requires OutcomeOf(child).Some?
    ensures exists k :: 0 <= k < |child| && child[k].id == OutcomeOf(child).value.0
                        && Conclusion(child[k].payload) == Some(OutcomeOf(child).value.1)
                        && forall j :: k < j < |child| ==> Conclusion(child[j].payload).None?
  {
    var last := |child| - 1;
    if Conclusion(child[last].payload).Some? {
      assert child[last].id == OutcomeOf(child).value.0;
    } else {
      OutcomeIsLast(child[..last]);
    }
  }

  // --- Stability ----------------------------------------------------------------------------------

  lemma {:induction false} TriggerStays(child: seq<Event>, more: seq<Event>)
    requires TriggerOf(child).Some?
    ensures TriggerOf(child + more) == TriggerOf(child)
  {
    assert (child + more)[1..] == child[1..] + more;
    match child[0].payload {
      case Control(TaskCreated(Some(trigger))) =>
      case _ => TriggerStays(child[1..], more);
    }
  }

  lemma {:induction false} StartedStays(main: seq<Event>, more: seq<Event>, trigger: EventId)
    requires StartedBy(main, trigger).Some?
    ensures StartedBy(main + more, trigger) == StartedBy(main, trigger)
  {
    assert (main + more)[1..] == main[1..] + more;
    if !(main[0].causation == Some(trigger) && main[0].payload.Tool? && main[0].payload.tool.Started?) {
      StartedStays(main[1..], more, trigger);
    }
  }

  lemma FinishedStays(main: seq<Event>, more: seq<Event>, started: EventId)
    requires AlreadyFinished(main, started)
    ensures AlreadyFinished(main + more, started)
  {
    var k :| 0 <= k < |main| && Finishes(main[k], started);
    assert (main + more)[k] == main[k];
  }

  /** Once a child's execution is finished in the main log, nothing is ever due for that child again,
      however both logs grow and however often the child runs another cycle. */
  lemma NothingDueAfterwards(main: seq<Event>, task: TaskId, child: seq<Event>, finished: Event, moreMain: seq<Event>,
                             moreChild: seq<Event>)
    requires Due(main, task, child).Some? && Finishes(finished, Due(main, task, child).value.started)
    ensures Due(main + [finished] + moreMain, task, child + moreChild) == None
  {
    var started := Due(main, task, child).value.started;
    var trigger := TriggerOf(child).value;
    TriggerStays(child, moreChild);
    StartedStays(main, [finished] + moreMain, trigger);
    assert main + ([finished] + moreMain) == main + [finished] + moreMain;
    assert (main + [finished])[|main|] == finished;
    FinishedStays(main + [finished], moreMain, started);
  }

  // --- Conclusions and stops ----------------------------------------------------------------------

  /** The main session started the execution that created this child and still waits for its result. */
  predicate Awaited(main: seq<Event>, child: seq<Event>) {
    && TriggerOf(child).Some? && StartedBy(main, TriggerOf(child).value).Some?
    && !AlreadyFinished(main, StartedBy(main, TriggerOf(child).value).value)
  }

  predicate Concludes(e: Event) {
    Conclusion(e.payload).Some?
  }

  lemma {:induction false} OutcomeIffConcluded(child: seq<Event>)
    ensures OutcomeOf(child).Some? <==> exists k :: 0 <= k < |child| && Concludes(child[k])
  {
    if child != [] && !Concludes(child[|child| - 1]) {
      var init := child[..|child| - 1];
      OutcomeIffConcluded(init);
      assert forall k :: 0 <= k < |init| ==> init[k] == child[k];
    }
  }

  /** What is awaited is due exactly when the child has concluded something. */
  lemma DueIffConcluded(main: seq<Event>, task: TaskId, child: seq<Event>)
    requires task != MAIN && Awaited(main, child)
    ensures Due(main, task, child).Some? <==> exists k :: 0 <= k < |child| && Concludes(child[k])
  {
    OutcomeIffConcluded(child);
  }

  predicate IsBudgetStop(e: Event) {
    e.payload.Control? && e.payload.control.BudgetExceeded?
  }

  /** The events that can end a task. */
  predicate Stops(e: Event) {
    Concludes(e) || IsBudgetStop(e)
  }

  lemma OnlyStopsEnd(p: Projection, e: Event)
    requires Apply(p, e).Success? && Apply(p, e).value.status.IsTerminal()
    ensures p.status.IsTerminal() || Stops(e)
  {}

  lemma {:induction false} OverWasStopped(task: TaskId, log: seq<Event>)
    requires IsOver(StatusOf(task, log))
    ensures exists k :: 0 <= k < |log| && Stops(log[k])
  {
    if log != [] {
      var init, e := log[..|log| - 1], log[|log| - 1];
      OnlyStopsEnd(Fold(task, init).value, e);
      if !Stops(e) {
        OverWasStopped(task, init);
        var k :| 0 <= k < |init| && Stops(init[k]);
        assert log[k] == init[k];
      }
    }
  }

  /** A child that is over, and awaited, is undelivered exactly when every stop so far was the budget's:
      running out of budget ends a task but concludes nothing. */
  lemma BudgetStopIsNotDelivered(main: seq<Event>, task: TaskId, child: seq<Event>)
    requires task != MAIN && Awaited(main, child) && IsOver(StatusOf(task, child))
    ensures Due(main, task, child) == None <==>
              forall k :: 0 <= k < |child| && Stops(child[k]) ==> IsBudgetStop(child[k])
    ensures exists k :: 0 <= k < |child| && Stops(child[k])
  {
    DueIffConcluded(main, task, child);
    OverWasStopped(task, child);
    forall k | 0 <= k < |child| && Stops(child[k])
      ensures IsBudgetStop(child[k]) <==> !Concludes(child[k])
    {}
  }

  lemma ThreeEventsFold(task: TaskId, a: Event, b: Event, c: Event)
    requires Apply(NewProjection(task), a).Success? && Apply(Apply(NewProjection(task), a).value, b).Success?
    ensures Fold(task, [a, b, c]) == Apply(Apply(Apply(NewProjection(task), a).value, b).value, c)
  {
    FoldSnoc(task, [], a);
    FoldSnoc(task, [a], b);
    FoldSnoc(task, [a, b], c);
    assert [] + [a] == [a] && [a] + [b] == [a, b] && [a, b] + [c] == [a, b, c];
  }

  lemma BudgetStopEnds(task: TaskId, created: Event, called: Event, stopped: Event, trigger: EventId)
    requires created.task == called.task == stopped.task == task
    requires created.sequence == 1 && called.sequence == 2 && stopped.sequence == 3
    requires created.payload == Control(TaskCreated(Some(trigger))) && called.payload == Model(CallStarted([]))
    requires IsBudgetStop(stopped)
    ensures StatusOf(task, [created, called, stopped]) == Some(FailedStatus)
  {
    var empty := NewProjection(task);
    assert Apply(empty, created).Success? && Apply(empty, created).value.status == Created;
    var running := Apply(Apply(empty, created).value, called);
    assert running.Success? && running.value.status == Running;
    ThreeEventsFold(task, created, called, stopped);
  }

  /** It does happen: created by a tool call, run and stopped by its budget, a child is over and awaited,
      and nothing is due. */
  lemma BudgetStopLeavesChildWaiting(task: TaskId, created: Event, called: Event, stopped: Event, trigger: EventId,
                                     started: Event)
    requires task != MAIN && created.task == called.task == stopped.task == task
    requires created.sequence == 1 && called.sequence == 2 && stopped.sequence == 3
    requires created.payload == Control(TaskCreated(Some(trigger))) && called.payload == Model(CallStarted([]))
    requires IsBudgetStop(stopped)
    requires started.payload.Tool? && started.payload.tool.Started? && started.causation == Some(trigger)
    ensures var child := [created, called, stopped];
            && StatusOf(task, child) == Some(FailedStatus) && Awaited([started], child)
            && Due([started], task, child) == None
  {
    var child := [created, called, stopped];
    BudgetStopEnds(task, created, called, stopped, trigger);
    assert StartedBy([started], trigger) == Some(started.id) && !Finishes([started][0], started.id);
    assert forall k :: 0 <= k < |child| && Stops(child[k]) ==> IsBudgetStop(child[k]);
    BudgetStopIsNotDelivered([started], task, child);
  }

  // --- Runs ---------------------------------------------------------------------------------------

  /** An attempt under way: it reads the child's log, then the main log, and then writes. */
  datatype Flight =
    | Landed
    | ChildSeen(task: TaskId, child: seq<Event>)
    | BothSeen(task: TaskId, child: seq<Event>, main: seq<Event>)

  /** One thing that happens: somebody appends to the main log or to a child's, or the attempt under way
      takes its next step. There is at most one; a record that fails ends it without writing. */
  datatype Action =
    | AppendMain(event: Event)
    | AppendChild(task: TaskId, event: Event)
    | ReadChild(task: TaskId)
    | ReadMain
    | Write(id: EventId)
    | GiveUp

  datatype Delivered = Delivered(task: TaskId, started: EventId)

  /** The logs, the attempt under way, and what deliveries have finished so far. */
  datatype Session = Session(main: seq<Event>, children: map<TaskId, seq<Event>>, flight: Flight,
                             delivered: seq<Delivered>)

  function ChildLog(s: Session, task: TaskId): seq<Event> {
    if task in s.children then s.children[task] else []
  }

  function FinishedEvent(main: seq<Event>, id: EventId, due: Result): Event {
    Event(id, MAIN, |main| + 1, Some(due.terminal), TOOL_PROVENANCE, Tool(Finished(due.started, due.summary)))
  }

  /** Writing goes to the main log as it is by then; what is written was decided on the logs as read. */
  function Perform(s: Session, action: Action): Session {
    match action
    case AppendMain(event) => s.(main := s.main + [event])
    case AppendChild(task, event) => s.(children := s.children[task := ChildLog(s, task) + [event]])
    case ReadChild(task) => if s.flight.Landed? then s.(flight := ChildSeen(task, ChildLog(s, task))) else s
    case ReadMain => if s.flight.ChildSeen? then s.(flight := BothSeen(s.flight.task, s.flight.child, s.main)) else s
    case Write(id) =>
      if !s.flight.BothSeen? then s
      else
        (match Due(s.flight.main, s.flight.task, s.flight.child)
         case None => s.(flight := Landed)
         case Some(due) =>
           Session(s.main + [FinishedEvent(s.main, id, due)], s.children, Landed,
                   s.delivered + [Delivered(s.flight.task, due.started)]))
    case GiveUp => s.(flight := Landed)
  }

  function PerformAll(s: Session, actions: seq<Action>): Session {
    if actions == [] then s else Perform(PerformAll(s, actions[..|actions| - 1]), actions[|actions| - 1])
  }

  /** The execution behind this child is finished for good. */
  predicate IsSettled(main: seq<Event>, child: seq<Event>, started: EventId) {
    && TriggerOf(child).Some? && StartedBy(main, TriggerOf(child).value) == Some(started)
    && AlreadyFinished(main, started)
  }

  lemma SettledStays(main: seq<Event>, moreMain: seq<Event>, child: seq<Event>, moreChild: seq<Event>, started: EventId)
    requires IsSettled(main, child, started)
    ensures IsSettled(main + moreMain, child + moreChild, started)
  {
    TriggerStays(child, moreChild);
    StartedStays(main, moreMain, TriggerOf(child).value);
    FinishedStays(main, moreMain, started);
  }

  /** What was due on the logs as read is settled by writing it, however both have grown meanwhile. */
  lemma WritingSettles(main: seq<Event>, moreMain: seq<Event>, task: TaskId, child: seq<Event>, moreChild: seq<Event>,
                       finished: Event)
    requires Due(main, task, child).Some? && Finishes(finished, Due(main, task, child).value.started)
    ensures IsSettled(main + moreMain + [finished], child + moreChild, Due(main, task, child).value.started)
  {
    var trigger := TriggerOf(child).value;
    TriggerStays(child, moreChild);
    StartedStays(main, moreMain + [finished], trigger);
    assert main + (moreMain + [finished]) == main + moreMain + [finished];
    assert (main + moreMain + [finished])[|main + moreMain|] == finished;
  }

  /** Everything delivered is settled, no execution twice, and what an attempt has read is past. */
  ghost predicate EachOnce(s: Session) {
    && (forall i :: 0 <= i < |s.delivered| ==>
                      IsSettled(s.main, ChildLog(s, s.delivered[i].task), s.delivered[i].started))
    && (forall i, j :: 0 <= i < j < |s.delivered| ==> s.delivered[i].started != s.delivered[j].started)
    && FlightIsPast(s)
  }

  ghost predicate FlightIsPast(s: Session) {
    match s.flight
    case Landed => true
    case ChildSeen(task, child) => child <= ChildLog(s, task)
    case BothSeen(task, child, main) =>
      && child <= ChildLog(s, task) && main <= s.main
      && forall i :: 0 <= i < |s.delivered| ==> AlreadyFinished(main, s.delivered[i].started)
  }

  lemma GrowingKeepsOnce(s: Session, t: Session)
    requires EachOnce(s) && s.main <= t.main && t.delivered == s.delivered && t.flight == s.flight
    requires forall task :: ChildLog(s, task) <= ChildLog(t, task)
    ensures EachOnce(t)
  {
    forall i | 0 <= i < |s.delivered|
      ensures IsSettled(t.main, ChildLog(t, s.delivered[i].task), s.delivered[i].started)
    {
      var task := s.delivered[i].task;
      var before, after := ChildLog(s, task), ChildLog(t, task);
      assert t.main == s.main + t.main[|s.main|..] && after == before + after[|before|..];
      SettledStays(s.main, t.main[|s.main|..], before, after[|before|..], s.delivered[i].started);
    }
  }

  /** A settled delivery joins the others. */
  lemma RecordedKeepsOnce(s: Session, d: Delivered)
    requires EachOnce(s) && s.flight.Landed? && IsSettled(s.main, ChildLog(s, d.task), d.started)
    requires forall i :: 0 <= i < |s.delivered| ==> s.delivered[i].started != d.started
    ensures EachOnce(s.(delivered := s.delivered + [d]))
  {
    var t := s.(delivered := s.delivered + [d]);
    forall i | 0 <= i < |t.delivered|
      ensures IsSettled(t.main, ChildLog(t, t.delivered[i].task), t.delivered[i].started)
    {
      assert i < |s.delivered| ==> IsSettled(s.main, ChildLog(s, s.delivered[i].task), s.delivered[i].started);
    }
  }

  lemma WritingKeepsOnce(s: Session, id: EventId)
    requires EachOnce(s) && s.flight.BothSeen? && Due(s.flight.main, s.flight.task, s.flight.child).Some?
    ensures EachOnce(Perform(s, Write(id)))
  {
    var BothSeen(task, child, main) := s.flight;
    var due := Due(main, task, child).value;
    var finished := FinishedEvent(s.main, id, due);
    var moreMain, moreChild := s.main[|main|..], ChildLog(s, task)[|child|..];
    assert s.main == main + moreMain && ChildLog(s, task) == child + moreChild;
    WritingSettles(main, moreMain, task, child, moreChild, finished);
    var grown := s.(main := s.main + [finished], flight := Landed);
    GrowingKeepsOnce(s.(flight := Landed), grown);
    RecordedKeepsOnce(grown, Delivered(task, due.started));
  }

  lemma StepDeliversOnce(s: Session, action: Action)
    requires EachOnce(s)
    ensures EachOnce(Perform(s, action))
  {
    match action {
      case AppendMain(_) => GrowingKeepsOnce(s, Perform(s, action));
      case AppendChild(_, _) => GrowingKeepsOnce(s, Perform(s, action));
      case Write(id) =>
        if s.flight.BothSeen? && Due(s.flight.main, s.flight.task, s.flight.child).Some? {
          WritingKeepsOnce(s, id);
        }
      case _ =>
    }
  }

  /** Over every sequence of appends and of reads and writes of one attempt at a time, no execution is
      finished by two deliveries, and nothing is due for a delivered child ever after. */
  lemma {:induction false} DeliveredAtMostOnce(s: Session, actions: seq<Action>)
    requires EachOnce(s)
    ensures var t := PerformAll(s, actions);
            && EachOnce(t)
            && forall i :: 0 <= i < |t.delivered| ==>
                             Due(t.main, t.delivered[i].task, ChildLog(t, t.delivered[i].task)) == None
  {
    if actions != [] {
      DeliveredAtMostOnce(s, actions[..|actions| - 1]);
      StepDeliversOnce(PerformAll(s, actions[..|actions| - 1]), actions[|actions| - 1]);
    }
    var t := PerformAll(s, actions);
    forall i | 0 <= i < |t.delivered|
      ensures Due(t.main, t.delivered[i].task, ChildLog(t, t.delivered[i].task)) == None
    {
      assert IsSettled(t.main, ChildLog(t, t.delivered[i].task), t.delivered[i].started);
    }
  }

  /** One attempt at a time is needed: two that have both read before either writes finish the same
      execution twice, since a record does not look again. */
  lemma RacingAttemptsFinishTwice(main: seq<Event>, task: TaskId, child: seq<Event>, one: EventId, two: EventId)
    requires Due(main, task, child).Some?
    ensures var due := Due(main, task, child).value;
            var first := main + [FinishedEvent(main, one, due)];
            var second := first + [FinishedEvent(first, two, due)];
            exists j, k :: 0 <= j < k < |second| && Finishes(second[j], due.started) && Finishes(second[k], due.started)
  {
    var due := Due(main, task, child).value;
    var first := main + [FinishedEvent(main, one, due)];
    var second := first + [FinishedEvent(first, two, due)];
    assert Finishes(second[|main|], due.started) && Finishes(second[|main| + 1], due.started);
  }
}
