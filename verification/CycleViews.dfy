/** What the scheduler reads off a task log: the current cycle, and what the model still has to be shown. */
module CycleViews {
  import opened Wrappers
  import opened Domain
  import opened Seqs

  // --- The current cycle --------------------------------------------------------------------------

  /** Queueing or resuming a task opens a new cycle. */
  predicate StartsCycle(e: Event) {
    e.payload.Control? && (e.payload.control.TaskQueued? || e.payload.control.ResumeRequested?)
  }

  /** One past the last boundary. */
  function CycleStart(log: seq<Event>): (start: nat)
    ensures start <= |log|
    ensures forall i :: start <= i < |log| ==> !StartsCycle(log[i])
    ensures start > 0 ==> StartsCycle(log[start - 1])
  {
    if log == [] then 0
    else if StartsCycle(log[|log| - 1]) then |log|
    else CycleStart(log[..|log| - 1])
  }

  function CurrentCycle(log: seq<Event>): seq<Event> {
    log[CycleStart(log)..]
  }

  lemma CycleSnoc(log: seq<Event>, e: Event)
    ensures CurrentCycle(log + [e]) == if StartsCycle(e) then [] else CurrentCycle(log) + [e]
  {}

  /** A quiet extension opens no cycle. */
  ghost predicate Quiet(more: seq<Event>) {
    forall e :: e in more ==> !StartsCycle(e)
  }

  lemma {:induction false} QuietExtendsCycle(log: seq<Event>, more: seq<Event>)
    requires Quiet(more)
    ensures CurrentCycle(log + more) == CurrentCycle(log) + more
  {
    if more == [] {
      AppendEmpty(log);
      AppendEmpty(CurrentCycle(log));
    } else {
      var init, e := more[..|more| - 1], more[|more| - 1];
      InitLast(more);
      QuietExtendsCycle(log, init);
      CycleSnoc(log + init, e);
      Regroup(log, init, [e]);
      Regroup(CurrentCycle(log), init, [e]);
    }
  }

  // --- Pending tool results -----------------------------------------------------------------------

  predicate IsFinished(e: Event) {
    e.payload.Tool? && e.payload.tool.Finished?
  }

  predicate Lists(e: Event, id: EventId) {
    e.payload.Model? && e.payload.model.CallStarted? && id in e.payload.model.contextEventIds
  }

  /** The identifiers some model call of these events was given. */
  predicate Injected(events: seq<Event>, id: EventId) {
    exists k :: 0 <= k < |events| && Lists(events[k], id)
  }

  /** The finished executions among `events` that no call in `cycle` was given. */
  function Unseen(events: seq<Event>, cycle: seq<Event>): seq<Event> {
    if events == [] then []
    else
      var e := events[|events| - 1];
      Unseen(events[..|events| - 1], cycle) + if IsFinished(e) && !Injected(cycle, e.id) then [e] else []
  }

  function PendingEvents(log: seq<Event>): seq<Event> {
    Unseen(CurrentCycle(log), CurrentCycle(log))
  }

  /** The first event with this identifier that starts an execution. */
  function ProposalOf(events: seq<Event>, started: EventId): Option<EventId> {
    if events == [] then None
    else if events[0].id == started && events[0].payload.Tool? && events[0].payload.tool.Started?
    then Some(events[0].payload.tool.proposal)
    else ProposalOf(events[1..], started)
  }

  function CallProposedAs(events: seq<Event>, proposal: EventId): Option<ToolCall> {
    if events == [] then None
    else if events[0].id == proposal && events[0].payload.Tool? && events[0].payload.tool.Proposed?
    then Some(events[0].payload.tool.call)
    else CallProposedAs(events[1..], proposal)
  }

  function ToolCallForStarted(events: seq<Event>, started: EventId): Option<ToolCall> {
    match ProposalOf(events, started)
    case None => None
    case Some(proposal) => CallProposedAs(events, proposal)
  }

  /** How a result is worded for the model. */
  type Wording = (EventId, Option<string>, string) -> string

  function ResultItem(cycle: seq<Event>, e: Event, wording: Wording): ModelContextItem
    requires IsFinished(e)
  {
    var call := ToolCallForStarted(cycle, e.payload.tool.started);
    var name := if call.Some? then Some(call.value.name) else None;
    var providerCallId := if call.Some? then call.value.providerCallId else None;
    ModelContextItem(e.id, ToolRole, wording(e.id, name, e.payload.tool.result), NoPermission, providerCallId, name)
  }

  function ResultItems(cycle: seq<Event>, unseen: seq<Event>, wording: Wording): (r: seq<ModelContextItem>)
    requires forall e :: e in unseen ==> IsFinished(e)
    ensures |r| == |unseen| && forall k :: 0 <= k < |r| ==> r[k] == ResultItem(cycle, unseen[k], wording)
  {
    seq(|unseen|, k requires 0 <= k < |unseen| => ResultItem(cycle, unseen[k], wording))
  }

  function PendingToolResults(log: seq<Event>, wording: Wording): seq<ModelContextItem> {
    UnseenAreFinished(CurrentCycle(log), CurrentCycle(log));
    ResultItems(CurrentCycle(log), PendingEvents(log), wording)
  }

  /** The items shown are those of the pending events, one each, in their order. */
  lemma ResultsShowPending(log: seq<Event>, wording: Wording)
    ensures var items, pending := PendingToolResults(log, wording), PendingEvents(log);
            |items| == |pending| && forall k ::
                0 <= k < |items| ==> items[k].eventId == pending[k].id && items[k].role == ToolRole
  {
    UnseenAreFinished(CurrentCycle(log), CurrentCycle(log));
  }

  lemma {:induction false} UnseenAreFinished(events: seq<Event>, cycle: seq<Event>)
    ensures forall e :: e in Unseen(events, cycle) <==> e in events && IsFinished(e) && !Injected(cycle, e.id)
  {
    if events != [] {
      UnseenAreFinished(events[..|events| - 1], cycle);
      assert events == events[..|events| - 1] + [events[|events| - 1]];
    }
  }

  // --- Pending results are a queue ----------------------------------------------------------------

  /** What a model call takes out of the queue. */
  function Without(queue: seq<Event>, call: Event): seq<Event> {
    if queue == [] then []
    else
      var e := queue[|queue| - 1];
      Without(queue[..|queue| - 1], call) + if Lists(call, e.id) then [] else [e]
  }

  /** The queue discipline, one event at a time: a boundary empties it, a call removes what it lists, a
      finished execution enters at the end unless a call of this cycle has already listed it. */
  function QueueStep(queue: seq<Event>, cycle: seq<Event>, e: Event): seq<Event> {
    if StartsCycle(e) then []
    else if IsFinished(e) then (if Injected(cycle, e.id) then queue else queue + [e])
    else Without(queue, e)
  }

  function Queue(log: seq<Event>): seq<Event> {
    if log == [] then []
    else QueueStep(Queue(log[..|log| - 1]), CurrentCycle(log[..|log| - 1]), log[|log| - 1])
  }

  lemma InjectedSnoc(events: seq<Event>, e: Event, id: EventId)
    ensures Injected(events + [e], id) <==> Injected(events, id) || Lists(e, id)
  {
    if Injected(events, id) {
      var k :| 0 <= k < |events| && Lists(events[k], id);
      assert (events + [e])[k] == events[k];
    }
    if Lists(e, id) {
      assert (events + [e])[|events|] == e;
    }
  }

  lemma {:induction false} CallTakesOut(events: seq<Event>, cycle: seq<Event>, call: Event)
    ensures Unseen(events, cycle + [call]) == Without(Unseen(events, cycle), call)
  {
    if events != [] {
      var init, e := events[..|events| - 1], events[|events| - 1];
      CallTakesOut(init, cycle, call);
      InjectedSnoc(cycle, call, e.id);
      if IsFinished(e) && !Injected(cycle, e.id) {
        assert (Unseen(init, cycle) + [e])[..|Unseen(init, cycle)|] == Unseen(init, cycle);
      } else {
        assert Unseen(events, cycle) == Unseen(init, cycle);
        assert Unseen(events, cycle + [call]) == Unseen(init, cycle + [call]);
      }
    }
  }

  lemma {:induction false} WithoutNothing(queue: seq<Event>, e: Event)
    requires forall id :: !Lists(e, id)
    ensures Without(queue, e) == queue
  {
    if queue != [] {
      WithoutNothing(queue[..|queue| - 1], e);
    }
  }

  /** Filtering the current cycle afresh gives the very queue that the discipline maintains. */
  lemma {:induction false} PendingIsQueue(log: seq<Event>)
    ensures PendingEvents(log) == Queue(log)
  {
    if log != [] {
      var init, e := log[..|log| - 1], log[|log| - 1];
      assert log == init + [e];
      PendingIsQueue(init);
      CycleSnoc(init, e);
      if !StartsCycle(e) {
        var cycle := CurrentCycle(init);
        assert (cycle + [e])[..|cycle|] == cycle;
        CallTakesOut(cycle, cycle, e);
        InjectedSnoc(cycle, e, e.id);
        if IsFinished(e) {
          WithoutNothing(Unseen(cycle, cycle), e);
        }
      }
    }
  }

  // --- No result is lost --------------------------------------------------------------------------

  /** A result of the current cycle is pending exactly as long as no call of the cycle lists it. */
  lemma PendingIffUnlisted(log: seq<Event>, e: Event)
    ensures e in PendingEvents(log) <==> e in CurrentCycle(log) && IsFinished(e) && !Injected(CurrentCycle(log), e.id)
  {
    UnseenAreFinished(CurrentCycle(log), CurrentCycle(log));
  }

  /** Whatever else is appended, a pending result stays pending until a call lists it or a cycle opens. */
  lemma ResultSurvives(log: seq<Event>, more: seq<Event>, e: Event)
    requires e in PendingEvents(log) && Quiet(more)
    ensures e in PendingEvents(log + more) <==> !Injected(more, e.id)
  {
    QuietExtendsCycle(log, more);
    PendingIffUnlisted(log, e);
    PendingIffUnlisted(log + more, e);
    InjectedConcat(CurrentCycle(log), more, e.id);
  }

  lemma InjectedConcat(a: seq<Event>, b: seq<Event>, id: EventId)
    ensures Injected(a + b, id) <==> Injected(a, id) || Injected(b, id)
  {
    if Injected(a, id) {
      var k :| 0 <= k < |a| && Lists(a[k], id);
      assert (a + b)[k] == a[k];
    }
    if Injected(b, id) {
      var k :| 0 <= k < |b| && Lists(b[k], id);
      assert (a + b)[|a| + k] == b[k];
    }
  }

  /** A result that arrives while a model call is under way is not consumed by that call's completion:
      its sequence number is below the completion's, and it is still pending afterwards. */
  lemma ResultArrivingDuringCallSurvives(log: seq<Event>, call: Event, before: seq<Event>, result: Event,
                                         after: seq<Event>)
    requires call.payload.Model? && call.payload.model.CallStarted? && !Lists(call, result.id)
    requires IsFinished(result) && !Injected(CurrentCycle(log), result.id)
    requires Quiet(before) && Quiet(after) && !Injected(before, result.id) && !Injected(after, result.id)
    ensures result in PendingEvents(log + ([call] + before + [result] + after))
  {
    var more := [call] + before + [result] + after;
    QuietExtendsCycle(log, more);
    InjectedConcat(CurrentCycle(log), more, result.id);
    InjectedConcat([call] + before + [result], after, result.id);
    InjectedConcat([call] + before, [result], result.id);
    InjectedConcat([call], before, result.id);
    PendingIffUnlisted(log + more, result);
    assert more[1 + |before|] == result;
    assert result in CurrentCycle(log) + more;
  }

  lemma {:induction false} UnseenInOrder(events: seq<Event>, cycle: seq<Event>)
    ensures Subsequence(Unseen(events, cycle), events)
  {
    if events != [] {
      var init, e := events[..|events| - 1], events[|events| - 1];
      UnseenInOrder(init, cycle);
      if IsFinished(e) && !Injected(cycle, e.id) {
        assert Unseen(events, cycle)[..|Unseen(init, cycle)|] == Unseen(init, cycle);
      } else {
        assert Unseen(events, cycle) == Unseen(init, cycle);
      }
    }
  }

  lemma {:induction false} UnseenOnce(events: seq<Event>, cycle: seq<Event>)
    requires DistinctIds(events)
    ensures DistinctIds(Unseen(events, cycle))
  {
    if events != [] {
      var init, e := events[..|events| - 1], events[|events| - 1];
      UnseenOnce(init, cycle);
      UnseenAreFinished(init, cycle);
      DistinctSnoc(Unseen(init, cycle), e);
      forall k | 0 <= k < |Unseen(init, cycle)|
        ensures Unseen(init, cycle)[k].id != e.id
      {
        assert Unseen(init, cycle)[k] in init;
      }
      assert Unseen(init, cycle) + [] == Unseen(init, cycle);
    }
  }

  /** Pending results are reported once each, in log order. */
  lemma PendingOnceInOrder(log: seq<Event>)
    requires DistinctIds(log)
    ensures Subsequence(PendingEvents(log), CurrentCycle(log)) && DistinctIds(PendingEvents(log))
  {
    UnseenInOrder(CurrentCycle(log), CurrentCycle(log));
    DistinctDrop(log, CycleStart(log));
    UnseenOnce(CurrentCycle(log), CurrentCycle(log));
  }

  lemma {:induction false} LookupGrows(events: seq<Event>, more: seq<Event>, id: EventId)
    ensures ProposalOf(events, id).Some? ==> ProposalOf(events + more, id) == ProposalOf(events, id)
    ensures CallProposedAs(events, id).Some? ==> CallProposedAs(events + more, id) == CallProposedAs(events, id)
  {
    if events != [] {
      LookupGrows(events[1..], more, id);
      assert (events + more)[1..] == events[1..] + more;
    }
  }

  /** Once a result is bound to the call it answers, it is shown the same way for the rest of the cycle. */
  lemma BoundResultIsStable(log: seq<Event>, more: seq<Event>, e: Event, wording: Wording)
    requires IsFinished(e) && Quiet(more)
    requires ToolCallForStarted(CurrentCycle(log), e.payload.tool.started).Some?
    ensures ResultItem(CurrentCycle(log + more), e, wording) == ResultItem(CurrentCycle(log), e, wording)
  {
    var cycle := CurrentCycle(log);
    QuietExtendsCycle(log, more);
    LookupGrows(cycle, more, e.payload.tool.started);
    LookupGrows(cycle, more, ProposalOf(cycle, e.payload.tool.started).value);
  }

  // --- Inputs, requests, approvals ----------------------------------------------------------------

  predicate IsContext(e: Event) {
    e.payload.Ingress? && e.payload.ingress.ContextReceived?
  }

  predicate Rejects(e: Event, id: EventId) {
    e.payload.Control? && e.payload.control.InputRejected? && e.payload.control.input == id
  }

  predicate RejectedIn(events: seq<Event>, id: EventId) {
    exists k :: 0 <= k < |events| && Rejects(events[k], id)
  }

  function AcceptedInputs(events: seq<Event>, cycle: seq<Event>): seq<Event> {
    if events == [] then []
    else
      var e := events[|events| - 1];
      AcceptedInputs(events[..|events| - 1], cycle) + if IsContext(e) && !RejectedIn(cycle, e.id) then [e] else []
  }

  function ContextEvents(log: seq<Event>): seq<Event> {
    AcceptedInputs(CurrentCycle(log), CurrentCycle(log))
  }

  predicate IsCompletion(e: Event) {
    e.payload.Model? && e.payload.model.Completed?
  }

  /** The sequence number of the last completion, or 0. */
  function LastCompletion(events: seq<Event>): nat {
    if events == [] then 0
    else if IsCompletion(events[|events| - 1]) then events[|events| - 1].sequence
    else LastCompletion(events[..|events| - 1])
  }

  function After(events: seq<Event>, sequence: nat): seq<Event> {
    if events == [] then []
    else
      var e := events[|events| - 1];
      After(events[..|events| - 1], sequence) + if e.sequence > sequence then [e] else []
  }

  function ContextEventsSinceLastModel(log: seq<Event>): seq<Event> {
    var cycle := CurrentCycle(log);
    ContextEvents(After(cycle, LastCompletion(cycle)))
  }

  lemma {:induction false} InputMembers(events: seq<Event>, cycle: seq<Event>)
    ensures forall e :: e in AcceptedInputs(events, cycle) <==> e in events && IsContext(e) && !RejectedIn(cycle, e.id)
  {
    if events != [] {
      InputMembers(events[..|events| - 1], cycle);
      assert events == events[..|events| - 1] + [events[|events| - 1]];
    }
  }

  lemma {:induction false} AfterMembers(events: seq<Event>, sequence: nat)
    ensures forall e :: e in After(events, sequence) <==> e in events && e.sequence > sequence
  {
    if events != [] {
      AfterMembers(events[..|events| - 1], sequence);
      assert events == events[..|events| - 1] + [events[|events| - 1]];
    }
  }

  lemma QuietIsItsOwnCycle(events: seq<Event>)
    requires Quiet(events)
    ensures CurrentCycle(events) == events
  {}

  lemma AfterIsQuiet(events: seq<Event>, sequence: nat)
    requires Quiet(events)
    ensures Quiet(After(events, sequence))
  {
    AfterMembers(events, sequence);
  }

  /** Inputs differ from results: the ones offered next are those numbered after the last completion,
      so an input that arrives during a model call is left to that call's own loop. */
  lemma InputsSinceLastModel(log: seq<Event>, e: Event)
    ensures var cycle := CurrentCycle(log);
            var recent := After(cycle, LastCompletion(cycle));
            e in ContextEventsSinceLastModel(log) <==>
              e in cycle && IsContext(e) && e.sequence > LastCompletion(cycle) && !RejectedIn(recent, e.id)
  {
    var cycle := CurrentCycle(log);
    var recent := After(cycle, LastCompletion(cycle));
    AfterMembers(cycle, LastCompletion(cycle));
    AfterIsQuiet(cycle, LastCompletion(cycle));
    QuietIsItsOwnCycle(recent);
    InputMembers(recent, recent);
  }

  predicate AsksToCancel(e: Event) {
    || (e.payload.Ingress? && e.payload.ingress.CancellationRequested?)
    || (e.payload.Control? && e.payload.control.TaskCancelled?)
  }

  predicate AsksToPause(e: Event) {
    e.payload.Control? && e.payload.control.PauseRequested?
  }

  predicate HasCancellationRequest(log: seq<Event>) {
    exists k :: CycleStart(log) <= k < |log| && AsksToCancel(log[k])
  }

  predicate HasPauseRequest(log: seq<Event>) {
    exists k :: CycleStart(log) <= k < |log| && AsksToPause(log[k])
  }

  /** The reason of the last pause request of the cycle. */
  function PauseReason(log: seq<Event>): Option<string> {
    if log == [] || StartsCycle(log[|log| - 1]) then None
    else if AsksToPause(log[|log| - 1]) then Some(log[|log| - 1].payload.control.reason)
    else PauseReason(log[..|log| - 1])
  }

  /** The last boundary was a resumption. */
  predicate WasResumed(log: seq<Event>) {
    CycleStart(log) > 0 && log[CycleStart(log) - 1].payload.control.ResumeRequested?
  }

  /** A task in status Pausing always carries the request whose reason its confirmation repeats. */
  lemma {:induction false} PausingHasReason(task: TaskId, log: seq<Event>)
    requires Fold(task, log).Success? && Fold(task, log).value.status == Pausing
    ensures HasPauseRequest(log) && PauseReason(log).Some?
  {
    if log != [] {
      var init, e := log[..|log| - 1], log[|log| - 1];
      if AsksToPause(e) {
        assert AsksToPause(log[|log| - 1]) && CycleStart(log) <= |log| - 1;
      } else {
        assert Fold(task, init).value.status == Pausing;
        PausingHasReason(task, init);
        var k :| CycleStart(init) <= k < |init| && AsksToPause(init[k]);
        assert AsksToPause(log[k]);
      }
    }
  }

  lemma {:induction false} CancellingHasRequest(task: TaskId, log: seq<Event>)
    requires Fold(task, log).Success? && Fold(task, log).value.status == Cancelling
    ensures HasCancellationRequest(log)
  {
    if log != [] {
      var init, e := log[..|log| - 1], log[|log| - 1];
      if AsksToCancel(e) {
        assert AsksToCancel(log[|log| - 1]) && CycleStart(log) <= |log| - 1;
      } else {
        assert Fold(task, init).value.status == Cancelling;
        CancellingHasRequest(task, init);
        var k :| CycleStart(init) <= k < |init| && AsksToCancel(init[k]);
        assert AsksToCancel(log[k]);
      }
    }
  }

  /** Event `n` puts an input straight onto a task that is over: no new cycle was opened first. */
  predicate RestartsDirectly(task: TaskId, log: seq<Event>, n: nat)
    requires n < |log|
  {
    IsCycleInput(log[n].payload) && IsOver(StatusOf(task, log[..n]))
  }

  /** The current cycle contains no such event. */
  ghost predicate RestartsThroughQueue(task: TaskId, log: seq<Event>) {
    forall n :: CycleStart(log) <= n < |log| ==> !RestartsDirectly(task, log, n)
  }

  predicate IsStoppedStatus(status: TaskStatus) {
    status == Cancelling || status.IsTerminal()
  }

  /** The task is being cancelled or over. */
  predicate IsStopped(task: TaskId, log: seq<Event>) {
    match StatusOf(task, log) case Some(status) => IsStoppedStatus(status) case None => false
  }

  /** A request stops the task. */
  lemma RequestStops(p: Projection, e: Event)
    requires Apply(p, e).Success? && AsksToCancel(e)
    ensures IsStoppedStatus(Apply(p, e).value.status) && !(p.status.IsTerminal() && IsCycleInput(e.payload))
  {}

  /** Only a new cycle, or an input put onto a task that is over, brings back a stopped task. */
  lemma StoppedStaysStopped(p: Projection, e: Event)
    requires Apply(p, e).Success? && !StartsCycle(e) && IsStoppedStatus(p.status)
    ensures IsStoppedStatus(Apply(p, e).value.status) <==> !(p.status.IsTerminal() && IsCycleInput(e.payload))
  {}

  lemma StoppedStep(task: TaskId, log: seq<Event>, n: nat)
    requires n < |log| && Fold(task, log).Success? && !StartsCycle(log[n])
    requires AsksToCancel(log[n]) || IsStopped(task, log[..n])
    ensures IsStopped(task, log[..n + 1]) <==> !RestartsDirectly(task, log, n)
  {
    FoldPrefix(task, log, n + 1);
    FoldPrefix(task, log, n);
    TakeSnoc(log, n);
    FoldSnoc(task, log[..n], log[n]);
    var p := Fold(task, log[..n]).value;
    if AsksToCancel(log[n]) {
      RequestStops(p, log[n]);
    } else {
      StoppedStaysStopped(p, log[n]);
    }
  }

  lemma {:induction false} StoppedUpTo(task: TaskId, log: seq<Event>, k: nat, m: nat)
    requires Fold(task, log).Success? && CycleStart(log) <= k < m <= |log| && AsksToCancel(log[k])
    requires forall n :: k < n < m ==> !RestartsDirectly(task, log, n)
    ensures IsStopped(task, log[..m])
  {
    if m > k + 1 {
      StoppedUpTo(task, log, k, m - 1);
    }
    StoppedStep(task, log, m - 1);
  }

  /** Exactly when a cancelled cycle never runs again: from the request on the task stays stopped if and
      only if no input is written straight onto it while it is over. */
  lemma CancelledCycleStaysStopped(task: TaskId, log: seq<Event>, k: nat)
    requires Fold(task, log).Success? && CycleStart(log) <= k < |log| && AsksToCancel(log[k])
    ensures (forall m :: k < m <= |log| ==> IsStopped(task, log[..m])) <==>
            (forall n :: k < n < |log| ==> !RestartsDirectly(task, log, n))
  {
    if forall m :: k < m <= |log| ==> IsStopped(task, log[..m]) {
      forall n | k < n < |log|
        ensures !RestartsDirectly(task, log, n)
      {
        assert IsStopped(task, log[..n]) && IsStopped(task, log[..n + 1]);
        StoppedStep(task, log, n);
      }
    }
    if forall n :: k < n < |log| ==> !RestartsDirectly(task, log, n) {
      forall m | k < m <= |log|
        ensures IsStopped(task, log[..m])
      {
        StoppedUpTo(task, log, k, m);
      }
    }
  }

  /** Hence a cycle with a request and no direct restart is not running now. */
  lemma CancelledCycleIsOver(task: TaskId, log: seq<Event>)
    requires Fold(task, log).Success? && RestartsThroughQueue(task, log) && HasCancellationRequest(log)
    ensures IsStopped(task, log)
  {
    var k :| CycleStart(log) <= k < |log| && AsksToCancel(log[k]);
    StoppedUpTo(task, log, k, |log|);
    TakeAll(log);
  }

  /** Without that discipline the claim fails: a context event written straight onto a cancelled task
      queues it in the old cycle, cancellation request and all. */
  lemma DirectRestartKeepsCancellation(task: TaskId, created: Event, cancelled: Event, input: Event)
    requires created.task == cancelled.task == input.task == task
    requires created.sequence == 1 && cancelled.sequence == 2 && input.sequence == 3
    requires created.payload == Control(TaskCreated(None)) && cancelled.payload == Control(TaskCancelled("stop"))
    requires IsCycleInput(input.payload)
    ensures var log := [created, cancelled, input];
            Fold(task, log).Success? && Fold(task, log).value.status == Queued && HasCancellationRequest(log)
  {
    var log := [created, cancelled, input];
    FoldSnoc(task, [], created);
    FoldSnoc(task, [created], cancelled);
    FoldSnoc(task, [created, cancelled], input);
    assert [] + [created] == [created] && [created] + [cancelled] == [created, cancelled]
           && [created, cancelled] + [input] == log;
    assert CycleStart(log) == 0 by {
      assert !StartsCycle(log[2]) && !StartsCycle(log[1]) && !StartsCycle(log[0]);
    }
    assert AsksToCancel(log[1]);
  }

  // --- Approvals ----------------------------------------------------------------------------------

  predicate AsksApproval(e: Event) {
    e.payload.Tool? && e.payload.tool.ApprovalRequested?
  }

  predicate Decides(e: Event, request: EventId) {
    e.payload.Ingress? && e.payload.ingress.ApprovalSubmitted? && e.payload.ingress.request == request
  }

  /** The last approval request. */
  function LastRequest(events: seq<Event>): (r: Option<nat>)
    ensures r.Some? ==> r.value < |events| && AsksApproval(events[r.value])
                        && forall k :: r.value < k < |events| ==> !AsksApproval(events[k])
    ensures r.None? ==> forall k :: 0 <= k < |events| ==> !AsksApproval(events[k])
  {
    if events == [] then None
    else if AsksApproval(events[|events| - 1]) then Some(|events| - 1)
    else LastRequest(events[..|events| - 1])
  }

  function LastDecision(events: seq<Event>, request: EventId, sequence: nat): (r: Option<EventId>) {
    if events == [] then None
    else
      var e := events[|events| - 1];
      if e.sequence > sequence && Decides(e, request) then Some(e.id)
      else LastDecision(events[..|events| - 1], request, sequence)
  }

  function CompletedApproval(log: seq<Event>): Option<EventId> {
    var cycle := CurrentCycle(log);
    match LastRequest(cycle)
    case None => None
    case Some(i) => LastDecision(cycle, cycle[i].id, cycle[i].sequence)
  }

  /** `events[j]` is the last decision on `request` behind position `from`. */
  ghost predicate IsLastDecision(events: seq<Event>, request: EventId, from: nat, j: nat) {
    from < j < |events| && Decides(events[j], request) && forall k :: j < k < |events| ==> !Decides(events[k], request)
  }

  /** `cycle[j]` is the last decision on the cycle's last request, `cycle[i]`. */
  ghost predicate Settles(cycle: seq<Event>, i: nat, j: nat) {
    && i < |cycle| && AsksApproval(cycle[i]) && (forall k :: i < k < |cycle| ==> !AsksApproval(cycle[k]))
    && IsLastDecision(cycle, cycle[i].id, i, j)
  }

  lemma {:induction false} LastDecisionIsLast(events: seq<Event>, request: EventId, from: nat, sequence: nat)
    requires from < |events|
    requires forall k :: 0 <= k < |events| ==> (events[k].sequence > sequence <==> k > from)
    ensures match LastDecision(events, request, sequence)
            case Some(id) => exists j: nat :: IsLastDecision(events, request, from, j) && events[j].id == id
            case None => forall k :: from < k < |events| ==> !Decides(events[k], request)
  {
    var last := |events| - 1;
    var init := events[..last];
    if last == from {
      NoneAfter(events, request, sequence);
    } else if Decides(events[last], request) {
      assert IsLastDecision(events, request, from, last);
    } else {
      assert forall k :: 0 <= k < |init| ==> init[k] == events[k];
      LastDecisionIsLast(init, request, from, sequence);
      if LastDecision(init, request, sequence).Some? {
        var j: nat :| IsLastDecision(init, request, from, j)
          && init[j].id == LastDecision(init, request, sequence).value;
        assert IsLastDecision(events, request, from, j);
      }
    }
  }

  lemma {:induction false} NoneAfter(events: seq<Event>, request: EventId, sequence: nat)
    requires forall k :: 0 <= k < |events| ==> events[k].sequence <= sequence
    ensures LastDecision(events, request, sequence) == None
  {
    if events != [] {
      NoneAfter(events[..|events| - 1], request, sequence);
    }
  }

  /** In a numbered log the approval found is the last decision on the last request of the cycle, and
      none is found exactly when that request, if there is one, has no decision after it. */
  lemma CompletedApprovalIsLastDecision(task: TaskId, log: seq<Event>)
    requires Contiguous(task, log) && |log| <= U64_MAX
    ensures var cycle := CurrentCycle(log);
            match CompletedApproval(log)
            case Some(id) => exists i: nat, j: nat :: Settles(cycle, i, j) && cycle[j].id == id
            case None => forall i: nat, j: nat :: !Settles(cycle, i, j)
  {
    var cycle := CurrentCycle(log);
    if LastRequest(cycle).Some? {
      var i := LastRequest(cycle).value;
      forall k | 0 <= k < |cycle|
        ensures cycle[k].sequence == CycleStart(log) + k + 1
      {
        assert cycle[k] == log[CycleStart(log) + k];
      }
      LastDecisionIsLast(cycle, cycle[i].id, i, cycle[i].sequence);
      if CompletedApproval(log).Some? {
        var j: nat :| IsLastDecision(cycle, cycle[i].id, i, j) && cycle[j].id == CompletedApproval(log).value;
        assert Settles(cycle, i, j);
      }
    }
  }
}
