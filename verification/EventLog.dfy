/** The append-only event store and the task runtime that writes to it, called one at a time. */
module EventLog {
  import opened Wrappers
  import opened Domain

  datatype StoreError = SequenceConflict | DuplicateEvent | BrokenStream

  datatype RuntimeError =
    | ChildTaskManagementForbidden
    | Store(storeError: StoreError)
    | Rejected(projectionError: ProjectionError)
    | EmptyEventStream

  /** What the store expects next: it looks at the last record only. */
  function ExpectedSequence(log: seq<Event>): nat {
    if log == [] then 1 else SaturatingAdd64(log[|log| - 1].sequence, 1)
  }

  function StoreAppend(log: seq<Event>, event: Event): Result<seq<Event>, StoreError> {
    if event.sequence != ExpectedSequence(log) then Failure(SequenceConflict)
    else if ContainsId(log, event.id) then Failure(DuplicateEvent)
    else Success(log + [event])
  }

  /** A log a runtime can be rebuilt from. */
  ghost predicate Replayable(task: TaskId, log: seq<Event>) {
    Fold(task, log).Success? && DistinctIds(log)
  }

  /** `p` is what some prefix of `log` folds to. */
  ghost predicate IsPrefixProjection(p: Projection, task: TaskId, log: seq<Event>) {
    exists k :: 0 <= k <= |log| && Fold(task, log[..k]) == Success(p)
  }

  predicate ForbiddenToChild(task: TaskId, payload: AgentEvent) {
    task != MAIN && payload.Control? && payload.control.IsTaskManagementOperation()
  }

  lemma ExpectedIsNext(task: TaskId, log: seq<Event>)
    requires Fold(task, log).Success?
    ensures ExpectedSequence(log) == NextSequence(Fold(task, log).value)
  {}

  /** The heart of the optimistic protocol. The store checks a number, the writer checks its own and
      possibly stale projection; when both pass, the projection was not stale, so the log stays
      replayable. Below the 64-bit ceiling only: at the ceiling numbers repeat and prove nothing. */
  lemma AcceptedAppendIsCurrent(task: TaskId, log: seq<Event>, p: Projection, event: Event)
    requires Replayable(task, log) && IsPrefixProjection(p, task, log) && |log| < U64_MAX
    requires Apply(p, event).Success? && StoreAppend(log, event).Success?
    ensures Fold(task, log) == Success(p)
    ensures Replayable(task, log + [event]) && Fold(task, log + [event]) == Apply(p, event)
  {
    var k :| 0 <= k <= |log| && Fold(task, log[..k]) == Success(p);
    FoldIsContiguous(task, log);
    FoldIsContiguous(task, log[..k]);
    assert k == |log|;
    assert log[..k] == log;
    FoldSnoc(task, log, event);
    DistinctSnoc(log, event);
  }

  lemma PrefixProjectionGrows(p: Projection, task: TaskId, log: seq<Event>, more: seq<Event>)
    requires IsPrefixProjection(p, task, log)
    ensures IsPrefixProjection(p, task, log + more)
  {
    var k :| 0 <= k <= |log| && Fold(task, log[..k]) == Success(p);
    assert (log + more)[..k] == log[..k];
  }

  lemma WholeFoldIsPrefixProjection(task: TaskId, log: seq<Event>)
    requires Fold(task, log).Success?
    ensures IsPrefixProjection(Fold(task, log).value, task, log)
  {
    assert log[..|log|] == log;
  }

  lemma StaleMeansConflict(task: TaskId, log: seq<Event>, p: Projection, event: Event)
    requires Replayable(task, log) && IsPrefixProjection(p, task, log) && |log| < U64_MAX
    requires event.sequence == NextSequence(p)
    ensures event.sequence == ExpectedSequence(log) <==> Fold(task, log) == Success(p)
  {
    var k :| 0 <= k <= |log| && Fold(task, log[..k]) == Success(p);
    FoldIsContiguous(task, log);
    FoldIsContiguous(task, log[..k]);
    assert log[..|log|] == log;
  }

  /** A log a store keeps: it replays and holds issued identifiers only. */
  ghost predicate KeptLog(task: TaskId, log: seq<Event>, issued: nat) {
    Replayable(task, log) && forall e :: e in log ==> e.id < issued
  }

  ghost predicate AllKept(files: map<TaskId, seq<Event>>, issued: nat) {
    forall t {:trigger KeptLog(t, files[t], issued)} :: t in files ==> KeptLog(t, files[t], issued)
  }

  function FileOf(files: map<TaskId, seq<Event>>, task: TaskId): seq<Event> {
    if task in files then files[task] else []
  }

  lemma KeptOf(files: map<TaskId, seq<Event>>, issued: nat, task: TaskId)
    requires AllKept(files, issued)
    ensures KeptLog(task, FileOf(files, task), issued)
  {}

  lemma KeptWhileIssuing(files: map<TaskId, seq<Event>>, issued: nat, later: nat)
    requires AllKept(files, issued) && issued <= later
    ensures AllKept(files, later)
  {
    forall t | t in files
      ensures KeptLog(t, files[t], later)
    {
      assert KeptLog(t, files[t], issued);
    }
  }

  lemma KeptAfterAppend(files: map<TaskId, seq<Event>>, issued: nat, task: TaskId, event: Event)
    requires AllKept(files, issued) && event.id < issued && Replayable(task, FileOf(files, task) + [event])
    ensures AllKept(files[task := FileOf(files, task) + [event]], issued)
  {
    var grown := files[task := FileOf(files, task) + [event]];
    KeptOf(files, issued, task);
    forall t | t in grown
      ensures KeptLog(t, grown[t], issued)
    {
      if t != task {
        assert KeptLog(t, files[t], issued);
      }
    }
  }

  /** The task, as its log stands, takes `payload` next. */
  predicate TaskTakes(task: TaskId, log: seq<Event>, payload: AgentEvent) {
    match Fold(task, log) case Success(p) => Admits(p, payload) case Failure(_) => false
  }

  /** A task that is over takes a new cycle, and is queued by it. */
  lemma OverTakesQueue(p: Projection)
    requires p.status.IsTerminal()
    ensures Admits(p, Control(TaskQueued))
    ensures ApplyPayload(p, Control(TaskQueued)).value.status == Queued
  {}

  /** One file per task, a counter that stands in for fresh identifiers, and the broadcast of
      everything persisted, in the order it was persisted. */
  class JsonlEventStore {
    var files: map<TaskId, seq<Event>>
    var published: seq<Event>
    var issued: nat

    function LogOf(task: TaskId): seq<Event>
      reads this
    {
      FileOf(files, task)
    }

    /** Every file replays and holds issued identifiers only. */
    ghost predicate Valid()
      reads this
    {
      AllKept(files, issued)
    }

    constructor ()
      ensures Valid() && files == map[] && published == []
    {
      files, published, issued := map[], [], 0;
    }

    method NewEventId() returns (id: EventId)
      modifies this`issued
      ensures id == old(issued) && issued == old(issued) + 1
    {
      id := issued;
      issued := issued + 1;
    }

    /** Checks the last record and the identifiers, then extends the file and publishes. */
    method Append(event: Event) returns (r: Result<(), StoreError>)
      modifies this`files, this`published
      ensures match StoreAppend(old(LogOf(event.task)), event)
              case Success(log) =>
                r == Success(()) && files == old(files)[event.task := log] && published == old(published) + [event]
              case Failure(error) => r == Failure(error) && files == old(files) && published == old(published)
    {
      var existing := LogOf(event.task);
      var expected := if existing == [] then 1 else SaturatingAdd64(existing[|existing| - 1].sequence, 1);
      if event.sequence != expected {
        return Failure(SequenceConflict);
      }
      if exists i :: 0 <= i < |existing| && existing[i].id == event.id {
        return Failure(DuplicateEvent);
      }
      files := files[event.task := existing + [event]];
      published := published + [event];
      r := Success(());
    }

    /** Reads a file and refuses it unless it is numbered 1, 2, 3, ... and belongs to the task. */
    method LoadTask(task: TaskId) returns (r: Result<seq<Event>, StoreError>)
      ensures r == if Contiguous(task, LogOf(task)) then Success(LogOf(task)) else Failure(BrokenStream)
    {
      var events := LogOf(task);
      for index := 0 to |events|
        invariant forall i :: 0 <= i < index ==> events[i].task == task && events[i].sequence == SequenceAt(i)
      {
        if events[index].task != task || events[index].sequence != SaturatingAdd64(index, 1) {
          return Failure(BrokenStream);
        }
      }
      r := Success(events);
    }

    /** Rebuilds a projection by applying the events of a file in order. */
    method Replay(task: TaskId) returns (r: Result<Projection, RuntimeError>)
      ensures Fold(task, LogOf(task)).Success? ==> r == Success(Fold(task, LogOf(task)).value)
      ensures Fold(task, LogOf(task)).Failure? ==> r.Failure?
    {
      var loaded := LoadTask(task);
      if loaded.Failure? {
        if Fold(task, LogOf(task)).Success? {
          FoldIsContiguous(task, LogOf(task));
        }
        return Failure(Store(loaded.error));
      }
      var events := loaded.value;
      var projection := NewProjection(task);
      for i := 0 to |events|
        invariant Fold(task, events[..i]) == Success(projection)
      {
        assert events[..i + 1][..i] == events[..i];
        var applied := Apply(projection, events[i]);
        if applied.Failure? {
          if Fold(task, events).Success? {
            FoldPrefix(task, events, i + 1);
          }
          return Failure(Rejected(applied.error));
        }
        projection := applied.value;
      }
      assert events[..|events|] == events;
      r := Success(projection);
    }
  }

  /** A writer of one task log, with the projection it last saw. */
  class TaskRuntime {
    const store: JsonlEventStore
    var projection: Projection

    /** The projection may be stale, but it is never anything but a prefix of the log. */
    ghost predicate Valid()
      reads this, store
    {
      && store.Valid()
      && IsPrefixProjection(projection, projection.task, store.LogOf(projection.task))
    }

    /** The log this runtime writes to. */
    function Log(): seq<Event>
      reads this, store
    {
      store.LogOf(projection.task)
    }

    constructor (store: JsonlEventStore, task: TaskId)
      requires store.Valid()
      ensures Valid() && this.store == store && projection == NewProjection(task)
    {
      this.store := store;
      this.projection := NewProjection(task);
      new;
      assert Log()[..0] == [];
    }

    /** Rebuilds the projection from the store. */
    method RefreshProjection() returns (r: Result<(), RuntimeError>)
      requires Valid()
      modifies this
      ensures Valid() && r.Success?
      ensures Fold(old(projection).task, Log()) == Success(projection) && projection.task == old(projection.task)
    {
      var log := Log();
      KeptOf(store.files, store.issued, projection.task);
      var replayed := store.Replay(projection.task);
      FoldIsContiguous(projection.task, log);
      projection := replayed.value;
      WholeFoldIsPrefixProjection(projection.task, log);
      r := Success(());
    }

    method StartNewCycleIfTerminal(causation: Option<EventId>) returns (r: Result<Option<Event>, RuntimeError>)
      requires Valid() && |Log()| < U64_MAX
      modifies this, store
      ensures Valid() && projection.task == old(projection.task)
      ensures r.Success? ==> (r.value.Some? <==> old(projection).status.IsTerminal())
      ensures r.Success? && r.value.None? ==> store.files == old(store.files) && store.published == old(store.published)
      ensures r.Success? && r.value.Some? ==>
                && r.value.value.payload == Control(TaskQueued)
                && r.value.value.causation == causation && r.value.value.provenance == SYSTEM_PROVENANCE
                && Appended(old(store.files), old(store.published), r.value.value)
      ensures r.Failure? ==> store.files == old(store.files) && store.published == old(store.published)
      ensures r.Success? <==>
              !old(projection).status.IsTerminal() || TaskTakes(projection.task, old(Log()), Control(TaskQueued))
      ensures r.Success? && r.value.None? ==> projection == old(projection)
    {
      KeptOf(store.files, store.issued, projection.task);
      if !projection.status.IsTerminal() {
        return Success(None);
      }
      OverTakesQueue(projection);
      var recorded := Record(Control(TaskQueued), causation, SYSTEM_PROVENANCE);
      match recorded
      case Success(event) => r := Success(Some(event));
      case Failure(error) => r := Failure(error);
    }

    /** The store now holds exactly one record more than it did: `event`, at the end of its log. */
    ghost predicate Appended(files: map<TaskId, seq<Event>>, published: seq<Event>, event: Event)
      reads this, store
    {
      && event.task == projection.task
      && store.files == files[event.task := FileOf(files, event.task) + [event]]
      && store.published == published + [event]
      && Fold(event.task, store.LogOf(event.task)) == Success(projection)
    }

    method Draft(payload: AgentEvent, causation: Option<EventId>, provenance: EventProvenance) returns (event: Event)
      modifies store`issued
      ensures event.task == projection.task && event.sequence == NextSequence(projection)
      ensures event.payload == payload && event.causation == causation && event.provenance == provenance
      ensures event.id == old(store.issued) && store.issued == old(store.issued) + 1
    {
      var id := store.NewEventId();
      event := Event(id, projection.task, SaturatingAdd64(projection.lastSequence, 1), causation, provenance, payload);
    }

    /** One attempt: the store takes the event exactly when this runtime's projection is current. */
    method TryAppend(event: Event, next: Projection) returns (r: Result<(), StoreError>)
      requires Valid() && |Log()| < U64_MAX && Apply(projection, event) == Success(next)
      requires event.id < store.issued && !ContainsId(Log(), event.id)
      modifies this`projection, store`files, store`published
      ensures Valid() && projection.task == old(projection.task)
      ensures Fold(projection.task, old(Log())) == Success(old(projection)) ==>
                r.Success? && Appended(old(store.files), old(store.published), event)
      ensures Fold(projection.task, old(Log())) != Success(old(projection)) ==>
                r == Failure(SequenceConflict) && projection == old(projection)
                && store.files == old(store.files) && store.published == old(store.published)
    {
      ghost var task := projection.task;
      ghost var log, files := Log(), store.files;
      KeptOf(files, store.issued, task);
      StaleMeansConflict(task, log, projection, event);
      r := store.Append(event);
      if r.Success? {
        AcceptedAppendIsCurrent(task, log, projection, event);
        KeptAfterAppend(files, store.issued, task, event);
        projection := next;
        WholeFoldIsPrefixProjection(task, log + [event]);
      }
    }

    /** Drafts an event on the projection, validates it on a copy, and tries to append it. */
    method Attempt(payload: AgentEvent, causation: Option<EventId>, provenance: EventProvenance)
      returns (r: Result<Event, RuntimeError>)
      requires Valid() && |Log()| < U64_MAX
      modifies this`projection, store
      ensures Valid() && projection.task == old(projection.task) && store.issued > old(store.issued)
      ensures r.Success? ==>
                && r.value.payload == payload && r.value.causation == causation && r.value.provenance == provenance
                && old(store.issued) <= r.value.id < store.issued
                && Appended(old(store.files), old(store.published), r.value)
      ensures r.Failure? ==>
                projection == old(projection) && store.files == old(store.files)
                  && store.published == old(store.published)
      ensures var current := Fold(projection.task, old(Log())) == Success(old(projection));
              && (r.Success? <==> Admits(old(projection), payload) && current)
              && (r == Failure(Store(SequenceConflict)) <==> Admits(old(projection), payload) && !current)
    {
      KeptOf(store.files, store.issued, projection.task);
      KeptWhileIssuing(store.files, store.issued, store.issued + 1);
      var event := Draft(payload, causation, provenance);
      var next := Apply(projection, event);
      AdmitsIsAcceptance(projection, event);
      if next.Failure? {
        return Failure(Rejected(next.error));
      }
      var appended := TryAppend(event, next.value);
      match appended {
        case Success(_) => r := Success(event);
        case Failure(error) => r := Failure(Store(error));
      }
    }

    /** Appends exactly the event it returns, or nothing; a sequence conflict is retried once on a
        refreshed projection. Called alone, it fails only when the task forbids the payload. */
    method Record(payload: AgentEvent, causation: Option<EventId>, provenance: EventProvenance)
      returns (r: Result<Event, RuntimeError>)
      requires Valid() && |Log()| < U64_MAX
      modifies this, store
      ensures Valid() && projection.task == old(projection.task) && store.issued >= old(store.issued)
      ensures r.Success? ==>
                && r.value.payload == payload && r.value.causation == causation && r.value.provenance == provenance
                && old(store.issued) <= r.value.id < store.issued
                && Appended(old(store.files), old(store.published), r.value)
      ensures r.Failure? ==> store.files == old(store.files) && store.published == old(store.published)
      ensures r.Success? <==>
              && !ForbiddenToChild(projection.task, payload)
              && Admits(old(projection), payload)
              && TaskTakes(projection.task, old(Log()), payload)
      ensures r.Failure? ==> projection == old(projection) || Fold(projection.task, Log()) == Success(projection)
    {
      KeptOf(store.files, store.issued, projection.task);
      ghost var current := Fold(projection.task, Log());
      if ForbiddenToChild(projection.task, payload) {
        return Failure(ChildTaskManagementForbidden);
      }
      r := Attempt(payload, causation, provenance);
      if r == Failure(Store(SequenceConflict)) {
        var refreshed := RefreshProjection();
        assert current == Success(projection);
        r := Attempt(payload, causation, provenance);
      }
    }
  }
}
