/** Checkpoints drawn up on a log and recorded later: compaction and clearing both load, draw up and record,
    and other writers, each other included, append in between. */
module CheckpointRuns {
  import opened Wrappers
  import opened Domain
  import opened Checkpoints
  import opened ContextAssembly
  import opened Seqs

  /** A checkpoint that is drawn up but not recorded, and the log it was drawn up on. */
  datatype Draft = Draft(base: seq<Event>, control: ControlEvent)

  datatype World = World(log: seq<Event>, drafts: map<nat, Draft>)

  datatype Step =
    | Append(event: Event)
    | DrawUp(draft: nat, control: ControlEvent)
    | Record(draft: nat, event: Event)

  predicate IsFresh(w: World, id: EventId) {
    && id !in Ids(w.log) && id !in Mentioned(w.log)
    && forall i :: i in w.drafts && w.drafts[i].control.ContextCompacted? ==> id !in w.drafts[i].control.dropped
  }

  ghost predicate IsEnabled(w: World, step: Step) {
    match step
    case Append(e) => !IsCheckpoint(e) && IsFresh(w, e.id)
    case DrawUp(i, control) => i !in w.drafts && IsDrawnUp(w.log, control)
    case Record(i, e) => i in w.drafts && e.payload == Control(w.drafts[i].control) && IsFresh(w, e.id)
  }

  /** A draft goes onto the log as it is by then. A step that is not enabled leaves the world alone. */
  ghost function Next(w: World, step: Step): World {
    if !IsEnabled(w, step) then w
    else
      match step
      case Append(e) => w.(log := w.log + [e])
      case DrawUp(i, control) => w.(drafts := w.drafts[i := Draft(w.log, control)])
      case Record(i, e) => World(w.log + [e], w.drafts - {i})
  }

  ghost function Run(w: World, steps: seq<Step>): World {
    if steps == [] then w else Next(Run(w, steps[..|steps| - 1]), steps[|steps| - 1])
  }

  // --- Drafts ---------------------------------------------------------------------------------------

  /** What has been appended since a draft was drawn up is new to every checkpoint it knew. */
  ghost predicate DraftSane(log: seq<Event>, d: Draft) {
    && d.base <= log && IsDrawnUp(d.base, d.control)
    && forall id :: id in Ids(log) && id in Mentioned(d.base) ==> id in Ids(d.base)
  }

  ghost predicate Sane(w: World) {
    forall i :: i in w.drafts ==> DraftSane(w.log, w.drafts[i])
  }

  lemma {:induction false} MentionedInPrefix(base: seq<Event>, log: seq<Event>)
    requires base <= log
    ensures Mentioned(base) <= Mentioned(log)
  {
    if base != [] {
      MentionedInPrefix(base[1..], log[1..]);
    }
  }

  lemma DraftStaysSane(log: seq<Event>, e: Event, d: Draft)
    requires DraftSane(log, d) && e.id !in Mentioned(log)
    ensures DraftSane(log + [e], d)
  {
    IdsGrow(log, e);
    MentionedInPrefix(d.base, log);
  }

  lemma StepKeepsSane(w: World, step: Step)
    requires Sane(w)
    ensures Sane(Next(w, step)) && w.log <= Next(w, step).log
  {
    var t := Next(w, step);
    if IsEnabled(w, step) && !step.DrawUp? {
      forall i | i in t.drafts
        ensures DraftSane(t.log, t.drafts[i])
      {
        assert DraftSane(w.log, w.drafts[i]);
        DraftStaysSane(w.log, step.event, w.drafts[i]);
      }
    }
  }

  lemma {:induction false} RunKeepsSane(w: World, steps: seq<Step>)
    requires Sane(w)
    ensures Sane(Run(w, steps))
  {
    if steps != [] {
      RunKeepsSane(w, steps[..|steps| - 1]);
      StepKeepsSane(Run(w, steps[..|steps| - 1]), steps[|steps| - 1]);
    }
  }

  // --- What a step does to coverage -----------------------------------------------------------------

  /** The step records a draft that does not reach everything the latest checkpoint drops by now. */
  ghost predicate Loses(w: World, step: Step) {
    step.Record? && IsEnabled(w, step) && IsCheckpoint(step.event) && !Covers(w.log, step.event.payload.control.dropped)
  }

  /** A step keeps everything covered exactly when it is no such recording. */
  lemma StepKeepsCoverageExactly(w: World, step: Step)
    requires Sane(w)
    ensures Coverage(w.log) <= Coverage(Next(w, step).log) <==> !Loses(w, step)
  {
    if IsEnabled(w, step) {
      match step {
        case Append(e) =>
          assert Proper(w.log, e);
          CoverageGrows(w.log, e);
        case DrawUp(_, _) =>
        case Record(i, e) =>
          assert DraftSane(w.log, w.drafts[i]);
          KeepsCoverageExactlyWhenCovers(w.log, e);
      }
    }
  }

  ghost predicate KeepsAt(w: World, steps: seq<Step>, k: nat)
    requires k < |steps|
  {
    Coverage(Run(w, steps[..k]).log) <= Coverage(Run(w, steps[..k + 1]).log)
  }

  ghost predicate LosesAt(w: World, steps: seq<Step>, k: nat)
    requires k < |steps|
  {
    Loses(Run(w, steps[..k]), steps[k])
  }

  ghost predicate OnlyGrows(w: World, steps: seq<Step>) {
    forall k :: 0 <= k < |steps| ==> KeepsAt(w, steps, k)
  }

  /** No step of the run loses anything. */
  ghost predicate NeverLoses(w: World, steps: seq<Step>) {
    forall k :: 0 <= k < |steps| ==> !LosesAt(w, steps, k)
  }

  lemma RunUnfolds(w: World, steps: seq<Step>, k: nat)
    requires k < |steps|
    ensures Run(w, steps[..k + 1]) == Next(Run(w, steps[..k]), steps[k])
  {
    TakeSnoc(steps, k);
  }

  lemma KeepsUnlessItLoses(w: World, steps: seq<Step>, k: nat)
    requires Sane(w) && k < |steps|
    ensures KeepsAt(w, steps, k) <==> !LosesAt(w, steps, k)
  {
    RunKeepsSane(w, steps[..k]);
    RunUnfolds(w, steps, k);
    StepKeepsCoverageExactly(Run(w, steps[..k]), steps[k]);
  }

  /** Over every interleaving of writers and producers: coverage only grows, from state to state, exactly
      when every checkpoint recorded covers, by then, what the latest one drops. */
  lemma CoverageOnlyGrowsExactlyWhen(w: World, steps: seq<Step>)
    requires Sane(w)
    ensures OnlyGrows(w, steps) <==> NeverLoses(w, steps)
  {
    forall k | 0 <= k < |steps|
      ensures KeepsAt(w, steps, k) <==> !LosesAt(w, steps, k)
    {
      KeepsUnlessItLoses(w, steps, k);
    }
  }

  lemma {:induction false} CoveredEverAfter(w: World, steps: seq<Step>, j: nat, k: nat)
    requires OnlyGrows(w, steps) && j <= k <= |steps|
    ensures Coverage(Run(w, steps[..j]).log) <= Coverage(Run(w, steps[..k]).log)
  {
    if j < k {
      CoveredEverAfter(w, steps, j, k - 1);
      assert KeepsAt(w, steps, k - 1);
    }
  }

  /** In such a run nothing that was covered once is ever rendered again. */
  lemma NothingComesBack(w: World, steps: seq<Step>, j: nat, k: nat, task: TaskId, provided: set<EventId>,
                         minimum: PermissionLevel,
                         now: nat, wording: Wording)
    requires Sane(w) && NeverLoses(w, steps) && j <= k <= |steps|
    requires Context(task, Run(w, steps[..k]).log, provided, minimum, now, wording).Success?
    ensures var log := Run(w, steps[..k]).log;
            var context := Context(task, log, provided, minimum, now, wording).value;
            forall n :: |SummaryPart(log)| <= n < |context| ==> context[n].eventId !in Coverage(Run(w, steps[..j]).log)
  {
    CoverageOnlyGrowsExactlyWhen(w, steps);
    CoveredEverAfter(w, steps, j, k);
    ContextShape(task, Run(w, steps[..k]).log, provided, minimum, now, wording);
  }

  // --- Which drafts are safe ------------------------------------------------------------------------

  /** A draft is safe as long as the latest checkpoint is the one it was drawn up on: whatever else is
      appended in between, recording it loses nothing. */
  lemma UndisturbedDraftCovers(log: seq<Event>, d: Draft)
    requires DraftSane(log, d) && LatestCheckpoint(log) == LatestCheckpoint(d.base)
    ensures Covers(log, d.control.dropped)
  {
    forall id | id in DirectlyDropped(log) && id in Ids(log)
      ensures ReachesFrom(log, d.control.dropped, id)
    {
      LatestIsMentioned(d.base, id);
      DirectReaches(d.base, id);
      assert id in Coverage(d.base);
      assert ChainFrom(log, d.control.dropped, [id]) && [id][|[id]| - 1] == id;
    }
  }

  lemma LatestIsMentioned(log: seq<Event>, id: EventId)
    requires id in DirectlyDropped(log)
    ensures id in Mentioned(log)
  {}

  /** A draft overtaken by another checkpoint is safe exactly when it reaches what that one drops. */
  lemma OvertakenDraftCovers(log: seq<Event>, other: Event, dropped: seq<EventId>)
    requires IsCheckpoint(other)
    ensures Covers(log + [other], dropped) <==>
            forall id :: id in other.payload.control.dropped && id in Ids(log + [other]) ==>
                           ReachesFrom(log + [other], dropped, id)
  {
    assert (log + [other])[..|log|] == log;
  }

  // --- A race that loses ----------------------------------------------------------------------------

  lemma LongChainDrops(log: seq<Event>, roots: seq<EventId>, path: seq<EventId>)
    requires ChainFrom(log, roots, path) && |path| > 1
    ensures path[0] in roots && DroppedBy(log, path[0]) != []
  {
    assert path[1] in DroppedBy(log, path[0]);
  }

  /** A checkpoint that drops no checkpoints reaches nothing further. */
  lemma PlainReach(log: seq<Event>, dropped: seq<EventId>, id: EventId)
    requires (forall x :: x in dropped ==> DroppedBy(log, x) == []) && ReachesFrom(log, dropped, id)
    ensures id in dropped
  {
    var path :| ChainFrom(log, dropped, path) && path[|path| - 1] == id;
    if |path| > 1 {
      LongChainDrops(log, dropped, path);
    }
  }

  lemma StillPlain(log: seq<Event>, e: Event, dropped: seq<EventId>)
    requires e.id !in dropped && forall x :: x in dropped ==> DroppedBy(log, x) == []
    ensures forall x :: x in dropped ==> DroppedBy(log + [e], x) == []
  {
    forall x | x in dropped
      ensures DroppedBy(log + [e], x) == []
    {
      OthersDropTheSame(log, e, x);
    }
  }

  /** Two checkpoints drawn up on one log: what only the first drops is covered by it, and is not covered any
      more once the second is recorded behind it. */
  lemma RacingCheckpointLoses(log: seq<Event>, first: Event, second: Event, id: EventId)
    requires IsCheckpoint(first) && IsDrawnUp(log, first.payload.control)
    requires IsCheckpoint(second) && IsDrawnUp(log, second.payload.control)
    requires IsNew(log, first.payload.control.dropped, first.id) && first.id !in second.payload.control.dropped
    requires IsNew(log + [first], second.payload.control.dropped, second.id)
    requires id in first.payload.control.dropped && id !in second.payload.control.dropped
    requires forall x :: x in second.payload.control.dropped ==> DroppedBy(log, x) == []
    ensures Proper(log, first) && id in Coverage(log + [first])
    ensures !Covers(log + [first], second.payload.control.dropped) && id !in Coverage(log + [first] + [second])
  {
    var grown, dropped := log + [first], second.payload.control.dropped;
    assert ChainFrom(log, first.payload.control.dropped, [id]) && [id][|[id]| - 1] == id;
    CoveredByNew(log, first, id);
    StillPlain(log, first, dropped);
    if ReachesFrom(grown, dropped, id) {
      PlainReach(grown, dropped, id);
    }
    CoveredByNew(grown, second, id);
    OvertakenDraftCovers(log, first, dropped);
    IdsGrow(log, first);
  }

  lemma BothDrawUp(w: World, first: ControlEvent, second: ControlEvent, w1: World, w2: World)
    requires w.drafts == map[] && IsDrawnUp(w.log, first) && IsDrawnUp(w.log, second)
    requires w1 == Next(w, DrawUp(0, first)) && w2 == Next(w1, DrawUp(1, second))
    ensures w2 == World(w.log, map[0 := Draft(w.log, first), 1 := Draft(w.log, second)])
  {}

  lemma FirstIsRecorded(w: World, log: seq<Event>, first: Event, second: ControlEvent, t: World)
    requires IsCheckpoint(first) && second.ContextCompacted?
    requires w == World(log, map[0 := Draft(log, first.payload.control), 1 := Draft(log, second)])
    requires IsNew(log, first.payload.control.dropped, first.id) && first.id !in second.dropped
             && t == Next(w, Record(0, first))
    ensures t == World(log + [first], map[1 := Draft(log, second)])
  {
    assert w.drafts - {0} == map[1 := Draft(log, second)];
  }

  lemma SecondMayBeRecorded(w: World, base: seq<Event>, second: Event)
    requires IsCheckpoint(second) && w.drafts == map[1 := Draft(base, second.payload.control)]
    requires IsNew(w.log, second.payload.control.dropped, second.id)
    ensures IsEnabled(w, Record(1, second)) && Next(w, Record(1, second)).log == w.log + [second]
  {}

  /** As a run: both draw up, then both record. The machine allows it, and its last step loses. */
  lemma RaceIsReached(w: World, first: Event, second: Event, id: EventId, w1: World, w2: World, w3: World)
    requires w.drafts == map[] && IsCheckpoint(first) && IsCheckpoint(second)
    requires IsDrawnUp(w.log, first.payload.control) && IsDrawnUp(w.log, second.payload.control)
    requires IsNew(w.log, first.payload.control.dropped, first.id) && first.id !in second.payload.control.dropped
    requires IsNew(w.log + [first], second.payload.control.dropped, second.id)
    requires id in first.payload.control.dropped && id !in second.payload.control.dropped
    requires forall x :: x in second.payload.control.dropped ==> DroppedBy(w.log, x) == []
    requires w1 == Next(w, DrawUp(0, first.payload.control)) && w2 == Next(w1, DrawUp(1, second.payload.control))
    requires w3 == Next(w2, Record(0, first))
    ensures id in Coverage(w3.log) && Loses(w3, Record(1, second))
    ensures id !in Coverage(Next(w3, Record(1, second)).log)
  {
    RacingCheckpointLoses(w.log, first, second, id);
    BothDrawUp(w, first.payload.control, second.payload.control, w1, w2);
    FirstIsRecorded(w2, w.log, first, second.payload.control, w3);
    SecondMayBeRecorded(w3, w.log, second);
  }

  // --- What loss means ------------------------------------------------------------------------------

  /** An event of the task that is not skipped, and shows something, is shown. */
  lemma {:induction false} UnskippedIsShown(task: TaskId, all: seq<Event>, log: seq<Event>, skip: set<EventId>,
                                            minimum: PermissionLevel,
                                            now: nat, wording: Wording, e: Event)
    requires Items(task, all, log, skip, minimum, now, wording).Success?
    requires e in log && e.task == task && e.id !in skip
    requires RenderEvent(task, all, e, minimum, now, wording).Success?
             && RenderEvent(task, all, e, minimum, now, wording).value.Some?
    ensures RenderEvent(task, all, e, minimum, now, wording).value.value
              in Items(task, all, log, skip, minimum, now, wording).value
  {
    var init, last := log[..|log| - 1], log[|log| - 1];
    assert log == init + [last];
    if e in init {
      UnskippedIsShown(task, all, init, skip, minimum, now, wording, e);
    }
  }

  /** Hence what gets lost is rendered again. */
  lemma LostIsShownAgain(task: TaskId, log: seq<Event>, provided: set<EventId>, minimum: PermissionLevel, now: nat,
                         wording: Wording, e: Event)
    requires Context(task, log, provided, minimum, now, wording).Success?
    requires e in log && e.task == task && e.id !in Coverage(log) && e.id !in provided
    requires RenderEvent(task, log, e, minimum, now, wording).Success?
             && RenderEvent(task, log, e, minimum, now, wording).value.Some?
    ensures RenderEvent(task, log, e, minimum, now, wording).value.value
              in Context(task, log, provided, minimum, now, wording).value
  {
    UnskippedIsShown(task, log, log, Coverage(log) + provided, minimum, now, wording, e);
  }
}
