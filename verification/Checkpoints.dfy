/** Which events the latest compaction checkpoint covers, directly or through nested checkpoints. */
module Checkpoints {
  import opened Wrappers
  import opened Domain

  predicate IsCheckpoint(e: Event) {
    e.payload.Control? && e.payload.control.ContextCompacted?
  }

  /** The last checkpoint. */
  function LatestCheckpoint(log: seq<Event>): (r: Option<Event>)
    ensures r.Some? ==> r.value in log && IsCheckpoint(r.value)
    ensures r.None? ==> forall e :: e in log ==> !IsCheckpoint(e)
  {
    if log == [] then None
    else if IsCheckpoint(log[|log| - 1]) then Some(log[|log| - 1])
    else LatestCheckpoint(log[..|log| - 1])
  }

  /** The identifiers an event drops: those a checkpoint lists. */
  function DroppedBy(log: seq<Event>, id: EventId): seq<EventId> {
    match FindEvent(log, id)
    case Some(e) => if IsCheckpoint(e) then e.payload.control.dropped else []
    case None => []
  }

  function DirectlyDropped(log: seq<Event>): seq<EventId> {
    match LatestCheckpoint(log)
    case Some(e) => e.payload.control.dropped
    case None => []
  }

  // --- Coverage, by paths -------------------------------------------------------------------------

  /** A chain of checkpoints that starts at one of `roots`. */
  ghost predicate ChainFrom(log: seq<Event>, roots: seq<EventId>, path: seq<EventId>) {
    && path != [] && path[0] in roots
    && forall i :: 0 < i < |path| ==> path[i] in DroppedBy(log, path[i - 1])
  }

  ghost predicate ReachesFrom(log: seq<Event>, roots: seq<EventId>, id: EventId) {
    exists path :: ChainFrom(log, roots, path) && path[|path| - 1] == id
  }

  /** One that starts at what the latest checkpoint drops. */
  ghost predicate Chain(log: seq<Event>, path: seq<EventId>) {
    ChainFrom(log, DirectlyDropped(log), path)
  }

  ghost predicate Reaches(log: seq<Event>, id: EventId) {
    exists path :: Chain(log, path) && path[|path| - 1] == id
  }

  lemma DirectReaches(log: seq<Event>, id: EventId)
    requires id in DirectlyDropped(log)
    ensures Reaches(log, id)
  {
    assert Chain(log, [id]) && [id][|[id]| - 1] == id;
  }

  lemma NestedReaches(log: seq<Event>, id: EventId, next: EventId)
    requires Reaches(log, id) && next in DroppedBy(log, id)
    ensures Reaches(log, next)
  {
    var path :| Chain(log, path) && path[|path| - 1] == id;
    var longer := path + [next];
    assert Chain(log, longer) by {
      forall i | 0 < i < |longer|
        ensures longer[i] in DroppedBy(log, longer[i - 1])
      {
        assert longer[i - 1] == path[i - 1];
      }
    }
    assert longer[|longer| - 1] == next;
  }

  /** A set that holds what is dropped directly and is closed under nesting holds every reachable id. */
  lemma {:induction false} ChainStaysInside(log: seq<Event>, path: seq<EventId>, ids: set<EventId>)
    requires Chain(log, path)
    requires forall id :: id in DirectlyDropped(log) ==> id in ids
    requires forall id, next :: id in ids && next in DroppedBy(log, id) ==> next in ids
    ensures path[|path| - 1] in ids
  {
    if |path| > 1 {
      var init := path[..|path| - 1];
      assert Chain(log, init) by {
        forall i | 0 < i < |init|
          ensures init[i] in DroppedBy(log, init[i - 1])
        {
          assert init[i] == path[i] && init[i - 1] == path[i - 1];
        }
      }
      ChainStaysInside(log, init, ids);
      assert path[|path| - 1] in DroppedBy(log, path[|path| - 2]);
    }
  }

  /** Every identifier any checkpoint of the log mentions. */
  function Mentioned(log: seq<Event>): (r: set<EventId>)
    ensures forall e, id :: e in log && IsCheckpoint(e) && id in e.payload.control.dropped ==> id in r
  {
    if log == [] then {}
    else
      var e := log[0];
      (if IsCheckpoint(e) then set id | id in e.payload.control.dropped else {}) + Mentioned(log[1..])
  }

  /** The events of `log` whose identifier is in `ids`, in log order. */
  function Pick(log: seq<Event>, ids: set<EventId>): seq<EventId> {
    if log == [] then []
    else Pick(log[..|log| - 1], ids) + if log[|log| - 1].id in ids then [log[|log| - 1].id] else []
  }

  lemma {:induction false} PickMembers(log: seq<Event>, ids: set<EventId>)
    ensures forall id :: id in Pick(log, ids) <==> id in ids && id in Ids(log)
  {
    if log != [] {
      var init, e := log[..|log| - 1], log[|log| - 1];
      PickMembers(init, ids);
      assert log == init + [e];
      assert Ids(log) == Ids(init) + {e.id};
    }
  }

  // --- Coverage, by worklist ----------------------------------------------------------------------

  ghost predicate Sound(log: seq<Event>, ids: set<EventId>) {
    forall id :: id in ids ==> Reaches(log, id)
  }

  /** The identifiers in `done` have had everything they drop added to `all`. */
  ghost predicate ExpandedInto(log: seq<Event>, done: set<EventId>, all: set<EventId>) {
    forall id, next :: id in done && next in DroppedBy(log, id) ==> next in all
  }

  /** Adds what one checkpoint drops, and queues what is new. */
  method Expand(log: seq<Event>, dropped: seq<EventId>, all: set<EventId>, pending: set<EventId>)
    returns (all': set<EventId>, pending': set<EventId>)
    ensures all' == all + AsSet(dropped)
    ensures pending' == pending + (all' - all)
  {
    all', pending' := all, pending;
    for i := 0 to |dropped|
      invariant all' == all + AsSet(dropped[..i])
      invariant pending' == pending + (all' - all)
    {
      assert dropped[..i + 1] == dropped[..i] + [dropped[i]];
      if dropped[i] !in all' {
        all' := all' + {dropped[i]};
        pending' := pending' + {dropped[i]};
      }
    }
    assert dropped[..|dropped|] == dropped;
  }

  function AsSet(s: seq<EventId>): set<EventId> {
    set id | id in s
  }

  /** The worklist invariant: everything found is reachable, and everything found and no longer queued
      has been followed. */
  ghost predicate Working(log: seq<Event>, all: set<EventId>, pending: set<EventId>, visited: set<EventId>) {
    && Sound(log, all) && pending <= all <= Mentioned(log) && AsSet(DirectlyDropped(log)) <= all
    && ExpandedInto(log, all - pending, all) && ExpandedInto(log, visited, all)
  }

  lemma WorkBegins(log: seq<Event>)
    ensures Working(log, AsSet(DirectlyDropped(log)), AsSet(DirectlyDropped(log)), {})
  {
    forall id | id in DirectlyDropped(log)
      ensures Reaches(log, id)
    {
      DirectReaches(log, id);
    }
  }

  lemma PoppedLeaf(log: seq<Event>, all: set<EventId>, pending: set<EventId>, visited: set<EventId>, id: EventId)
    requires Working(log, all, pending, visited) && id in pending
    requires DroppedBy(log, id) == [] || id in visited
    ensures Working(log, all, pending - {id}, visited)
  {}

  lemma MentionsDropped(log: seq<Event>, id: EventId)
    ensures AsSet(DroppedBy(log, id)) <= Mentioned(log)
  {}

  lemma FollowedIsSound(log: seq<Event>, all: set<EventId>, id: EventId)
    requires Sound(log, all) && id in all
    ensures Sound(log, all + AsSet(DroppedBy(log, id)))
  {
    forall next | next in DroppedBy(log, id)
      ensures Reaches(log, next)
    {
      NestedReaches(log, id, next);
    }
  }

  lemma FollowedIsExpanded(log: seq<Event>, all: set<EventId>, pending: set<EventId>, visited: set<EventId>,
                           id: EventId, all': set<EventId>)
    requires id in pending && pending <= all && all' == all + AsSet(DroppedBy(log, id))
    requires ExpandedInto(log, all - pending, all) && ExpandedInto(log, visited, all)
    ensures ExpandedInto(log, (all - pending) + {id}, all') && ExpandedInto(log, visited + {id}, all')
  {}

  /** What is found and no longer queued, once `id` has been followed. */
  lemma QueueAfter(all: set<EventId>, pending: set<EventId>, id: EventId, all': set<EventId>, pending': set<EventId>)
    requires id in pending && pending <= all <= all' && pending' == (pending - {id}) + (all' - all)
    ensures pending' <= all' && all' - pending' == (all - pending) + {id}
    ensures all' == all ==> pending' == pending - {id} && |pending'| < |pending|
  {}

  lemma PoppedCheckpoint(log: seq<Event>, all: set<EventId>, pending: set<EventId>, visited: set<EventId>, id: EventId,
                         all': set<EventId>, pending': set<EventId>)
    requires Working(log, all, pending, visited) && id in pending
    requires all' == all + AsSet(DroppedBy(log, id)) && pending' == (pending - {id}) + (all' - all)
    ensures Working(log, all', pending', visited + {id})
    ensures |Mentioned(log) - all'| < |Mentioned(log) - all| || (all' == all && |pending'| < |pending|)
  {
    MentionsDropped(log, id);
    FollowedIsSound(log, all, id);
    FollowedIsExpanded(log, all, pending, visited, id, all');
    QueueAfter(all, pending, id, all', pending');
    SetShrinks(Mentioned(log), all, all');
  }

  lemma SetShrinks(universe: set<EventId>, all: set<EventId>, grown: set<EventId>)
    requires all <= grown <= universe
    ensures grown != all ==> |universe - grown| < |universe - all|
  {
    assert universe - all == (universe - grown) + (grown - all);
    if grown != all {
      var x :| x in grown - all;
      assert |grown - all| > 0;
    }
  }

  lemma WorkEnds(log: seq<Event>, all: set<EventId>, visited: set<EventId>)
    requires Working(log, all, {}, visited)
    ensures forall id :: id in all <==> Reaches(log, id)
  {
    assert all - {} == all;
    forall id | Reaches(log, id)
      ensures id in all
    {
      var path :| Chain(log, path) && path[|path| - 1] == id;
      ChainStaysInside(log, path, all);
    }
  }

  /** The worklist: pops queued identifiers in any order, follows those that are checkpoints, and never
      follows one twice. It ends for every log, checkpoints that drop each other included, with exactly
      the identifiers reachable from the latest checkpoint. */
  method Closure(log: seq<Event>) returns (all: set<EventId>)
    ensures forall id :: id in all <==> Reaches(log, id)
  {
    var direct := DirectlyDropped(log);
    all := set id | id in direct;
    var pending, visited: set<EventId> := all, {};
    WorkBegins(log);
    while pending != {}
      invariant Working(log, all, pending, visited)
      decreases |Mentioned(log) - all|, |pending|
    {
      var id :| id in pending;
      ghost var found, queued := all, pending;
      pending := pending - {id};
      var event := FindEvent(log, id);
      if event.None? || !IsCheckpoint(event.value) || event.value.id in visited {
        PoppedLeaf(log, all, queued, visited, id);
        continue;
      }
      all, pending := Expand(log, event.value.payload.control.dropped, all, pending);
      PoppedCheckpoint(log, found, queued, visited, id, all, pending);
      visited := visited + {event.value.id};
    }
    WorkEnds(log, all, visited);
  }

  /** The identifiers the latest checkpoint covers. */
  ghost function Coverage(log: seq<Event>): (r: set<EventId>)
    ensures forall id :: id in r <==> id in Ids(log) && Reaches(log, id)
  {
    set id | id in Ids(log) && Reaches(log, id)
  }

  /** The latest checkpoint, the covered events of the log in log order, and the summary. */
  method LatestCompaction(log: seq<Event>) returns (checkpoint: Option<EventId>, covered: seq<EventId>, summary: string)
    ensures match LatestCheckpoint(log)
            case None => checkpoint == None && covered == [] && summary == ""
            case Some(e) =>
              checkpoint == Some(e.id) && summary == e.payload.control.summary && covered == Pick(log, Coverage(log))
    ensures forall id :: id in covered <==> id in Coverage(log)
  {
    var latest := LatestCheckpoint(log);
    if latest.None? {
      forall id
        ensures !Reaches(log, id)
      {
        assert forall path :: !Chain(log, path);
      }
      return None, [], "";
    }
    var all := Closure(log);
    covered := [];
    for i := 0 to |log|
      invariant covered == Pick(log[..i], all)
    {
      assert log[..i + 1][..i] == log[..i];
      if log[i].id in all {
        covered := covered + [log[i].id];
      }
    }
    assert log[..|log|] == log;
    PickMembers(log, all);
    PickSame(log, all, Coverage(log));
    checkpoint, summary := Some(latest.value.id), latest.value.payload.control.summary;
  }

  lemma {:induction false} PickSame(log: seq<Event>, a: set<EventId>, b: set<EventId>)
    requires forall e :: e in log ==> (e.id in a <==> e.id in b)
    ensures Pick(log, a) == Pick(log, b)
  {
    if log != [] {
      PickSame(log[..|log| - 1], a, b);
    }
  }

  // --- Coverage only grows --------------------------------------------------------------------------

  /** A checkpoint that repeats what is covered already, as both of its producers write it. */
  ghost predicate Extends(log: seq<Event>, checkpoint: Event) {
    IsCheckpoint(checkpoint) && forall id :: id in Coverage(log) ==> id in checkpoint.payload.control.dropped
  }

  /** Appends that keep the discipline: a fresh identifier, and if it is a checkpoint, one that extends. */
  ghost predicate Proper(log: seq<Event>, e: Event) {
    e.id !in Ids(log) && (IsCheckpoint(e) ==> Extends(log, e))
  }

  lemma LookupUnaffected(log: seq<Event>, e: Event, id: EventId)
    requires id in Ids(log) || !IsCheckpoint(e)
    ensures DroppedBy(log + [e], id) == DroppedBy(log, id)
  {
    FindEventGrows(log, [e], id);
  }

  lemma {:induction false} ChainSurvives(log: seq<Event>, e: Event, path: seq<EventId>)
    requires !IsCheckpoint(e) && Chain(log, path)
    ensures Chain(log + [e], path)
  {
    assert (log + [e])[..|log|] == log;
    forall i | 0 < i < |path|
      ensures path[i] in DroppedBy(log + [e], path[i - 1])
    {
      LookupUnaffected(log, e, path[i - 1]);
    }
  }

  lemma CoverageGrows(log: seq<Event>, e: Event)
    requires Proper(log, e)
    ensures Coverage(log) <= Coverage(log + [e])
    ensures IsCheckpoint(e) ==>
              forall id :: id in e.payload.control.dropped && id in Ids(log) ==> id in Coverage(log + [e])
  {
    assert (log + [e])[..|log|] == log;
    IdsGrow(log, e);
    if IsCheckpoint(e) {
      forall id | id in e.payload.control.dropped
        ensures Reaches(log + [e], id)
      {
        DirectReaches(log + [e], id);
      }
    } else {
      forall id | id in Coverage(log)
        ensures Reaches(log + [e], id)
      {
        var path :| Chain(log, path) && path[|path| - 1] == id;
        ChainSurvives(log, e, path);
      }
    }
  }

  lemma IdsGrow(log: seq<Event>, e: Event)
    ensures Ids(log + [e]) == Ids(log) + {e.id}
  {}

  // --- Events that do not matter --------------------------------------------------------------------

  /** No checkpoint, and nothing any checkpoint mentions. */
  predicate Uninvolved(log: seq<Event>, e: Event) {
    !IsCheckpoint(e) && e.id !in Mentioned(log)
  }

  lemma {:induction false} MentionedSnoc(log: seq<Event>, e: Event)
    requires !IsCheckpoint(e)
    ensures Mentioned(log + [e]) == Mentioned(log)
  {
    if log == [] {
      assert [e][1..] == [];
    } else {
      MentionedSnoc(log[1..], e);
      assert (log + [e])[1..] == log[1..] + [e];
    }
  }

  lemma {:induction false} ChainIsMentioned(log: seq<Event>, path: seq<EventId>)
    requires Chain(log, path)
    ensures path[|path| - 1] in Mentioned(log)
  {
    if |path| > 1 {
      MentionsDropped(log, path[|path| - 2]);
    }
  }

  lemma ChainWasThere(log: seq<Event>, e: Event, path: seq<EventId>)
    requires !IsCheckpoint(e) && Chain(log + [e], path)
    ensures Chain(log, path)
  {
    assert (log + [e])[..|log|] == log;
    forall i | 0 < i < |path|
      ensures path[i] in DroppedBy(log, path[i - 1])
    {
      LookupUnaffected(log, e, path[i - 1]);
    }
  }

  lemma UninvolvedKeepsCoverage(log: seq<Event>, e: Event)
    requires Uninvolved(log, e)
    ensures Coverage(log + [e]) <= Coverage(log)
  {
    IdsGrow(log, e);
    forall id | id in Coverage(log + [e])
      ensures id in Coverage(log)
    {
      var path :| Chain(log + [e], path) && path[|path| - 1] == id;
      ChainWasThere(log, e, path);
      ChainIsMentioned(log, path);
    }
  }

  /** A checkpoint drawn up on a log may be recorded late: events that do not matter, appended in between,
      leave it proper. */
  lemma {:induction false} LateRecordingIsProper(log: seq<Event>, more: seq<Event>, checkpoint: Event)
    requires IsCheckpoint(checkpoint) && checkpoint.id !in Ids(log + more)
    requires forall id :: id in Coverage(log) ==> id in checkpoint.payload.control.dropped
    requires forall e :: e in more ==> Uninvolved(log, e)
    ensures Proper(log + more, checkpoint)
  {
    CoverageWaits(log, more);
  }

  lemma {:induction false} CoverageWaits(log: seq<Event>, more: seq<Event>)
    requires forall e :: e in more ==> Uninvolved(log, e)
    ensures Coverage(log + more) <= Coverage(log) && Mentioned(log + more) == Mentioned(log)
  {
    if more == [] {
      assert log + more == log;
    } else {
      var init, e := more[..|more| - 1], more[|more| - 1];
      assert more == init + [e] && log + more == (log + init) + [e];
      forall x | x in init
        ensures Uninvolved(log, x)
      {
        assert x in more;
      }
      CoverageWaits(log, init);
      assert e in more && Uninvolved(log, e);
      UninvolvedKeepsCoverage(log + init, e);
      MentionedSnoc(log + init, e);
    }
  }

  // --- A checkpoint recorded late -------------------------------------------------------------------

  /** How both producers draw a checkpoint up: it repeats what the log they loaded covers, and adds events
      of that log. */
  ghost predicate IsDrawnUp(log: seq<Event>, control: ControlEvent) {
    && control.ContextCompacted?
    && (forall id :: id in Coverage(log) ==> id in control.dropped)
    && (forall id :: id in control.dropped ==> id in Ids(log))
  }

  /** The identifier is new to the log and to a checkpoint that drops `dropped`. */
  predicate IsNew(log: seq<Event>, dropped: seq<EventId>, id: EventId) {
    id !in Ids(log) && id !in Mentioned(log) && id !in dropped
  }

  lemma DropsNothingUnlessThere(log: seq<Event>, id: EventId)
    requires id !in Ids(log)
    ensures DroppedBy(log, id) == []
  {
    assert forall e :: e in log ==> e.id in Ids(log);
  }

  lemma OthersDropTheSame(log: seq<Event>, e: Event, id: EventId)
    requires id != e.id
    ensures DroppedBy(log + [e], id) == DroppedBy(log, id)
  {
    FindEventGrows(log, [e], id);
  }

  /** What an event of the log drops, it goes on dropping. */
  lemma DropsSurvive(log: seq<Event>, e: Event, id: EventId)
    requires e.id !in Ids(log) && DroppedBy(log, id) != []
    ensures DroppedBy(log + [e], id) == DroppedBy(log, id)
  {
    FindEventGrows(log, [e], id);
  }

  /** The new checkpoint itself is on none of its chains. */
  lemma {:induction false} ChainAvoids(log: seq<Event>, checkpoint: Event, path: seq<EventId>)
    requires IsCheckpoint(checkpoint) && IsNew(log, checkpoint.payload.control.dropped, checkpoint.id)
    requires ChainFrom(log + [checkpoint], checkpoint.payload.control.dropped, path)
    ensures checkpoint.id !in path
  {
    var init := path[..|path| - 1];
    if |path| > 1 {
      ChainAvoids(log, checkpoint, init);
      var last := path[|path| - 2];
      assert last in init;
      OthersDropTheSame(log, checkpoint, last);
      MentionsDropped(log, last);
      assert path[|path| - 1] in DroppedBy(log, last);
    }
    assert path == init + [path[|path| - 1]];
  }

  lemma ChainsAreOlder(log: seq<Event>, checkpoint: Event, path: seq<EventId>)
    requires IsCheckpoint(checkpoint) && IsNew(log, checkpoint.payload.control.dropped, checkpoint.id)
    ensures Chain(log + [checkpoint], path) <==> ChainFrom(log, checkpoint.payload.control.dropped, path)
  {
    var grown, dropped := log + [checkpoint], checkpoint.payload.control.dropped;
    assert grown[..|log|] == log && DirectlyDropped(grown) == dropped;
    if Chain(grown, path) {
      ChainAvoids(log, checkpoint, path);
      forall i | 0 < i < |path|
        ensures path[i] in DroppedBy(log, path[i - 1])
      {
        OthersDropTheSame(log, checkpoint, path[i - 1]);
      }
    }
    if ChainFrom(log, dropped, path) {
      forall i | 0 < i < |path|
        ensures path[i] in DroppedBy(grown, path[i - 1])
      {
        assert path[i] in DroppedBy(log, path[i - 1]);
        DropsSurvive(log, checkpoint, path[i - 1]);
      }
    }
  }

  /** What a new checkpoint covers: the events of the log reachable from what it drops. */
  lemma CoveredByNew(log: seq<Event>, checkpoint: Event, id: EventId)
    requires IsCheckpoint(checkpoint) && IsNew(log, checkpoint.payload.control.dropped, checkpoint.id)
    ensures id in Coverage(log + [checkpoint]) <==>
              id in Ids(log) && ReachesFrom(log, checkpoint.payload.control.dropped, id)
  {
    var grown, dropped := log + [checkpoint], checkpoint.payload.control.dropped;
    IdsGrow(log, checkpoint);
    if Reaches(grown, id) {
      var path :| Chain(grown, path) && path[|path| - 1] == id;
      ChainsAreOlder(log, checkpoint, path);
      ChainAvoids(log, checkpoint, path);
      assert id in path;
    }
    if ReachesFrom(log, dropped, id) {
      var path :| ChainFrom(log, dropped, path) && path[|path| - 1] == id;
      ChainsAreOlder(log, checkpoint, path);
    }
  }

  /** Everything the latest checkpoint drops directly is within reach of `dropped`. */
  ghost predicate Covers(log: seq<Event>, dropped: seq<EventId>) {
    forall id :: id in DirectlyDropped(log) && id in Ids(log) ==> ReachesFrom(log, dropped, id)
  }

  lemma ReachesFurther(log: seq<Event>, roots: seq<EventId>, id: EventId, next: EventId)
    requires ReachesFrom(log, roots, id) && next in DroppedBy(log, id)
    ensures ReachesFrom(log, roots, next)
  {
    var path :| ChainFrom(log, roots, path) && path[|path| - 1] == id;
    var longer := path + [next];
    forall i | 0 < i < |longer|
      ensures longer[i] in DroppedBy(log, longer[i - 1])
    {
      assert longer[i - 1] == path[i - 1];
    }
    assert ChainFrom(log, roots, longer) && longer[|longer| - 1] == next;
  }

  lemma {:induction false} ReachesAlong(log: seq<Event>, dropped: seq<EventId>, path: seq<EventId>)
    requires Covers(log, dropped) && Chain(log, path) && path[|path| - 1] in Ids(log)
    ensures ReachesFrom(log, dropped, path[|path| - 1])
  {
    if |path| > 1 {
      var init := path[..|path| - 1];
      assert ChainFrom(log, DirectlyDropped(log), init);
      if init[|init| - 1] !in Ids(log) {
        DropsNothingUnlessThere(log, init[|init| - 1]);
      }
      ReachesAlong(log, dropped, init);
      ReachesFurther(log, dropped, init[|init| - 1], path[|path| - 1]);
    }
  }

  /** The exact condition on a checkpoint, on the log as it is when it is recorded: nothing covered gets
      lost if and only if everything the latest checkpoint drops directly is within its reach. */
  lemma KeepsCoverageExactlyWhenCovers(log: seq<Event>, checkpoint: Event)
    requires IsCheckpoint(checkpoint) && IsNew(log, checkpoint.payload.control.dropped, checkpoint.id)
    ensures Coverage(log) <= Coverage(log + [checkpoint]) <==> Covers(log, checkpoint.payload.control.dropped)
  {
    var dropped := checkpoint.payload.control.dropped;
    if Coverage(log) <= Coverage(log + [checkpoint]) {
      forall id | id in DirectlyDropped(log) && id in Ids(log)
        ensures ReachesFrom(log, dropped, id)
      {
        DirectReaches(log, id);
        assert id in Coverage(log);
        CoveredByNew(log, checkpoint, id);
      }
    }
    if Covers(log, dropped) {
      forall id | id in Coverage(log)
        ensures id in Coverage(log + [checkpoint])
      {
        var path :| Chain(log, path) && path[|path| - 1] == id;
        ReachesAlong(log, dropped, path);
        CoveredByNew(log, checkpoint, id);
      }
    }
  }
}
