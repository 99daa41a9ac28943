/** The audit trail of task management: requests and their answers in the main log. */
module Audit {
  import opened Wrappers
  import opened Domain

  predicate IsRequest(e: Event) {
    e.payload.Control? && e.payload.control.TaskOperationRequested?
  }

  /** The request an acceptance or rejection answers. */
  function AnswerTo(e: Event): Option<EventId> {
    match e.payload
    case Control(TaskOperationAccepted(request, _)) => Some(request)
    case Control(TaskOperationRejected(request, _)) => Some(request)
    case _ => None
  }

  predicate Answers(e: Event, request: EventId) {
    AnswerTo(e) == Some(request)
  }

  predicate Asked(log: seq<Event>, upTo: nat, request: EventId) {
    exists i :: 0 <= i < upTo && i < |log| && IsRequest(log[i]) && log[i].id == request
  }

  /** Every answer answers an earlier request, and no request is answered twice. */
  ghost predicate AuditOk(log: seq<Event>) {
    && (forall j :: 0 <= j < |log| && AnswerTo(log[j]).Some? ==> Asked(log, j, AnswerTo(log[j]).value))
    && (forall j, k :: 0 <= j < k < |log| && AnswerTo(log[j]).Some? ==> AnswerTo(log[j]) != AnswerTo(log[k]))
  }

  predicate HasAnswer(log: seq<Event>, request: EventId) {
    exists j :: 0 <= j < |log| && Answers(log[j], request)
  }

  /** Every request has its answer. */
  ghost predicate AllAnswered(log: seq<Event>) {
    forall i :: 0 <= i < |log| && IsRequest(log[i]) ==> HasAnswer(log, log[i].id)
  }

  lemma AskedGrows(log: seq<Event>, e: Event, upTo: nat, request: EventId)
    requires Asked(log, upTo, request)
    ensures Asked(log + [e], upTo, request)
  {
    var i :| 0 <= i < upTo && i < |log| && IsRequest(log[i]) && log[i].id == request;
    assert (log + [e])[i] == log[i];
  }

  lemma HasAnswerGrows(log: seq<Event>, e: Event, request: EventId)
    ensures HasAnswer(log + [e], request) <==> HasAnswer(log, request) || Answers(e, request)
  {
    if HasAnswer(log, request) {
      var j :| 0 <= j < |log| && Answers(log[j], request);
      assert (log + [e])[j] == log[j];
    }
    if Answers(e, request) {
      assert (log + [e])[|log|] == e;
    }
  }

  /** Anything but an answer keeps the trail in order. */
  lemma OtherKeepsAudit(log: seq<Event>, e: Event)
    requires AuditOk(log) && AnswerTo(e).None?
    ensures AuditOk(log + [e])
  {
    forall j | 0 <= j < |log + [e]| && AnswerTo((log + [e])[j]).Some?
      ensures Asked(log + [e], j, AnswerTo((log + [e])[j]).value)
    {
      AskedGrows(log, e, j, AnswerTo(log[j]).value);
    }
  }

  /** So does an answer, exactly when its request was made and is still unanswered. */
  lemma AnswerKeepsAudit(log: seq<Event>, e: Event)
    requires AuditOk(log) && AnswerTo(e).Some?
    ensures AuditOk(log + [e]) <==> Asked(log, |log|, AnswerTo(e).value) && !HasAnswer(log, AnswerTo(e).value)
  {
    var request := AnswerTo(e).value;
    var grown := log + [e];
    if Asked(log, |log|, request) && !HasAnswer(log, request) {
      forall j | 0 <= j < |grown| && AnswerTo(grown[j]).Some?
        ensures Asked(grown, j, AnswerTo(grown[j]).value)
      {
        AskedGrows(log, e, j, AnswerTo(grown[j]).value);
      }
      forall j, k | 0 <= j < k < |grown| && AnswerTo(grown[j]).Some?
        ensures AnswerTo(grown[j]) != AnswerTo(grown[k])
      {
        assert Answers(log[j], request) <==> AnswerTo(grown[j]) == Some(request);
      }
    }
    if AuditOk(grown) {
      assert Asked(grown, |log|, AnswerTo(grown[|log|]).value);
      var i :| 0 <= i < |log| && IsRequest(grown[i]) && grown[i].id == request;
      assert IsRequest(log[i]);
      forall j | 0 <= j < |log|
        ensures !Answers(log[j], request)
      {
        assert grown[j] == log[j] && grown[|log|] == e;
      }
    }
  }

  /** No earlier answer can refer to a request that is only now being made. */
  lemma FreshRequestIsUnanswered(log: seq<Event>, request: EventId)
    requires AuditOk(log) && !ContainsId(log, request)
    ensures !HasAnswer(log, request)
  {}

  /** A request followed by its answer keeps the trail in order and leaves no request open. */
  lemma ExchangeKeepsAudit(log: seq<Event>, request: Event, answer: Event)
    requires AuditOk(log) && DistinctIds(log + [request])
    requires IsRequest(request) && Answers(answer, request.id)
    ensures AuditOk(log + [request, answer])
    ensures AllAnswered(log) ==> AllAnswered(log + [request, answer])
  {
    var asked := log + [request];
    OtherKeepsAudit(log, request);
    DistinctSnoc(log, request);
    FreshRequestIsUnanswered(log, request.id);
    HasAnswerGrows(log, request, request.id);
    assert Asked(asked, |asked|, request.id) by {
      assert asked[|log|] == request;
    }
    AnswerKeepsAudit(asked, answer);
    assert asked + [answer] == log + [request, answer];
    if AllAnswered(log) {
      forall i | 0 <= i < |asked + [answer]| && IsRequest((asked + [answer])[i])
        ensures HasAnswer(asked + [answer], (asked + [answer])[i].id)
      {
        var id := (asked + [answer])[i].id;
        HasAnswerGrows(log, request, id);
        HasAnswerGrows(asked, answer, id);
        assert i < |log| ==> IsRequest(log[i]);
      }
    }
  }

  // --- Operations in progress ---------------------------------------------------------------------

  /** The main log, and the operations begun on it: which request each has made, and which of them have
      written their answer. Any number may be under way at once. */
  datatype Trail = Trail(main: seq<Event>, requests: map<nat, EventId>, answered: set<nat>)

  predicate Owned(t: Trail, request: EventId) {
    exists i :: i in t.requests && t.requests[i] == request
  }

  /** The trail is in order: every operation has made a request of its own, which is answered exactly when
      the operation has answered it, and every request without an answer belongs to an operation. */
  ghost predicate TrailOk(t: Trail) {
    && AuditOk(t.main) && t.answered <= t.requests.Keys
    && (forall i :: i in t.requests ==> InOrder(t, i))
    && (forall i, j :: i in t.requests && j in t.requests && i != j ==> t.requests[i] != t.requests[j])
    && (forall k :: 0 <= k < |t.main| && IsRequest(t.main[k]) ==>
                      HasAnswer(t.main, t.main[k].id) || Owned(t, t.main[k].id))
  }

  predicate InOrder(t: Trail, i: nat)
    requires i in t.requests
  {
    Asked(t.main, |t.main|, t.requests[i]) && (HasAnswer(t.main, t.requests[i]) <==> i in t.answered)
  }

  lemma AskedInGrown(log: seq<Event>, e: Event, request: EventId)
    ensures Asked(log, |log|, request) ==> Asked(log + [e], |log + [e]|, request)
    ensures IsRequest(e) && e.id == request ==> Asked(log + [e], |log + [e]|, request)
  {
    if Asked(log, |log|, request) {
      AskedGrows(log, e, |log|, request);
    }
    assert (log + [e])[|log|] == e;
  }

  lemma AskedIsContained(log: seq<Event>, request: EventId)
    requires Asked(log, |log|, request)
    ensures ContainsId(log, request)
  {}

  lemma OwnedStays(t: Trail, u: Trail, request: EventId)
    requires Owned(t, request) && t.requests.Keys <= u.requests.Keys
    requires forall i :: i in t.requests ==> u.requests[i] == t.requests[i]
    ensures Owned(u, request)
  {
    var i :| i in t.requests && t.requests[i] == request;
    assert i in u.requests && u.requests[i] == request;
  }

  /** Every unanswered request of the grown log is owned, if only `e` is new. */
  lemma RequestsStayOwned(t: Trail, u: Trail, e: Event)
    requires TrailOk(t) && u.main == t.main + [e] && t.requests.Keys <= u.requests.Keys
    requires forall i :: i in t.requests ==> u.requests[i] == t.requests[i]
    requires IsRequest(e) ==> Owned(u, e.id)
    ensures forall k :: 0 <= k < |u.main| && IsRequest(u.main[k]) ==>
                          HasAnswer(u.main, u.main[k].id) || Owned(u, u.main[k].id)
  {
    forall k | 0 <= k < |u.main| && IsRequest(u.main[k])
      ensures HasAnswer(u.main, u.main[k].id) || Owned(u, u.main[k].id)
    {
      if k < |t.main| {
        assert u.main[k] == t.main[k];
        HasAnswerGrows(t.main, e, t.main[k].id);
        if Owned(t, t.main[k].id) {
          OwnedStays(t, u, t.main[k].id);
        }
      }
    }
  }

  /** Beginning an operation. */
  lemma AskKeepsTrail(t: Trail, i: nat, e: Event)
    requires TrailOk(t) && i !in t.requests && IsRequest(e) && !ContainsId(t.main, e.id)
    ensures TrailOk(Trail(t.main + [e], t.requests[i := e.id], t.answered))
  {
    var u := Trail(t.main + [e], t.requests[i := e.id], t.answered);
    OtherKeepsAudit(t.main, e);
    FreshRequestIsUnanswered(t.main, e.id);
    forall j | j in u.requests
      ensures InOrder(u, j) && (j != i ==> u.requests[j] != e.id)
    {
      AskedInGrown(t.main, e, u.requests[j]);
      HasAnswerGrows(t.main, e, u.requests[j]);
      if j != i {
        assert InOrder(t, j);
        AskedIsContained(t.main, t.requests[j]);
      }
    }
    assert Owned(u, e.id) by {
      assert i in u.requests && u.requests[i] == e.id;
    }
    RequestsStayOwned(t, u, e);
  }

  /** Answering, at any time and in any order. */
  lemma AnswerKeepsTrail(t: Trail, i: nat, e: Event)
    requires TrailOk(t) && i in t.requests && i !in t.answered && Answers(e, t.requests[i])
    ensures TrailOk(Trail(t.main + [e], t.requests, t.answered + {i}))
  {
    var u := Trail(t.main + [e], t.requests, t.answered + {i});
    assert InOrder(t, i);
    AnswerKeepsAudit(t.main, e);
    forall j | j in u.requests
      ensures InOrder(u, j)
    {
      assert InOrder(t, j);
      AskedInGrown(t.main, e, u.requests[j]);
      HasAnswerGrows(t.main, e, u.requests[j]);
    }
    RequestsStayOwned(t, u, e);
  }

  /** Anything else on the main log. */
  lemma OtherKeepsTrail(t: Trail, e: Event)
    requires TrailOk(t) && !IsRequest(e) && AnswerTo(e).None?
    ensures TrailOk(t.(main := t.main + [e]))
  {
    var u := t.(main := t.main + [e]);
    OtherKeepsAudit(t.main, e);
    forall j | j in u.requests
      ensures InOrder(u, j)
    {
      assert InOrder(t, j);
      AskedInGrown(t.main, e, u.requests[j]);
      HasAnswerGrows(t.main, e, u.requests[j]);
    }
    RequestsStayOwned(t, u, e);
  }

  /** What can happen to the trail: nothing, operation `i` begins, it answers, or something else lands on the
      main log. */
  datatype Act = Nothing | Begin(i: nat, e: Event) | Reply(i: nat, e: Event) | Else(e: Event)

  predicate IsAllowed(t: Trail, act: Act) {
    match act
    case Nothing => true
    case Begin(i, e) => i !in t.requests && IsRequest(e) && !ContainsId(t.main, e.id)
    case Reply(i, e) => i in t.requests && i !in t.answered && Answers(e, t.requests[i])
    case Else(e) => !IsRequest(e) && AnswerTo(e).None?
  }

  function After(t: Trail, act: Act): Trail {
    match act
    case Nothing => t
    case Begin(i, e) => Trail(t.main + [e], t.requests[i := e.id], t.answered)
    case Reply(i, e) => Trail(t.main + [e], t.requests, t.answered + {i})
    case Else(e) => t.(main := t.main + [e])
  }

  /** Every interleaving of operations and other writers keeps the trail in order. */
  lemma EveryActKeepsTrail(t: Trail, act: Act)
    requires TrailOk(t) && IsAllowed(t, act)
    ensures TrailOk(After(t, act))
  {
    match act {
      case Nothing =>
      case Begin(i, e) => AskKeepsTrail(t, i, e);
      case Reply(i, e) => AnswerKeepsTrail(t, i, e);
      case Else(e) => OtherKeepsTrail(t, e);
    }
  }

  // --- Delegated authority ------------------------------------------------------------------------

  /** The permission of a direct, unexpired external user message or alert; nothing else can vouch for
      an input passed on to a child. */
  function DirectExternalPermission(e: Event, now: nat): Option<PermissionLevel> {
    match e.payload
    case Ingress(ContextReceived(context, assessment)) =>
      if || (e.provenance.expiresAt.Some? && e.provenance.expiresAt.value <= now)
         || !e.provenance.creator.External?
         || (context.kind != UserMessage && context.kind != Alert)
         || context.permission != assessment.effective
         || e.provenance.directPermission != Some(assessment.effective)
         || !assessment.effective.CanAuthorize()
      then None
      else Some(assessment.effective)
    case _ => None
  }

  /** What the authority parent of a delegated input is worth. */
  function ParentPermission(main: seq<Event>, parent: EventId, now: nat): Option<PermissionLevel> {
    match FindEvent(main, parent)
    case Some(e) => DirectExternalPermission(e, now)
    case None => None
  }

  /** The requests themselves vouch for nothing, and a parent once found stays what it was. */
  lemma ParentSurvives(main: seq<Event>, more: seq<Event>, parent: EventId, now: nat)
    ensures ParentPermission(main, parent, now).Some? ==>
              ParentPermission(main + more, parent, now) == ParentPermission(main, parent, now)
    ensures (forall e :: e in more ==> !e.payload.Ingress?) ==>
              ParentPermission(main + more, parent, now) == ParentPermission(main, parent, now)
  {
    FindEventGrows(main, more, parent);
  }
}
