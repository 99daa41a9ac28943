/** The alert log: an alert is recorded only when it changes the state of its identity. */
module Alerts {
  import opened Wrappers
  import opened Domain

  datatype AlertInput = AlertInput(
    source: string, sourceInstance: string, nativeEventId: string, name: string, summary: string,
      labels: map<string, string>)

  const FIRING_SUFFIX := ":firing"
  const RESOLVED_SUFFIX := ":resolved"

  predicate EndsWith(s: string, suffix: string) {
    |s| >= |suffix| && s[|s| - |suffix|..] == suffix
  }

  function StripSuffix(s: string, suffix: string): Option<string> {
    if EndsWith(s, suffix) then Some(s[..|s| - |suffix|]) else None
  }

  /** What an alert's event identifier says beyond its state. */
  function Identity(nativeEventId: string): string {
    match StripSuffix(nativeEventId, FIRING_SUFFIX)
    case Some(identity) => identity
    case None =>
      match StripSuffix(nativeEventId, RESOLVED_SUFFIX)
      case Some(identity) => identity
      case None => nativeEventId
  }

  function StateFromId(nativeEventId: string): string {
    if EndsWith(nativeEventId, RESOLVED_SUFFIX) then "resolved" else "firing"
  }

  function StateOf(alert: AlertInput): string {
    if "state" in alert.labels then alert.labels["state"] else StateFromId(alert.nativeEventId)
  }

  function StateOfContext(context: ContextEnvelope): string {
    if context.payload.AlertPayload? && "state" in context.payload.labels then context.payload.labels["state"]
    else StateFromId(context.nativeEventId)
  }

  /** Alerts compete with each other when source, instance and identity agree. */
  datatype AlertKey = AlertKey(source: string, sourceInstance: string, identity: string)

  function KeyOf(alert: AlertInput): AlertKey {
    AlertKey(alert.source, alert.sourceInstance, Identity(alert.nativeEventId))
  }

  function KeyOfContext(context: ContextEnvelope): AlertKey {
    AlertKey(context.source, context.sourceInstance, Identity(context.nativeEventId))
  }

  predicate IsAlertFor(e: Event, key: AlertKey) {
    && e.payload.Ingress? && e.payload.ingress.ContextReceived?
    && e.payload.ingress.context.kind == Alert && KeyOfContext(e.payload.ingress.context) == key
  }

  /** The states recorded for a key, oldest first. */
  function States(log: seq<Event>, key: AlertKey): seq<string> {
    if log == [] then []
    else
      var e := log[|log| - 1];
      States(log[..|log| - 1], key) + if IsAlertFor(e, key) then [StateOfContext(e.payload.ingress.context)] else []
  }

  /** The state of the last matching event, searched from the end. */
  function LatestState(log: seq<Event>, key: AlertKey): Option<string> {
    if log == [] then None
    else if IsAlertFor(log[|log| - 1], key) then Some(StateOfContext(log[|log| - 1].payload.ingress.context))
    else LatestState(log[..|log| - 1], key)
  }

  predicate IsDuplicate(log: seq<Event>, alert: AlertInput) {
    LatestState(log, KeyOf(alert)) == Some(StateOf(alert))
  }

  function AlertContext(alert: AlertInput): ContextEnvelope {
    ContextEnvelope(Alert, alert.source, alert.sourceInstance, alert.nativeEventId, NoPermission,
                    AlertPayload(alert.name, alert.summary, alert.labels), None)
  }

  /** How the registrar turns the alert at a position into the event it records, or refuses it; it does
      not touch what identifies the alert or gives its state. */
  type Registrar = (nat, ContextEnvelope) -> Option<Event>

  ghost predicate KeepsAlerts(register: Registrar) {
    forall n: nat, alert: AlertInput ::
      register(n, AlertContext(alert)).Some? ==> Records(register(n, AlertContext(alert)).value, alert)
  }

  predicate Records(e: Event, alert: AlertInput) {
    IsAlertFor(e, KeyOf(alert)) && StateOfContext(e.payload.ingress.context) == StateOf(alert)
  }

  // --- The reference: a key's history without repetitions ---------------------------------------------

  /** Adds a state unless it is the current one. */
  function Squeeze(history: seq<string>, state: string): seq<string> {
    if history != [] && history[|history| - 1] == state then history else history + [state]
  }

  /** What submitting alerts in order does to the history of one key. */
  function SqueezeAll(history: seq<string>, alerts: seq<AlertInput>, key: AlertKey): seq<string> {
    if alerts == [] then history
    else
      var earlier := SqueezeAll(history, alerts[..|alerts| - 1], key);
      var last := alerts[|alerts| - 1];
      if KeyOf(last) == key then Squeeze(earlier, StateOf(last)) else earlier
  }

  ghost predicate Alternating(history: seq<string>) {
    forall i :: 0 < i < |history| ==> history[i - 1] != history[i]
  }

  function LastSubmitted(alerts: seq<AlertInput>, key: AlertKey): Option<string> {
    if alerts == [] then None
    else if KeyOf(alerts[|alerts| - 1]) == key then Some(StateOf(alerts[|alerts| - 1]))
    else LastSubmitted(alerts[..|alerts| - 1], key)
  }

  lemma {:induction false} LatestIsLast(log: seq<Event>, key: AlertKey)
    ensures LatestState(log, key) == if States(log, key) == [] then None
                                     else Some(States(log, key)[|States(log, key)| - 1])
  {
    if log != [] {
      LatestIsLast(log[..|log| - 1], key);
    }
  }

  lemma StatesSnoc(log: seq<Event>, e: Event, key: AlertKey)
    ensures States(log + [e], key) ==
              States(log, key) + if IsAlertFor(e, key) then [StateOfContext(e.payload.ingress.context)] else []
  {}

  /** Recording an alert only when it is no duplicate is squeezing the history of its key. */
  lemma RecordingSqueezes(log: seq<Event>, alert: AlertInput, recorded: Option<Event>, key: AlertKey)
    requires recorded.None? <==> IsDuplicate(log, alert)
    requires recorded.Some? ==> Records(recorded.value, alert)
    ensures var after := if recorded.None? then log else log + [recorded.value];
            States(after, key) == if KeyOf(alert) == key then Squeeze(States(log, key), StateOf(alert))
                                  else States(log, key)
  {
    LatestIsLast(log, key);
    if recorded.Some? {
      StatesSnoc(log, recorded.value, key);
    }
  }

  ghost predicate IsSqueezed(before: seq<Event>, after: seq<Event>, alerts: seq<AlertInput>) {
    forall key :: States(after, key) == SqueezeAll(States(before, key), alerts, key)
  }

  lemma SqueezedFurther(before: seq<Event>, log: seq<Event>, after: seq<Event>, alerts: seq<AlertInput>,
                        alert: AlertInput, recorded: Option<Event>)
    requires IsSqueezed(before, log, alerts)
    requires recorded.None? <==> IsDuplicate(log, alert)
    requires recorded.Some? ==> Records(recorded.value, alert)
    requires after == if recorded.None? then log else log + [recorded.value]
    ensures IsSqueezed(before, after, alerts + [alert])
  {
    assert (alerts + [alert])[..|alerts|] == alerts;
    forall key
      ensures States(after, key) == SqueezeAll(States(before, key), alerts + [alert], key)
    {
      RecordingSqueezes(log, alert, recorded, key);
    }
  }

  datatype IngestError = NoAlerts | Refused

  /** Submits alerts in order under one lock. The log grows by the accepted ones; if the registrar
      refuses one, those before it stay recorded. */
  method IngestAlerts(log: seq<Event>, alerts: seq<AlertInput>, register: Registrar)
    returns (r: Result<(seq<Event>, nat), IngestError>, after: seq<Event>, processed: nat)
    requires KeepsAlerts(register)
    ensures processed <= |alerts| && log <= after && IsSqueezed(log, after, alerts[..processed])
    ensures r.Success? ==>
              && alerts != [] && processed == |alerts| && after == log + r.value.0
              && |r.value.0| + r.value.1 == |alerts|
    ensures r.Failure? && r.error.NoAlerts? <==> alerts == []
    ensures alerts == [] ==> after == log
    ensures r == Failure(Refused) ==> processed < |alerts| && !IsDuplicate(after, alerts[processed])
  {
    after, processed := log, 0;
    if alerts == [] {
      return Failure(NoAlerts), log, 0;
    }
    var recorded: seq<Event> := [];
    var duplicates := 0;
    while processed < |alerts|
      invariant processed <= |alerts| && after == log + recorded && |recorded| + duplicates == processed
      invariant IsSqueezed(log, after, alerts[..processed])
    {
      var alert := alerts[processed];
      assert alerts[..processed + 1] == alerts[..processed] + [alert];
      if IsDuplicate(after, alert) {
        SqueezedFurther(log, after, after, alerts[..processed], alert, None);
        duplicates, processed := duplicates + 1, processed + 1;
        continue;
      }
      var event := register(processed, AlertContext(alert));
      if event.None? {
        return Failure(Refused), after, processed;
      }
      SqueezedFurther(log, after, after + [event.value], alerts[..processed], alert, event);
      Extended(log, recorded, event.value);
      recorded := recorded + [event.value];
      after := after + [event.value];
      processed := processed + 1;
    }
    assert alerts[..|alerts|] == alerts;
    r := Success((recorded, duplicates));
  }

  lemma Extended(log: seq<Event>, recorded: seq<Event>, e: Event)
    ensures log + recorded + [e] == log + (recorded + [e])
  {}

  // --- What that means --------------------------------------------------------------------------------

  /** New alerts never repeat the state before them, and a history that alternates keeps alternating. */
  lemma {:induction false} SqueezingAlternates(history: seq<string>, alerts: seq<AlertInput>, key: AlertKey)
    ensures var after := SqueezeAll(history, alerts, key);
            && history <= after
            && (forall i :: 0 < i < |after| && i >= |history| ==> after[i - 1] != after[i])
            && (Alternating(history) ==> Alternating(after))
  {
    if alerts != [] {
      SqueezingAlternates(history, alerts[..|alerts| - 1], key);
    }
  }

  /** The last recorded state of a key is the last one submitted, if any was. */
  lemma {:induction false} SqueezingEndsWithLast(history: seq<string>, alerts: seq<AlertInput>, key: AlertKey)
    ensures var after := SqueezeAll(history, alerts, key);
            match LastSubmitted(alerts, key)
            case Some(state) => after != [] && after[|after| - 1] == state
            case None => after == history
  {
    if alerts != [] {
      SqueezingEndsWithLast(history, alerts[..|alerts| - 1], key);
    }
  }

  /** In the log: consecutive accepted alerts of one identity differ in state, and the latest state on
      record is the last one submitted. */
  lemma AlertLogIsFaithful(before: seq<Event>, after: seq<Event>, alerts: seq<AlertInput>, key: AlertKey)
    requires States(after, key) == SqueezeAll(States(before, key), alerts, key)
    ensures Alternating(States(before, key)) ==> Alternating(States(after, key))
    ensures LastSubmitted(alerts, key).Some? ==> LatestState(after, key) == LastSubmitted(alerts, key)
    ensures LastSubmitted(alerts, key).None? ==> States(after, key) == States(before, key)
  {
    SqueezingAlternates(States(before, key), alerts, key);
    SqueezingEndsWithLast(States(before, key), alerts, key);
    LatestIsLast(after, key);
  }

  /** Submitting in several calls is submitting all at once. */
  lemma {:induction false} SqueezeInParts(history: seq<string>, first: seq<AlertInput>, second: seq<AlertInput>,
                                          key: AlertKey)
    ensures SqueezeAll(history, first + second, key) == SqueezeAll(SqueezeAll(history, first, key), second, key)
  {
    if second == [] {
      assert first + second == first;
    } else {
      assert (first + second)[..|first + second| - 1] == first + second[..|second| - 1];
      SqueezeInParts(history, first, second[..|second| - 1], key);
    }
  }

  lemma SuffixEnds(s: string, suffix: string)
    requires suffix != "" && s != ""
    ensures s[|s| - 1] != suffix[|suffix| - 1] ==> !EndsWith(s, suffix)
  {}

  /** The firing and the resolved form of an event identifier name one identity, in opposite states. */
  lemma FormsShareIdentity(base: string)
    ensures Identity(base + FIRING_SUFFIX) == base && Identity(base + RESOLVED_SUFFIX) == base
    ensures StateFromId(base + FIRING_SUFFIX) == "firing" && StateFromId(base + RESOLVED_SUFFIX) == "resolved"
  {
    var firing, resolved := base + FIRING_SUFFIX, base + RESOLVED_SUFFIX;
    assert firing[|base|..] == FIRING_SUFFIX && firing[..|base|] == base;
    assert resolved[|base|..] == RESOLVED_SUFFIX && resolved[..|base|] == base;
    assert firing[|firing| - 1] == 'g' && resolved[|resolved| - 1] == 'd';
    SuffixEnds(firing, RESOLVED_SUFFIX);
    SuffixEnds(resolved, FIRING_SUFFIX);
  }
}
