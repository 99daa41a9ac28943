/** The service monitor: hysteresis thresholds, firing/resolved alerts and rollback on a failed sink. */
module Monitor {
  import opened Wrappers
  import opened Seqs

  datatype CheckStatus = Healthy | Firing

  datatype CheckState = CheckState(status: CheckStatus, consecutiveFailures: nat, consecutiveRecoveries: nat)

  datatype Check = Check(id: string, enabled: bool, failureThreshold: Option<nat>, recoveryThreshold: Option<nat>)

  const INITIAL := CheckState(Healthy, 0, 0)

  /** The thresholds a check is judged by. */
  datatype Limits = Limits(failures: nat, recoveries: nat) {
    predicate Positive() {
      0 < failures <= U32_MAX && 0 < recoveries <= U32_MAX
    }
  }

  /** How many outcomes at the end of `history` are all `healthy`. */
  function Trailing(history: seq<bool>, healthy: bool): nat {
    if history == [] || history[|history| - 1] != healthy then 0
    else 1 + Trailing(history[..|history| - 1], healthy)
  }

  /** The state and alerts after `history`, one outcome at a time. */
  function StateAfter(limits: Limits, history: seq<bool>): CheckState {
    if history == [] then INITIAL
    else Transition(limits, StateAfter(limits, history[..|history| - 1]), history[|history| - 1]).0
  }

  function Alerts(limits: Limits, history: seq<bool>): seq<CheckStatus> {
    if history == [] then []
    else
      var earlier := history[..|history| - 1];
      var alert := Transition(limits, StateAfter(limits, earlier), history[|history| - 1]).1;
      Alerts(limits, earlier) + (if alert.Some? then [alert.value] else [])
  }

  /** One outcome: the new state and the alert to deliver, if any. */
  function Transition(limits: Limits, state: CheckState, healthy: bool): (CheckState, Option<CheckStatus>) {
    if healthy then
      var s := state.(consecutiveFailures := 0);
      if s.status != Firing then (s.(consecutiveRecoveries := 0), None)
      else
        var recoveries := SaturatingAdd32(s.consecutiveRecoveries, 1);
        if recoveries < limits.recoveries then (s.(consecutiveRecoveries := recoveries), None)
        else (s.(status := Healthy, consecutiveRecoveries := 0), Some(Healthy))
    else
      var s := state.(consecutiveRecoveries := 0);
      if s.status == Firing then (s, None)
      else
        var failures := SaturatingAdd32(s.consecutiveFailures, 1);
        if failures < limits.failures then (s.(consecutiveFailures := failures), None)
        else (s.(status := Firing, consecutiveFailures := 0), Some(Firing))
  }

  /** The run at the end of `history` that decides the status: an unhealthy run that reached the
      failure threshold, with no healthy run reaching the recovery threshold after it. */
  ghost predicate FiringSince(limits: Limits, history: seq<bool>, i: nat) {
    && 0 < i <= |history|
    && Trailing(history[..i], false) >= limits.failures
    && forall j :: i < j <= |history| ==> Trailing(history[..j], true) < limits.recoveries
  }

  /** The counters are the trailing run lengths, and stay below their thresholds. */
  lemma {:induction false} CountersAreTrailingRuns(limits: Limits, history: seq<bool>)
    requires limits.Positive()
    ensures var s := StateAfter(limits, history);
            && s.consecutiveFailures < limits.failures
            && s.consecutiveRecoveries < limits.recoveries
            && (s.status == Firing ==>
                 s.consecutiveRecoveries == Trailing(history, true) && s.consecutiveFailures == 0)
            && (s.status == Healthy ==>
                 s.consecutiveFailures == Trailing(history, false) && s.consecutiveRecoveries == 0)
  {
    if history != [] {
      CountersAreTrailingRuns(limits, history[..|history| - 1]);
    }
  }

  /** One more outcome either ends a decisive run, or keeps the one before unless it completes a recovery. */
  lemma DecisiveStep(limits: Limits, earlier: seq<bool>, outcome: bool, i: nat)
    ensures var history := earlier + [outcome];
            FiringSince(limits, history, i) <==>
              if i == |history| then Trailing(history, false) >= limits.failures
              else FiringSince(limits, earlier, i) && Trailing(history, true) < limits.recoveries
  {
    var history := earlier + [outcome];
    TakeAll(history);
    forall j | 0 <= j <= |earlier|
      ensures history[..j] == earlier[..j]
    {}
  }

  /** What one outcome does to the status, in terms of the runs it ends. */
  lemma StatusStep(limits: Limits, earlier: seq<bool>, outcome: bool)
    requires limits.Positive()
    ensures var history := earlier + [outcome];
            StateAfter(limits, history).status == Firing <==>
              || Trailing(history, false) >= limits.failures
              || (StateAfter(limits, earlier).status == Firing && Trailing(history, true) < limits.recoveries)
  {
    SnocParts(earlier, outcome);
    CountersAreTrailingRuns(limits, earlier);
  }

  /** Status in closed form: firing exactly when the last decisive run was an unhealthy one. */
  lemma {:induction false} StatusIsLastDecisiveRun(limits: Limits, history: seq<bool>)
    requires limits.Positive()
    ensures StateAfter(limits, history).status == Firing <==> exists i: nat :: FiringSince(limits, history, i)
  {
    if history != [] {
      var earlier, outcome := history[..|history| - 1], history[|history| - 1];
      InitLast(history);
      StatusIsLastDecisiveRun(limits, earlier);
      StatusStep(limits, earlier, outcome);
      forall i: nat
        ensures FiringSince(limits, history, i) <==>
                  if i == |history| then Trailing(history, false) >= limits.failures
                  else FiringSince(limits, earlier, i) && Trailing(history, true) < limits.recoveries
      {
        DecisiveStep(limits, earlier, outcome, i);
      }
      if StateAfter(limits, history).status == Firing {
        if Trailing(history, false) >= limits.failures {
          assert FiringSince(limits, history, |history|);
        } else {
          var i: nat :| FiringSince(limits, earlier, i);
          assert FiringSince(limits, history, i);
        }
      }
    }
  }

  ghost predicate Alternating(alerts: seq<CheckStatus>) {
    && (alerts != [] ==> alerts[0] == Firing)
    && forall i :: 0 < i < |alerts| ==> alerts[i] != alerts[i - 1]
  }

  /** Alerts strictly alternate, starting with firing, and the last one tells the status. */
  lemma {:induction false} AlertsAlternate(limits: Limits, history: seq<bool>)
    ensures var alerts := Alerts(limits, history);
            && Alternating(alerts)
            && StateAfter(limits, history).status == if alerts == [] then Healthy else alerts[|alerts| - 1]
  {
    if history != [] {
      AlertsAlternate(limits, history[..|history| - 1]);
    }
  }

  lemma Extend(limits: Limits, history: seq<bool>, healthy: bool)
    ensures StateAfter(limits, history + [healthy]) == Transition(limits, StateAfter(limits, history), healthy).0
    ensures var alert := Transition(limits, StateAfter(limits, history), healthy).1;
            Alerts(limits, history + [healthy]) ==
            Alerts(limits, history) + if alert.Some? then [alert.value] else []
  {}

  function Lookup<V>(m: map<string, V>, id: string, default: V): V {
    if id in m then m[id] else default
  }

  /** `state` and `delivered` are what `history` leads to. */
  ghost predicate IsTrace(limits: Limits, history: seq<bool>, state: CheckState, delivered: seq<CheckStatus>) {
    state == StateAfter(limits, history) && delivered == Alerts(limits, history)
  }

  lemma TraceGoesOn(limits: Limits, history: seq<bool>, state: CheckState, delivered: seq<CheckStatus>, healthy: bool)
    requires IsTrace(limits, history, state, delivered)
    ensures var (next, alert) := Transition(limits, state, healthy);
            && (alert.Some? ==> IsTrace(limits, history + [healthy], next, delivered + [alert.value]))
            && (alert.None? ==> IsTrace(limits, history + [healthy], next, delivered))
  {
    Extend(limits, history, healthy);
    AppendEmpty(delivered);
  }

  /** What one check of a cycle observes: the probe's outcome and whether the sink takes an alert. */
  datatype Probe = Probe(healthy: bool, sinkAccepts: bool)

  /** `kept` holds, per check, the outcomes whose effect was not rolled back; `delivered` the alerts
      the sink took. Both are history, and tie the mutable state to the specification above. */
  class ServiceMonitor {
    const checks: seq<Check>
    const defaults: Limits
    var states: map<string, CheckState>
    ghost var kept: map<string, seq<bool>>
    ghost var delivered: map<string, seq<CheckStatus>>

    function LimitsOf(check: Check): Limits {
      Limits(
        if check.failureThreshold.Some? then check.failureThreshold.value else defaults.failures,
        if check.recoveryThreshold.Some? then check.recoveryThreshold.value else defaults.recoveries)
    }

    function StateOf(id: string): CheckState
      reads this
    {
      Lookup(states, id, INITIAL)
    }

    ghost function KeptOf(id: string): seq<bool>
      reads this
    {
      Lookup(kept, id, [])
    }

    ghost function DeliveredOf(id: string): seq<CheckStatus>
      reads this
    {
      Lookup(delivered, id, [])
    }

    ghost predicate Tracks(check: Check)
      reads this
    {
      IsTrace(LimitsOf(check), KeptOf(check.id), StateOf(check.id), DeliveredOf(check.id))
    }

    ghost predicate Valid()
      reads this
    {
      && (forall i, j :: 0 <= i < j < |checks| ==> checks[i].id != checks[j].id)
      && forall i :: 0 <= i < |checks| ==> Tracks(checks[i])
    }

    constructor (checks: seq<Check>, defaults: Limits)
      requires forall i, j :: 0 <= i < j < |checks| ==> checks[i].id != checks[j].id
      ensures Valid() && this.checks == checks && this.defaults == defaults
      ensures kept == map[] && delivered == map[]
    {
      this.checks, this.defaults := checks, defaults;
      states, kept, delivered := map[], map[], map[];
    }

    /** Updates one check's counters and status in place. */
    method TransitionAlert(check: Check, healthy: bool) returns (alert: Option<CheckStatus>)
      modifies this`states
      ensures (StateOf(check.id), alert) == Transition(LimitsOf(check), old(StateOf(check.id)), healthy)
      ensures forall id :: id != check.id ==> StateOf(id) == old(StateOf(id))
    {
      var limits := LimitsOf(check);
      var state := StateOf(check.id);
      if healthy {
        state := state.(consecutiveFailures := 0);
        if state.status != Firing {
          states := states[check.id := state.(consecutiveRecoveries := 0)];
          return None;
        }
        state := state.(consecutiveRecoveries := SaturatingAdd32(state.consecutiveRecoveries, 1));
        if state.consecutiveRecoveries < limits.recoveries {
          states := states[check.id := state];
          return None;
        }
        states := states[check.id := state.(status := Healthy, consecutiveRecoveries := 0)];
        return Some(Healthy);
      }
      state := state.(consecutiveRecoveries := 0);
      if state.status == Firing {
        states := states[check.id := state];
        return None;
      }
      state := state.(consecutiveFailures := SaturatingAdd32(state.consecutiveFailures, 1));
      if state.consecutiveFailures < limits.failures {
        states := states[check.id := state];
        return None;
      }
      states := states[check.id := state.(status := Firing, consecutiveFailures := 0)];
      return Some(Firing);
    }

    /** One check of a cycle: a failed delivery restores the saved state, as if the probe had not
        happened; otherwise the outcome counts and its alert, if any, is delivered. */
    method RunCheck(check: Check, probe: Probe)
      requires Tracks(check)
      modifies this
      ensures Tracks(check)
      ensures forall id :: id != check.id ==>
                StateOf(id) == old(StateOf(id)) && KeptOf(id) == old(KeptOf(id))
                  && DeliveredOf(id) == old(DeliveredOf(id))
      ensures var alert := Transition(LimitsOf(check), old(StateOf(check.id)), probe.healthy).1;
              KeptOf(check.id) == old(KeptOf(check.id)) + if alert.Some? && !probe.sinkAccepts then []
                                                          else [probe.healthy]
    {
      var previous := StateOf(check.id);
      ghost var history, sent := KeptOf(check.id), DeliveredOf(check.id);
      var alert := TransitionAlert(check, probe.healthy);
      if alert.Some? && !probe.sinkAccepts {
        states := states[check.id := previous];
        AppendEmpty(history);
      } else {
        TraceGoesOn(LimitsOf(check), history, previous, sent, probe.healthy);
        kept := kept[check.id := history + [probe.healthy]];
        if alert.Some? {
          delivered := delivered[check.id := sent + [alert.value]];
        }
      }
    }

    /** What a probe adds to the kept history of a check in the given state. */
    ghost function Contribution(check: Check, state: CheckState, probe: Probe): seq<bool> {
      if Transition(LimitsOf(check), state, probe.healthy).1.Some? && !probe.sinkAccepts then [] else [probe.healthy]
    }

    /** `now` extends `before` by what `probe` contributes to check `i`. */
    ghost predicate Advanced(now: map<string, seq<bool>>, before: map<string, seq<bool>>,
                             states: map<string, CheckState>, i: nat, probe: Probe)
      requires i < |checks|
    {
      var check := checks[i];
      Lookup(now, check.id, []) == Lookup(before, check.id, []) +
        if check.enabled then Contribution(check, Lookup(states, check.id, INITIAL), probe) else []
    }

    /** Runs check `i` of a cycle and leaves every other check alone. */
    method RunEnabled(i: nat, probe: Probe)
      requires Valid() && i < |checks| && checks[i].enabled
      modifies this
      ensures Valid() && Advanced(kept, old(kept), old(states), i, probe)
      ensures forall j :: 0 <= j < |checks| && j != i ==>
                && KeptOf(checks[j].id) == old(KeptOf(checks[j].id))
                && StateOf(checks[j].id) == old(StateOf(checks[j].id))
    {
      assert Tracks(checks[i]);
      RunCheck(checks[i], probe);
      forall j | 0 <= j < |checks|
        ensures Tracks(checks[j])
      {
        assert j != i ==> checks[j].id != checks[i].id && old(Tracks(checks[j]));
      }
    }

    /** Disabled checks are skipped; every other check advances by exactly its own probe. */
    method RunCycle(probes: seq<Probe>)
      requires Valid() && |probes| == |checks|
      modifies this
      ensures Valid()
      ensures forall i :: 0 <= i < |checks| ==> Advanced(kept, old(kept), old(states), i, probes[i])
    {
      ghost var kept0, states0 := kept, states;
      for index := 0 to |checks|
        invariant Valid()
        invariant forall i :: index <= i < |checks| ==>
                    && KeptOf(checks[i].id) == Lookup(kept0, checks[i].id, [])
                    && StateOf(checks[i].id) == Lookup(states0, checks[i].id, INITIAL)
        invariant forall i :: 0 <= i < index ==> Advanced(kept, kept0, states0, i, probes[i])
      {
        if checks[index].enabled {
          RunEnabled(index, probes[index]);
        }
      }
    }
  }
}
