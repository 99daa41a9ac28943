/** The supervisor's own state: the active set with its cancellation tokens, and the wake permit. */
module Supervisor {
  import opened Wrappers
  import opened Domain
  import opened CycleViews
  import opened Scheduler
  import opened Seqs

  class AgentSupervisor {
    const maxJobs: nat
    /** Whether the token of each running job is cancelled. */
    var active: map<TaskId, bool>
    /** The one permit a finished job leaves for the loop. */
    var wake: bool

    ghost predicate Valid()
      reads this
    {
      |active| <= maxJobs
    }

    /** At least one slot, whatever is configured. */
    constructor (maxConcurrentTasks: nat)
      ensures Valid() && active == map[] && !wake
      ensures maxJobs >= 1 && maxJobs >= maxConcurrentTasks
              && (maxConcurrentTasks >= 1 ==> maxJobs == maxConcurrentTasks)
    {
      maxJobs := if maxConcurrentTasks >= 1 then maxConcurrentTasks else 1;
      active, wake := map[], false;
    }

    method TryStart(task: TaskId) returns (started: bool)
      requires Valid()
      modifies this`active
      ensures Valid() && started == (task !in old(active) && |old(active)| < maxJobs)
      ensures active == if started then old(active)[task := false] else old(active)
    {
      if task in active || |active| >= maxJobs {
        return false;
      }
      assert active[task := false].Keys == active.Keys + {task};
      assert |active[task := false]| == |active[task := false].Keys| <= |active.Keys| + 1;
      active := active[task := false];
      started := true;
    }

    /** Frees the slot, then leaves a permit so that the loop looks again. */
    method Finish(task: TaskId)
      requires Valid()
      modifies this
      ensures Valid() && active == old(active) - {task} && wake
    {
      assert (active - {task}).Keys <= active.Keys;
      assert |active - {task}| == |(active - {task}).Keys| <= |active.Keys|;
      active := active - {task};
      wake := true;
    }

    /** Cancels the token of a running job, if the log asks for it. */
    method SignalStop(task: TaskId, log: seq<Event>)
      requires Valid()
      modifies this`active
      ensures Valid() && active.Keys == old(active).Keys
      ensures forall u :: u in active ==> active[u] == (old(active)[u] || (u == task && HasStopRequest(log)))
    {
      if HasStopRequest(log) && task in active {
        assert active[task := true].Keys == active.Keys;
        assert |active[task := true]| == |active[task := true].Keys|;
        active := active[task := true];
      }
    }

    /** Starts a job if the model is wanted; `TryStart` looks at the active set. */
    method StartIf(task: TaskId, wanted: bool) returns (choice: Choice)
      requires Valid()
      modifies this`active
      ensures Valid()
      ensures choice == if wanted && task !in old(active) && |old(active)| < maxJobs then StartJob else MoveOn
      ensures active == if choice == StartJob then old(active)[task := false] else old(active)
    {
      choice := MoveOn;
      if wanted {
        var started := TryStart(task);
        if started {
          choice := StartJob;
        }
      }
    }

    /** The cascade over the recovered status, and the delivery that follows it. It amounts to `Choose`,
        which decides each outcome by one condition. */
    method ActOnStatus(task: TaskId, log: seq<Event>, status: Option<TaskStatus>) returns (choice: Choice)
      requires Valid()
      modifies this`active
      ensures Valid()
      ensures choice == Choose(task, log, status, task in old(active), |old(active)| < maxJobs)
      ensures active == if choice == StartJob then old(active)[task := false] else old(active)
    {
      choice := MoveOn;
      match status {
        case Some(New) => choice := StartIf(task, ContextEvents(log) != [] || WasResumed(log));
        case Some(Queued) => choice := StartIf(task, ContextEvents(log) != [] || WasResumed(log));
        case Some(Running) =>
          if task == MAIN && task !in active {
            choice := StartIf(task, ContextEventsSinceLastModel(log) != [] || PendingEvents(log) != []);
          }
        case Some(WaitingApproval) => choice := StartIf(task, CompletedApproval(log).Some?);
        case Some(Pausing) =>
          if task !in active {
            choice := ConfirmStop;
          }
        case Some(Cancelling) =>
          if task !in active {
            choice := ConfirmStop;
          }
        case _ =>
      }
      if task != MAIN && IsOver(status) && task !in active {
        choice := DeliverResult;
      }
    }

    /** One task's turn in a tick that nothing interleaves with. */
    method Examine(task: TaskId, log: seq<Event>) returns (choice: Choice)
      requires Valid()
      modifies this`active
      ensures Valid()
      ensures choice == Choose(task, log, StatusOf(task, log), task in old(active), |old(active)| < maxJobs)
      ensures active.Keys == old(active).Keys + if choice == StartJob then {task} else {}
      ensures forall u :: u in old(active) ==> active[u] == (old(active)[u] || (u == task && HasStopRequest(log)))
      ensures choice == StartJob ==> !active[task]
    {
      SignalStop(task, log);
      assert |active| == |active.Keys| == |old(active).Keys| == |old(active)|;
      choice := ActOnStatus(task, log, StatusOf(task, log));
    }

    /** A tick over logs that do not change meanwhile: afterwards every task the model has to run for is
        active or all slots are taken, every job that was running and was asked to stop is cancelled,
        and exactly the inactive stopping and finished tasks are handed on. */
    method Tick(tasks: seq<TaskId>, logs: map<TaskId, seq<Event>>) returns (confirm: set<TaskId>, deliver: set<TaskId>)
      requires Valid() && forall t :: t in tasks ==> t in logs
      modifies this`active
      ensures Valid() && TickOutcome(maxJobs, tasks, AllFacts(logs), old(active), active, confirm, deliver)
    {
      confirm, deliver := {}, {};
      ghost var before := active;
      ghost var facts := AllFacts(logs);
      for i := 0 to |tasks|
        invariant Valid() && TickOutcome(maxJobs, tasks[..i], facts, before, active, confirm, deliver)
      {
        ghost var held := active;
        var task := tasks[i];
        var choice := Examine(task, logs[task]);
        ChoiceIsExact(task, logs[task], task in held, |held| < maxJobs);
        ghost var confirmed, delivered := confirm, deliver;
        if choice == ConfirmStop {
          confirm := confirm + {task};
        } else if choice == DeliverResult {
          deliver := deliver + {task};
        }
        TurnKeeps(maxJobs, tasks[..i], facts, before, held, active, confirmed, delivered, confirm, deliver, task,
                  choice);
        assert tasks[..i + 1] == tasks[..i] + [task];
      }
      assert tasks[..|tasks|] == tasks;
    }
  }

  /** All that a tick reads off one log. */
  datatype Facts = Facts(wants: bool, stop: bool, awaits: bool, over: bool)

  function FactsOf(task: TaskId, log: seq<Event>): Facts {
    var status := StatusOf(task, log);
    Facts(Wants(task, log, status), HasStopRequest(log), AwaitsConfirmation(status), task != MAIN && IsOver(status))
  }

  function AllFacts(logs: map<TaskId, seq<Event>>): (r: map<TaskId, Facts>)
    ensures r.Keys == logs.Keys && forall t :: t in logs ==> r[t] == FactsOf(t, logs[t])
  {
    map t | t in logs :: FactsOf(t, logs[t])
  }

  /** The choice, read off one condition at a time. */
  predicate Chosen(choice: Choice, f: Facts, isActive: bool, hasSlot: bool) {
    && (choice == StartJob <==> !isActive && hasSlot && f.wants)
    && (choice == ConfirmStop <==> !isActive && f.awaits)
    && (choice == DeliverResult <==> !isActive && f.over)
    && !(f.wants && f.awaits) && !(f.wants && f.over)
  }

  lemma ChoiceIsExact(task: TaskId, log: seq<Event>, isActive: bool, hasSlot: bool)
    ensures Chosen(Choose(task, log, StatusOf(task, log), isActive, hasSlot), FactsOf(task, log), isActive, hasSlot)
  {}

  /** What has been achieved for task `t`, once it has had its turn. */
  predicate Ticked(full: bool, t: TaskId, f: Facts, before: map<TaskId, bool>, active: map<TaskId, bool>,
                   confirm: set<TaskId>, deliver: set<TaskId>)
  {
    && (f.wants ==> t in active || full)
    && (t in active && t !in before ==> f.wants)
    && (t in before && f.stop && t in active ==> active[t])
    && (t in confirm <==> t !in before && f.awaits)
    && (t in deliver <==> t !in before && f.over)
  }

  predicate Untouched(t: TaskId, before: map<TaskId, bool>, active: map<TaskId, bool>, confirm: set<TaskId>,
                      deliver: set<TaskId>)
  {
    && (t in active <==> t in before) && (t in active && t in before ==> active[t] == before[t])
    && t !in confirm && t !in deliver
  }

  /** Task `t` has had its turn if it is in `done`, and is as before otherwise. */
  predicate OutcomeFor(full: bool, done: seq<TaskId>, facts: map<TaskId, Facts>, before: map<TaskId, bool>,
                       active: map<TaskId, bool>,
                       confirm: set<TaskId>, deliver: set<TaskId>, t: TaskId) {
    if t in done then t in facts && Ticked(full, t, facts[t], before, active, confirm, deliver)
    else Untouched(t, before, active, confirm, deliver)
  }

  /** The tasks in `done` have had their turn, the others are as before. */
  ghost predicate TickOutcome(maxJobs: nat, done: seq<TaskId>, facts: map<TaskId, Facts>, before: map<TaskId, bool>,
                              active: map<TaskId, bool>, confirm: set<TaskId>, deliver: set<TaskId>) {
    before.Keys <= active.Keys && EachOutcome(|active| >= maxJobs, done, facts, before, active, confirm, deliver)
  }

  ghost predicate EachOutcome(full: bool, done: seq<TaskId>, facts: map<TaskId, Facts>, before: map<TaskId, bool>,
                              active: map<TaskId, bool>, confirm: set<TaskId>, deliver: set<TaskId>) {
    forall t :: OutcomeFor(full, done, facts, before, active, confirm, deliver, t)
  }

  /** A turn of another task. */
  lemma OthersTurn(full: bool, later: bool, t: TaskId, f: Facts, before: map<TaskId, bool>, held: map<TaskId, bool>,
                   active: map<TaskId, bool>,
                   confirm: set<TaskId>, deliver: set<TaskId>, confirm': set<TaskId>, deliver': set<TaskId>)
    requires full ==> later
    requires (t in active <==> t in held) && (t in held ==> active[t] == held[t])
    requires (t in confirm' <==> t in confirm) && (t in deliver' <==> t in deliver)
    ensures Ticked(full, t, f, before, held, confirm, deliver) ==>
              Ticked(later, t, f, before, active, confirm', deliver')
    ensures Untouched(t, before, held, confirm, deliver) ==> Untouched(t, before, active, confirm', deliver')
  {}

  /** A task's own turn, its first or a repeated one. */
  lemma OwnTurn(full: bool, later: bool, t: TaskId, f: Facts, before: map<TaskId, bool>, held: map<TaskId, bool>,
                active: map<TaskId, bool>,
                confirm: set<TaskId>, deliver: set<TaskId>, confirm': set<TaskId>, deliver': set<TaskId>,
                choice: Choice)
    requires (full ==> later) && Chosen(choice, f, t in held, !full) && (t in before ==> t in held)
    requires Ticked(full, t, f, before, held, confirm, deliver) || Untouched(t, before, held, confirm, deliver)
    requires (t in active <==> t in held || choice == StartJob) && (t in held ==> active[t] == (held[t] || f.stop))
    requires t in confirm' <==> t in confirm || choice == ConfirmStop
    requires t in deliver' <==> t in deliver || choice == DeliverResult
    ensures Ticked(later, t, f, before, active, confirm', deliver')
  {}

  /** What a turn of `task` does to the outcome for `t`. */
  lemma TurnFor(full: bool, later: bool, done: seq<TaskId>, facts: map<TaskId, Facts>, before: map<TaskId, bool>,
                held: map<TaskId, bool>,
                active: map<TaskId, bool>, confirm: set<TaskId>, deliver: set<TaskId>, confirm': set<TaskId>,
                deliver': set<TaskId>,
                task: TaskId, choice: Choice, t: TaskId)
    requires OutcomeFor(full, done, facts, before, held, confirm, deliver, t) && task in facts
    requires (full ==> later) && Chosen(choice, facts[task], task in held, !full) && (t in before ==> t in held)
    requires t in active <==> t in held || (t == task && choice == StartJob)
    requires t in held ==> active[t] == (held[t] || (t == task && facts[task].stop))
    requires t in confirm' <==> t in confirm || (t == task && choice == ConfirmStop)
    requires t in deliver' <==> t in deliver || (t == task && choice == DeliverResult)
    ensures OutcomeFor(later, done + [task], facts, before, active, confirm', deliver', t)
  {
    if t == task {
      OwnTurn(full, later, t, facts[t], before, held, active, confirm, deliver, confirm', deliver', choice);
    } else if t in done {
      OthersTurn(full, later, t, facts[t], before, held, active, confirm, deliver, confirm', deliver');
    }
  }

  lemma TurnKeeps(maxJobs: nat, done: seq<TaskId>, facts: map<TaskId, Facts>, before: map<TaskId, bool>,
                  held: map<TaskId, bool>,
                  active: map<TaskId, bool>, confirm: set<TaskId>, deliver: set<TaskId>, confirm': set<TaskId>,
                  deliver': set<TaskId>,
                  task: TaskId, choice: Choice)
    requires TickOutcome(maxJobs, done, facts, before, held, confirm, deliver) && task in facts
    requires Chosen(choice, facts[task], task in held, |held| < maxJobs)
    requires active.Keys == held.Keys + if choice == StartJob then {task} else {}
    requires forall u :: u in held ==> active[u] == (held[u] || (u == task && facts[task].stop))
    requires confirm' == if choice == ConfirmStop then confirm + {task} else confirm
    requires deliver' == if choice == DeliverResult then deliver + {task} else deliver
    ensures TickOutcome(maxJobs, done + [task], facts, before, active, confirm', deliver')
  {
    var full, later := |held| >= maxJobs, |active| >= maxJobs;
    SubsetSize(held.Keys, active.Keys);
    assert |active| == |active.Keys| && |held| == |held.Keys|;
    forall t
      ensures OutcomeFor(later, done + [task], facts, before, active, confirm', deliver', t)
    {
      assert OutcomeFor(full, done, facts, before, held, confirm, deliver, t);
      TurnFor(full, later, done, facts, before, held, active, confirm, deliver, confirm', deliver', task, choice, t);
    }
  }
}
