/**
 * Stopping a live build short of its last task (apps/server/src/tasks/builds.ts:646-692): the run is returned
 * with a revision request and marked live, so that later rebuilds can resume it.
 */
module LifecycleStops {
  import opened Text
  import opened Lifecycle
  import opened LifecycleLogs
  import opened LifecyclePlans
  import opened LifecycleQuiet
  import opened LifecycleReplay
  import opened LifecycleRuns

  /** A stop is carried out. */
  predicate Stops(s: State) {
    Stoppable(s) && Admitted(s, s.execution.value.id, StopCommand(s.execution.value.id))
  }

  /** A stop of a log on which something other than a report of an own pull request followed its first completion. */
  ghost predicate StopsNoisily(s: State) {
    Stops(s) && !Quiet(ActiveVersion(s.graph, s.execution.value).value.tasks, s.execution.value, s.events.Or([]))
  }

  function StoppedLog(s: State): seq<Command>
    requires s.execution.Some?
  {
    s.events.Or([]) + [StopCommand(s.execution.value.id)]
  }

  lemma {:induction false} StopReasonIsText()
    ensures IsText(STOP_REASON)
  {
    assert STOP_REASON[0] == "The build stopped"[0] == 'T';
    FirstNotBlank(STOP_REASON);
  }

  lemma {:induction false} StopReduces(s: Reduced, tasks: seq<Task>, run: Run, live: bool)
    requires s.phase == Active
    ensures Reduce(s, tasks, run, StopCommand(run.id), live) == Accept(s.(phase := RevisionRequested))
  {
    StopReasonIsText();
  }

  /** The stop request is accepted, and returns the run, exactly when it is admitted. */
  lemma {:induction false} StopTransition(s: State)
    requires Stoppable(s)
    ensures var run := s.execution.value;
            Transition(s, run.id, StopCommand(run.id), false).Accepted? <==> Stops(s)
    ensures Stops(s) ==>
              Transition(s, s.execution.value.id, StopCommand(s.execution.value.id), false)
              == Accepted(Released(s, s.execution.value, StoppedLog(s), false))
  {
    var run := s.execution.value;
    var tasks := ActiveVersion(s.graph, run).value.tasks;
    if Stops(s) {
      AdmittedIsActive(s, run.id, StopCommand(run.id), false);
      StopReduces(Fold(tasks, run, s.events.Or([]), false).state, tasks, run, false);
    } else if Transition(s, run.id, StopCommand(run.id), false).Accepted? {
      TransitionCases(s, run.id, StopCommand(run.id), false);
    }
  }

  lemma {:induction false} MarkedRelease(s: State, run: Run, events: seq<Command>)
    ensures MarkLive(Released(s, run, events, false)) == Released(s, run, events, true)
    ensures var t := Released(s, run, events, false);
            t.history != [] && t.history[|t.history| - 1] == Archived(run, events, false)
  {
    var t := Released(s, run, events, false);
    assert t.history[|t.history| - 1 := Archived(run, events, true)] == s.history + [Archived(run, events, true)];
  }

  /** A stop archives the run as a live one with its revision request last, or changes nothing. */
  lemma {:induction false} StopShape(s: State)
    ensures StopState(s) == if Stops(s) then Released(s, s.execution.value, StoppedLog(s), true) else s
  {
    if Stoppable(s) {
      StopTransition(s);
      if Stops(s) {
        MarkedRelease(s, s.execution.value, StoppedLog(s));
      }
    }
  }

  /** The stopped log folds as a live one if and only if it is quiet, and then ends in the revision request. */
  lemma {:induction false} StoppedLogFolds(s: State)
    requires Stops(s)
    ensures var tasks, run := ActiveVersion(s.graph, s.execution.value).value.tasks, s.execution.value;
            var folded := Fold(tasks, run, StoppedLog(s), true);
            (folded.Accept? <==> Quiet(tasks, run, s.events.Or([]))) && (folded.Accept? ==> folded.state.phase == RevisionRequested)
  {
    var tasks, run, log := ActiveVersion(s.graph, s.execution.value).value.tasks, s.execution.value, s.events.Or([]);
    NoRevisionInLog(tasks, run, log);
    QuietLogsFoldLive(tasks, run, log);
    FoldSnoc(tasks, run, log, StopCommand(run.id), true);
    if Quiet(tasks, run, log) {
      StopReduces(Fold(tasks, run, log, true).state, tasks, run, true);
    }
  }

  lemma {:induction false} ReleasedOwns(s: State, run: Run, events: seq<Command>)
    ensures AllOwned(Released(s, run, events, true)) == AllOwned(Released(s, run, events, false))
  {
    OwnedHistorySnoc(s.history, Archived(run, events, true));
    OwnedHistorySnoc(s.history, Archived(run, events, false));
  }

  /** A stop adds exactly its own request to what the plan owns. */
  lemma {:induction false} StopOwns(s: State)
    requires IdleHasNoEvents(s) && Stops(s)
    ensures multiset(AllOwned(StopState(s))) == multiset(AllOwned(s)) + multiset{Owned(s.execution.value.id, StopCommand(s.execution.value.id))}
    ensures FindKey(AllOwned(s), StopCommand(s.execution.value.id).key) == None && IdleHasNoEvents(StopState(s))
    ensures UniqueKeys(multiset(AllOwned(s))) ==> UniqueKeys(multiset(AllOwned(StopState(s))))
  {
    var run := s.execution.value;
    StopShape(s);
    StopTransition(s);
    OwnedGrowsByOne(s, run.id, StopCommand(run.id), false);
    ReleasedOwns(s, run, StoppedLog(s));
    if UniqueKeys(multiset(AllOwned(s))) {
      UniqueKeysGrow(s, run.id, StopCommand(run.id), false);
    }
  }

  lemma {:induction false} StoppedEventsAreStored(s: State)
    requires Stops(s) && ActiveRestores(s)
    ensures StoredEvents(StoppedLog(s))
  {
    StopReasonIsText();
    StoredSnoc(s.events.Or([]), StopCommand(s.execution.value.id));
  }

  lemma {:induction false} QuietStopKeepsPlanOk(p: Plan)
    requires PlanOk(p) && Stops(p.state) && !StopsNoisily(p.state)
    ensures PlanOk(p.(state := StopState(p.state)))
  {
    var s := p.state;
    StopShape(s);
    StoppedLogFolds(s);
    StopOwns(s);
    StoppedEventsAreStored(s);
    assert StopState(s).history[|s.history|] == Archived(s.execution.value, StoppedLog(s), true);
    ReleaseKeepsPlanOk(p, StopState(s), ActiveVersion(s.graph, s.execution.value).value, StoppedLog(s));
  }

  lemma {:induction false} NoisyStopIsLost(revision: nat, s: State)
    requires GraphRestores(s.graph) && StopsNoisily(s)
    ensures !Restores(Plan(revision, StopState(s)))
  {
    StopShape(s);
    StoppedLogFolds(s);
    UnfoldedIsLost(revision, s, ActiveVersion(s.graph, s.execution.value).value, s.execution.value, StoppedLog(s));
  }

  lemma {:induction false} DoStop(p: Plan)
    ensures Do(p, Stop) == p.(state := StopState(p.state))
  {}

  /** A stop leaves a restorable plan restorable exactly when it does not archive a noisy log. */
  lemma {:induction false} StopKeepsRestorable(p: Plan)
    requires PlanOk(p)
    ensures Restores(Do(p, Stop)) <==> !StopsNoisily(p.state)
    ensures !StopsNoisily(p.state) ==> PlanOk(Do(p, Stop))
  {
    StopShape(p.state);
    DoStop(p);
    if StopsNoisily(p.state) {
      NoisyStopIsLost(p.revision, p.state);
    } else if Stops(p.state) {
      QuietStopKeepsPlanOk(p);
    }
  }
}
