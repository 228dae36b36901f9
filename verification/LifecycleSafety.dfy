/** What holds in every life of a plan: which lives can be read back from storage, and exactly-once reports. */
module LifecycleSafety {
  import opened Lifecycle
  import opened LifecycleLogs
  import opened LifecyclePlans
  import opened LifecycleQuiet
  import opened LifecycleRebuilds
  import opened LifecycleReplay
  import opened LifecycleResumes
  import opened LifecycleRuns
  import opened LifecycleStops
  import opened Text

  // ----- lives that restore

  /** The steps that store what cannot be read back, by what can be checked before them. */
  ghost predicate Unsafe(p: Plan, step: Step) {
    match step
    case Tell(runId, e, live) => SettlesNoisily(p.state, runId, e, live)
    case Stop => StopsNoisily(p.state)
    case Resume(runId, taskId, buildId, outcome) => FinishesTaken(p, runId, taskId, buildId, outcome)
    case Rebuild(report) => LandsBadly(p, report)
    case _ => false
  }

  lemma {:induction false} EditKeepsPlanOk(p: Plan)
    requires PlanOk(p)
    ensures PlanOk(Do(p, EditDocument))
  {}

  /** A step leaves a restorable plan restorable if and only if it is safe. */
  lemma {:induction false} StepKeepsRestorable(p: Plan, step: Step)
    requires PlanOk(p)
    ensures Restores(Do(p, step)) <==> !Unsafe(p, step)
    ensures !Unsafe(p, step) ==> PlanOk(Do(p, step))
  {
    match step
    case EditDocument => EditKeepsPlanOk(p);
    case Revise(planRevision, graphRevision, tasks) => ReviseKeepsPlanOk(p, planRevision, graphRevision, tasks);
    case Approve => ApproveKeepsPlanOk(p);
    case Claim(planRevision, graphRevision, run) => ClaimKeepsPlanOk(p, planRevision, graphRevision, run);
    case Tell(runId, e, live) => ReportKeepsRestorable(p, runId, e, live);
    case Stop => StopKeepsRestorable(p);
    case Resume(runId, taskId, buildId, outcome) => ResumeKeepsRestorable(p, runId, taskId, buildId, outcome);
    case Rebuild(report) => RebuildKeepsRestorable(p, report);
  }

  lemma {:induction false} AfterNext(steps: seq<Step>, n: nat)
    requires n < |steps|
    ensures After(steps[..n + 1]) == Do(After(steps[..n]), steps[n])
  {
    assert steps[..n + 1][..n] == steps[..n];
  }

  lemma {:induction false} NewPlanIsOk()
    ensures PlanOk(NEW)
  {}

  lemma {:induction false} SafeLifeIsOk(steps: seq<Step>, n: nat)
    requires n <= |steps| && forall m :: 0 <= m < n ==> !Unsafe(After(steps[..m]), steps[m])
    ensures PlanOk(After(steps[..n]))
  {
    if n == 0 {
      NewPlanIsOk();
    } else {
      SafeLifeIsOk(steps, n - 1);
      AfterNext(steps, n - 1);
      StepKeepsRestorable(After(steps[..n - 1]), steps[n - 1]);
    }
  }

  lemma {:induction false} FirstUnsafe(steps: seq<Step>, m: nat) returns (n: nat)
    requires m < |steps| && Unsafe(After(steps[..m]), steps[m])
    ensures n < |steps| && Unsafe(After(steps[..n]), steps[n])
    ensures forall k :: 0 <= k < n ==> !Unsafe(After(steps[..k]), steps[k])
    decreases m
  {
    if k: nat :| k < m && Unsafe(After(steps[..k]), steps[k]) {
      n := FirstUnsafe(steps, k);
    } else {
      n := m;
    }
  }

  /**
   * Exactly which lives restore: whatever is edited, revised, approved, claimed, reported, stopped, resumed
   * and rebuilt in whatever order, the plan can be read back at every moment if and only if no live release
   * and no stop archives a noisy log, no resumed task finishes a version that is taken, and no rebuild
   * lands badly.
   */
  lemma {:induction false} LifeRestoresExactly(steps: seq<Step>)
    ensures (forall n :: 0 <= n <= |steps| ==> Restores(After(steps[..n])))
            <==> (forall n :: 0 <= n < |steps| ==> !Unsafe(After(steps[..n]), steps[n]))
  {
    if forall n :: 0 <= n < |steps| ==> !Unsafe(After(steps[..n]), steps[n]) {
      forall n | 0 <= n <= |steps| ensures Restores(After(steps[..n])) {
        SafeLifeIsOk(steps, n);
      }
    } else {
      var m :| 0 <= m < |steps| && Unsafe(After(steps[..m]), steps[m]);
      var n := FirstUnsafe(steps, m);
      SafeLifeIsOk(steps, n);
      StepKeepsRestorable(After(steps[..n]), steps[n]);
      AfterNext(steps, n);
      assert !Restores(After(steps[..n + 1]));
    }
  }

  // ----- lives whose reports are all live

  /** While every report of a run is live, its log never settles without being released. */
  ghost predicate Unsettled(s: State) {
    s.execution.Some? && ActiveVersion(s.graph, s.execution.value).Some? ==>
      var tasks := ActiveVersion(s.graph, s.execution.value).value.tasks;
      Fold(tasks, s.execution.value, s.events.Or([]), true) == Fold(tasks, s.execution.value, s.events.Or([]), false)
  }

  lemma {:induction false} LiveReportIsSafe(s: State, runId: string, e: Command)
    requires Unsettled(s)
    ensures !SettlesNoisily(s, runId, e, true)
  {
    if SettlesLive(s, runId, e, true) {
      var tasks, run := ActiveVersion(s.graph, s.execution.value).value.tasks, s.execution.value;
      SettledLogFolds(s, runId, e, true);
      FoldSnoc(tasks, run, s.events.Or([]), e, true);
      LiveAgreesWithPlain(Fold(tasks, run, s.events.Or([]), false).state, tasks, run, e);
    }
  }

  lemma {:induction false} UnsettledStopIsSafe(s: State)
    requires Unsettled(s)
    ensures !StopsNoisily(s)
  {
    if Stops(s) {
      var tasks, run, log := ActiveVersion(s.graph, s.execution.value).value.tasks, s.execution.value, s.events.Or([]);
      NoRevisionInLog(tasks, run, log);
      QuietLogsFoldLive(tasks, run, log);
    }
  }

  lemma {:induction false} LiveReportStaysUnsettled(s: State, runId: string, e: Command)
    requires Unsettled(s) && Transition(s, runId, e, true).Accepted?
    ensures Unsettled(Transition(s, runId, e, true).state)
  {
    TransitionCases(s, runId, e, true);
    match FindRun(s.history, runId)
    case Some(at) => ArchivedShape(s, e, at);
    case None =>
      var v := ActiveLog(s, runId, e, true);
      LiveAppendStaysUnsettled(s, v, runId, e);
  }

  lemma {:induction false} LiveAppendStaysUnsettled(s: State, v: Version, runId: string, e: Command)
    requires Unsettled(s) && TransitionActive(s, runId, e, true).Accepted?
    requires s.execution.Some? && ActiveVersion(s.graph, s.execution.value) == Some(v)
    ensures Unsettled(TransitionActive(s, runId, e, true).state)
  {
    var w := ActiveLog(s, runId, e, true);
    FoldSnoc(v.tasks, s.execution.value, s.events.Or([]), e, true);
    LiveAgreesWithPlain(Fold(v.tasks, s.execution.value, s.events.Or([]), false).state, v.tasks, s.execution.value, e);
  }

  lemma {:induction false} GraphStepKeepsRun(p: Plan, graph: seq<Version>)
    requires PlanOk(p)
    requires graph == ApproveGraph(p) || exists m, n, tasks :: graph == ReviseGraph(p, m, n, tasks)
    ensures p.state.execution.Some? ==> graph == p.state.graph
  {}

  lemma {:induction false} ClaimStaysUnsettled(p: Plan, planRevision: nat, graphRevision: nat, run: Run)
    requires PlanOk(p) && Unsettled(p.state)
    ensures Unsettled(ClaimState(p, planRevision, graphRevision, run))
  {
    var t := ClaimState(p, planRevision, graphRevision, run);
    if t != p.state {
      assert t.events.Or([]) == [];
    }
  }

  lemma {:induction false} RebuildNeedsNoRun(p: Plan, report: RebuildReport)
    requires PlanOk(p)
    ensures Rebuilds(p, report) ==> p.state.execution.None? && RebuildState(p, report).execution.None?
  {}

  lemma {:induction false} StepStaysUnsettled(p: Plan, step: Step)
    requires PlanOk(p) && Unsettled(p.state) && (step.Tell? ==> step.live)
    ensures Unsettled(Do(p, step).state)
  {
    match step
    case EditDocument =>
    case Revise(planRevision, graphRevision, tasks) => GraphStepKeepsRun(p, ReviseGraph(p, planRevision, graphRevision, tasks));
    case Approve => GraphStepKeepsRun(p, ApproveGraph(p));
    case Claim(planRevision, graphRevision, run) => ClaimStaysUnsettled(p, planRevision, graphRevision, run);
    case Tell(runId, e, live) =>
      DoTell(p, runId, e, live);
      if Transition(p.state, runId, e, live).Accepted? {
        LiveReportStaysUnsettled(p.state, runId, e);
      }
    case Stop => StopShape(p.state);
    case Resume(runId, taskId, buildId, outcome) => ResumeKeepsRun(p, runId, taskId, buildId, outcome);
    case Rebuild(report) =>
      RebuildDoes(p, report);
      RebuildNeedsNoRun(p, report);
  }

  lemma {:induction false} ResumeKeepsRun(p: Plan, runId: string, taskId: string, buildId: string, outcome: TaskOutcome)
    ensures ResumeState(p, runId, taskId, buildId, outcome).graph == p.state.graph
    ensures ResumeState(p, runId, taskId, buildId, outcome).execution == p.state.execution
    ensures ResumeState(p, runId, taskId, buildId, outcome).events == p.state.events
  {}

  lemma {:induction false} LiveLifeIsOk(steps: seq<Step>, n: nat)
    requires n <= |steps| && forall m :: 0 <= m < |steps| && steps[m].Tell? ==> steps[m].live
    requires forall m :: 0 <= m < |steps| && (steps[m].Resume? || steps[m].Rebuild?) ==> !Unsafe(After(steps[..m]), steps[m])
    ensures PlanOk(After(steps[..n])) && Unsettled(After(steps[..n]).state)
  {
    if n == 0 {
      NewPlanIsOk();
    } else {
      LiveLifeIsOk(steps, n - 1);
      var p, step := After(steps[..n - 1]), steps[n - 1];
      AfterNext(steps, n - 1);
      if step.Tell? {
        LiveReportIsSafe(p.state, step.runId, step.command);
      } else if step.Stop? {
        UnsettledStopIsSafe(p.state);
      }
      StepKeepsRestorable(p, step);
      StepStaysUnsettled(p, step);
    }
  }

  /** When every report is live no release and no stop is noisy: only what rebuilds do can lose the plan. */
  lemma {:induction false} EveryLiveLifeRestores(steps: seq<Step>, n: nat)
    requires n <= |steps| && forall m :: 0 <= m < |steps| && steps[m].Tell? ==> steps[m].live
    requires forall m :: 0 <= m < |steps| && (steps[m].Resume? || steps[m].Rebuild?) ==> !Unsafe(After(steps[..m]), steps[m])
    ensures Restores(After(steps[..n]))
  {
    LiveLifeIsOk(steps, n);
  }

  // ----- what a live document is named after

  /** The archived run at `i`, and that it is live. */
  ghost predicate LiveAt(s: State, i: nat, run: Run) {
    i < |s.history| && s.history[i].run == run && s.history[i].live
  }

  lemma {:induction false} ReportKeepsLive(s: State, runId: string, e: Command, live: bool, i: nat, run: Run)
    requires LiveAt(s, i, run) && Transition(s, runId, e, live).Accepted?
    ensures LiveAt(Transition(s, runId, e, live).state, i, run)
  {
    TransitionCases(s, runId, e, live);
    match FindRun(s.history, runId)
    case Some(at) => ArchivedShape(s, e, at);
    case None => ActiveShape(s, runId, e, live);
  }

  lemma {:induction false} StepKeepsLive(p: Plan, step: Step, i: nat, run: Run)
    requires LiveAt(p.state, i, run)
    ensures LiveAt(Do(p, step).state, i, run)
  {
    match step
    case Tell(runId, e, live) =>
      DoTell(p, runId, e, live);
      if Transition(p.state, runId, e, live).Accepted? {
        ReportKeepsLive(p.state, runId, e, live, i, run);
      }
    case Stop =>
      DoStop(p);
      StopShape(p.state);
    case Resume(runId, taskId, buildId, outcome) => DoResume(p, runId, taskId, buildId, outcome);
    case Rebuild(report) =>
      RebuildDoes(p, report);
      if Rebuilds(p, report) {
        RebuildShape(p, report);
      }
    case EditDocument =>
    case Revise(planRevision, graphRevision, tasks) =>
    case Approve =>
    case Claim(planRevision, graphRevision, run) =>
  }

  /** A run that was archived as a live one stays archived as one: the record of a live document keeps naming it. */
  lemma {:induction false} LiveRunsStay(steps: seq<Step>, m: nat, n: nat, i: nat, run: Run)
    requires m <= n <= |steps| && LiveAt(After(steps[..m]).state, i, run)
    ensures LiveAt(After(steps[..n]).state, i, run)
    decreases n
  {
    if m < n {
      LiveRunsStay(steps, m, n - 1, i, run);
      AfterNext(steps, n - 1);
      StepKeepsLive(After(steps[..n - 1]), steps[n - 1], i, run);
    }
  }

  // ----- reports are applied exactly once

  ghost predicate KeysOk(s: State) {
    IdleHasNoEvents(s) && UniqueKeys(multiset(AllOwned(s)))
  }

  /** The event is the revision request at the end of a live archived log, which a resume may drop. */
  ghost predicate RemovableAt(s: State, i: nat, o: Owned) {
    i < |s.history| && s.history[i].live && EndsInRevision(s.history[i].events)
    && o == Owned(s.history[i].run.id, s.history[i].events[|s.history[i].events| - 1])
  }

  /** The plan owns the event for good. */
  ghost predicate Held(s: State, o: Owned) {
    o in AllOwned(s) && forall i :: 0 <= i < |s.history| ==> !RemovableAt(s, i, o)
  }

  lemma {:induction false} StillIn(s: State, t: State, more: multiset<Owned>, o: Owned)
    requires multiset(AllOwned(t)) == multiset(AllOwned(s)) + more && (o in AllOwned(s) || o in more)
    ensures o in AllOwned(t)
  {
    assert o in multiset(AllOwned(t));
  }

  lemma {:induction false} HistoryIsOwned(history: seq<Archived>, i: nat, e: Command)
    requires i < |history| && e in history[i].events
    ensures Owned(history[i].run.id, e) in OwnedHistory(history)
  {
    if i == 0 {
      OwnedByContents(history[0].run.id, history[0].events);
    } else {
      HistoryIsOwned(history[1..], i - 1, e);
    }
  }

  /** No archived run was changed so that it is live and ends in a revision request. */
  ghost predicate NoNewReturns(s: State, t: State) {
    |t.history| >= |s.history|
    && forall i :: 0 <= i < |t.history| ==>
         (i < |s.history| && t.history[i] == s.history[i]) || !t.history[i].live || !EndsInRevision(t.history[i].events)
  }

  lemma {:induction false} ArchivedReturnsNothing(s: State, e: Command, at: nat)
    requires at < |s.history| && TransitionArchived(s, e, at).Accepted?
    ensures NoNewReturns(s, TransitionArchived(s, e, at).state)
  {
    ArchivedShape(s, e, at);
    assert e.ReportPr?;
  }

  /** A run that is released live was settled, not returned. */
  lemma {:induction false} LiveReleaseIsSettled(s: State, runId: string, e: Command, live: bool)
    requires TransitionActive(s, runId, e, live).Accepted? && s.execution.Some? && e.RequestRevision?
    requires TransitionActive(s, runId, e, live).state.execution.None?
    ensures TransitionActive(s, runId, e, live).state == Released(s, s.execution.value, s.events.Or([]) + [e], false)
  {}

  lemma {:induction false} ActiveReturnsNothing(s: State, runId: string, e: Command, live: bool)
    requires TransitionActive(s, runId, e, live).Accepted?
    ensures NoNewReturns(s, TransitionActive(s, runId, e, live).state)
  {
    ActiveShape(s, runId, e, live);
    var t := TransitionActive(s, runId, e, live).state;
    if t.execution.None? {
      assert t.history[|s.history|].events[|s.events.Or([])|] == e;
      if e.RequestRevision? {
        LiveReleaseIsSettled(s, runId, e, live);
      }
    }
  }

  lemma {:induction false} TellShape(s: State, runId: string, e: Command, live: bool)
    requires Transition(s, runId, e, live).Accepted?
    ensures NoNewReturns(s, Transition(s, runId, e, live).state)
  {
    TransitionCases(s, runId, e, live);
    match FindRun(s.history, runId)
    case Some(at) => ArchivedReturnsNothing(s, e, at);
    case None => ActiveReturnsNothing(s, runId, e, live);
  }

  lemma {:induction false} TellHolds(s: State, runId: string, e: Command, live: bool, o: Owned)
    requires IdleHasNoEvents(s) && Transition(s, runId, e, live).Accepted? && (Held(s, o) || o == Owned(runId, e))
    ensures Held(Transition(s, runId, e, live).state, o)
  {
    var t := Transition(s, runId, e, live).state;
    OwnedGrowsByOne(s, runId, e, live);
    StillIn(s, t, multiset{Owned(runId, e)}, o);
    TellShape(s, runId, e, live);
    if !Held(s, o) {
      NewIsNotRemovable(s, o);
    }
    forall i | 0 <= i < |t.history| ensures !RemovableAt(t, i, o) {
      if i < |s.history| && t.history[i] == s.history[i] {
        assert !RemovableAt(s, i, o);
      }
    }
  }

  lemma {:induction false} NewIsNotRemovable(s: State, o: Owned)
    requires FindKey(AllOwned(s), o.event.key) == None
    ensures forall i :: 0 <= i < |s.history| ==> !RemovableAt(s, i, o)
  {
    FindKeyMeans(AllOwned(s), o.event.key);
    forall i | 0 <= i < |s.history| ensures !RemovableAt(s, i, o) {
      if o.event in s.history[i].events {
        HistoryIsOwned(s.history, i, o.event);
        assert Owned(s.history[i].run.id, o.event) in AllOwned(s);
      }
    }
  }

  lemma {:induction false} SameHistoryHolds(s: State, t: State, o: Owned)
    requires Held(s, o) && t.history == s.history && AllOwned(t) == AllOwned(s)
    ensures Held(t, o)
  {
    forall i | 0 <= i < |t.history| ensures !RemovableAt(t, i, o) {
      assert !RemovableAt(s, i, o);
    }
  }

  /** A new live archive that ends in another event leaves an event held. */
  lemma {:induction false} ArchiveHolds(s: State, t: State, a: Archived, o: Owned)
    requires Held(s, o) && t.history == s.history + [a] && o in AllOwned(t)
    requires EndsInRevision(a.events) ==> o != Owned(a.run.id, a.events[|a.events| - 1])
    ensures Held(t, o)
  {
    forall i | 0 <= i < |t.history| ensures !RemovableAt(t, i, o) {
      if i < |s.history| {
        assert t.history[i] == s.history[i] && !RemovableAt(s, i, o);
      }
    }
  }

  lemma {:induction false} StopHolds(s: State, o: Owned)
    requires KeysOk(s) && Held(s, o)
    ensures KeysOk(StopState(s)) && Held(StopState(s), o)
  {
    StopShape(s);
    if Stops(s) {
      var stop := Owned(s.execution.value.id, StopCommand(s.execution.value.id));
      StopOwns(s);
      StillIn(s, StopState(s), multiset{stop}, o);
      FindKeyMeans(AllOwned(s), stop.event.key);
      ArchiveHolds(s, StopState(s), Archived(s.execution.value, StoppedLog(s), true), o);
    }
  }

  lemma {:induction false} ResumedHolds(s: State, at: nat, tasks: seq<Task>, added: seq<Command>, events: seq<Command>, o: Owned)
    requires KeysOk(s) && Held(s, o) && ResumedLog(s, at, tasks, added, events) && AddedOk(s, added)
    ensures KeysOk(WithLog(s, at, events)) && Held(WithLog(s, at, events), o)
  {
    var t, a := WithLog(s, at, events), s.history[at];
    var revision := Owned(a.run.id, a.events[|a.events| - 1]);
    ResumeKeepsKeys(s, at, tasks, added, events);
    ResumeOwns(s, at, tasks, added, events);
    assert RemovableAt(s, at, revision) && o != revision;
    assert o in multiset(AllOwned(s));
    assert (multiset(AllOwned(t)) + multiset{revision})[o] > 0;
    assert o in multiset(AllOwned(t));
    forall i | 0 <= i < |t.history| ensures !RemovableAt(t, i, o) {
      if i != at {
        assert t.history[i] == s.history[i] && !RemovableAt(s, i, o);
      } else if EndsInRevision(events) {
        ResumedEnd(s, at, tasks, added, events);
      }
    }
  }

  lemma {:induction false} ResumedEnd(s: State, at: nat, tasks: seq<Task>, added: seq<Command>, events: seq<Command>)
    requires ResumedLog(s, at, tasks, added, events) && AddedOk(s, added) && EndsInRevision(events)
    ensures events[|events| - 1] == s.history[at].events[|s.history[at].events| - 1]
  {
    var base := FrontOf(s.history[at].events) + added;
    assert base[|base| - 1] == added[|added| - 1];
  }

  lemma {:induction false} ResumeHolds(p: Plan, runId: string, taskId: string, buildId: string, outcome: TaskOutcome, o: Owned)
    requires KeysOk(p.state) && Held(p.state, o)
    ensures var q := Do(p, Resume(runId, taskId, buildId, outcome)); KeysOk(q.state) && Held(q.state, o)
  {
    match Resumed(p, runId, taskId, buildId, outcome)
    case None => ResumeNothing(p, runId, taskId, buildId, outcome);
    case Some((at, events)) =>
      var tasks, added := ResumedMeans(p, runId, taskId, buildId, outcome);
      ResumeDoes(p, runId, taskId, buildId, outcome, at, events);
      ResumedHolds(p.state, at, tasks, added, events, o);
  }

  lemma {:induction false} RebuildHolds(p: Plan, report: RebuildReport, o: Owned)
    requires KeysOk(p.state) && Held(p.state, o) && (Rebuilds(p, report) ==> FreshRebuild(p, report))
    ensures var q := Do(p, Rebuild(report)); KeysOk(q.state) && Held(q.state, o)
  {
    RebuildDoes(p, report);
    if Rebuilds(p, report) {
      var t := RebuildState(p, report);
      RebuildShape(p, report);
      RebuildKeepsKeys(p, report);
      RebuildOwns(p, report);
      StillIn(p.state, t, multiset(OwnedBy(report.id, NewArchive(p, report).events)), o);
      RebuiltEnd(report, NewVersion(p, report).number);
      ArchiveHolds(p.state, t, NewArchive(p, report), o);
    }
  }

  lemma {:induction false} RebuiltEnd(report: RebuildReport, number: nat)
    ensures !EndsInRevision(RebuildLog(report, number, |report.urls|))
  {
    if report.urls != [] {
      var log := RebuildLog(report, number, |report.urls|);
      RebuildAt(report, number, |report.urls|, |log| - 1);
    }
  }

  lemma {:induction false} ClaimHolds(p: Plan, planRevision: nat, graphRevision: nat, run: Run)
    requires IdleHasNoEvents(p.state)
    ensures var t := ClaimState(p, planRevision, graphRevision, run);
            AllOwned(t) == AllOwned(p.state) && t.history == p.state.history && IdleHasNoEvents(t)
  {
    var t := ClaimState(p, planRevision, graphRevision, run);
    if t != p.state {
      ClaimedOwns(p.state, t, run);
    }
  }

  /** A named rebuild is new to the plan. */
  ghost predicate StepIsFresh(p: Plan, step: Step) {
    step.Rebuild? && Rebuilds(p, step.report) ==> FreshRebuild(p, step.report)
  }

  lemma {:induction false} DoHolds(p: Plan, step: Step, o: Owned)
    requires KeysOk(p.state) && Held(p.state, o) && StepIsFresh(p, step)
    ensures KeysOk(Do(p, step).state) && Held(Do(p, step).state, o)
  {
    match step
    case Tell(runId, e, live) =>
      DoTell(p, runId, e, live);
      if Transition(p.state, runId, e, live).Accepted? {
        OwnedGrowsByOne(p.state, runId, e, live);
        UniqueKeysGrow(p.state, runId, e, live);
        TellHolds(p.state, runId, e, live, o);
      }
    case Claim(planRevision, graphRevision, run) =>
      ClaimHolds(p, planRevision, graphRevision, run);
      SameHistoryHolds(p.state, Do(p, step).state, o);
    case Stop => StopHolds(p.state, o);
    case Resume(runId, taskId, buildId, outcome) => ResumeHolds(p, runId, taskId, buildId, outcome, o);
    case Rebuild(report) => RebuildHolds(p, report, o);
    case EditDocument =>
    case Revise(planRevision, graphRevision, tasks) => SameHistoryHolds(p.state, Do(p, step).state, o);
    case Approve => SameHistoryHolds(p.state, Do(p, step).state, o);
  }

  lemma {:induction false} KeysStayOk(p: Plan, step: Step)
    requires KeysOk(p.state) && StepIsFresh(p, step)
    ensures KeysOk(Do(p, step).state)
  {
    match step
    case Tell(runId, e, live) =>
      DoTell(p, runId, e, live);
      if Transition(p.state, runId, e, live).Accepted? {
        OwnedGrowsByOne(p.state, runId, e, live);
        UniqueKeysGrow(p.state, runId, e, live);
      }
    case Claim(planRevision, graphRevision, run) => ClaimHolds(p, planRevision, graphRevision, run);
    case Stop =>
      StopShape(p.state);
      if Stops(p.state) {
        StopOwns(p.state);
      }
    case Resume(runId, taskId, buildId, outcome) => ResumeKeepsKeysOk(p, runId, taskId, buildId, outcome);
    case Rebuild(report) =>
      RebuildDoes(p, report);
      if Rebuilds(p, report) {
        RebuildKeepsKeys(p, report);
      }
    case EditDocument =>
    case Revise(planRevision, graphRevision, tasks) =>
      assert AllOwned(Do(p, step).state) == AllOwned(p.state);
    case Approve =>
      assert AllOwned(Do(p, step).state) == AllOwned(p.state);
  }

  lemma {:induction false} ResumeKeepsKeysOk(p: Plan, runId: string, taskId: string, buildId: string, outcome: TaskOutcome)
    requires KeysOk(p.state)
    ensures KeysOk(Do(p, Resume(runId, taskId, buildId, outcome)).state)
  {
    match Resumed(p, runId, taskId, buildId, outcome)
    case None => ResumeNothing(p, runId, taskId, buildId, outcome);
    case Some((at, events)) =>
      var tasks, added := ResumedMeans(p, runId, taskId, buildId, outcome);
      ResumeDoes(p, runId, taskId, buildId, outcome, at, events);
      ResumeKeepsKeys(p.state, at, tasks, added, events);
  }

  /** The assumption on build ids: every rebuild is named afresh. */
  ghost predicate RebuildsAreFresh(steps: seq<Step>) {
    forall n :: 0 <= n < |steps| ==> StepIsFresh(After(steps[..n]), steps[n])
  }

  lemma {:induction false} KeysAlwaysOk(steps: seq<Step>, n: nat)
    requires n <= |steps| && RebuildsAreFresh(steps)
    ensures KeysOk(After(steps[..n]).state)
  {
    if n > 0 {
      KeysAlwaysOk(steps, n - 1);
      AfterNext(steps, n - 1);
      KeysStayOk(After(steps[..n - 1]), steps[n - 1]);
    } else {
      assert AllOwned(NEW.state) == [];
    }
  }

  lemma {:induction false} HeldNext(steps: seq<Step>, n: nat, o: Owned)
    requires n < |steps| && RebuildsAreFresh(steps) && Held(After(steps[..n]).state, o)
    ensures Held(After(steps[..n + 1]).state, o)
  {
    KeysAlwaysOk(steps, n);
    AfterNext(steps, n);
    assert StepIsFresh(After(steps[..n]), steps[n]);
    DoHolds(After(steps[..n]), steps[n], o);
  }

  lemma {:induction false} HeldForever(steps: seq<Step>, m: nat, n: nat, o: Owned)
    requires m <= n <= |steps| && RebuildsAreFresh(steps) && Held(After(steps[..m]).state, o)
    ensures Held(After(steps[..n]).state, o)
    decreases n
  {
    if m < n {
      HeldForever(steps, m, n - 1, o);
      HeldNext(steps, n - 1, o);
    }
  }

  /**
   * Once a report was accepted, sending it again at any later point of any life of the plan, across
   * revisions, claims, releases, stops, resumes and rebuilds, is answered as a replay and changes nothing;
   * another report under its key is refused.
   */
  lemma {:induction false} AcceptedReportsAreAppliedOnce(steps: seq<Step>, i: nat, other: Command, live: bool)
    requires i < |steps| && steps[i].Tell? && RebuildsAreFresh(steps)
    requires Transition(After(steps[..i]).state, steps[i].runId, steps[i].command, steps[i].live).Accepted?
    ensures var s := After(steps).state;
            Transition(s, steps[i].runId, steps[i].command, live) == Replayed(s)
            && (other.key == steps[i].command.key && other != steps[i].command
                ==> Transition(s, steps[i].runId, other, live) == Refused("idempotency-conflict"))
  {
    var p, step := After(steps[..i]), steps[i];
    KeysAlwaysOk(steps, i);
    AfterNext(steps, i);
    DoTell(p, step.runId, step.command, step.live);
    TellHolds(p.state, step.runId, step.command, step.live, Owned(step.runId, step.command));
    TransitionCases(p.state, step.runId, step.command, step.live);
    HeldForever(steps, i + 1, |steps|, Owned(step.runId, step.command));
    KeysAlwaysOk(steps, |steps|);
    assert steps[..|steps|] == steps;
    OwnedIsReplayed(After(steps).state, step.runId, step.command, other, live);
  }
}
