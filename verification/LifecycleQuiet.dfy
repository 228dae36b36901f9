/**
 * Live runs (apps/server/src/tasks/lifecycle.ts:412-430 and 787-876): a run that was reported while it was
 * not live is settled by a later live report. Which logs can be folded again as live ones, and which
 * live report archives a log that cannot.
 */
module LifecycleQuiet {
  import opened Text
  import opened Lifecycle
  import opened LifecycleLogs
  import opened LifecyclePlans
  import opened LifecycleReplay
  import opened LifecycleRuns

  // ----- which released runs restore

  ghost predicate SettledBy(tasks: seq<Task>, run: Run, log: seq<Command>) {
    log != [] && Fold(tasks, run, log, false).Accept? && AllDone(Fold(tasks, run, log, false).state.progress)
  }

  /** A report of a task's own pull request, as the log before it stands. */
  ghost predicate OwnReport(tasks: seq<Task>, run: Run, before: seq<Command>, e: Command) {
    e.ReportPr? && Fold(tasks, run, before, false).Accept?
    && IsOwn(Fold(tasks, run, before, false).state.progress, e.taskId, e.url)
  }

  /** The task is complete with exactly this pull request. */
  predicate IsOwn(progress: seq<TaskProgress>, taskId: string, url: string) {
    var at := IndexOf(progress, taskId);
    at.Some? && at.value < |progress| && progress[at.value].Completed? && progress[at.value].request.url == url
  }

  /** After every task was done, nothing followed but reports of the tasks' own pull requests. */
  ghost predicate Quiet(tasks: seq<Task>, run: Run, log: seq<Command>) {
    forall j :: 0 <= j < |log| && SettledBy(tasks, run, log[..j]) ==> OwnReport(tasks, run, log[..j], log[j])
  }

  /** Two views of done tasks that differ at most in the unmerged states of their pull requests. */
  ghost predicate SameDelivery(p: seq<TaskProgress>, q: seq<TaskProgress>) {
    |p| == |q|
    && forall i :: 0 <= i < |p| ==>
         p[i].id == q[i].id && p[i].Done() && q[i].Done() && (p[i].Completed? <==> q[i].Completed?)
         && (p[i].Completed? ==> p[i].request.url == q[i].request.url && (p[i].request.state == Merged <==> q[i].request.state == Merged))
  }

  /** How the live fold of a log stands to its plain fold. */
  ghost predicate Follows(tasks: seq<Task>, run: Run, log: seq<Command>) {
    Fold(tasks, run, log, false).Accept? && Fold(tasks, run, log, true).Accept?
    && var plain, live := Fold(tasks, run, log, false).state, Fold(tasks, run, log, true).state;
       if SettledBy(tasks, run, log) then
         (live.phase == Implemented || live.phase == Delivered || live.phase == RevisionRequested)
         && (live.phase == RevisionRequested ==> plain.phase == RevisionRequested) && SameDelivery(plain.progress, live.progress)
       else live == plain
  }

  lemma {:induction false} QuietSnoc(tasks: seq<Task>, run: Run, log: seq<Command>, e: Command)
    ensures Quiet(tasks, run, log + [e])
            <==> Quiet(tasks, run, log) && (SettledBy(tasks, run, log) ==> OwnReport(tasks, run, log, e))
  {
    var all := log + [e];
    assert all[..|log|] == log && all[|log|] == e;
    assert forall j :: 0 <= j < |log| ==> all[..j] == log[..j] && all[j] == log[j];
    if Quiet(tasks, run, all) {
      assert SettledBy(tasks, run, all[..|log|]) ==> OwnReport(tasks, run, all[..|log|], all[|log|]);
      forall j | 0 <= j < |log| && SettledBy(tasks, run, log[..j]) ensures OwnReport(tasks, run, log[..j], log[j]) {
        assert SettledBy(tasks, run, all[..j]);
      }
    }
  }

  lemma {:induction false} SameIndex(p: seq<TaskProgress>, q: seq<TaskProgress>, id: string)
    requires |p| == |q| && forall i :: 0 <= i < |p| ==> p[i].id == q[i].id
    ensures IndexOf(p, id) == IndexOf(q, id)
  {
    IndexOfIsFirst(p, id);
    IndexOfIsFirst(q, id);
  }

  lemma {:induction false} SameMerged(p: seq<TaskProgress>, q: seq<TaskProgress>, url: string)
    requires SameDelivery(p, q)
    ensures AnyMerged(p, url) <==> AnyMerged(q, url)
  {
    forall i | 0 <= i < |p| ensures p[i].Pr() == Some(PullRequest(url, Merged)) <==> q[i].Pr() == Some(PullRequest(url, Merged)) {
    }
  }

  /** A report after settling, while the plain fold is still active. */
  lemma {:induction false} ActiveReportAgrees(tasks: seq<Task>, run: Run, plain: Reduced, live: Reduced, e: Command)
    requires LogOk(tasks, plain) && LogOk(tasks, live) && SameDelivery(plain.progress, live.progress) && plain.phase == Active
    requires e.ReportPr? && ReduceTask(plain, tasks, run, e, false).Accept?
    ensures ReduceTerminal(live, run, e).Accept? <==> IsOwn(plain.progress, e.taskId, e.url)
    ensures ReduceTerminal(live, run, e).Accept? ==>
              SameDelivery(ReduceTask(plain, tasks, run, e, false).state.progress, ReduceTerminal(live, run, e).state.progress)
  {
    SameIndex(plain.progress, live.progress, e.taskId);
    SameMerged(plain.progress, live.progress, e.url);
    var at := ReduceTaskAt(tasks, plain, run, e, false);
    if ReduceTerminal(live, run, e).Accept? {
      OwnReportsAgree(plain.progress, ReduceTask(plain, tasks, run, e, false).state.progress, live.progress, at, e.url, e.state);
    }
  }

  /** A report after settling, once the plain fold was reviewed as well. */
  lemma {:induction false} ReviewedReportAgrees(run: Run, plain: Reduced, live: Reduced, e: Command)
    requires SameDelivery(plain.progress, live.progress) && e.ReportPr? && ReduceTerminal(plain, run, e).Accept?
    ensures ReduceTerminal(live, run, e).Accept? && IsOwn(plain.progress, e.taskId, e.url)
    ensures SameDelivery(ReduceTerminal(plain, run, e).state.progress, ReduceTerminal(live, run, e).state.progress)
  {
    SameIndex(plain.progress, live.progress, e.taskId);
    IndexOfIsFirst(plain.progress, e.taskId);
    SameMerged(plain.progress, live.progress, e.url);
    SetCompletedAt(plain.progress, e.url, e.state);
    SetCompletedAt(live.progress, e.url, e.state);
  }

  /** An event after settling is accepted by the live fold exactly when it is an own report. */
  lemma {:induction false} SettledStep(tasks: seq<Task>, run: Run, plain: Reduced, live: Reduced, e: Command)
    requires LogOk(tasks, plain) && LogOk(tasks, live) && SameDelivery(plain.progress, live.progress)
    requires live.phase == Implemented || live.phase == Delivered
    requires Reduce(plain, tasks, run, e, false).Accept?
    ensures Reduce(live, tasks, run, e, true).Accept? <==> e.ReportPr? && IsOwn(plain.progress, e.taskId, e.url)
    ensures Reduce(live, tasks, run, e, true).Accept? ==>
              SameDelivery(Reduce(plain, tasks, run, e, false).state.progress, Reduce(live, tasks, run, e, true).state.progress)
  {
    if e.ReportPr? {
      if plain.phase == Active {
        ActiveReportAgrees(tasks, run, plain, live, e);
      } else {
        ReviewedReportAgrees(run, plain, live, e);
      }
    }
  }

  lemma {:induction false} OwnReportsAgree(p: seq<TaskProgress>, q: seq<TaskProgress>, live: seq<TaskProgress>, at: nat, url: string, state: PrState)
    requires SameDelivery(p, live) && |q| == |p| && at < |p| && p[at].Completed? && p[at].request.url == url
    requires AnyMerged(p, url) ==> state == Merged
    requires q[at] == p[at].WithPr(PullRequest(url, state))
    requires forall i :: 0 <= i < |p| && i != at ==>
               q[i] == if state == Merged && p[i].Has(url) then p[i].WithPr(PullRequest(url, Merged)) else p[i]
    ensures SameDelivery(q, SetCompleted(live, url, state))
  {
    SetCompletedAt(live, url, state);
    assert state != Merged ==> forall i :: 0 <= i < |p| ==> p[i].Pr() != Some(PullRequest(url, Merged));
  }

  /** Exactly the quiet logs fold as live logs, and then with the same delivery. */
  lemma {:induction false} QuietLogsFoldLive(tasks: seq<Task>, run: Run, log: seq<Command>)
    requires Fold(tasks, run, log, false).Accept? && forall i :: 0 <= i < |log| ==> !log[i].RequestRevision?
    ensures Fold(tasks, run, log, true).Accept? <==> Quiet(tasks, run, log)
    ensures Quiet(tasks, run, log) ==> Follows(tasks, run, log)
  {
    if log != [] {
      var front, e := log[..|log| - 1], log[|log| - 1];
      assert log == front + [e];
      QuietLogsFoldLive(tasks, run, front);
      QuietSnoc(tasks, run, front, e);
      if Quiet(tasks, run, front) {
        QuietStep(tasks, run, front, e);
      }
    }
  }

  lemma {:induction false} QuietStep(tasks: seq<Task>, run: Run, front: seq<Command>, e: Command)
    requires Fold(tasks, run, front + [e], false).Accept? && !e.RequestRevision? && Follows(tasks, run, front)
    ensures Fold(tasks, run, front + [e], true).Accept? <==> (SettledBy(tasks, run, front) ==> OwnReport(tasks, run, front, e))
    ensures Fold(tasks, run, front + [e], true).Accept? ==> Follows(tasks, run, front + [e])
  {
    var plain, live := Fold(tasks, run, front, false).state, Fold(tasks, run, front, true).state;
    LogsAreOk(tasks, run, front, false);
    LogsAreOk(tasks, run, front, true);
    FoldSnoc(tasks, run, front, e, false);
    FoldSnoc(tasks, run, front, e, true);
    assert plain.phase != RevisionRequested;
    if SettledBy(tasks, run, front) {
      SettledStep(tasks, run, plain, live, e);
      if Reduce(live, tasks, run, e, true).Accept? {
        ReduceKeepsLogOk(tasks, live, run, e, true);
      }
    } else {
      LiveAgreesWithPlain(plain, tasks, run, e);
      ReduceKeepsLogOk(tasks, plain, run, e, false);
    }
  }

  lemma {:induction false} NoRevisionStep(tasks: seq<Task>, s: Reduced, run: Run, e: Command)
    requires Reduce(s, tasks, run, e, false).Accept? && Reduce(s, tasks, run, e, false).state.phase != RevisionRequested
    ensures s.phase != RevisionRequested && !e.RequestRevision?
  {
  }

  /** The log of a run that was not returned holds no revision request. */
  lemma {:induction false} NoRevisionInLog(tasks: seq<Task>, run: Run, log: seq<Command>)
    requires Fold(tasks, run, log, false).Accept? && Fold(tasks, run, log, false).state.phase != RevisionRequested
    ensures forall i :: 0 <= i < |log| ==> !log[i].RequestRevision?
  {
    if log != [] {
      var front, e := log[..|log| - 1], log[|log| - 1];
      assert log == front + [e];
      FoldSnoc(tasks, run, front, e, false);
      NoRevisionStep(tasks, Fold(tasks, run, front, false).state, run, e);
      NoRevisionInLog(tasks, run, front);
      assert forall i :: 0 <= i < |front| ==> log[i] == front[i];
    }
  }

  // ----- live releases

  /** What a report on the active run has to pass before it is reduced. */
  predicate Admitted(s: State, runId: string, e: Command) {
    s.execution.Some? && s.execution.value.id == runId && IsText(runId) && IsText(e.key)
    && FindKey(AllOwned(s), e.key).None? && FindRun(s.history, runId).None?
    && ActiveVersion(s.graph, s.execution.value).Some?
  }

  /** A live report after which every task is done. */
  predicate SettlesLive(s: State, runId: string, e: Command, live: bool) {
    live && Admitted(s, runId, e)
    && var tasks, run := ActiveVersion(s.graph, s.execution.value).value.tasks, s.execution.value;
       var plain := Fold(tasks, run, s.events.Or([]), false);
       plain.Accept? && plain.state.phase == Active
       && var next := Reduce(plain.state, tasks, run, e, false);
          next.Accept? && next.state.phase == Active && AllDone(next.state.progress)
  }

  /** The report ends the run as a live one. */
  predicate ReleasesLive(s: State, runId: string, e: Command, live: bool) {
    match Transition(s, runId, e, live)
    case Accepted(t) =>
      s.execution.Some? && t.execution.None? && |t.history| == |s.history| + 1 && t.history[|s.history|].live
    case _ => false
  }

  lemma {:induction false} AdmittedIsActive(s: State, runId: string, e: Command, live: bool)
    requires Admitted(s, runId, e)
    ensures Transition(s, runId, e, live) == TransitionActive(s, runId, e, live)
  {}

  /** What an admitted report that the plain fold accepts makes of the plan. */
  lemma {:induction false} AdmittedTells(s: State, runId: string, e: Command, live: bool, x: Reduced, y: Reduced)
    requires Admitted(s, runId, e) && x.phase == Active
    requires var tasks, run := ActiveVersion(s.graph, s.execution.value).value.tasks, s.execution.value;
             Fold(tasks, run, s.events.Or([]), false) == Accept(x) && Reduce(x, tasks, run, e, false) == Accept(y)
    ensures var events := s.events.Or([]) + [e];
            Transition(s, runId, e, live)
            == Accepted(if y.phase != Active then Released(s, s.execution.value, events, false)
                        else if live && Settled(y).phase != Active then Released(s, s.execution.value, events, true)
                        else s.(events := Some(events)))
  {
    AdmittedIsActive(s, runId, e, live);
  }

  /** Only a report on the active run ends it. */
  lemma {:induction false} ReleaseIsActive(s: State, runId: string, e: Command, live: bool)
    requires Transition(s, runId, e, live).Accepted? && s.execution.Some? && Transition(s, runId, e, live).state.execution.None?
    ensures Transition(s, runId, e, live) == TransitionActive(s, runId, e, live) && Admitted(s, runId, e)
  {
    TransitionCases(s, runId, e, live);
    match FindRun(s.history, runId)
    case Some(at) => ArchivedShape(s, e, at);
    case None =>
      var v := ActiveLog(s, runId, e, live);
      ActiveShape(s, runId, e, live);
  }

  /** A report ends the run as a live one exactly under the guards a caller can check beforehand. */
  lemma {:induction false} ReleasesLiveExactly(s: State, runId: string, e: Command, live: bool)
    ensures ReleasesLive(s, runId, e, live) <==> SettlesLive(s, runId, e, live)
    ensures SettlesLive(s, runId, e, live) ==>
              Transition(s, runId, e, live) == Accepted(Released(s, s.execution.value, s.events.Or([]) + [e], true))
  {
    if SettlesLive(s, runId, e, live) {
      AdmittedIsActive(s, runId, e, live);
    }
    if ReleasesLive(s, runId, e, live) {
      ReleaseIsActive(s, runId, e, live);
      var v := ActiveLog(s, runId, e, live);
    }
  }

  /** A live release of a log on which something other than a report of an own pull request followed its first completion. */
  ghost predicate SettlesNoisily(s: State, runId: string, e: Command, live: bool) {
    SettlesLive(s, runId, e, live)
    && !Quiet(ActiveVersion(s.graph, s.execution.value).value.tasks, s.execution.value, s.events.Or([]) + [e])
  }

  lemma {:induction false} SettledLogFolds(s: State, runId: string, e: Command, live: bool)
    requires SettlesLive(s, runId, e, live)
    ensures var tasks, run, log := ActiveVersion(s.graph, s.execution.value).value.tasks, s.execution.value, s.events.Or([]) + [e];
            Fold(tasks, run, log, false).Accept? && Fold(tasks, run, log, false).state.phase == Active
            && (Fold(tasks, run, log, true).Accept? <==> Quiet(tasks, run, log))
  {
    var tasks, run, log := ActiveVersion(s.graph, s.execution.value).value.tasks, s.execution.value, s.events.Or([]) + [e];
    FoldSnoc(tasks, run, s.events.Or([]), e, false);
    NoRevisionInLog(tasks, run, log);
    QuietLogsFoldLive(tasks, run, log);
  }

  /** The release that cannot be folded again is exactly the noisy one. */
  lemma {:induction false} UnfoldableExactlyWhenNotQuiet(s: State, runId: string, e: Command, live: bool)
    ensures ReleasesUnfoldable(s, runId, e, live) <==> SettlesNoisily(s, runId, e, live)
  {
    ReleasesLiveExactly(s, runId, e, live);
    if SettlesLive(s, runId, e, live) {
      SettledLogFolds(s, runId, e, live);
    } else if ReleasesUnfoldable(s, runId, e, live) {
      UnfoldableIsLive(s, runId, e, live);
    }
  }

  lemma {:induction false} UnfoldableIsLive(s: State, runId: string, e: Command, live: bool)
    requires ReleasesUnfoldable(s, runId, e, live)
    ensures ReleasesLive(s, runId, e, live)
  {
    ReleaseIsActive(s, runId, e, live);
    ActiveShape(s, runId, e, live);
  }

  lemma {:induction false} LostRelease(s: State, t: State, v: Version, run: Run, log: seq<Command>)
    requires Numbered(s.graph) && s.graph != [] && ActiveVersion(s.graph, run) == Some(v) && t == Released(s, run, log, true)
    requires Fold(v.tasks, run, log, true).Refuse?
    ensures |t.history| > |s.history| && !RestorableRun(t.graph, t.history[|s.history|])
  {
    assert Numbered(t.graph);
    VersionByNumber(t.graph, run, |s.graph| - 1);
    assert t.history[|s.history|] == Archived(run, log, true);
  }

  lemma {:induction false} UnfoldedIsLost(revision: nat, s: State, v: Version, run: Run, log: seq<Command>)
    requires GraphRestores(s.graph) && ActiveVersion(s.graph, run) == Some(v) && Fold(v.tasks, run, log, true).Refuse?
    ensures !Restores(Plan(revision, Released(s, run, log, true)))
  {
    NumbersOf(s.graph);
    LostRelease(s, Released(s, run, log, true), v, run, log);
    LostRun(Plan(revision, Released(s, run, log, true)), |s.history|);
  }

  lemma {:induction false} DoTell(p: Plan, runId: string, e: Command, live: bool)
    ensures Do(p, Tell(runId, e, live))
            == if Transition(p.state, runId, e, live).Accepted? then p.(state := Transition(p.state, runId, e, live).state) else p
  {}

  /** A noisy live release cannot be read back. */
  lemma {:induction false} NoisyReleaseIsLost(p: Plan, runId: string, e: Command, live: bool)
    requires GraphRestores(p.state.graph) && SettlesNoisily(p.state, runId, e, live)
    ensures !Restores(Do(p, Tell(runId, e, live)))
  {
    var s := p.state;
    ReleasesLiveExactly(s, runId, e, live);
    SettledLogFolds(s, runId, e, live);
    UnfoldedIsLost(p.revision, s, ActiveVersion(s.graph, s.execution.value).value, s.execution.value, s.events.Or([]) + [e]);
    DoTell(p, runId, e, live);
  }

  lemma {:induction false} LostRun(p: Plan, i: nat)
    requires i < |p.state.history| && p.state.graph != [] && !RestorableRun(p.state.graph, p.state.history[i])
    ensures !Restores(p)
  {}

  lemma {:induction false} NumbersOf(graph: seq<Version>)
    requires GraphRestores(graph)
    ensures Numbered(graph)
  {
    forall i | 0 <= i < |graph| ensures graph[i].number == i + 1 {
      assert VersionOk(graph[i], i, |graph|);
    }
  }

  /** A report leaves a restorable plan restorable exactly when it is not a noisy live release. */
  lemma {:induction false} ReportKeepsRestorable(p: Plan, runId: string, e: Command, live: bool)
    requires PlanOk(p)
    ensures Restores(Do(p, Tell(runId, e, live))) <==> !SettlesNoisily(p.state, runId, e, live)
    ensures !SettlesNoisily(p.state, runId, e, live) ==> PlanOk(Do(p, Tell(runId, e, live)))
  {
    UnfoldableExactlyWhenNotQuiet(p.state, runId, e, live);
    if SettlesNoisily(p.state, runId, e, live) {
      NoisyReleaseIsLost(p, runId, e, live);
    } else {
      TellKeepsPlanOk(p, runId, e, live);
    }
  }
}
