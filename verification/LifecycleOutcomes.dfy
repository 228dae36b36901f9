/**
 * What the outcome of one outstanding task makes of a stopped log (apps/server/src/tasks/builds.ts:718-757):
 * whether its events are accepted and complete the run, decided by the progress before them.
 */
module LifecycleOutcomes {
  import opened Text
  import opened Lifecycle
  import opened LifecycleLogs
  import opened LifecyclePlans
  import opened LifecycleRuns

  function ExistingUrl(item: TaskProgress): Option<string> {
    if item.Pr().Some? then Some(item.Pr().value.url) else None
  }

  /** The pull request a finished task ends up with. */
  function FinalUrl(item: TaskProgress, outcome: TaskOutcome): Option<string>
    requires outcome.Finished?
  {
    if outcome.pullRequest.Some? then outcome.pullRequest else ExistingUrl(item)
  }

  predicate OthersDone(progress: seq<TaskProgress>, at: nat) {
    forall j :: 0 <= j < |progress| && j != at ==> progress[j].Done()
  }

  predicate DependenciesDone(progress: seq<TaskProgress>, task: Task) {
    forall k :: 0 <= k < |task.dependsOn| ==> IsDone(progress, task.dependsOn[k])
  }

  /** The task can be completed as reported: it may start, its pull request may be reported, and the summary is given. */
  predicate Completable(run: Run, progress: seq<TaskProgress>, task: Task, item: TaskProgress, outcome: TaskOutcome)
    requires outcome.Finished?
  {
    var url := FinalUrl(item, outcome);
    && !item.Done() && (item.InProgress? || DependenciesDone(progress, task))
    && url.Or("") != ""
    && (url != ExistingUrl(item) ==> OwnPullRequest(run.repository, url.value) && !AnyMerged(progress, url.value))
    && IsText(outcome.summary)
  }

  /** The reported task is the last one outstanding, and it can be completed as reported. */
  predicate Finishes(tasks: seq<Task>, run: Run, progress: seq<TaskProgress>, taskId: string, outcome: TaskOutcome) {
    var at := IndexOf(progress, taskId);
    outcome.Finished? && at.Some? && at.value < |progress| && at.value < |tasks|
    && OthersDone(progress, at.value) && Completable(run, progress, tasks[at.value], progress[at.value], outcome)
  }

  // ----- single events

  lemma {:induction false} KeptIndex(progress: seq<TaskProgress>, at: nat, id: string, item: TaskProgress)
    requires IndexOf(progress, id) == Some(at) && at < |progress| && item.id == id
    ensures progress[at].id == id && IndexOf(progress[at := item], id) == Some(at)
  {
    var next := progress[at := item];
    IndexOfIsFirst(progress, id);
    IndexOfIsFirst(next, id);
    assert next[at].id == id && forall i :: 0 <= i < at ==> next[i] == progress[i];
  }

  lemma {:induction false} StartExactly(s: Reduced, tasks: seq<Task>, at: nat, run: Run, id: string, key: string)
    requires s.phase == Active && at < |tasks| == |s.progress| && IndexOf(s.progress, id) == Some(at)
    requires s.progress[at].Queued? || s.progress[at].Blocked?
    ensures var item := s.progress[at];
            Reduce(s, tasks, run, Start(id, key), true)
            == if DependenciesDone(s.progress, tasks[at]) then
                 Accept(s.(progress := s.progress[at := InProgress(item.id, if item.Blocked? then item.work else None)]))
               else Refuse("dependency")
  {}

  lemma {:induction false} ReportExactly(s: Reduced, tasks: seq<Task>, at: nat, run: Run, id: string, url: string, key: string)
    requires s.phase == Active && at < |tasks| == |s.progress| && IndexOf(s.progress, id) == Some(at) && s.progress[at].InProgress?
    ensures var r := Reduce(s, tasks, run, ReportPr(id, url, IsOpen, key), true);
            if OwnPullRequest(run.repository, url) && !AnyMerged(s.progress, url) then
              r == Accept(s.(progress := s.progress[at := InProgress(s.progress[at].id, Some(PullRequest(url, IsOpen)))]))
            else r.Refuse?
  {
    if OwnPullRequest(run.repository, url) {
      OwnIsText(run.repository, url);
    }
  }

  lemma {:induction false} CompleteExactly(s: Reduced, tasks: seq<Task>, at: nat, run: Run, id: string, summary: string, key: string)
    requires s.phase == Active && at < |tasks| == |s.progress| && IndexOf(s.progress, id) == Some(at)
    requires s.progress[at].InProgress? && s.progress[at].work.Some?
    ensures var item := s.progress[at];
            Reduce(s, tasks, run, Complete(id, summary, None, key), true)
            == if IsText(summary) then Accept(s.(progress := s.progress[at := Completed(item.id, summary, item.work.value)]))
               else Refuse("summary")
  {}

  lemma {:induction false} BlockStaysActive(s: Reduced, tasks: seq<Task>, run: Run, e: Command)
    requires s.phase == Active && e.Block? && Reduce(s, tasks, run, e, true).Accept?
    ensures Settled(Reduce(s, tasks, run, e, true).state).phase == Active
  {
    var t := Reduce(s, tasks, run, e, true).state;
    var at := IndexOf(s.progress, e.taskId).value;
    assert t.progress[at].Blocked?;
  }

  // ----- one task

  /** The progress with one task replaced. */
  function With(s: Reduced, at: nat, item: TaskProgress): Reduced
    requires at < |s.progress|
  {
    s.(progress := s.progress[at := item])
  }

  /** Neither starting a task nor leaving it alone changes which pull requests are merged. */
  lemma {:induction false} SameMergedWith(progress: seq<TaskProgress>, at: nat, item: TaskProgress, url: string)
    requires at < |progress| && item.Pr() == progress[at].Pr()
    ensures AnyMerged(progress[at := item], url) <==> AnyMerged(progress, url)
  {
    var next := progress[at := item];
    assert forall i :: 0 <= i < |progress| ==> next[i].Pr() == progress[i].Pr();
  }

  lemma {:induction false} StaysUnsettled(s: Reduced, at: nat, item: TaskProgress)
    requires at < |s.progress| && !item.Done()
    ensures Settled(With(s, at, item)) == With(s, at, item)
  {
    assert !With(s, at, item).progress[at].Done();
  }

  /** The log so far folds, live, to this state, or it is refused. */
  ghost predicate Leads(tasks: seq<Task>, run: Run, log: seq<Command>, ok: bool, s: Reduced) {
    var folded := Fold(tasks, run, log, true);
    if ok then folded == Accept(s) else folded.Refuse?
  }

  lemma {:induction false} StartLeads(tasks: seq<Task>, run: Run, log: seq<Command>, s: Reduced, at: nat, id: string, key: string)
    requires Leads(tasks, run, log, true, s)
    requires s.phase == Active && at < |tasks| == |s.progress| && IndexOf(s.progress, id) == Some(at) && !s.progress[at].Done()
    ensures var item := s.progress[at];
            Leads(tasks, run, log + (if item.InProgress? then [] else [Start(id, key)]),
                  item.InProgress? || DependenciesDone(s.progress, tasks[at]), With(s, at, InProgress(id, item.Pr())))
  {
    var item := s.progress[at];
    KeptIndex(s.progress, at, id, InProgress(id, item.Pr()));
    if item.InProgress? {
      assert log + [] == log && s.progress[at := InProgress(id, item.Pr())] == s.progress;
    } else {
      StartExactly(s, tasks, at, run, id, key);
      StaysUnsettled(s, at, InProgress(id, item.Pr()));
      FoldSnoc(tasks, run, log, Start(id, key), true);
    }
  }

  lemma {:induction false} ReportLeads(
      tasks: seq<Task>, run: Run, log: seq<Command>, ok: bool, s: Reduced, at: nat, id: string, work: Option<PullRequest>, url: string, key: string)
    requires Leads(tasks, run, log, ok, s)
    requires s.phase == Active && at < |tasks| == |s.progress| && IndexOf(s.progress, id) == Some(at) && s.progress[at] == InProgress(id, work)
    ensures var own := OwnPullRequest(run.repository, url) && !AnyMerged(s.progress, url);
            Leads(tasks, run, log + [ReportPr(id, url, IsOpen, key)], ok && own, With(s, at, InProgress(id, Some(PullRequest(url, IsOpen)))))
  {
    ReportExactly(s, tasks, at, run, id, url, key);
    StaysUnsettled(s, at, InProgress(id, Some(PullRequest(url, IsOpen))));
    FoldSnoc(tasks, run, log, ReportPr(id, url, IsOpen, key), true);
  }

  lemma {:induction false} CompleteLeads(
      tasks: seq<Task>, run: Run, log: seq<Command>, ok: bool, s: Reduced, at: nat, id: string, pr: PullRequest, summary: string, key: string)
    requires Leads(tasks, run, log, ok, s)
    requires s.phase == Active && at < |tasks| == |s.progress| && IndexOf(s.progress, id) == Some(at) && s.progress[at] == InProgress(id, Some(pr))
    ensures Leads(tasks, run, log + [Complete(id, summary, None, key)], ok && IsText(summary), Settled(With(s, at, Completed(id, summary, pr))))
  {
    CompleteExactly(s, tasks, at, run, id, summary, key);
    FoldSnoc(tasks, run, log, Complete(id, summary, None, key), true);
  }

  lemma {:induction false} SettlesWhenOthersDone(s: Reduced, at: nat, item: TaskProgress)
    requires s.phase == Active && at < |s.progress| && item.Done()
    ensures var t := Settled(With(s, at, item));
            (t.phase != Active <==> OthersDone(s.progress, at)) && t.phase != RevisionRequested
  {
    var progress := With(s, at, item).progress;
    if OthersDone(s.progress, at) {
      assert AllDone(progress);
    } else {
      var j :| 0 <= j < |s.progress| && j != at && !s.progress[j].Done();
      assert !progress[j].Done();
    }
  }

  /** Whether a log is accepted and its run complete. */
  predicate Completes(tasks: seq<Task>, run: Run, log: seq<Command>) {
    var folded := Fold(tasks, run, log, true);
    folded.Accept? && folded.state.phase != Active && folded.state.phase != RevisionRequested
  }

  /** The state once the pull request of the task is known. */
  lemma {:induction false} KnownLeads(
      tasks: seq<Task>, run: Run, log: seq<Command>, s: Reduced, at: nat, id: string, key: string, outcome: TaskOutcome)
    requires Leads(tasks, run, log, true, s) && outcome.Finished?
    requires s.phase == Active && at < |tasks| == |s.progress| && IndexOf(s.progress, id) == Some(at) && !s.progress[at].Done()
    requires FinalUrl(s.progress[at], outcome).Or("") != ""
    ensures var item := s.progress[at];
            var url, existing := FinalUrl(item, outcome), ExistingUrl(item);
            var pr := if url == existing then item.Pr().value else PullRequest(url.value, IsOpen);
            Leads(tasks, run,
                  log + (if item.InProgress? then [] else [Start(id, key + ":start")])
                      + (if url == existing then [] else [ReportPr(id, url.value, IsOpen, key + ":pr")]),
                  (item.InProgress? || DependenciesDone(s.progress, tasks[at]))
                  && (url != existing ==> OwnPullRequest(run.repository, url.value) && !AnyMerged(s.progress, url.value)),
                  With(s, at, InProgress(id, Some(pr))))
  {
    var item := s.progress[at];
    var url, existing := FinalUrl(item, outcome), ExistingUrl(item);
    var started := log + (if item.InProgress? then [] else [Start(id, key + ":start")]);
    StartLeads(tasks, run, log, s, at, id, key + ":start");
    if url == existing {
      assert started + [] == started;
    } else {
      var going := With(s, at, InProgress(id, item.Pr()));
      KeptIndex(s.progress, at, id, InProgress(id, item.Pr()));
      SameMergedWith(s.progress, at, InProgress(id, item.Pr()), url.value);
      ReportLeads(tasks, run, started, item.InProgress? || DependenciesDone(s.progress, tasks[at]), going, at, id, item.Pr(), url.value, key + ":pr");
      assert going.progress[at := InProgress(id, Some(PullRequest(url.value, IsOpen)))]
          == s.progress[at := InProgress(id, Some(PullRequest(url.value, IsOpen)))];
    }
  }

  /** The events of a finished task lead to its completion, or are refused. */
  lemma {:induction false} FinishedLeads(
      tasks: seq<Task>, run: Run, log: seq<Command>, s: Reduced, at: nat, id: string, key: string, outcome: TaskOutcome) returns (pr: PullRequest)
    requires Leads(tasks, run, log, true, s) && outcome.Finished?
    requires s.phase == Active && at < |tasks| == |s.progress| && IndexOf(s.progress, id) == Some(at) && !s.progress[at].Done()
    requires FinalUrl(s.progress[at], outcome).Or("") != ""
    ensures Leads(tasks, run, log + ResumeEvents(s.progress[at], id, key, outcome),
                  Completable(run, s.progress, tasks[at], s.progress[at], outcome), Settled(With(s, at, Completed(id, outcome.summary, pr))))
  {
    var item := s.progress[at];
    var url, existing := FinalUrl(item, outcome), ExistingUrl(item);
    pr := if url == existing then item.Pr().value else PullRequest(url.value, IsOpen);
    var start := if item.InProgress? then [] else [Start(id, key + ":start")];
    var report := if url == existing then [] else [ReportPr(id, url.value, IsOpen, key + ":pr")];
    var done := Complete(id, outcome.summary, None, key + ":done");
    var known := With(s, at, InProgress(id, Some(pr)));
    KnownLeads(tasks, run, log, s, at, id, key, outcome);
    KeptIndex(s.progress, at, id, InProgress(id, Some(pr)));
    var ok := (item.InProgress? || DependenciesDone(s.progress, tasks[at]))
              && (url != existing ==> OwnPullRequest(run.repository, url.value) && !AnyMerged(s.progress, url.value));
    CompleteLeads(tasks, run, log + start + report, ok, known, at, id, pr, outcome.summary, key + ":done");
    assert log + start + report + [done] == log + (start + report + [done]);
    assert With(known, at, Completed(id, outcome.summary, pr)) == With(s, at, Completed(id, outcome.summary, pr));
  }

  /** The events of a finished task complete the run exactly when it was the last one outstanding and can be completed. */
  lemma {:induction false} FinishedCompletes(
      tasks: seq<Task>, run: Run, log: seq<Command>, s: Reduced, at: nat, id: string, key: string, outcome: TaskOutcome)
    requires Leads(tasks, run, log, true, s) && outcome.Finished?
    requires s.phase == Active && at < |tasks| == |s.progress| && IndexOf(s.progress, id) == Some(at) && !s.progress[at].Done()
    requires FinalUrl(s.progress[at], outcome).Or("") != ""
    ensures Completes(tasks, run, log + ResumeEvents(s.progress[at], id, key, outcome)) <==> Finishes(tasks, run, s.progress, id, outcome)
  {
    var pr := FinishedLeads(tasks, run, log, s, at, id, key, outcome);
    SettlesWhenOthersDone(s, at, Completed(id, outcome.summary, pr));
  }

  /** The events of any outcome complete the run exactly when the task was the last one outstanding and can be completed. */
  lemma {:induction false} OutcomeCompletes(
      tasks: seq<Task>, run: Run, log: seq<Command>, s: Reduced, id: string, key: string, outcome: TaskOutcome)
    requires Leads(tasks, run, log, true, s) && s.phase == Active && |tasks| == |s.progress|
    requires IndexOf(s.progress, id).Some? && IndexOf(s.progress, id).value < |s.progress|
    requires ResumeEvents(s.progress[IndexOf(s.progress, id).value], id, key, outcome) != []
    ensures Completes(tasks, run, log + ResumeEvents(s.progress[IndexOf(s.progress, id).value], id, key, outcome))
            <==> Finishes(tasks, run, s.progress, id, outcome)
  {
    var at := IndexOf(s.progress, id).value;
    match outcome
    case StillBlocked(blocker) =>
      var e := Block(id, blocker, key + ":block");
      FoldSnoc(tasks, run, log, e, true);
      if Reduce(s, tasks, run, e, true).Accept? {
        BlockStaysActive(s, tasks, run, e);
      }
    case Finished(_, _) => FinishedCompletes(tasks, run, log, s, at, id, key, outcome);
  }
}
