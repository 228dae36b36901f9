/** What every accepted log of a run keeps: task identity, dependency order, and merged pull requests. */
module LifecycleLogs {
  import opened Text
  import opened Lifecycle

  // ----- pointwise views

  lemma {:induction false} SetStateAt(progress: seq<TaskProgress>, url: string, state: PrState)
    ensures |SetState(progress, url, state)| == |progress|
    ensures forall i :: 0 <= i < |progress| ==>
              SetState(progress, url, state)[i]
              == if progress[i].Has(url) then progress[i].WithPr(PullRequest(url, state)) else progress[i]
  {
    if progress != [] {
      SetStateAt(progress[1..], url, state);
    }
  }

  lemma {:induction false} SetCompletedAt(progress: seq<TaskProgress>, url: string, state: PrState)
    ensures |SetCompleted(progress, url, state)| == |progress|
    ensures forall i :: 0 <= i < |progress| ==>
              SetCompleted(progress, url, state)[i]
              == if progress[i].Completed? && progress[i].request.url == url
                 then progress[i].WithPr(PullRequest(url, state)) else progress[i]
  {
    if progress != [] {
      SetCompletedAt(progress[1..], url, state);
    }
  }

  lemma {:induction false} ReopenAt(progress: seq<TaskProgress>, work: seq<string>)
    ensures |Reopen(progress, work)| == |progress|
    ensures forall i :: 0 <= i < |progress| ==>
              Reopen(progress, work)[i]
              == if progress[i].id in work && progress[i].Done() then InProgress(progress[i].id, progress[i].Pr()) else progress[i]
  {
    if progress != [] {
      ReopenAt(progress[1..], work);
    }
  }

  lemma {:induction false} InitialAt(tasks: seq<Task>)
    ensures |InitialProgress(tasks)| == |tasks|
    ensures forall i :: 0 <= i < |tasks| ==> InitialProgress(tasks)[i] == Queued(tasks[i].id)
  {
    if tasks != [] {
      InitialAt(tasks[1..]);
    }
  }

  lemma {:induction false} IndexOfIsFirst(progress: seq<TaskProgress>, id: string)
    ensures match IndexOf(progress, id)
            case None => forall i :: 0 <= i < |progress| ==> progress[i].id != id
            case Some(k) => k < |progress| && progress[k].id == id && forall i :: 0 <= i < k ==> progress[i].id != id
  {
    if progress != [] {
      IndexOfIsFirst(progress[1..], id);
      assert forall i :: 1 <= i < |progress| ==> progress[1..][i - 1] == progress[i];
    }
  }

  // ----- the invariant of a log

  /** The progress lists the tasks of the version, in order. */
  ghost predicate Parallel(tasks: seq<Task>, progress: seq<TaskProgress>) {
    |progress| == |tasks| && forall i :: 0 <= i < |tasks| ==> progress[i].id == tasks[i].id
  }

  /** All tasks that share a merged pull request agree that it is merged. */
  ghost predicate MergedAgree(progress: seq<TaskProgress>) {
    forall i, j :: 0 <= i < |progress| && 0 <= j < |progress|
                   && progress[i].Pr().Some? && progress[j].Pr().Some?
                   && progress[i].Pr().value.url == progress[j].Pr().value.url && progress[i].Pr().value.state == Merged
                   ==> progress[j].Pr().value.state == Merged
  }

  /** A run is reviewed or settled only with every task done. */
  ghost predicate PhaseOk(s: Reduced) {
    (s.phase == Implemented || s.phase == Delivered ==> AllDone(s.progress) && s.phase == DeliveryPhase(s.progress))
  }

  ghost predicate LogOk(tasks: seq<Task>, s: Reduced) {
    Parallel(tasks, s.progress) && MergedAgree(s.progress) && PhaseOk(s)
  }

  lemma {:induction false} SetCompletedKeepsMerged(p: seq<TaskProgress>, url: string, state: PrState)
    requires MergedAgree(p) && AllDone(p) && (AnyMerged(p, url) ==> state == Merged)
    ensures MergedAgree(SetCompleted(p, url, state)) && AllDone(SetCompleted(p, url, state))
    ensures |SetCompleted(p, url, state)| == |p|
    ensures forall i :: 0 <= i < |p| ==> SetCompleted(p, url, state)[i].id == p[i].id
  {
    var q := SetCompleted(p, url, state);
    SetCompletedAt(p, url, state);
    assert forall i :: 0 <= i < |p| ==> q[i].Pr() == if p[i].Has(url) then Some(PullRequest(url, state)) else p[i].Pr();
    assert state != Merged ==> forall i :: 0 <= i < |p| ==> p[i].Pr() != Some(PullRequest(url, Merged));
  }

  lemma {:induction false} TerminalKeepsLogOk(tasks: seq<Task>, s: Reduced, run: Run, e: Command)
    requires LogOk(tasks, s) && (s.phase == Implemented || s.phase == Delivered) && ReduceTerminal(s, run, e).Accept?
    ensures LogOk(tasks, ReduceTerminal(s, run, e).state)
    ensures ReduceTerminal(s, run, e).state.phase == Implemented || ReduceTerminal(s, run, e).state.phase == Delivered
  {
    SetCompletedKeepsMerged(s.progress, e.url, e.state);
  }

  lemma {:induction false} ReviewKeepsLogOk(tasks: seq<Task>, s: Reduced, run: Run, report: Report)
    requires LogOk(tasks, s) && s.phase == Active && ReduceReview(s, tasks, run, report).Accept?
    ensures LogOk(tasks, ReduceReview(s, tasks, run, report).state)
  {
    ReviewRefusalMeans(s.progress, run);
    ReopenAt(s.progress, report.tasksNeedingWork);
  }

  /** A review is possible exactly when every task is done and every pull request is the repository's own and not closed. */
  lemma {:induction false} ReviewRefusalMeans(progress: seq<TaskProgress>, run: Run)
    ensures ReviewRefusal(progress, run) == ""
            <==> forall i :: 0 <= i < |progress| ==>
                   progress[i].Done()
                   && (progress[i].Completed? ==>
                         progress[i].request.state != Closed && OwnPullRequest(run.repository, progress[i].request.url))
  {
    if progress != [] {
      ReviewRefusalMeans(progress[1..], run);
      assert forall i :: 1 <= i < |progress| ==> progress[1..][i - 1] == progress[i];
    }
  }

  /** How one task command changes the progress. */
  lemma {:induction false} ReduceTaskAt(tasks: seq<Task>, s: Reduced, run: Run, e: Command, live: bool) returns (at: nat)
    requires Parallel(tasks, s.progress)
    requires (e.Start? || e.Block? || e.ReportPr? || e.Complete?) && ReduceTask(s, tasks, run, e, live).Accept?
    ensures at < |tasks| && IndexOf(s.progress, e.taskId) == Some(at)
    ensures NextItem(s, tasks[at], s.progress[at], run, e, live).Becomes?
    ensures var t := ReduceTask(s, tasks, run, e, live).state;
            t.phase == Active && |t.progress| == |tasks|
            && t.progress[at] == NextItem(s, tasks[at], s.progress[at], run, e, live).item
            && forall i :: 0 <= i < |tasks| && i != at ==>
                 t.progress[i] == if e.ReportPr? && e.state == Merged && s.progress[i].Has(e.url)
                                  then s.progress[i].WithPr(PullRequest(e.url, Merged)) else s.progress[i]
  {
    IndexOfIsFirst(s.progress, e.taskId);
    at := IndexOf(s.progress, e.taskId).value;
    if e.ReportPr? {
      SetStateAt(s.progress, e.url, Merged);
    }
  }

  lemma {:induction false} TaskKeepsAgreement(tasks: seq<Task>, s: Reduced, run: Run, e: Command, live: bool, at: nat, q: seq<TaskProgress>)
    requires Parallel(tasks, s.progress) && MergedAgree(s.progress) && at < |tasks| == |q|
    requires (e.Start? || e.Block? || e.ReportPr? || e.Complete?)
    requires NextItem(s, tasks[at], s.progress[at], run, e, live) == Becomes(q[at])
    requires forall i :: 0 <= i < |tasks| && i != at ==>
               q[i] == if e.ReportPr? && e.state == Merged && s.progress[i].Has(e.url)
                       then s.progress[i].WithPr(PullRequest(e.url, Merged)) else s.progress[i]
    ensures MergedAgree(q) && q[at].id == tasks[at].id
  {
    ItemKeepsId(s, tasks[at], s.progress[at], run, e, live);
    if e.ReportPr? {
      ReportKeepsMerged(s.progress, q, at, e.url, e.state);
    } else {
      DroppedKeepsMerged(s.progress, q);
    }
  }

  lemma {:induction false} TaskKeepsLogOk(tasks: seq<Task>, s: Reduced, run: Run, e: Command, live: bool)
    requires LogOk(tasks, s) && s.phase == Active
    requires (e.Start? || e.Block? || e.ReportPr? || e.Complete?) && ReduceTask(s, tasks, run, e, live).Accept?
    ensures LogOk(tasks, ReduceTask(s, tasks, run, e, live).state)
  {
    var at := ReduceTaskAt(tasks, s, run, e, live);
    TaskKeepsAgreement(tasks, s, run, e, live, at, ReduceTask(s, tasks, run, e, live).state.progress);
  }

  lemma {:induction false} ItemKeepsId(s: Reduced, task: Task, item: TaskProgress, run: Run, e: Command, live: bool)
    requires (e.Start? || e.Block? || e.ReportPr? || e.Complete?) && NextItem(s, task, item, run, e, live).Becomes?
    ensures var next := NextItem(s, task, item, run, e, live).item;
            next.id == item.id
            && (if e.ReportPr? then next.Pr() == Some(PullRequest(e.url, e.state)) && (AnyMerged(s.progress, e.url) ==> e.state == Merged)
                else next.Pr() == item.Pr() || next.Pr().None?)
  {}

  lemma {:induction false} DroppedKeepsMerged(p: seq<TaskProgress>, q: seq<TaskProgress>)
    requires MergedAgree(p) && |p| == |q| && forall i :: 0 <= i < |p| ==> q[i].Pr() == p[i].Pr() || q[i].Pr().None?
    ensures MergedAgree(q)
  {}

  lemma {:induction false} ReportKeepsMerged(p: seq<TaskProgress>, q: seq<TaskProgress>, at: nat, url: string, state: PrState)
    requires MergedAgree(p) && |p| == |q| && at < |p| && q[at].Pr() == Some(PullRequest(url, state))
    requires AnyMerged(p, url) ==> state == Merged
    requires forall i :: 0 <= i < |p| && i != at ==>
               q[i].Pr() == if state == Merged && p[i].Has(url) then Some(PullRequest(url, Merged)) else p[i].Pr()
    ensures MergedAgree(q)
  {
    assert state != Merged ==> forall i :: 0 <= i < |p| ==> p[i].Pr() != Some(PullRequest(url, Merged));
    assert forall i :: 0 <= i < |p| ==>
             q[i].Pr() == if i == at then Some(PullRequest(url, state))
                          else if state == Merged && p[i].Has(url) then Some(PullRequest(url, Merged)) else p[i].Pr();
  }

  lemma {:induction false} ReduceKeepsLogOk(tasks: seq<Task>, s: Reduced, run: Run, e: Command, live: bool)
    requires LogOk(tasks, s) && Reduce(s, tasks, run, e, live).Accept?
    ensures LogOk(tasks, Reduce(s, tasks, run, e, live).state)
    ensures (s.phase == Implemented || s.phase == Delivered) ==>
              Reduce(s, tasks, run, e, live).state.phase == Implemented || Reduce(s, tasks, run, e, live).state.phase == Delivered
  {
    if s.phase != Active {
      TerminalKeepsLogOk(tasks, s, run, e);
    } else if e.ReportVerification? {
      ReviewKeepsLogOk(tasks, s, run, e.report);
    } else if !e.RequestRevision? {
      TaskKeepsLogOk(tasks, s, run, e, live);
    }
  }

  /** Every accepted log keeps the invariant. */
  lemma {:induction false} LogsAreOk(tasks: seq<Task>, run: Run, events: seq<Command>, live: bool)
    requires Fold(tasks, run, events, live).Accept?
    ensures LogOk(tasks, Fold(tasks, run, events, live).state)
  {
    if events == [] {
      InitialAt(tasks);
    } else {
      var front, e := events[..|events| - 1], events[|events| - 1];
      LogsAreOk(tasks, run, front, live);
      ReduceKeepsLogOk(tasks, Fold(tasks, run, front, live).state, run, e, live);
    }
  }

  lemma {:induction false} FoldSnoc(tasks: seq<Task>, run: Run, events: seq<Command>, e: Command, live: bool)
    ensures Fold(tasks, run, events + [e], live) == Apply(Fold(tasks, run, events, live), tasks, run, e, live)
  {
    assert (events + [e])[..|events|] == events;
  }

  // ----- delivery

  lemma {:induction false} RequestStatesMean(progress: seq<TaskProgress>)
    ensures forall url :: url in RequestStates(progress) ==>
              exists i :: 0 <= i < |progress| && progress[i].Completed? && progress[i].request == PullRequest(url, RequestStates(progress)[url])
    ensures forall i :: 0 <= i < |progress| && progress[i].Completed? ==> progress[i].request.url in RequestStates(progress)
  {
    if progress != [] {
      var front := progress[..|progress| - 1];
      RequestStatesMean(front);
      assert forall i :: 0 <= i < |front| ==> front[i] == progress[i];
    }
  }

  /**
   * In every accepted log a run is delivered exactly when it was reviewed or settled, has a pull request
   * and all its pull requests are merged, although the code looks only at the last state per address.
   */
  lemma {:induction false} DeliveredMeansAllMerged(tasks: seq<Task>, run: Run, events: seq<Command>, live: bool)
    requires Fold(tasks, run, events, live).Accept?
    ensures var s := Fold(tasks, run, events, live).state;
            s.phase == Delivered
            <==> (s.phase == Implemented || s.phase == Delivered)
                 && (exists i :: 0 <= i < |s.progress| && s.progress[i].Completed?)
                 && (forall i :: 0 <= i < |s.progress| && s.progress[i].Completed? ==> s.progress[i].request.state == Merged)
  {
    LogsAreOk(tasks, run, events, live);
    var s := Fold(tasks, run, events, live).state;
    RequestStatesMean(s.progress);
    var requests := RequestStates(s.progress);
    if requests == map[] {
      assert forall i :: 0 <= i < |s.progress| ==> !s.progress[i].Completed?;
    } else {
      var url :| url in requests;
    }
    forall i | 0 <= i < |s.progress| && s.progress[i].Completed? && requests[s.progress[i].request.url] == Merged
      ensures s.progress[i].request.state == Merged
    {
      var u := s.progress[i].request.url;
      var k :| 0 <= k < |s.progress| && s.progress[k].Completed? && s.progress[k].request == PullRequest(u, requests[u]);
      assert s.progress[k].Pr() == Some(s.progress[k].request) && s.progress[i].Pr() == Some(s.progress[i].request);
    }
  }

  // ----- merged pull requests

  /** What became of a merged pull request: still there and merged, or replaced by a report of another address. */
  ghost predicate StillMerged(p: TaskProgress, q: TaskProgress, e: Command) {
    p.Pr().Some? && p.Pr().value.state == Merged ==>
      q.Pr() == p.Pr()
      || (e.ReportPr? && e.taskId == p.id && e.url != p.Pr().value.url && q.Pr() == Some(PullRequest(e.url, e.state)))
  }

  lemma {:induction false} TerminalKeepsMerged(s: Reduced, run: Run, e: Command, i: nat)
    requires ReduceTerminal(s, run, e).Accept? && i < |s.progress|
    ensures i < |ReduceTerminal(s, run, e).state.progress| && StillMerged(s.progress[i], ReduceTerminal(s, run, e).state.progress[i], e)
  {
    SetCompletedAt(s.progress, e.url, e.state);
    assert s.progress[i].Pr() == Some(PullRequest(e.url, Merged)) ==> AnyMerged(s.progress, e.url);
  }

  lemma {:induction false} TaskKeepsMerged(tasks: seq<Task>, s: Reduced, run: Run, e: Command, live: bool, i: nat)
    requires LogOk(tasks, s) && i < |tasks|
    requires (e.Start? || e.Block? || e.ReportPr? || e.Complete?) && ReduceTask(s, tasks, run, e, live).Accept?
    ensures i < |ReduceTask(s, tasks, run, e, live).state.progress|
            && StillMerged(s.progress[i], ReduceTask(s, tasks, run, e, live).state.progress[i], e)
  {
    var at := ReduceTaskAt(tasks, s, run, e, live);
    IndexOfIsFirst(s.progress, e.taskId);
    assert e.ReportPr? && s.progress[i].Pr() == Some(PullRequest(e.url, Merged)) ==> AnyMerged(s.progress, e.url);
  }

  /** A merged pull request stays merged for as long as its task keeps it, through every accepted event. */
  lemma {:induction false} MergedIsPermanent(tasks: seq<Task>, s: Reduced, run: Run, e: Command, live: bool, i: nat)
    requires LogOk(tasks, s) && Reduce(s, tasks, run, e, live).Accept? && i < |tasks|
    ensures i < |Reduce(s, tasks, run, e, live).state.progress|
            && StillMerged(s.progress[i], Reduce(s, tasks, run, e, live).state.progress[i], e)
  {
    if s.phase != Active {
      TerminalKeepsMerged(s, run, e, i);
    } else if e.ReportVerification? {
      ReopenAt(s.progress, e.report.tasksNeedingWork);
    } else if !e.RequestRevision? {
      TaskKeepsMerged(tasks, s, run, e, live, i);
    }
  }

  // ----- single commands

  /** Starting a queued task that depends on nothing. */
  lemma {:induction false} FreeStartReduces(s: Reduced, tasks: seq<Task>, n: nat, run: Run, id: string, key: string, live: bool)
    requires s.phase == Active && n < |tasks| == |s.progress| && IndexOf(s.progress, id) == Some(n)
    requires s.progress[n] == Queued(id) && tasks[n].dependsOn == []
    ensures Reduce(s, tasks, run, Start(id, key), live) == Accept(s.(progress := s.progress[n := InProgress(id, None)]))
  {
    assert NextItem(s, tasks[n], s.progress[n], run, Start(id, key), live) == Becomes(InProgress(id, None));
  }

  /** A report of an open pull request on a task in progress. */
  lemma {:induction false} OpenReduces(s: Reduced, tasks: seq<Task>, n: nat, run: Run, id: string, url: string, key: string, live: bool)
    requires s.phase == Active && n < |tasks| == |s.progress| && IndexOf(s.progress, id) == Some(n)
    requires s.progress[n] == InProgress(id, None)
    requires IsText(url) && OwnPullRequest(run.repository, url) && !AnyMerged(s.progress, url)
    ensures Reduce(s, tasks, run, ReportPr(id, url, IsOpen, key), live)
            == Accept(s.(progress := s.progress[n := InProgress(id, Some(PullRequest(url, IsOpen)))]))
  {
    var e := ReportPr(id, url, IsOpen, key);
    assert NextItem(s, tasks[n], s.progress[n], run, e, live) == Becomes(InProgress(id, Some(PullRequest(url, IsOpen))));
  }

  /** Completing a task in progress, with its pull request or with a reason. */
  lemma {:induction false} CompletionReduces(
      s: Reduced, tasks: seq<Task>, n: nat, run: Run, id: string, work: Option<PullRequest>, e: Command, live: bool)
    requires s.phase == Active && n < |tasks| == |s.progress| && IndexOf(s.progress, id) == Some(n)
    requires s.progress[n] == InProgress(id, work) && e.Complete? && e.taskId == id && IsText(e.summary)
    requires work.Some? <==> e.noChange.None?
    ensures Reduce(s, tasks, run, e, live)
            == match e.noChange
               case None => Accept(s.(progress := s.progress[n := Completed(id, e.summary, work.value)]))
               case Some(given) =>
                 if ValidNoChange(given) then Accept(s.(progress := s.progress[n := Unchanged(id, e.summary, given)]))
                 else Refuse("no-change")
  {
    assert Reduce(s, tasks, run, e, live) == ReduceTask(s, tasks, run, e, live);
  }

  lemma {:induction false} OpenIsNotDelivered(progress: seq<TaskProgress>)
    requires forall i :: 0 <= i < |progress| && progress[i].Completed? ==> progress[i].request.state == IsOpen
    ensures DeliveryPhase(progress) == Implemented
  {
    RequestStatesMean(progress);
    var requests := RequestStates(progress);
    if requests != map[] {
      var url :| url in requests;
      assert requests[url] != Merged;
    }
  }
}
