/**
 * Dependency order (apps/server/src/tasks/lifecycle.ts:276-335): a task starts only when everything it depends
 * on is done, and only a failed review can undo that.
 */
module LifecycleOrder {
  import opened Lifecycle
  import opened LifecycleLogs

  predicate FailsReview(e: Command) {
    e.ReportVerification? && !e.report.passed
  }

  predicate Started(p: TaskProgress) {
    p.InProgress? || p.Done()
  }

  /** No task is under way or done before everything it depends on is done. */
  ghost predicate Ordered(tasks: seq<Task>, progress: seq<TaskProgress>) {
    |tasks| == |progress|
    && forall i, k :: 0 <= i < |tasks| && Started(progress[i]) && 0 <= k < |tasks[i].dependsOn| ==> IsDone(progress, tasks[i].dependsOn[k])
  }

  /** The task is done after the first `n` events. */
  predicate DoneAfter(tasks: seq<Task>, run: Run, log: seq<Command>, live: bool, n: nat, id: string)
    requires n <= |log|
  {
    var folded := Fold(tasks, run, log[..n], live);
    folded.Accept? && IsDone(folded.state.progress, id)
  }

  /** The `m`-th event is a failed review that reopens the task. */
  predicate ReopenedBy(tasks: seq<Task>, run: Run, log: seq<Command>, live: bool, m: nat, id: string)
    requires m < |log|
  {
    FailsReview(log[m]) && id in log[m].report.tasksNeedingWork && DoneAfter(tasks, run, log, live, m, id)
  }

  /** A failed review reopened the task, and it was not done again. */
  ghost predicate LeftReopened(tasks: seq<Task>, run: Run, log: seq<Command>, live: bool, id: string) {
    exists m :: 0 <= m < |log| && ReopenedBy(tasks, run, log, live, m, id)
                && forall n :: m < n <= |log| ==> !DoneAfter(tasks, run, log, live, n, id)
  }

  // ----- one event

  /** A task that an event starts has its dependencies done; a task that stops being done is reopened. */
  ghost predicate Orderly(tasks: seq<Task>, p: seq<TaskProgress>, q: seq<TaskProgress>, e: Command) {
    |p| == |q| == |tasks|
    && forall i :: 0 <= i < |p| ==>
         q[i].id == p[i].id
         && (Started(q[i]) ==> Started(p[i]) || forall k :: 0 <= k < |tasks[i].dependsOn| ==> IsDone(p, tasks[i].dependsOn[k]))
         && (p[i].Done() ==> q[i].Done() || (FailsReview(e) && p[i].id in e.report.tasksNeedingWork))
  }

  lemma {:induction false} NextIsOrderly(s: Reduced, task: Task, item: TaskProgress, run: Run, e: Command, live: bool, next: TaskProgress)
    requires (e.Start? || e.Block? || e.ReportPr? || e.Complete?) && NextItem(s, task, item, run, e, live) == Becomes(next)
    ensures next.id == item.id && (item.Done() ==> next.Done())
    ensures Started(next) ==> Started(item) || forall k :: 0 <= k < |task.dependsOn| ==> IsDone(s.progress, task.dependsOn[k])
  {}

  lemma {:induction false} TaskIsOrderly(tasks: seq<Task>, s: Reduced, run: Run, e: Command, live: bool)
    requires Parallel(tasks, s.progress)
    requires (e.Start? || e.Block? || e.ReportPr? || e.Complete?) && ReduceTask(s, tasks, run, e, live).Accept?
    ensures Orderly(tasks, s.progress, ReduceTask(s, tasks, run, e, live).state.progress, e)
  {
    var at := ReduceTaskAt(tasks, s, run, e, live);
    var p, q := s.progress, ReduceTask(s, tasks, run, e, live).state.progress;
    NextIsOrderly(s, tasks[at], p[at], run, e, live, q[at]);
    forall i | 0 <= i < |p| && i != at ensures q[i].id == p[i].id && q[i].Done() == p[i].Done() && Started(q[i]) == Started(p[i]) {
      if e.ReportPr? {
        NewPrKeepsItem(p[i], PullRequest(e.url, Merged));
      }
    }
    OneIsOrderly(tasks, p, q, e, at);
  }

  lemma {:induction false} NewPrKeepsItem(item: TaskProgress, pr: PullRequest)
    ensures var next := item.WithPr(pr); next.id == item.id && next.Done() == item.Done() && Started(next) == Started(item)
  {}

  /** It is enough to look at the one task an event is about. */
  lemma {:induction false} OneIsOrderly(tasks: seq<Task>, p: seq<TaskProgress>, q: seq<TaskProgress>, e: Command, at: nat)
    requires |p| == |q| == |tasks| && at < |p| && q[at].id == p[at].id && (p[at].Done() ==> q[at].Done())
    requires Started(q[at]) ==> Started(p[at]) || forall k :: 0 <= k < |tasks[at].dependsOn| ==> IsDone(p, tasks[at].dependsOn[k])
    requires forall i :: 0 <= i < |p| && i != at ==> q[i].id == p[i].id && q[i].Done() == p[i].Done() && Started(q[i]) == Started(p[i])
    ensures Orderly(tasks, p, q, e)
  {}

  lemma {:induction false} TerminalIsOrderly(tasks: seq<Task>, s: Reduced, run: Run, e: Command)
    requires Parallel(tasks, s.progress) && ReduceTerminal(s, run, e).Accept?
    ensures Orderly(tasks, s.progress, ReduceTerminal(s, run, e).state.progress, e)
  {
    SetCompletedAt(s.progress, e.url, e.state);
  }

  lemma {:induction false} ReviewIsOrderly(tasks: seq<Task>, s: Reduced, run: Run, e: Command)
    requires Parallel(tasks, s.progress) && e.ReportVerification? && ReduceReview(s, tasks, run, e.report).Accept?
    ensures Orderly(tasks, s.progress, ReduceReview(s, tasks, run, e.report).state.progress, e)
  {
    ReopenAt(s.progress, e.report.tasksNeedingWork);
  }

  lemma {:induction false} ReduceIsOrderly(tasks: seq<Task>, s: Reduced, run: Run, e: Command, live: bool)
    requires LogOk(tasks, s) && Reduce(s, tasks, run, e, live).Accept?
    ensures Orderly(tasks, s.progress, Reduce(s, tasks, run, e, live).state.progress, e)
  {
    if s.phase != Active {
      TerminalIsOrderly(tasks, s, run, e);
    } else if e.ReportVerification? {
      ReviewIsOrderly(tasks, s, run, e);
    } else if !e.RequestRevision? {
      TaskIsOrderly(tasks, s, run, e, live);
    }
  }

  /** Only a failed review that names it makes a task not done. */
  lemma {:induction false} OnlyReviewsUndo(tasks: seq<Task>, p: seq<TaskProgress>, q: seq<TaskProgress>, e: Command, id: string)
    requires Orderly(tasks, p, q, e) && IsDone(p, id) && !IsDone(q, id)
    ensures FailsReview(e) && id in e.report.tasksNeedingWork
  {
    IndexOfIsFirst(p, id);
    IndexOfIsFirst(q, id);
  }

  // ----- whole logs

  lemma {:induction false} PrefixIsAccepted(tasks: seq<Task>, run: Run, log: seq<Command>, live: bool, n: nat)
    requires n <= |log| && Fold(tasks, run, log, live).Accept?
    ensures Fold(tasks, run, log[..n], live).Accept?
  {
    if Fold(tasks, run, log[..n], live).Refuse? {
      RefusedStaysRefused(tasks, run, log, live, n);
    }
  }

  /** What the event at `n` does to the progress. */
  lemma {:induction false} EventIsOrderly(tasks: seq<Task>, run: Run, log: seq<Command>, live: bool, n: nat)
    requires n < |log| && Fold(tasks, run, log[..n + 1], live).Accept?
    ensures Fold(tasks, run, log[..n], live).Accept?
    ensures Orderly(tasks, Fold(tasks, run, log[..n], live).state.progress, Fold(tasks, run, log[..n + 1], live).state.progress, log[n])
  {
    assert log[..n + 1] == log[..n] + [log[n]];
    FoldSnoc(tasks, run, log[..n], log[n], live);
    LogsAreOk(tasks, run, log[..n], live);
    ReduceIsOrderly(tasks, Fold(tasks, run, log[..n], live).state, run, log[n], live);
  }

  /**
   * After every accepted log, live or not and with failed reviews, each dependency of a task that is under
   * way or done was done at some earlier moment of the log.
   */
  lemma {:induction false} DependenciesWereDone(tasks: seq<Task>, run: Run, log: seq<Command>, live: bool, i: nat, k: nat) returns (n: nat)
    requires Fold(tasks, run, log, live).Accept? && |Fold(tasks, run, log, live).state.progress| == |tasks|
    requires i < |tasks| && k < |tasks[i].dependsOn| && Started(Fold(tasks, run, log, live).state.progress[i])
    ensures n < |log| && DoneAfter(tasks, run, log, live, n, tasks[i].dependsOn[k])
  {
    if log == [] {
      InitialAt(tasks);
      assert false;
    } else {
      n := |log| - 1;
      assert log[..n + 1] == log;
      EventIsOrderly(tasks, run, log, live, n);
      if !DoneAfter(tasks, run, log, live, n, tasks[i].dependsOn[k]) {
        n := DependenciesWereDone(tasks, run, log[..n], live, i, k);
        assert log[..|log| - 1][..n] == log[..n];
      }
    }
  }

  /** The last moment at which a task was done. */
  lemma {:induction false} LastDone(tasks: seq<Task>, run: Run, log: seq<Command>, live: bool, id: string, n: nat) returns (last: nat)
    requires n <= |log| && DoneAfter(tasks, run, log, live, n, id)
    ensures n <= last <= |log| && DoneAfter(tasks, run, log, live, last, id)
    ensures forall m :: last < m <= |log| ==> !DoneAfter(tasks, run, log, live, m, id)
    decreases |log| - n
  {
    last := n;
    if m: nat :| n < m <= |log| && DoneAfter(tasks, run, log, live, m, id) {
      last := LastDone(tasks, run, log, live, id, m);
    }
  }

  lemma {:induction false} UndoneIsReopened(tasks: seq<Task>, run: Run, log: seq<Command>, live: bool, id: string, n: nat)
    requires Fold(tasks, run, log, live).Accept? && n < |log|
    requires DoneAfter(tasks, run, log, live, n, id) && !DoneAfter(tasks, run, log, live, n + 1, id)
    ensures ReopenedBy(tasks, run, log, live, n, id)
  {
    PrefixIsAccepted(tasks, run, log, live, n + 1);
    EventIsOrderly(tasks, run, log, live, n);
    OnlyReviewsUndo(tasks, Fold(tasks, run, log[..n], live).state.progress, Fold(tasks, run, log[..n + 1], live).state.progress, log[n], id);
  }

  /** A task that was done and is not any more was left reopened. */
  lemma {:induction false} LostWasReopened(tasks: seq<Task>, run: Run, log: seq<Command>, live: bool, id: string, n: nat)
    requires Fold(tasks, run, log, live).Accept? && n <= |log|
    requires DoneAfter(tasks, run, log, live, n, id) && !DoneAfter(tasks, run, log, live, |log|, id)
    ensures LeftReopened(tasks, run, log, live, id)
  {
    var last := LastDone(tasks, run, log, live, id, n);
    UndoneIsReopened(tasks, run, log, live, id, last);
  }

  /**
   * Exactly when dependency order holds after an accepted log, live or not: no task is under way or done
   * while something it depends on was reopened by a failed review and is not done again.
   */
  lemma {:induction false} OrderHoldsExactly(tasks: seq<Task>, run: Run, log: seq<Command>, live: bool)
    requires Fold(tasks, run, log, live).Accept?
    ensures var progress := Fold(tasks, run, log, live).state.progress;
            |progress| == |tasks|
            && (Ordered(tasks, progress)
                <==> forall i, k :: 0 <= i < |tasks| && Started(progress[i]) && 0 <= k < |tasks[i].dependsOn|
                                    ==> !LeftReopened(tasks, run, log, live, tasks[i].dependsOn[k]))
  {
    var progress := Fold(tasks, run, log, live).state.progress;
    LogsAreOk(tasks, run, log, live);
    assert log[..|log|] == log;
    forall i, k | 0 <= i < |tasks| && Started(progress[i]) && 0 <= k < |tasks[i].dependsOn|
      ensures IsDone(progress, tasks[i].dependsOn[k]) <==> !LeftReopened(tasks, run, log, live, tasks[i].dependsOn[k])
    {
      var id := tasks[i].dependsOn[k];
      assert DoneAfter(tasks, run, log, live, |log|, id) <==> IsDone(progress, id);
      if !IsDone(progress, id) {
        var n := DependenciesWereDone(tasks, run, log, live, i, k);
        LostWasReopened(tasks, run, log, live, id, n);
      }
    }
  }

  /** Without a failed review dependency order always holds. */
  lemma {:induction false} OrderIsRespected(tasks: seq<Task>, run: Run, log: seq<Command>, live: bool)
    requires Fold(tasks, run, log, live).Accept? && forall i :: 0 <= i < |log| ==> !FailsReview(log[i])
    ensures Ordered(tasks, Fold(tasks, run, log, live).state.progress)
  {
    OrderHoldsExactly(tasks, run, log, live);
  }
}
