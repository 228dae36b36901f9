/** A log after which dependency order does not hold: both of two tasks are done, and a review reopens the first. */
module LostOrder {
  import opened Text
  import opened Lifecycle
  import opened LifecycleLogs
  import opened LifecycleOrder
  import opened LifecyclePlans
  import opened BuildSeed
  import opened LostPlan

  const FIRST := Task("a", [])
  const SECOND := Task("b", ["a"])
  const TASKS := [FIRST, SECOND]
  const RUN := SeedRun(Version(1, 1, 0, Approved, TASKS), "run")
  const REVIEW := Report(false, "Needs work.", "Read it.", [Evidence("a", ["Seen."]), Evidence("b", ["Seen."])], ["a"])
  const REVIEWED := ReportVerification(REVIEW, "failed")

  /** Both tasks are started, reported and completed in order, and then the first needs work. */
  function Log(): seq<Command> {
    Commands(TASKS, map[], 2) + [REVIEWED]
  }

  lemma {:induction false} IdsDiffer()
    ensures Distinct(Ids(TASKS)) && Ids(TASKS) == ["a", "b"]
  {
    assert Ids(TASKS) == ["a"] + Ids([SECOND]) && Ids([SECOND]) == ["b"] + Ids([]);
    assert "a"[0] != "b"[0];
  }

  /** The commands of the n-th task take the run from one task to the next. */
  lemma {:induction false} TaskFolds(n: nat)
    requires n < 2 && Fold(TASKS, RUN, Commands(TASKS, map[], n), false) == Accept(At(TASKS, map[], n))
    requires forall k :: 0 <= k < |TASKS[n].dependsOn| ==> Precedes(TASKS, n, TASKS[n].dependsOn[k])
    ensures Fold(TASKS, RUN, Commands(TASKS, map[], n + 1), false) == Accept(At(TASKS, map[], n + 1))
  {
    var log, task := Commands(TASKS, map[], n), TASKS[n];
    IdsDiffer();
    StartReduces(TASKS, map[], n, RUN);
    FoldSnoc(TASKS, RUN, log, StartCommand(task), false);
    PrReduces(TASKS, map[], n, RUN);
    FoldSnoc(TASKS, RUN, log + [StartCommand(task)], PrCommand(task, n), false);
    CompleteReduces(TASKS, map[], n, RUN);
    FoldSnoc(TASKS, RUN, log + [StartCommand(task)] + [PrCommand(task, n)], CompleteCommand(task, map[]), false);
    StretchEnds(TASKS, map[], n, log + [StartCommand(task)] + [PrCommand(task, n)]);
  }

  lemma {:induction false} BothFold()
    ensures Fold(TASKS, RUN, Commands(TASKS, map[], 2), false) == Accept(At(TASKS, map[], 2))
  {
    InitialAt(TASKS);
    ProgressIs(TASKS, map[], 0);
    assert InitialProgress(TASKS) == ProgressAt(TASKS, map[], 0);
    TaskFolds(0);
    assert TASKS[0].id == "a" == SECOND.dependsOn[0];
    assert Precedes(TASKS, 1, "a");
    TaskFolds(1);
  }

  lemma {:induction false} ReviewIsValid()
    ensures ValidReport(REVIEW, TASKS)
  {
    TextsAreGiven();
    IdsDiffer();
    assert EvidenceIds(REVIEW.evidence) == ["a", "b"] by {
      assert EvidenceIds(REVIEW.evidence) == ["a"] + EvidenceIds([Evidence("b", ["Seen."])]);
      assert EvidenceIds([Evidence("b", ["Seen."])]) == ["b"] + EvidenceIds([]);
    }
    assert "a" in ["a", "b"] && "b" in ["a", "b"];
    FirstNotBlank("b");
    assert ValidEvidence(Evidence("a", ["Seen."]), ["a", "b"]) && ValidEvidence(Evidence("b", ["Seen."]), ["a", "b"]);
  }

  /** The first task is under way again while the second, which depends on it, is done. */
  lemma {:induction false} ReviewReopens()
    ensures Fold(TASKS, RUN, Log(), false)
            == Accept(Reduced(Active, Reopen(ProgressAt(TASKS, map[], 2), ["a"]), Some(REVIEW)))
  {
    BothFold();
    ReviewIsValid();
    ProgressIs(TASKS, map[], 2);
    PullUrlIsOwn(0);
    PullUrlIsOwn(1);
    FailedReviewReduces(At(TASKS, map[], 2), TASKS, RUN, REVIEWED);
    FoldSnoc(TASKS, RUN, Commands(TASKS, map[], 2), REVIEWED, false);
  }

  /** Dependency order does not hold after this accepted log, and its first task was left reopened. */
  lemma {:induction false} ReviewBreaksOrder()
    ensures Fold(TASKS, RUN, Log(), false).Accept?
    ensures !Ordered(TASKS, Fold(TASKS, RUN, Log(), false).state.progress) && LeftReopened(TASKS, RUN, Log(), false, "a")
  {
    var progress := Reopen(ProgressAt(TASKS, map[], 2), ["a"]);
    ReviewReopens();
    ProgressIs(TASKS, map[], 2);
    ReopenAt(ProgressAt(TASKS, map[], 2), ["a"]);
    assert "a" in ["a"] && "b" !in ["a"];
    assert !progress[0].Done() && progress[1].Done() && progress[0].id == "a";
    assert Started(progress[1]) && SECOND.dependsOn[0] == "a" && !IsDone(progress, "a");
    OrderHoldsExactly(TASKS, RUN, Log(), false);
  }
}
