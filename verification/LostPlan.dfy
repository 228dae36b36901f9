/**
 * Concrete lives that cannot be restored. One task is started, delivered and completed by reports that are
 * not live, and fails its review; then it is completed again by a live report, or its build is stopped.
 * In another, a rebuild spells the repository in another case.
 */
module LostPlan {
  import opened Text
  import opened Lifecycle
  import opened LifecycleLogs
  import opened LifecycleReplay
  import opened LifecyclePlans
  import opened LifecycleRuns
  import opened LifecycleQuiet
  import opened LifecycleRebuilds
  import opened LifecycleSafety
  import opened LifecycleStops
  import opened BuildSeed

  const TASK := Task("a", [])
  const VERSION := Version(1, 1, 0, Approved, [TASK])
  const NEEDS_WORK := Report(false, "Needs work.", "Read it.", [Evidence("a", ["Seen."])], ["a"])
  const FAILED := ReportVerification(NEEDS_WORK, "failed")
  const AGAIN := Complete("a", "Done again.", None, "again")
  const SETUP := [Revise(0, 0, [TASK]), Approve, Claim(0, 1, SeedRun(VERSION, "run"))]

  /** The commands of the built task. */
  function TaskLog(): seq<Command> {
    Commands([TASK], map[], 1)
  }

  function Tells(events: seq<Command>, live: bool): seq<Step> {
    if events == [] then [] else Tells(events[..|events| - 1], live) + [Tell("run", events[|events| - 1], live)]
  }

  function Life(): seq<Step> {
    SETUP + Tells(TaskLog() + [FAILED], false)
  }

  lemma {:induction false} AfterSnoc(steps: seq<Step>, step: Step)
    ensures After(steps + [step]) == Do(After(steps), step)
  {
    assert (steps + [step])[..|steps|] == steps;
  }

  lemma {:induction false} TextsAreGiven()
    ensures IsText("a") && IsText("run") && IsText(REPOSITORY) && IsText("Needs work.") && IsText("Read it.") && IsText("Seen.")
    ensures IsText("failed") && IsText("again") && IsText("Done again.")
  {
    FirstNotBlank("a");
    FirstNotBlank("run");
    FirstNotBlank(REPOSITORY);
    FirstNotBlank("Needs work.");
    FirstNotBlank("Read it.");
    FirstNotBlank("Seen.");
    FirstNotBlank("failed");
    FirstNotBlank("again");
    FirstNotBlank("Done again.");
  }

  /** Draft, approve and claim the first version of a plan. */
  lemma {:induction false} FirstClaim(tasks: seq<Task>, run: Run)
    requires ValidIds(tasks) && ValidRun(run) && run.graphVersion == 1 && run.graphRevision == 1 && run.planRevision == 0
    ensures Do(NEW, Revise(0, 0, tasks)) == Plan(0, State([Version(1, 1, 0, Draft, tasks)], None, None, []))
    ensures Do(Plan(0, State([Version(1, 1, 0, Draft, tasks)], None, None, [])), Step.Approve)
            == Plan(0, State([Version(1, 1, 0, Approved, tasks)], None, None, []))
    ensures Do(Plan(0, State([Version(1, 1, 0, Approved, tasks)], None, None, [])), Claim(0, 1, run))
            == Plan(0, State([Version(1, 1, 0, Locked, tasks)], Some(run), None, []))
  {
    SupersededAt([Version(1, 1, 0, Draft, tasks)]);
  }

  lemma {:induction false} ThreeSteps(a: Step, b: Step, c: Step)
    ensures After([a, b, c]) == Do(Do(Do(NEW, a), b), c)
  {
    assert [] + [a] == [a] && [a] + [b] == [a, b] && [a, b] + [c] == [a, b, c];
    AfterSnoc([], a);
    AfterSnoc([a], b);
    AfterSnoc([a, b], c);
  }

  lemma {:induction false} SetUp()
    ensures After(SETUP) == Plan(0, LockedState([VERSION], "run"))
  {
    var run := SeedRun(VERSION, "run");
    FirstNotBlank("a");
    FirstNotBlank("run");
    FirstNotBlank(REPOSITORY);
    FirstClaim([TASK], run);
    ThreeSteps(Revise(0, 0, [TASK]), Step.Approve, Claim(0, 1, run));
  }

  /** A command that the state accepts, told to the plan. */
  lemma {:induction false} ToldOnce(events: seq<Command>, e: Command, live: bool)
    requires After(SETUP + Tells(events, live)) == Plan(0, Sent([VERSION], "run", events))
    requires Transition(Sent([VERSION], "run", events), "run", e, live) == Accepted(Sent([VERSION], "run", events + [e]))
    ensures After(SETUP + Tells(events + [e], live)) == Plan(0, Sent([VERSION], "run", events + [e]))
  {
    assert (events + [e])[..|events|] == events;
    assert SETUP + Tells(events + [e], live) == (SETUP + Tells(events, live)) + [Tell("run", e, live)];
    AfterSnoc(SETUP + Tells(events, live), Tell("run", e, live));
    DoTell(Plan(0, Sent([VERSION], "run", events)), "run", e, live);
  }

  /** An event that leaves the task undone is recorded in a live run as in any other. */
  lemma {:induction false} RecordedEither(events: seq<Command>, e: Command, x: Reduced, y: Reduced, live: bool)
    requires Transition(Sent([VERSION], "run", events), "run", e, false) == Accepted(Sent([VERSION], "run", events + [e]))
    requires Fold([TASK], SeedRun(VERSION, "run"), events, false) == Accept(x) && x.phase == Active
    requires Fold([TASK], SeedRun(VERSION, "run"), events + [e], false) == Accept(y) && y.phase == Active
    requires y.progress != [] && !y.progress[0].Done()
    ensures Transition(Sent([VERSION], "run", events), "run", e, live) == Accepted(Sent([VERSION], "run", events + [e]))
  {
    var s := Sent([VERSION], "run", events);
    SentShape([VERSION], "run", events);
    TransitionCases(s, "run", e, false);
    FoldSnoc([TASK], SeedRun(VERSION, "run"), events, e, false);
    assert FindRun(s.history, "run").None?;
    AdmittedTells(s, "run", e, live, x, y);
  }

  /** A task under way alone, as the fold of the commands has it. */
  lemma {:induction false} WorkingOnOne(item: TaskProgress)
    ensures Working([TASK], map[], 0, item) == Reduced(Active, [item], None)
  {
    ProgressIs([TASK], map[], 0);
  }

  lemma {:induction false} StartTold(live: bool)
    ensures After(SETUP + Tells([StartCommand(TASK)], live)) == Plan(0, Sent([VERSION], "run", [StartCommand(TASK)]))
    ensures Fold([TASK], SeedRun(VERSION, "run"), [StartCommand(TASK)], false) == Accept(Reduced(Active, [InProgress("a", None)], None))
  {
    var start := StartCommand(TASK);
    SetUp();
    assert SETUP + [] == SETUP;
    FirstNotBlank("run");
    ExactInitially([VERSION], "run", map[]);
    ExactStart([VERSION], "run", map[], 0, LockedState([VERSION], "run"));
    assert [] + [start] == [start];
    WorkingOnOne(InProgress("a", None));
    RecordedEither([], start, Initial([TASK]), Reduced(Active, [InProgress("a", None)], None), live);
    ToldOnce([], start, live);
  }

  /** The task with its pull request. */
  function WithPr(): Reduced {
    Reduced(Active, [InProgress("a", Some(PullRequest(PullUrl(0), IsOpen)))], None)
  }

  lemma {:induction false} PrTold(live: bool)
    ensures var log := [StartCommand(TASK)] + [PrCommand(TASK, 0)];
            After(SETUP + Tells(log, live)) == Plan(0, Sent([VERSION], "run", log))
            && Fold([TASK], SeedRun(VERSION, "run"), log, false) == Accept(WithPr())
  {
    StartTold(live);
    FirstNotBlank("run");
    WorkingOnOne(InProgress("a", None));
    ExactPr([VERSION], "run", map[], 0, [StartCommand(TASK)]);
    WorkingOnOne(InProgress("a", Some(PullRequest(PullUrl(0), IsOpen))));
    RecordedEither([StartCommand(TASK)], PrCommand(TASK, 0), Reduced(Active, [InProgress("a", None)], None), WithPr(), live);
    ToldOnce([StartCommand(TASK)], PrCommand(TASK, 0), live);
  }

  lemma {:induction false} BuildTold()
    ensures After(SETUP + Tells(TaskLog(), false)) == Plan(0, Sent([VERSION], "run", TaskLog()))
    ensures Fold([TASK], SeedRun(VERSION, "run"), TaskLog(), false) == Accept(At([TASK], map[], 1))
  {
    var start, pr, complete := StartCommand(TASK), PrCommand(TASK, 0), CompleteCommand(TASK, map[]);
    PrTold(false);
    FirstNotBlank("run");
    WorkingOnOne(InProgress("a", Some(PullRequest(PullUrl(0), IsOpen))));
    ExactComplete([VERSION], "run", map[], 0, [start] + [pr]);
    StretchEnds([TASK], map[], 0, [start] + [pr]);
    ToldOnce([start] + [pr], complete, false);
  }

  /** The task is under way again, with its pull request. */
  function Reopened(): Reduced {
    Reduced(Active, [InProgress("a", Some(PullRequest(PullUrl(0), IsOpen)))], Some(NEEDS_WORK))
  }

  lemma {:induction false} BuiltProgress()
    ensures At([TASK], map[], 1) == Reduced(Active, [Completed("a", "Completed a.", PullRequest(PullUrl(0), IsOpen))], None)
  {
    ProgressIs([TASK], map[], 1);
    assert "Completed " + "a" + "." == "Completed a.";
  }

  /** A failed review of finished work whose pull requests are open. */
  lemma {:induction false} FailedReviewReduces(s: Reduced, tasks: seq<Task>, run: Run, e: Command)
    requires s.phase == Active && e.ReportVerification? && !e.report.passed && ValidReport(e.report, tasks)
    requires forall i :: 0 <= i < |s.progress| ==> s.progress[i].Done() && OpenOwn(s.progress[i], run)
    ensures Reduce(s, tasks, run, e, false)
            == Accept(Reduced(Active, Reopen(s.progress, e.report.tasksNeedingWork), Some(e.report)))
  {
    ReviewRefusalMeans(s.progress, run);
  }

  lemma {:induction false} ReopensOne(id: string, summary: string, pr: PullRequest)
    ensures Reopen([Completed(id, summary, pr)], [id]) == [InProgress(id, Some(pr))]
  {
    ReopenAt([Completed(id, summary, pr)], [id]);
    assert id in [id];
  }

  lemma {:induction false} ReportIsValid()
    ensures ValidReport(NEEDS_WORK, [TASK])
  {
    TextsAreGiven();
    assert Ids([TASK]) == ["a"] && EvidenceIds(NEEDS_WORK.evidence) == ["a"];
    assert "a" in ["a"] && ValidEvidence(Evidence("a", ["Seen."]), ["a"]);
  }

  lemma {:induction false} FailedReduces(run: Run)
    requires run.repository == REPOSITORY
    ensures Reduce(At([TASK], map[], 1), [TASK], run, FAILED, false) == Accept(Reopened())
  {
    ReportIsValid();
    BuiltProgress();
    PullUrlIsOwn(0);
    ReopensOne("a", "Completed a.", PullRequest(PullUrl(0), IsOpen));
    FailedReviewReduces(At([TASK], map[], 1), [TASK], run, FAILED);
  }

  lemma {:induction false} FailureTold()
    ensures After(Life()) == Plan(0, Sent([VERSION], "run", TaskLog() + [FAILED]))
    ensures Fold([TASK], SeedRun(VERSION, "run"), TaskLog() + [FAILED], false) == Accept(Reopened())
  {
    TextsAreGiven();
    BuildTold();
    assert FAILED.key == "failed" && "failed"[0] == 'f';
    OtherKey("failed");
    FailedReduces(SeedRun(VERSION, "run"));
    Recorded([VERSION], "run", TaskLog(), At([TASK], map[], 1), FAILED, Reopened());
    ToldOnce(TaskLog(), FAILED, false);
  }

  /** A key that does not start like a key of the build is not one. */
  lemma {:induction false} OtherKey(key: string)
    requires key != "" && key[0] != 's' && key[0] != 'p' && key[0] != 'c'
    ensures FindKey(OwnedBy("run", TaskLog()), key) == None
  {
    CommandsAreKeyed([TASK], map[], 1);
    KeyedElsewhere(TaskLog(), key);
  }

  lemma {:induction false} KeyedElsewhere(events: seq<Command>, key: string)
    requires forall e :: e in events ==> Keyed(e)
    requires key != "" && key[0] != 's' && key[0] != 'p' && key[0] != 'c'
    ensures FindKey(OwnedBy("run", events), key) == None
  {
    FindKeyMeans(OwnedBy("run", events), key);
    OwnedByContents("run", events);
    forall e | e in events ensures e.key != key {
      assert Keyed(e) && e.key[0] == Prefix(e)[0];
    }
  }

  lemma {:induction false} LaterKey(key: string)
    requires key != "" && key[0] != 's' && key[0] != 'p' && key[0] != 'c' && key != "failed"
    ensures FindKey(OwnedBy("run", TaskLog() + [FAILED]), key) == None
  {
    OtherKey(key);
    KeyStaysNew(TaskLog(), FAILED, key);
  }

  lemma {:induction false} KeyStaysNew(events: seq<Command>, e: Command, key: string)
    requires FindKey(OwnedBy("run", events), key) == None && e.key != key
    ensures FindKey(OwnedBy("run", events + [e]), key) == None
  {
    FindKeyMeans(OwnedBy("run", events), key);
    OwnedBySnoc("run", events, e);
    FindKeyMeans(OwnedBy("run", events + [e]), key);
  }

  lemma {:induction false} AgainReduces(run: Run)
    ensures Reduce(Reopened(), [TASK], run, AGAIN, false)
            == Accept(Reduced(Active, [Completed("a", "Done again.", PullRequest(PullUrl(0), IsOpen))], Some(NEEDS_WORK)))
  {
    FirstNotBlank("Done again.");
    OneTaskCompletes(Reopened(), run, "a", PullRequest(PullUrl(0), IsOpen), AGAIN);
  }

  lemma {:induction false} OneTaskCompletes(s: Reduced, run: Run, id: string, pr: PullRequest, e: Command)
    requires s.phase == Active && s.progress == [InProgress(id, Some(pr))]
    requires e.Complete? && e.taskId == id && e.noChange == None && IsText(e.summary)
    ensures Reduce(s, [Task(id, [])], run, e, false) == Accept(s.(progress := [Completed(id, e.summary, pr)]))
  {
    assert IndexOf(s.progress, id) == Some(0);
    CompletionReduces(s, [Task(id, [])], 0, run, id, Some(pr), e, false);
  }

  /** The state after the failed review. */
  function Failed(): State {
    Sent([VERSION], "run", TaskLog() + [FAILED])
  }

  lemma {:induction false} FailedOwns()
    ensures AllOwned(Failed()) == OwnedBy("run", TaskLog() + [FAILED])
    ensures Failed().execution == Some(SeedRun(VERSION, "run")) && Failed().history == []
    ensures ActiveVersion(Failed().graph, SeedRun(VERSION, "run")).Some?
  {
    SentShape([VERSION], "run", TaskLog() + [FAILED]);
    assert AllOwned(Failed()) == OwnedBy("run", TaskLog() + [FAILED]) + OwnedHistory([]);
    assert OwnedHistory([]) == [];
    assert OwnedBy("run", TaskLog() + [FAILED]) + [] == OwnedBy("run", TaskLog() + [FAILED]);
  }

  lemma {:induction false} FailedAdmits(e: Command)
    requires IsText(e.key) && e.key[0] != 's' && e.key[0] != 'p' && e.key[0] != 'c' && e.key != "failed"
    ensures Admitted(Failed(), "run", e)
  {
    FirstNotBlank("run");
    LaterKey(e.key);
    FailedOwns();
  }

  /** The live completion settles the run. */
  lemma {:induction false} AgainSettles()
    ensures SettlesLive(Failed(), "run", AGAIN, true)
  {
    FirstNotBlank("again");
    FailedAdmits(AGAIN);
    FailureTold();
    AgainReduces(SeedRun(VERSION, "run"));
    SentShape([VERSION], "run", TaskLog() + [FAILED]);
  }

  lemma {:induction false} FailedLogIsNotQuiet(more: seq<Command>)
    ensures !Quiet([TASK], SeedRun(VERSION, "run"), TaskLog() + [FAILED] + more)
  {
    var log, run := TaskLog() + [FAILED] + more, SeedRun(VERSION, "run");
    BuildTold();
    BuiltProgress();
    assert log[..|TaskLog()|] == TaskLog() && log[|TaskLog()|] == FAILED;
    assert SettledBy([TASK], run, TaskLog()) && !OwnReport([TASK], run, TaskLog(), FAILED);
  }

  lemma {:induction false} TellsAreAlike(events: seq<Command>, live: bool)
    ensures forall i :: 0 <= i < |Tells(events, live)| ==> Tells(events, live)[i].Tell? && Tells(events, live)[i].live == live
  {
    if events != [] {
      TellsAreAlike(events[..|events| - 1], live);
    }
  }

  lemma {:induction false} LifeIsOk()
    ensures PlanOk(After(Life())) && Restores(After(Life()))
  {
    TellsAreAlike(TaskLog() + [FAILED], false);
    var steps := Life();
    forall m | 0 <= m < |steps| ensures !Unsafe(After(steps[..m]), steps[m]) {
      if m >= |SETUP| {
        assert steps[m] == Tells(TaskLog() + [FAILED], false)[m - |SETUP|];
      }
    }
    SafeLifeIsOk(steps, |steps|);
    assert steps[..|steps|] == steps;
  }

  /** Mixing reports that are live with reports that are not can lose a plan: this one restores before the last step and not after it. */
  lemma {:induction false} MixedReportsLoseThePlan()
    ensures Restores(After(Life())) && !Restores(After(Life() + [Tell("run", AGAIN, true)]))
  {
    FailureTold();
    LifeIsOk();
    AgainSettles();
    FailedLogIsNotQuiet([AGAIN]);
    SentShape([VERSION], "run", TaskLog() + [FAILED]);
    ReportKeepsRestorable(After(Life()), "run", AGAIN, true);
    AfterSnoc(Life(), Tell("run", AGAIN, true));
  }

  lemma {:induction false} FailedStops()
    ensures Stops(Failed())
  {
    FailureTold();
    SentShape([VERSION], "run", TaskLog() + [FAILED]);
    assert !Reopened().progress[0].Done() && Reopened().progress[0].Pr().Some?;
    var stop := StopCommand("run");
    assert stop.key[0] == 'r';
    FirstNotBlank(stop.key);
    FailedAdmits(stop);
  }

  /** Without a single live report: stopping the build after the failed review loses the plan. */
  lemma {:induction false} StopLosesThePlan()
    ensures Restores(After(Life())) && !Restores(After(Life() + [Stop]))
  {
    FailureTold();
    LifeIsOk();
    FailedStops();
    FailedLogIsNotQuiet([]);
    assert TaskLog() + [FAILED] + [] == TaskLog() + [FAILED];
    SentShape([VERSION], "run", TaskLog() + [FAILED]);
    StopKeepsRestorable(After(Life()));
    AfterSnoc(Life(), Stop);
  }

  // ----- rebuilds

  /** The task is built by live reports, which release the run, and the document is edited. */
  const BUILT := SETUP + Tells(TaskLog(), true)
  const EDITED := BUILT + [EditDocument]

  /** The plan once its only run was archived as a live one. */
  function Archives(version: Version): State {
    State([version], None, None, [Archived(SeedRun(VERSION, "run"), TaskLog(), true)])
  }

  lemma {:induction false} CompletionSettles()
    ensures var log, complete := [StartCommand(TASK)] + [PrCommand(TASK, 0)], CompleteCommand(TASK, map[]);
            Transition(Sent([VERSION], "run", log), "run", complete, true)
            == Accepted(Released(Sent([VERSION], "run", log), SeedRun(VERSION, "run"), TaskLog(), true))
  {
    var log, complete := [StartCommand(TASK)] + [PrCommand(TASK, 0)], CompleteCommand(TASK, map[]);
    var s := Sent([VERSION], "run", log);
    PrTold(false);
    BuildTold();
    BuiltProgress();
    FirstNotBlank("run");
    WorkingOnOne(InProgress("a", Some(PullRequest(PullUrl(0), IsOpen))));
    ExactComplete([VERSION], "run", map[], 0, log);
    StretchEnds([TASK], map[], 0, log);
    TransitionCases(s, "run", complete, false);
    SentShape([VERSION], "run", log);
    FoldSnoc([TASK], SeedRun(VERSION, "run"), log, complete, false);
    assert FindRun(s.history, "run").None?;
    AdmittedTells(s, "run", complete, true, WithPr(), At([TASK], map[], 1));
  }

  lemma {:induction false} BuiltState()
    ensures Released(Sent([VERSION], "run", [StartCommand(TASK)] + [PrCommand(TASK, 0)]),
                     SeedRun(VERSION, "run"), TaskLog(), true) == Archives(VERSION)
  {
    var s := Sent([VERSION], "run", [StartCommand(TASK)] + [PrCommand(TASK, 0)]);
    assert s.graph == [VERSION.(state := Locked)] && s.graph[0 := VERSION] == [VERSION];
  }

  lemma {:induction false} BuiltTold()
    ensures After(BUILT) == Plan(0, Archives(VERSION)) && After(EDITED) == Plan(1, Archives(VERSION))
  {
    var log, complete := [StartCommand(TASK)] + [PrCommand(TASK, 0)], CompleteCommand(TASK, map[]);
    PrTold(true);
    CompletionSettles();
    BuiltState();
    StretchEnds([TASK], map[], 0, log);
    assert TaskLog()[..|TaskLog()| - 1] == log;
    assert BUILT == (SETUP + Tells(log, true)) + [Tell("run", complete, true)];
    AfterSnoc(SETUP + Tells(log, true), Tell("run", complete, true));
    DoTell(Plan(0, Sent([VERSION], "run", log)), "run", complete, true);
    AfterSnoc(BUILT, EditDocument);
  }

  /** A life of live reports without resumes and rebuilds restores. */
  lemma {:induction false} LiveStepsAreOk(more: seq<Step>)
    requires forall i :: 0 <= i < |more| ==> !more[i].Tell? && !more[i].Resume? && !more[i].Rebuild?
    ensures PlanOk(After(BUILT + more))
  {
    var steps := BUILT + more;
    TellsAreAlike(TaskLog(), true);
    forall m | 0 <= m < |steps| ensures !steps[m].Resume? && !steps[m].Rebuild? && (steps[m].Tell? ==> steps[m].live) {
      if m < |SETUP| {
        assert steps[m] == SETUP[m];
      } else if m < |BUILT| {
        assert steps[m] == Tells(TaskLog(), true)[m - |SETUP|];
      } else {
        assert steps[m] == more[m - |BUILT|];
      }
    }
    LiveLifeIsOk(steps, |steps|);
    assert steps[..|steps|] == steps;
  }

  const OTHER_CASE := GITHUB + ("Octo-Org" + "/score") + "/pull/" + Decimal(1)

  /** The delivered address in another case is let through, but it is not the repository's own. */
  lemma {:induction false} OtherCaseIsForeign()
    ensures !OwnPullRequest(REPOSITORY, OTHER_CASE) && NearlyOwn(REPOSITORY, OTHER_CASE) && SameLetters(OTHER_CASE, PullUrl(0))
  {
    var front, other := GITHUB + REPOSITORY + "/pull/", GITHUB + ("Octo-Org" + "/score") + "/pull/";
    assert REPOSITORY == "octo-org" + "/score";
    assert OTHER_CASE[|GITHUB|] == "Octo-Org"[0] == 'O';
    assert front[|GITHUB|] == REPOSITORY[0] == 'o';
    assert OTHER_CASE[..|front|] == other && OTHER_CASE[|front|..] == Decimal(1);
    LettersOfOwner("Octo-Org", "octo-org");
    NumeralIsNoSlash(Decimal(1));
    assert PullUrl(0) == front + Decimal(1) && OTHER_CASE == other + Decimal(1);
  }

  lemma {:induction false} NumeralIsNoSlash(s: string)
    requires s != "" && AllDigits(s)
    ensures s[|s| - 1] != '/'
  {
    assert IsDigit(s[|s| - 1]);
  }

  lemma {:induction false} LettersOfOwner(a: string, b: string)
    requires a == "Octo-Org" && b == "octo-org"
    ensures SameLetters(GITHUB + (a + "/score") + "/pull/", GITHUB + (b + "/score") + "/pull/")
  {
    assert SameLetters(a, b);
  }

  /** A rebuild of the edited document. */
  function RebuildOf(id: string, urls: seq<string>): RebuildReport {
    RebuildReport(id, 1, REPOSITORY, urls, "Done.")
  }

  lemma {:induction false} RebuildIsLetThrough(p: Plan, report: RebuildReport, v: Version)
    requires p.state.history == Archives(VERSION).history && p.revision >= 1 && Current(p.state.graph) == Some(v) && v.state == Approved
    requires report.target == 1 && report.repository == REPOSITORY && IsText(report.id) && report.summary == "Done."
    requires |report.urls| == 1 && NearlyOwn(REPOSITORY, report.urls[0])
    ensures Rebuilds(p, report)
  {
    FirstNotBlank(REPOSITORY);
    FirstNotBlank("Done.");
    assert WentLive(p.state.graph, p.state.history[0]) && p.state.history[0].run.planRevision < report.target;
  }

  lemma {:induction false} ForeignLandsBadly(p: Plan, report: RebuildReport)
    requires Rebuilds(p, report) && !OwnPullRequest(report.repository, report.urls[0])
    ensures LandsBadly(p, report)
  {
    assert !AllOwn(report.repository, report.urls, |report.urls|);
  }

  /** A rebuild that reports the delivered pull request in another case, which GitHub takes for the same, loses the plan. */
  lemma {:induction false} OtherCaseLosesThePlan(id: string)
    requires IsText(id)
    ensures Restores(After(EDITED)) && !Restores(After(EDITED + [Rebuild(RebuildOf(id, [OTHER_CASE]))]))
  {
    var report := RebuildOf(id, [OTHER_CASE]);
    BuiltTold();
    LiveStepsAreOk([EditDocument]);
    OtherCaseIsForeign();
    RebuildIsLetThrough(After(EDITED), report, VERSION);
    ForeignLandsBadly(After(EDITED), report);
    RebuildKeepsRestorable(After(EDITED), report);
    AfterSnoc(EDITED, Rebuild(report));
  }

  /** While the rebuild runs the document is edited again, and a version of it is drafted and approved. */
  const MEANWHILE := [EditDocument, EditDocument, Revise(2, 1, [TASK]), Step.Approve]
  const NEXT := Version(2, 1, 2, Approved, [TASK])

  lemma {:induction false} NextVersion()
    ensures Do(Plan(2, Archives(VERSION)), Revise(2, 1, [TASK]))
            == Plan(2, Archives(VERSION).(graph := [VERSION, NEXT.(state := Draft)]))
    ensures Do(Plan(2, Archives(VERSION).(graph := [VERSION, NEXT.(state := Draft)])), Step.Approve)
            == Plan(2, Archives(VERSION).(graph := [VERSION.(state := Superseded), NEXT]))
  {
    FirstNotBlank("a");
    assert [VERSION] + [NEXT.(state := Draft)] == [VERSION, NEXT.(state := Draft)];
    SupersededAt([VERSION, NEXT.(state := Draft)]);
  }

  lemma {:induction false} MeanwhileTold()
    ensures After(BUILT + MEANWHILE) == Plan(2, Archives(VERSION).(graph := [VERSION.(state := Superseded), NEXT]))
  {
    BuiltTold();
    NextVersion();
    var a := EDITED + [EditDocument];
    var b := a + [Revise(2, 1, [TASK])];
    AfterSnoc(EDITED, EditDocument);
    AfterSnoc(a, Revise(2, 1, [TASK]));
    AfterSnoc(b, Step.Approve);
    assert BUILT + MEANWHILE == b + [Step.Approve];
  }

  /** A rebuild of a document older than the latest version loses the plan, although it reports the delivered address itself. */
  lemma {:induction false} OlderTargetLosesThePlan(id: string)
    requires IsText(id)
    ensures Restores(After(BUILT + MEANWHILE)) && !Restores(After(BUILT + MEANWHILE + [Rebuild(RebuildOf(id, [PullUrl(0)]))]))
  {
    var report := RebuildOf(id, [PullUrl(0)]);
    MeanwhileTold();
    LiveStepsAreOk(MEANWHILE);
    PullUrlIsNearlyOwn();
    RebuildIsLetThrough(After(BUILT + MEANWHILE), report, NEXT);
    RebuildKeepsRestorable(After(BUILT + MEANWHILE), report);
    AfterSnoc(BUILT + MEANWHILE, Rebuild(report));
  }

  lemma {:induction false} PullUrlIsNearlyOwn()
    ensures NearlyOwn(REPOSITORY, PullUrl(0))
  {
    var front := GITHUB + REPOSITORY + "/pull/";
    assert PullUrl(0)[..|front|] == front && PullUrl(0)[|front|..] == Decimal(1);
    NumeralIsNoSlash(Decimal(1));
  }
}
