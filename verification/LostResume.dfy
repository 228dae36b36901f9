/**
 * A life that a resume makes unreadable: a build is stopped with one task under way, a second run implements the
 * version, and after an edit of the document a rebuild finishes the stopped run, so that the version is
 * implemented twice.
 */
module LostResume {
  import opened Text
  import opened Lifecycle
  import opened LifecycleLogs
  import opened LifecycleOutcomes
  import opened LifecyclePlans
  import opened LifecycleQuiet
  import opened LifecycleRebuilds
  import opened LifecycleReplay
  import opened LifecycleResumes
  import opened LifecycleRuns
  import opened LifecycleSafety
  import opened LifecycleStops
  import opened BuildSeed
  import opened LostPlan

  const FIRST := SeedRun(VERSION, "run")
  const OTHER := SeedRun(VERSION, "other")
  const STOP := StopCommand("run")
  const FINISHED := Finished(None, "Finished.")
  const COMPLETION := Complete("a", "Finished.", None, "rebuild:a:done")

  /** The task is started and has its pull request. */
  function PartLog(): seq<Command> {
    [StartCommand(TASK), PrCommand(TASK, 0)]
  }

  const NOTHING := NoChange("Nothing to do.", "Read it.")
  const BEGIN := Start("a", "1")
  const SKIP := Complete("a", "Checked.", Some(NOTHING), "2")
  const PASSED := ReportVerification(Report(true, "Checked.", "Read it.", [Evidence("a", ["Seen."])], []), "3")

  /** Stop the build, and claim the version again. */
  function Retaken(): seq<Step> {
    SETUP + Tells(PartLog(), false) + [Stop, Claim(0, 1, OTHER)]
  }

  /** The second run needs no change and passes its review. */
  function Passed(): seq<Step> {
    Retaken() + [Tell("other", BEGIN, false)] + [Tell("other", SKIP, false)] + [Tell("other", PASSED, false)]
  }

  /** Then the document is edited. */
  function Edited(): seq<Step> {
    Passed() + [EditDocument]
  }

  lemma {:induction false} PartTold()
    ensures After(SETUP + Tells(PartLog(), false)) == Plan(0, Sent([VERSION], "run", PartLog()))
    ensures Fold([TASK], FIRST, PartLog(), false) == Accept(WithPr())
  {
    PrTold(false);
    assert [StartCommand(TASK)] + [PrCommand(TASK, 0)] == PartLog();
  }

  lemma {:induction false} OneTaskIndex(item: TaskProgress)
    requires item.id == "a"
    ensures IndexOf([item], "a") == Some(0)
  {}

  lemma {:induction false} PartFoldsLive()
    ensures Fold([TASK], FIRST, PartLog(), true) == Accept(WithPr())
  {
    var start, pr, queued := StartCommand(TASK), PrCommand(TASK, 0), Reduced(Active, [Queued("a")], None);
    var started := Reduced(Active, [InProgress("a", None)], None);
    InitialAt([TASK]);
    assert Initial([TASK]) == queued;
    OneTaskIndex(Queued("a"));
    FreeStartReduces(queued, [TASK], 0, FIRST, "a", start.key, true);
    assert [] + [start] == [start] && [start] + [pr] == PartLog();
    OneMoreEvent([TASK], FIRST, [], start, queued);
    OneTaskIndex(InProgress("a", None));
    PullUrlIsOwn(0);
    OpenReduces(started, [TASK], 0, FIRST, "a", PullUrl(0), pr.key, true);
    OneMoreEvent([TASK], FIRST, [start], pr, started);
  }

  /** The stopped log ends in its revision request. */
  lemma {:induction false} StoppedFoldsLive()
    ensures Fold([TASK], FIRST, PartLog() + [STOP], true) == Accept(WithPr().(phase := RevisionRequested))
  {
    PartFoldsLive();
    StopReduces(WithPr(), [TASK], FIRST, true);
    OneMoreEvent([TASK], FIRST, PartLog(), STOP, WithPr());
  }

  /** The keys of the log start with an s or a p. */
  lemma {:induction false} PartKeys(key: string)
    requires key != "" && key[0] != 's' && key[0] != 'p'
    ensures FindKey(OwnedBy("run", PartLog()), key) == None
  {
    FindKeyMeans(OwnedBy("run", PartLog()), key);
    OwnedByContents("run", PartLog());
    forall e | e in PartLog() ensures e.key != key {
      assert e.key[0] == Prefix(e)[0];
    }
  }

  lemma {:induction false} PartStops()
    ensures Stops(Sent([VERSION], "run", PartLog())) && !StopsNoisily(Sent([VERSION], "run", PartLog()))
  {
    var s := Sent([VERSION], "run", PartLog());
    PartTold();
    SentShape([VERSION], "run", PartLog());
    assert !WithPr().progress[0].Done() && WithPr().progress[0].Pr().Some?;
    assert STOP.key[0] == 'r';
    FirstNotBlank(STOP.key);
    FirstNotBlank("run");
    PartKeys(STOP.key);
    assert AllOwned(s) == OwnedBy("run", PartLog()) + OwnedHistory([]);
    assert OwnedHistory([]) == [] && OwnedBy("run", PartLog()) + [] == OwnedBy("run", PartLog());
    PartFoldsLive();
    QuietLogsFoldLive([TASK], FIRST, PartLog());
  }

  /** The plan once the build was stopped, with the given run on it. */
  function Stopped(execution: Option<Run>): State {
    State([VERSION.(state := if execution.Some? then Locked else Approved)], execution, None,
          [Archived(FIRST, PartLog() + [STOP], true)])
  }

  /** The plan while the second run is under way. */
  function Second(events: seq<Command>): State {
    Stopped(Some(OTHER)).(events := if events == [] then None else Some(events))
  }

  /** The plan once the second run was reviewed. */
  function Twice(): State {
    State([VERSION], None, None, [Archived(FIRST, PartLog() + [STOP], true), Archived(OTHER, [BEGIN, SKIP, PASSED], false)])
  }

  lemma {:induction false} StoppedState()
    ensures StopState(Sent([VERSION], "run", PartLog())) == Stopped(None)
  {
    var s := Sent([VERSION], "run", PartLog());
    PartStops();
    StopShape(s);
    assert s.graph[0 := s.graph[0].(state := Approved)] == [VERSION];
    assert StoppedLog(s) == PartLog() + [STOP];
  }

  lemma {:induction false} StoppedTold()
    ensures After(SETUP + Tells(PartLog(), false) + [Stop]) == Plan(0, Stopped(None))
  {
    PartTold();
    StoppedState();
    DoStop(Plan(0, Sent([VERSION], "run", PartLog())));
    AfterSnoc(SETUP + Tells(PartLog(), false), Stop);
  }

  lemma {:induction false} OtherClaims()
    ensures ClaimState(Plan(0, Stopped(None)), 0, 1, OTHER) == Stopped(Some(OTHER))
  {
    var s := Stopped(None);
    StoppedFoldsLive();
    assert VersionFor(s.graph, FIRST) == Some(VERSION);
    assert "other"[0] == 'o' && "run"[0] == 'r';
    assert Eligible(s, VERSION, "other");
    FirstNotBlank("other");
    FirstNotBlank(REPOSITORY);
  }

  lemma {:induction false} RetakenTold()
    ensures After(Retaken()) == Plan(0, Stopped(Some(OTHER)))
  {
    var stopped := SETUP + Tells(PartLog(), false) + [Stop];
    StoppedTold();
    OtherClaims();
    assert Retaken() == stopped + [Claim(0, 1, OTHER)];
    AfterSnoc(stopped, Claim(0, 1, OTHER));
  }

  // ----- the second run

  lemma {:induction false} SecondOwns(events: seq<Command>)
    ensures AllOwned(Second(events)) == OwnedBy("other", events) + OwnedBy("run", PartLog() + [STOP])
  {
    var history := Second(events).history;
    assert OwnedHistory(history) == OwnedBy("run", PartLog() + [STOP]) + OwnedHistory([]);
    assert OwnedHistory([]) == [];
  }

  lemma {:induction false} FirstHasNo(key: string)
    requires key != "" && key[0] != 's' && key[0] != 'p' && key[0] != 'r'
    ensures FindKey(OwnedBy("run", PartLog() + [STOP]), key) == None
  {
    PartKeys(key);
    assert STOP.key[0] == 'r';
    KeyStaysNew(PartLog(), STOP, key);
  }

  lemma {:induction false} NeitherHas(a: seq<Owned>, b: seq<Owned>, key: string)
    requires FindKey(a, key) == None && FindKey(b, key) == None
    ensures FindKey(a + b, key) == None
  {
    FindKeyMeans(a, key);
    FindKeyMeans(b, key);
    FindKeyMeans(a + b, key);
  }

  lemma {:induction false} SecondAdmits(events: seq<Command>, e: Command)
    requires IsText(e.key) && e.key[0] != 's' && e.key[0] != 'p' && e.key[0] != 'r'
    requires forall i :: 0 <= i < |events| ==> events[i].key != e.key
    ensures Admitted(Second(events), "other", e)
    ensures ActiveVersion(Second(events).graph, OTHER) == Some(VERSION.(state := Locked)) && Second(events).events.Or([]) == events
  {
    SecondOwns(events);
    FirstHasNo(e.key);
    FindKeyMeans(OwnedBy("other", events), e.key);
    OwnedByContents("other", events);
    NeitherHas(OwnedBy("other", events), OwnedBy("run", PartLog() + [STOP]), e.key);
    FirstNotBlank("other");
    assert "other"[0] == 'o' && "run"[0] == 'r';
  }

  /** An accepted event of the second run, told to the plan. */
  lemma {:induction false} SecondTold(steps: seq<Step>, events: seq<Command>, e: Command, x: Reduced, y: Reduced)
    requires After(steps) == Plan(0, Second(events)) && Admitted(Second(events), "other", e)
    requires ActiveVersion(Second(events).graph, OTHER) == Some(VERSION.(state := Locked)) && Second(events).events.Or([]) == events
    requires Fold([TASK], OTHER, events, false) == Accept(x) && x.phase == Active && Reduce(x, [TASK], OTHER, e, false) == Accept(y)
    ensures Fold([TASK], OTHER, events + [e], false) == Accept(y)
    ensures After(steps + [Tell("other", e, false)])
            == Plan(0, if y.phase == Active then Second(events + [e]) else Released(Second(events), OTHER, events + [e], false))
  {
    AdmittedTells(Second(events), "other", e, false, x, y);
    FoldSnoc([TASK], OTHER, events, e, false);
    AfterSnoc(steps, Tell("other", e, false));
    DoTell(Plan(0, Second(events)), "other", e, false);
  }

  /** How the second run goes: the task is started, needs no change, and the review passes. */
  lemma {:induction false} SecondReduces()
    ensures Initial([TASK]) == Reduced(Active, [Queued("a")], None)
    ensures Reduce(Initial([TASK]), [TASK], OTHER, BEGIN, false) == Accept(Reduced(Active, [InProgress("a", None)], None))
    ensures Reduce(Reduced(Active, [InProgress("a", None)], None), [TASK], OTHER, SKIP, false)
            == Accept(Reduced(Active, [Unchanged("a", "Checked.", NOTHING)], None))
  {
    InitialAt([TASK]);
    var queued, started := Reduced(Active, [Queued("a")], None), Reduced(Active, [InProgress("a", None)], None);
    assert Initial([TASK]) == queued;
    OneTaskIndex(Queued("a"));
    FreeStartReduces(queued, [TASK], 0, OTHER, "a", "1", false);
    OneTaskIndex(InProgress("a", None));
    FirstNotBlank("Checked.");
    FirstNotBlank("Nothing to do.");
    FirstNotBlank("Read it.");
    CompletionReduces(started, [TASK], 0, OTHER, "a", None, SKIP, false);
  }

  lemma {:induction false} ReviewPasses()
    ensures Reduce(Reduced(Active, [Unchanged("a", "Checked.", NOTHING)], None), [TASK], OTHER, PASSED, false)
            == Accept(Reduced(Implemented, [Unchanged("a", "Checked.", NOTHING)], Some(PASSED.report)))
  {
    var s := Reduced(Active, [Unchanged("a", "Checked.", NOTHING)], None);
    FirstNotBlank("Checked.");
    FirstNotBlank("Read it.");
    FirstNotBlank("Seen.");
    FirstNotBlank("a");
    assert Ids([TASK]) == ["a"] && EvidenceIds(PASSED.report.evidence) == ["a"];
    assert "a" in ["a"] && ValidEvidence(Evidence("a", ["Seen."]), ["a"]);
    PassedReduces(s, [TASK], OTHER, PASSED);
  }

  lemma {:induction false} SecondStarts()
    ensures After(Retaken() + [Tell("other", BEGIN, false)]) == Plan(0, Second([BEGIN]))
    ensures Fold([TASK], OTHER, [BEGIN], false) == Accept(Reduced(Active, [InProgress("a", None)], None))
  {
    RetakenTold();
    SecondReduces();
    FirstNotBlank("1");
    SecondAdmits([], BEGIN);
    SecondTold(Retaken(), [], BEGIN, Initial([TASK]), Reduced(Active, [InProgress("a", None)], None));
    assert [] + [BEGIN] == [BEGIN];
  }

  lemma {:induction false} SecondSkips()
    ensures var steps := Retaken() + [Tell("other", BEGIN, false)] + [Tell("other", SKIP, false)];
            After(steps) == Plan(0, Second([BEGIN, SKIP]))
    ensures Fold([TASK], OTHER, [BEGIN, SKIP], false) == Accept(Reduced(Active, [Unchanged("a", "Checked.", NOTHING)], None))
  {
    SecondStarts();
    SecondReduces();
    FirstNotBlank("2");
    assert "2"[0] != "1"[0];
    SecondAdmits([BEGIN], SKIP);
    SecondTold(Retaken() + [Tell("other", BEGIN, false)], [BEGIN], SKIP, Reduced(Active, [InProgress("a", None)], None),
               Reduced(Active, [Unchanged("a", "Checked.", NOTHING)], None));
    assert [BEGIN] + [SKIP] == [BEGIN, SKIP];
  }

  lemma {:induction false} SecondIsReleased()
    ensures Released(Second([BEGIN, SKIP]), OTHER, [BEGIN, SKIP, PASSED], false) == Twice()
  {
    var s := Second([BEGIN, SKIP]);
    assert s.graph[0 := s.graph[0].(state := Approved)] == [VERSION];
    assert s.history + [Archived(OTHER, [BEGIN, SKIP, PASSED], false)] == Twice().history;
  }

  lemma {:induction false} SecondPasses()
    ensures After(Passed()) == Plan(0, Twice())
    ensures Fold([TASK], OTHER, [BEGIN, SKIP, PASSED], false).Accept?
            && Fold([TASK], OTHER, [BEGIN, SKIP, PASSED], false).state.phase == Implemented
  {
    SecondSkips();
    ReviewPasses();
    FirstNotBlank("3");
    assert "3"[0] != "1"[0] && "3"[0] != "2"[0];
    SecondAdmits([BEGIN, SKIP], PASSED);
    SecondTold(Retaken() + [Tell("other", BEGIN, false)] + [Tell("other", SKIP, false)], [BEGIN, SKIP], PASSED,
               Reduced(Active, [Unchanged("a", "Checked.", NOTHING)], None),
               Reduced(Implemented, [Unchanged("a", "Checked.", NOTHING)], Some(PASSED.report)));
    assert [BEGIN, SKIP] + [PASSED] == [BEGIN, SKIP, PASSED];
    SecondIsReleased();
  }

  lemma {:induction false} EditedTold()
    ensures After(Edited()) == Plan(1, Twice())
  {
    SecondPasses();
    AfterSnoc(Passed(), EditDocument);
    IdleEdit(Plan(0, Twice()));
  }

  lemma {:induction false} IdleEdit(p: Plan)
    requires p.state.execution.None?
    ensures Do(p, EditDocument) == Plan(p.revision + 1, p.state)
  {}

  // ----- the life restores until the resume

  lemma {:induction false} EditedIsSafe(m: nat)
    requires m < |Edited()|
    ensures !Unsafe(After(Edited()[..m]), Edited()[m])
  {
    var told := SETUP + Tells(PartLog(), false);
    TellsAreAlike(PartLog(), false);
    if |SETUP| <= m < |told| {
      assert Edited()[m] == Tells(PartLog(), false)[m - |SETUP|];
    } else if m == |told| {
      assert Edited()[..m] == told;
      PartTold();
      PartStops();
    } else if m < |SETUP| {
      assert Edited()[m] == SETUP[m];
    }
  }

  lemma {:induction false} EditedIsOk()
    ensures PlanOk(After(Edited()))
  {
    forall m | 0 <= m < |Edited()| ensures !Unsafe(After(Edited()[..m]), Edited()[m]) {
      EditedIsSafe(m);
    }
    SafeLifeIsOk(Edited(), |Edited()|);
    assert Edited()[..|Edited()|] == Edited();
  }

  lemma {:induction false} TwiceOwns()
    ensures AllOwned(Twice()) == OwnedBy("run", PartLog() + [STOP]) + OwnedBy("other", [BEGIN, SKIP, PASSED])
  {
    var history := Twice().history;
    assert history[1..] == [Archived(OTHER, [BEGIN, SKIP, PASSED], false)];
    assert OwnedHistory(history[1..]) == OwnedBy("other", [BEGIN, SKIP, PASSED]) + OwnedHistory([]);
    assert OwnedHistory([]) == [];
  }

  lemma {:induction false} StopKeyIsOther(key: string)
    requires |key| > 1 && key[1] == 'e'
    ensures STOP.key != key
  {
    assert STOP.key[1] == "run"[1] == 'u';
  }

  lemma {:induction false} CompletionIsNew()
    ensures FindKey(AllOwned(Twice()), COMPLETION.key).None?
  {
    TwiceOwns();
    StopKeyIsOther("rebuild:a:done");
    PartKeys("rebuild:a:done");
    KeyStaysNew(PartLog(), STOP, "rebuild:a:done");
    FindKeyMeans(OwnedBy("other", [BEGIN, SKIP, PASSED]), "rebuild:a:done");
    OwnedByContents("other", [BEGIN, SKIP, PASSED]);
    assert "1"[0] == '1' && "2"[0] == '2' && "3"[0] == '3';
    NeitherHas(OwnedBy("run", PartLog() + [STOP]), OwnedBy("other", [BEGIN, SKIP, PASSED]), "rebuild:a:done");
  }

  lemma {:induction false} CompletesTheTask()
    ensures ResumeEvents(WithPr().progress[0], "a", "rebuild" + ":" + "a", FINISHED) == [COMPLETION]
  {
    assert "rebuild" + ":" + "a" + ":done" == "rebuild:a:done";
  }

  lemma {:induction false} FinishesTheTask()
    ensures Finishes([TASK], FIRST, WithPr().progress, "a", FINISHED)
  {
    OneTaskIndex(WithPr().progress[0]);
    FirstNotBlank("Finished.");
    assert PullUrl(0) != "";
  }

  lemma {:induction false} FinishesTheStopped()
    ensures FinishesStopped(Plan(1, Twice()), 0, "a", "rebuild", FINISHED)
  {
    StoppedFoldsLive();
    FinishesTheTask();
    OneTaskIndex(WithPr().progress[0]);
    CompletesTheTask();
    CompletionIsNew();
    assert VersionFor(Twice().graph, FIRST) == Some(VERSION);
  }

  lemma {:induction false} VersionIsTaken()
    ensures TakenBesides(Twice(), 0)
  {
    SecondPasses();
    assert VersionFor(Twice().graph, OTHER) == Some(VERSION);
    assert Successful(Twice().graph, Twice().history[1]);
  }

  /** Finishing a stopped run whose version another run has implemented loses the plan. */
  lemma {:induction false} ResumeLosesThePlan()
    ensures Restores(After(Edited())) && !Restores(After(Edited() + [Resume("run", "a", "rebuild", FINISHED)]))
  {
    var p := After(Edited());
    EditedTold();
    EditedIsOk();
    FinishesTheStopped();
    VersionIsTaken();
    assert FindRun(Twice().history, "run") == Some(0);
    ResumeKeepsRestorable(p, "run", "a", "rebuild", FINISHED);
    AfterSnoc(Edited(), Resume("run", "a", "rebuild", FINISHED));
  }
}
