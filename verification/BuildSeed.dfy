/**
 * The seeded build (e2e/build-seed.ts:24-112): a loop that drives the lifecycle through every task of a
 * graph and a passing review, and throws when any command is refused.
 */
module BuildSeed {
  import opened Text
  import opened Lifecycle
  import opened LifecycleLogs
  import opened LifecycleReplay
  import opened LifecyclePlans
  import opened LifecycleRuns

  const REPOSITORY := "octo-org/score"

  function PullUrl(index: nat): string {
    GITHUB + REPOSITORY + "/pull/" + Decimal(index + 1)
  }

  /** A task named in `noChange` completes without a pull request. */
  type Declared = map<string, NoChange>

  function CompleteCommand(task: Task, declared: Declared): Command {
    if task.id in declared then Complete(task.id, "Checked " + task.id + ".", Some(declared[task.id]), "complete-" + task.id)
    else Complete(task.id, "Completed " + task.id + ".", None, "complete-" + task.id)
  }

  function StartCommand(task: Task): Command {
    Start(task.id, "start-" + task.id)
  }

  function PrCommand(task: Task, index: nat): Command {
    ReportPr(task.id, PullUrl(index), IsOpen, "pr-" + task.id)
  }

  function TaskCommands(task: Task, index: nat, declared: Declared): seq<Command> {
    [StartCommand(task)] + (if task.id in declared then [] else [PrCommand(task, index)]) + [CompleteCommand(task, declared)]
  }

  /** The commands of the first n tasks. */
  function Commands(tasks: seq<Task>, declared: Declared, n: nat): seq<Command>
    requires n <= |tasks|
  {
    if n == 0 then [] else Commands(tasks, declared, n - 1) + TaskCommands(tasks[n - 1], n - 1, declared)
  }

  function EvidenceOf(tasks: seq<Task>): (evidence: seq<Evidence>)
    ensures |evidence| == |tasks| && forall i :: 0 <= i < |tasks| ==> evidence[i] == Evidence(tasks[i].id, ["Seeded."])
  {
    if tasks == [] then [] else [Evidence(tasks[0].id, ["Seeded."])] + EvidenceOf(tasks[1..])
  }

  function Verification(tasks: seq<Task>): Command {
    ReportVerification(
      Report(true, "Every acceptance criterion passed.", "Read the pull requests.", EvidenceOf(tasks), []), "verified")
  }

  function SeedRun(v: Version, id: string): Run {
    Run(id, REPOSITORY, v.planRevision, v.number, v.revision)
  }

  function LockedState(draft: seq<Version>, id: string): State
    requires draft != []
  {
    var v := draft[|draft| - 1];
    State(draft[|draft| - 1 := v.(state := Locked)], Some(SeedRun(v, id)), None, [])
  }

  datatype Outcome = Built(state: State) | Thrown(reason: string)

  /** Task ids are distinct and not blank, dependencies come first, and declared reasons are given. */
  ghost predicate Buildable(tasks: seq<Task>, declared: Declared) {
    Distinct(Ids(tasks)) && (forall i :: 0 <= i < |tasks| ==> IsText(tasks[i].id)) && PrefixOk(tasks, declared, |tasks|)
  }

  ghost predicate Precedes(tasks: seq<Task>, n: nat, id: string) {
    exists i :: 0 <= i < n && i < |tasks| && tasks[i].id == id
  }

  ghost predicate TaskOk(tasks: seq<Task>, declared: Declared, i: nat)
    requires i < |tasks|
  {
    (forall k :: 0 <= k < |tasks[i].dependsOn| ==> Precedes(tasks, i, tasks[i].dependsOn[k]))
    && (tasks[i].id in declared ==> ValidNoChange(declared[tasks[i].id]))
  }

  ghost predicate PrefixOk(tasks: seq<Task>, declared: Declared, n: nat) {
    n <= |tasks| && forall i :: 0 <= i < n ==> TaskOk(tasks, declared, i)
  }

  // ----- what the fold of the commands is

  function DoneItem(task: Task, index: nat, declared: Declared): TaskProgress {
    if task.id in declared then Unchanged(task.id, "Checked " + task.id + ".", declared[task.id])
    else Completed(task.id, "Completed " + task.id + ".", PullRequest(PullUrl(index), IsOpen))
  }

  function ItemAt(task: Task, index: nat, declared: Declared, done: bool): TaskProgress {
    if done then DoneItem(task, index, declared) else Queued(task.id)
  }

  /** The progress of the first `count` tasks when the first n tasks are done. */
  function ProgressOf(tasks: seq<Task>, declared: Declared, n: nat, count: nat): (p: seq<TaskProgress>)
    requires count <= |tasks|
    ensures |p| == count
  {
    if count == 0 then []
    else ProgressOf(tasks, declared, n, count - 1) + [ItemAt(tasks[count - 1], count - 1, declared, count - 1 < n)]
  }

  function ProgressAt(tasks: seq<Task>, declared: Declared, n: nat): (p: seq<TaskProgress>)
    ensures |p| == |tasks|
  {
    ProgressOf(tasks, declared, n, |tasks|)
  }

  lemma {:induction false} ProgressOfAt(tasks: seq<Task>, declared: Declared, n: nat, count: nat)
    requires count <= |tasks|
    ensures forall i :: 0 <= i < count ==> ProgressOf(tasks, declared, n, count)[i] == ItemAt(tasks[i], i, declared, i < n)
  {
    if count > 0 {
      ProgressOfAt(tasks, declared, n, count - 1);
    }
  }

  lemma {:induction false} ProgressIs(tasks: seq<Task>, declared: Declared, n: nat)
    ensures forall i :: 0 <= i < |tasks| ==> ProgressAt(tasks, declared, n)[i] == ItemAt(tasks[i], i, declared, i < n)
    ensures Parallel(tasks, ProgressAt(tasks, declared, n))
  {
    ProgressOfAt(tasks, declared, n, |tasks|);
  }

  lemma {:induction false} PullUrlIsOwn(index: nat)
    ensures OwnPullRequest(REPOSITORY, PullUrl(index)) && IsText(PullUrl(index))
  {
    var front, number := GITHUB + REPOSITORY + "/pull/", Decimal(index + 1);
    assert PullUrl(index) == front + number && PullUrl(index)[|front|..] == number;
    DecimalStartsNonzero(index + 1);
    assert IsDigit(number[|number| - 1]);
    var r := REPOSITORY;
    assert r[8] == '/' && '/' !in r[..8] && '/' !in r[9..];
    OwnIsText(REPOSITORY, PullUrl(index));
  }

  lemma {:induction false} TextIsText(s: string, rest: string)
    requires s != "" && !IsBlank(s[0])
    ensures IsText(s + rest)
  {
    FirstNotBlank(s + rest);
  }

  lemma {:induction false} ConstantsAreText(id: string)
    ensures IsText("Checked " + id + ".") && IsText("Completed " + id + ".")
    ensures IsText("Every acceptance criterion passed.") && IsText("Read the pull requests.") && IsText("Seeded.")
  {
    TextIsText("C", "hecked " + id + ".");
    assert "C" + ("hecked " + id + ".") == "Checked " + id + ".";
    TextIsText("C", "ompleted " + id + ".");
    assert "C" + ("ompleted " + id + ".") == "Completed " + id + ".";
    FirstNotBlank("Every acceptance criterion passed.");
    FirstNotBlank("Read the pull requests.");
    FirstNotBlank("Seeded.");
  }

  lemma {:induction false} DistinctIndex(tasks: seq<Task>, progress: seq<TaskProgress>, n: nat)
    requires Distinct(Ids(tasks)) && Parallel(tasks, progress) && n < |tasks|
    ensures IndexOf(progress, tasks[n].id) == Some(n)
  {
    IndexOfIsFirst(progress, tasks[n].id);
    assert progress[n].id == tasks[n].id && forall i :: 0 <= i < n ==> Ids(tasks)[i] != Ids(tasks)[n];
    assert forall i :: 0 <= i < n ==> progress[i].id == Ids(tasks)[i];
  }

  /** Before the n-th task starts exactly the earlier tasks are done. */
  lemma {:induction false} DoneMeansEarlier(tasks: seq<Task>, declared: Declared, n: nat, id: string)
    requires Distinct(Ids(tasks)) && n <= |tasks|
    ensures IsDone(ProgressAt(tasks, declared, n), id) <==> Precedes(tasks, n, id)
  {
    var p := ProgressAt(tasks, declared, n);
    ProgressIs(tasks, declared, n);
    IndexOfIsFirst(p, id);
    if Precedes(tasks, n, id) {
      var i :| 0 <= i < n && i < |tasks| && tasks[i].id == id;
      DistinctIndex(tasks, p, i);
    }
  }

  function Working(tasks: seq<Task>, declared: Declared, n: nat, item: TaskProgress): Reduced
    requires n < |tasks|
  {
    Reduced(Active, ProgressAt(tasks, declared, n)[n := item], None)
  }

  function At(tasks: seq<Task>, declared: Declared, n: nat): Reduced
    requires n <= |tasks|
  {
    Reduced(Active, ProgressAt(tasks, declared, n), None)
  }

  lemma {:induction false} StartReduces(tasks: seq<Task>, declared: Declared, n: nat, run: Run)
    requires Distinct(Ids(tasks)) && n < |tasks|
    ensures Reduce(At(tasks, declared, n), tasks, run, StartCommand(tasks[n]), false)
            == if forall k :: 0 <= k < |tasks[n].dependsOn| ==> Precedes(tasks, n, tasks[n].dependsOn[k])
               then Accept(Working(tasks, declared, n, InProgress(tasks[n].id, None))) else Refuse("dependency")
  {
    ProgressIs(tasks, declared, n);
    DistinctIndex(tasks, ProgressAt(tasks, declared, n), n);
    forall k | 0 <= k < |tasks[n].dependsOn|
      ensures IsDone(ProgressAt(tasks, declared, n), tasks[n].dependsOn[k]) <==> Precedes(tasks, n, tasks[n].dependsOn[k])
    {
      DoneMeansEarlier(tasks, declared, n, tasks[n].dependsOn[k]);
    }
  }

  /** No seeded pull request is merged. */
  lemma {:induction false} NothingIsMerged(tasks: seq<Task>, declared: Declared, n: nat, item: TaskProgress, url: string)
    requires n < |tasks| && (item.Pr().Some? ==> item.Pr().value.state == IsOpen)
    ensures !AnyMerged(Working(tasks, declared, n, item).progress, url)
  {
    var s := Working(tasks, declared, n, item);
    ProgressIs(tasks, declared, n);
    forall i | 0 <= i < |s.progress| ensures s.progress[i].Pr() != Some(PullRequest(url, Merged)) {
      if i != n {
        ItemIsOpen(tasks[i], i, declared, i < n);
      }
    }
  }

  lemma {:induction false} ItemIsOpen(task: Task, index: nat, declared: Declared, done: bool)
    ensures var pr := ItemAt(task, index, declared, done).Pr(); pr.Some? ==> pr.value.state == IsOpen
  {}

  lemma {:induction false} WorkingAt(tasks: seq<Task>, declared: Declared, n: nat, item: TaskProgress)
    requires Distinct(Ids(tasks)) && n < |tasks| && item.id == tasks[n].id
    ensures IndexOf(Working(tasks, declared, n, item).progress, tasks[n].id) == Some(n)
  {
    ProgressIs(tasks, declared, n);
    DistinctIndex(tasks, Working(tasks, declared, n, item).progress, n);
  }

  lemma {:induction false} WorkingOn(tasks: seq<Task>, declared: Declared, n: nat, item: TaskProgress, next: TaskProgress)
    requires n < |tasks|
    ensures var s := Working(tasks, declared, n, item); s.(progress := s.progress[n := next]) == Working(tasks, declared, n, next)
  {}

  lemma {:induction false} PrReduces(tasks: seq<Task>, declared: Declared, n: nat, run: Run)
    requires Distinct(Ids(tasks)) && n < |tasks| && run.repository == REPOSITORY
    ensures Reduce(Working(tasks, declared, n, InProgress(tasks[n].id, None)), tasks, run, PrCommand(tasks[n], n), false)
            == Accept(Working(tasks, declared, n, InProgress(tasks[n].id, Some(PullRequest(PullUrl(n), IsOpen)))))
  {
    var id, url := tasks[n].id, PullUrl(n);
    var item := InProgress(id, None);
    PullUrlIsOwn(n);
    NothingIsMerged(tasks, declared, n, item, url);
    WorkingAt(tasks, declared, n, item);
    OpenReduces(Working(tasks, declared, n, item), tasks, n, run, id, url, "pr-" + id, false);
    WorkingOn(tasks, declared, n, item, InProgress(id, Some(PullRequest(url, IsOpen))));
  }

  lemma {:induction false} CompleteReduces(tasks: seq<Task>, declared: Declared, n: nat, run: Run)
    requires Distinct(Ids(tasks)) && n < |tasks|
    ensures var work := if tasks[n].id in declared then None else Some(PullRequest(PullUrl(n), IsOpen));
            Reduce(Working(tasks, declared, n, InProgress(tasks[n].id, work)), tasks, run, CompleteCommand(tasks[n], declared), false)
            == if tasks[n].id in declared ==> ValidNoChange(declared[tasks[n].id])
               then Accept(At(tasks, declared, n + 1)) else Refuse("no-change")
  {
    var id := tasks[n].id;
    var work := if id in declared then None else Some(PullRequest(PullUrl(n), IsOpen));
    var item := InProgress(id, work);
    var e := CompleteCommand(tasks[n], declared);
    WorkingAt(tasks, declared, n, item);
    ConstantsAreText(id);
    CompletionReduces(Working(tasks, declared, n, item), tasks, n, run, id, work, e, false);
    OneMoreDone(tasks, declared, n, item);
  }

  lemma {:induction false} OneMoreDone(tasks: seq<Task>, declared: Declared, n: nat, item: TaskProgress)
    requires n < |tasks|
    ensures Working(tasks, declared, n, item).progress[n := DoneItem(tasks[n], n, declared)] == At(tasks, declared, n + 1).progress
  {
    ProgressIs(tasks, declared, n);
    ProgressIs(tasks, declared, n + 1);
    var p, q := Working(tasks, declared, n, item).progress[n := DoneItem(tasks[n], n, declared)], ProgressAt(tasks, declared, n + 1);
    forall i | 0 <= i < |tasks| ensures p[i] == q[i] {
      assert q[i] == ItemAt(tasks[i], i, declared, i < n + 1);
    }
  }

  // ----- keys

  function Prefix(e: Command): string {
    match e
    case Start(_, _) => "start-"
    case ReportPr(_, _, _, _) => "pr-"
    case Complete(_, _, _, _) => "complete-"
    case _ => ""
  }

  /** A command on a task, keyed by its kind and the task id. */
  predicate Keyed(e: Command) {
    (e.Start? || e.ReportPr? || e.Complete?) && e.key == Prefix(e) + e.taskId
  }

  lemma {:induction false} SameKeySameTask(e: Command, f: Command)
    requires Keyed(e) && Keyed(f) && e.key == f.key
    ensures e.taskId == f.taskId && Prefix(e) == Prefix(f)
  {
    assert e.key[0] == Prefix(e)[0] && f.key[0] == Prefix(f)[0];
    assert e.taskId == e.key[|Prefix(e)|..] && f.taskId == f.key[|Prefix(f)|..];
  }

  lemma {:induction false} KeyIsText(e: Command)
    requires Keyed(e)
    ensures IsText(e.key)
  {
    FirstNotBlank(e.key);
  }

  lemma {:induction false} CommandsAreKeyed(tasks: seq<Task>, declared: Declared, n: nat)
    requires n <= |tasks|
    ensures forall e :: e in Commands(tasks, declared, n) ==> Keyed(e) && Precedes(tasks, n, e.taskId)
  {
    if n > 0 {
      CommandsAreKeyed(tasks, declared, n - 1);
      forall e | e in Commands(tasks, declared, n) ensures Keyed(e) && Precedes(tasks, n, e.taskId) {
        if e in Commands(tasks, declared, n - 1) {
          assert Precedes(tasks, n - 1, e.taskId);
        } else {
          assert e in TaskCommands(tasks[n - 1], n - 1, declared);
          assert tasks[n - 1].id == e.taskId;
        }
      }
    }
  }

  /** A key is new when no earlier command of the same kind was on the same task. */
  lemma {:induction false} NewKey(runId: string, events: seq<Command>, e: Command)
    requires Keyed(e) && forall f :: f in events ==> Keyed(f) && (f.taskId == e.taskId ==> Prefix(f) != Prefix(e))
    ensures FindKey(OwnedBy(runId, events), e.key) == None
  {
    FindKeyMeans(OwnedBy(runId, events), e.key);
    OwnedByContents(runId, events);
    if FindKey(OwnedBy(runId, events), e.key).Some? {
      var f := FindKey(OwnedBy(runId, events), e.key).value.event;
      SameKeySameTask(e, f);
    }
  }

  /** Nothing before the n-th task, and nothing of another kind on it, has the key of a command on it. */
  lemma {:induction false} FreshKey(
      runId: string, tasks: seq<Task>, declared: Declared, n: nat, own: seq<Command>, e: Command)
    requires n < |tasks| && Distinct(Ids(tasks)) && Keyed(e) && e.taskId == tasks[n].id
    requires forall f :: f in own ==> Keyed(f) && Prefix(f) != Prefix(e)
    ensures FindKey(OwnedBy(runId, Commands(tasks, declared, n) + own), e.key) == None
  {
    CommandsAreKeyed(tasks, declared, n);
    EarlierIdsDiffer(tasks, n);
    NewKey(runId, Commands(tasks, declared, n) + own, e);
  }

  // ----- one command

  /** The state after the commands sent so far. */
  function Sent(draft: seq<Version>, id: string, events: seq<Command>): State
    requires draft != []
  {
    LockedState(draft, id).(events := if events == [] then None else Some(events))
  }

  /** A new command on the active run of a state without history. */
  lemma {:induction false} RunTransition(s: State, runId: string, e: Command, v: Version, folded: Reduced)
    requires IsText(runId) && IsText(e.key) && s.history == [] && s.execution.Some? && s.execution.value.id == runId
    requires FindKey(OwnedBy(runId, s.events.Or([])), e.key) == None
    requires ActiveVersion(s.graph, s.execution.value) == Some(v)
    requires Fold(v.tasks, s.execution.value, s.events.Or([]), false) == Accept(folded) && folded.phase == Active
    ensures Transition(s, runId, e, false)
            == match Reduce(folded, v.tasks, s.execution.value, e, false)
               case Refuse(reason) => Refused(reason)
               case Accept(t) =>
                 var events := s.events.Or([]) + [e];
                 Accepted(if t.phase == Active then s.(events := Some(events)) else Released(s, s.execution.value, events, false))
  {
    assert AllOwned(s) == OwnedBy(runId, s.events.Or([])) + [] == OwnedBy(runId, s.events.Or([]));
    assert Transition(s, runId, e, false) == TransitionActive(s, runId, e, false);
  }

  lemma {:induction false} SentShape(draft: seq<Version>, id: string, events: seq<Command>)
    requires draft != []
    ensures var v, state := draft[|draft| - 1], Sent(draft, id, events);
            && state.events.Or([]) == events && state.execution == Some(SeedRun(v, id)) && state.history == []
            && ActiveVersion(state.graph, SeedRun(v, id)) == Some(v.(state := Locked))
            && forall e :: state.(events := Some(events + [e])) == Sent(draft, id, events + [e])
  {}

  lemma {:induction false} ActiveTransition(draft: seq<Version>, id: string, events: seq<Command>, s: Reduced, e: Command)
    requires draft != [] && IsText(id) && IsText(e.key) && FindKey(OwnedBy(id, events), e.key) == None
    requires var v := draft[|draft| - 1]; Fold(v.tasks, SeedRun(v, id), events, false) == Accept(s) && s.phase == Active
    ensures var v, state := draft[|draft| - 1], Sent(draft, id, events);
            Transition(state, id, e, false)
            == match Reduce(s, v.tasks, SeedRun(v, id), e, false)
               case Refuse(reason) => Refused(reason)
               case Accept(t) =>
                 Accepted(if t.phase == Active then Sent(draft, id, events + [e])
                          else Released(state, SeedRun(v, id), events + [e], false))
    ensures var v := draft[|draft| - 1];
            Fold(v.tasks, SeedRun(v, id), events + [e], false) == Reduce(s, v.tasks, SeedRun(v, id), e, false)
  {
    var v, state := draft[|draft| - 1], Sent(draft, id, events);
    SentShape(draft, id, events);
    RunTransition(state, id, e, v.(state := Locked), s);
    FoldSnoc(v.tasks, SeedRun(v, id), events, e, false);
  }

  /** A new command the fold accepts and stays active on is recorded. */
  lemma {:induction false} Recorded(draft: seq<Version>, id: string, events: seq<Command>, s: Reduced, e: Command, t: Reduced)
    requires draft != [] && IsText(id) && IsText(e.key) && FindKey(OwnedBy(id, events), e.key) == None
    requires var v := draft[|draft| - 1]; Fold(v.tasks, SeedRun(v, id), events, false) == Accept(s) && s.phase == Active
    requires var v := draft[|draft| - 1]; Reduce(s, v.tasks, SeedRun(v, id), e, false) == Accept(t) && t.phase == Active
    ensures Transition(Sent(draft, id, events), id, e, false) == Accepted(Sent(draft, id, events + [e]))
    ensures var v := draft[|draft| - 1]; Fold(v.tasks, SeedRun(v, id), events + [e], false) == Accept(t)
  {
    ActiveTransition(draft, id, events, s, e);
  }

  /** A new command the fold refuses is refused. */
  lemma {:induction false} Rejected(draft: seq<Version>, id: string, events: seq<Command>, s: Reduced, e: Command)
    requires draft != [] && IsText(id) && IsText(e.key) && FindKey(OwnedBy(id, events), e.key) == None
    requires var v := draft[|draft| - 1]; Fold(v.tasks, SeedRun(v, id), events, false) == Accept(s) && s.phase == Active
    requires var v := draft[|draft| - 1]; Reduce(s, v.tasks, SeedRun(v, id), e, false).Refuse?
    ensures Transition(Sent(draft, id, events), id, e, false).Refused?
  {
    ActiveTransition(draft, id, events, s, e);
  }

  /** With distinct ids, the first n tasks bring the run exactly to `At(n)`. */
  ghost predicate Exact(draft: seq<Version>, id: string, declared: Declared, n: nat, state: State)
    requires draft != []
  {
    var v := draft[|draft| - 1];
    n <= |v.tasks| && PrefixOk(v.tasks, declared, n)
    && state == Sent(draft, id, Commands(v.tasks, declared, n))
    && Fold(v.tasks, SeedRun(v, id), Commands(v.tasks, declared, n), false) == Accept(At(v.tasks, declared, n))
  }

  lemma {:induction false} ExactStart(draft: seq<Version>, id: string, declared: Declared, n: nat, state: State)
    requires draft != [] && IsText(id) && Exact(draft, id, declared, n, state)
    requires var tasks := draft[|draft| - 1].tasks; n < |tasks| && Distinct(Ids(tasks))
    ensures var v := draft[|draft| - 1];
            var tasks := v.tasks;
            var events := Commands(tasks, declared, n) + [StartCommand(tasks[n])];
            if forall k :: 0 <= k < |tasks[n].dependsOn| ==> Precedes(tasks, n, tasks[n].dependsOn[k]) then
              Transition(state, id, StartCommand(tasks[n]), false) == Accepted(Sent(draft, id, events))
              && Fold(tasks, SeedRun(v, id), events, false) == Accept(Working(tasks, declared, n, InProgress(tasks[n].id, None)))
            else Transition(state, id, StartCommand(tasks[n]), false).Refused?
  {
    var v := draft[|draft| - 1];
    var tasks, events := v.tasks, Commands(v.tasks, declared, n);
    KeyIsText(StartCommand(tasks[n]));
    FreshKey(id, tasks, declared, n, [], StartCommand(tasks[n]));
    assert events + [] == events;
    StartReduces(tasks, declared, n, SeedRun(v, id));
    if forall k :: 0 <= k < |tasks[n].dependsOn| ==> Precedes(tasks, n, tasks[n].dependsOn[k]) {
      Recorded(draft, id, events, At(tasks, declared, n), StartCommand(tasks[n]),
               Working(tasks, declared, n, InProgress(tasks[n].id, None)));
    } else {
      Rejected(draft, id, events, At(tasks, declared, n), StartCommand(tasks[n]));
    }
  }

  lemma {:induction false} EarlierIdsDiffer(tasks: seq<Task>, n: nat)
    requires Distinct(Ids(tasks)) && n < |tasks|
    ensures !Precedes(tasks, n, tasks[n].id)
  {
    forall i | 0 <= i < n ensures tasks[i].id != tasks[n].id {
      assert Ids(tasks)[i] != Ids(tasks)[n];
    }
  }

  lemma {:induction false} ExactPr(draft: seq<Version>, id: string, declared: Declared, n: nat, events: seq<Command>)
    requires draft != [] && IsText(id)
    requires var v := draft[|draft| - 1]; n < |v.tasks| && Distinct(Ids(v.tasks))
    requires var v := draft[|draft| - 1];
             events == Commands(v.tasks, declared, n) + [StartCommand(v.tasks[n])]
             && Fold(v.tasks, SeedRun(v, id), events, false)
                == Accept(Working(v.tasks, declared, n, InProgress(v.tasks[n].id, None)))
    ensures var v := draft[|draft| - 1];
            var next := events + [PrCommand(v.tasks[n], n)];
            Transition(Sent(draft, id, events), id, PrCommand(v.tasks[n], n), false) == Accepted(Sent(draft, id, next))
            && Fold(v.tasks, SeedRun(v, id), next, false)
               == Accept(Working(v.tasks, declared, n, InProgress(v.tasks[n].id, Some(PullRequest(PullUrl(n), IsOpen)))))
  {
    var v := draft[|draft| - 1];
    var tasks := v.tasks;
    KeyIsText(PrCommand(tasks[n], n));
    FreshKey(id, tasks, declared, n, [StartCommand(tasks[n])], PrCommand(tasks[n], n));
    PrReduces(tasks, declared, n, SeedRun(v, id));
    Recorded(draft, id, events, Working(tasks, declared, n, InProgress(tasks[n].id, None)), PrCommand(tasks[n], n),
             Working(tasks, declared, n, InProgress(tasks[n].id, Some(PullRequest(PullUrl(n), IsOpen)))));
  }

  lemma {:induction false} CompletionKeyIsFresh(
      runId: string, tasks: seq<Task>, declared: Declared, n: nat, events: seq<Command>)
    requires n < |tasks| && Distinct(Ids(tasks))
    requires events == Commands(tasks, declared, n) + [StartCommand(tasks[n])]
                       + (if tasks[n].id in declared then [] else [PrCommand(tasks[n], n)])
    ensures FindKey(OwnedBy(runId, events), CompleteCommand(tasks[n], declared).key) == None
  {
    var e := CompleteCommand(tasks[n], declared);
    if tasks[n].id in declared {
      var own := [StartCommand(tasks[n])];
      assert events == Commands(tasks, declared, n) + own;
      FreshKey(runId, tasks, declared, n, own, e);
    } else {
      var own := [StartCommand(tasks[n]), PrCommand(tasks[n], n)];
      assert events == Commands(tasks, declared, n) + own;
      FreshKey(runId, tasks, declared, n, own, e);
    }
  }

  lemma {:induction false} CompletionIsExact(
      draft: seq<Version>, id: string, declared: Declared, n: nat, events: seq<Command>, s: Reduced, e: Command, ok: bool)
    requires draft != [] && IsText(id) && IsText(e.key) && FindKey(OwnedBy(id, events), e.key) == None && s.phase == Active
    requires var v := draft[|draft| - 1];
             n < |v.tasks| && Fold(v.tasks, SeedRun(v, id), events, false) == Accept(s)
             && Commands(v.tasks, declared, n + 1) == events + [e]
             && Reduce(s, v.tasks, SeedRun(v, id), e, false)
                == if ok then Accept(At(v.tasks, declared, n + 1)) else Refuse("no-change")
    ensures var v := draft[|draft| - 1];
            if ok then
              Transition(Sent(draft, id, events), id, e, false) == Accepted(Sent(draft, id, Commands(v.tasks, declared, n + 1)))
              && Fold(v.tasks, SeedRun(v, id), Commands(v.tasks, declared, n + 1), false) == Accept(At(v.tasks, declared, n + 1))
            else Transition(Sent(draft, id, events), id, e, false).Refused?
  {
    if ok {
      Recorded(draft, id, events, s, e, At(draft[|draft| - 1].tasks, declared, n + 1));
    } else {
      Rejected(draft, id, events, s, e);
    }
  }

  lemma {:induction false} StretchEnds(tasks: seq<Task>, declared: Declared, n: nat, events: seq<Command>)
    requires n < |tasks|
    requires events == Commands(tasks, declared, n) + [StartCommand(tasks[n])]
                       + (if tasks[n].id in declared then [] else [PrCommand(tasks[n], n)])
    ensures Commands(tasks, declared, n + 1) == events + [CompleteCommand(tasks[n], declared)]
  {}

  lemma {:induction false} ExactComplete(draft: seq<Version>, id: string, declared: Declared, n: nat, events: seq<Command>)
    requires draft != [] && IsText(id)
    requires var v := draft[|draft| - 1]; n < |v.tasks| && Distinct(Ids(v.tasks))
    requires var v := draft[|draft| - 1];
             var task := v.tasks[n];
             var work := if task.id in declared then None else Some(PullRequest(PullUrl(n), IsOpen));
             events == Commands(v.tasks, declared, n) + [StartCommand(task)] + (if task.id in declared then [] else [PrCommand(task, n)])
             && Fold(v.tasks, SeedRun(v, id), events, false) == Accept(Working(v.tasks, declared, n, InProgress(task.id, work)))
    ensures var v := draft[|draft| - 1];
            var task := v.tasks[n];
            if task.id in declared ==> ValidNoChange(declared[task.id]) then
              Transition(Sent(draft, id, events), id, CompleteCommand(task, declared), false)
              == Accepted(Sent(draft, id, Commands(v.tasks, declared, n + 1)))
              && Fold(v.tasks, SeedRun(v, id), Commands(v.tasks, declared, n + 1), false) == Accept(At(v.tasks, declared, n + 1))
            else Transition(Sent(draft, id, events), id, CompleteCommand(task, declared), false).Refused?
  {
    var v := draft[|draft| - 1];
    var tasks, task := v.tasks, v.tasks[n];
    var work := if task.id in declared then None else Some(PullRequest(PullUrl(n), IsOpen));
    KeyIsText(CompleteCommand(task, declared));
    CompletionKeyIsFresh(id, tasks, declared, n, events);
    CompleteReduces(tasks, declared, n, SeedRun(v, id));
    StretchEnds(tasks, declared, n, events);
    CompletionIsExact(draft, id, declared, n, events, Working(tasks, declared, n, InProgress(task.id, work)),
             CompleteCommand(task, declared), task.id in declared ==> ValidNoChange(declared[task.id]));
  }

  // ----- the review

  /** A passing report with one piece of evidence for every task. */
  lemma {:induction false} PassingReport(report: Report, tasks: seq<Task>)
    requires report.passed && report.tasksNeedingWork == [] && IsText(report.summary) && IsText(report.reviewerMethod)
    requires |report.evidence| == |tasks|
    requires forall i :: 0 <= i < |tasks| ==>
               report.evidence[i].taskId == tasks[i].id && |report.evidence[i].items| == 1 && IsText(report.evidence[i].items[0])
    ensures ValidReport(report, tasks) <==> Distinct(Ids(tasks)) && forall i :: 0 <= i < |tasks| ==> IsText(tasks[i].id)
  {
    assert EvidenceIds(report.evidence) == Ids(tasks);
    forall i | 0 <= i < |tasks| ensures ValidEvidence(report.evidence[i], Ids(tasks)) <==> IsText(tasks[i].id) {
      OneItemIsValid(report.evidence[i], tasks, i);
    }
  }

  lemma {:induction false} OneItemIsValid(evidence: Evidence, tasks: seq<Task>, i: nat)
    requires i < |tasks| && evidence.taskId == tasks[i].id && |evidence.items| == 1 && IsText(evidence.items[0])
    ensures ValidEvidence(evidence, Ids(tasks)) <==> IsText(tasks[i].id)
  {
    assert Ids(tasks)[i] == tasks[i].id;
  }

  /** The seeded report is valid exactly for distinct ids that are not blank. */
  lemma {:induction false} SeededReportIsValid(tasks: seq<Task>)
    ensures ValidReport(Verification(tasks).report, tasks)
            <==> Distinct(Ids(tasks)) && forall i :: 0 <= i < |tasks| ==> IsText(tasks[i].id)
  {
    ConstantsAreText("");
    var report := Verification(tasks).report;
    PassingReport(report, tasks);
  }

  /** A passing review of finished work whose pull requests are open. */
  lemma {:induction false} PassedReduces(s: Reduced, tasks: seq<Task>, run: Run, e: Command)
    requires s.phase == Active && e.ReportVerification? && e.report.passed
    requires forall i :: 0 <= i < |s.progress| ==> s.progress[i].Done() && OpenOwn(s.progress[i], run)
    ensures Reduce(s, tasks, run, e, false)
            == if ValidReport(e.report, tasks) then Accept(Reduced(Implemented, s.progress, Some(e.report))) else Refuse("verification")
  {
    ReviewRefusalMeans(s.progress, run);
    OpenIsNotDelivered(s.progress);
  }

  predicate OpenOwn(item: TaskProgress, run: Run) {
    item.Completed? ==> item.request.state == IsOpen && OwnPullRequest(run.repository, item.request.url)
  }

  lemma {:induction false} ReviewReduces(tasks: seq<Task>, declared: Declared, run: Run)
    requires run.repository == REPOSITORY
    ensures var s := At(tasks, declared, |tasks|);
            Reduce(s, tasks, run, Verification(tasks), false)
            == if ValidReport(Verification(tasks).report, tasks)
               then Accept(Reduced(Implemented, s.progress, Some(Verification(tasks).report))) else Refuse("verification")
  {
    var s := At(tasks, declared, |tasks|);
    ProgressIs(tasks, declared, |tasks|);
    forall i | 0 <= i < |s.progress| ensures s.progress[i].Done() && OpenOwn(s.progress[i], run) {
      PullUrlIsOwn(i);
    }
    PassedReduces(s, tasks, run, Verification(tasks));
  }

  lemma {:induction false} ReviewKeyIsFresh(tasks: seq<Task>, declared: Declared, id: string)
    ensures IsText(Verification(tasks).key)
    ensures FindKey(OwnedBy(id, Commands(tasks, declared, |tasks|)), Verification(tasks).key) == None
  {
    var events := Commands(tasks, declared, |tasks|);
    CommandsAreKeyed(tasks, declared, |tasks|);
    FindKeyMeans(OwnedBy(id, events), "verified");
    OwnedByContents(id, events);
    forall e | e in events ensures e.key != "verified" {
      assert e.key[0] == Prefix(e)[0];
    }
    FirstNotBlank("verified");
  }

  lemma {:induction false} ExactReview(draft: seq<Version>, id: string, declared: Declared, state: State)
    requires draft != [] && IsText(id) && Exact(draft, id, declared, |draft[|draft| - 1].tasks|, state)
    requires Distinct(Ids(draft[|draft| - 1].tasks))
    ensures var v := draft[|draft| - 1];
            var events := Commands(v.tasks, declared, |v.tasks|) + [Verification(v.tasks)];
            if forall i :: 0 <= i < |v.tasks| ==> IsText(v.tasks[i].id) then
              Transition(state, id, Verification(v.tasks), false) == Accepted(Released(state, SeedRun(v, id), events, false))
            else Transition(state, id, Verification(v.tasks), false).Refused?
  {
    var v := draft[|draft| - 1];
    var events := Commands(v.tasks, declared, |v.tasks|);
    SeededReportIsValid(v.tasks);
    ReviewReduces(v.tasks, declared, SeedRun(v, id));
    ReviewKeyIsFresh(v.tasks, declared, id);
    ActiveTransition(draft, id, events, At(v.tasks, declared, |v.tasks|), Verification(v.tasks));
  }

  /** Nothing but task commands was sent, and no run was archived. */
  ghost predicate NoReviewYet(state: State) {
    state.history == [] && forall o :: o in AllOwned(state) ==> !o.event.ReportVerification?
  }

  lemma {:induction false} TaskCommandStaysActive(s: Reduced, tasks: seq<Task>, run: Run, e: Command)
    requires s.phase == Active && (e.Start? || e.ReportPr? || e.Complete?) && Reduce(s, tasks, run, e, false).Accept?
    ensures Reduce(s, tasks, run, e, false).state.phase == Active
  {}

  /** An accepted task command is appended to the log of the active run. */
  lemma {:induction false} TaskCommandAppends(state: State, id: string, e: Command)
    requires state.history == [] && (e.Start? || e.ReportPr? || e.Complete?) && Transition(state, id, e, false).Accepted?
    ensures state.execution.Some? && state.execution.value.id == id
    ensures Transition(state, id, e, false).state == state.(events := Some(state.events.Or([]) + [e]))
  {
    TransitionCases(state, id, e, false);
    ActiveShape(state, id, e, false);
    var v := ActiveLog(state, id, e, false);
    var events := state.events.Or([]);
    TaskCommandStaysActive(Fold(v.tasks, state.execution.value, events, false).state, v.tasks, state.execution.value, e);
  }

  lemma {:induction false} TaskCommandKeepsNoReview(state: State, id: string, e: Command)
    requires NoReviewYet(state) && (e.Start? || e.ReportPr? || e.Complete?) && Transition(state, id, e, false).Accepted?
    ensures NoReviewYet(Transition(state, id, e, false).state)
    ensures Transition(state, id, e, false).state.graph == state.graph
  {
    TaskCommandAppends(state, id, e);
    var t := Transition(state, id, e, false).state;
    OwnedBySnoc(id, state.events.Or([]), e);
    assert AllOwned(state) == OwnedBy(id, state.events.Or([])) + [];
    assert AllOwned(t) == OwnedBy(id, state.events.Or([]) + [e]) + [];
  }

  /** An invalid report is refused in every state in which no review was sent. */
  lemma {:induction false} InvalidReviewIsRefused(state: State, id: string, tasks: seq<Task>)
    requires NoReviewYet(state) && !ValidReport(Verification(tasks).report, tasks)
    requires state.execution.Some? && ActiveVersion(state.graph, state.execution.value).Some?
             ==> ActiveVersion(state.graph, state.execution.value).value.tasks == tasks
    ensures Transition(state, id, Verification(tasks), false).Refused?
  {
    FindKeyMeans(AllOwned(state), "verified");
    if state.execution.Some? && ActiveVersion(state.graph, state.execution.value).Some? {
      InvalidReportIsRefused(Fold(tasks, state.execution.value, state.events.Or([]), false), tasks, state.execution.value);
    }
  }

  lemma {:induction false} InvalidReportIsRefused(folded: Reduction, tasks: seq<Task>, run: Run)
    requires !ValidReport(Verification(tasks).report, tasks)
    ensures folded.Accept? ==> Reduce(folded.state, tasks, run, Verification(tasks), false).Refuse?
  {}

  ghost predicate SameGraph(draft: seq<Version>, state: State)
    requires draft != []
  {
    state.graph == LockedState(draft, "").graph
  }

  /** `apply`: the next state, or the refusal that is thrown. */
  function Applied(state: State, id: string, e: Command): Outcome {
    match Transition(state, id, e, false)
    case Refused(reason) => Thrown(reason)
    case Accepted(t) => Built(t)
    case Replayed(t) => Built(t)
  }

  lemma {:induction false} AppliedStaysQuiet(draft: seq<Version>, state: State, id: string, e: Command)
    requires draft != [] && NoReviewYet(state) && SameGraph(draft, state) && (e.Start? || e.ReportPr? || e.Complete?)
    requires Applied(state, id, e).Built?
    ensures NoReviewYet(Applied(state, id, e).state) && SameGraph(draft, Applied(state, id, e).state)
  {
    if Transition(state, id, e, false).Accepted? {
      TaskCommandKeepsNoReview(state, id, e);
    }
  }

  /** What holds before the n-th task. */
  ghost predicate BuiltUpTo(draft: seq<Version>, id: string, declared: Declared, n: nat, state: State)
    requires draft != []
  {
    NoReviewYet(state) && SameGraph(draft, state)
    && (Distinct(Ids(draft[|draft| - 1].tasks)) ==> Exact(draft, id, declared, n, state))
  }

  /** What holds within the n-th task, after the commands `own` on it. */
  ghost predicate WithinTask(
      draft: seq<Version>, id: string, declared: Declared, n: nat, own: seq<Command>, work: Option<PullRequest>, state: State)
    requires draft != [] && n < |draft[|draft| - 1].tasks|
  {
    var v := draft[|draft| - 1];
    NoReviewYet(state) && SameGraph(draft, state)
    && (Distinct(Ids(v.tasks)) ==>
          PrefixOk(v.tasks, declared, n) && DependenciesDone(v.tasks, n)
          && state == Sent(draft, id, Commands(v.tasks, declared, n) + own)
          && Fold(v.tasks, SeedRun(v, id), Commands(v.tasks, declared, n) + own, false)
             == Accept(Working(v.tasks, declared, n, InProgress(v.tasks[n].id, work))))
  }

  ghost predicate DependenciesDone(tasks: seq<Task>, n: nat)
    requires n < |tasks|
  {
    forall k :: 0 <= k < |tasks[n].dependsOn| ==> Precedes(tasks, n, tasks[n].dependsOn[k])
  }

  lemma {:induction false} AfterStart(draft: seq<Version>, id: string, declared: Declared, n: nat, state: State)
    requires draft != [] && IsText(id) && n < |draft[|draft| - 1].tasks| && BuiltUpTo(draft, id, declared, n, state)
    ensures var tasks := draft[|draft| - 1].tasks;
            match Applied(state, id, StartCommand(tasks[n]))
            case Built(t) => WithinTask(draft, id, declared, n, [StartCommand(tasks[n])], None, t)
            case Thrown(_) => Distinct(Ids(tasks)) ==> !DependenciesDone(tasks, n)
  {
    var tasks := draft[|draft| - 1].tasks;
    if Distinct(Ids(tasks)) {
      ExactStart(draft, id, declared, n, state);
    }
    if Applied(state, id, StartCommand(tasks[n])).Built? {
      AppliedStaysQuiet(draft, state, id, StartCommand(tasks[n]));
    }
  }

  lemma {:induction false} AfterPr(draft: seq<Version>, id: string, declared: Declared, n: nat, state: State)
    requires draft != [] && IsText(id) && n < |draft[|draft| - 1].tasks|
    requires WithinTask(draft, id, declared, n, [StartCommand(draft[|draft| - 1].tasks[n])], None, state)
    ensures var tasks := draft[|draft| - 1].tasks;
            match Applied(state, id, PrCommand(tasks[n], n))
            case Built(t) =>
              WithinTask(draft, id, declared, n, [StartCommand(tasks[n])] + [PrCommand(tasks[n], n)],
                         Some(PullRequest(PullUrl(n), IsOpen)), t)
            case Thrown(_) => !Distinct(Ids(tasks))
  {
    var tasks := draft[|draft| - 1].tasks;
    if Distinct(Ids(tasks)) {
      ExactPr(draft, id, declared, n, Commands(tasks, declared, n) + [StartCommand(tasks[n])]);
      OneMoreCommand(Commands(tasks, declared, n), StartCommand(tasks[n]), PrCommand(tasks[n], n));
    }
    if Applied(state, id, PrCommand(tasks[n], n)).Built? {
      AppliedStaysQuiet(draft, state, id, PrCommand(tasks[n], n));
    }
  }

  lemma {:induction false} OneMoreCommand(log: seq<Command>, d: Command, e: Command)
    ensures log + [d] + [e] == log + ([d] + [e])
  {}

  lemma {:induction false} CompletedExactly(draft: seq<Version>, id: string, declared: Declared, n: nat, events: seq<Command>)
    requires draft != [] && IsText(id)
    requires var v := draft[|draft| - 1];
             n < |v.tasks| && Distinct(Ids(v.tasks)) && PrefixOk(v.tasks, declared, n) && DependenciesDone(v.tasks, n)
    requires var v := draft[|draft| - 1];
             var task := v.tasks[n];
             var work := if task.id in declared then None else Some(PullRequest(PullUrl(n), IsOpen));
             events == Commands(v.tasks, declared, n) + [StartCommand(task)] + (if task.id in declared then [] else [PrCommand(task, n)])
             && Fold(v.tasks, SeedRun(v, id), events, false) == Accept(Working(v.tasks, declared, n, InProgress(task.id, work)))
    ensures var task := draft[|draft| - 1].tasks[n];
            match Applied(Sent(draft, id, events), id, CompleteCommand(task, declared))
            case Built(t) => Exact(draft, id, declared, n + 1, t)
            case Thrown(_) => task.id in declared && !ValidNoChange(declared[task.id])
  {
    var v := draft[|draft| - 1];
    ExactComplete(draft, id, declared, n, events);
    if v.tasks[n].id in declared ==> ValidNoChange(declared[v.tasks[n].id]) {
      NextPrefixOk(v.tasks, declared, n);
      assert Exact(draft, id, declared, n + 1, Sent(draft, id, Commands(v.tasks, declared, n + 1)));
    }
  }

  lemma {:induction false} NextPrefixOk(tasks: seq<Task>, declared: Declared, n: nat)
    requires n < |tasks| && PrefixOk(tasks, declared, n) && DependenciesDone(tasks, n)
    requires tasks[n].id in declared ==> ValidNoChange(declared[tasks[n].id])
    ensures PrefixOk(tasks, declared, n + 1)
  {
    assert TaskOk(tasks, declared, n);
  }

  lemma {:induction false} AfterComplete(
      draft: seq<Version>, id: string, declared: Declared, n: nat, own: seq<Command>, work: Option<PullRequest>, state: State)
    requires draft != [] && IsText(id) && n < |draft[|draft| - 1].tasks|
    requires var task := draft[|draft| - 1].tasks[n];
             own == [StartCommand(task)] + (if task.id in declared then [] else [PrCommand(task, n)])
             && work == (if task.id in declared then None else Some(PullRequest(PullUrl(n), IsOpen)))
    requires WithinTask(draft, id, declared, n, own, work, state)
    ensures var tasks := draft[|draft| - 1].tasks;
            match Applied(state, id, CompleteCommand(tasks[n], declared))
            case Built(t) => BuiltUpTo(draft, id, declared, n + 1, t)
            case Thrown(_) => Distinct(Ids(tasks)) ==> tasks[n].id in declared && !ValidNoChange(declared[tasks[n].id])
  {
    var tasks := draft[|draft| - 1].tasks;
    if Distinct(Ids(tasks)) {
      var events := Commands(tasks, declared, n) + own;
      assert events == Commands(tasks, declared, n) + [StartCommand(tasks[n])]
                       + (if tasks[n].id in declared then [] else [PrCommand(tasks[n], n)]);
      CompletedExactly(draft, id, declared, n, events);
    }
    if Applied(state, id, CompleteCommand(tasks[n], declared)).Built? {
      AppliedStaysQuiet(draft, state, id, CompleteCommand(tasks[n], declared));
    }
  }

  /** The loop body: start, report a pull request unless none is needed, complete. */
  method BuildTask(draft: seq<Version>, id: string, declared: Declared, n: nat, before: State) returns (outcome: Outcome)
    requires draft != [] && IsText(id) && n < |draft[|draft| - 1].tasks| && BuiltUpTo(draft, id, declared, n, before)
    ensures outcome.Built? ==> BuiltUpTo(draft, id, declared, n + 1, outcome.state)
    ensures outcome.Thrown? && Distinct(Ids(draft[|draft| - 1].tasks)) ==> !TaskOk(draft[|draft| - 1].tasks, declared, n)
  {
    var task := draft[|draft| - 1].tasks[n];
    AfterStart(draft, id, declared, n, before);
    outcome := Applied(before, id, Start(task.id, "start-" + task.id));
    if outcome.Thrown? {
      return;
    }
    if task.id in declared {
      AfterComplete(draft, id, declared, n, [StartCommand(task)], None, outcome.state);
      outcome := Applied(outcome.state, id, CompleteCommand(task, declared));
      return;
    }
    AfterPr(draft, id, declared, n, outcome.state);
    outcome := Applied(outcome.state, id, ReportPr(task.id, PullUrl(n), IsOpen, "pr-" + task.id));
    if outcome.Thrown? {
      return;
    }
    AfterComplete(draft, id, declared, n, [StartCommand(task)] + [PrCommand(task, n)],
                  Some(PullRequest(PullUrl(n), IsOpen)), outcome.state);
    outcome := Applied(outcome.state, id, CompleteCommand(task, declared));
  }

  /**
   * `builtBuild`: it never throws exactly when the newest version is buildable, and then it archives one
   * run whose log is the whole command stream and approves the version again.
   */
  method BuiltBuild(draft: seq<Version>, id: string, declared: Declared) returns (outcome: Outcome)
    requires draft != [] && IsText(id)
    ensures outcome.Built? <==> Buildable(draft[|draft| - 1].tasks, declared)
    ensures outcome.Built? ==>
              var v := draft[|draft| - 1];
              outcome.state == State(
                draft[|draft| - 1 := v.(state := Approved)], None, None,
                [Archived(SeedRun(v, id), Commands(v.tasks, declared, |v.tasks|) + [Verification(v.tasks)], false)])
  {
    var tasks := draft[|draft| - 1].tasks;
    var state := LockedState(draft, id);
    ExactInitially(draft, id, declared);
    for n := 0 to |tasks|
      invariant BuiltUpTo(draft, id, declared, n, state)
    {
      outcome := BuildTask(draft, id, declared, n, state);
      if outcome.Thrown? {
        assert !TaskOk(tasks, declared, n) || !Distinct(Ids(tasks));
        return;
      }
      state := outcome.state;
    }
    ReviewOutcome(draft, id, declared, state);
    outcome := Applied(state, id, Verification(tasks));
  }

  /** After the last task the review is accepted exactly when the ids are distinct and not blank. */
  lemma {:induction false} ReviewOutcome(draft: seq<Version>, id: string, declared: Declared, state: State)
    requires draft != [] && IsText(id) && BuiltUpTo(draft, id, declared, |draft[|draft| - 1].tasks|, state)
    ensures var v := draft[|draft| - 1];
            var result := Transition(state, id, Verification(v.tasks), false);
            if Buildable(v.tasks, declared) then
              result == Accepted(State(
                draft[|draft| - 1 := v.(state := Approved)], None, None,
                [Archived(SeedRun(v, id), Commands(v.tasks, declared, |v.tasks|) + [Verification(v.tasks)], false)]))
            else result.Refused?
  {
    var tasks := draft[|draft| - 1].tasks;
    SeededReportIsValid(tasks);
    if Distinct(Ids(tasks)) {
      ExactReview(draft, id, declared, state);
      ReleasedSeed(draft, id, declared, state);
    } else {
      InvalidReviewIsRefused(state, id, tasks);
    }
  }

  lemma {:induction false} ExactInitially(draft: seq<Version>, id: string, declared: Declared)
    requires draft != []
    ensures Exact(draft, id, declared, 0, LockedState(draft, id)) && NoReviewYet(LockedState(draft, id))
  {
    var tasks := draft[|draft| - 1].tasks;
    InitialAt(tasks);
    ProgressIs(tasks, declared, 0);
    assert InitialProgress(tasks) == ProgressAt(tasks, declared, 0);
    assert AllOwned(LockedState(draft, id)) == [];
  }

  lemma {:induction false} ReleasedSeed(draft: seq<Version>, id: string, declared: Declared, state: State)
    requires draft != [] && Exact(draft, id, declared, |draft[|draft| - 1].tasks|, state)
    ensures var v := draft[|draft| - 1];
            var events := Commands(v.tasks, declared, |v.tasks|) + [Verification(v.tasks)];
            Released(state, SeedRun(v, id), events, false)
            == State(draft[|draft| - 1 := v.(state := Approved)], None, None, [Archived(SeedRun(v, id), events, false)])
  {
    var v := draft[|draft| - 1];
    var locked := draft[|draft| - 1 := v.(state := Locked)];
    assert locked[|draft| - 1 := v.(state := Approved)] == draft[|draft| - 1 := v.(state := Approved)];
  }

  // ----- the stream itself

  /** Every command belongs to the stretch of one task. */
  lemma {:induction false} StretchOf(tasks: seq<Task>, declared: Declared, n: nat, k: nat) returns (i: nat, at: nat)
    requires n <= |tasks| && k < |Commands(tasks, declared, n)|
    ensures i < n && at < |TaskCommands(tasks[i], i, declared)| && k == |Commands(tasks, declared, i)| + at
    ensures Commands(tasks, declared, n)[k] == TaskCommands(tasks[i], i, declared)[at]
  {
    var before := |Commands(tasks, declared, n - 1)|;
    if k < before {
      i, at := StretchOf(tasks, declared, n - 1, k);
    } else {
      i, at := n - 1, k - before;
    }
  }

  /** Two commands that cannot be confused: other keys, other addresses, no second start or completion of a task. */
  ghost predicate Apart(e: Command, f: Command) {
    && e.key != f.key
    && (e.ReportPr? && f.ReportPr? ==> e.url != f.url)
    && (e.Start? && f.Start? ==> e.taskId != f.taskId)
    && (e.Complete? && f.Complete? ==> e.taskId != f.taskId)
  }

  /**
   * The stream conforms to the graph: keys and pull request addresses are pairwise distinct, and every
   * task is started once and completed once.
   */
  lemma {:induction false} StreamConforms(tasks: seq<Task>, declared: Declared, k: nat, l: nat)
    requires Distinct(Ids(tasks)) && k < l < |Commands(tasks, declared, |tasks|)|
    ensures var all := Commands(tasks, declared, |tasks|);
            Apart(all[k], all[l]) && Apart(all[k], Verification(tasks)) && Apart(all[l], Verification(tasks))
  {
    var i, a := StretchOf(tasks, declared, |tasks|, k);
    var j, b := StretchOf(tasks, declared, |tasks|, l);
    if i == j {
      SameStretch(tasks[i], i, declared, a, b);
    } else {
      OtherStretch(tasks, declared, i, j, a, b);
    }
    ReviewIsApart(tasks, i, declared, a);
    ReviewIsApart(tasks, j, declared, b);
  }

  lemma {:induction false} KeyedStretch(task: Task, index: nat, declared: Declared, a: nat)
    requires a < |TaskCommands(task, index, declared)|
    ensures var e := TaskCommands(task, index, declared)[a];
            Keyed(e) && e.taskId == task.id && (e.ReportPr? ==> e.url == PullUrl(index))
  {}

  lemma {:induction false} ReviewIsApart(tasks: seq<Task>, i: nat, declared: Declared, a: nat)
    requires i < |tasks| && a < |TaskCommands(tasks[i], i, declared)|
    ensures Apart(TaskCommands(tasks[i], i, declared)[a], Verification(tasks))
  {
    KeyedStretch(tasks[i], i, declared, a);
    var e := TaskCommands(tasks[i], i, declared)[a];
    assert e.key[0] == Prefix(e)[0] && Verification(tasks).key[0] == 'v';
  }

  lemma {:induction false} SameStretch(task: Task, index: nat, declared: Declared, a: nat, b: nat)
    requires a < b < |TaskCommands(task, index, declared)|
    ensures var stretch := TaskCommands(task, index, declared); Apart(stretch[a], stretch[b])
  {
    KeyedStretch(task, index, declared, a);
    KeyedStretch(task, index, declared, b);
    KindsDiffer(task, index, declared, a, b);
    DifferentKinds(TaskCommands(task, index, declared)[a], TaskCommands(task, index, declared)[b]);
  }

  lemma {:induction false} DifferentKinds(e: Command, f: Command)
    requires Keyed(e) && Keyed(f) && Prefix(e) != Prefix(f)
    ensures Apart(e, f)
  {
    if e.key == f.key {
      SameKeySameTask(e, f);
    }
  }

  lemma {:induction false} OtherStretch(tasks: seq<Task>, declared: Declared, i: nat, j: nat, a: nat, b: nat)
    requires Distinct(Ids(tasks)) && i < |tasks| && j < |tasks| && i != j
    requires a < |TaskCommands(tasks[i], i, declared)| && b < |TaskCommands(tasks[j], j, declared)|
    ensures Apart(TaskCommands(tasks[i], i, declared)[a], TaskCommands(tasks[j], j, declared)[b])
  {
    KeyedStretch(tasks[i], i, declared, a);
    KeyedStretch(tasks[j], j, declared, b);
    assert Ids(tasks)[i] != Ids(tasks)[j];
    PullUrlsDiffer(i, j);
    DifferentTasks(TaskCommands(tasks[i], i, declared)[a], TaskCommands(tasks[j], j, declared)[b]);
  }

  lemma {:induction false} DifferentTasks(e: Command, f: Command)
    requires Keyed(e) && Keyed(f) && e.taskId != f.taskId && (e.ReportPr? && f.ReportPr? ==> e.url != f.url)
    ensures Apart(e, f)
  {
    if e.key == f.key {
      SameKeySameTask(e, f);
    }
  }

  lemma {:induction false} KindsDiffer(task: Task, index: nat, declared: Declared, a: nat, b: nat)
    requires a < b < |TaskCommands(task, index, declared)|
    ensures var stretch := TaskCommands(task, index, declared);
            Prefix(stretch[a]) != Prefix(stretch[b])
  {
    assert "start-"[0] == 's' && "pr-"[0] == 'p' && "complete-"[0] == 'c';
  }

  lemma {:induction false} StretchesAreOrdered(tasks: seq<Task>, declared: Declared, i: nat, j: nat)
    requires i < |tasks| && j < |tasks|
    ensures i < j ==> |Commands(tasks, declared, i + 1)| <= |Commands(tasks, declared, j)|
    ensures j < i ==> |Commands(tasks, declared, j + 1)| <= |Commands(tasks, declared, i)|
    decreases i + j
  {
    if i + 1 < j {
      StretchesAreOrdered(tasks, declared, i, j - 1);
    } else if j + 1 < i {
      StretchesAreOrdered(tasks, declared, i - 1, j);
    }
  }

  lemma {:induction false} PullUrlsDiffer(i: nat, j: nat)
    ensures PullUrl(i) == PullUrl(j) ==> i == j
  {
    var front := GITHUB + REPOSITORY + "/pull/";
    assert PullUrl(i)[|front|..] == Decimal(i + 1) && PullUrl(j)[|front|..] == Decimal(j + 1);
    if PullUrl(i) == PullUrl(j) {
      DecimalIsInjective(i + 1, j + 1);
    }
  }

  /** Where a dependency was completed: before the start of the task that needs it. */
  lemma {:induction false} DependenciesComeFirst(tasks: seq<Task>, declared: Declared, i: nat, d: nat) returns (done: nat, start: nat)
    requires PrefixOk(tasks, declared, |tasks|) && i < |tasks| && d < |tasks[i].dependsOn|
    ensures var all := Commands(tasks, declared, |tasks|);
            done < start < |all| && all[start] == StartCommand(tasks[i])
            && all[done].Complete? && all[done].taskId == tasks[i].dependsOn[d]
  {
    var j := DependencyIsEarlier(tasks, declared, i, d);
    EarlierCompletes(tasks, declared, j, i);
    done, start := |Commands(tasks, declared, j + 1)| - 1, |Commands(tasks, declared, i)|;
  }

  lemma {:induction false} DependencyIsEarlier(tasks: seq<Task>, declared: Declared, i: nat, d: nat) returns (j: nat)
    requires PrefixOk(tasks, declared, |tasks|) && i < |tasks| && d < |tasks[i].dependsOn|
    ensures j < i && tasks[j].id == tasks[i].dependsOn[d]
  {
    assert TaskOk(tasks, declared, i) && Precedes(tasks, i, tasks[i].dependsOn[d]);
    j :| 0 <= j < i && j < |tasks| && tasks[j].id == tasks[i].dependsOn[d];
  }

  lemma {:induction false} EarlierCompletes(tasks: seq<Task>, declared: Declared, j: nat, i: nat)
    requires j < i < |tasks|
    ensures var all, done, start := Commands(tasks, declared, |tasks|), |Commands(tasks, declared, j + 1)| - 1, |Commands(tasks, declared, i)|;
            0 <= done < start < |all| && all[start] == StartCommand(tasks[i])
            && all[done].Complete? && all[done].taskId == tasks[j].id
  {
    StretchBounds(tasks, declared, j);
    StretchBounds(tasks, declared, i);
    StretchesAreOrdered(tasks, declared, j, i);
  }

  /** A stretch begins with the start of its task and ends with its completion. */
  lemma {:induction false} StretchBounds(tasks: seq<Task>, declared: Declared, i: nat)
    requires i < |tasks|
    ensures var all, from, to := Commands(tasks, declared, |tasks|), |Commands(tasks, declared, i)|, |Commands(tasks, declared, i + 1)|;
            from < to <= |all| && all[from] == StartCommand(tasks[i]) && all[to - 1] == CompleteCommand(tasks[i], declared)
  {
    StretchIsPrefix(tasks, declared, i + 1, |tasks|);
    var next := Commands(tasks, declared, i + 1);
    assert next == Commands(tasks, declared, i) + TaskCommands(tasks[i], i, declared);
    assert next[|next| - 1] == CompleteCommand(tasks[i], declared);
  }

  lemma {:induction false} StretchIsPrefix(tasks: seq<Task>, declared: Declared, m: nat, n: nat)
    requires m <= n <= |tasks|
    ensures Commands(tasks, declared, m) <= Commands(tasks, declared, n)
    decreases n
  {
    if m < n {
      StretchIsPrefix(tasks, declared, m, n - 1);
    }
  }
}
