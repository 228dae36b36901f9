/**
 * The life of a plan: the steps that change its document, graph and runs (apps/server/src/tasks/graphs.ts,
 * plan-graphs.ts, lifecycle.ts and builds.ts), and what reading it back from storage demands.
 */
module LifecycleRuns {
  import opened Text
  import opened Lifecycle
  import opened LifecycleLogs
  import opened LifecycleReplay

  // ----- the steps of a plan

  /** A document revision and the implementation state beside it. */
  datatype Plan = Plan(revision: nat, state: State)

  datatype Step =
    | EditDocument
    | Revise(planRevision: nat, graphRevision: nat, tasks: seq<Task>)
    | Approve
    | Claim(planRevision: nat, graphRevision: nat, run: Run)
    | Tell(runId: string, command: Command, live: bool)
    | Stop
    | Resume(runId: string, taskId: string, buildId: string, outcome: TaskOutcome)
    | Rebuild(report: RebuildReport)

  /** What a rebuild reports of one outstanding task of a stopped run. */
  datatype TaskOutcome = Finished(pullRequest: Option<string>, summary: string) | StillBlocked(blocker: string)

  /** A rebuild of the document as it was at `target`, one task per pull request it worked on. */
  datatype RebuildReport = RebuildReport(id: string, target: nat, repository: string, urls: seq<string>, summary: string)

  const NEW := Plan(0, State([], None, None, []))

  function SetCurrent(graph: seq<Version>, v: Version): seq<Version> {
    if graph == [] then [] else graph[|graph| - 1 := v]
  }

  /** The one guarantee of `validate` that restoring relies on: no task id is blank. */
  predicate ValidIds(tasks: seq<Task>) {
    forall i :: 0 <= i < |tasks| ==> IsText(tasks[i].id)
  }

  /** `Graphs.revise` with an already revised definition: bump the draft or push a new one. */
  function ReviseGraph(p: Plan, planRevision: nat, graphRevision: nat, tasks: seq<Task>): seq<Version> {
    var graph := p.state.graph;
    var current := Current(graph);
    if p.revision != planRevision || (if current.Some? then current.value.revision else 0) != graphRevision then graph
    else if !ValidIds(tasks) then graph
    else
      match current
      case None => [Version(1, 1, p.revision, Draft, tasks)]
      case Some(v) =>
        if v.state == Locked || v.state == Superseded then graph
        else if v.state == Draft then
          SetCurrent(graph, Version(v.number, v.revision + 1, p.revision, Draft, tasks))
        else graph + [Version(v.number + 1, 1, p.revision, Draft, tasks)]
  }

  function SupersedeApproved(graph: seq<Version>): seq<Version> {
    if graph == [] then []
    else
      [if graph[0].state == Approved then graph[0].(state := Superseded) else graph[0]] + SupersedeApproved(graph[1..])
  }

  /** `approveGraph`. */
  function ApproveGraph(p: Plan): seq<Version> {
    match Current(p.state.graph)
    case None => p.state.graph
    case Some(v) =>
      if v.state != Draft || v.planRevision != p.revision || !ValidIds(v.tasks) then p.state.graph
      else SetCurrent(SupersedeApproved(p.state.graph), v.(state := Approved))
  }

  /** The well-formedness a run is checked for before it may own a graph. */
  predicate ValidRun(run: Run) {
    IsText(run.id) && IsText(run.repository) && run.graphVersion >= 1 && run.graphRevision >= 1
  }

  /** Whether an archived run was reviewed successfully or settled. */
  predicate Successful(graph: seq<Version>, a: Archived) {
    match VersionFor(graph, a.run)
    case None => false
    case Some(v) =>
      var folded := Fold(v.tasks, a.run, a.events, a.live);
      folded.Accept? && (folded.state.phase == Implemented || folded.state.phase == Delivered)
  }

  /** `claimEligibility`: the version was not implemented before and the run id is new. */
  predicate Eligible(s: State, v: Version, runId: string) {
    forall i :: 0 <= i < |s.history| ==>
      s.history[i].run.id != runId && !(Matches(s.history[i].run, v) && Successful(s.graph, s.history[i]))
  }

  /** `claimImplementation`: eligibility, then `claim`. */
  function ClaimState(p: Plan, planRevision: nat, graphRevision: nat, run: Run): State {
    var s := p.state;
    match Current(s.graph)
    case None => s
    case Some(v) =>
      if s.execution.Some? || !Eligible(s, v, run.id) then s
      else if p.revision != planRevision || !ValidRun(run) || v.revision != graphRevision then s
      else if v.state != Approved || v.planRevision != p.revision || !Matches(run, v) then s
      else s.(graph := SetCurrent(s.graph, v.(state := Locked)), execution := Some(run))
  }

  // ----- stopping, resuming and rebuilding

  const STOP_REASON := "The build stopped" + " with outstanding tasks. Later edits resume them."

  function StopCommand(runId: string): Command {
    RequestRevision(STOP_REASON, runId + ":live-stop")
  }

  /** `liveFromStopped` acts: something is left to do, and there is a pull request or a blocker to resume from. */
  predicate Stoppable(s: State) {
    s.execution.Some? && ActiveVersion(s.graph, s.execution.value).Some?
    && var folded := Fold(ActiveVersion(s.graph, s.execution.value).value.tasks, s.execution.value, s.events.Or([]), false);
       folded.Accept? && folded.state.phase == Active && !AllDone(folded.state.progress)
       && exists i :: 0 <= i < |folded.state.progress| && (folded.state.progress[i].Pr().Some? || folded.state.progress[i].Blocked?)
  }

  function MarkLive(s: State): State {
    if s.history == [] then s
    else s.(history := s.history[|s.history| - 1 := s.history[|s.history| - 1].(live := true)])
  }

  /** `liveFromStopped`: return the run with a revision request, and mark it live. */
  function StopState(s: State): State {
    if !Stoppable(s) then s
    else
      match Transition(s, s.execution.value.id, StopCommand(s.execution.value.id), false)
      case Accepted(t) =>
        if t.history != [] && t.history[|t.history| - 1].run.id == s.execution.value.id then MarkLive(t) else s
      case _ => s
  }

  /** The events that tell what became of one outstanding task; none if there is nothing to tell. */
  function ResumeEvents(item: TaskProgress, taskId: string, key: string, outcome: TaskOutcome): seq<Command> {
    if item.Done() then []
    else
      match outcome
      case StillBlocked(blocker) => [Block(taskId, blocker, key + ":block")]
      case Finished(pullRequest, summary) =>
        var existing := if item.Pr().Some? then Some(item.Pr().value.url) else None;
        var url := if pullRequest.Some? then pullRequest else existing;
        if url.Or("") == "" then []
        else
          (if item.InProgress? then [] else [Start(taskId, key + ":start")])
          + (if url == existing then [] else [ReportPr(taskId, url.value, IsOpen, key + ":pr")])
          + [Complete(taskId, summary, None, key + ":done")]
  }

  /** Whether the whole history can be shown: every log folds to the end of its run. */
  predicate Projects(s: State) {
    forall i :: 0 <= i < |s.history| ==>
      VersionFor(s.graph, s.history[i].run).Some?
      && var folded := Fold(VersionFor(s.graph, s.history[i].run).value.tasks, s.history[i].run, s.history[i].events, s.history[i].live);
         folded.Accept? && folded.state.phase != Active
  }

  /** `resumeLiveRun`: the events go before the revision, which is dropped once every task is complete. */
  function ResumeLog(s: State, at: nat, tasks: seq<Task>, added: seq<Command>): Option<seq<Command>>
    requires at < |s.history|
  {
    var a := s.history[at];
    if !a.live || a.events == [] || !a.events[|a.events| - 1].RequestRevision? then None
    else if exists i :: 0 <= i < |added| && FindKey(AllOwned(s), added[i].key).Some? then None
    else
      var events := a.events[..|a.events| - 1] + added;
      match Fold(tasks, a.run, events, true)
      case Refuse(_) => None
      case Accept(folded) =>
        if folded.phase == RevisionRequested then None
        else if folded.phase == Active then Some(events + [a.events[|a.events| - 1]])
        else Some(events)
  }

  /** One task of `resumeOutstanding`: which archived log changes, and to what. Only an edited document is rebuilt. */
  function Resumed(p: Plan, runId: string, taskId: string, buildId: string, outcome: TaskOutcome): Option<(nat, seq<Command>)> {
    var s := p.state;
    match FindRun(s.history, runId)
    case None => None
    case Some(at) =>
      if at >= |s.history| || s.history[at].run.planRevision >= p.revision then None
      else if VersionFor(s.graph, s.history[at].run).None? || !Projects(s) then None
      else
        var a, tasks := s.history[at], VersionFor(s.graph, s.history[at].run).value.tasks;
        var progress := Fold(tasks, a.run, a.events, a.live).state.progress;
        match IndexOf(progress, taskId)
        case None => None
        case Some(i) =>
          if i >= |progress| then None
          else
            var added := ResumeEvents(progress[i], taskId, buildId + ":" + taskId, outcome);
            if added == [] then None
            else
              match ResumeLog(s, at, tasks, added)
              case None => None
              case Some(events) => Some((at, events))
  }

  function WithLog(s: State, at: nat, events: seq<Command>): State
    requires at < |s.history|
  {
    s.(history := s.history[at := s.history[at].(events := events)])
  }

  function ResumeState(p: Plan, runId: string, taskId: string, buildId: string, outcome: TaskOutcome): State {
    match Resumed(p, runId, taskId, buildId, outcome)
    case None => p.state
    case Some((at, events)) => if at < |p.state.history| then WithLog(p.state, at, events) else p.state
  }

  function RebuildId(number: nat, index: nat): string {
    "rebuild-" + Decimal(number) + "-" + Decimal(index + 1)
  }

  function RebuildTasks(number: nat, n: nat): (tasks: seq<Task>)
    ensures |tasks| == n && forall i :: 0 <= i < n ==> tasks[i] == Task(RebuildId(number, i), [])
  {
    if n == 0 then [] else RebuildTasks(number, n - 1) + [Task(RebuildId(number, n - 1), [])]
  }

  /** A rebuilt task was started, given its pull request and completed. */
  function RebuildChunk(buildId: string, taskId: string, url: string, summary: string): seq<Command> {
    var key := buildId + ":" + taskId;
    [Start(taskId, key + ":start"), ReportPr(taskId, url, IsOpen, key + ":pr"), Complete(taskId, summary, None, key + ":complete")]
  }

  function RebuildLog(report: RebuildReport, number: nat, n: nat): seq<Command>
    requires n <= |report.urls|
  {
    if n == 0 then []
    else
      RebuildLog(report, number, n - 1)
      + RebuildChunk(report.id, RebuildId(number, n - 1), report.urls[n - 1], report.summary)
  }

  function RebuildRun(report: RebuildReport, number: nat): Run {
    Run(report.id, report.repository, report.target, number, 1)
  }

  /** Equal but for the case of letters. */
  predicate SameLetters(a: string, b: string) {
    |a| == |b| && forall i :: 0 <= i < |a| ==> LowerChar(a[i]) == LowerChar(b[i])
  }

  /** What a rebuild may report: a pull request of the repository, in any case and with any digits for a number. */
  predicate NearlyOwn(repository: string, url: string) {
    var front := GITHUB + repository + "/pull/";
    |front| <= |url| && SameLetters(url[..|front|], front)
    && var tail := url[|front|..];
       var number := if tail != "" && tail[|tail| - 1] == '/' then tail[..|tail| - 1] else tail;
       number != "" && AllDigits(number)
  }

  /** A run from which the document went live: it was settled as a live one, or it was reviewed successfully. */
  predicate WentLive(graph: seq<Version>, a: Archived) {
    a.live || Successful(graph, a)
  }

  /**
   * `reportRebuild` adds a version: the latest one is approved and there are tasks. The target was sealed by
   * `queueRebuild`, after an edit of the document that went live.
   */
  predicate Rebuilds(p: Plan, report: RebuildReport) {
    p.state.graph != [] && Current(p.state.graph).value.state == Approved && report.urls != [] && report.target <= p.revision
    && IsText(report.id) && IsText(report.repository) && IsText(report.summary)
    && (forall i :: 0 <= i < |report.urls| ==> NearlyOwn(report.repository, report.urls[i]))
    && exists i :: 0 <= i < |p.state.history| && WentLive(p.state.graph, p.state.history[i]) && p.state.history[i].run.planRevision < report.target
  }

  function RebuildState(p: Plan, report: RebuildReport): State {
    if !Rebuilds(p, report) then p.state
    else
      var s, v := p.state, Current(p.state.graph).value;
      var number := v.number + 1;
      s.(graph := SetCurrent(s.graph, v.(state := Superseded))
                  + [Version(number, 1, report.target, Approved, RebuildTasks(number, |report.urls|))],
         history := s.history + [Archived(RebuildRun(report, number), RebuildLog(report, number, |report.urls|), true)])
  }

  function Do(p: Plan, step: Step): Plan {
    match step
    case EditDocument => if p.state.execution.Some? then p else p.(revision := p.revision + 1)
    case Revise(planRevision, graphRevision, tasks) =>
      p.(state := p.state.(graph := ReviseGraph(p, planRevision, graphRevision, tasks)))
    case Approve => p.(state := p.state.(graph := ApproveGraph(p)))
    case Claim(planRevision, graphRevision, run) => p.(state := ClaimState(p, planRevision, graphRevision, run))
    case Tell(runId, command, live) =>
      (match Transition(p.state, runId, command, live)
       case Accepted(t) => p.(state := t)
       case Replayed(_) => p
       case Refused(_) => p)
    case Stop => p.(state := StopState(p.state))
    case Resume(runId, taskId, buildId, outcome) => p.(state := ResumeState(p, runId, taskId, buildId, outcome))
    case Rebuild(report) => p.(state := RebuildState(p, report))
  }

  function After(steps: seq<Step>): Plan {
    if steps == [] then NEW else Do(After(steps[..|steps| - 1]), steps[|steps| - 1])
  }

  // ----- what restoring a stored plan demands

  /** The shape `progressEvent` accepts. */
  predicate StoredEvent(e: Command) {
    IsText(e.key)
    && match e
       case Start(id, _) => IsText(id)
       case Block(id, reason, _) => IsText(id) && IsText(reason)
       case ReportPr(id, url, _, _) => IsText(id) && IsText(url)
       case Complete(id, summary, noChange, _) => IsText(id) && IsText(summary) && (noChange.Some? ==> ValidNoChange(noChange.value))
       case ReportVerification(_, _) => true
       case RequestRevision(reason, _) => IsText(reason)
  }

  predicate StoredEvents(events: seq<Command>) {
    events != [] && forall i :: 0 <= i < |events| ==> StoredEvent(events[i])
  }

  /** An archived run restores: its version is known and its log folds to the end of a run. */
  predicate RestorableRun(graph: seq<Version>, a: Archived) {
    ValidRun(a.run) && StoredEvents(a.events)
    && match VersionFor(graph, a.run)
       case None => false
       case Some(v) =>
         var folded := Fold(v.tasks, a.run, a.events, a.live);
         folded.Accept? && folded.state.phase != Active
  }

  predicate SameVersion(a: Run, b: Run) {
    a.graphVersion == b.graphVersion && a.graphRevision == b.graphRevision && a.planRevision == b.planRevision
  }

  /** The archived runs restore: each on its own, with distinct ids, and no version twice successfully. */
  ghost predicate HistoryRestores(s: State) {
    && (forall i :: 0 <= i < |s.history| ==> RestorableRun(s.graph, s.history[i]))
    && (forall i, j :: 0 <= i < j < |s.history| ==> s.history[i].run.id != s.history[j].run.id)
    && (forall i, j :: 0 <= i < j < |s.history| && Successful(s.graph, s.history[i]) && Successful(s.graph, s.history[j])
                       ==> !SameVersion(s.history[i].run, s.history[j].run))
  }

  /** The active run restores: it owns the locked version, its log is under way and the version is new to it. */
  ghost predicate ActiveRestores(s: State) {
    && s.graph != [] && (Current(s.graph).value.state == Locked <==> s.execution.Some?)
    && (s.events.Some? ==> s.execution.Some? && StoredEvents(s.events.value))
    && (s.execution.Some? ==>
          var active := ActiveVersion(s.graph, s.execution.value);
          active.Some?
          && (var folded := Fold(active.value.tasks, s.execution.value, s.events.Or([]), false);
              folded.Accept? && folded.state.phase == Active)
          && Eligible(s, active.value, s.execution.value.id))
  }

  /** `restoreLifecycle` accepts. */
  ghost predicate LifecycleRestores(s: State) {
    HistoryRestores(s) && ActiveRestores(s) && UniqueKeys(multiset(AllOwned(s)))
  }

  /** `restoreRun` accepts: the run is of the document as it stands. */
  ghost predicate RunRestores(p: Plan) {
    p.state.execution.Some? ==>
      ValidRun(p.state.execution.value) && p.state.graph != [] && Current(p.state.graph).value.state == Locked
      && Current(p.state.graph).value.planRevision == p.revision && Matches(p.state.execution.value, Current(p.state.graph).value)
  }

  /** `restore` accepts the graph: numbers, revisions, the order of plan revisions and the order of states. */
  ghost predicate GraphRestores(graph: seq<Version>) {
    && (forall i :: 0 <= i < |graph| ==> VersionOk(graph[i], i, |graph|))
    && (forall i, j :: 0 <= i < j < |graph| ==> graph[i].planRevision <= graph[j].planRevision)
    && (|graph| > 1 && graph[|graph| - 2].state == Approved ==> graph[|graph| - 1].state == Draft)
  }

  /** The version at `at` of `count`: all but the last are superseded, or the last but one is still approved. */
  ghost predicate VersionOk(v: Version, at: nat, count: nat) {
    && v.number == at + 1 && v.revision >= 1 && ValidIds(v.tasks)
    && (at == count - 1 ==> v.state != Superseded)
    && (at < count - 1 ==> v.state == Superseded || (at == count - 2 && v.state == Approved))
  }

  /** The stored plan is read back: its graph, its run and its lifecycle. */
  ghost predicate Restores(p: Plan) {
    if p.state.graph == [] then p.state == NEW.state
    else GraphRestores(p.state.graph) && RunRestores(p) && LifecycleRestores(p.state)
  }

  ghost predicate GraphOk(graph: seq<Version>, revision: nat) {
    GraphRestores(graph) && forall i :: 0 <= i < |graph| ==> graph[i].planRevision <= revision
  }

  /** No archived run was of a draft. */
  ghost predicate NoDraftRuns(s: State) {
    forall i :: 0 <= i < |s.history| ==>
      VersionFor(s.graph, s.history[i].run).Some? && VersionFor(s.graph, s.history[i].run).value.state != Draft
  }

  /** The plan restores, no version is ahead of the document, and no archived run was of a draft. */
  ghost predicate PlanOk(p: Plan) {
    Restores(p) && GraphOk(p.state.graph, p.revision) && NoDraftRuns(p.state)
  }
}
