/**
 * The implementation lifecycle the seeded build is driven through (apps/server/src/tasks/lifecycle.ts
 * and the graph rules of apps/server/src/tasks/graphs.ts it relies on): runs are event logs, a state
 * is the fold of a log, and a transition appends to a log or archives it.
 */
module Lifecycle {
  import opened Text

  datatype PrState = IsOpen | Merged | Closed

  datatype PullRequest = PullRequest(url: string, state: PrState)

  datatype NoChange = NoChange(reason: string, evidence: string)

  datatype Task = Task(id: string, dependsOn: seq<string>)

  /** A completed task has either a pull request or a reason why none was needed. */
  datatype TaskProgress =
    | Queued(id: string)
    | InProgress(id: string, work: Option<PullRequest>)
    | Blocked(id: string, blocker: string, work: Option<PullRequest>)
    | Completed(id: string, summary: string, request: PullRequest)
    | Unchanged(id: string, summary: string, noChange: NoChange)
  {
    predicate Done() {
      Completed? || Unchanged?
    }

    function Pr(): Option<PullRequest> {
      match this
      case InProgress(_, work) => work
      case Blocked(_, _, work) => work
      case Completed(_, _, request) => Some(request)
      case _ => None
    }

    predicate Has(url: string) {
      Pr().Some? && Pr().value.url == url
    }

    function WithPr(pr: PullRequest): TaskProgress {
      match this
      case InProgress(id, _) => InProgress(id, Some(pr))
      case Blocked(id, blocker, _) => Blocked(id, blocker, Some(pr))
      case Completed(id, summary, _) => Completed(id, summary, pr)
      case _ => this
    }
  }

  datatype Evidence = Evidence(taskId: string, items: seq<string>)

  datatype Report = Report(
    passed: bool, summary: string, reviewerMethod: string, evidence: seq<Evidence>, tasksNeedingWork: seq<string>)

  datatype Command =
    | Start(taskId: string, key: string)
    | Block(taskId: string, reason: string, key: string)
    | ReportPr(taskId: string, url: string, state: PrState, key: string)
    | Complete(taskId: string, summary: string, noChange: Option<NoChange>, key: string)
    | ReportVerification(report: Report, key: string)
    | RequestRevision(reason: string, key: string)

  datatype Run = Run(id: string, repository: string, planRevision: nat, graphVersion: nat, graphRevision: nat)

  datatype VersionState = Draft | Approved | Locked | Superseded

  datatype Version = Version(number: nat, revision: nat, planRevision: nat, state: VersionState, tasks: seq<Task>)

  datatype Archived = Archived(run: Run, events: seq<Command>, live: bool)

  datatype State = State(
    graph: seq<Version>, execution: Option<Run>, events: Option<seq<Command>>, history: seq<Archived>)

  datatype Phase = Active | RevisionRequested | Implemented | Delivered

  datatype Reduced = Reduced(phase: Phase, progress: seq<TaskProgress>, verification: Option<Report>)

  datatype Reduction = Accept(state: Reduced) | Refuse(reason: string)

  datatype Result = Accepted(state: State) | Replayed(state: State) | Refused(reason: string)

  predicate IsText(s: string) {
    Trim(s) != ""
  }

  predicate ValidNoChange(n: NoChange) {
    IsText(n.reason) && IsText(n.evidence)
  }

  // ----- pull request addresses

  const GITHUB := "https://github.com/"

  /** `[^/]+\/[^/]+`. */
  predicate IsRepository(r: string) {
    exists i :: 0 < i < |r| - 1 && r[i] == '/' && '/' !in r[..i] && '/' !in r[i + 1..]
  }

  /** `[1-9]\d*`. */
  predicate IsNumber(s: string) {
    s != "" && AllDigits(s) && s[0] != '0'
  }

  /** `ownPullRequest`: a pull request address of exactly this repository, with or without a final slash. */
  predicate OwnPullRequest(repository: string, url: string) {
    var front := GITHUB + repository + "/pull/";
    IsRepository(repository) && front <= url
    && var tail := url[|front|..];
       IsNumber(if tail != "" && tail[|tail| - 1] == '/' then tail[..|tail| - 1] else tail)
  }

  // ----- one event

  function IndexOf(progress: seq<TaskProgress>, id: string): Option<nat> {
    if progress == [] then None
    else if progress[0].id == id then Some(0)
    else
      match IndexOf(progress[1..], id)
      case None => None
      case Some(i) => Some(i + 1)
  }

  predicate IsDone(progress: seq<TaskProgress>, id: string) {
    match IndexOf(progress, id)
    case None => false
    case Some(i) => i < |progress| && progress[i].Done()
  }

  predicate AllDone(progress: seq<TaskProgress>) {
    forall i :: 0 <= i < |progress| ==> progress[i].Done()
  }

  predicate Distinct(ids: seq<string>) {
    forall i, j :: 0 <= i < j < |ids| ==> ids[i] != ids[j]
  }

  function Ids(tasks: seq<Task>): (ids: seq<string>)
    ensures |ids| == |tasks| && forall i :: 0 <= i < |tasks| ==> ids[i] == tasks[i].id
  {
    if tasks == [] then [] else [tasks[0].id] + Ids(tasks[1..])
  }

  function EvidenceIds(evidence: seq<Evidence>): (ids: seq<string>)
    ensures |ids| == |evidence| && forall i :: 0 <= i < |evidence| ==> ids[i] == evidence[i].taskId
  {
    if evidence == [] then [] else [evidence[0].taskId] + EvidenceIds(evidence[1..])
  }

  function Elements(xs: seq<string>): set<string> {
    set x | x in xs
  }

  predicate ValidEvidence(entry: Evidence, ids: seq<string>) {
    IsText(entry.taskId) && entry.taskId in ids && entry.items != []
    && forall k :: 0 <= k < |entry.items| ==> IsText(entry.items[k])
  }

  /** A report covers every task exactly once, and asks for work exactly when it did not pass. */
  predicate ValidReport(report: Report, tasks: seq<Task>) {
    && IsText(report.summary) && IsText(report.reviewerMethod)
    && (forall i :: 0 <= i < |report.evidence| ==> ValidEvidence(report.evidence[i], Ids(tasks)))
    && Distinct(EvidenceIds(report.evidence))
    && |Elements(EvidenceIds(report.evidence))| == |Elements(Ids(tasks))|
    && (forall i :: 0 <= i < |report.tasksNeedingWork| ==>
          IsText(report.tasksNeedingWork[i]) && report.tasksNeedingWork[i] in Ids(tasks))
    && Distinct(report.tasksNeedingWork)
    && (if report.passed then report.tasksNeedingWork == [] else report.tasksNeedingWork != [])
  }

  /** The last state recorded per address, as the loop's map holds it. */
  function RequestStates(progress: seq<TaskProgress>): map<string, PrState> {
    if progress == [] then map[]
    else
      var before, last := RequestStates(progress[..|progress| - 1]), progress[|progress| - 1];
      if last.Completed? then before[last.request.url := last.request.state] else before
  }

  function DeliveryPhase(progress: seq<TaskProgress>): Phase {
    if !AllDone(progress) then Implemented
    else
      var requests := RequestStates(progress);
      if requests != map[] && forall url :: url in requests ==> requests[url] == Merged then Delivered else Implemented
  }

  function SetState(progress: seq<TaskProgress>, url: string, state: PrState): seq<TaskProgress> {
    if progress == [] then []
    else
      [if progress[0].Has(url) then progress[0].WithPr(PullRequest(url, state)) else progress[0]]
      + SetState(progress[1..], url, state)
  }

  function SetCompleted(progress: seq<TaskProgress>, url: string, state: PrState): seq<TaskProgress> {
    if progress == [] then []
    else
      [if progress[0].Completed? && progress[0].request.url == url then progress[0].WithPr(PullRequest(url, state)) else progress[0]]
      + SetCompleted(progress[1..], url, state)
  }

  predicate AnyMerged(progress: seq<TaskProgress>, url: string) {
    exists i :: 0 <= i < |progress| && progress[i].Pr() == Some(PullRequest(url, Merged))
  }

  /** Reopen the completed tasks a failed review names. */
  function Reopen(progress: seq<TaskProgress>, work: seq<string>): seq<TaskProgress> {
    if progress == [] then []
    else
      [if progress[0].id in work && progress[0].Done() then InProgress(progress[0].id, progress[0].Pr()) else progress[0]]
      + Reopen(progress[1..], work)
  }

  /** After review only the state of delivered pull requests can still change. */
  function ReduceTerminal(s: Reduced, run: Run, e: Command): Reduction {
    if !e.ReportPr? then Refuse("terminal")
    else
      var at := IndexOf(s.progress, e.taskId);
      if at.None? || at.value >= |s.progress| || !s.progress[at.value].Completed? || s.progress[at.value].request.url != e.url then
        Refuse("pull-request")
      else if !OwnPullRequest(run.repository, e.url) then Refuse("repository")
      else if AnyMerged(s.progress, e.url) && e.state != Merged then Refuse("pull-request-state")
      else
        var next := SetCompleted(s.progress, e.url, e.state);
        Accept(Reduced(DeliveryPhase(next), next, s.verification))
  }

  /** Why the progress does not allow a review yet; empty when it does. */
  function ReviewRefusal(progress: seq<TaskProgress>, run: Run): string {
    if progress == [] then ""
    else
      var item := progress[0];
      if !item.Done() then "task-state"
      else if item.Unchanged? then ReviewRefusal(progress[1..], run)
      else if item.request.state == Closed then "pull-request"
      else if !OwnPullRequest(run.repository, item.request.url) then "repository"
      else ReviewRefusal(progress[1..], run)
  }

  function ReduceReview(s: Reduced, tasks: seq<Task>, run: Run, report: Report): Reduction {
    if !ValidReport(report, tasks) then Refuse("verification")
    else if ReviewRefusal(s.progress, run) != "" then Refuse(ReviewRefusal(s.progress, run))
    else if report.passed then Accept(Reduced(DeliveryPhase(s.progress), s.progress, Some(report)))
    else Accept(Reduced(Active, Reopen(s.progress, report.tasksNeedingWork), Some(report)))
  }

  datatype Next = Becomes(item: TaskProgress) | Not(reason: string)

  /** What a command on one task makes of that task. */
  function NextItem(s: Reduced, task: Task, item: TaskProgress, run: Run, e: Command, live: bool): Next
    requires e.Start? || e.Block? || e.ReportPr? || e.Complete?
  {
    match e
    case Start(_, _) =>
      if !item.Queued? && !item.Blocked? then Not("task-state")
      else if exists i :: 0 <= i < |task.dependsOn| && !IsDone(s.progress, task.dependsOn[i]) then Not("dependency")
      else Becomes(InProgress(item.id, if item.Blocked? then item.work else None))
    case Block(_, reason, _) =>
      if !item.InProgress? && !item.Queued? && !(live && item.Blocked?) then Not("task-state")
      else if !IsText(reason) then Not("reason")
      else Becomes(Blocked(item.id, reason, if item.Queued? then None else item.work))
    case ReportPr(_, url, state, _) =>
      if item.Queued? then Not("task-state")
      else if item.Unchanged? then Not("no-change")
      else if !IsText(url) then Not("pull-request")
      else if !OwnPullRequest(run.repository, url) then Not("repository")
      else if AnyMerged(s.progress, url) && state != Merged then Not("pull-request-state")
      else Becomes(item.WithPr(PullRequest(url, state)))
    case Complete(_, summary, noChange, _) =>
      if item.Done() then Not("already-complete")
      else if !item.InProgress? then Not("task-state")
      else if noChange.Some? then
        if item.work.Some? then Not("no-change-pull-request")
        else if !ValidNoChange(noChange.value) then Not("no-change")
        else if !IsText(summary) then Not("summary")
        else Becomes(Unchanged(item.id, summary, noChange.value))
      else if item.work.None? then Not("pull-request")
      else if !IsText(summary) then Not("summary")
      else Becomes(Completed(item.id, summary, item.work.value))
    case _ => Not("task")
  }

  function ReduceTask(s: Reduced, tasks: seq<Task>, run: Run, e: Command, live: bool): Reduction
    requires e.Start? || e.Block? || e.ReportPr? || e.Complete?
  {
    var at := IndexOf(s.progress, e.taskId);
    if at.None? || at.value >= |s.progress| || at.value >= |tasks| then Refuse("task")
    else
      match NextItem(s, tasks[at.value], s.progress[at.value], run, e, live)
      case Not(reason) => Refuse(reason)
      case Becomes(item) =>
        var others := if e.ReportPr? && e.state == Merged then SetState(s.progress, e.url, Merged) else s.progress;
        if at.value >= |others| then Refuse("task")
        else Accept(Reduced(Active, others[at.value := item], s.verification))
  }

  function Reduce(s: Reduced, tasks: seq<Task>, run: Run, e: Command, live: bool): Reduction {
    match s.phase
    case RevisionRequested => Refuse("terminal")
    case Implemented => ReduceTerminal(s, run, e)
    case Delivered => ReduceTerminal(s, run, e)
    case Active =>
      match e
      case RequestRevision(reason, _) =>
        if IsText(reason) then Accept(s.(phase := RevisionRequested)) else Refuse("reason")
      case ReportVerification(report, _) => ReduceReview(s, tasks, run, report)
      case _ => ReduceTask(s, tasks, run, e, live)
  }

  // ----- logs

  function InitialProgress(tasks: seq<Task>): seq<TaskProgress> {
    if tasks == [] then [] else [Queued(tasks[0].id)] + InitialProgress(tasks[1..])
  }

  function Initial(tasks: seq<Task>): Reduced {
    Reduced(Active, InitialProgress(tasks), None)
  }

  /** A live run counts as implemented once every task is complete. */
  function Settled(s: Reduced): Reduced {
    if s.phase == Active && AllDone(s.progress) then s.(phase := DeliveryPhase(s.progress)) else s
  }

  function Apply(r: Reduction, tasks: seq<Task>, run: Run, e: Command, live: bool): Reduction {
    match r
    case Refuse(_) => r
    case Accept(s) =>
      match Reduce(s, tasks, run, e, live)
      case Refuse(reason) => Refuse(reason)
      case Accept(t) => Accept(if live then Settled(t) else t)
  }

  function Fold(tasks: seq<Task>, run: Run, events: seq<Command>, live: bool): Reduction {
    if events == [] then Accept(Initial(tasks))
    else Apply(Fold(tasks, run, events[..|events| - 1], live), tasks, run, events[|events| - 1], live)
  }

  /** `foldRun`: stop at the first refused event. */
  method FoldRun(tasks: seq<Task>, run: Run, events: seq<Command>, live: bool) returns (r: Reduction)
    ensures r == Fold(tasks, run, events, live)
  {
    var state := Initial(tasks);
    for n := 0 to |events|
      invariant Fold(tasks, run, events[..n], live) == Accept(state)
    {
      assert events[..n + 1][..n] == events[..n];
      var result := Reduce(state, tasks, run, events[n], live);
      if result.Refuse? {
        RefusedStaysRefused(tasks, run, events, live, n + 1);
        return result;
      }
      state := if live then Settled(result.state) else result.state;
    }
    assert events[..|events|] == events;
    r := Accept(state);
  }

  lemma {:induction false} RefusedStaysRefused(tasks: seq<Task>, run: Run, events: seq<Command>, live: bool, n: nat)
    requires n <= |events| && Fold(tasks, run, events[..n], live).Refuse?
    ensures Fold(tasks, run, events, live) == Fold(tasks, run, events[..n], live)
    decreases |events|
  {
    if n == |events| {
      assert events[..n] == events;
    } else {
      var front := events[..|events| - 1];
      assert front[..n] == events[..n];
      RefusedStaysRefused(tasks, run, front, live, n);
    }
  }

  /** `deliveryPhase`: one pass that remembers the last state seen per address. */
  method ComputeDeliveryPhase(progress: seq<TaskProgress>) returns (phase: Phase)
    ensures phase == DeliveryPhase(progress)
  {
    var requests: map<string, PrState> := map[];
    for n := 0 to |progress|
      invariant requests == RequestStates(progress[..n])
      invariant forall i :: 0 <= i < n ==> progress[i].Done()
    {
      assert progress[..n + 1][..n] == progress[..n];
      var task := progress[n];
      if !task.Done() {
        return Implemented;
      }
      if task.Completed? {
        requests := requests[task.request.url := task.request.state];
      }
    }
    assert progress[..|progress|] == progress;
    phase := if requests != map[] && forall url :: url in requests ==> requests[url] == Merged then Delivered else Implemented;
  }

  // ----- transitions

  predicate Matches(run: Run, v: Version) {
    run.graphVersion == v.number && run.graphRevision == v.revision && run.planRevision == v.planRevision
  }

  function VersionFor(graph: seq<Version>, run: Run): Option<Version> {
    if graph == [] then None
    else if Matches(run, graph[0]) then Some(graph[0])
    else VersionFor(graph[1..], run)
  }

  function Current(graph: seq<Version>): Option<Version> {
    if graph == [] then None else Some(graph[|graph| - 1])
  }

  function ActiveVersion(graph: seq<Version>, run: Run): Option<Version> {
    match Current(graph)
    case None => None
    case Some(v) => if v.state == Locked && Matches(run, v) then Some(v) else None
  }

  datatype Owned = Owned(runId: string, event: Command)

  function OwnedBy(runId: string, events: seq<Command>): seq<Owned> {
    if events == [] then [] else [Owned(runId, events[0])] + OwnedBy(runId, events[1..])
  }

  function OwnedHistory(history: seq<Archived>): seq<Owned> {
    if history == [] then [] else OwnedBy(history[0].run.id, history[0].events) + OwnedHistory(history[1..])
  }

  /** Every event of the active run, then of the archived ones. */
  function AllOwned(s: State): seq<Owned> {
    (if s.execution.Some? then OwnedBy(s.execution.value.id, s.events.Or([])) else []) + OwnedHistory(s.history)
  }

  function FindKey(owned: seq<Owned>, key: string): Option<Owned> {
    if owned == [] then None
    else if owned[0].event.key == key then Some(owned[0])
    else FindKey(owned[1..], key)
  }

  function FindRun(history: seq<Archived>, runId: string): Option<nat> {
    if history == [] then None
    else if history[0].run.id == runId then Some(0)
    else
      match FindRun(history[1..], runId)
      case None => None
      case Some(i) => Some(i + 1)
  }

  /** Approve the version again and archive the run. */
  function Released(s: State, run: Run, events: seq<Command>, live: bool): State {
    State(
      if s.graph == [] then [] else s.graph[|s.graph| - 1 := s.graph[|s.graph| - 1].(state := Approved)],
      None, None, s.history + [Archived(run, events, live)])
  }

  /** A late pull request report on an archived run. */
  function TransitionArchived(s: State, e: Command, at: nat): Result
    requires at < |s.history|
  {
    var archived := s.history[at];
    if !e.ReportPr? then Refused("inactive")
    else
      match VersionFor(s.graph, archived.run)
      case None => Refused("inactive")
      case Some(v) =>
        match Fold(v.tasks, archived.run, archived.events, archived.live)
        case Refuse(reason) => Refused(reason)
        case Accept(folded) =>
          match Reduce(folded, v.tasks, archived.run, e, false)
          case Refuse(reason) => Refused(reason)
          case Accept(t) =>
            if t.phase == Active || t.phase == RevisionRequested then Refused("inactive")
            else Accepted(s.(history := s.history[at := archived.(events := archived.events + [e])]))
  }

  function TransitionActive(s: State, runId: string, e: Command, live: bool): Result {
    if s.execution.None? || runId != s.execution.value.id || ActiveVersion(s.graph, s.execution.value).None? then Refused("run")
    else
      var run, tasks := s.execution.value, ActiveVersion(s.graph, s.execution.value).value.tasks;
      match Fold(tasks, run, s.events.Or([]), false)
      case Refuse(_) => Refused("invalid-lifecycle")
      case Accept(folded) =>
        if folded.phase != Active then Refused("invalid-lifecycle")
        else
          match Reduce(folded, tasks, run, e, false)
          case Refuse(reason) => Refused(reason)
          case Accept(t) =>
            var events := s.events.Or([]) + [e];
            if t.phase != Active then Accepted(Released(s, run, events, false))
            else if live && Settled(t).phase != Active then Accepted(Released(s, run, events, true))
            else Accepted(s.(events := Some(events)))
  }

  /** `transition`: replay a known key, report on an archived run, or append to the active one. */
  function Transition(s: State, runId: string, e: Command, live: bool): Result {
    if !IsText(runId) then Refused("run")
    else if !IsText(e.key) then Refused("idempotency-key")
    else
      match FindKey(AllOwned(s), e.key)
      case Some(prior) =>
        if prior == Owned(runId, e) then Replayed(s) else Refused("idempotency-conflict")
      case None =>
        match FindRun(s.history, runId)
        case Some(at) => if at < |s.history| then TransitionArchived(s, e, at) else Refused("inactive")
        case None => TransitionActive(s, runId, e, live)
  }
}
