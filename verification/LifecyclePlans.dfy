/** Every step that edits, revises, approves, claims or reports keeps a plan restorable, or is the one release that cannot. */
module LifecyclePlans {
  import opened Text
  import opened Lifecycle
  import opened LifecycleLogs
  import opened LifecycleReplay
  import opened LifecycleRuns

  // ----- versions

  lemma {:induction false} VersionForIsFirst(graph: seq<Version>, run: Run)
    ensures match VersionFor(graph, run)
            case None => forall i :: 0 <= i < |graph| ==> !Matches(run, graph[i])
            case Some(v) => exists i :: 0 <= i < |graph| && graph[i] == v && Matches(run, v)
  {
    if graph != [] {
      VersionForIsFirst(graph[1..], run);
      if VersionFor(graph, run).Some? && !Matches(run, graph[0]) {
        var i :| 0 <= i < |graph[1..]| && graph[1..][i] == VersionFor(graph[1..], run).value;
        assert graph[i + 1] == graph[1..][i];
      }
      assert forall i :: 1 <= i < |graph| ==> graph[1..][i - 1] == graph[i];
    }
  }

  ghost predicate Numbered(graph: seq<Version>) {
    forall i :: 0 <= i < |graph| ==> graph[i].number == i + 1
  }

  /** With numbered versions the one a run matches is the one it names. */
  lemma {:induction false} VersionByNumber(graph: seq<Version>, run: Run, i: nat)
    requires Numbered(graph) && i < |graph| && Matches(run, graph[i])
    ensures VersionFor(graph, run) == Some(graph[i])
  {
    VersionForIsFirst(graph, run);
    var v := VersionFor(graph, run).value;
    var k :| 0 <= k < |graph| && graph[k] == v && Matches(run, v);
  }

  /** Later graphs keep every version that is not a draft, up to its state. */
  ghost predicate Keeps(graph: seq<Version>, later: seq<Version>) {
    Numbered(graph) && Numbered(later)
    && forall i :: 0 <= i < |graph| && graph[i].state != Draft ==>
         i < |later| && later[i].state != Draft && later[i].revision == graph[i].revision
         && later[i].planRevision == graph[i].planRevision && later[i].tasks == graph[i].tasks
  }

  lemma {:induction false} KeptVersion(graph: seq<Version>, later: seq<Version>, run: Run)
    requires Keeps(graph, later) && VersionFor(graph, run).Some? && VersionFor(graph, run).value.state != Draft
    ensures VersionFor(later, run).Some? && VersionFor(later, run).value.state != Draft
    ensures VersionFor(later, run).value.tasks == VersionFor(graph, run).value.tasks
  {
    VersionForIsFirst(graph, run);
    var i :| 0 <= i < |graph| && graph[i] == VersionFor(graph, run).value && Matches(run, graph[i]);
    VersionByNumber(later, run, i);
  }

  ghost predicate HistoryOk(s: State) {
    HistoryRestores(s) && NoDraftRuns(s)
  }

  lemma {:induction false} KeptHistory(s: State, later: seq<Version>)
    requires Keeps(s.graph, later) && HistoryOk(s)
    ensures HistoryOk(s.(graph := later))
    ensures forall i :: 0 <= i < |s.history| ==> Successful(s.graph, s.history[i]) == Successful(later, s.history[i])
  {
    forall i | 0 <= i < |s.history|
      ensures RestorableRun(later, s.history[i]) && Successful(s.graph, s.history[i]) == Successful(later, s.history[i])
              && VersionFor(later, s.history[i].run).Some? && VersionFor(later, s.history[i].run).value.state != Draft
    {
      KeptVersion(s.graph, later, s.history[i].run);
    }
  }

  lemma {:induction false} IdleRestores(s: State)
    requires s.graph != [] && s.execution.None? && s.events.None? && Current(s.graph).value.state != Locked
    ensures ActiveRestores(s)
  {}

  /** While no run is active, a kept graph with an unlocked current version keeps the plan restorable. */
  lemma {:induction false} IdleGraphStep(p: Plan, q: Plan)
    requires PlanOk(p) && p.state.graph != [] && p.state.execution.None?
    requires q.state == p.state.(graph := q.state.graph) && GraphOk(q.state.graph, q.revision)
    requires Keeps(p.state.graph, q.state.graph) && q.state.graph != [] && Current(q.state.graph).value.state != Locked
    ensures PlanOk(q)
  {
    KeptHistory(p.state, q.state.graph);
    IdleRestores(q.state);
    assert AllOwned(q.state) == AllOwned(p.state);
  }

  lemma {:induction false} BumpedDraft(graph: seq<Version>, revision: nat, v: Version)
    requires GraphOk(graph, revision) && graph != [] && Current(graph).value.state == Draft
    requires v.number == |graph| && v.revision >= 1 && v.planRevision == revision && v.state == Draft && ValidIds(v.tasks)
    ensures GraphOk(SetCurrent(graph, v), revision) && Keeps(graph, SetCurrent(graph, v))
  {
    SetCurrentAt(graph, v, revision);
  }

  lemma {:induction false} SetCurrentAt(graph: seq<Version>, v: Version, revision: nat)
    requires GraphOk(graph, revision) && graph != []
    ensures var later := SetCurrent(graph, v);
            |later| == |graph| && later[|graph| - 1] == v && Current(later) == Some(v)
            && (forall i :: 0 <= i < |graph| - 1 ==> later[i] == graph[i] && later[i].state != Draft && later[i].number == i + 1)
  {
    forall i | 0 <= i < |graph| - 1 ensures graph[i].state != Draft && graph[i].number == i + 1 {
      assert VersionOk(graph[i], i, |graph|);
    }
  }

  lemma {:induction false} PushedDraft(graph: seq<Version>, revision: nat, v: Version)
    requires GraphOk(graph, revision) && graph != [] && Current(graph).value.state == Approved
    requires v.number == |graph| + 1 && v.revision >= 1 && v.planRevision == revision && v.state == Draft && ValidIds(v.tasks)
    ensures GraphOk(graph + [v], revision) && Keeps(graph, graph + [v])
  {
    var later := graph + [v];
    assert Current(later) == Some(v) && later[|graph|] == v;
    assert forall i :: 0 <= i < |graph| ==> later[i] == graph[i];
  }

  lemma {:induction false} ReviseKeepsPlanOk(p: Plan, planRevision: nat, graphRevision: nat, tasks: seq<Task>)
    requires PlanOk(p)
    ensures PlanOk(Do(p, Revise(planRevision, graphRevision, tasks)))
  {
    var graph := p.state.graph;
    var q := p.(state := p.state.(graph := ReviseGraph(p, planRevision, graphRevision, tasks)));
    if q.state.graph == graph {
      assert q == p;
    } else if graph == [] {
      FirstDraft(p, q, tasks);
    } else {
      RevisedGraph(p, planRevision, graphRevision, tasks);
      assert p.state.execution.None?;
      IdleGraphStep(p, q);
    }
  }

  lemma {:induction false} RevisedGraph(p: Plan, planRevision: nat, graphRevision: nat, tasks: seq<Task>)
    requires GraphOk(p.state.graph, p.revision) && p.state.graph != []
    requires ReviseGraph(p, planRevision, graphRevision, tasks) != p.state.graph
    ensures var later := ReviseGraph(p, planRevision, graphRevision, tasks);
            GraphOk(later, p.revision) && Keeps(p.state.graph, later) && later != [] && Current(later).value.state == Draft
    ensures Current(p.state.graph).value.state != Locked
  {
    var graph := p.state.graph;
    var v := Current(graph).value;
    assert VersionOk(graph[|graph| - 1], |graph| - 1, |graph|);
    if v.state == Draft {
      var w := Version(v.number, v.revision + 1, p.revision, Draft, tasks);
      BumpedDraft(graph, p.revision, w);
      SetCurrentAt(graph, w, p.revision);
    } else {
      PushedDraft(graph, p.revision, Version(v.number + 1, 1, p.revision, Draft, tasks));
    }
  }

  lemma {:induction false} FirstDraft(p: Plan, q: Plan, tasks: seq<Task>)
    requires PlanOk(p) && p.state.graph == [] && ValidIds(tasks)
    requires q == p.(state := p.state.(graph := [Version(1, 1, p.revision, Draft, tasks)]))
    ensures PlanOk(q)
  {
    assert AllOwned(q.state) == [];
    OneDraft(p.revision, tasks);
  }

  lemma {:induction false} OneDraft(revision: nat, tasks: seq<Task>)
    requires ValidIds(tasks)
    ensures GraphOk([Version(1, 1, revision, Draft, tasks)], revision)
  {}

  lemma {:induction false} SupersededAt(graph: seq<Version>)
    ensures |SupersedeApproved(graph)| == |graph|
    ensures forall i :: 0 <= i < |graph| ==>
              SupersedeApproved(graph)[i] == if graph[i].state == Approved then graph[i].(state := Superseded) else graph[i]
  {
    if graph != [] {
      SupersededAt(graph[1..]);
    }
  }

  lemma {:induction false} ApprovedGraph(graph: seq<Version>, revision: nat)
    requires GraphOk(graph, revision) && graph != [] && Current(graph).value.state == Draft
    ensures var later := SetCurrent(SupersedeApproved(graph), Current(graph).value.(state := Approved));
            GraphOk(later, revision) && Keeps(graph, later) && later != [] && Current(later).value.state == Approved
  {
    SupersededAt(graph);
    var n := |graph| - 1;
    var later := SetCurrent(SupersedeApproved(graph), graph[n].(state := Approved));
    assert later[n] == graph[n].(state := Approved) && Current(later) == Some(later[n]);
    assert forall i :: 0 <= i < n ==> later[i] == graph[i].(state := Superseded);
  }

  lemma {:induction false} ApproveKeepsPlanOk(p: Plan)
    requires PlanOk(p)
    ensures PlanOk(Do(p, Approve))
  {
    var q := p.(state := p.state.(graph := ApproveGraph(p)));
    if q.state.graph != p.state.graph {
      ApprovedGraph(p.state.graph, p.revision);
      IdleGraphStep(p, q);
    } else {
      assert q == p;
    }
  }

  lemma {:induction false} LockedGraph(graph: seq<Version>, revision: nat)
    requires GraphOk(graph, revision) && graph != [] && Current(graph).value.state == Approved
    ensures var v := Current(graph).value.(state := Locked);
            GraphOk(SetCurrent(graph, v), revision) && Keeps(graph, SetCurrent(graph, v)) && Current(SetCurrent(graph, v)) == Some(v)
  {
    SetCurrentAt(graph, Current(graph).value.(state := Locked), revision);
    assert VersionOk(Current(graph).value, |graph| - 1, |graph|);
  }

  /** A freshly claimed version is under way with an empty log. */
  lemma {:induction false} ClaimedActive(s: State, t: State, v: Version, run: Run)
    requires s.execution.None? && s.events.None? && t.graph != []
    requires t == s.(graph := t.graph, execution := Some(run)) && Current(t.graph) == Some(v.(state := Locked))
    requires Matches(run, v) && Eligible(s, v, run.id)
    requires forall i :: 0 <= i < |s.history| ==> Successful(s.graph, s.history[i]) == Successful(t.graph, s.history[i])
    ensures ActiveRestores(t)
  {
    assert ActiveVersion(t.graph, run) == Some(v.(state := Locked));
    assert Fold(v.tasks, run, [], false) == Accept(Initial(v.tasks));
  }

  lemma {:induction false} ClaimedOwns(s: State, t: State, run: Run)
    requires s.execution.None? && s.events.None? && t.history == s.history && t.execution == Some(run) && t.events.None?
    ensures AllOwned(t) == AllOwned(s)
  {
    assert OwnedBy(run.id, []) == [];
    assert [] + OwnedHistory(s.history) == OwnedHistory(s.history);
  }

  lemma {:induction false} ClaimedPlan(p: Plan, v: Version, run: Run)
    requires PlanOk(p) && p.state.execution.None? && Current(p.state.graph) == Some(v) && v.state == Approved
    requires v.planRevision == p.revision && ValidRun(run) && Matches(run, v) && Eligible(p.state, v, run.id)
    ensures PlanOk(p.(state := p.state.(graph := SetCurrent(p.state.graph, v.(state := Locked)), execution := Some(run))))
  {
    var s := p.state;
    var t := s.(graph := SetCurrent(s.graph, v.(state := Locked)), execution := Some(run));
    LockedGraph(s.graph, p.revision);
    KeptHistory(s, t.graph);
    ClaimedActive(s, t, v, run);
    ClaimedOwns(s, t, run);
  }

  lemma {:induction false} ClaimKeepsPlanOk(p: Plan, planRevision: nat, graphRevision: nat, run: Run)
    requires PlanOk(p)
    ensures PlanOk(Do(p, Claim(planRevision, graphRevision, run)))
  {
    var t := ClaimState(p, planRevision, graphRevision, run);
    if t != p.state {
      ClaimedPlan(p, Current(p.state.graph).value, run);
    } else {
      assert p.(state := t) == p;
    }
  }

  // ----- reports

  /** Whatever an accepted reduction appends has the stored shape. */
  lemma {:induction false} AcceptedEventIsStored(tasks: seq<Task>, s: Reduced, run: Run, e: Command, live: bool)
    requires LogOk(tasks, s) && ValidIds(tasks) && IsText(e.key) && Reduce(s, tasks, run, e, live).Accept?
    requires s.phase == Implemented || s.phase == Delivered ==> IsText(run.repository)
    ensures StoredEvent(e)
  {
    if e.Start? || e.Block? || e.ReportPr? || e.Complete? {
      IndexOfIsFirst(s.progress, e.taskId);
      assert IsText(e.taskId);
      if s.phase != Active {
        OwnIsText(run.repository, e.url);
      }
    }
  }

  lemma {:induction false} OwnIsText(repository: string, url: string)
    requires OwnPullRequest(repository, url)
    ensures IsText(url)
  {
    assert url[0] == 'h' && !IsBlank('h');
    FirstNotBlank(url);
  }

  lemma {:induction false} FirstNotBlank(s: string)
    requires s != "" && !IsBlank(s[0])
    ensures IsText(s)
  {
    TrimIsEmpty(s);
  }

  lemma {:induction false} StoredSnoc(events: seq<Command>, e: Command)
    requires events == [] || StoredEvents(events)
    requires StoredEvent(e)
    ensures StoredEvents(events + [e])
  {
  }

  lemma {:induction false} ArchivedKeepsHistoryOk(s: State, e: Command, at: nat)
    requires HistoryOk(s) && at < |s.history| && IsText(e.key) && TransitionArchived(s, e, at).Accepted?
    requires forall i :: 0 <= i < |s.graph| ==> ValidIds(s.graph[i].tasks)
    ensures HistoryOk(TransitionArchived(s, e, at).state)
    ensures forall i :: 0 <= i < |s.history| ==>
              var t := TransitionArchived(s, e, at).state;
              t.history[i].run == s.history[i].run && Successful(t.graph, t.history[i]) == Successful(s.graph, s.history[i])
  {
    var a := s.history[at];
    var t := TransitionArchived(s, e, at).state;
    var v := VersionFor(s.graph, a.run).value;
    VersionForIsFirst(s.graph, a.run);
    LogsAreOk(v.tasks, a.run, a.events, a.live);
    var folded := Fold(v.tasks, a.run, a.events, a.live).state;
    AcceptedEventIsStored(v.tasks, folded, a.run, e, false);
    StoredSnoc(a.events, e);
    FoldSnoc(v.tasks, a.run, a.events, e, a.live);
    ReduceKeepsLogOk(v.tasks, folded, a.run, e, false);
    assert t.history[at] == a.(events := a.events + [e]);
    assert RestorableRun(t.graph, t.history[at]) && Successful(t.graph, t.history[at]) == Successful(s.graph, a);
    OneRunReplaced(s, t, at);
  }

  /** An archived run is replaced by one of the same run that restores and is successful if it was. */
  lemma {:induction false} OneRunReplaced(s: State, t: State, at: nat)
    requires HistoryOk(s) && at < |s.history| == |t.history| && t.graph == s.graph && t.history == s.history[at := t.history[at]]
    requires t.history[at].run == s.history[at].run && RestorableRun(t.graph, t.history[at])
    requires Successful(t.graph, t.history[at]) == Successful(s.graph, s.history[at])
    ensures HistoryOk(t)
    ensures forall i :: 0 <= i < |s.history| ==>
              t.history[i].run == s.history[i].run && Successful(t.graph, t.history[i]) == Successful(s.graph, s.history[i])
  {
    forall i | 0 <= i < |s.history|
      ensures t.history[i].run == s.history[i].run && RestorableRun(t.graph, t.history[i])
              && Successful(t.graph, t.history[i]) == Successful(s.graph, s.history[i])
    {
      if i != at {
        assert t.history[i] == s.history[i];
      }
    }
    ReplacedHistoryIsOk(s, t);
  }

  /** The same runs with other logs. */
  lemma {:induction false} ReplacedHistoryIsOk(s: State, t: State)
    requires HistoryOk(s) && t.graph == s.graph && |t.history| == |s.history|
    requires forall i :: 0 <= i < |s.history| ==> t.history[i].run == s.history[i].run && RestorableRun(t.graph, t.history[i])
    requires forall i, j :: 0 <= i < j < |t.history| && Successful(t.graph, t.history[i]) && Successful(t.graph, t.history[j])
                            ==> !SameVersion(t.history[i].run, t.history[j].run)
    ensures HistoryOk(t)
  {}

  /** The guard of the branch that can go wrong: a live release whose log does not fold as a live log. */
  predicate ReleasesUnfoldable(s: State, runId: string, e: Command, live: bool) {
    match Transition(s, runId, e, live)
    case Accepted(t) =>
      s.execution.Some? && t.execution.None? && t.history != [] && ActiveVersion(s.graph, s.execution.value).Some?
      && t.history[|t.history| - 1].live
      && Fold(ActiveVersion(s.graph, s.execution.value).value.tasks, s.execution.value, s.events.Or([]) + [e], true).Refuse?
    case _ => false
  }

  lemma {:induction false} ReleaseKeepsHistoryOk(s: State, run: Run, events: seq<Command>, live: bool, v: Version)
    requires HistoryOk(s) && s.graph != [] && Numbered(s.graph) && ActiveVersion(s.graph, run) == Some(v)
    requires ValidRun(run) && StoredEvents(events) && Eligible(s, v, run.id)
    requires Fold(v.tasks, run, events, live).Accept? && Fold(v.tasks, run, events, live).state.phase != Active
    ensures HistoryOk(Released(s, run, events, live))
  {
    var t := Released(s, run, events, live);
    var kept := s.(graph := t.graph);
    var a := Archived(run, events, live);
    KeptHistory(s, t.graph);
    VersionByNumber(s.graph, run, |s.graph| - 1);
    VersionByNumber(t.graph, run, |s.graph| - 1);
    forall i | 0 <= i < |s.history|
      ensures s.history[i].run.id != run.id && (Successful(t.graph, s.history[i]) ==> !SameVersion(s.history[i].run, run))
    {
      assert Successful(s.graph, s.history[i]) == Successful(t.graph, s.history[i]);
    }
    HistorySnoc(kept, a);
  }

  lemma {:induction false} HistorySnoc(s: State, a: Archived)
    requires HistoryOk(s) && RestorableRun(s.graph, a)
    requires VersionFor(s.graph, a.run).Some? && VersionFor(s.graph, a.run).value.state != Draft
    requires forall i :: 0 <= i < |s.history| ==>
               s.history[i].run.id != a.run.id && (Successful(s.graph, s.history[i]) ==> !SameVersion(s.history[i].run, a.run))
    ensures HistoryOk(s.(history := s.history + [a]))
  {
    var t := s.(history := s.history + [a]);
    assert forall i :: 0 <= i < |s.history| ==> t.history[i] == s.history[i];
    assert t.history[|s.history|] == a;
  }

  /** The active run is as restorable as before when no archived run changed but in its log. */
  lemma {:induction false} SameRuns(s: State, t: State)
    requires ActiveRestores(s) && t == s.(history := t.history) && |t.history| == |s.history|
    requires forall i :: 0 <= i < |s.history| ==>
               t.history[i].run == s.history[i].run
               && (Successful(t.graph, t.history[i]) ==> Successful(s.graph, s.history[i])
                                                         || s.execution.None? || !SameVersion(s.history[i].run, s.execution.value))
    ensures ActiveRestores(t)
  {
    if s.execution.Some? {
      var run := s.execution.value;
      var v := ActiveVersion(s.graph, run).value;
      forall i | 0 <= i < |t.history|
        ensures t.history[i].run.id != run.id && !(Matches(t.history[i].run, v) && Successful(t.graph, t.history[i]))
      {
        assert t.history[i].run == s.history[i].run;
      }
    }
  }

  lemma {:induction false} LateReportKeepsPlanOk(p: Plan, t: State, e: Command, at: nat)
    requires PlanOk(p) && at < |p.state.history| && IsText(e.key) && TransitionArchived(p.state, e, at) == Accepted(t)
    requires UniqueKeys(multiset(AllOwned(t))) && p.state.graph != []
    ensures PlanOk(p.(state := t))
  {
    ArchivedShape(p.state, e, at);
    ArchivedKeepsHistoryOk(p.state, e, at);
    SameRuns(p.state, t);
  }

  lemma {:induction false} TellKeepsPlanOk(p: Plan, runId: string, e: Command, live: bool)
    requires PlanOk(p) && !ReleasesUnfoldable(p.state, runId, e, live)
    ensures PlanOk(Do(p, Tell(runId, e, live)))
  {
    var s, result := p.state, Transition(p.state, runId, e, live);
    if result.Accepted? {
      TransitionCases(s, runId, e, live);
      UniqueKeysGrow(s, runId, e, live);
      match FindRun(s.history, runId)
      case Some(at) =>
        ArchivedShape(s, e, at);
        LateReportKeepsPlanOk(p, result.state, e, at);
      case None =>
        ActiveShape(s, runId, e, live);
        ActiveKeepsPlanOk(p, result.state, runId, e, live);
    }
  }

  /** What an accepted event of the active run says about its log. */
  lemma {:induction false} ActiveLog(s: State, runId: string, e: Command, live: bool) returns (v: Version)
    requires TransitionActive(s, runId, e, live).Accepted?
    ensures var t, run, events := TransitionActive(s, runId, e, live).state, s.execution.value, s.events.Or([]);
            && s.execution.Some? && ActiveVersion(s.graph, run) == Some(v)
            && Fold(v.tasks, run, events, false).Accept? && Fold(v.tasks, run, events, false).state.phase == Active
            && Reduce(Fold(v.tasks, run, events, false).state, v.tasks, run, e, false).Accept?
            && Fold(v.tasks, run, events + [e], false)
               == Accept(Reduce(Fold(v.tasks, run, events, false).state, v.tasks, run, e, false).state)
            && (var last := Fold(v.tasks, run, events + [e], false).state;
                t == if last.phase != Active then Released(s, run, events + [e], false)
                     else if live && Settled(last).phase != Active then Released(s, run, events + [e], true)
                     else s.(events := Some(events + [e])))
  {
    v := ActiveVersion(s.graph, s.execution.value).value;
    FoldSnoc(v.tasks, s.execution.value, s.events.Or([]), e, false);
  }

  lemma {:induction false} ActiveEventIsStored(s: State, v: Version, run: Run, events: seq<Command>, e: Command)
    requires ValidIds(v.tasks) && IsText(e.key) && IsText(run.repository) && (events == [] || StoredEvents(events))
    requires Fold(v.tasks, run, events, false).Accept?
    requires Reduce(Fold(v.tasks, run, events, false).state, v.tasks, run, e, false).Accept?
    ensures StoredEvents(events + [e])
  {
    LogsAreOk(v.tasks, run, events, false);
    AcceptedEventIsStored(v.tasks, Fold(v.tasks, run, events, false).state, run, e, false);
    StoredSnoc(events, e);
  }

  lemma {:induction false} ActiveKeepsPlanOk(p: Plan, t: State, runId: string, e: Command, live: bool)
    requires PlanOk(p) && !ReleasesUnfoldable(p.state, runId, e, live) && IsText(e.key)
    requires Transition(p.state, runId, e, live) == Accepted(t) == TransitionActive(p.state, runId, e, live)
    requires p.state.execution.Some? && UniqueKeys(multiset(AllOwned(t)))
    ensures PlanOk(p.(state := t))
  {
    var s := p.state;
    var v := ActiveLog(s, runId, e, live);
    var run, events := s.execution.value, s.events.Or([]);
    ActiveEventIsStored(s, v, run, events, e);
    if t.execution.None? {
      FinalPhase(v.tasks, run, events, e, live);
      ReleaseKeepsPlanOk(p, t, v, events + [e]);
    } else {
      AppendKeepsPlanOk(p, t, v, events + [e]);
    }
  }

  lemma {:induction false} AppendedRestores(s: State, t: State, v: Version, events: seq<Command>)
    requires ActiveRestores(s) && t == s.(events := Some(events)) && StoredEvents(events)
    requires s.execution.Some? && ActiveVersion(s.graph, s.execution.value) == Some(v)
    requires Fold(v.tasks, s.execution.value, events, false).Accept? && Fold(v.tasks, s.execution.value, events, false).state.phase == Active
    ensures ActiveRestores(t)
  {}

  lemma {:induction false} AppendKeepsPlanOk(p: Plan, t: State, v: Version, events: seq<Command>)
    requires PlanOk(p) && t == p.state.(events := Some(events)) && StoredEvents(events)
    requires p.state.execution.Some? && ActiveVersion(p.state.graph, p.state.execution.value) == Some(v)
    requires Fold(v.tasks, p.state.execution.value, events, false).Accept?
    requires Fold(v.tasks, p.state.execution.value, events, false).state.phase == Active
    requires UniqueKeys(multiset(AllOwned(t)))
    ensures PlanOk(p.(state := t))
  {
    AppendedRestores(p.state, t, v, events);
  }

  lemma {:induction false} ReleaseKeepsPlanOk(p: Plan, t: State, v: Version, events: seq<Command>)
    requires PlanOk(p) && p.state.execution.Some? && ActiveVersion(p.state.graph, p.state.execution.value) == Some(v)
    requires StoredEvents(events)
    requires t == Released(p.state, p.state.execution.value, events, true) || t == Released(p.state, p.state.execution.value, events, false)
    requires var live := t.history[|p.state.history|].live;
             Fold(v.tasks, p.state.execution.value, events, live).Accept?
             && Fold(v.tasks, p.state.execution.value, events, live).state.phase != Active
    requires UniqueKeys(multiset(AllOwned(t)))
    ensures PlanOk(p.(state := t))
  {
    ReleasedGraph(p.state.graph, p.revision);
    ReleaseKeepsHistoryOk(p.state, p.state.execution.value, events, t.history[|p.state.history|].live, v);
    IdleRestores(t);
  }

  lemma {:induction false} ReleasedGraph(graph: seq<Version>, revision: nat)
    requires GraphOk(graph, revision) && graph != [] && Current(graph).value.state == Locked
    ensures var later := graph[|graph| - 1 := graph[|graph| - 1].(state := Approved)];
            GraphOk(later, revision) && Current(later).value.state == Approved
  {
  }

  /** A released log folds to the end of its run: directly, or as a live log if it folds at all. */
  lemma {:induction false} FinalPhase(tasks: seq<Task>, run: Run, events: seq<Command>, e: Command, live: bool)
    requires Fold(tasks, run, events + [e], false).Accept?
    requires Fold(tasks, run, events, false).Accept? && Fold(tasks, run, events, false).state.phase == Active
    ensures Fold(tasks, run, events + [e], true).Accept? && Settled(Fold(tasks, run, events + [e], false).state).phase != Active
            ==> Fold(tasks, run, events + [e], true).state.phase != Active
  {
    if Fold(tasks, run, events + [e], true).Accept? {
      LiveFoldFollows(tasks, run, events + [e]);
    }
  }

  /** An accepted live fold has either left the active phase or is where the plain fold is, unsettled. */
  lemma {:induction false} LiveFoldFollows(tasks: seq<Task>, run: Run, events: seq<Command>)
    requires Fold(tasks, run, events, false).Accept? && Fold(tasks, run, events, true).Accept?
    ensures var plain, live := Fold(tasks, run, events, false).state, Fold(tasks, run, events, true).state;
            live.phase == Active ==> live == plain && (events != [] ==> Settled(plain).phase == Active)
  {
    if events != [] {
      var front, e := events[..|events| - 1], events[|events| - 1];
      LiveFoldFollows(tasks, run, front);
      var plain, live := Fold(tasks, run, front, false).state, Fold(tasks, run, front, true).state;
      if live.phase == Active {
        LiveAgreesWithPlain(plain, tasks, run, e);
      } else {
        TerminalStaysTerminal(live, tasks, run, e);
      }
    }
  }

  lemma {:induction false} LiveAgreesWithPlain(s: Reduced, tasks: seq<Task>, run: Run, e: Command)
    requires Reduce(s, tasks, run, e, false).Accept?
    ensures Reduce(s, tasks, run, e, true) == Reduce(s, tasks, run, e, false)
  {
  }

  lemma {:induction false} TerminalStaysTerminal(s: Reduced, tasks: seq<Task>, run: Run, e: Command)
    requires s.phase != Active && Reduce(s, tasks, run, e, true).Accept?
    ensures Reduce(s, tasks, run, e, true).state.phase != Active
  {
  }
}
