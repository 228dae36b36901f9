/**
 * Landing a rebuild (apps/server/src/tasks/builds.ts:880-1005): its tasks become a version of their own,
 * approved and archived as completed in one write that bypasses `transition`.
 */
module LifecycleRebuilds {
  import opened Text
  import opened Lifecycle
  import opened LifecycleLogs
  import opened LifecyclePlans
  import opened LifecycleQuiet
  import opened LifecycleReplay
  import opened LifecycleRuns

  // ----- ids and keys

  lemma {:induction false} RebuildIdsDiffer(number: nat, i: nat, j: nat)
    requires RebuildId(number, i) == RebuildId(number, j)
    ensures i == j
  {
    var front := "rebuild-" + Decimal(number) + "-";
    assert RebuildId(number, i)[|front|..] == Decimal(i + 1) && RebuildId(number, j)[|front|..] == Decimal(j + 1);
    DecimalIsInjective(i + 1, j + 1);
  }

  lemma {:induction false} RebuildIdIsText(number: nat, i: nat)
    ensures IsText(RebuildId(number, i))
  {
    assert RebuildId(number, i)[0] == "rebuild-"[0];
    FirstNotBlank(RebuildId(number, i));
  }

  lemma {:induction false} NumberThenColon(a: string, x: string, b: string, y: string)
    requires AllDigits(a) && AllDigits(b) && a + ":" + x == b + ":" + y
    ensures a == b && x == y
  {
    var s := a + ":" + x;
    assert s == b + ":" + y;
    assert forall i :: 0 <= i < |a| ==> s[i] == a[i] && s[i] != ':';
    assert forall i :: 0 <= i < |b| ==> s[i] == b[i] && s[i] != ':';
    assert s[|a|] == ':' && s[|b|] == ':';
    assert |a| == |b|;
    assert a == s[..|a|] && b == s[..|b|] && x == s[|a| + 1..] && y == s[|b| + 1..];
  }

  function KeyEnd(kind: nat): string {
    if kind == 0 then "start" else if kind == 1 then "pr" else "complete"
  }

  lemma {:induction false} ChunkKeys(buildId: string, taskId: string, url: string, summary: string, kind: nat)
    requires kind < 3
    ensures RebuildChunk(buildId, taskId, url, summary)[kind].key == buildId + ":" + taskId + ":" + KeyEnd(kind)
  {
    var key := buildId + ":" + taskId;
    assert key + ":start" == key + ":" + "start" && key + ":pr" == key + ":" + "pr" && key + ":complete" == key + ":" + "complete";
  }

  /** The k-th event of a rebuilt log is one of the three of task k / 3. */
  lemma {:induction false} RebuildAt(report: RebuildReport, number: nat, n: nat, k: nat)
    requires n <= |report.urls|
    ensures |RebuildLog(report, number, n)| == 3 * n
    ensures k < 3 * n ==>
              RebuildLog(report, number, n)[k]
              == RebuildChunk(report.id, RebuildId(number, k / 3), report.urls[k / 3], report.summary)[k % 3]
  {
    if n > 0 {
      RebuildAt(report, number, n - 1, k);
      if 3 * (n - 1) <= k < 3 * n {
        assert k / 3 == n - 1 && k % 3 == k - 3 * (n - 1);
      }
    }
  }

  /** What the keys of one rebuild have in common. */
  function KeyFront(buildId: string, number: nat): string {
    buildId + ":" + "rebuild-" + Decimal(number) + "-"
  }

  lemma {:induction false} KeyParts(buildId: string, number: nat, i: nat, end: string)
    ensures buildId + ":" + RebuildId(number, i) + ":" + end == KeyFront(buildId, number) + (Decimal(i + 1) + ":" + end)
  {}

  lemma {:induction false} SameBack(front: string, a: string, b: string)
    requires front + a == front + b
    ensures a == b
  {
    assert a == (front + a)[|front|..] && b == (front + b)[|front|..];
  }

  lemma {:induction false} KeyEndsDiffer(a: nat, b: nat)
    requires a < 3 && b < 3 && KeyEnd(a) == KeyEnd(b)
    ensures a == b
  {
    assert "start"[0] == 's' && "pr"[0] == 'p' && "complete"[0] == 'c';
  }

  lemma {:induction false} KeysDiffer(buildId: string, number: nat, i: nat, a: nat, j: nat, b: nat)
    requires a < 3 && b < 3
    requires buildId + ":" + RebuildId(number, i) + ":" + KeyEnd(a) == buildId + ":" + RebuildId(number, j) + ":" + KeyEnd(b)
    ensures i == j && a == b
  {
    KeyParts(buildId, number, i, KeyEnd(a));
    KeyParts(buildId, number, j, KeyEnd(b));
    SameBack(KeyFront(buildId, number), Decimal(i + 1) + ":" + KeyEnd(a), Decimal(j + 1) + ":" + KeyEnd(b));
    NumberThenColon(Decimal(i + 1), KeyEnd(a), Decimal(j + 1), KeyEnd(b));
    DecimalIsInjective(i + 1, j + 1);
    KeyEndsDiffer(a, b);
  }

  lemma {:induction false} RebuildKeyAt(report: RebuildReport, number: nat, n: nat, k: nat)
    requires n <= |report.urls| && k < 3 * n
    ensures |RebuildLog(report, number, n)| == 3 * n
    ensures RebuildLog(report, number, n)[k].key == report.id + ":" + RebuildId(number, k / 3) + ":" + KeyEnd(k % 3)
  {
    RebuildAt(report, number, n, k);
    ChunkKeys(report.id, RebuildId(number, k / 3), report.urls[k / 3], report.summary, k % 3);
  }

  lemma {:induction false} RebuildKeysDiffer(report: RebuildReport, number: nat, n: nat)
    requires n <= |report.urls|
    ensures DistinctKeys(RebuildLog(report, number, n))
  {
    var log := RebuildLog(report, number, n);
    RebuildAt(report, number, n, 0);
    forall k, l | 0 <= k < l < |log| ensures log[k].key != log[l].key {
      RebuildKeyAt(report, number, n, k);
      RebuildKeyAt(report, number, n, l);
      if log[k].key == log[l].key {
        KeysDiffer(report.id, number, k / 3, k % 3, l / 3, l % 3);
      }
    }
  }

  // ----- the log folds

  function RebuiltItem(report: RebuildReport, number: nat, i: nat, done: bool): TaskProgress
    requires i < |report.urls|
  {
    if done then Completed(RebuildId(number, i), report.summary, PullRequest(report.urls[i], IsOpen)) else Queued(RebuildId(number, i))
  }

  function Rebuilt(report: RebuildReport, number: nat, n: nat): (progress: seq<TaskProgress>)
    ensures |progress| == |report.urls|
    ensures forall i :: 0 <= i < |report.urls| ==> progress[i] == RebuiltItem(report, number, i, i < n)
  {
    seq(|report.urls|, i requires 0 <= i < |report.urls| => RebuiltItem(report, number, i, i < n))
  }

  function RebuiltState(report: RebuildReport, number: nat, n: nat): Reduced {
    Reduced(if n < |report.urls| then Active else Implemented, Rebuilt(report, number, n), None)
  }

  function WorkingOn(report: RebuildReport, number: nat, n: nat, work: Option<PullRequest>): Reduced
    requires n < |report.urls|
  {
    Reduced(Active, Rebuilt(report, number, n)[n := InProgress(RebuildId(number, n), work)], None)
  }

  lemma {:induction false} RebuiltIndex(report: RebuildReport, number: nat, progress: seq<TaskProgress>, n: nat)
    requires n < |report.urls| == |progress| && forall i :: 0 <= i < |progress| ==> progress[i].id == RebuildId(number, i)
    ensures IndexOf(progress, RebuildId(number, n)) == Some(n)
  {
    IndexOfIsFirst(progress, RebuildId(number, n));
    forall i | 0 <= i < n ensures progress[i].id != RebuildId(number, n) {
      if RebuildId(number, i) == RebuildId(number, n) {
        RebuildIdsDiffer(number, i, n);
      }
    }
  }

  lemma {:induction false} StartsRebuilt(report: RebuildReport, number: nat, n: nat, run: Run, key: string)
    requires n < |report.urls|
    ensures Reduce(RebuiltState(report, number, n), RebuildTasks(number, |report.urls|), run, Start(RebuildId(number, n), key), true)
            == Accept(WorkingOn(report, number, n, None))
  {
    var s := RebuiltState(report, number, n);
    RebuiltIndex(report, number, s.progress, n);
    FreeStartReduces(s, RebuildTasks(number, |report.urls|), n, run, RebuildId(number, n), key, true);
  }

  lemma {:induction false} ReportsRebuilt(report: RebuildReport, number: nat, n: nat, run: Run, key: string)
    requires n < |report.urls|
    ensures var r := Reduce(WorkingOn(report, number, n, None), RebuildTasks(number, |report.urls|), run,
                            ReportPr(RebuildId(number, n), report.urls[n], IsOpen, key), true);
            if OwnPullRequest(run.repository, report.urls[n]) then
              r == Accept(WorkingOn(report, number, n, Some(PullRequest(report.urls[n], IsOpen))))
            else r.Refuse?
  {
    var s := WorkingOn(report, number, n, None);
    RebuiltIndex(report, number, s.progress, n);
    if OwnPullRequest(run.repository, report.urls[n]) {
      OwnIsText(run.repository, report.urls[n]);
      assert forall i :: 0 <= i < |s.progress| ==> s.progress[i].Pr() != Some(PullRequest(report.urls[n], Merged));
      OpenReduces(s, RebuildTasks(number, |report.urls|), n, run, RebuildId(number, n), report.urls[n], key, true);
    } else {
      ForeignReduces(s, RebuildTasks(number, |report.urls|), n, run, RebuildId(number, n), report.urls[n], key);
    }
  }

  /** A report of a pull request that is not the repository's own is refused. */
  lemma {:induction false} ForeignReduces(s: Reduced, tasks: seq<Task>, n: nat, run: Run, id: string, url: string, key: string)
    requires s.phase == Active && n < |tasks| == |s.progress| && IndexOf(s.progress, id) == Some(n)
    requires s.progress[n] == InProgress(id, None) && !OwnPullRequest(run.repository, url)
    ensures Reduce(s, tasks, run, ReportPr(id, url, IsOpen, key), true).Refuse?
  {}

  lemma {:induction false} CompletesRebuilt(report: RebuildReport, number: nat, n: nat, run: Run, key: string)
    requires n < |report.urls| && IsText(report.summary)
    ensures var r := Reduce(WorkingOn(report, number, n, Some(PullRequest(report.urls[n], IsOpen))), RebuildTasks(number, |report.urls|), run,
                            Complete(RebuildId(number, n), report.summary, None, key), true);
            r.Accept? && Settled(r.state) == RebuiltState(report, number, n + 1)
  {
    var s := WorkingOn(report, number, n, Some(PullRequest(report.urls[n], IsOpen)));
    RebuiltIndex(report, number, s.progress, n);
    CompletionReduces(s, RebuildTasks(number, |report.urls|), n, run, RebuildId(number, n), Some(PullRequest(report.urls[n], IsOpen)),
                      Complete(RebuildId(number, n), report.summary, None, key), true);
    var next := Rebuilt(report, number, n + 1);
    assert s.progress[n := Completed(RebuildId(number, n), report.summary, PullRequest(report.urls[n], IsOpen))] == next;
    if n + 1 == |report.urls| {
      OpenIsNotDelivered(next);
      assert AllDone(next);
    } else {
      assert !next[n + 1].Done();
    }
  }

  lemma {:induction false} StillWorking(report: RebuildReport, number: nat, n: nat, work: Option<PullRequest>)
    requires n < |report.urls|
    ensures Settled(WorkingOn(report, number, n, work)) == WorkingOn(report, number, n, work)
  {
    assert !WorkingOn(report, number, n, work).progress[n].Done();
  }

  lemma {:induction false} RebuiltInitially(report: RebuildReport, number: nat)
    requires report.urls != []
    ensures Initial(RebuildTasks(number, |report.urls|)) == RebuiltState(report, number, 0)
  {
    InitialAt(RebuildTasks(number, |report.urls|));
    assert InitialProgress(RebuildTasks(number, |report.urls|)) == Rebuilt(report, number, 0);
  }

  lemma {:induction false} NothingRebuiltFolds(report: RebuildReport, number: nat, run: Run)
    requires report.urls != []
    ensures Fold(RebuildTasks(number, |report.urls|), run, RebuildLog(report, number, 0), true) == Accept(RebuiltState(report, number, 0))
  {
    RebuiltInitially(report, number);
  }

  lemma {:induction false} OneMoreEvent(tasks: seq<Task>, run: Run, log: seq<Command>, e: Command, s: Reduced)
    requires Fold(tasks, run, log, true) == Accept(s)
    ensures Fold(tasks, run, log + [e], true)
            == match Reduce(s, tasks, run, e, true)
               case Refuse(reason) => Refuse(reason)
               case Accept(t) => Accept(Settled(t))
  {
    FoldSnoc(tasks, run, log, e, true);
  }

  /** The log up to the report of a task's pull request. */
  function Reporting(report: RebuildReport, number: nat, n: nat): seq<Command>
    requires n < |report.urls|
  {
    var chunk := RebuildChunk(report.id, RebuildId(number, n), report.urls[n], report.summary);
    RebuildLog(report, number, n) + [chunk[0]] + [chunk[1]]
  }

  lemma {:induction false} ReportingFolds(report: RebuildReport, number: nat, run: Run, n: nat)
    requires n < |report.urls|
    requires Fold(RebuildTasks(number, |report.urls|), run, RebuildLog(report, number, n), true) == Accept(RebuiltState(report, number, n))
    ensures var folded := Fold(RebuildTasks(number, |report.urls|), run, Reporting(report, number, n), true);
            if OwnPullRequest(run.repository, report.urls[n]) then
              folded == Accept(WorkingOn(report, number, n, Some(PullRequest(report.urls[n], IsOpen))))
            else folded.Refuse?
  {
    var tasks, chunk := RebuildTasks(number, |report.urls|), RebuildChunk(report.id, RebuildId(number, n), report.urls[n], report.summary);
    var log := RebuildLog(report, number, n);
    StartsRebuilt(report, number, n, run, chunk[0].key);
    StillWorking(report, number, n, None);
    OneMoreEvent(tasks, run, log, chunk[0], RebuiltState(report, number, n));
    ReportsRebuilt(report, number, n, run, chunk[1].key);
    StillWorking(report, number, n, Some(PullRequest(report.urls[n], IsOpen)));
    OneMoreEvent(tasks, run, log + [chunk[0]], chunk[1], WorkingOn(report, number, n, None));
  }

  lemma {:induction false} ReportingIsPrefix(report: RebuildReport, number: nat, n: nat)
    requires n < |report.urls|
    ensures var chunk := RebuildChunk(report.id, RebuildId(number, n), report.urls[n], report.summary);
            RebuildLog(report, number, n + 1) == Reporting(report, number, n) + [chunk[2]]
  {}

  lemma {:induction false} ChunkFolds(report: RebuildReport, number: nat, run: Run, n: nat)
    requires n < |report.urls| && IsText(report.summary) && OwnPullRequest(run.repository, report.urls[n])
    requires Fold(RebuildTasks(number, |report.urls|), run, RebuildLog(report, number, n), true) == Accept(RebuiltState(report, number, n))
    ensures Fold(RebuildTasks(number, |report.urls|), run, RebuildLog(report, number, n + 1), true) == Accept(RebuiltState(report, number, n + 1))
  {
    var chunk := RebuildChunk(report.id, RebuildId(number, n), report.urls[n], report.summary);
    ReportingFolds(report, number, run, n);
    CompletesRebuilt(report, number, n, run, chunk[2].key);
    OneMoreEvent(RebuildTasks(number, |report.urls|), run, Reporting(report, number, n), chunk[2],
                 WorkingOn(report, number, n, Some(PullRequest(report.urls[n], IsOpen))));
    ReportingIsPrefix(report, number, n);
  }

  ghost predicate AllOwn(repository: string, urls: seq<string>, n: nat) {
    n <= |urls| && forall i :: 0 <= i < n ==> OwnPullRequest(repository, urls[i])
  }

  lemma {:induction false} RebuildFolds(report: RebuildReport, number: nat, run: Run, n: nat)
    requires report.urls != [] && IsText(report.summary) && AllOwn(run.repository, report.urls, n)
    ensures Fold(RebuildTasks(number, |report.urls|), run, RebuildLog(report, number, n), true) == Accept(RebuiltState(report, number, n))
  {
    if n == 0 {
      NothingRebuiltFolds(report, number, run);
    } else {
      var m := n - 1;
      RebuildFolds(report, number, run, m);
      ChunkFolds(report, number, run, m);
    }
  }

  lemma {:induction false} RebuildPrefix(report: RebuildReport, number: nat, m: nat, n: nat)
    requires m <= n <= |report.urls|
    ensures RebuildLog(report, number, m) <= RebuildLog(report, number, n)
    decreases n
  {
    if m < n {
      RebuildPrefix(report, number, m, n - 1);
    }
  }

  /** A rebuilt log folds as a live one if and only if every pull request is the repository's own. */
  lemma {:induction false} RebuildFoldsExactly(report: RebuildReport, number: nat, run: Run)
    requires report.urls != [] && IsText(report.summary)
    ensures var folded := Fold(RebuildTasks(number, |report.urls|), run, RebuildLog(report, number, |report.urls|), true);
            (folded.Accept? <==> AllOwn(run.repository, report.urls, |report.urls|)) && (folded.Accept? ==> folded.state.phase == Implemented)
  {
    if AllOwn(run.repository, report.urls, |report.urls|) {
      RebuildFolds(report, number, run, |report.urls|);
    } else {
      var k := FirstForeign(run.repository, report.urls);
      ForeignIsRefused(report, number, run, k);
    }
  }

  lemma {:induction false} ForeignIsRefused(report: RebuildReport, number: nat, run: Run, k: nat)
    requires k < |report.urls| && IsText(report.summary) && AllOwn(run.repository, report.urls, k) && !OwnPullRequest(run.repository, report.urls[k])
    ensures Fold(RebuildTasks(number, |report.urls|), run, RebuildLog(report, number, |report.urls|), true).Refuse?
  {
    var all, stuck := RebuildLog(report, number, |report.urls|), Reporting(report, number, k);
    RebuildFolds(report, number, run, k);
    ReportingFolds(report, number, run, k);
    ReportingIsPrefix(report, number, k);
    RebuildPrefix(report, number, k + 1, |report.urls|);
    assert all[..|stuck|] == stuck;
    RefusedStaysRefused(RebuildTasks(number, |report.urls|), run, all, true, |stuck|);
  }

  lemma {:induction false} FirstForeign(repository: string, urls: seq<string>) returns (k: nat)
    requires !AllOwn(repository, urls, |urls|)
    ensures k < |urls| && AllOwn(repository, urls, k) && !OwnPullRequest(repository, urls[k])
  {
    k := 0;
    while k < |urls| && OwnPullRequest(repository, urls[k])
      invariant k <= |urls| && AllOwn(repository, urls, k)
    {
      k := k + 1;
    }
  }

  // ----- the new version

  function NewVersion(p: Plan, report: RebuildReport): Version
    requires p.state.graph != []
  {
    var number := Current(p.state.graph).value.number + 1;
    Version(number, 1, report.target, Approved, RebuildTasks(number, |report.urls|))
  }

  function NewArchive(p: Plan, report: RebuildReport): Archived
    requires p.state.graph != []
  {
    var number := Current(p.state.graph).value.number + 1;
    Archived(RebuildRun(report, number), RebuildLog(report, number, |report.urls|), true)
  }

  lemma {:induction false} RebuildShape(p: Plan, report: RebuildReport)
    requires Rebuilds(p, report)
    ensures var t := RebuildState(p, report);
            t == p.state.(graph := SetCurrent(p.state.graph, Current(p.state.graph).value.(state := Superseded)) + [NewVersion(p, report)],
                          history := p.state.history + [NewArchive(p, report)])
  {}

  /** The new version takes its place at the end, unless the document it describes is older than the latest version. */
  lemma {:induction false} RebuiltGraph(graph: seq<Version>, revision: nat, w: Version)
    requires GraphOk(graph, revision) && graph != [] && Current(graph).value.state == Approved
    requires w.number == |graph| + 1 && w.revision == 1 && w.state == Approved && w.planRevision <= revision && ValidIds(w.tasks)
    ensures var later := SetCurrent(graph, Current(graph).value.(state := Superseded)) + [w];
            && |later| == |graph| + 1 && later[|graph|] == w && Current(later) == Some(w)
            && Numbered(later) && Keeps(graph, later)
            && (w.planRevision >= Current(graph).value.planRevision ==> GraphOk(later, revision))
            && (GraphRestores(later) ==> w.planRevision >= Current(graph).value.planRevision)
  {
    var n := |graph| - 1;
    var later := SetCurrent(graph, graph[n].(state := Superseded)) + [w];
    assert later[n] == graph[n].(state := Superseded) && later[|graph|] == w;
    assert forall i :: 0 <= i < n ==> later[i] == graph[i];
    forall i | 0 <= i < |graph| ensures VersionOk(later[i], i, |later|) && graph[i].number == i + 1 {
      assert VersionOk(graph[i], i, |graph|);
    }
  }

  lemma {:induction false} NumberOfLast(graph: seq<Version>)
    requires GraphRestores(graph) && graph != []
    ensures Current(graph).value.number == |graph|
  {
    assert VersionOk(graph[|graph| - 1], |graph| - 1, |graph|);
  }

  lemma {:induction false} RebuiltTasksAreValid(number: nat, n: nat)
    ensures ValidIds(RebuildTasks(number, n))
  {
    forall i | 0 <= i < n ensures IsText(RebuildTasks(number, n)[i].id) {
      RebuildIdIsText(number, i);
    }
  }

  lemma {:induction false} ChunkIsStored(buildId: string, taskId: string, url: string, summary: string, kind: nat)
    requires kind < 3 && IsText(taskId) && IsText(url) && IsText(summary)
    ensures StoredEvent(RebuildChunk(buildId, taskId, url, summary)[kind])
  {
    KeyWithColonIsText(buildId, taskId + ":start");
    KeyWithColonIsText(buildId, taskId + ":pr");
    KeyWithColonIsText(buildId, taskId + ":complete");
    var key := buildId + ":" + taskId;
    assert key + ":start" == buildId + ":" + (taskId + ":start") && key + ":pr" == buildId + ":" + (taskId + ":pr");
    assert key + ":complete" == buildId + ":" + (taskId + ":complete");
  }

  lemma {:induction false} RebuiltEventsAreStored(report: RebuildReport, number: nat, run: Run)
    requires report.urls != [] && IsText(report.summary) && AllOwn(run.repository, report.urls, |report.urls|)
    ensures StoredEvents(RebuildLog(report, number, |report.urls|))
  {
    var n := |report.urls|;
    var log := RebuildLog(report, number, n);
    RebuildAt(report, number, n, 0);
    forall k | 0 <= k < |log| ensures StoredEvent(log[k]) {
      RebuildAt(report, number, n, k);
      RebuildIdIsText(number, k / 3);
      OwnIsText(run.repository, report.urls[k / 3]);
      ChunkIsStored(report.id, RebuildId(number, k / 3), report.urls[k / 3], report.summary, k % 3);
    }
  }

  lemma {:induction false} KeyWithColonIsText(id: string, rest: string)
    ensures IsText(id + ":" + rest)
  {
    TrimIsEmpty(id + ":" + rest);
    assert (id + ":" + rest)[|id|] == ':';
  }

  lemma {:induction false} RebuiltRunRestores(p: Plan, report: RebuildReport, later: seq<Version>)
    requires Rebuilds(p, report) && Numbered(later) && |later| == NewVersion(p, report).number && later[|later| - 1] == NewVersion(p, report)
    ensures var a := NewArchive(p, report);
            VersionFor(later, a.run) == Some(NewVersion(p, report))
            && (RestorableRun(later, a) <==> AllOwn(report.repository, report.urls, |report.urls|))
  {
    var a := NewArchive(p, report);
    VersionByNumber(later, a.run, |later| - 1);
    RebuildFoldsExactly(report, a.run.graphVersion, a.run);
    if AllOwn(report.repository, report.urls, |report.urls|) {
      RebuiltEventsAreStored(report, a.run.graphVersion, a.run);
    }
  }

  lemma {:induction false} OlderRuns(graph: seq<Version>, run: Run)
    requires GraphRestores(graph) && VersionFor(graph, run).Some?
    ensures run.graphVersion <= |graph|
  {
    VersionForIsFirst(graph, run);
    var i :| 0 <= i < |graph| && graph[i] == VersionFor(graph, run).value && Matches(run, graph[i]);
    assert VersionOk(graph[i], i, |graph|);
  }

  // ----- what a rebuild must observe

  /** No run of the plan has the id or a key of the rebuild: it was named at random. */
  ghost predicate FreshRebuild(p: Plan, report: RebuildReport)
    requires p.state.graph != []
  {
    (forall i :: 0 <= i < |p.state.history| ==> p.state.history[i].run.id != report.id)
    && NewKeys(multiset(AllOwned(p.state)), NewArchive(p, report).events)
  }

  /** The rebuild lands in a form that cannot be read back. */
  ghost predicate LandsBadly(p: Plan, report: RebuildReport) {
    Rebuilds(p, report)
    && !(AllOwn(report.repository, report.urls, |report.urls|) && report.target >= Current(p.state.graph).value.planRevision
         && FreshRebuild(p, report))
  }

  lemma {:induction false} RebuildOwns(p: Plan, report: RebuildReport)
    requires Rebuilds(p, report)
    ensures multiset(AllOwned(RebuildState(p, report))) == multiset(AllOwned(p.state)) + multiset(OwnedBy(report.id, NewArchive(p, report).events))
  {
    RebuildShape(p, report);
    OwnedHistorySnoc(p.state.history, NewArchive(p, report));
    AllOwnedParts(p.state);
    AllOwnedParts(RebuildState(p, report));
  }

  lemma {:induction false} RebuildKeepsKeys(p: Plan, report: RebuildReport)
    requires Rebuilds(p, report) && UniqueKeys(multiset(AllOwned(p.state)))
    requires NewKeys(multiset(AllOwned(p.state)), NewArchive(p, report).events)
    ensures UniqueKeys(multiset(AllOwned(RebuildState(p, report))))
  {
    RebuildOwns(p, report);
    RebuildKeysDiffer(report, NewVersion(p, report).number, |report.urls|);
    UniqueKeysAdd(multiset(AllOwned(p.state)), report.id, NewArchive(p, report).events);
  }

  lemma {:induction false} RebuiltHistory(s: State, later: seq<Version>, a: Archived)
    requires GraphRestores(s.graph) && HistoryOk(s) && Keeps(s.graph, later) && RestorableRun(later, a)
    requires a.run.graphVersion == |s.graph| + 1 && VersionFor(later, a.run).Some? && VersionFor(later, a.run).value.state != Draft
    requires forall i :: 0 <= i < |s.history| ==> s.history[i].run.id != a.run.id
    ensures HistoryOk(s.(graph := later, history := s.history + [a]))
  {
    KeptHistory(s, later);
    forall i | 0 <= i < |s.history| ensures !SameVersion(s.history[i].run, a.run) {
      OlderRuns(s.graph, s.history[i].run);
    }
    HistorySnoc(s.(graph := later), a);
  }

  lemma {:induction false} SoundRebuildKeepsPlanOk(p: Plan, report: RebuildReport)
    requires PlanOk(p) && Rebuilds(p, report) && !LandsBadly(p, report)
    ensures PlanOk(p.(state := RebuildState(p, report)))
  {
    var s, t := p.state, RebuildState(p, report);
    NumberOfLast(s.graph);
    RebuildShape(p, report);
    RebuiltTasksAreValid(NewVersion(p, report).number, |report.urls|);
    RebuiltGraph(s.graph, p.revision, NewVersion(p, report));
    RebuiltRunRestores(p, report, t.graph);
    RebuiltHistory(s, t.graph, NewArchive(p, report));
    RebuildKeepsKeys(p, report);
    IdleRestores(t);
  }

  lemma {:induction false} SharedKeyIsLost(bag: multiset<Owned>, runId: string, events: seq<Command>)
    requires !NewKeys(bag, events)
    ensures !UniqueKeys(bag + multiset(OwnedBy(runId, events)))
  {
    var i, o :| 0 <= i < |events| && o in bag && o.event.key == events[i].key;
    OwnedByContents(runId, events);
    var x := Owned(runId, events[i]);
    assert x in OwnedBy(runId, events);
    assert x in multiset(OwnedBy(runId, events));
    var all := bag + multiset(OwnedBy(runId, events));
    assert x in all && o in all;
    assert x == o ==> all[o] == bag[o] + multiset(OwnedBy(runId, events))[o] >= 2;
  }

  lemma {:induction false} BadRebuildIsLost(p: Plan, report: RebuildReport)
    requires GraphOk(p.state.graph, p.revision) && LandsBadly(p, report)
    ensures !Restores(p.(state := RebuildState(p, report)))
  {
    var s, t := p.state, RebuildState(p, report);
    NumberOfLast(s.graph);
    RebuildShape(p, report);
    RebuiltTasksAreValid(NewVersion(p, report).number, |report.urls|);
    RebuiltGraph(s.graph, p.revision, NewVersion(p, report));
    RebuiltRunRestores(p, report, t.graph);
    assert t.history[|s.history|] == NewArchive(p, report);
    if report.target < Current(s.graph).value.planRevision {
    } else if !AllOwn(report.repository, report.urls, |report.urls|) {
      LostRun(p.(state := t), |s.history|);
    } else if exists i :: 0 <= i < |s.history| && s.history[i].run.id == report.id {
      var i :| 0 <= i < |s.history| && s.history[i].run.id == report.id;
      RepeatedIdIsLost(t, i, |s.history|);
    } else {
      RebuildOwns(p, report);
      SharedKeyIsLost(multiset(AllOwned(s)), report.id, NewArchive(p, report).events);
    }
  }

  lemma {:induction false} RepeatedIdIsLost(t: State, i: nat, j: nat)
    requires i < j < |t.history| && t.history[i].run.id == t.history[j].run.id
    ensures !HistoryRestores(t)
  {}

  lemma {:induction false} RebuildDoes(p: Plan, report: RebuildReport)
    ensures Do(p, Rebuild(report)) == if Rebuilds(p, report) then p.(state := RebuildState(p, report)) else p
  {}

  /** A rebuild leaves a restorable plan restorable exactly when it does not land badly. */
  lemma {:induction false} RebuildKeepsRestorable(p: Plan, report: RebuildReport)
    requires PlanOk(p)
    ensures Restores(Do(p, Rebuild(report))) <==> !LandsBadly(p, report)
    ensures !LandsBadly(p, report) ==> PlanOk(Do(p, Rebuild(report)))
  {
    RebuildDoes(p, report);
    if LandsBadly(p, report) {
      BadRebuildIsLost(p, report);
    } else if Rebuilds(p, report) {
      SoundRebuildKeepsPlanOk(p, report);
    }
  }
}
