/**
 * Resuming a stopped run (apps/server/src/tasks/builds.ts:695-767 and lifecycle.ts:894-923): a rebuild's
 * outcome for one outstanding task goes into the archived log before its revision request, which is dropped
 * once every task is complete.
 */
module LifecycleResumes {
  import opened Text
  import opened Lifecycle
  import opened LifecycleLogs
  import opened LifecycleOutcomes
  import opened LifecyclePlans
  import opened LifecycleQuiet
  import opened LifecycleReplay
  import opened LifecycleRuns

  function FrontOf(events: seq<Command>): seq<Command> {
    if events == [] then [] else events[..|events| - 1]
  }

  ghost predicate EndsInRevision(events: seq<Command>) {
    events != [] && events[|events| - 1].RequestRevision?
  }

  /** What is known of a log that was resumed. */
  ghost predicate ResumedLog(s: State, at: nat, tasks: seq<Task>, added: seq<Command>, events: seq<Command>) {
    at < |s.history|
    && var a := s.history[at];
       var base := FrontOf(a.events) + added;
       && VersionFor(s.graph, a.run).Some? && VersionFor(s.graph, a.run).value.tasks == tasks
       && Fold(tasks, a.run, a.events, a.live).Accept? && a.live && EndsInRevision(a.events)
       && Fold(tasks, a.run, base, true).Accept? && Fold(tasks, a.run, base, true).state.phase != RevisionRequested
       && events == if Fold(tasks, a.run, base, true).state.phase == Active then base + [a.events[|a.events| - 1]] else base
  }

  /** The added events are new, under distinct keys, and none is a revision request. */
  ghost predicate AddedOk(s: State, added: seq<Command>) {
    added != [] && DistinctKeys(added)
    && forall i :: 0 <= i < |added| ==>
         IsText(added[i].key) && !added[i].RequestRevision? && FindKey(AllOwned(s), added[i].key) == None
  }

  lemma {:induction false} ColonIsText(key: string, rest: string)
    requires rest != "" && rest[0] == ':'
    ensures IsText(key + rest)
  {
    TrimIsEmpty(key + rest);
    assert (key + rest)[|key|] == ':';
  }

  lemma {:induction false} ResumeEventsAreOk(item: TaskProgress, taskId: string, key: string, outcome: TaskOutcome)
    ensures var added := ResumeEvents(item, taskId, key, outcome);
            DistinctKeys(added) && forall i :: 0 <= i < |added| ==> IsText(added[i].key) && !added[i].RequestRevision?
  {
    match outcome
    case StillBlocked(blocker) => ColonIsText(key, ":block");
    case Finished(pullRequest, summary) =>
      var url := if pullRequest.Some? || item.Pr().None? then pullRequest else Some(item.Pr().value.url);
      var start, pr := Start(taskId, key + ":start"), ReportPr(taskId, url.Or(""), IsOpen, key + ":pr");
      ColonIsText(key, ":start");
      ColonIsText(key, ":pr");
      ColonIsText(key, ":done");
      ResumeKeysDiffer(key);
      AtMostThree(start, pr, Complete(taskId, summary, None, key + ":done"), !item.InProgress?,
                  url != if item.Pr().Some? then Some(item.Pr().value.url) else None);
  }

  lemma {:induction false} AtMostThree(a: Command, b: Command, c: Command, first: bool, second: bool)
    requires a.key != b.key && a.key != c.key && b.key != c.key
    ensures var all := (if first then [a] else []) + (if second then [b] else []) + [c];
            DistinctKeys(all) && forall e :: e in all ==> e == a || e == b || e == c
  {}

  lemma {:induction false} ResumeKeysDiffer(key: string)
    ensures key + ":start" != key + ":pr" && key + ":start" != key + ":done" && key + ":pr" != key + ":done"
  {
    assert (key + ":start")[|key| + 1] == 's' && (key + ":pr")[|key| + 1] == 'p' && (key + ":done")[|key| + 1] == 'd';
  }

  lemma {:induction false} ResumeLogMeans(s: State, at: nat, tasks: seq<Task>, added: seq<Command>)
    requires at < |s.history| && ResumeLog(s, at, tasks, added).Some?
    requires VersionFor(s.graph, s.history[at].run).Some? && VersionFor(s.graph, s.history[at].run).value.tasks == tasks
    requires Fold(tasks, s.history[at].run, s.history[at].events, s.history[at].live).Accept?
    ensures ResumedLog(s, at, tasks, added, ResumeLog(s, at, tasks, added).value)
    ensures forall i :: 0 <= i < |added| ==> FindKey(AllOwned(s), added[i].key) == None
  {}

  lemma {:induction false} ResumedMeans(p: Plan, runId: string, taskId: string, buildId: string, outcome: TaskOutcome)
    returns (tasks: seq<Task>, added: seq<Command>)
    requires Resumed(p, runId, taskId, buildId, outcome).Some?
    ensures var (at, events) := Resumed(p, runId, taskId, buildId, outcome).value;
            ResumedLog(p.state, at, tasks, added, events) && AddedOk(p.state, added) && p.state.history[at].run.planRevision < p.revision
  {
    var s, at := p.state, Resumed(p, runId, taskId, buildId, outcome).value.0;
    var a := s.history[at];
    tasks := VersionFor(s.graph, a.run).value.tasks;
    var progress := Fold(tasks, a.run, a.events, a.live).state.progress;
    var i := IndexOf(progress, taskId).value;
    added := ResumeEvents(progress[i], taskId, buildId + ":" + taskId, outcome);
    ResumeEventsAreOk(progress[i], taskId, buildId + ":" + taskId, outcome);
    ResumeLogMeans(s, at, tasks, added);
  }

  // ----- the resumed log folds

  lemma {:induction false} RevisionReduces(s: Reduced, tasks: seq<Task>, run: Run, e: Command, t: Reduced)
    requires e.RequestRevision? && Reduce(s, tasks, run, e, true).Accept? && t.phase == Active
    ensures Reduce(t, tasks, run, e, true) == Accept(t.(phase := RevisionRequested)) && IsText(e.reason)
  {}

  /** A resumed log ends its run: complete without its revision request, or returned again with it. */
  lemma {:induction false} ResumedFolds(s: State, at: nat, tasks: seq<Task>, added: seq<Command>, events: seq<Command>)
    requires ResumedLog(s, at, tasks, added, events) && AddedOk(s, added)
    ensures var folded := Fold(tasks, s.history[at].run, events, true);
            folded.Accept? && folded.state.phase != Active && (folded.state.phase == RevisionRequested <==> EndsInRevision(events))
  {
    var a := s.history[at];
    var base := FrontOf(a.events) + added;
    if Fold(tasks, a.run, base, true).state.phase == Active {
      ReturnedAgain(tasks, a.run, a.events, base);
    } else {
      assert events[|events| - 1] == added[|added| - 1];
    }
  }

  /** What ended a log in a return returns it again. */
  lemma {:induction false} ReturnedAgain(tasks: seq<Task>, run: Run, log: seq<Command>, base: seq<Command>)
    requires EndsInRevision(log) && Fold(tasks, run, log, true).Accept?
    requires Fold(tasks, run, base, true).Accept? && Fold(tasks, run, base, true).state.phase == Active
    ensures var folded := Fold(tasks, run, base + [log[|log| - 1]], true);
            folded.Accept? && folded.state.phase == RevisionRequested
  {
    var front, revision := FrontOf(log), log[|log| - 1];
    assert log == front + [revision];
    FoldSnoc(tasks, run, front, revision, true);
    RevisionReduces(Fold(tasks, run, front, true).state, tasks, run, revision, Fold(tasks, run, base, true).state);
    FoldSnoc(tasks, run, base, revision, true);
  }

  /** Every event of an accepted log has the stored shape, if its key has. */
  lemma {:induction false} AcceptedLogIsStored(tasks: seq<Task>, run: Run, events: seq<Command>, live: bool)
    requires Fold(tasks, run, events, live).Accept? && ValidIds(tasks) && IsText(run.repository)
    requires forall i :: 0 <= i < |events| ==> IsText(events[i].key)
    ensures forall i :: 0 <= i < |events| ==> StoredEvent(events[i])
  {
    if events != [] {
      var front, e := events[..|events| - 1], events[|events| - 1];
      assert events == front + [e];
      FoldSnoc(tasks, run, front, e, live);
      AcceptedLogIsStored(tasks, run, front, live);
      LogsAreOk(tasks, run, front, live);
      AcceptedEventIsStored(tasks, Fold(tasks, run, front, live).state, run, e, live);
      assert forall i :: 0 <= i < |front| ==> events[i] == front[i];
    }
  }

  lemma {:induction false} ResumedKeysAreText(a: seq<Command>, added: seq<Command>, events: seq<Command>)
    requires a != [] && (events == FrontOf(a) + added || events == FrontOf(a) + added + [a[|a| - 1]])
    requires forall i :: 0 <= i < |a| ==> IsText(a[i].key)
    requires forall i :: 0 <= i < |added| ==> IsText(added[i].key)
    ensures forall i :: 0 <= i < |events| ==> IsText(events[i].key)
  {
    forall i | 0 <= i < |events| ensures events[i] in a || events[i] in added {
      if i < |a| - 1 {
        assert events[i] == a[i];
      } else if i < |a| - 1 + |added| {
        assert events[i] == added[i - (|a| - 1)];
      } else {
        assert events[i] == a[|a| - 1];
      }
    }
  }

  lemma {:induction false} ResumedIsStored(s: State, at: nat, tasks: seq<Task>, added: seq<Command>, events: seq<Command>)
    requires ResumedLog(s, at, tasks, added, events) && AddedOk(s, added) && StoredEvents(s.history[at].events)
    requires ValidIds(tasks) && ValidRun(s.history[at].run)
    ensures StoredEvents(events)
  {
    ResumedFolds(s, at, tasks, added, events);
    ResumedKeysAreText(s.history[at].events, added, events);
    AcceptedLogIsStored(tasks, s.history[at].run, events, true);
  }

  lemma {:induction false} ResumedIsRestorable(s: State, at: nat, tasks: seq<Task>, added: seq<Command>, events: seq<Command>)
    requires ResumedLog(s, at, tasks, added, events) && AddedOk(s, added) && RestorableRun(s.graph, s.history[at]) && ValidIds(tasks)
    ensures RestorableRun(s.graph, s.history[at].(events := events))
    ensures Successful(s.graph, s.history[at].(events := events)) <==> !EndsInRevision(events)
  {
    ResumedFolds(s, at, tasks, added, events);
    ResumedIsStored(s, at, tasks, added, events);
  }

  // ----- what a resumed plan owns

  /** Resuming removes at most the revision request and adds exactly the new events. */
  lemma {:induction false} ResumedHistoryOwns(s: State, at: nat, tasks: seq<Task>, added: seq<Command>, events: seq<Command>)
    requires ResumedLog(s, at, tasks, added, events)
    ensures var id, revision := s.history[at].run.id, s.history[at].events[|s.history[at].events| - 1];
            multiset(OwnedHistory(WithLog(s, at, events).history)) + multiset{Owned(id, revision)}
            == multiset(OwnedHistory(s.history)) + multiset(OwnedBy(id, added))
               + if |events| == |s.history[at].events| + |added| then multiset{Owned(id, revision)} else multiset{}
  {
    var a := s.history[at];
    var id, front, revision := a.run.id, FrontOf(a.events), a.events[|a.events| - 1];
    var t := WithLog(s, at, events);
    var whole := |events| == |a.events| + |added|;
    ResumedParts(s, at, tasks, added, events);
    ResumedBags(id, front, revision, added, whole);
    OwnedHistoryReplace(s.history, at, events);
    var more := if whole then multiset{Owned(id, revision)} else multiset{};
    Balanced(multiset(OwnedHistory(s.history)), multiset(OwnedHistory(t.history)), multiset(OwnedBy(id, front)),
             multiset(OwnedBy(id, added)), multiset{Owned(id, revision)}, more);
  }

  /** The same for everything the plan owns. */
  lemma {:induction false} ResumeOwns(s: State, at: nat, tasks: seq<Task>, added: seq<Command>, events: seq<Command>)
    requires ResumedLog(s, at, tasks, added, events)
    ensures var id, revision := s.history[at].run.id, s.history[at].events[|s.history[at].events| - 1];
            multiset(AllOwned(WithLog(s, at, events))) + multiset{Owned(id, revision)}
            == multiset(AllOwned(s)) + multiset(OwnedBy(id, added))
               + if |events| == |s.history[at].events| + |added| then multiset{Owned(id, revision)} else multiset{}
  {
    var t, a := WithLog(s, at, events), s.history[at];
    var one := multiset{Owned(a.run.id, a.events[|a.events| - 1])};
    var active := multiset(if s.execution.Some? then OwnedBy(s.execution.value.id, s.events.Or([])) else []);
    ResumedHistoryOwns(s, at, tasks, added, events);
    AllOwnedParts(s);
    AllOwnedParts(t);
    assert multiset(AllOwned(t)) == active + multiset(OwnedHistory(t.history));
    Beside(active, multiset(OwnedHistory(s.history)), multiset(OwnedHistory(t.history)), multiset(OwnedBy(a.run.id, added)),
           one, if |events| == |a.events| + |added| then one else multiset{});
  }

  lemma {:induction false} Beside(
      active: multiset<Owned>, before: multiset<Owned>, after: multiset<Owned>, added: multiset<Owned>, one: multiset<Owned>, more: multiset<Owned>)
    requires after + one == before + added + more
    ensures (active + after) + one == (active + before) + added + more
  {
    assert (active + after) + one == active + (after + one);
  }

  /** The old log and the new one in terms of the events before the revision request. */
  lemma {:induction false} ResumedParts(s: State, at: nat, tasks: seq<Task>, added: seq<Command>, events: seq<Command>)
    requires ResumedLog(s, at, tasks, added, events)
    ensures var a := s.history[at];
            var front, revision := FrontOf(a.events), a.events[|a.events| - 1];
            a.events == front + [revision]
            && events == if |events| == |a.events| + |added| then front + added + [revision] else front + added
  {}

  lemma {:induction false} ResumedBags(id: string, front: seq<Command>, revision: Command, added: seq<Command>, whole: bool)
    ensures multiset(OwnedBy(id, front + [revision])) == multiset(OwnedBy(id, front)) + multiset{Owned(id, revision)}
    ensures multiset(OwnedBy(id, if whole then front + added + [revision] else front + added))
            == multiset(OwnedBy(id, front)) + multiset(OwnedBy(id, added))
               + if whole then multiset{Owned(id, revision)} else multiset{}
  {
    OwnedBySnoc(id, front, revision);
    OwnedByConcat(id, front, added);
    OwnedBySnoc(id, front + added, revision);
  }

  lemma {:induction false} Balanced(
      before: multiset<Owned>, after: multiset<Owned>, front: multiset<Owned>, added: multiset<Owned>,
      revision: multiset<Owned>, more: multiset<Owned>)
    requires after + (front + revision) == before + (front + added + more)
    ensures after + revision == before + added + more
  {
    forall o ensures (after + revision)[o] == (before + added + more)[o] {
      assert (after + (front + revision))[o] == (before + (front + added + more))[o];
    }
  }

  lemma {:induction false} ResumeKeepsKeys(s: State, at: nat, tasks: seq<Task>, added: seq<Command>, events: seq<Command>)
    requires ResumedLog(s, at, tasks, added, events) && AddedOk(s, added) && UniqueKeys(multiset(AllOwned(s)))
    ensures UniqueKeys(multiset(AllOwned(WithLog(s, at, events))))
  {
    var id, revision := s.history[at].run.id, s.history[at].events[|s.history[at].events| - 1];
    var bag := multiset(AllOwned(s));
    forall i, o | 0 <= i < |added| && o in bag ensures o.event.key != added[i].key {
      FindKeyMeans(AllOwned(s), added[i].key);
    }
    UniqueKeysAdd(bag, id, added);
    ResumeOwns(s, at, tasks, added, events);
    Fewer(multiset(AllOwned(WithLog(s, at, events))), bag + multiset(OwnedBy(id, added)), multiset{Owned(id, revision)});
    UniqueKeysShrink(bag + multiset(OwnedBy(id, added)), multiset(AllOwned(WithLog(s, at, events))));
  }

  lemma {:induction false} Fewer(a: multiset<Owned>, b: multiset<Owned>, x: multiset<Owned>)
    requires a + x == b + x || a + x == b || a + x == b + multiset{}
    ensures a <= b
  {
    forall o ensures a[o] <= b[o] {
      assert (a + x)[o] == a[o] + x[o] && (b + x)[o] == b[o] + x[o] && (b + multiset{})[o] == b[o];
    }
  }

  // ----- who else has the version

  /** The version of an archived run was implemented by another run. */
  ghost predicate TakenBesides(s: State, at: nat)
    requires at < |s.history|
  {
    exists j :: 0 <= j < |s.history| && j != at && SameVersion(s.history[at].run, s.history[j].run) && Successful(s.graph, s.history[j])
  }

  /** No event of the plan has a key the outcome would be recorded under. */
  predicate KeysAreNew(s: State, progress: seq<TaskProgress>, taskId: string, key: string, outcome: TaskOutcome) {
    var at := IndexOf(progress, taskId);
    at.Some? && at.value < |progress|
    && var added := ResumeEvents(progress[at.value], taskId, key, outcome);
       forall i :: 0 <= i < |added| ==> FindKey(AllOwned(s), added[i].key).None?
  }

  /**
   * The outcome is the last one of a stopped run of an edited document: the run is live and was returned, every
   * other task is done, this one can be completed as reported, and its keys are new.
   */
  ghost predicate FinishesStopped(p: Plan, at: nat, taskId: string, buildId: string, outcome: TaskOutcome) {
    at < |p.state.history|
    && var a := p.state.history[at];
       a.run.planRevision < p.revision && a.live && EndsInRevision(a.events) && VersionFor(p.state.graph, a.run).Some?
       && var tasks := VersionFor(p.state.graph, a.run).value.tasks;
          var shown := Fold(tasks, a.run, a.events, true);
          shown.Accept? && Finishes(tasks, a.run, shown.state.progress, taskId, outcome)
          && KeysAreNew(p.state, shown.state.progress, taskId, buildId + ":" + taskId, outcome)
  }

  /** The resumed task is the last one outstanding of a run whose version another run implemented. */
  ghost predicate FinishesTaken(p: Plan, runId: string, taskId: string, buildId: string, outcome: TaskOutcome) {
    match FindRun(p.state.history, runId)
    case None => false
    case Some(at) => FinishesStopped(p, at, taskId, buildId, outcome) && TakenBesides(p.state, at)
  }

  lemma {:induction false} ResumedRun(s: State, at: nat, tasks: seq<Task>, added: seq<Command>, events: seq<Command>, i: nat)
    requires ResumedLog(s, at, tasks, added, events) && AddedOk(s, added) && HistoryOk(s) && ValidIds(tasks) && i < |s.history|
    ensures var t := WithLog(s, at, events);
            t.history[i].run == s.history[i].run && RestorableRun(t.graph, t.history[i])
            && (Successful(t.graph, t.history[i]) ==> Successful(s.graph, s.history[i]) || (i == at && !EndsInRevision(events)))
  {
    ResumedIsRestorable(s, at, tasks, added, events);
    if i != at {
      assert WithLog(s, at, events).history[i] == s.history[i];
    }
  }

  lemma {:induction false} ResumedHistory(s: State, at: nat, tasks: seq<Task>, added: seq<Command>, events: seq<Command>)
    requires ResumedLog(s, at, tasks, added, events) && AddedOk(s, added) && HistoryOk(s) && ValidIds(tasks)
    requires EndsInRevision(events) || !TakenBesides(s, at)
    ensures HistoryOk(WithLog(s, at, events))
  {
    var t := WithLog(s, at, events);
    forall i | 0 <= i < |s.history| ensures t.history[i].run == s.history[i].run && RestorableRun(t.graph, t.history[i]) {
      ResumedRun(s, at, tasks, added, events, i);
    }
    forall i, j | 0 <= i < j < |s.history| && Successful(t.graph, t.history[i]) && Successful(t.graph, t.history[j])
      ensures !SameVersion(t.history[i].run, t.history[j].run)
    {
      ResumedPair(s, at, tasks, added, events, i, j);
    }
    ReplacedHistoryIsOk(s, t);
  }

  /** Two runs that are successful after the resume are of different versions. */
  lemma {:induction false} ResumedPair(s: State, at: nat, tasks: seq<Task>, added: seq<Command>, events: seq<Command>, i: nat, j: nat)
    requires ResumedLog(s, at, tasks, added, events) && AddedOk(s, added) && HistoryOk(s) && ValidIds(tasks)
    requires (EndsInRevision(events) || !TakenBesides(s, at)) && i < j < |s.history|
    requires var t := WithLog(s, at, events); Successful(t.graph, t.history[i]) && Successful(t.graph, t.history[j])
    ensures !SameVersion(s.history[i].run, s.history[j].run)
  {
    ResumedRun(s, at, tasks, added, events, i);
    ResumedRun(s, at, tasks, added, events, j);
    if SameVersion(s.history[i].run, s.history[j].run) {
      assert SameVersion(s.history[j].run, s.history[i].run);
    }
  }

  lemma {:induction false} ResumedActive(s: State, at: nat, tasks: seq<Task>, added: seq<Command>, events: seq<Command>)
    requires ResumedLog(s, at, tasks, added, events) && AddedOk(s, added) && ActiveRestores(s) && ValidIds(tasks)
    requires RestorableRun(s.graph, s.history[at]) && (s.execution.Some? ==> !SameVersion(s.history[at].run, s.execution.value))
    ensures ActiveRestores(WithLog(s, at, events))
  {
    var t := WithLog(s, at, events);
    ResumedIsRestorable(s, at, tasks, added, events);
    forall i | 0 <= i < |s.history|
      ensures t.history[i].run == s.history[i].run
              && (Successful(t.graph, t.history[i]) ==> Successful(s.graph, s.history[i])
                                                        || s.execution.None? || !SameVersion(s.history[i].run, s.execution.value))
    {
      if i != at {
        assert t.history[i] == s.history[i];
      }
    }
    SameRuns(s, t);
  }

  lemma {:induction false} TasksHaveIds(graph: seq<Version>, run: Run)
    requires GraphRestores(graph) && VersionFor(graph, run).Some?
    ensures ValidIds(VersionFor(graph, run).value.tasks)
  {
    VersionForIsFirst(graph, run);
    var i :| 0 <= i < |graph| && graph[i] == VersionFor(graph, run).value && Matches(run, graph[i]);
    assert VersionOk(graph[i], i, |graph|);
  }

  /** The active run is of the document as it stands, so not of the version of an older one. */
  lemma {:induction false} OlderIsOther(p: Plan, run: Run)
    requires RunRestores(p) && run.planRevision < p.revision
    ensures p.state.execution.Some? ==> !SameVersion(run, p.state.execution.value)
  {}

  lemma {:induction false} ResumeKeepsPlanOk(p: Plan, at: nat, tasks: seq<Task>, added: seq<Command>, events: seq<Command>)
    requires PlanOk(p) && ResumedLog(p.state, at, tasks, added, events) && AddedOk(p.state, added)
    requires p.state.history[at].run.planRevision < p.revision && (EndsInRevision(events) || !TakenBesides(p.state, at))
    ensures PlanOk(p.(state := WithLog(p.state, at, events)))
  {
    var s := p.state;
    TasksHaveIds(s.graph, s.history[at].run);
    ResumedHistory(s, at, tasks, added, events);
    OlderIsOther(p, s.history[at].run);
    ResumedActive(s, at, tasks, added, events);
    ResumeKeepsKeys(s, at, tasks, added, events);
  }

  lemma {:induction false} TakenIsLost(p: Plan, at: nat, tasks: seq<Task>, added: seq<Command>, events: seq<Command>)
    requires PlanOk(p) && ResumedLog(p.state, at, tasks, added, events) && AddedOk(p.state, added)
    requires !EndsInRevision(events) && TakenBesides(p.state, at)
    ensures !Restores(p.(state := WithLog(p.state, at, events)))
  {
    var s, t := p.state, WithLog(p.state, at, events);
    TasksHaveIds(s.graph, s.history[at].run);
    ResumedIsRestorable(s, at, tasks, added, events);
    assert t.history[at] == s.history[at].(events := events);
    var j :| 0 <= j < |s.history| && j != at && SameVersion(s.history[at].run, s.history[j].run) && Successful(s.graph, s.history[j]);
    assert t.history[j] == s.history[j];
    TwiceImplementedIsLost(t, at, j);
  }

  lemma {:induction false} TwiceImplementedIsLost(t: State, i: nat, j: nat)
    requires i < |t.history| && j < |t.history| && i != j && SameVersion(t.history[i].run, t.history[j].run)
    requires Successful(t.graph, t.history[i]) && Successful(t.graph, t.history[j])
    ensures !HistoryRestores(t)
  {}

  lemma {:induction false} DoResume(p: Plan, runId: string, taskId: string, buildId: string, outcome: TaskOutcome)
    ensures Do(p, Resume(runId, taskId, buildId, outcome)) == p.(state := ResumeState(p, runId, taskId, buildId, outcome))
  {}

  lemma {:induction false} ResumeDoes(p: Plan, runId: string, taskId: string, buildId: string, outcome: TaskOutcome, at: nat, events: seq<Command>)
    requires at < |p.state.history| && Resumed(p, runId, taskId, buildId, outcome) == Some((at, events))
    ensures Do(p, Resume(runId, taskId, buildId, outcome)) == p.(state := WithLog(p.state, at, events))
  {
    DoResume(p, runId, taskId, buildId, outcome);
  }

  lemma {:induction false} ResumeNothing(p: Plan, runId: string, taskId: string, buildId: string, outcome: TaskOutcome)
    requires Resumed(p, runId, taskId, buildId, outcome).None?
    ensures Do(p, Resume(runId, taskId, buildId, outcome)) == p
  {}

  // ----- when a resume finishes a run

  /** Before its revision request a returned log was under way, with the progress it was returned with. */
  lemma {:induction false} ReturnedFrom(tasks: seq<Task>, run: Run, log: seq<Command>)
    requires EndsInRevision(log) && Fold(tasks, run, log, true).Accept?
    ensures var before, shown := Fold(tasks, run, FrontOf(log), true), Fold(tasks, run, log, true).state;
            before.Accept? && before.state.phase == Active && shown == before.state.(phase := RevisionRequested)
            && |before.state.progress| == |tasks|
  {
    var front, revision := FrontOf(log), log[|log| - 1];
    assert log == front + [revision];
    FoldSnoc(tasks, run, front, revision, true);
    LogsAreOk(tasks, run, front, true);
  }

  /** A log is resumed to one without a revision request exactly when the added events complete its run. */
  lemma {:induction false} ResumeLogCompletes(s: State, at: nat, tasks: seq<Task>, added: seq<Command>)
    requires at < |s.history| && s.history[at].live && EndsInRevision(s.history[at].events)
    requires added != [] && forall i :: 0 <= i < |added| ==> !added[i].RequestRevision?
    ensures ResumeLog(s, at, tasks, added).Some? && !EndsInRevision(ResumeLog(s, at, tasks, added).value)
            <==> Completes(tasks, s.history[at].run, FrontOf(s.history[at].events) + added)
                 && forall i :: 0 <= i < |added| ==> FindKey(AllOwned(s), added[i].key).None?
  {
    var base := FrontOf(s.history[at].events) + added;
    assert base[|base| - 1] == added[|added| - 1];
  }

  /** In a plan that restores every archived run can be shown. */
  lemma {:induction false} HistoryProjects(s: State)
    requires HistoryRestores(s)
    ensures Projects(s)
  {
    forall i | 0 <= i < |s.history|
      ensures VersionFor(s.graph, s.history[i].run).Some?
              && var folded := Fold(VersionFor(s.graph, s.history[i].run).value.tasks, s.history[i].run, s.history[i].events, s.history[i].live);
                 folded.Accept? && folded.state.phase != Active
    {
      assert RestorableRun(s.graph, s.history[i]);
    }
  }

  ghost predicate ResumeEnds(p: Plan, runId: string, taskId: string, buildId: string, outcome: TaskOutcome) {
    Resumed(p, runId, taskId, buildId, outcome).Some? && !EndsInRevision(Resumed(p, runId, taskId, buildId, outcome).value.1)
  }

  /** A resume finishes its run exactly under guards a caller can check beforehand. */
  lemma {:induction false} FinishesExactly(p: Plan, runId: string, taskId: string, buildId: string, outcome: TaskOutcome, at: nat)
    requires HistoryRestores(p.state) && FindRun(p.state.history, runId) == Some(at)
    ensures ResumeEnds(p, runId, taskId, buildId, outcome) <==> FinishesStopped(p, at, taskId, buildId, outcome)
  {
    var s := p.state;
    FindRunIsFirst(s.history, runId);
    HistoryProjects(s);
    var a := s.history[at];
    var tasks := VersionFor(s.graph, a.run).value.tasks;
    ResumeEndsMeans(p, runId, taskId, buildId, outcome, at);
    OutcomeNeedsReturn(s, at, tasks, taskId, buildId + ":" + taskId, outcome);
    if a.live && EndsInRevision(a.events) {
      OutcomeFinishes(s, at, tasks, taskId, buildId + ":" + taskId, outcome);
    }
  }

  /** The outcome is added to the archived log without its revision request. */
  ghost predicate OutcomeEnds(s: State, at: nat, tasks: seq<Task>, taskId: string, key: string, outcome: TaskOutcome)
    requires at < |s.history| && Fold(tasks, s.history[at].run, s.history[at].events, s.history[at].live).Accept?
  {
    var progress := Fold(tasks, s.history[at].run, s.history[at].events, s.history[at].live).state.progress;
    var i := IndexOf(progress, taskId);
    i.Some? && i.value < |progress|
    && var added := ResumeEvents(progress[i.value], taskId, key, outcome);
       added != [] && ResumeLog(s, at, tasks, added).Some? && !EndsInRevision(ResumeLog(s, at, tasks, added).value)
  }

  lemma {:induction false} ResumeEndsMeans(p: Plan, runId: string, taskId: string, buildId: string, outcome: TaskOutcome, at: nat)
    requires FindRun(p.state.history, runId) == Some(at) && at < |p.state.history| && Projects(p.state)
    ensures VersionFor(p.state.graph, p.state.history[at].run).Some?
    ensures var a, tasks := p.state.history[at], VersionFor(p.state.graph, p.state.history[at].run).value.tasks;
            Fold(tasks, a.run, a.events, a.live).Accept?
            && (ResumeEnds(p, runId, taskId, buildId, outcome)
                <==> a.run.planRevision < p.revision && OutcomeEnds(p.state, at, tasks, taskId, buildId + ":" + taskId, outcome))
  {}

  lemma {:induction false} OutcomeNeedsReturn(s: State, at: nat, tasks: seq<Task>, taskId: string, key: string, outcome: TaskOutcome)
    requires at < |s.history| && Fold(tasks, s.history[at].run, s.history[at].events, s.history[at].live).Accept?
    ensures OutcomeEnds(s, at, tasks, taskId, key, outcome) ==> s.history[at].live && EndsInRevision(s.history[at].events)
  {}

  /** The same for one archived log. */
  lemma {:induction false} OutcomeFinishes(s: State, at: nat, tasks: seq<Task>, taskId: string, key: string, outcome: TaskOutcome)
    requires at < |s.history| && s.history[at].live && EndsInRevision(s.history[at].events)
    requires Fold(tasks, s.history[at].run, s.history[at].events, true).Accept?
    ensures var a, progress := s.history[at], Fold(tasks, s.history[at].run, s.history[at].events, true).state.progress;
            OutcomeEnds(s, at, tasks, taskId, key, outcome)
            <==> Finishes(tasks, a.run, progress, taskId, outcome) && KeysAreNew(s, progress, taskId, key, outcome)
  {
    var a := s.history[at];
    ReturnedFrom(tasks, a.run, a.events);
    var before := Fold(tasks, a.run, FrontOf(a.events), true).state;
    var i := IndexOf(before.progress, taskId);
    if i.Some? && i.value < |before.progress| {
      var added := ResumeEvents(before.progress[i.value], taskId, key, outcome);
      if added != [] {
        ResumeEventsAreOk(before.progress[i.value], taskId, key, outcome);
        ResumeLogCompletes(s, at, tasks, added);
        OutcomeCompletes(tasks, a.run, FrontOf(a.events), before, taskId, key, outcome);
      }
    }
  }

  /** Resuming leaves a restorable plan restorable exactly when it does not finish a version that is taken. */
  lemma {:induction false} ResumeKeepsRestorable(p: Plan, runId: string, taskId: string, buildId: string, outcome: TaskOutcome)
    requires PlanOk(p)
    ensures Restores(Do(p, Resume(runId, taskId, buildId, outcome))) <==> !FinishesTaken(p, runId, taskId, buildId, outcome)
    ensures !FinishesTaken(p, runId, taskId, buildId, outcome) ==> PlanOk(Do(p, Resume(runId, taskId, buildId, outcome)))
  {
    match FindRun(p.state.history, runId)
    case None => ResumeNothing(p, runId, taskId, buildId, outcome);
    case Some(at) =>
      HistoryIsRestored(p, at, runId);
      FinishesExactly(p, runId, taskId, buildId, outcome, at);
      match Resumed(p, runId, taskId, buildId, outcome)
      case None => ResumeNothing(p, runId, taskId, buildId, outcome);
      case Some((k, events)) =>
        var tasks, added := ResumedMeans(p, runId, taskId, buildId, outcome);
        ResumeDoes(p, runId, taskId, buildId, outcome, at, events);
        if !EndsInRevision(events) && TakenBesides(p.state, at) {
          TakenIsLost(p, at, tasks, added, events);
        } else {
          ResumeKeepsPlanOk(p, at, tasks, added, events);
        }
  }

  lemma {:induction false} HistoryIsRestored(p: Plan, at: nat, runId: string)
    requires Restores(p) && FindRun(p.state.history, runId) == Some(at)
    ensures HistoryRestores(p.state) && at < |p.state.history|
  {
    FindRunIsFirst(p.state.history, runId);
  }
}
