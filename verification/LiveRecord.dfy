/**
 * The record of a live document (apps/server/src/tasks/builds.ts:98-188, 329-466 and 887-1030): the pull requests
 * it was built on, the commits rebuilds landed on them, the revision it was built at and the one a rebuild
 * targets. Which lives of the record can be read back from storage.
 */
module LiveRecord {
  import opened Text
  import opened Lifecycle
  import opened LifecycleRuns

  const MAX_PULL_REQUESTS := 100
  const MAX_COMMITS := 200
  const MAX_REPORTED := 50

  /** `commits` holds the pull request of each commit, oldest first. */
  datatype Live = Live(base: nat, pullRequests: seq<string>, commits: seq<string>, target: Option<nat>)

  /** The document's revision, its record, and whether the rebuild the target was sealed for is under way. */
  datatype Document = Document(revision: nat, live: Live, rebuilding: bool)

  /** What a rebuild reports: the pull requests of its commits, and those of its tasks and outcomes. */
  datatype Landing = Landing(commits: seq<string>, others: seq<string>)

  datatype Change =
    | Edit
    | Queue
    | Fail
    | Settle(at: nat)
    | Land(report: Landing, openings: nat)

  // ----- what a rebuild opens

  /** `sameUrl`. */
  predicate Known(pullRequests: seq<string>, url: string) {
    exists i :: 0 <= i < |pullRequests| && SameLetters(pullRequests[i], url)
  }

  /** The reported addresses that are new, each once; a task or an outcome without one counts as empty. */
  function Opened(pullRequests: seq<string>, urls: seq<string>): seq<string> {
    if urls == [] then []
    else
      var before, url := Opened(pullRequests, urls[..|urls| - 1]), urls[|urls| - 1];
      if url == "" || Known(pullRequests, url) || url in before then before else before + [url]
  }

  /** A pull request of the repository, in any case. */
  predicate Openable(repository: string, url: string) {
    var front := GITHUB + repository + "/pull/";
    |front| < |url| && SameLetters(url[..|front|], front) && AllDigits(url[|front|..])
  }

  function Urls(report: Landing): seq<string> {
    report.commits + report.others
  }

  /** `reportRebuild` accepts: a rebuild is under way, and it opened no more than it may, in the same repository. */
  predicate Lands(repository: string, d: Document, report: Landing, openings: nat) {
    var added := Opened(d.live.pullRequests, Urls(report));
    d.rebuilding && d.live.target.Some? && |report.commits| <= MAX_REPORTED && "" !in report.commits
    && |added| <= openings && forall i :: 0 <= i < |added| ==> Openable(repository, added[i])
  }

  /** The last `n` elements. */
  function LastOf(s: seq<string>, n: nat): seq<string> {
    if |s| <= n then s else s[|s| - n..]
  }

  // ----- the life of a record

  function Step(repository: string, d: Document, change: Change): Document {
    var live := d.live;
    match change
    case Edit => d.(revision := d.revision + 1)
    case Queue =>
      if d.rebuilding || d.revision <= live.base then d else d.(live := live.(target := Some(d.revision)), rebuilding := true)
    case Fail => d.(rebuilding := false)
    case Settle(at) => if d.rebuilding || at < live.base || at > d.revision then d else d.(live := live.(base := at))
    case Land(report, openings) =>
      if !Lands(repository, d, report, openings) then d
      else
        d.(live := Live(live.target.value, live.pullRequests + Opened(live.pullRequests, Urls(report)),
                        LastOf(live.commits + report.commits, MAX_COMMITS), None),
           rebuilding := false)
  }

  /** A document goes live with the pull requests it delivered. */
  function Begin(revision: nat, pullRequests: seq<string>): Document {
    Document(revision, Live(revision, pullRequests, [], None), false)
  }

  function After(repository: string, start: Document, changes: seq<Change>): Document {
    if changes == [] then start else Step(repository, After(repository, start, changes[..|changes| - 1]), changes[|changes| - 1])
  }

  /** `restoreLive` accepts what depends on the record alone. */
  ghost predicate Restores(d: Document) {
    var live := d.live;
    && |live.pullRequests| <= MAX_PULL_REQUESTS && |live.commits| <= MAX_COMMITS
    && live.base <= d.revision && Distinct(live.pullRequests)
    && (forall i :: 0 <= i < |live.commits| ==> live.commits[i] in live.pullRequests)
    && (live.target.Some? ==> live.base <= live.target.value <= d.revision)
  }

  /** The pull request is known, but not by this spelling. */
  predicate Misspelt(pullRequests: seq<string>, url: string) {
    url !in pullRequests && Known(pullRequests, url)
  }

  /** The changes after which the record cannot be read back, by what can be checked before them. */
  predicate Unsafe(repository: string, d: Document, change: Change) {
    match change
    case Settle(at) =>
      !d.rebuilding && d.live.base <= at <= d.revision && d.live.target.Some? && d.live.target.value < at
    case Land(report, openings) =>
      Lands(repository, d, report, openings)
      && (|d.live.pullRequests| + |Opened(d.live.pullRequests, Urls(report))| > MAX_PULL_REQUESTS
          || exists i :: 0 <= i < |report.commits| && Misspelt(d.live.pullRequests, report.commits[i]))
    case _ => false
  }

  // ----- one change

  lemma {:induction false} SameAsItself(url: string)
    ensures SameLetters(url, url)
  {}

  /** What is opened: every new address, once, and nothing that is known. */
  lemma {:induction false} OpenedMeans(pullRequests: seq<string>, urls: seq<string>)
    ensures Distinct(Opened(pullRequests, urls))
    ensures forall url :: url in Opened(pullRequests, urls) <==> url in urls && url != "" && !Known(pullRequests, url)
  {
    if urls != [] {
      var before, url := urls[..|urls| - 1], urls[|urls| - 1];
      OpenedMeans(pullRequests, before);
      assert urls == before + [url];
    }
  }

  lemma {:induction false} ListedIsKnown(pullRequests: seq<string>, url: string)
    requires url in pullRequests
    ensures Known(pullRequests, url)
  {
    var i :| 0 <= i < |pullRequests| && pullRequests[i] == url;
    SameAsItself(url);
  }

  lemma {:induction false} DistinctAppend(a: seq<string>, b: seq<string>)
    requires Distinct(a) && Distinct(b) && forall x :: x in b ==> x !in a
    ensures Distinct(a + b)
  {
    forall i, j | 0 <= i < j < |a + b| ensures (a + b)[i] != (a + b)[j] {
      if i < |a| <= j {
        assert (a + b)[j] == b[j - |a|] && b[j - |a|] in b;
      }
    }
  }

  /** The pull requests stay distinct when the opened ones are added. */
  lemma {:induction false} OpenedAreNew(pullRequests: seq<string>, urls: seq<string>)
    requires Distinct(pullRequests)
    ensures Distinct(pullRequests + Opened(pullRequests, urls))
  {
    OpenedMeans(pullRequests, urls);
    forall url | url in Opened(pullRequests, urls) ensures url !in pullRequests {
      if url in pullRequests {
        ListedIsKnown(pullRequests, url);
      }
    }
    DistinctAppend(pullRequests, Opened(pullRequests, urls));
  }

  /** A reported commit is on a listed pull request afterwards unless it misspells a known one. */
  lemma {:induction false} CommitIsListed(pullRequests: seq<string>, report: Landing, url: string)
    requires url in report.commits && url != ""
    ensures url in pullRequests + Opened(pullRequests, Urls(report)) <==> !Misspelt(pullRequests, url)
  {
    OpenedMeans(pullRequests, Urls(report));
    assert url in Urls(report);
    if url in pullRequests {
      ListedIsKnown(pullRequests, url);
    }
  }

  /** The commits kept are those at the end, so all that were just reported. */
  lemma {:induction false} KeptCommits(commits: seq<string>, more: seq<string>, listed: seq<string>)
    requires |more| <= MAX_COMMITS && forall i :: 0 <= i < |commits| ==> commits[i] in listed
    ensures var kept := LastOf(commits + more, MAX_COMMITS);
            |kept| <= MAX_COMMITS
            && ((forall i :: 0 <= i < |kept| ==> kept[i] in listed) <==> forall i :: 0 <= i < |more| ==> more[i] in listed)
  {
    var all, kept := commits + more, LastOf(commits + more, MAX_COMMITS);
    var skip := |all| - |kept|;
    assert skip <= |commits|;
    assert forall i :: 0 <= i < |kept| ==> kept[i] == all[skip + i];
    forall i | 0 <= i < |more| ensures more[i] == kept[|commits| - skip + i] {
      assert all[|commits| + i] == more[i];
    }
    forall i | 0 <= i < |kept| && skip + i < |commits| ensures kept[i] in listed {
      assert kept[i] == commits[skip + i];
    }
    forall i | 0 <= i < |kept| && skip + i >= |commits| ensures kept[i] == more[skip + i - |commits|] {
      assert all[skip + i] == more[skip + i - |commits|];
    }
  }

  lemma {:induction false} LandKeepsRestorable(repository: string, d: Document, report: Landing, openings: nat)
    requires Restores(d) && Lands(repository, d, report, openings)
    ensures Restores(Step(repository, d, Land(report, openings))) <==> !Unsafe(repository, d, Land(report, openings))
  {
    var live, listed := d.live, d.live.pullRequests + Opened(d.live.pullRequests, Urls(report));
    OpenedAreNew(live.pullRequests, Urls(report));
    assert forall i :: 0 <= i < |live.commits| ==> live.commits[i] in listed;
    KeptCommits(live.commits, report.commits, listed);
    forall i | 0 <= i < |report.commits|
      ensures report.commits[i] in listed <==> !Misspelt(live.pullRequests, report.commits[i])
    {
      CommitIsListed(live.pullRequests, report, report.commits[i]);
    }
  }

  /** A change leaves a readable record readable if and only if it is safe. */
  lemma {:induction false} ChangeKeepsRestorable(repository: string, d: Document, change: Change)
    requires Restores(d)
    ensures Restores(Step(repository, d, change)) <==> !Unsafe(repository, d, change)
  {
    if change.Land? && Lands(repository, d, change.report, change.openings) {
      LandKeepsRestorable(repository, d, change.report, change.openings);
    }
  }

  // ----- whole lives

  lemma {:induction false} AfterNext(repository: string, start: Document, changes: seq<Change>, n: nat)
    requires n < |changes|
    ensures After(repository, start, changes[..n + 1]) == Step(repository, After(repository, start, changes[..n]), changes[n])
  {
    assert changes[..n + 1][..n] == changes[..n];
  }

  lemma {:induction false} SafeLifeRestores(repository: string, start: Document, changes: seq<Change>, n: nat)
    requires Restores(start) && n <= |changes|
    requires forall m :: 0 <= m < n ==> !Unsafe(repository, After(repository, start, changes[..m]), changes[m])
    ensures Restores(After(repository, start, changes[..n]))
  {
    if n > 0 {
      SafeLifeRestores(repository, start, changes, n - 1);
      AfterNext(repository, start, changes, n - 1);
      ChangeKeepsRestorable(repository, After(repository, start, changes[..n - 1]), changes[n - 1]);
    }
  }

  /**
   * Exactly which lives of a record restore: from going live with at most a hundred distinct pull requests, the
   * record can be read back at every moment if and only if no rebuild reports a commit on a known pull request
   * in another spelling or opens too many, and no edit is settled past the sealed target of a failed rebuild.
   */
  lemma {:induction false} RecordRestoresExactly(repository: string, revision: nat, pullRequests: seq<string>, changes: seq<Change>)
    requires Distinct(pullRequests) && |pullRequests| <= MAX_PULL_REQUESTS
    ensures var start := Begin(revision, pullRequests);
            (forall n :: 0 <= n <= |changes| ==> Restores(After(repository, start, changes[..n])))
            <==> forall m :: 0 <= m < |changes| ==> !Unsafe(repository, After(repository, start, changes[..m]), changes[m])
  {
    var start := Begin(revision, pullRequests);
    if forall m :: 0 <= m < |changes| ==> !Unsafe(repository, After(repository, start, changes[..m]), changes[m]) {
      forall n | 0 <= n <= |changes| ensures Restores(After(repository, start, changes[..n])) {
        SafeLifeRestores(repository, start, changes, n);
      }
    } else {
      var m :| 0 <= m < |changes| && Unsafe(repository, After(repository, start, changes[..m]), changes[m]);
      if Restores(After(repository, start, changes[..m])) {
        AfterNext(repository, start, changes, m);
        ChangeKeepsRestorable(repository, After(repository, start, changes[..m]), changes[m]);
        assert !Restores(After(repository, start, changes[..m + 1]));
      }
    }
  }

  /** A rebuild fails, the document is edited again, and that edit is judged to need no code: the sealed target is behind. */
  lemma {:induction false} SettledPastTheTarget(repository: string, pullRequests: seq<string>)
    requires Distinct(pullRequests) && |pullRequests| <= MAX_PULL_REQUESTS
    ensures var life := [Edit, Queue, Fail, Edit];
            Restores(After(repository, Begin(0, pullRequests), life)) && !Restores(After(repository, Begin(0, pullRequests), life + [Settle(2)]))
  {
    var start, life := Begin(0, pullRequests), [Edit, Queue, Fail, Edit] + [Settle(2)];
    assert life[..0] == [];
    AfterNext(repository, start, life, 0);
    AfterNext(repository, start, life, 1);
    AfterNext(repository, start, life, 2);
    AfterNext(repository, start, life, 3);
    AfterNext(repository, start, life, 4);
    assert life[..4] == [Edit, Queue, Fail, Edit] && life[..5] == life;
  }

  /** A rebuild lands a commit on a known pull request in another spelling. */
  lemma {:induction false} MisspeltCommit(repository: string, known: string, spelt: string)
    requires known != "" && spelt != known && SameLetters(known, spelt)
    ensures var life := [Edit, Queue];
            Restores(After(repository, Begin(0, [known]), life))
            && !Restores(After(repository, Begin(0, [known]), life + [Land(Landing([spelt], []), 0)]))
  {
    var start, land := Begin(0, [known]), Land(Landing([spelt], []), 0);
    var life := [Edit, Queue] + [land];
    assert life[..0] == [];
    AfterNext(repository, start, life, 0);
    AfterNext(repository, start, life, 1);
    AfterNext(repository, start, life, 2);
    assert life[..2] == [Edit, Queue] && life[..3] == life;
    var d := After(repository, start, life[..2]);
    assert [known][0] == known && Known([known], spelt);
    assert Urls(land.report) == [spelt] && Opened([known], [spelt]) == Opened([known], []) == [];
    ChangeKeepsRestorable(repository, d, land);
  }
}
