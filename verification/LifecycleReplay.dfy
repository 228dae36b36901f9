/** What a plan owns: every event of its runs, under keys that no two of them share (apps/server/src/tasks/lifecycle.ts:741-785). */
module LifecycleReplay {
  import opened Text
  import opened Lifecycle

  /** No run means no active log. */
  predicate IdleHasNoEvents(s: State) {
    s.execution.None? ==> s.events.None?
  }

  /** No two owned events share an idempotency key. */
  ghost predicate UniqueKeys(bag: multiset<Owned>) {
    (forall o :: o in bag ==> bag[o] == 1) && forall o, p :: o in bag && p in bag && o.event.key == p.event.key ==> o == p
  }

  lemma {:induction false} OwnedBySnoc(runId: string, events: seq<Command>, e: Command)
    ensures OwnedBy(runId, events + [e]) == OwnedBy(runId, events) + [Owned(runId, e)]
  {
    if events == [] {
      assert events + [e] == [e] && [e][1..] == [];
    } else {
      assert (events + [e])[0] == events[0] && (events + [e])[1..] == events[1..] + [e];
      OwnedBySnoc(runId, events[1..], e);
    }
  }

  lemma {:induction false} OwnedHistorySnoc(history: seq<Archived>, a: Archived)
    ensures OwnedHistory(history + [a]) == OwnedHistory(history) + OwnedBy(a.run.id, a.events)
  {
    if history == [] {
      assert history + [a] == [a] && [a][1..] == [];
    } else {
      assert (history + [a])[0] == history[0] && (history + [a])[1..] == history[1..] + [a];
      OwnedHistorySnoc(history[1..], a);
    }
  }

  lemma {:induction false} OwnedHistoryAppend(history: seq<Archived>, at: nat, e: Command)
    requires at < |history|
    ensures multiset(OwnedHistory(history[at := history[at].(events := history[at].events + [e])]))
            == multiset(OwnedHistory(history)) + multiset{Owned(history[at].run.id, e)}
  {
    var a := history[at];
    var next := history[at := a.(events := a.events + [e])];
    var owned, one := OwnedBy(a.run.id, a.events), Owned(a.run.id, e);
    OwnedBySnoc(a.run.id, a.events, e);
    OwnedHistoryReplace(history, at, a.events + [e]);
    assert multiset(owned + [one]) == multiset(owned) + multiset{one};
    Cancelled(multiset(OwnedHistory(next)), multiset(OwnedHistory(history)), multiset{one}, multiset(owned));
  }

  lemma {:induction false} Cancelled(a: multiset<Owned>, b: multiset<Owned>, c: multiset<Owned>, x: multiset<Owned>)
    requires a + x == b + (x + c)
    ensures a == b + c
  {
    forall o ensures a[o] == (b + c)[o] {
      assert (a + x)[o] == (b + (x + c))[o];
    }
  }

  lemma {:induction false} FindRunIsFirst(history: seq<Archived>, runId: string)
    ensures match FindRun(history, runId)
            case None => forall i :: 0 <= i < |history| ==> history[i].run.id != runId
            case Some(at) => at < |history| && history[at].run.id == runId
  {
    if history != [] {
      FindRunIsFirst(history[1..], runId);
      assert forall i :: 1 <= i < |history| ==> history[1..][i - 1] == history[i];
    }
  }

  lemma {:induction false} FindKeyMeans(owned: seq<Owned>, key: string)
    ensures match FindKey(owned, key)
            case None => forall o :: o in owned ==> o.event.key != key
            case Some(o) => o in owned && o.event.key == key
  {
    if owned != [] {
      FindKeyMeans(owned[1..], key);
    }
  }

  /** An accepted transition is a late report on an archived run or an event of the active one, under a new key. */
  lemma {:induction false} TransitionCases(s: State, runId: string, e: Command, live: bool)
    requires Transition(s, runId, e, live).Accepted?
    ensures FindKey(AllOwned(s), e.key) == None && IsText(runId) && IsText(e.key)
    ensures match FindRun(s.history, runId)
            case Some(at) => at < |s.history| && Transition(s, runId, e, live) == TransitionArchived(s, e, at)
            case None => Transition(s, runId, e, live) == TransitionActive(s, runId, e, live)
  {
  }

  lemma {:induction false} ArchivedShape(s: State, e: Command, at: nat)
    requires at < |s.history| && TransitionArchived(s, e, at).Accepted?
    ensures TransitionArchived(s, e, at).state
            == s.(history := s.history[at := s.history[at].(events := s.history[at].events + [e])])
  {
  }

  lemma {:induction false} ActiveShape(s: State, runId: string, e: Command, live: bool)
    requires TransitionActive(s, runId, e, live).Accepted?
    ensures s.execution.Some? && s.execution.value.id == runId
    ensures var t, run, events := TransitionActive(s, runId, e, live).state, s.execution.value, s.events.Or([]) + [e];
            t == s.(events := Some(events)) || t == Released(s, run, events, true) || t == Released(s, run, events, false)
  {
  }

  lemma {:induction false} ArchivedGrowsByOne(s: State, t: State, e: Command, at: nat)
    requires at < |s.history|
    requires t == s.(history := s.history[at := s.history[at].(events := s.history[at].events + [e])])
    ensures multiset(AllOwned(t)) == multiset(AllOwned(s)) + multiset{Owned(s.history[at].run.id, e)}
  {
    OwnedHistoryAppend(s.history, at, e);
    var active := if s.execution.Some? then OwnedBy(s.execution.value.id, s.events.Or([])) else [];
    assert AllOwned(s) == active + OwnedHistory(s.history) && AllOwned(t) == active + OwnedHistory(t.history);
  }

  lemma {:induction false} ActiveGrowsByOne(s: State, t: State, e: Command)
    requires s.execution.Some?
    requires var run, events := s.execution.value, s.events.Or([]) + [e];
             t == s.(events := Some(events)) || t == Released(s, run, events, true) || t == Released(s, run, events, false)
    ensures multiset(AllOwned(t)) == multiset(AllOwned(s)) + multiset{Owned(s.execution.value.id, e)} && IdleHasNoEvents(t)
  {
    var run, events := s.execution.value, s.events.Or([]);
    OwnedBySnoc(run.id, events, e);
    var owned := OwnedBy(run.id, events);
    assert multiset(owned + [Owned(run.id, e)]) == multiset(owned) + multiset{Owned(run.id, e)};
    AllOwnedParts(s);
    AllOwnedParts(t);
    if t.execution.None? {
      OwnedHistorySnoc(s.history, t.history[|s.history|]);
    }
  }

  /** An accepted transition adds exactly one event to what the plan owns: nothing is lost, archived runs included. */
  lemma {:induction false} OwnedGrowsByOne(s: State, runId: string, e: Command, live: bool)
    requires IdleHasNoEvents(s) && Transition(s, runId, e, live).Accepted?
    ensures var t := Transition(s, runId, e, live).state;
            multiset(AllOwned(t)) == multiset(AllOwned(s)) + multiset{Owned(runId, e)} && IdleHasNoEvents(t)
    ensures FindKey(AllOwned(s), e.key) == None
  {
    TransitionCases(s, runId, e, live);
    FindRunIsFirst(s.history, runId);
    var t := Transition(s, runId, e, live).state;
    match FindRun(s.history, runId)
    case Some(at) =>
      ArchivedShape(s, e, at);
      ArchivedGrowsByOne(s, t, e, at);
    case None =>
      ActiveShape(s, runId, e, live);
      ActiveGrowsByOne(s, t, e);
  }

  lemma {:induction false} UniqueKeysGrow(s: State, runId: string, e: Command, live: bool)
    requires IdleHasNoEvents(s) && UniqueKeys(multiset(AllOwned(s))) && Transition(s, runId, e, live).Accepted?
    ensures UniqueKeys(multiset(AllOwned(Transition(s, runId, e, live).state)))
  {
    OwnedGrowsByOne(s, runId, e, live);
    FindKeyMeans(AllOwned(s), e.key);
    assert Owned(runId, e) !in multiset(AllOwned(s));
  }

  /** A command whose event the plan owns is replayed and changes nothing; its key with anything else is refused. */
  lemma {:induction false} OwnedIsReplayed(s: State, runId: string, e: Command, f: Command, live: bool)
    requires UniqueKeys(multiset(AllOwned(s))) && Owned(runId, e) in AllOwned(s) && IsText(runId) && IsText(e.key)
    ensures Transition(s, runId, e, live) == Replayed(s)
    ensures f.key == e.key && f != e ==> Transition(s, runId, f, live) == Refused("idempotency-conflict")
  {
    FindKeyMeans(AllOwned(s), e.key);
    var prior := FindKey(AllOwned(s), e.key).value;
    assert prior in multiset(AllOwned(s)) && Owned(runId, e) in multiset(AllOwned(s));
  }

  // ----- more than one event at once

  lemma {:induction false} AllOwnedParts(s: State)
    ensures multiset(AllOwned(s))
            == multiset(if s.execution.Some? then OwnedBy(s.execution.value.id, s.events.Or([])) else []) + multiset(OwnedHistory(s.history))
  {}

  lemma {:induction false} OwnedByConcat(runId: string, a: seq<Command>, b: seq<Command>)
    ensures OwnedBy(runId, a + b) == OwnedBy(runId, a) + OwnedBy(runId, b)
  {
    if a == [] {
      assert a + b == b;
    } else {
      assert (a + b)[0] == a[0] && (a + b)[1..] == a[1..] + b;
      OwnedByConcat(runId, a[1..], b);
    }
  }

  lemma {:induction false} OwnedByContents(runId: string, events: seq<Command>)
    ensures forall o :: o in OwnedBy(runId, events) <==> o.runId == runId && o.event in events
  {
    if events != [] {
      OwnedByContents(runId, events[1..]);
    }
  }

  lemma {:induction false} OwnedHistoryConcat(a: seq<Archived>, b: seq<Archived>)
    ensures OwnedHistory(a + b) == OwnedHistory(a) + OwnedHistory(b)
  {
    if a == [] {
      assert a + b == b;
    } else {
      assert (a + b)[0] == a[0] && (a + b)[1..] == a[1..] + b;
      OwnedHistoryConcat(a[1..], b);
    }
  }

  lemma {:induction false} OwnedHistoryAround(history: seq<Archived>, at: nat)
    requires at < |history|
    ensures multiset(OwnedHistory(history))
            == multiset(OwnedHistory(history[..at])) + multiset(OwnedBy(history[at].run.id, history[at].events))
               + multiset(OwnedHistory(history[at + 1..]))
  {
    assert history == history[..at] + [history[at]] + history[at + 1..];
    OwnedHistorySnoc(history[..at], history[at]);
    OwnedHistoryConcat(history[..at] + [history[at]], history[at + 1..]);
  }

  lemma {:induction false} Exchanged(before: multiset<Owned>, a: multiset<Owned>, b: multiset<Owned>, after: multiset<Owned>)
    ensures (before + b + after) + a == (before + a + after) + b
  {}

  /** Replacing one archived log exchanges exactly its events. */
  lemma {:induction false} OwnedHistoryReplace(history: seq<Archived>, at: nat, events: seq<Command>)
    requires at < |history|
    ensures multiset(OwnedHistory(history[at := history[at].(events := events)])) + multiset(OwnedBy(history[at].run.id, history[at].events))
            == multiset(OwnedHistory(history)) + multiset(OwnedBy(history[at].run.id, events))
  {
    var next := history[at := history[at].(events := events)];
    OwnedHistoryAround(history, at);
    OwnedHistoryAround(next, at);
    assert next[..at] == history[..at] && next[at + 1..] == history[at + 1..];
    Exchanged(multiset(OwnedHistory(history[..at])), multiset(OwnedBy(history[at].run.id, history[at].events)),
              multiset(OwnedBy(history[at].run.id, events)), multiset(OwnedHistory(history[at + 1..])));
  }

  ghost predicate DistinctKeys(events: seq<Command>) {
    forall i, j :: 0 <= i < j < |events| ==> events[i].key != events[j].key
  }

  ghost predicate NewKeys(bag: multiset<Owned>, events: seq<Command>) {
    forall i, o :: 0 <= i < |events| && o in bag ==> o.event.key != events[i].key
  }

  lemma {:induction false} UniqueKeysAdd(bag: multiset<Owned>, runId: string, events: seq<Command>)
    requires UniqueKeys(bag) && NewKeys(bag, events) && DistinctKeys(events)
    ensures UniqueKeys(bag + multiset(OwnedBy(runId, events)))
  {
    if events == [] {
      assert bag + multiset(OwnedBy(runId, events)) == bag;
    } else {
      var front, e := events[..|events| - 1], events[|events| - 1];
      assert events == front + [e];
      UniqueKeysAdd(bag, runId, front);
      OwnedBySnoc(runId, front, e);
      OwnedByContents(runId, front);
      var owned := OwnedBy(runId, front);
      assert multiset(owned + [Owned(runId, e)]) == multiset(owned) + multiset{Owned(runId, e)};
      assert bag + (multiset(owned) + multiset{Owned(runId, e)}) == (bag + multiset(owned)) + multiset{Owned(runId, e)};
      assert e.key == events[|events| - 1].key;
      forall o | o in bag + multiset(owned) ensures o.event.key != e.key {
        if o in owned {
          assert o.event in front;
        }
      }
      UniqueKeysAddOne(bag + multiset(owned), Owned(runId, e));
    }
  }

  lemma {:induction false} UniqueKeysAddOne(bag: multiset<Owned>, o: Owned)
    requires UniqueKeys(bag) && forall p :: p in bag ==> p.event.key != o.event.key
    ensures UniqueKeys(bag + multiset{o})
  {
    assert o !in bag;
  }

  lemma {:induction false} UniqueKeysShrink(bag: multiset<Owned>, fewer: multiset<Owned>)
    requires UniqueKeys(bag) && fewer <= bag
    ensures UniqueKeys(fewer)
  {
    forall o | o in fewer ensures fewer[o] == 1 && o in bag {
      assert fewer[o] <= bag[o] == 1;
    }
  }
}
