/**
 * The chat log (e2e/harness.e2e.ts:178-201, `recordChat`): a transparent proxy that numbers its
 * connections and logs the server's chat frames in arrival order, and the queries on that log.
 */
module ChatLog {
  import opened Text
  import opened Frames
  import opened Sequences

  datatype Seen = Seen(at: nat, order: nat, connection: nat, frame: Frame)

  /** The n-th `Open` is connection n; only opened connections speak. */
  datatype Event =
    | Open
    | FromPage(connection: nat, message: Message)
    | FromServer(connection: nat, at: nat, message: Message)

  datatype State = State(
    seen: seq<Seen>, connections: nat, toServer: map<nat, seq<Message>>, toPage: map<nat, seq<Message>>)

  const INITIAL := State([], 0, map[], map[])

  predicate IsOpen(s: State, connection: nat) {
    1 <= connection <= s.connections
  }

  function Step(s: State, e: Event): State {
    match e
    case Open => s.(connections := s.connections + 1)
    case FromPage(connection, message) =>
      if !IsOpen(s, connection) then s else s.(toServer := Append(s.toServer, connection, message))
    case FromServer(connection, at, message) =>
      if !IsOpen(s, connection) then s
      else
        s.(seen := if IsChat(message) then s.seen + [Seen(at, |s.seen|, connection, message.frame)] else s.seen,
           toPage := Append(s.toPage, connection, message))
  }

  predicate Asked(item: Seen, kind: string, connection: Option<nat>) {
    item.frame.kind == kind && connection.Or(item.connection) == item.connection
  }

  function Filtered(seen: seq<Seen>, kind: string, connection: Option<nat>): seq<Seen> {
    if seen == [] then []
    else Filtered(Front(seen), kind, connection) + if Asked(Last(seen), kind, connection) then [Last(seen)] else []
  }

  class Recorder {
    var seen: seq<Seen>
    var connections: nat
    var toServer: map<nat, seq<Message>>
    var toPage: map<nat, seq<Message>>

    constructor ()
      ensures Current() == INITIAL
    {
      seen, connections, toServer, toPage := [], 0, map[], map[];
    }

    ghost function Current(): State
      reads this
    {
      State(seen, connections, toServer, toPage)
    }

    method Routed() returns (connection: nat)
      modifies this
      ensures Current() == Step(old(Current()), Open) && connection == connections
    {
      connections := connections + 1;
      connection := connections;
    }

    method PageMessage(connection: nat, message: Message)
      requires 1 <= connection <= connections
      modifies this
      ensures Current() == Step(old(Current()), FromPage(connection, message))
    {
      toServer := Append(toServer, connection, message);
    }

    method ServerMessage(connection: nat, at: nat, message: Message)
      requires 1 <= connection <= connections
      modifies this
      ensures Current() == Step(old(Current()), FromServer(connection, at, message))
    {
      if message.Json? {
        if CHAT <= message.frame.kind {
          seen := seen + [Seen(at, |seen|, connection, message.frame)];
        }
      }
      toPage := Append(toPage, connection, message);
    }

    /** The query that `recordChat` returns. */
    method Query(kind: string, connection: Option<nat>) returns (items: seq<Seen>)
      ensures items == Filtered(seen, kind, connection)
    {
      items := [];
      for n := 0 to |seen|
        invariant items == Filtered(seen[..n], kind, connection)
      {
        assert Front(seen[..n + 1]) == seen[..n];
        if Asked(seen[n], kind, connection) {
          items := items + [seen[n]];
        }
      }
      assert seen[..|seen|] == seen;
    }
  }

  // ----- runs

  function After(es: seq<Event>): State {
    if es == [] then INITIAL else Step(After(Front(es)), Last(es))
  }

  /** What one side of a connection said once it was open. */
  ghost function Heard(es: seq<Event>, connection: nat, byPage: bool): seq<Message> {
    if es == [] then []
    else
      var before, e := Heard(Front(es), connection, byPage), Last(es);
      if (if byPage then e.FromPage? else e.FromServer?) && e.connection == connection && 1 <= connection <= Opens(Front(es))
      then before + [e.message]
      else before
  }

  ghost function Opens(es: seq<Event>): nat {
    if es == [] then 0 else Opens(Front(es)) + if Last(es).Open? then 1 else 0
  }

  lemma {:induction false} ConnectionsAreOpens(es: seq<Event>)
    ensures After(es).connections == Opens(es)
  {
    if es != [] {
      ConnectionsAreOpens(Front(es));
    }
  }

  /** The proxy is transparent: either side hears exactly what the other said, in order. */
  lemma {:induction false} ProxyIsTransparent(es: seq<Event>, connection: nat)
    ensures At(After(es).toPage, connection) == Heard(es, connection, false)
    ensures At(After(es).toServer, connection) == Heard(es, connection, true)
  {
    if es != [] {
      ProxyIsTransparent(Front(es), connection);
      ConnectionsAreOpens(Front(es));
    }
  }

  /** `order` is the position in the log, and every item names a connection that was opened. */
  lemma {:induction false} OrderIsPosition(es: seq<Event>)
    ensures forall i :: 0 <= i < |After(es).seen| ==> After(es).seen[i].order == i
    ensures forall i :: 0 <= i < |After(es).seen| ==> IsOpen(After(es), After(es).seen[i].connection)
  {
    if es != [] {
      OrderIsPosition(Front(es));
    }
  }

  ghost function FramesOf(items: seq<Seen>): seq<Frame> {
    if items == [] then [] else FramesOf(Front(items)) + [Last(items).frame]
  }

  ghost function OfKind(messages: seq<Message>, kind: string): seq<Frame> {
    if messages == [] then []
    else
      OfKind(Front(messages), kind)
      + if Last(messages).Json? && Last(messages).frame.kind == kind then [Last(messages).frame] else []
  }

  lemma {:induction false} FilteredSnoc(seen: seq<Seen>, item: Seen, kind: string, connection: Option<nat>)
    ensures Filtered(seen + [item], kind, connection)
            == Filtered(seen, kind, connection) + if Asked(item, kind, connection) then [item] else []
  {
    assert Front(seen + [item]) == seen;
  }

  lemma {:induction false} OfKindSnoc(messages: seq<Message>, m: Message, kind: string)
    ensures OfKind(messages + [m], kind)
            == OfKind(messages, kind) + if m.Json? && m.frame.kind == kind then [m.frame] else []
  {
    assert Front(messages + [m]) == messages;
  }

  lemma {:induction false} FramesSnoc(items: seq<Seen>, item: Seen)
    ensures FramesOf(items + [item]) == FramesOf(items) + [item.frame]
  {
    assert Front(items + [item]) == items;
  }

  /** Asked for a chat kind on one connection, the log gives exactly the frames of that kind the server said there, in order. */
  lemma {:induction false} QueryIsComplete(es: seq<Event>, kind: string, connection: nat)
    requires CHAT <= kind
    ensures FramesOf(Filtered(After(es).seen, kind, Some(connection))) == OfKind(Heard(es, connection, false), kind)
  {
    if es != [] {
      var pre, e := Front(es), Last(es);
      QueryIsComplete(pre, kind, connection);
      ConnectionsAreOpens(pre);
      QueryStep(After(pre), e, kind, connection);
      if e.FromServer? {
        OfKindSnoc(Heard(pre, connection, false), e.message, kind);
      }
    }
  }

  /** What one event adds to the query of a connection: a chat frame of that kind that its server says. */
  lemma {:induction false} QueryStep(s: State, e: Event, kind: string, connection: nat)
    requires CHAT <= kind
    ensures FramesOf(Filtered(Step(s, e).seen, kind, Some(connection)))
            == FramesOf(Filtered(s.seen, kind, Some(connection)))
               + if e.FromServer? && e.connection == connection && IsOpen(s, connection) && e.message.Json? && e.message.frame.kind == kind
                 then [e.message.frame] else []
  {
    if e.FromServer? && IsOpen(s, e.connection) && IsChat(e.message) {
      var item := Seen(e.at, |s.seen|, e.connection, e.message.frame);
      var before := Filtered(s.seen, kind, Some(connection));
      FilteredSnoc(s.seen, item, kind, Some(connection));
      FramesSnoc(before, item);
      assert before + [] == before;
    }
  }

  /** A query over all connections holds the query of each connection, in its order. */
  lemma {:induction false} QueriesNest(seen: seq<Seen>, kind: string, connection: nat)
    ensures Filtered(Filtered(seen, kind, None), kind, Some(connection)) == Filtered(seen, kind, Some(connection))
  {
    if seen != [] {
      QueriesNest(Front(seen), kind, connection);
      if Asked(Last(seen), kind, None) {
        FilteredSnoc(Filtered(Front(seen), kind, None), Last(seen), kind, Some(connection));
      } else {
        assert Filtered(seen, kind, None) == Filtered(Front(seen), kind, None);
      }
    }
  }

  /** A later answer to the same query extends the earlier one. */
  lemma {:induction false} QueriesOnlyGrow(es: seq<Event>, n: nat, kind: string, connection: Option<nat>)
    requires n <= |es|
    ensures Filtered(After(es[..n]).seen, kind, connection) <= Filtered(After(es).seen, kind, connection)
    decreases |es|
  {
    if n == |es| {
      assert es[..n] == es;
    } else {
      var pre, e := Front(es), Last(es);
      assert pre[..n] == es[..n];
      QueriesOnlyGrow(pre, n, kind, connection);
      if e.FromServer? && IsOpen(After(pre), e.connection) && IsChat(e.message) {
        FilteredSnoc(After(pre).seen, Seen(e.at, |After(pre).seen|, e.connection, e.message.frame), kind, connection);
      }
    }
  }
}
