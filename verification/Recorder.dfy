/**
 * The proxy that loses an acknowledgement (e2e/conversation-initiative.e2e.ts:8-41 and 46): it numbers
 * connections, logs chat frames both ways and, once armed, closes the connection under the next
 * `chat:send` answer instead of delivering it.
 */
module Recorder {
  import opened Frames
  import opened Sequences

  type Route = nat

  datatype Seen = Seen(at: nat, connection: nat, frame: Frame)
  datatype Sent = Sent(at: nat, frame: Frame)

  datatype Event =
    | Open(route: Route)
    | FromPage(route: Route, at: nat, message: Message)
    | FromServer(route: Route, at: nat, message: Message)
    | Arm
    | Close(route: Route)

  /** `cut` holds the routes that were closed under an acknowledgement. */
  datatype State = State(
    seen: seq<Seen>, sent: seq<Sent>, connections: nat, lose: bool, connection: map<Route, nat>, closed: set<Route>,
    cut: set<Route>, toServer: map<Route, seq<Message>>, toPage: map<Route, seq<Message>>)

  function Initial(lose: bool): State {
    State([], [], 0, lose, map[], {}, {}, map[], map[])
  }

  predicate IsAcknowledgement(message: Message) {
    message.Json? && message.frame.kind == CHAT_SEND
  }

  /** One handler call; a closed or unknown route has no further events. */
  function Step(s: State, e: Event): State {
    match e
    case Arm => s.(lose := true)
    case Close(route) => if route in s.connection then s.(closed := s.closed + {route}) else s
    case Open(route) =>
      if route in s.connection then s
      else s.(connections := s.connections + 1, connection := s.connection[route := s.connections + 1])
    case FromPage(route, at, message) =>
      if route !in s.connection || route in s.closed then s
      else
        s.(sent := if IsChat(message) then s.sent + [Sent(at, message.frame)] else s.sent,
           toServer := Append(s.toServer, route, message))
    case FromServer(route, at, message) =>
      if route !in s.connection || route in s.closed then s
      else
        var t := if IsChat(message) then s.(seen := s.seen + [Seen(at, s.connection[route], message.frame)]) else s;
        if IsAcknowledgement(message) && s.lose then t.(lose := false, closed := s.closed + {route}, cut := s.cut + {route})
        else t.(toPage := Append(s.toPage, route, message))
  }

  class Proxy {
    var seen: seq<Seen>
    var sent: seq<Sent>
    var connections: nat
    var loseFirstAcknowledgement: bool
    var connection: map<Route, nat>
    var closed: set<Route>
    var cut: set<Route>
    var toServer: map<Route, seq<Message>>
    var toPage: map<Route, seq<Message>>

    constructor (lose: bool)
      ensures Current() == Initial(lose)
    {
      seen, sent, connections, loseFirstAcknowledgement := [], [], 0, lose;
      connection, closed, cut, toServer, toPage := map[], {}, {}, map[], map[];
    }

    ghost function Current(): State
      reads this
    {
      State(seen, sent, connections, loseFirstAcknowledgement, connection, closed, cut, toServer, toPage)
    }

    method Routed(route: Route)
      requires route !in connection
      modifies this
      ensures Current() == Step(old(Current()), Open(route))
    {
      connections := connections + 1;
      connection := connection[route := connections];
    }

    method LoseNextAcknowledgement()
      modifies this
      ensures Current() == Step(old(Current()), Arm)
    {
      loseFirstAcknowledgement := true;
    }

    /** Either side closed the socket. */
    method Closed(route: Route)
      requires route in connection
      modifies this
      ensures Current() == Step(old(Current()), Close(route))
    {
      closed := closed + {route};
    }

    method PageMessage(route: Route, at: nat, message: Message)
      requires route in connection && route !in closed
      modifies this
      ensures Current() == Step(old(Current()), FromPage(route, at, message))
    {
      if message.Json? && CHAT <= message.frame.kind {
        sent := sent + [Sent(at, message.frame)];
      }
      toServer := Append(toServer, route, message);
    }

    method ServerMessage(route: Route, at: nat, message: Message)
      requires route in connection && route !in closed
      modifies this
      ensures Current() == Step(old(Current()), FromServer(route, at, message))
    {
      if message.Json? {
        if CHAT <= message.frame.kind {
          seen := seen + [Seen(at, connection[route], message.frame)];
        }
        if message.frame.kind == CHAT_SEND && loseFirstAcknowledgement {
          loseFirstAcknowledgement := false;
          closed, cut := closed + {route}, cut + {route};
          return;
        }
      }
      toPage := Append(toPage, route, message);
    }
  }

  // ----- runs

  function After(lose: bool, es: seq<Event>): State {
    if es == [] then Initial(lose) else Step(After(lose, Front(es)), Last(es))
  }

  /** What one side of a route said while the route was open. */
  ghost function Heard(lose: bool, es: seq<Event>, route: Route, byPage: bool): seq<Message> {
    if es == [] then []
    else
      var s, before, e := After(lose, Front(es)), Heard(lose, Front(es), route, byPage), Last(es);
      if (if byPage then e.FromPage? else e.FromServer?) && e.route == route && route in s.connection && route !in s.closed
      then before + [e.message]
      else before
  }

  ghost function Arms(es: seq<Event>): nat {
    if es == [] then 0 else Arms(Front(es)) + if Last(es).Arm? then 1 else 0
  }

  /** The chat frames among messages. */
  ghost function Chats(messages: seq<Message>): seq<Frame> {
    if messages == [] then []
    else Chats(Front(messages)) + if IsChat(Last(messages)) then [Last(messages).frame] else []
  }

  /** The logged frames of one connection. */
  ghost function SeenOn(seen: seq<Seen>, connection: nat): seq<Frame> {
    if seen == [] then []
    else SeenOn(Front(seen), connection) + if Last(seen).connection == connection then [Last(seen).frame] else []
  }

  /** Connection numbers are distinct, positive and no larger than the count. */
  ghost predicate Numbered(s: State) {
    (forall r :: r in s.connection ==> 1 <= s.connection[r] <= s.connections)
    && (forall q, r :: q in s.connection && r in s.connection && q != r ==> s.connection[q] != s.connection[r])
    && |s.connection| == s.connections && s.cut <= s.closed <= s.connection.Keys
  }

  lemma {:induction false} RoutesStep(s: State, e: Event)
    ensures var t := Step(s, e);
            if e.Open? && e.route !in s.connection then
              t.connections == s.connections + 1 && t.connection == s.connection[e.route := s.connections + 1]
              && t.closed == s.closed && t.cut == s.cut
            else
              t.connections == s.connections && t.connection == s.connection
              && (t.closed == s.closed || (e.route in s.connection && t.closed == s.closed + {e.route}))
              && (t.cut == s.cut || (t.cut == s.cut + {e.route} && t.closed == s.closed + {e.route}))
  {}

  lemma {:induction false} NumberedOpen(s: State, t: State, route: Route)
    requires Numbered(s) && route !in s.connection && t.closed == s.closed && t.cut == s.cut
    requires t.connections == s.connections + 1 && t.connection == s.connection[route := s.connections + 1]
    ensures Numbered(t)
  {
    assert t.connection.Keys == s.connection.Keys + {route};
    assert |t.connection.Keys| == |s.connection.Keys| + 1;
  }

  lemma {:induction false} NumberedStep(s: State, e: Event)
    requires Numbered(s)
    ensures Numbered(Step(s, e))
  {
    RoutesStep(s, e);
    if e.Open? && e.route !in s.connection {
      NumberedOpen(s, Step(s, e), e.route);
    }
  }

  lemma {:induction false} NumberedAlways(lose: bool, es: seq<Event>)
    ensures Numbered(After(lose, es))
  {
    if es != [] {
      NumberedAlways(lose, Front(es));
      NumberedStep(After(lose, Front(es)), Last(es));
    }
  }

  /** What reaches the page of a route: everything, or everything but the acknowledgement it was cut under. */
  ghost predicate Delivered(s: State, heard: seq<Message>, route: Route) {
    if route in s.cut then
      heard != [] && IsAcknowledgement(Last(heard)) && At(s.toPage, route) == Front(heard)
    else At(s.toPage, route) == heard
  }

  /** What one event adds to what a server and a page hear. */
  lemma {:induction false} HeardAdds(s: State, e: Event, route: Route)
    requires s.cut <= s.closed
    ensures var t, spoke := Step(s, e), (e.FromPage? || e.FromServer?) && e.route == route && route in s.connection && route !in s.closed;
            At(t.toServer, route) == At(s.toServer, route) + (if spoke && e.FromPage? then [e.message] else [])
            && (route in t.cut <==> route in s.cut || (spoke && e.FromServer? && IsAcknowledgement(e.message) && s.lose))
            && At(t.toPage, route)
               == At(s.toPage, route) + if spoke && e.FromServer? && route !in t.cut then [e.message] else []
  {}

  lemma {:induction false} ArmsPayForCuts(s: State, e: Event)
    requires s.cut <= s.closed
    ensures |Step(s, e).cut| + (if Step(s, e).lose then 1 else 0)
            <= |s.cut| + (if s.lose then 1 else 0) + if e.Arm? then 1 else 0
  {}

  /** Each arming loses at most one acknowledgement; nothing else is lost, reordered or invented, either way. */
  lemma {:induction false} OnlyAcknowledgementsAreLost(lose: bool, es: seq<Event>, route: Route)
    ensures var s := After(lose, es);
            At(s.toServer, route) == Heard(lose, es, route, true)
            && Delivered(s, Heard(lose, es, route, false), route)
            && |s.cut| + (if s.lose then 1 else 0) <= Arms(es) + if lose then 1 else 0
  {
    if es != [] {
      var pre, e := Front(es), Last(es);
      OnlyAcknowledgementsAreLost(lose, pre, route);
      NumberedAlways(lose, pre);
      HeardAdds(After(lose, pre), e, route);
      ArmsPayForCuts(After(lose, pre), e);
      var heard := Heard(lose, pre, route, false);
      if e.FromServer? {
        assert Front(heard + [e.message]) == heard && Last(heard + [e.message]) == e.message;
      }
    }
  }

  lemma {:induction false} UnnumberedUnseen(seen: seq<Seen>, n: nat)
    requires forall i :: 0 <= i < |seen| ==> seen[i].connection < n
    ensures SeenOn(seen, n) == []
  {
    if seen != [] {
      UnnumberedUnseen(Front(seen), n);
    }
  }

  lemma {:induction false} ChatsSnoc(messages: seq<Message>, m: Message)
    ensures Chats(messages + [m]) == Chats(messages) + if IsChat(m) then [m.frame] else []
  {
    assert Front(messages + [m]) == messages;
  }

  lemma {:induction false} SeenOnSnoc(seen: seq<Seen>, item: Seen, n: nat)
    ensures SeenOn(seen + [item], n) == SeenOn(seen, n) + if item.connection == n then [item.frame] else []
  {
    assert Front(seen + [item]) == seen;
  }

  ghost predicate SeenInRange(s: State) {
    forall i :: 0 <= i < |s.seen| ==> s.seen[i].connection <= s.connections
  }

  lemma {:induction false} SeenStaysWithin(s: State, e: Event)
    requires Numbered(s) && SeenInRange(s)
    ensures SeenInRange(Step(s, e))
  {
    var t := Step(s, e);
    forall i | 0 <= i < |t.seen| ensures t.seen[i].connection <= t.connections {
      if i < |s.seen| {
        assert t.seen[i] == s.seen[i];
      } else {
        assert t.seen[i].connection == s.connection[e.route];
      }
    }
  }

  lemma {:induction false} SeenWithin(lose: bool, es: seq<Event>)
    ensures SeenInRange(After(lose, es))
  {
    if es != [] {
      SeenWithin(lose, Front(es));
      NumberedAlways(lose, Front(es));
      SeenStaysWithin(After(lose, Front(es)), Last(es));
    }
  }

  lemma {:induction false} SeenStep(s: State, e: Event, route: Route)
    requires Numbered(s) && route in s.connection
    ensures SeenOn(Step(s, e).seen, s.connection[route])
            == SeenOn(s.seen, s.connection[route])
               + if e.FromServer? && e.route == route && route !in s.closed && IsChat(e.message) then [e.message.frame] else []
  {
    if e.FromServer? && e.route in s.connection && e.route !in s.closed && IsChat(e.message) {
      SeenOnSnoc(s.seen, Seen(e.at, s.connection[e.route], e.message.frame), s.connection[route]);
    }
  }

  lemma {:induction false} UnopenedIsSilent(lose: bool, es: seq<Event>, route: Route)
    requires route !in After(lose, es).connection
    ensures Heard(lose, es, route, false) == []
  {
    if es != [] {
      UnopenedIsSilent(lose, Front(es), route);
    }
  }

  lemma {:induction false} HeardStep(lose: bool, pre: seq<Event>, e: Event, route: Route)
    ensures var s := After(lose, pre);
            Heard(lose, pre + [e], route, false)
            == Heard(lose, pre, route, false)
               + if e.FromServer? && e.route == route && route in s.connection && route !in s.closed then [e.message] else []
  {
    assert Front(pre + [e]) == pre;
  }

  /** The log is complete per connection, and holds the lost acknowledgement too: it is written before the loss. */
  lemma {:induction false} LogIsComplete(lose: bool, es: seq<Event>, route: Route)
    requires route in After(lose, es).connection
    ensures SeenOn(After(lose, es).seen, After(lose, es).connection[route]) == Chats(Heard(lose, es, route, false))
  {
    if es != [] {
      var pre, e := Front(es), Last(es);
      var s := After(lose, pre);
      assert es == pre + [e];
      NumberedAlways(lose, pre);
      HeardStep(lose, pre, e, route);
      if route in s.connection {
        LogIsComplete(lose, pre, route);
        SeenStep(s, e, route);
        ChatsStep(Heard(lose, pre, route, false), e, e.FromServer? && e.route == route && route !in s.closed);
      } else {
        UnopenedIsSilent(lose, pre, route);
        SeenWithin(lose, pre);
        FirstOpen(s, e, route);
      }
    }
  }

  // ----- what the page sent

  /** The frames a log entry of which came from one route. */
  ghost function SentOn(sent: seq<Sent>, from: seq<Route>, route: Route): seq<Frame>
    requires |from| == |sent|
  {
    if sent == [] then []
    else SentOn(Front(sent), Front(from), route) + if Last(from) == route then [Last(sent).frame] else []
  }

  lemma {:induction false} SentOnSnoc(sent: seq<Sent>, from: seq<Route>, item: Sent, r: Route, route: Route)
    requires |from| == |sent|
    ensures SentOn(sent + [item], from + [r], route) == SentOn(sent, from, route) + if r == route then [item.frame] else []
  {
    assert Front(sent + [item]) == sent && Front(from + [r]) == from;
  }

  /** The `sent` log is an order-preserving interleaving of the chat frames every server received, and holds nothing else. */
  lemma {:induction false} SentIsComplete(lose: bool, es: seq<Event>) returns (from: seq<Route>)
    ensures var s := After(lose, es);
            |from| == |s.sent| && forall route :: SentOn(s.sent, from, route) == Chats(At(s.toServer, route))
  {
    from := [];
    if es != [] {
      var s, t := After(lose, Front(es)), After(lose, es);
      from := SentIsComplete(lose, Front(es));
      if t.sent != s.sent {
        var e := Last(es);
        forall route ensures SentOn(t.sent, from + [e.route], route) == Chats(At(t.toServer, route)) {
          SentOnSnoc(s.sent, from, Sent(e.at, e.message.frame), e.route, route);
          ChatsSnoc(At(s.toServer, route), e.message);
        }
        from := from + [e.route];
      } else {
        forall route ensures Chats(At(t.toServer, route)) == Chats(At(s.toServer, route)) {
          SilentStep(s, Last(es), route);
        }
      }
    }
  }

  lemma {:induction false} SilentStep(s: State, e: Event, route: Route)
    requires Step(s, e).sent == s.sent
    ensures Chats(At(Step(s, e).toServer, route)) == Chats(At(s.toServer, route))
  {
    if e.FromPage? && e.route == route {
      ChatsSnoc(At(s.toServer, route), e.message);
    }
  }

  lemma {:induction false} ChatsStep(heard: seq<Message>, e: Event, own: bool)
    requires own ==> e.FromServer?
    ensures Chats(heard + if own then [e.message] else [])
            == Chats(heard) + if own && IsChat(e.message) then [e.message.frame] else []
  {
    if own {
      ChatsSnoc(heard, e.message);
    } else {
      assert heard + [] == heard;
    }
  }

  lemma {:induction false} FirstOpen(s: State, e: Event, route: Route)
    requires route !in s.connection && route in Step(s, e).connection
    requires SeenInRange(s)
    ensures e.Open? && SeenOn(Step(s, e).seen, Step(s, e).connection[route]) == []
  {
    UnnumberedUnseen(s.seen, s.connections + 1);
  }
}
