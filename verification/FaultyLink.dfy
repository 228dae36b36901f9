/**
 * The proxy whose Chat sends pass, are cut or are refused (e2e/connection.e2e.ts:65-100).
 */
module FaultyLink {
  import opened Frames
  import opened Sequences

  type Socket = nat

  datatype Send = Pass | Cut | Refuse

  datatype Event =
    | Connect(socket: Socket)
    | FromPage(socket: Socket, message: Message)
    | FromServer(socket: Socket, message: Message)
    | SetSend(send: Send)
    | SetOffline(offline: bool)
    | Close(socket: Socket)

  datatype State = State(
    offline: bool, send: Send, sockets: seq<Socket>, open: set<Socket>,
    toServer: map<Socket, seq<Message>>, toPage: map<Socket, seq<Message>>)

  const INITIAL := State(false, Pass, [], {}, map[], map[])

  predicate IsSend(message: Message) {
    message.Json? && message.frame.kind == CHAT_SEND
  }

  function Refusal(message: Message): Message
    requires IsSend(message)
  {
    Json(Frame(SESSION_ERROR, message.frame.rid, "Unavailable"))
  }

  /** One handler call; `sends` says whether Chat sends are intercepted. A socket connects at most once. */
  function Step(sends: bool, s: State, e: Event): State {
    match e
    case SetSend(send) => s.(send := send)
    case SetOffline(offline) => s.(offline := offline)
    case Close(socket) => s.(open := s.open - {socket})
    case Connect(socket) =>
      if s.offline || socket in s.sockets then s else s.(sockets := s.sockets + [socket], open := s.open + {socket})
    case FromServer(socket, message) =>
      if socket !in s.open then s else s.(toPage := Append(s.toPage, socket, message))
    case FromPage(socket, message) =>
      if socket !in s.open then s
      else if !sends || !IsSend(message) || s.send.Pass? then s.(toServer := Append(s.toServer, socket, message))
      else if s.send.Cut? then s.(offline := true, open := s.open - {socket})
      else s.(toPage := Append(s.toPage, socket, Refusal(message)))
  }

  class Proxy {
    const sends: bool
    var offline: bool
    var send: Send
    var sockets: seq<Socket>
    var open: set<Socket>
    var toServer: map<Socket, seq<Message>>
    var toPage: map<Socket, seq<Message>>

    constructor (sends: bool)
      ensures this.sends == sends && Current() == INITIAL
    {
      this.sends := sends;
      offline, send, sockets, open, toServer, toPage := false, Pass, [], {}, map[], map[];
    }

    ghost function Current(): State
      reads this
    {
      State(offline, send, sockets, open, toServer, toPage)
    }

    method Routed(socket: Socket)
      requires socket !in sockets
      modifies this
      ensures Current() == Step(sends, old(Current()), Connect(socket))
    {
      if offline {
        return;
      }
      open := open + {socket};
      sockets := sockets + [socket];
    }

    /** Either side, or the holder of `sockets`, closed the socket. */
    method Closed(socket: Socket)
      modifies this
      ensures Current() == Step(sends, old(Current()), Close(socket))
    {
      open := open - {socket};
    }

    method PageMessage(socket: Socket, message: Message)
      requires socket in open
      modifies this
      ensures Current() == Step(sends, old(Current()), FromPage(socket, message))
    {
      if !sends || message.Binary? || message.frame.kind != CHAT_SEND || send == Pass {
        toServer := Append(toServer, socket, message);
      } else if send == Cut {
        offline := true;
        open := open - {socket};
      } else {
        toPage := Append(toPage, socket, Json(Frame(SESSION_ERROR, message.frame.rid, "Unavailable")));
      }
    }
  }

  // ----- runs

  function After(sends: bool, es: seq<Event>): State {
    if es == [] then INITIAL else Step(sends, After(sends, Front(es)), Last(es))
  }

  /** What a page sent on a connected socket, each message with the mode it met. */
  ghost function Attempts(sends: bool, es: seq<Event>, socket: Socket): seq<(Message, Send)> {
    if es == [] then []
    else
      var s, before, e := After(sends, Front(es)), Attempts(sends, Front(es), socket), Last(es);
      if e.FromPage? && e.socket == socket && socket in s.open then before + [(e.message, s.send)] else before
  }

  ghost function ServerSaid(sends: bool, es: seq<Event>, socket: Socket): seq<Message> {
    if es == [] then []
    else
      var s, before, e := After(sends, Front(es)), ServerSaid(sends, Front(es), socket), Last(es);
      if e.FromServer? && e.socket == socket && socket in s.open then before + [e.message] else before
  }

  /** The filter the link implements: everything but the intercepted sends. */
  function Passed(sends: bool, attempts: seq<(Message, Send)>): seq<Message> {
    if attempts == [] then []
    else
      Passed(sends, Front(attempts))
      + if sends && IsSend(Last(attempts).0) && !Last(attempts).1.Pass? then [] else [Last(attempts).0]
  }

  function Refusals(sends: bool, attempts: seq<(Message, Send)>): seq<Message> {
    if attempts == [] then []
    else
      Refusals(sends, Front(attempts))
      + if sends && IsSend(Last(attempts).0) && Last(attempts).1.Refuse? then [Refusal(Last(attempts).0)] else []
  }

  function Sends(messages: seq<Message>): seq<Message> {
    if messages == [] then []
    else Sends(Front(messages)) + if IsSend(Last(messages)) then [Last(messages)] else []
  }

  /** The sends among attempts that met pass mode. */
  function PassedSends(attempts: seq<(Message, Send)>): seq<Message> {
    if attempts == [] then []
    else
      PassedSends(Front(attempts))
      + if IsSend(Last(attempts).0) && Last(attempts).1.Pass? then [Last(attempts).0] else []
  }

  lemma {:induction false} AttemptsSnoc(sends: bool, attempts: seq<(Message, Send)>, a: (Message, Send))
    ensures Passed(sends, attempts + [a])
            == Passed(sends, attempts) + if sends && IsSend(a.0) && !a.1.Pass? then [] else [a.0]
    ensures Refusals(sends, attempts + [a])
            == Refusals(sends, attempts) + if sends && IsSend(a.0) && a.1.Refuse? then [Refusal(a.0)] else []
  {
    assert Front(attempts + [a]) == attempts;
  }

  /** In every run the server of a socket receives exactly the filtered attempts, in order. */
  lemma {:induction false} LinkIsAFilter(sends: bool, es: seq<Event>, socket: Socket)
    ensures At(After(sends, es).toServer, socket) == Passed(sends, Attempts(sends, es, socket))
  {
    if es != [] {
      LinkIsAFilter(sends, Front(es), socket);
      var s, e := After(sends, Front(es)), Last(es);
      if e.FromPage? && e.socket == socket && socket in s.open {
        AttemptsSnoc(sends, Attempts(sends, Front(es), socket), (e.message, s.send));
      }
    }
  }

  lemma {:induction false} SendsOfPassed(attempts: seq<(Message, Send)>)
    ensures Sends(Passed(true, attempts)) == PassedSends(attempts)
  {
    if attempts != [] {
      SendsOfPassed(Front(attempts));
      var before, m := Passed(true, Front(attempts)), Last(attempts).0;
      assert Front(before + [m]) == before && before + [] == before;
      assert Sends(before + [m]) == Sends(before) + if IsSend(m) then [m] else [];
    }
  }

  /** The Chat sends that reach the server are exactly those sent in pass mode on a connected socket, in order. */
  lemma {:induction false} OnlyPassedSendsArrive(es: seq<Event>, socket: Socket)
    ensures Sends(At(After(true, es).toServer, socket)) == PassedSends(Attempts(true, es, socket))
  {
    LinkIsAFilter(true, es, socket);
    SendsOfPassed(Attempts(true, es, socket));
  }

  /**
   * The page of a socket receives an order-preserving interleaving of what its server said and of one
   * error per refused send, carrying that send's rid.
   */
  lemma {:induction false} EachRefusalIsAnswered(sends: bool, es: seq<Event>, socket: Socket) returns (from: seq<bool>)
    ensures var seen := At(After(sends, es).toPage, socket);
            |from| == |seen|
            && Picked(seen, from, true) == ServerSaid(sends, es, socket)
            && Picked(seen, from, false) == Refusals(sends, Attempts(sends, es, socket))
  {
    from := [];
    if es != [] {
      var pre, e := Front(es), Last(es);
      from := EachRefusalIsAnswered(sends, pre, socket);
      var s := After(sends, pre);
      var seen := At(s.toPage, socket);
      if e.FromServer? && e.socket == socket && socket in s.open {
        PickedSnoc(seen, from, e.message, true, true);
        PickedSnoc(seen, from, e.message, true, false);
        from := from + [true];
      } else if e.FromPage? && e.socket == socket && socket in s.open {
        AttemptsSnoc(sends, Attempts(sends, pre, socket), (e.message, s.send));
        if sends && IsSend(e.message) && s.send.Refuse? {
          PickedSnoc(seen, from, Refusal(e.message), false, true);
          PickedSnoc(seen, from, Refusal(e.message), false, false);
          from := from + [false];
        }
      }
    }
  }

  predicate Cuts(s: State, e: Event) {
    e.FromPage? && e.socket in s.open && IsSend(e.message) && s.send.Cut?
  }

  /** Offline, nothing but the offline flag lets a socket connect. */
  lemma {:induction false} OfflineStep(s: State, e: Event)
    requires s.offline && e != SetOffline(false)
    ensures Step(true, s, e).offline && Step(true, s, e).sockets == s.sockets && Step(true, s, e).open <= s.open
  {}

  lemma {:induction false} CutStep(s: State, e: Event)
    requires Cuts(s, e)
    ensures Step(true, s, e).offline && Step(true, s, e).sockets == s.sockets && Step(true, s, e).open == s.open - {e.socket}
  {}

  /** From a cut on, until the offline flag is cleared, no socket connects and the cut socket stays closed. */
  lemma {:induction false} CutKeepsAway(es: seq<Event>, i: nat, j: nat)
    requires i < j <= |es| && Cuts(After(true, es[..i]), es[i])
    requires forall k :: i < k < j ==> es[k] != SetOffline(false)
    ensures After(true, es[..j]).offline
    ensures After(true, es[..j]).sockets == After(true, es[..i]).sockets
    ensures After(true, es[..j]).open <= After(true, es[..i]).open - {es[i].socket}
    decreases j
  {
    assert Front(es[..j]) == es[..j - 1] && Last(es[..j]) == es[j - 1];
    if j > i + 1 {
      CutKeepsAway(es, i, j - 1);
      OfflineStep(After(true, es[..j - 1]), es[j - 1]);
    } else {
      CutStep(After(true, es[..i]), es[i]);
    }
  }

  lemma {:induction false} OpenSocketsConnected(sends: bool, es: seq<Event>)
    ensures After(sends, es).open <= (set x | x in After(sends, es).sockets)
  {
    if es != [] {
      OpenSocketsConnected(sends, Front(es));
    }
  }
}
