/**
 * The recording proxy with injected frames (e2e/harness-children.e2e.ts:22-63). The page must not
 * notice the requests a test injects. `Step` specifies one handler call; the class updates the maps
 * in place; the lemmas are about every interleaving of handler calls.
 */
module WatchedSockets {
  import opened Text
  import opened Frames
  import opened Sequences

  type Route = nat

  datatype Event =
    | Open(route: Route, channel: string)
    | FromPage(route: Route, message: Message)
    | FromServer(route: Route, message: Message)
    | Inject(channel: string, rid: string, kind: string, payload: string)
    | Close(route: Route)

  /** The proxy's maps, the channel of each open route, the routes that closed, and what was sent either way. */
  datatype State = State(
    sent: map<string, seq<Frame>>, received: map<string, seq<Frame>>, servers: map<string, Route>, injected: set<string>,
    channels: map<Route, string>, closed: set<Route>, toServer: map<Route, seq<Message>>, toPage: map<Route, seq<Message>>)

  const INITIAL := State(map[], map[], map[], {}, map[], {}, map[], map[])

  function Record(log: map<string, seq<Frame>>, channel: string, message: Message): map<string, seq<Frame>> {
    match message
    case Json(frame) => Append(log, channel, frame)
    case Binary(_) => log
  }

  /** Whether a server message answers an injected request; an empty rid never does. */
  predicate Hidden(injected: set<string>, message: Message) {
    message.Json? && message.frame.rid.Some? && message.frame.rid.value != "" && message.frame.rid.value in injected
  }

  function InjectedFrame(e: Event): Frame
    requires e.Inject?
  {
    Frame(e.kind, Some(e.rid), e.payload)
  }

  /**
   * One handler call. A route that is not open has no events, and none opens twice; what is sent to a
   * closed one is dropped.
   */
  function Step(s: State, e: Event): State {
    match e
    case Open(route, channel) =>
      if route in s.channels || route in s.closed then s
      else s.(servers := s.servers[channel := route], channels := s.channels[route := channel])
    case FromPage(route, message) =>
      if route !in s.channels then s
      else s.(sent := Record(s.sent, s.channels[route], message), toServer := Append(s.toServer, route, message))
    case FromServer(route, message) =>
      if route !in s.channels then s
      else
        var t := s.(received := Record(s.received, s.channels[route], message));
        if Hidden(s.injected, message) then t else t.(toPage := Append(s.toPage, route, message))
    case Inject(channel, rid, kind, payload) =>
      var t := s.(injected := s.injected + {rid});
      if channel !in s.servers || s.servers[channel] !in s.channels then t
      else t.(toServer := Append(s.toServer, s.servers[channel], Json(InjectedFrame(e))))
    case Close(route) =>
      if route !in s.channels then s else s.(channels := s.channels - {route}, closed := s.closed + {route})
  }

  class Proxy {
    var sent: map<string, seq<Frame>>
    var received: map<string, seq<Frame>>
    var servers: map<string, Route>
    var injected: set<string>
    var channels: map<Route, string>
    var closed: set<Route>
    var toServer: map<Route, seq<Message>>
    var toPage: map<Route, seq<Message>>

    constructor ()
      ensures Current() == INITIAL
    {
      sent, received, servers, injected := map[], map[], map[], {};
      channels, closed, toServer, toPage := map[], {}, map[], map[];
    }

    ghost function Current(): State
      reads this
    {
      State(sent, received, servers, injected, channels, closed, toServer, toPage)
    }

    method Routed(route: Route, channel: string)
      requires route !in channels && route !in closed
      modifies this
      ensures Current() == Step(old(Current()), Open(route, channel))
    {
      channels := channels[route := channel];
      servers := servers[channel := route];
    }

    method PageMessage(route: Route, message: Message)
      requires route in channels
      modifies this
      ensures Current() == Step(old(Current()), FromPage(route, message))
    {
      if message.Json? {
        sent := sent[channels[route] := At(sent, channels[route]) + [message.frame]];
      }
      toServer := Append(toServer, route, message);
    }

    method ServerMessage(route: Route, message: Message)
      requires route in channels
      modifies this
      ensures Current() == Step(old(Current()), FromServer(route, message))
    {
      if message.Json? {
        received := received[channels[route] := At(received, channels[route]) + [message.frame]];
        var rid := message.frame.rid.Or("");
        if rid != "" && rid in injected {
          return;
        }
      }
      toPage := Append(toPage, route, message);
    }

    /** `inject`; on a channel without a socket `inject` throws, after it noted the rid. */
    method InjectFrame(channel: string, rid: string, kind: string, payload: string) returns (ok: bool)
      modifies this
      ensures ok <==> channel in old(servers)
      ensures Current() == Step(old(Current()), Inject(channel, rid, kind, payload))
    {
      injected := injected + {rid};
      ok := channel in servers;
      if ok && servers[channel] in channels {
        toServer := Append(toServer, servers[channel], Json(Frame(kind, Some(rid), payload)));
      }
    }

    /** Either side closed the socket. */
    method Closed(route: Route)
      requires route in channels
      modifies this
      ensures Current() == Step(old(Current()), Close(route))
    {
      channels := channels - {route};
      closed := closed + {route};
    }
  }

  // ----- runs

  function After(es: seq<Event>): State {
    if es == [] then INITIAL else Step(After(Front(es)), Last(es))
  }

  ghost predicate ClosedIn(es: seq<Event>, route: Route) {
    es != [] && (ClosedIn(Front(es), route) || (Last(es) == Close(route) && ChannelOf(Front(es), route).Some?))
  }

  /** The channel of a route while it is open. */
  ghost function ChannelOf(es: seq<Event>, route: Route): Option<string> {
    if es == [] then None
    else
      var earlier, e := ChannelOf(Front(es), route), Last(es);
      if earlier.Some? then (if e == Close(route) then None else earlier)
      else if e.Open? && e.route == route && !ClosedIn(Front(es), route) then Some(e.channel)
      else None
  }

  /** The messages of one side of an open route, in order. */
  ghost function Spoken(es: seq<Event>, route: Route, byPage: bool): seq<Message> {
    if es == [] then []
    else
      var before, e := Spoken(Front(es), route, byPage), Last(es);
      if ChannelOf(Front(es), route).None? then before
      else if byPage && e.FromPage? && e.route == route then before + [e.message]
      else if !byPage && e.FromServer? && e.route == route then before + [e.message]
      else before
  }

  lemma {:induction false} ChannelSnoc(pre: seq<Event>, e: Event, route: Route)
    ensures ChannelOf(pre + [e], route)
            == if ChannelOf(pre, route).Some? then (if e == Close(route) then None else ChannelOf(pre, route))
               else if e.Open? && e.route == route && !ClosedIn(pre, route) then Some(e.channel) else None
    ensures ClosedIn(pre + [e], route) <==> ClosedIn(pre, route) || (e == Close(route) && ChannelOf(pre, route).Some?)
  {
    assert Front(pre + [e]) == pre;
  }

  ghost function Rids(es: seq<Event>): set<string> {
    set i | 0 <= i < |es| && es[i].Inject? :: es[i].rid
  }

  /** The event at `i` shows the page a message that answers one of these rids. */
  ghost predicate Slips(es: seq<Event>, i: nat, route: Route, rids: set<string>) {
    i < |es| && es[i].FromServer? && es[i].route == route && ChannelOf(es[..i], route).Some?
    && !Hidden(Rids(es[..i]), es[i].message) && Hidden(rids, es[i].message)
  }

  /** Every rid is injected before the server uses it on this route. */
  ghost predicate InTime(es: seq<Event>, route: Route, rids: set<string>) {
    forall i :: 0 <= i < |es| ==> !Slips(es, i, route, rids)
  }

  function Shown(rids: set<string>, messages: seq<Message>): seq<Message> {
    if messages == [] then []
    else Shown(rids, Front(messages)) + if Hidden(rids, Last(messages)) then [] else [Last(messages)]
  }

  lemma {:induction false} StepChannels(s: State, e: Event)
    ensures Step(s, e).channels
            == if e.Open? && e.route !in s.channels && e.route !in s.closed then s.channels[e.route := e.channel]
               else if e.Close? && e.route in s.channels then s.channels - {e.route} else s.channels
    ensures Step(s, e).closed == if e.Close? && e.route in s.channels then s.closed + {e.route} else s.closed
  {}

  lemma {:induction false} StepInjected(s: State, e: Event)
    ensures Step(s, e).injected == if e.Inject? then s.injected + {e.rid} else s.injected
  {}

  lemma {:induction false} ChannelsOfRun(es: seq<Event>, route: Route)
    ensures ChannelOf(es, route) == if route in After(es).channels then Some(After(es).channels[route]) else None
    ensures ClosedIn(es, route) <==> route in After(es).closed
  {
    if es != [] {
      ChannelsOfRun(Front(es), route);
      StepChannels(After(Front(es)), Last(es));
    }
  }

  lemma {:induction false} RidsSnoc(pre: seq<Event>, e: Event)
    ensures Rids(pre + [e]) == Rids(pre) + if e.Inject? then {e.rid} else {}
  {
    var es := pre + [e];
    assert forall i :: 0 <= i < |pre| ==> es[i] == pre[i];
    assert es[|pre|] == e;
  }

  lemma {:induction false} InjectedByRun(es: seq<Event>)
    ensures After(es).injected == Rids(es)
  {
    if es != [] {
      InjectedByRun(Front(es));
      StepInjected(After(Front(es)), Last(es));
      assert es == Front(es) + [Last(es)];
      RidsSnoc(Front(es), Last(es));
    }
  }

  lemma {:induction false} InTimeSnoc(pre: seq<Event>, e: Event, route: Route, rids: set<string>)
    ensures InTime(pre + [e], route, rids) <==> InTime(pre, route, rids) && !Slips(pre + [e], |pre|, route, rids)
  {
    var es := pre + [e];
    forall i | 0 <= i < |pre| ensures Slips(es, i, route, rids) <==> Slips(pre, i, route, rids) {
      assert es[..i] == pre[..i] && es[i] == pre[i];
    }
  }

  /** What a step shows the page of a route. */
  lemma {:induction false} PageStep(s: State, e: Event, route: Route)
    ensures At(Step(s, e).toPage, route)
            == At(s.toPage, route)
               + if e.FromServer? && e.route == route && route in s.channels && !Hidden(s.injected, e.message) then [e.message] else []
  {}

  lemma {:induction false} ShownSnoc(rids: set<string>, messages: seq<Message>, m: Message)
    ensures Shown(rids, messages + [m]) == Shown(rids, messages) + if Hidden(rids, m) then [] else [m]
  {
    assert Front(messages + [m]) == messages;
  }

  /** What the server said last on a route, if the last event is a message of it. */
  lemma {:induction false} SpokenSnoc(pre: seq<Event>, e: Event, route: Route)
    ensures Spoken(pre + [e], route, false)
            == Spoken(pre, route, false)
               + if e.FromServer? && e.route == route && ChannelOf(pre, route).Some? then [e.message] else []
  {
    assert Front(pre + [e]) == pre;
  }

  /**
   * For any rids that include the injected ones, the page of a route receives exactly the server's
   * messages that answer none of them, in order, if and only if none slipped through; never fewer.
   */
  lemma {:induction false} PageSeesAllBut(es: seq<Event>, route: Route, rids: set<string>)
    requires Rids(es) <= rids
    ensures |Shown(rids, Spoken(es, route, false))| <= |At(After(es).toPage, route)|
    ensures At(After(es).toPage, route) == Shown(rids, Spoken(es, route, false)) <==> InTime(es, route, rids)
  {
    if es != [] {
      var pre, e := Front(es), Last(es);
      assert es == pre + [e] && es[..|pre|] == pre && es[|pre|] == e;
      RidsSnoc(pre, e);
      PageSeesAllBut(pre, route, rids);
      ChannelsOfRun(pre, route);
      InjectedByRun(pre);
      PageStep(After(pre), e, route);
      SpokenSnoc(pre, e, route);
      InTimeSnoc(pre, e, route, rids);
      if e.FromServer? && e.route == route && ChannelOf(pre, route).Some? {
        ShownSnoc(rids, Spoken(pre, route, false), e.message);
        OneMoreShown(At(After(pre).toPage, route), Shown(rids, Spoken(pre, route, false)), e.message,
                     Hidden(Rids(pre), e.message), Hidden(rids, e.message));
      }
    }
  }

  lemma {:induction false} OneMoreShown(seen: seq<Message>, shown: seq<Message>, m: Message, before: bool, ever: bool)
    requires |shown| <= |seen| && (before ==> ever)
    ensures var seen', shown' := seen + (if before then [] else [m]), shown + (if ever then [] else [m]);
            |shown'| <= |seen'| && (seen' == shown' <==> seen == shown && (ever ==> before))
  {
    assert seen + [] == seen && shown + [] == shown;
    if !before && !ever {
      assert (seen + [m])[..|seen|] == seen && (shown + [m])[..|shown|] == shown;
    }
  }

  /**
   * In every interleaving the page of a route receives exactly the server's messages whose rid is never
   * injected, in order, if and only if each of its rids is injected before the server uses it there.
   */
  lemma {:induction false} PageSeesUninjected(es: seq<Event>, route: Route)
    ensures At(After(es).toPage, route) == Shown(Rids(es), Spoken(es, route, false)) <==> InTime(es, route, Rids(es))
  {
    PageSeesAllBut(es, route, Rids(es));
  }

  /** The run without the injections and their answers. */
  ghost function Erased(es: seq<Event>, rids: set<string>): seq<Event> {
    if es == [] then []
    else
      Erased(Front(es), rids)
      + if Last(es).Inject? || (Last(es).FromServer? && Hidden(rids, Last(es).message)) then [] else [Last(es)]
  }

  lemma {:induction false} ErasedSnoc(pre: seq<Event>, e: Event, rids: set<string>)
    ensures Erased(pre + [e], rids)
            == Erased(pre, rids) + if e.Inject? || (e.FromServer? && Hidden(rids, e.message)) then [] else [e]
  {
    assert Front(pre + [e]) == pre;
  }

  lemma {:induction false} ErasedChannel(es: seq<Event>, rids: set<string>, route: Route)
    ensures ChannelOf(Erased(es, rids), route) == ChannelOf(es, route)
    ensures ClosedIn(Erased(es, rids), route) <==> ClosedIn(es, route)
  {
    if es != [] {
      var pre, e := Front(es), Last(es);
      assert es == pre + [e];
      assert Erased(pre, rids) + [] == Erased(pre, rids);
      ErasedChannel(pre, rids, route);
      ErasedSnoc(pre, e, rids);
      ChannelSnoc(pre, e, route);
      ChannelSnoc(Erased(pre, rids), e, route);
    }
  }

  lemma {:induction false} ErasedRun(es: seq<Event>, rids: set<string>, route: Route)
    ensures Rids(Erased(es, rids)) == {}
    ensures Spoken(Erased(es, rids), route, false) == Shown(rids, Spoken(es, route, false))
  {
    if es != [] {
      var pre, e := Front(es), Last(es);
      assert es == pre + [e];
      assert Erased(pre, rids) + [] == Erased(pre, rids);
      ErasedRun(pre, rids, route);
      ErasedChannel(pre, rids, route);
      ErasedSnoc(pre, e, rids);
      RidsSnoc(Erased(pre, rids), e);
      SpokenSnoc(pre, e, route);
      SpokenSnoc(Erased(pre, rids), e, route);
      if e.FromServer? && e.route == route && ChannelOf(pre, route).Some? {
        ShownSnoc(rids, Spoken(pre, route, false), e.message);
      }
    }
  }

  lemma {:induction false} NothingInjected(messages: seq<Message>)
    ensures Shown({}, messages) == messages
  {
    if messages != [] {
      var n := |messages| - 1;
      NothingInjected(messages[..n]);
      assert Shown({}, messages) == messages[..n] + [messages[n]];
    }
  }

  /**
   * Non-interference: what a page receives is what it would receive in the run from which every injection
   * and every answer to one was removed, if and only if each rid is injected before the server uses it there.
   */
  lemma {:induction false} InjectionIsInvisible(es: seq<Event>, route: Route)
    ensures At(After(es).toPage, route) == At(After(Erased(es, Rids(es))).toPage, route) <==> InTime(es, route, Rids(es))
  {
    var erased := Erased(es, Rids(es));
    PageSeesUninjected(es, route);
    ErasedRun(es, Rids(es), route);
    NothingInjected(Spoken(erased, route, false));
    PageSeesUninjected(erased, route);
  }

  /** A rid the server had already used is not hidden in time. */
  lemma {:induction false} StaleRidIsSeen(rid: string, channel: string)
    requires rid != ""
    ensures var answer := FromServer(0, Json(Frame("ack", Some(rid), "")));
            var es := [Open(0, channel), answer, Inject(channel, rid, "ask", "")];
            Slips(es, 1, 0, Rids(es)) && At(After(es).toPage, 0) != At(After(Erased(es, Rids(es))).toPage, 0)
  {
    var answer := FromServer(0, Json(Frame("ack", Some(rid), "")));
    var es := [Open(0, channel), answer, Inject(channel, rid, "ask", "")];
    assert es[2].rid in Rids(es);
    assert es[..1] == [Open(0, channel)] && Front(es[..1]) == [];
    assert Slips(es, 1, 0, Rids(es));
    InjectionIsInvisible(es, 0);
  }

  // ----- the logs

  ghost function FramesOn(es: seq<Event>, channel: string, byPage: bool): seq<Frame> {
    if es == [] then []
    else
      var before, e := FramesOn(Front(es), channel, byPage), Last(es);
      if (if byPage then e.FromPage? else e.FromServer?) && e.message.Json? && ChannelOf(Front(es), e.route) == Some(channel)
      then before + [e.message.frame]
      else before
  }

  lemma {:induction false} RecordAt(log: map<string, seq<Frame>>, own: string, message: Message, channel: string)
    ensures At(Record(log, own, message), channel)
            == At(log, channel) + if message.Json? && own == channel then [message.frame] else []
  {
  }

  lemma {:induction false} LogStep(s: State, e: Event, channel: string)
    ensures var t := Step(s, e);
            var own := (e.FromPage? || e.FromServer?) && e.route in s.channels && s.channels[e.route] == channel && e.message.Json?;
            At(t.sent, channel) == At(s.sent, channel) + (if own && e.FromPage? then [e.message.frame] else [])
            && At(t.received, channel) == At(s.received, channel) + if own && e.FromServer? then [e.message.frame] else []
  {
    if (e.FromPage? || e.FromServer?) && e.route in s.channels {
      RecordAt(s.sent, s.channels[e.route], e.message, channel);
      RecordAt(s.received, s.channels[e.route], e.message, channel);
    }
  }

  /** The logs of a channel hold exactly the text frames of its routes, in order; injections are in neither. */
  lemma {:induction false} LogsAreComplete(es: seq<Event>, channel: string)
    ensures At(After(es).sent, channel) == FramesOn(es, channel, true)
    ensures At(After(es).received, channel) == FramesOn(es, channel, false)
  {
    if es != [] {
      LogsAreComplete(Front(es), channel);
      var e := Last(es);
      if e.FromPage? || e.FromServer? {
        ChannelsOfRun(Front(es), e.route);
      }
      LogStep(After(Front(es)), Last(es), channel);
    }
  }

  /** The route an injection into a channel goes to: the one opened last. */
  ghost function ServerOf(es: seq<Event>, channel: string): Option<Route> {
    if es == [] then None
    else
      var pre, e := Front(es), Last(es);
      if e.Open? && e.channel == channel && ChannelOf(pre, e.route).None? && !ClosedIn(pre, e.route) then Some(e.route)
      else ServerOf(pre, channel)
  }

  ghost function InjectedInto(es: seq<Event>, route: Route): seq<Message> {
    if es == [] then []
    else
      var before, e := InjectedInto(Front(es), route), Last(es);
      if e.Inject? && ServerOf(Front(es), e.channel) == Some(route) && ChannelOf(Front(es), route).Some?
      then before + [Json(InjectedFrame(e))] else before
  }

  lemma {:induction false} ServersOfRun(es: seq<Event>, channel: string)
    ensures ServerOf(es, channel) == if channel in After(es).servers then Some(After(es).servers[channel]) else None
  {
    if es != [] {
      ServersOfRun(Front(es), channel);
      if Last(es).Open? {
        ChannelsOfRun(Front(es), Last(es).route);
      }
    }
  }

  /** What the last event sends to the server of a route, and whether the page sent it. */
  ghost function Arrival(es: seq<Event>, route: Route): Option<(Message, bool)>
    requires es != []
  {
    var pre, e := Front(es), Last(es);
    if e.FromPage? && e.route == route && ChannelOf(pre, route).Some? then Some((e.message, true))
    else if e.Inject? && ServerOf(pre, e.channel) == Some(route) && ChannelOf(pre, route).Some?
    then Some((Json(InjectedFrame(e)), false))
    else None
  }

  lemma {:induction false} ServerStep(s: State, e: Event, route: Route)
    ensures At(Step(s, e).toServer, route)
            == At(s.toServer, route)
               + (if e.FromPage? && e.route == route && route in s.channels then [e.message]
                  else if e.Inject? && e.channel in s.servers && s.servers[e.channel] == route && route in s.channels
                  then [Json(InjectedFrame(e))]
                  else [])
  {}

  lemma {:induction false} ArrivalStep(es: seq<Event>, route: Route)
    requires es != []
    ensures At(After(es).toServer, route)
            == At(After(Front(es)).toServer, route) + match Arrival(es, route) case None => [] case Some(x) => [x.0]
  {
    var pre, e := Front(es), Last(es);
    ChannelsOfRun(pre, route);
    if e.Inject? {
      ServersOfRun(pre, e.channel);
    }
    ServerStep(After(pre), e, route);
  }

  lemma {:induction false} ArrivalMeans(es: seq<Event>, route: Route)
    requires es != []
    ensures var x, pre := Arrival(es, route), Front(es);
            Spoken(es, route, true) == Spoken(pre, route, true) + (if x.Some? && x.value.1 then [x.value.0] else [])
            && InjectedInto(es, route) == InjectedInto(pre, route) + if x.Some? && !x.value.1 then [x.value.0] else []
  {}

  /** The server of a route receives an order-preserving interleaving of its page's messages and the injected frames. */
  lemma {:induction false} ServerSeesInterleaving(es: seq<Event>, route: Route) returns (from: seq<bool>)
    ensures var seen := At(After(es).toServer, route);
            |from| == |seen|
            && Picked(seen, from, true) == Spoken(es, route, true)
            && Picked(seen, from, false) == InjectedInto(es, route)
  {
    from := [];
    if es != [] {
      from := ServerSeesInterleaving(Front(es), route);
      ArrivalStep(es, route);
      ArrivalMeans(es, route);
      match Arrival(es, route)
      case None =>
      case Some(x) =>
        var seen := At(After(Front(es)).toServer, route);
        PickedSnoc(seen, from, x.0, x.1, true);
        PickedSnoc(seen, from, x.0, x.1, false);
        from := from + [x.1];
    }
  }
}
