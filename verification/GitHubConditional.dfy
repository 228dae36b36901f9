/**
 * Conditional requests (e2e/github.ts:233-301; RFC 9110 sections 13.1.2 and 15.4.5): clients that
 * cache tagged answers and revalidate them see what clients without a cache see.
 */
module GitHubConditional {
  import opened Text
  import opened Tokens
  import opened GitHub
  import opened GitHubRuns
  import opened Sequences

  // ----- a cache per handle and URL

  datatype Entry = Entry(etag: string, body: Body)

  /** Cached answers by authorization header and URL. */
  type Cache = map<(Option<string>, Url), Entry>

  datatype Event =
    | Other(exchange: Exchange)
    | Ask(authorization: Option<string>, url: Url, ambient: Ambient)

  function Plain(authorization: Option<string>, url: Url, inm: Option<string>, ambient: Ambient): Exchange {
    Exchange(Request(url, [], authorization, inm), ambient)
  }

  datatype Run<Memory> = Run(service: State, memory: Memory, delivered: seq<Reply>)

  /** A client without a cache. */
  function Uncached(c: Config, events: seq<Event>): Run<()> {
    if events == [] then Run(INITIAL, (), [])
    else
      var before := Uncached(c, Front(events));
      match Last(events)
      case Other(e) => before.(service := Do(c, before.service, e).0)
      case Ask(authorization, url, ambient) =>
        var (s, reply) := Do(c, before.service, Plain(authorization, url, None, ambient));
        Run(s, (), before.delivered + [reply])
  }

  /** What a client does with an answer to a request it may have made conditional on `held`. */
  function Receive(reply: Reply, held: Option<Entry>): (Reply, Option<Entry>) {
    if reply.Forwarded? then (reply, held)
    else if reply.response.status == 304 && held.Some? then
      (Answered(reply.response.(status := 200, body := held.value.body)), held)
    else if reply.response.status == 200 && reply.response.etag.Some? then
      (reply, Some(Entry(reply.response.etag.value, reply.response.body)))
    else (reply, held)
  }

  function TagOf(held: Option<Entry>): Option<string> {
    match held
    case None => None
    case Some(entry) => Some(entry.etag)
  }

  /** A client that keeps the newest tagged body per handle and URL and revalidates it. */
  function Cached(c: Config, events: seq<Event>): Run<Cache> {
    if events == [] then Run(INITIAL, map[], [])
    else
      var before := Cached(c, Front(events));
      match Last(events)
      case Other(e) => before.(service := Do(c, before.service, e).0)
      case Ask(authorization, url, ambient) =>
        var key := (authorization, url);
        var held := if key in before.memory then Some(before.memory[key]) else None;
        var (s, reply) := Do(c, before.service, Plain(authorization, url, TagOf(held), ambient));
        var (delivered, kept) := Receive(reply, held);
        Run(s, if kept.Some? then before.memory[key := kept.value] else before.memory, before.delivered + [delivered])
  }

  /** Whose listing a request counts towards a revocation. */
  predicate Revocable(authorization: Option<string>) {
    var handle := ReadBearer(authorization.Or(""));
    handle.Some? && REVOKED <= handle.value
  }

  /** Whether any repository of the organization is called score. */
  ghost predicate HasScore(catalogue: seq<Repository>) {
    exists i :: 0 <= i < |catalogue| && catalogue[i].owner == ORG && catalogue[i].name == "score"
  }

  /** A request whose answer changes under a tag that stays: a revoked handle's listing of a catalogue with score. */
  ghost predicate Hot(c: Config, authorization: Option<string>, url: Url) {
    Revocable(authorization) && url.origin == API && url.pathname == LISTING_101 && HasScore(c.catalogue)
  }

  function HandleOf(authorization: Option<string>): string {
    ReadBearer(authorization.Or("")).Or("")
  }

  /** What a condition makes of an answer. */
  ghost predicate Conditioned(plain: Response, conditional: Response, tag: string) {
    conditional == (if plain.etag == Some(tag) then plain.(status := 304, body := Empty) else plain)
    && plain.status != 304 && (plain.etag.Some? ==> plain.status == 200)
  }

  lemma {:induction false} PageCondition(c: Config, handle: string, computed: nat, page: Option<string>, tag: string)
    ensures Conditioned(Page101(c, handle, computed, page, None), Page101(c, handle, computed, page, Some(tag)), tag)
    ensures Conditioned(Page102(c, handle, page, None), Page102(c, handle, page, Some(tag)), tag)
  {}

  lemma {:induction false} ApiCondition(c: Config, handle: string, computed: nat, url: Url, tag: string)
    ensures Conditioned(Api(c, handle, computed, url, None), Api(c, handle, computed, url, Some(tag)), tag)
  {
    if url.pathname == LISTING_101 || url.pathname == LISTING_102 {
      PageCondition(c, handle, computed, Get(url.query, "page"), tag);
    }
  }

  /** A condition changes nothing but the delivery of the body. */
  lemma {:induction false} ConditionOnlyHidesBody(c: Config, s: State, authorization: Option<string>, url: Url, tag: string, ambient: Ambient)
    ensures var (t, plain) := Do(c, s, Plain(authorization, url, None, ambient));
            var (u, conditional) := Do(c, s, Plain(authorization, url, Some(tag), ambient));
            t == u
            && if plain.Answered? && plain.response.etag == Some(tag) then
                 conditional == Answered(plain.response.(status := 304, body := Empty)) && plain.response.status == 200
               else conditional == plain
  {
    if url.origin == API && ReadBearer(authorization.Or("")).Some? {
      var handle := ReadBearer(authorization.Or("")).value;
      ApiCondition(c, handle, Count(s.computed, handle), url, tag);
    }
  }

  lemma {:induction false} PlainIsNever304(c: Config, s: State, authorization: Option<string>, url: Url, ambient: Ambient)
    ensures var plain := Do(c, s, Plain(authorization, url, None, ambient)).1;
            plain.Answered? ==> plain.response.status != 304
  {
    if url.origin == API && ReadBearer(authorization.Or("")).Some? {
      var handle := ReadBearer(authorization.Or("")).value;
      ApiCondition(c, handle, Count(s.computed, handle), url, "");
    }
  }

  /** The tagged answer to a request, when it has one, is the same in every state. */
  ghost predicate Current(c: Config, authorization: Option<string>, url: Url, entry: Entry) {
    forall s: State, ambient: Ambient ::
      var plain := Do(c, s, Plain(authorization, url, None, ambient)).1;
      plain.Answered? && plain.response.etag == Some(entry.etag) ==> plain.response.body == entry.body
  }

  lemma {:induction false} LoweredIgnoresCount(handle: string, m: nat, n: nat, rs: seq<Repository>)
    requires !(REVOKED <= handle) || (m > 0 && n > 0) || forall i :: 0 <= i < |rs| ==> rs[i].name != "score"
    ensures LoweredAll(handle, m, rs) == LoweredAll(handle, n, rs)
  {
    if rs != [] {
      LoweredIgnoresCount(handle, m, n, rs[1..]);
    }
  }

  lemma {:induction false} RevokedSeesAll(handle: string, catalogue: seq<Repository>)
    requires REVOKED <= handle
    ensures Accessible(handle, catalogue) == catalogue
  {
    assert handle[0] == 'r';
    assert SCORE_OUTSIDER[0] == 's' && SCORE_READER[0] == 's' && DOCUMENT_CREATOR[0] == 'd' && MACHINE_SHARER[0] == 'm';
    if catalogue != [] {
      RevokedSeesAll(handle, catalogue[1..]);
    }
  }

  lemma {:induction false} OwnedWithoutScore(rs: seq<Repository>)
    requires !HasScore(rs)
    ensures forall i :: 0 <= i < |OwnedBy(ORG, rs)| ==> OwnedBy(ORG, rs)[i].name != "score"
  {
    if rs != [] {
      assert forall i :: 0 <= i < |rs[1..]| ==> rs[1..][i] == rs[i + 1];
      OwnedWithoutScore(rs[1..]);
      assert rs[0].owner == ORG ==> rs[0].name != "score";
    }
  }

  lemma {:induction false} AvailableIgnoresCount(c: Config, handle: string, m: nat, n: nat)
    requires !(REVOKED <= handle) || (m > 0 && n > 0) || !HasScore(c.catalogue)
    ensures Available(c, handle, m) == Available(c, handle, n)
  {
    if REVOKED <= handle {
      RevokedSeesAll(handle, c.catalogue);
      if !HasScore(c.catalogue) {
        OwnedWithoutScore(c.catalogue);
      }
    }
    LoweredIgnoresCount(handle, m, n, OwnedBy(ORG, Accessible(handle, c.catalogue)));
  }

  lemma {:induction false} ApiIgnoresCount(c: Config, handle: string, m: nat, n: nat, url: Url)
    requires !(REVOKED <= handle) || url.pathname != LISTING_101 || !HasScore(c.catalogue)
    ensures Api(c, handle, m, url, None) == Api(c, handle, n, url, None)
  {
    if url.pathname == LISTING_101 {
      AvailableIgnoresCount(c, handle, m, n);
      assert Page101(c, handle, m, Get(url.query, "page"), None) == Page101(c, handle, n, Get(url.query, "page"), None);
    }
  }

  /** Except for hot requests, a tagged answer does not depend on the state. */
  lemma {:induction false} TaggedAnswersAreStable(c: Config, s: State, t: State, authorization: Option<string>, url: Url, a: Ambient, b: Ambient)
    requires !Hot(c, authorization, url)
    ensures var p := Do(c, s, Plain(authorization, url, None, a)).1;
            var q := Do(c, t, Plain(authorization, url, None, b)).1;
            p.Answered? && q.Answered? && p.response.etag.Some? && q.response.etag.Some? ==> p == q
  {
    if url.origin == API && ReadBearer(authorization.Or("")).Some? {
      var handle := HandleOf(authorization);
      ApiIgnoresCount(c, handle, Count(s.computed, handle), Count(t.computed, handle), url);
    }
  }

  lemma {:induction false} ReceiveDelivers(c: Config, s: State, authorization: Option<string>, url: Url, held: Option<Entry>, ambient: Ambient)
    requires !Hot(c, authorization, url)
    requires held.Some? ==> Current(c, authorization, url, held.value)
    ensures var (t, plain) := Do(c, s, Plain(authorization, url, None, ambient));
            var (u, reply) := Do(c, s, Plain(authorization, url, TagOf(held), ambient));
            t == u && Receive(reply, held).0 == plain
            && (Receive(reply, held).1.Some? ==> Current(c, authorization, url, Receive(reply, held).1.value))
  {
    var plain := Do(c, s, Plain(authorization, url, None, ambient)).1;
    PlainIsNever304(c, s, authorization, url, ambient);
    if held.Some? {
      ConditionOnlyHidesBody(c, s, authorization, url, held.value.etag, ambient);
    }
    if plain.Answered? && plain.response.etag.Some? {
      forall t: State, a: Ambient
        ensures var q := Do(c, t, Plain(authorization, url, None, a)).1;
                q.Answered? && q.response.etag == plain.response.etag ==> q.response.body == plain.response.body
      {
        TaggedAnswersAreStable(c, s, t, authorization, url, ambient, a);
      }
    }
  }

  // ----- hot requests

  function HotTag(authorization: Option<string>, url: Url): string {
    ListingTag(HandleOf(authorization), "101", Get(url.query, "page").Or("1"))
  }

  /** The listing a hot request is answered with, first or later. */
  function HotBody(c: Config, authorization: Option<string>, first: bool): Body {
    Repositories(Available(c, HandleOf(authorization), if first then 0 else 1))
  }

  lemma {:induction false} HotAnswer(c: Config, s: State, authorization: Option<string>, url: Url, inm: Option<string>, ambient: Ambient)
    requires Hot(c, authorization, url)
    ensures var handle, tag := HandleOf(authorization), HotTag(authorization, url);
            var n := Count(s.computed, handle);
            Do(c, s, Plain(authorization, url, inm, ambient))
            == (s.(computed := s.computed[handle := n + 1]),
                Answered(if inm == Some(tag) then Response(304, Empty, Some(tag), None)
                         else Response(200, HotBody(c, authorization, n == 0), Some(tag), None)))
  {
    var handle := HandleOf(authorization);
    var n := Count(s.computed, handle);
    HotExchange(c, s, authorization, url, inm, ambient);
    RevokedIsNeither(handle);
    if n > 0 {
      AvailableIgnoresCount(c, handle, n, 1);
    }
    HotPage(c, handle, n, url, inm);
  }

  lemma {:induction false} RevokedIsNeither(handle: string)
    requires REVOKED <= handle
    ensures handle != "paged" && handle != "expired"
  {
    assert handle[0] == 'r' && "paged"[0] == 'p' && "expired"[0] == 'e';
  }

  lemma {:induction false} HotExchange(c: Config, s: State, authorization: Option<string>, url: Url, inm: Option<string>, ambient: Ambient)
    requires Hot(c, authorization, url)
    ensures var handle := HandleOf(authorization);
            var n := Count(s.computed, handle);
            Do(c, s, Plain(authorization, url, inm, ambient))
            == (s.(computed := s.computed[handle := n + 1]), Answered(Api(c, handle, n, url, inm)))
  {
    ApiExchange(c, s, Plain(authorization, url, inm, ambient), HandleOf(authorization));
  }

  lemma {:induction false} ApiExchange(c: Config, s: State, e: Exchange, handle: string)
    requires e.request.url.origin == API && ReadBearer(e.request.authorization.Or("")) == Some(handle)
    ensures var n := Count(s.computed, handle);
            Do(c, s, e) == (if CountsRead(handle, e.request.url) then s.(computed := s.computed[handle := n + 1]) else s,
                            Answered(Api(c, handle, n, e.request.url, e.request.ifNoneMatch)))
  {
    assert API != SITE;
  }

  lemma {:induction false} HotPage(c: Config, handle: string, n: nat, url: Url, inm: Option<string>)
    requires url.pathname == LISTING_101 && handle != "paged" && handle != "expired"
    ensures var tag := ListingTag(handle, "101", Get(url.query, "page").Or("1"));
            Api(c, handle, n, url, inm) == if inm == Some(tag) then Response(304, Empty, Some(tag), None)
                                           else Response(200, Repositories(Available(c, handle, n)), Some(tag), None)
  {
    assert Api(c, handle, n, url, inm) == Page101(c, handle, n, Get(url.query, "page"), inm);
  }

  lemma {:induction false} FirstListingDiffers(handle: string, rs: seq<Repository>)
    requires REVOKED <= handle && HasScore(rs)
    ensures LoweredAll(handle, 0, OwnedBy(ORG, rs)) != LoweredAll(handle, 1, OwnedBy(ORG, rs))
  {
    assert forall i :: 0 <= i < |rs[1..]| ==> rs[1..][i] == rs[i + 1];
    if rs[0].owner == ORG {
      var a, b := LoweredAll(handle, 0, OwnedBy(ORG, rs)), LoweredAll(handle, 1, OwnedBy(ORG, rs));
      assert a[0] == Lowered(handle, 0, rs[0]) && b[0] == Lowered(handle, 1, rs[0]);
      if rs[0].name != "score" {
        AfterFirst(rs);
        FirstListingDiffers(handle, rs[1..]);
        assert a[1..] == LoweredAll(handle, 0, OwnedBy(ORG, rs[1..])) && b[1..] == LoweredAll(handle, 1, OwnedBy(ORG, rs[1..]));
      }
    } else {
      AfterFirst(rs);
      FirstListingDiffers(handle, rs[1..]);
    }
  }

  lemma {:induction false} AfterFirst(rs: seq<Repository>)
    requires HasScore(rs) && !(rs[0].owner == ORG && rs[0].name == "score")
    ensures HasScore(rs[1..])
  {
    var i :| 0 <= i < |rs| && rs[i].owner == ORG && rs[i].name == "score";
    assert rs[1..][i - 1] == rs[i];
  }

  lemma {:induction false} HotBodiesDiffer(c: Config, authorization: Option<string>)
    requires Revocable(authorization) && HasScore(c.catalogue)
    ensures HotBody(c, authorization, true) != HotBody(c, authorization, false)
  {
    RevokedSeesAll(HandleOf(authorization), c.catalogue);
    FirstListingDiffers(HandleOf(authorization), c.catalogue);
  }

  // ----- which runs a cache changes

  ghost predicate AskedAt(events: seq<Event>, i: nat, authorization: Option<string>, url: Url) {
    i < |events| && events[i].Ask? && events[i].authorization == authorization && events[i].url == url
  }

  /** The event at `i` is this hot request, and the first listing of its handle. */
  ghost predicate FirstAt(c: Config, events: seq<Event>, i: nat, authorization: Option<string>, url: Url) {
    AskedAt(events, i, authorization, url) && Hot(c, authorization, url)
    && Count(Uncached(c, events[..i]).service.computed, HandleOf(authorization)) == 0
  }

  ghost predicate Cold(c: Config, events: seq<Event>, authorization: Option<string>, url: Url) {
    forall i :: 0 <= i < |events| ==> !FirstAt(c, events, i, authorization, url)
  }

  /** The client caches a revoked handle's first listing and asks for it again. */
  ghost predicate Trapped(c: Config, events: seq<Event>) {
    exists i, j :: 0 <= i < j < |events| && events[j].Ask? && FirstAt(c, events, i, events[j].authorization, events[j].url)
  }

  lemma {:induction false} FirstAtSnoc(c: Config, pre: seq<Event>, e: Event, i: nat, authorization: Option<string>, url: Url)
    requires i < |pre|
    ensures FirstAt(c, pre + [e], i, authorization, url) <==> FirstAt(c, pre, i, authorization, url)
  {
    assert (pre + [e])[..i] == pre[..i] && (pre + [e])[i] == pre[i];
  }

  lemma {:induction false} ColdSnoc(c: Config, pre: seq<Event>, e: Event, authorization: Option<string>, url: Url)
    ensures Cold(c, pre + [e], authorization, url)
            <==> Cold(c, pre, authorization, url)
                 && !(e.Ask? && e.authorization == authorization && e.url == url && Hot(c, authorization, url)
                      && Count(Uncached(c, pre).service.computed, HandleOf(authorization)) == 0)
  {
    var es := pre + [e];
    assert es[..|pre|] == pre && es[|pre|] == e;
    forall i: nat | i < |pre| ensures FirstAt(c, es, i, authorization, url) <==> FirstAt(c, pre, i, authorization, url) {
      FirstAtSnoc(c, pre, e, i, authorization, url);
    }
    assert FirstAt(c, es, |pre|, authorization, url)
      <==> e.Ask? && e.authorization == authorization && e.url == url && Hot(c, authorization, url)
           && Count(Uncached(c, pre).service.computed, HandleOf(authorization)) == 0;
  }

  lemma {:induction false} TrappedSnoc(c: Config, pre: seq<Event>, e: Event)
    ensures Trapped(c, pre + [e]) <==> Trapped(c, pre) || (e.Ask? && !Cold(c, pre, e.authorization, e.url))
  {
    var es := pre + [e];
    assert forall i :: 0 <= i < |pre| ==> es[i] == pre[i];
    assert es[|pre|] == e;
    forall i: nat, a, u | i < |pre| ensures FirstAt(c, es, i, a, u) <==> FirstAt(c, pre, i, a, u) {
      FirstAtSnoc(c, pre, e, i, a, u);
    }
    if Trapped(c, pre) {
      var i, j :| 0 <= i < j < |pre| && pre[j].Ask? && FirstAt(c, pre, i, pre[j].authorization, pre[j].url);
      assert FirstAt(c, es, i, es[j].authorization, es[j].url);
    }
    if e.Ask? && !Cold(c, pre, e.authorization, e.url) {
      var i :| 0 <= i < |pre| && FirstAt(c, pre, i, e.authorization, e.url);
      assert FirstAt(c, es, i, es[|pre|].authorization, es[|pre|].url);
    }
    if Trapped(c, es) {
      var i, j :| 0 <= i < j < |es| && es[j].Ask? && FirstAt(c, es, i, es[j].authorization, es[j].url);
      assert FirstAt(c, pre, i, es[j].authorization, es[j].url);
    }
  }

  /** What the cache holds for one request after a run. */
  ghost predicate Holds(c: Config, events: seq<Event>, service: State, held: Option<Entry>, authorization: Option<string>, url: Url) {
    if Hot(c, authorization, url) then
      (held.None? ==> Cold(c, events, authorization, url))
      && (held.Some? ==>
            Count(service.computed, HandleOf(authorization)) > 0
            && held.value == Entry(HotTag(authorization, url), HotBody(c, authorization, !Cold(c, events, authorization, url))))
    else held.Some? ==> Current(c, authorization, url, held.value)
  }

  function HeldFor(cache: Cache, authorization: Option<string>, url: Url): Option<Entry> {
    if (authorization, url) in cache then Some(cache[(authorization, url)]) else None
  }

  ghost predicate CacheOk(c: Config, events: seq<Event>, run: Run<Cache>) {
    forall a, u :: Holds(c, events, run.service, HeldFor(run.memory, a, u), a, u)
  }

  /** A hot request is delivered what it would be delivered without a cache, unless its first listing is cached. */
  lemma {:induction false} HotReceive(
      c: Config, pre: seq<Event>, s: State, authorization: Option<string>, url: Url, held: Option<Entry>, ambient: Ambient)
    requires Hot(c, authorization, url) && Holds(c, pre, s, held, authorization, url) && s == Uncached(c, pre).service
    ensures var (t, plain) := Do(c, s, Plain(authorization, url, None, ambient));
            var (u, reply) := Do(c, s, Plain(authorization, url, TagOf(held), ambient));
            var (delivered, kept) := Receive(reply, held);
            t == u && (delivered == plain <==> Cold(c, pre, authorization, url))
            && Holds(c, pre + [Ask(authorization, url, ambient)], t, kept, authorization, url) && kept.Some?
  {
    HotAnswer(c, s, authorization, url, None, ambient);
    HotAnswer(c, s, authorization, url, TagOf(held), ambient);
    HotBodiesDiffer(c, authorization);
    ColdSnoc(c, pre, Ask(authorization, url, ambient), authorization, url);
  }

  lemma {:induction false} CountsOnlyGrow(c: Config, s: State, e: Exchange, handle: string)
    ensures Count(s.computed, handle) <= Count(Do(c, s, e).0.computed, handle)
  {}

  /** An exchange that is not this request leaves what the cache holds for it in order. */
  lemma {:induction false} HoldsAfter(
      c: Config, pre: seq<Event>, e: Event, s: State, t: State, held: Option<Entry>, authorization: Option<string>, url: Url)
    requires Holds(c, pre, s, held, authorization, url) && s == Uncached(c, pre).service && t == Uncached(c, pre + [e]).service
    requires !Hot(c, authorization, url) || !(e.Ask? && e.authorization == authorization && e.url == url)
    ensures Holds(c, pre + [e], t, held, authorization, url)
  {
    ColdSnoc(c, pre, e, authorization, url);
    assert Front(pre + [e]) == pre && Last(pre + [e]) == e;
    if e.Other? {
      CountsOnlyGrow(c, s, e.exchange, HandleOf(authorization));
    } else {
      CountsOnlyGrow(c, s, Plain(e.authorization, e.url, None, e.ambient), HandleOf(authorization));
    }
  }

  ghost predicate Agree(c: Config, events: seq<Event>) {
    Cached(c, events).delivered == Uncached(c, events).delivered
  }

  /** What one more request makes of the two clients. */
  lemma {:induction false} AskSnoc(c: Config, pre: seq<Event>, authorization: Option<string>, url: Url, ambient: Ambient)
    requires Cached(c, pre).service == Uncached(c, pre).service
    ensures var es := pre + [Ask(authorization, url, ambient)];
            var held := HeldFor(Cached(c, pre).memory, authorization, url);
            var (t, plain) := Do(c, Cached(c, pre).service, Plain(authorization, url, None, ambient));
            var (u, reply) := Do(c, Cached(c, pre).service, Plain(authorization, url, TagOf(held), ambient));
            var (delivered, kept) := Receive(reply, held);
            Uncached(c, es) == Run(t, (), Uncached(c, pre).delivered + [plain])
            && Cached(c, es) == Run(u, if kept.Some? then Cached(c, pre).memory[(authorization, url) := kept.value] else Cached(c, pre).memory,
                                    Cached(c, pre).delivered + [delivered])
  {
    var e := Ask(authorization, url, ambient);
    assert Front(pre + [e]) == pre && Last(pre + [e]) == e;
  }

  /** The request itself: the same next state, the plain answer exactly if no first listing is held, and a cache in order. */
  lemma {:induction false} AskReceives(
      c: Config, pre: seq<Event>, s: State, authorization: Option<string>, url: Url, held: Option<Entry>, ambient: Ambient)
    requires Holds(c, pre, s, held, authorization, url) && s == Uncached(c, pre).service
    ensures var (t, plain) := Do(c, s, Plain(authorization, url, None, ambient));
            var (u, reply) := Do(c, s, Plain(authorization, url, TagOf(held), ambient));
            var (delivered, kept) := Receive(reply, held);
            t == u && (delivered == plain <==> Cold(c, pre, authorization, url)) && (held.Some? ==> kept.Some?)
            && Holds(c, pre + [Ask(authorization, url, ambient)], t, kept, authorization, url)
  {
    if Hot(c, authorization, url) {
      HotReceive(c, pre, s, authorization, url, held, ambient);
    } else {
      ReceiveDelivers(c, s, authorization, url, held, ambient);
    }
  }

  lemma {:induction false} SameAppended<T>(p: seq<T>, q: seq<T>, x: T, y: T)
    requires |p| == |q|
    ensures p + [x] == q + [y] <==> p == q && x == y
  {
    assert (p + [x])[..|p|] == p && (q + [y])[..|q|] == q && (p + [x])[|p|] == x && (q + [y])[|q|] == y;
  }

  lemma {:induction false} CachedAsk(c: Config, pre: seq<Event>, authorization: Option<string>, url: Url, ambient: Ambient)
    requires CacheOk(c, pre, Cached(c, pre)) && Cached(c, pre).service == Uncached(c, pre).service
    requires |Cached(c, pre).delivered| == |Uncached(c, pre).delivered|
    ensures var es := pre + [Ask(authorization, url, ambient)];
            && Cached(c, es).service == Uncached(c, es).service && |Cached(c, es).delivered| == |Uncached(c, es).delivered|
            && (Agree(c, es) <==> Agree(c, pre) && Cold(c, pre, authorization, url))
            && Holds(c, es, Cached(c, es).service, HeldFor(Cached(c, es).memory, authorization, url), authorization, url)
            && forall a, u :: (a, u) != (authorization, url) ==> HeldFor(Cached(c, es).memory, a, u) == HeldFor(Cached(c, pre).memory, a, u)
  {
    var before := Cached(c, pre);
    var held := HeldFor(before.memory, authorization, url);
    assert Holds(c, pre, before.service, held, authorization, url);
    AskSnoc(c, pre, authorization, url, ambient);
    AskReceives(c, pre, before.service, authorization, url, held, ambient);
    SameAppended(before.delivered, Uncached(c, pre).delivered,
                 Receive(Do(c, before.service, Plain(authorization, url, TagOf(held), ambient)).1, held).0,
                 Do(c, before.service, Plain(authorization, url, None, ambient)).1);
  }

  lemma {:induction false} CacheStaysOk(c: Config, pre: seq<Event>, authorization: Option<string>, url: Url, ambient: Ambient)
    requires CacheOk(c, pre, Cached(c, pre)) && Cached(c, pre).service == Uncached(c, pre).service
    requires |Cached(c, pre).delivered| == |Uncached(c, pre).delivered|
    ensures var es := pre + [Ask(authorization, url, ambient)]; CacheOk(c, es, Cached(c, es))
  {
    var e := Ask(authorization, url, ambient);
    var es, before := pre + [e], Cached(c, pre);
    CachedAsk(c, pre, authorization, url, ambient);
    forall a, u ensures Holds(c, es, Cached(c, es).service, HeldFor(Cached(c, es).memory, a, u), a, u) {
      if (a, u) != (authorization, url) {
        assert Holds(c, pre, before.service, HeldFor(before.memory, a, u), a, u);
        HoldsAfter(c, pre, e, before.service, Uncached(c, es).service, HeldFor(before.memory, a, u), a, u);
      }
    }
  }

  lemma {:induction false} CachedOther(c: Config, pre: seq<Event>, exchange: Exchange)
    requires CacheOk(c, pre, Cached(c, pre)) && Cached(c, pre).service == Uncached(c, pre).service
    ensures var es := pre + [Other(exchange)];
            Cached(c, es).service == Uncached(c, es).service && CacheOk(c, es, Cached(c, es))
            && Cached(c, es).delivered == Cached(c, pre).delivered && Uncached(c, es).delivered == Uncached(c, pre).delivered
  {
    var e := Other(exchange);
    var es, before := pre + [e], Cached(c, pre);
    assert Front(es) == pre && Last(es) == e;
    forall a, u ensures Holds(c, es, Cached(c, es).service, HeldFor(Cached(c, es).memory, a, u), a, u) {
      assert Holds(c, pre, before.service, HeldFor(before.memory, a, u), a, u);
      HoldsAfter(c, pre, e, before.service, Uncached(c, es).service, HeldFor(before.memory, a, u), a, u);
    }
  }

  lemma {:induction false} CachedRun(c: Config, events: seq<Event>)
    ensures Cached(c, events).service == Uncached(c, events).service
    ensures |Cached(c, events).delivered| == |Uncached(c, events).delivered|
    ensures CacheOk(c, events, Cached(c, events))
    ensures Agree(c, events) <==> !Trapped(c, events)
  {
    if events != [] {
      var pre, e := Front(events), Last(events);
      assert events == pre + [e];
      CachedRun(c, pre);
      TrappedSnoc(c, pre, e);
      match e
      case Other(exchange) => CachedOther(c, pre, exchange);
      case Ask(authorization, url, ambient) =>
        CachedAsk(c, pre, authorization, url, ambient);
        CacheStaysOk(c, pre, authorization, url, ambient);
    }
  }

  /**
   * Refinement, exactly: in every run, with any other traffic in between, a caching client is delivered
   * what a client without a cache is delivered if and only if it never caches the first listing of a
   * revoked handle, of a catalogue with score, and asks for it again.
   */
  lemma {:induction false} CachingIsExact(c: Config, events: seq<Event>)
    ensures Cached(c, events).service == Uncached(c, events).service
    ensures Cached(c, events).delivered == Uncached(c, events).delivered <==> !Trapped(c, events)
  {
    CachedRun(c, events);
  }

  /** Without hot requests the cache is invisible. */
  lemma {:induction false} CachingIsInvisible(c: Config, events: seq<Event>)
    requires forall i :: 0 <= i < |events| && events[i].Ask? ==> !Hot(c, events[i].authorization, events[i].url)
    ensures Cached(c, events).delivered == Uncached(c, events).delivered
    ensures Cached(c, events).service == Uncached(c, events).service
  {
    CachedRun(c, events);
  }

  /** Every hot request, and no other, goes stale when it is asked twice from the start. */
  lemma {:induction false} RevokedHandleGoesStale(c: Config, authorization: Option<string>, url: Url, ambient: Ambient)
    ensures var ask := Ask(authorization, url, ambient);
            Cached(c, [ask, ask]).delivered == Uncached(c, [ask, ask]).delivered <==> !Hot(c, authorization, url)
  {
    var ask := Ask(authorization, url, ambient);
    CachedRun(c, [ask, ask]);
    TrappedSnoc(c, [ask], ask);
    TrappedSnoc(c, [], ask);
    ColdSnoc(c, [], ask, authorization, url);
    assert [] + [ask] == [ask] && [ask] + [ask] == [ask, ask];
  }
}
