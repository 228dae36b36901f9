/**
 * Entity tags across handles and URLs (e2e/github.ts:255-306; RFC 9110 section 8.8.3): when two tagged
 * answers share a tag, and when one table of bodies by tag can serve every handle.
 */
module GitHubTags {
  import opened Text
  import opened Tokens
  import opened GitHub
  import opened GitHubRuns
  import opened GitHubConditional
  import opened Sequences

  // ----- what a tag says

  /** Which family of tags a tagged answer belongs to, and what the tag says. */
  datatype TagKind =
    | ListingKind(handle: string, installation: string, page: string)
    | InstallationsKind(user: string)
    | ReferenceKind(key: string)

  function TagText(k: TagKind): string {
    match k
    case ListingKind(handle, installation, page) => ListingTag(handle, installation, page)
    case InstallationsKind(user) => INSTALLATIONS_TAG + user + "\""
    case ReferenceKind(key) => REFERENCE_TAG + key + "\""
  }

  predicate NoBreaks(s: string) {
    forall i :: 0 <= i < |s| ==> !IsLineTerminator(s[i])
  }

  /** A page whose text ends in a whole other pair of installation and page, and can hide the rest in a handle. */
  predicate Covers(page: string, installation: string, other: string) {
    var inner, tail := "-" + page, "-" + installation + "-" + other;
    |tail| <= |inner| && inner[|inner| - |tail|..] == tail && NoBreaks(inner[..|inner| - |tail|])
  }

  /** Two pairs of installation and page that two handles can turn into one tag. */
  predicate Collide(m: string, p: string, n: string, q: string) {
    Covers(p, n, q) || Covers(q, m, p)
  }

  /** The part of a listing tag behind the handle. */
  function Rest(installation: string, page: string): string {
    "-" + installation + "-" + page
  }

  lemma {:induction false} ListingTagParts(h: string, m: string, p: string, k: string, n: string, q: string)
    ensures ListingTag(h, m, p) == ListingTag(k, n, q) <==> h + Rest(m, p) == k + Rest(n, q)
  {
    var left, right := h + Rest(m, p), k + Rest(n, q);
    assert ListingTag(h, m, p) == REPOSITORIES_TAG + left + "\"" && ListingTag(k, n, q) == REPOSITORIES_TAG + right + "\"";
    assert (REPOSITORIES_TAG + left + "\"")[|REPOSITORIES_TAG|..|REPOSITORIES_TAG| + |left|] == left;
    assert (REPOSITORIES_TAG + right + "\"")[|REPOSITORIES_TAG|..|REPOSITORIES_TAG| + |right|] == right;
  }

  /** A longer handle's tag: the other page covers what is behind it. */
  lemma {:induction false} LongerHandle(h: string, m: string, p: string, k: string, n: string, q: string)
    requires '-' !in m && h + Rest(m, p) == k + Rest(n, q) && |h| < |k| && NoBreaks(k)
    ensures Covers(p, n, q)
  {
    var all, tail, inner := h + Rest(m, p), Rest(n, q), "-" + p;
    var d := |k| - |h|;
    assert all == h + "-" + m + inner;
    assert all[|k|] == tail[0] == '-';
    assert forall j :: |h| < j <= |h| + |m| ==> all[j] == m[j - |h| - 1] && all[j] != '-';
    var cut := d - 1 - |m|;
    assert inner[cut..] == all[|k|..] == tail;
    assert forall i :: 0 <= i < cut ==> inner[i] == all[|h| + 1 + |m| + i] == k[|h| + 1 + |m| + i];
  }

  lemma {:induction false} SameHandle(m: string, p: string, n: string, q: string)
    requires '-' !in m && '-' !in n && Rest(m, p) == Rest(n, q)
    ensures m == n && p == q
  {
    var x, y := m + ['-'] + p, n + ['-'] + q;
    assert Rest(m, p) == "-" + x && Rest(n, q) == "-" + y;
    assert x == Rest(m, p)[1..] == Rest(n, q)[1..] == y;
    assert forall j :: 0 <= j < |m| ==> x[j] == m[j] && x[j] != '-';
    assert forall j :: 0 <= j < |n| ==> y[j] == n[j] && y[j] != '-';
    assert x[|m|] == '-' && y[|n|] == '-';
    assert |m| == |n|;
    assert m == x[..|m|] == y[..|n|] == n;
    assert p == x[|m| + 1..] && q == y[|n| + 1..];
  }

  /** Two listing tags of readable handles agree only if they say the same, or their pages collide. */
  lemma {:induction false} EqualListingTags(h: string, m: string, p: string, k: string, n: string, q: string)
    requires '-' !in m && '-' !in n && NoBreaks(h) && NoBreaks(k) && ListingTag(h, m, p) == ListingTag(k, n, q)
    ensures (h == k && m == n && p == q) || Collide(m, p, n, q)
  {
    ListingTagParts(h, m, p, k, n, q);
    var all := h + Rest(m, p);
    if |h| < |k| {
      LongerHandle(h, m, p, k, n, q);
    } else if |k| < |h| {
      LongerHandle(k, n, q, h, m, p);
    } else {
      assert h == all[..|h|] == k;
      assert Rest(m, p) == all[|h|..] == Rest(n, q);
      SameHandle(m, p, n, q);
    }
  }

  /** The handle that shares the tag of a given one when the first page covers the second. */
  function Partner(h: string, m: string, p: string, n: string, q: string): string {
    var inner, tail := "-" + p, Rest(n, q);
    if |tail| <= |inner| then h + "-" + m + inner[..|inner| - |tail|] else h
  }

  lemma {:induction false} PartnerShares(h: string, m: string, p: string, n: string, q: string)
    requires Covers(p, n, q) && NoBreaks(h) && NoBreaks(m)
    ensures var k := Partner(h, m, p, n, q);
            |k| > |h| && h + "-" + m <= k && NoBreaks(k) && ListingTag(h, m, p) == ListingTag(k, n, q)
  {
    var inner, tail, k := "-" + p, Rest(n, q), Partner(h, m, p, n, q);
    assert inner == inner[..|inner| - |tail|] + tail;
    assert h + Rest(m, p) == h + "-" + m + inner == k + tail;
    ListingTagParts(h, m, p, k, n, q);
  }

  /**
   * Exactly which pages let two handles share a listing tag that says different things: those of which
   * one ends in the other's installation and page.
   */
  lemma {:induction false} ListingTagsCollideExactly(m: string, p: string, n: string, q: string)
    requires '-' !in m && '-' !in n && NoBreaks(m) && NoBreaks(n)
    ensures (exists h, k :: Readable(h) && Readable(k) && ListingTag(h, m, p) == ListingTag(k, n, q)
                            && !(h == k && m == n && p == q))
            <==> Collide(m, p, n, q)
  {
    forall h, k | Readable(h) && Readable(k) && ListingTag(h, m, p) == ListingTag(k, n, q) && !(h == k && m == n && p == q)
      ensures Collide(m, p, n, q)
    {
      EqualListingTags(h, m, p, k, n, q);
    }
    if Covers(p, n, q) {
      PartnerShares("x", m, p, n, q);
      assert Readable("x") && Readable(Partner("x", m, p, n, q));
    } else if Covers(q, m, p) {
      PartnerShares("x", n, q, m, p);
      assert Readable("x") && Readable(Partner("x", n, q, m, p));
    }
  }

  ghost predicate PlainKind(k: TagKind) {
    k.ListingKind? ==> '-' !in k.installation && NoBreaks(k.handle)
  }

  ghost predicate Clash(k: TagKind, l: TagKind) {
    k.ListingKind? && l.ListingKind? && Collide(k.installation, k.page, l.installation, l.page)
  }

  /** Unless their pages collide, equal tags say the same: family, handle, installation and page. */
  lemma {:induction false} TagTextIsInjective(k: TagKind, l: TagKind)
    requires PlainKind(k) && PlainKind(l) && !Clash(k, l) && TagText(k) == TagText(l)
    ensures k == l
  {
    var t := TagText(k);
    assert REPOSITORIES_TAG[1] == 'r' && INSTALLATIONS_TAG[1] == 'i' && REFERENCE_TAG[1] == 'r';
    assert REPOSITORIES_TAG[3] == 'p' && REFERENCE_TAG[3] == 'f';
    assert k.ListingKind? ==> t[1] == 'r' && t[3] == 'p';
    assert l.ListingKind? ==> t[1] == 'r' && t[3] == 'p';
    assert k.InstallationsKind? ==> t[1] == 'i';
    assert l.InstallationsKind? ==> t[1] == 'i';
    assert k.ReferenceKind? ==> t[1] == 'r' && t[3] == 'f';
    assert l.ReferenceKind? ==> t[1] == 'r' && t[3] == 'f';
    match k
    case ListingKind(h, m, p) => EqualListingTags(h, m, p, l.handle, l.installation, l.page);
    case InstallationsKind(user) =>
      assert user == t[|INSTALLATIONS_TAG|..|t| - 1] == l.user;
    case ReferenceKind(key) =>
      assert key == t[|REFERENCE_TAG|..|t| - 1] == l.key;
  }

  // ----- what a tagged answer is

  /** What the tag of an answer says, if the answer is tagged. */
  function KindOf(handle: string, url: Url): TagKind {
    var page := Get(url.query, "page");
    if url.pathname == "/user/installations" then InstallationsKind(handle)
    else if url.pathname == LISTING_101 then
      ListingKind(handle, "101", if handle == "paged" && page != Some("2") then "1" else page.Or("1"))
    else if url.pathname == LISTING_102 then ListingKind(handle, "102", page.Or("1"))
    else ReferenceKind(ReferenceKey(url.pathname).Or(""))
  }

  /** The body a tag stands for, as a function of what the tag says. */
  function BodyOf(c: Config, k: TagKind): Body {
    match k
    case ListingKind(handle, installation, page) =>
      if installation == "102" then Repositories(OwnedBy(PERSON, Accessible(handle, c.catalogue)))
      else
        var available := Available(c, handle, 0);
        Repositories(if handle != "paged" then available else if page == "2" then RestOf(available) else FirstOf(available))
    case InstallationsKind(user) => Installations
    case ReferenceKind(key) => Summary(key)
  }

  /** Whether the answer is the same in every state. */
  ghost predicate Steady(c: Config, handle: string, url: Url) {
    !(REVOKED <= handle) || url.pathname != LISTING_101 || !HasScore(c.catalogue)
  }

  lemma {:induction false} PagesSayBodies(c: Config, handle: string, page: Option<string>)
    ensures var k := ListingKind(handle, "101", if handle == "paged" && page != Some("2") then "1" else page.Or("1"));
            var answer := Page101(c, handle, 0, page, None);
            answer.etag == Some(TagText(k)) && answer.body == BodyOf(c, k)
    ensures var k := ListingKind(handle, "102", page.Or("1"));
            Page102(c, handle, page, None).etag == Some(TagText(k)) && Page102(c, handle, page, None).body == BodyOf(c, k)
  {}

  /** Where a tagged answer comes from. */
  lemma {:induction false} TaggedComesFrom(c: Config, handle: string, computed: nat, url: Url)
    requires Api(c, handle, computed, url, None).etag.Some?
    ensures var answer, page := Api(c, handle, computed, url, None), Get(url.query, "page");
            answer == if url.pathname == "/user/installations" then Tagged(None, Installations, INSTALLATIONS_TAG + handle + "\"", None)
                      else if url.pathname == LISTING_101 then Page101(c, handle, computed, page, None)
                      else if url.pathname == LISTING_102 then Page102(c, handle, page, None)
                      else
                        var key := ReferenceKey(url.pathname).Or("");
                        Tagged(None, Summary(key), REFERENCE_TAG + key + "\"", None)
  {}

  lemma {:induction false} TagSaysBody(c: Config, handle: string, computed: nat, url: Url)
    requires Steady(c, handle, url) && NoBreaks(handle) && Api(c, handle, computed, url, None).etag.Some?
    ensures PlainKind(KindOf(handle, url))
    ensures Api(c, handle, computed, url, None).etag == Some(TagText(KindOf(handle, url)))
    ensures Api(c, handle, computed, url, None).body == BodyOf(c, KindOf(handle, url))
  {
    ApiIgnoresCount(c, handle, computed, 0, url);
    TaggedComesFrom(c, handle, 0, url);
    PagesSayBodies(c, handle, Get(url.query, "page"));
  }

  /** Equal tags mean equal bodies, across all handles and URLs whose pages do not collide. */
  lemma {:induction false} EqualTagsMeanEqualBodies(c: Config, h: string, m: nat, u: Url, k: string, n: nat, v: Url)
    requires Steady(c, h, u) && Steady(c, k, v) && NoBreaks(h) && NoBreaks(k) && !Clash(KindOf(h, u), KindOf(k, v))
    requires Api(c, h, m, u, None).etag.Some? && Api(c, h, m, u, None).etag == Api(c, k, n, v, None).etag
    ensures Api(c, h, m, u, None).body == Api(c, k, n, v, None).body
  {
    TagSaysBody(c, h, m, u);
    TagSaysBody(c, k, n, v);
    TagTextIsInjective(KindOf(h, u), KindOf(k, v));
  }

  // ----- pages that collide

  function ListingUrl(installation: string, page: string): Url {
    Url(API, if installation == "102" then LISTING_102 else LISTING_101, [("page", page)])
  }

  predicate IsInstallation(m: string) {
    m == "101" || m == "102"
  }

  /** A handle with no rule of its own, and one repository for each account. */
  const BARE := "machine-sharer"
  const SMALL := Config(
    [Repository("R_a", ORG, "a", ORG + "/a", false, Permissions(true, false, false)),
     Repository("R_b", PERSON, "b", PERSON + "/b", false, Permissions(true, false, false))], {})

  lemma {:induction false} ListingOf(c: Config, handle: string, m: string, p: string)
    requires IsInstallation(m) && handle != "paged" && handle != "expired" && !(REVOKED <= handle)
    ensures var answer := Api(c, handle, 0, ListingUrl(m, p), None);
            answer == Response(200, BodyOf(c, ListingKind(handle, m, p)), Some(ListingTag(handle, m, p)), None)
  {
    assert Get([("page", p)], "page") == Some(p);
  }

  lemma {:induction false} BareSeesAll()
    ensures AllSeen(BARE, SMALL.catalogue) == SMALL.catalogue && !(MACHINE_SHARER <= BARE)
    ensures BARE != "paged" && BARE != "expired" && !(REVOKED <= BARE) && BARE != "readonly" && Readable(BARE)
  {
    var rs := SMALL.catalogue;
    assert BARE[0] == 'm' && SCORE_OUTSIDER[0] == 's' && DOCUMENT_CREATOR[0] == 'd' && REVOKED[0] == 'r';
    assert "paged"[0] == 'p' && "expired"[0] == 'e' && "readonly"[0] == 'r';
    assert AllSeen(BARE, rs[1..][1..]) == [];
    assert AllSeen(BARE, rs[1..]) == [rs[1]] + AllSeen(BARE, rs[1..][1..]);
    assert AllSeen(BARE, rs) == [rs[0]] + AllSeen(BARE, rs[1..]);
  }

  /** What the bare handle is listed: one repository, of the account the installation is for. */
  lemma {:induction false} BareBody(m: string, p: string)
    requires IsInstallation(m)
    ensures BodyOf(SMALL, ListingKind(BARE, m, p)) == Repositories([SMALL.catalogue[if m == "102" then 1 else 0]])
  {
    BareSeesAll();
    var rs := SMALL.catalogue;
    assert ORG != PERSON by {
      assert |ORG| == 8 && |PERSON| == 7;
    }
    assert OwnedBy(PERSON, rs) == OwnedBy(PERSON, rs[1..]) == [rs[1]] + OwnedBy(PERSON, rs[1..][1..]);
    assert OwnedBy(ORG, rs) == [rs[0]] + OwnedBy(ORG, rs[1..]) && OwnedBy(ORG, rs[1..]) == OwnedBy(ORG, rs[1..][1..]) == [];
    assert LoweredAll(BARE, 0, [rs[0]]) == [rs[0]] + LoweredAll(BARE, 0, [rs[0]][1..]);
  }

  /** What a machine sharer is listed: its own repository, or nothing. */
  lemma {:induction false} SharerBody(k: string, n: string, q: string)
    requires IsInstallation(n) && MACHINE_SHARER <= k
    ensures !(REVOKED <= k) && k != "paged" && k != "expired"
    ensures BodyOf(SMALL, ListingKind(k, n, q)) == Repositories(if n == "102" then [] else [SharerRepository(k)])
  {
    assert k[0] == 'm' && REVOKED[0] == 'r' && "paged"[0] == 'p' && "expired"[0] == 'e' && "readonly"[0] == 'r';
    var r := SharerRepository(k);
    assert ORG != PERSON by {
      assert |ORG| == 8 && |PERSON| == 7;
    }
    assert OwnedBy(PERSON, [r]) == OwnedBy(PERSON, [r][1..]) == [];
    assert OwnedBy(ORG, [r]) == [r] + OwnedBy(ORG, [r][1..]);
    assert LoweredAll(k, 0, [r]) == [r] + LoweredAll(k, 0, [r][1..]);
  }

  /** If one page covers the other, the bare handle and its partner get one tag for two bodies. */
  lemma {:induction false} CoveredPageCollides(m: string, p: string, n: string, q: string)
    requires IsInstallation(m) && IsInstallation(n) && Covers(p, n, q)
    ensures var k := Partner(BARE, m, p, n, q);
            var x, y := Api(SMALL, BARE, 0, ListingUrl(m, p), None), Api(SMALL, k, 0, ListingUrl(n, q), None);
            Readable(k) && MACHINE_SHARER <= k && x.etag == y.etag && x.etag.Some? && x.body != y.body
  {
    var k := Partner(BARE, m, p, n, q);
    BareSeesAll();
    PartnerShares(BARE, m, p, n, q);
    assert MACHINE_SHARER == BARE + "-";
    assert MACHINE_SHARER <= BARE + "-" + m;
    BareBody(m, p);
    SharerBody(k, n, q);
    ListingOf(SMALL, BARE, m, p);
    ListingOf(SMALL, k, n, q);
    assert SharerRepository(k).nodeId[2] == 'r' && SMALL.catalogue[0].nodeId[2] == 'a' && SMALL.catalogue[1].nodeId[2] == 'b';
  }

  /** A handle with no rules for paging or revocation, as bearers carry it. */
  predicate Ordinary(handle: string) {
    Readable(handle) && handle != "paged" && handle != "expired" && !(REVOKED <= handle)
  }

  ghost predicate OneTagTwoBodies(c: Config, h: string, u: Url, k: string, v: Url) {
    var x, y := Api(c, h, 0, u, None), Api(c, k, 0, v, None);
    x.etag.Some? && x.etag == y.etag && x.body != y.body
  }

  /** Two listings can give one tag to two bodies, for some catalogue and handles, if and only if their pages collide. */
  lemma {:induction false} HyphenatedPagesCollide(m: string, p: string, n: string, q: string)
    requires IsInstallation(m) && IsInstallation(n)
    ensures (exists c, h, k :: Ordinary(h) && Ordinary(k) && OneTagTwoBodies(c, h, ListingUrl(m, p), k, ListingUrl(n, q)))
            <==> Collide(m, p, n, q)
  {
    forall c, h, k | Ordinary(h) && Ordinary(k) && OneTagTwoBodies(c, h, ListingUrl(m, p), k, ListingUrl(n, q))
      ensures Collide(m, p, n, q)
    {
      ListingOf(c, h, m, p);
      ListingOf(c, k, n, q);
      EqualListingTags(h, m, p, k, n, q);
    }
    BareSeesAll();
    if Covers(p, n, q) {
      CoveredPageCollides(m, p, n, q);
      SharerBody(Partner(BARE, m, p, n, q), n, q);
      assert OneTagTwoBodies(SMALL, BARE, ListingUrl(m, p), Partner(BARE, m, p, n, q), ListingUrl(n, q));
    } else if Covers(q, m, p) {
      CoveredPageCollides(n, q, m, p);
      SharerBody(Partner(BARE, n, q, m, p), m, p);
      assert OneTagTwoBodies(SMALL, Partner(BARE, n, q, m, p), ListingUrl(m, p), BARE, ListingUrl(n, q));
    }
  }

  // ----- one table of bodies by tag, shared by every handle and URL

  /** Bodies by tag, filled by any handle's requests and offered back by any other's. */
  type Table = map<string, Body>

  function HeldUnder(table: Table, tag: string): Option<Entry> {
    if tag in table then Some(Entry(tag, table[tag])) else None
  }

  /** A shared cache that revalidates with any tag it holds (`choices[i]` is offered by the i-th event). */
  function Shared(c: Config, events: seq<Event>, choices: seq<string>): Run<Table>
    requires |choices| == |events|
  {
    if events == [] then Run(INITIAL, map[], [])
    else
      var before := Shared(c, Front(events), Front(choices));
      match Last(events)
      case Other(e) => before.(service := Do(c, before.service, e).0)
      case Ask(authorization, url, ambient) =>
        var held := HeldUnder(before.memory, Last(choices));
        var (s, reply) := Do(c, before.service, Plain(authorization, url, TagOf(held), ambient));
        var (delivered, kept) := Receive(reply, held);
        Run(s, if kept.Some? then before.memory[kept.value.etag := kept.value.body] else before.memory,
            before.delivered + [delivered])
  }

  ghost predicate CleanAsk(c: Config, e: Event) {
    e.Ask? ==> !Hot(c, e.authorization, e.url)
  }

  function AskedKind(e: Event): TagKind
    requires e.Ask?
  {
    KindOf(HandleOf(e.authorization), e.url)
  }

  /** No two requests of the run have colliding pages, and none is hot. */
  ghost predicate Collisionless(c: Config, events: seq<Event>) {
    (forall i :: 0 <= i < |events| ==> CleanAsk(c, events[i]))
    && forall i, j :: 0 <= i < |events| && 0 <= j < |events| && events[i].Ask? && events[j].Ask?
                      ==> !Clash(AskedKind(events[i]), AskedKind(events[j]))
  }

  /** The entry is what some request of the run was answered. */
  ghost predicate SaidBy(c: Config, events: seq<Event>, i: nat, tag: string, body: Body) {
    i < |events| && events[i].Ask? && PlainKind(AskedKind(events[i]))
    && TagText(AskedKind(events[i])) == tag && BodyOf(c, AskedKind(events[i])) == body
  }

  ghost predicate TableIsSound(c: Config, events: seq<Event>, table: Table) {
    forall tag :: tag in table ==> exists i :: SaidBy(c, events, i, tag, table[tag])
  }

  lemma {:induction false} BearersAreReadable(authorization: Option<string>)
    ensures ReadBearer(authorization.Or("")).Some? ==> Readable(HandleOf(authorization))
  {
    var header := authorization.Or("");
    if ReadBearer(header).Some? {
      var rest := header[|BEARER + ACCESS_PREFIX|..];
      MatchMeansSplit(rest, Match(rest).value);
    }
  }

  /** A tagged plain answer says what its request asks for. */
  lemma {:induction false} TaggedAnswer(c: Config, s: State, authorization: Option<string>, url: Url, ambient: Ambient)
    requires !Hot(c, authorization, url)
    ensures var plain := Do(c, s, Plain(authorization, url, None, ambient)).1;
            var k := KindOf(HandleOf(authorization), url);
            plain.Answered? && plain.response.etag.Some? ==>
              PlainKind(k) && plain.response.etag == Some(TagText(k)) && plain.response.body == BodyOf(c, k)
              && plain.response.status == 200
  {
    if url.origin == API && ReadBearer(authorization.Or("")).Some? {
      var handle := HandleOf(authorization);
      BearersAreReadable(authorization);
      ApiCondition(c, handle, Count(s.computed, handle), url, "");
      if Api(c, handle, Count(s.computed, handle), url, None).etag.Some? {
        TagSaysBody(c, handle, Count(s.computed, handle), url);
      }
    }
  }

  lemma {:induction false} SharedReceive(c: Config, events: seq<Event>, s: State, i: nat, held: Option<Entry>, j: nat)
    requires Collisionless(c, events) && i < |events| && events[i].Ask?
    requires held.Some? ==> SaidBy(c, events, j, held.value.etag, held.value.body)
    ensures var e := events[i];
            var (t, plain) := Do(c, s, Plain(e.authorization, e.url, None, e.ambient));
            var (u, reply) := Do(c, s, Plain(e.authorization, e.url, TagOf(held), e.ambient));
            var (delivered, kept) := Receive(reply, held);
            t == u && delivered == plain
            && (kept.Some? ==> kept == held || SaidBy(c, events, i, kept.value.etag, kept.value.body))
  {
    var e := events[i];
    assert CleanAsk(c, e);
    PlainIsNever304(c, s, e.authorization, e.url, e.ambient);
    TaggedAnswer(c, s, e.authorization, e.url, e.ambient);
    if held.Some? {
      ConditionOnlyHidesBody(c, s, e.authorization, e.url, held.value.etag, e.ambient);
      var plain := Do(c, s, Plain(e.authorization, e.url, None, e.ambient)).1;
      if plain.Answered? && plain.response.etag == Some(held.value.etag) {
        TagTextIsInjective(AskedKind(e), AskedKind(events[j]));
      }
    }
  }

  lemma {:induction false} SharedRun(c: Config, events: seq<Event>, choices: seq<string>, n: nat)
    requires |choices| == |events| && n <= |events| && Collisionless(c, events)
    ensures Shared(c, events[..n], choices[..n]).delivered == Uncached(c, events[..n]).delivered
    ensures Shared(c, events[..n], choices[..n]).service == Uncached(c, events[..n]).service
    ensures TableIsSound(c, events, Shared(c, events[..n], choices[..n]).memory)
  {
    if n > 0 {
      var i := n - 1;
      SharedRun(c, events, choices, i);
      assert Front(events[..n]) == events[..i] && Last(events[..n]) == events[i];
      assert Front(choices[..n]) == choices[..i] && Last(choices[..n]) == choices[i];
      if events[i].Ask? {
        var before := Shared(c, events[..i], choices[..i]);
        var held := HeldUnder(before.memory, choices[i]);
        var j: nat := 0;
        if held.Some? {
          j :| SaidBy(c, events, j, choices[i], before.memory[choices[i]]);
        }
        SharedReceive(c, events, before.service, i, held, j);
      }
    }
  }

  /** One cache keyed by tag alone, shared by all handles, is as good as none, unless requests are hot or pages collide. */
  lemma {:induction false} SharedCachingIsInvisible(c: Config, events: seq<Event>, choices: seq<string>)
    requires |choices| == |events| && Collisionless(c, events)
    ensures Shared(c, events, choices).delivered == Uncached(c, events).delivered
    ensures Shared(c, events, choices).service == Uncached(c, events).service
  {
    SharedRun(c, events, choices, |events|);
    assert events[..|events|] == events && choices[..|choices|] == choices;
  }

  function Bearer(handle: string): Option<string> {
    Some(BEARER + MintAccess(handle, 1))
  }

  lemma {:induction false} ListingExchange(c: Config, s: State, handle: string, m: string, p: string, inm: Option<string>, ambient: Ambient)
    requires Ordinary(handle) && IsInstallation(m)
    ensures var tag, body := ListingTag(handle, m, p), BodyOf(c, ListingKind(handle, m, p));
            Do(c, s, Plain(Bearer(handle), ListingUrl(m, p), inm, ambient))
            == (s, Answered(if inm == Some(tag) then Response(304, Empty, Some(tag), None) else Response(200, body, Some(tag), None)))
  {
    BearerRoundTrip(handle, 1);
    assert API != SITE;
    ListingOf(c, handle, m, p);
    ApiIgnoresCount(c, handle, Count(s.computed, handle), 0, ListingUrl(m, p));
    ApiCondition(c, handle, Count(s.computed, handle), ListingUrl(m, p), inm.Or(""));
  }

  /** For any two pages of which one covers the other, the shared cache delivers one handle the other's listing. */
  lemma {:induction false} CoveredPageGoesStale(m: string, p: string, n: string, q: string, ambient: Ambient)
    requires IsInstallation(m) && IsInstallation(n) && Covers(p, n, q)
    ensures var events := [Ask(Bearer(BARE), ListingUrl(m, p), ambient), Ask(Bearer(Partner(BARE, m, p, n, q)), ListingUrl(n, q), ambient)];
            Shared(SMALL, events, ["", ListingTag(BARE, m, p)]).delivered != Uncached(SMALL, events).delivered
  {
    var k, tag := Partner(BARE, m, p, n, q), ListingTag(BARE, m, p);
    var a, b := Ask(Bearer(BARE), ListingUrl(m, p), ambient), Ask(Bearer(k), ListingUrl(n, q), ambient);
    BareSeesAll();
    CoveredPageCollides(m, p, n, q);
    SharerBody(k, n, q);
    ListingOf(SMALL, BARE, m, p);
    ListingOf(SMALL, k, n, q);
    ListingExchange(SMALL, INITIAL, BARE, m, p, None, ambient);
    ListingExchange(SMALL, INITIAL, k, n, q, None, ambient);
    ListingExchange(SMALL, INITIAL, k, n, q, Some(tag), ambient);
    var first := BodyOf(SMALL, ListingKind(BARE, m, p));
    assert Front([a, b]) == [a] && Last([a, b]) == b && Front([a]) == [] && Last([a]) == a;
    assert Front(["", tag]) == [""] && Last(["", tag]) == tag && Front([""]) == [] && Last([""]) == "";
    assert Shared(SMALL, [a], [""]) == Run(INITIAL, map[tag := first], [Answered(Response(200, first, Some(tag), None))]);
    assert Shared(SMALL, [a, b], ["", tag]).delivered[1] == Answered(Response(200, first, Some(tag), None));
    assert Uncached(SMALL, [a]).service == INITIAL;
    assert Uncached(SMALL, [a, b]).delivered[1] == Answered(Response(200, BodyOf(SMALL, ListingKind(k, n, q)), Some(tag), None));
  }
}
