/**
 * Listing, paging and direct lookup agree (e2e/github.ts:223-310; RFC 8288 section 3): what a client
 * collects by following Link headers is what it can reach one repository at a time.
 */
module GitHubListings {
  import opened Text
  import opened Tokens
  import opened GitHub
  import opened GitHubRuns

  const FIRST_101 := Url(API, LISTING_101, [])
  const FIRST_102 := Url(API, LISTING_102, [])

  function Header(handle: string, revision: nat): string {
    BEARER + MintAccess(handle, revision)
  }

  function Ask(authorization: string, url: Url): Exchange {
    Exchange(Request(url, [], Some(authorization), None), Ambient(false, "", ""))
  }

  /** Whether the answer at this URL carries a Link to another page. */
  predicate HasNext(authorization: string, url: Url) {
    url.origin == API && url.pathname == LISTING_101 && ReadBearer(authorization) == Some("paged")
    && Get(url.query, "page") != Some("2")
  }

  lemma {:induction false} NextPageIsLast(authorization: string)
    ensures !HasNext(authorization, NextPage())
  {
    var query := NextPage().query;
    assert Get(query, "page") == Get(query[1..], "page") == Some("2");
  }

  lemma {:induction false} LinkMeansNext(c: Config, s: State, authorization: string, url: Url)
    ensures var reply := Do(c, s, Ask(authorization, url)).1;
            reply.Answered? && reply.response.link.Some?
            ==> HasNext(authorization, url) && reply.response.link == Some(NextPage())
  {
    if url.origin == API && ReadBearer(authorization).Some? {
      ApiLink(c, ReadBearer(authorization).value, Count(s.computed, ReadBearer(authorization).value), url);
    }
  }

  lemma {:induction false} ApiLink(c: Config, handle: string, computed: nat, url: Url)
    ensures var link := Api(c, handle, computed, url, None).link;
            link.Some? ==> link == Some(NextPage()) && handle == "paged" && url.pathname == LISTING_101
                           && Get(url.query, "page") != Some("2")
  {}

  /** A client that follows Link headers until there is none; termination is part of the claim. */
  function Collect(c: Config, s: State, authorization: string, url: Url): (State, seq<Repository>)
    decreases HasNext(authorization, url)
  {
    var (t, reply) := Do(c, s, Ask(authorization, url));
    var here := if reply.Answered? && reply.response.body.Repositories? then reply.response.body.listed else [];
    if reply.Answered? && reply.response.link.Some? then
      LinkMeansNext(c, s, authorization, url);
      NextPageIsLast(authorization);
      var (u, rest) := Collect(c, t, authorization, reply.response.link.value);
      (u, here + rest)
    else (t, here)
  }

  function Direct(c: Config, s: State, authorization: string, fullName: string): Reply {
    Do(c, s, Ask(authorization, Url(API, "/repos/" + fullName, []))).1
  }

  // ----- what the two installations list

  lemma {:induction false} AnswersApi(c: Config, s: State, handle: string, revision: nat, url: Url)
    requires Readable(handle) && url.origin == API
    ensures Do(c, s, Ask(Header(handle, revision), url)).1
            == Answered(Api(c, handle, Count(s.computed, handle), url, None))
    ensures !CountsRead(handle, url) ==> Do(c, s, Ask(Header(handle, revision), url)).0 == s
  {
    BearerRoundTrip(handle, revision);
  }

  /** Following the pages of installation 101 yields the whole listing, paged or not. */
  lemma {:induction false} CollectsInstallation101(c: Config, s: State, handle: string, revision: nat)
    requires Readable(handle) && handle != "expired"
    ensures Collect(c, s, Header(handle, revision), FIRST_101).1 == Available(c, handle, Count(s.computed, handle))
  {
    BearerRoundTrip(handle, revision);
    AnswersApi(c, s, handle, revision, FIRST_101);
    if handle == "paged" {
      var available := Available(c, handle, Count(s.computed, handle));
      NextPageIsLast(Header(handle, revision));
      AnswersApi(c, s, handle, revision, NextPage());
      assert FirstOf(available) + RestOf(available) == available;
      var t := Do(c, s, Ask(Header(handle, revision), FIRST_101)).0;
      assert t == s;
      assert Get(NextPage().query, "page") == Get(NextPage().query[1..], "page") == Some("2");
      assert Collect(c, s, Header(handle, revision), NextPage()).1 == RestOf(available);
    }
  }

  lemma {:induction false} CollectsInstallation102(c: Config, s: State, handle: string, revision: nat)
    requires Readable(handle) && handle != "expired"
    ensures Collect(c, s, Header(handle, revision), FIRST_102).1 == OwnedBy(PERSON, Accessible(handle, c.catalogue))
  {
    BearerRoundTrip(handle, revision);
    AnswersApi(c, s, handle, revision, FIRST_102);
  }

  // ----- the lists behind the listings

  ghost predicate DistinctNames(rs: seq<Repository>) {
    forall i, j :: 0 <= i < j < |rs| ==> rs[i].fullName != rs[j].fullName
  }

  /** A repository's full name is its owner and name, neither of which holds a slash. */
  ghost predicate WellNamed(r: Repository) {
    r.fullName == r.owner + ['/'] + r.name && '/' !in r.owner && '/' !in r.name
  }

  ghost predicate WellFormed(catalogue: seq<Repository>) {
    DistinctNames(catalogue) && forall i :: 0 <= i < |catalogue| ==> WellNamed(catalogue[i])
  }

  ghost predicate Named(rs: seq<Repository>, fullName: string) {
    exists r :: r in rs && r.fullName == fullName
  }

  lemma {:induction false} SeenFromCatalogue(handle: string, catalogue: seq<Repository>)
    requires WellFormed(catalogue)
    ensures WellFormed(AllSeen(handle, catalogue))
    ensures forall r :: r in AllSeen(handle, catalogue) ==> Named(catalogue, r.fullName)
  {
    if catalogue != [] {
      SeenFromCatalogue(handle, catalogue[1..]);
      var head, tail := Seen(handle, catalogue[0]), AllSeen(handle, catalogue[1..]);
      forall r | r in tail ensures r.fullName != catalogue[0].fullName && Named(catalogue, r.fullName) {
        var q :| q in catalogue[1..] && q.fullName == r.fullName;
      }
      forall r | r in head ensures r.fullName == catalogue[0].fullName && WellNamed(r) {
        assert r == head[0];
      }
    }
  }

  lemma {:induction false} OwnedByFilters(owner: string, rs: seq<Repository>)
    ensures forall r :: r in OwnedBy(owner, rs) <==> r in rs && r.owner == owner
    ensures DistinctNames(rs) ==> DistinctNames(OwnedBy(owner, rs))
  {
    if rs != [] {
      OwnedByFilters(owner, rs[1..]);
      if DistinctNames(rs) && rs[0].owner == owner {
        forall r | r in OwnedBy(owner, rs[1..]) ensures r.fullName != rs[0].fullName {
          assert r in rs[1..];
        }
      }
    }
  }

  lemma {:induction false} LoweredPointwise(handle: string, computed: nat, rs: seq<Repository>)
    ensures |LoweredAll(handle, computed, rs)| == |rs|
    ensures forall i :: 0 <= i < |rs| ==> LoweredAll(handle, computed, rs)[i] == Lowered(handle, computed, rs[i])
  {
    if rs != [] {
      LoweredPointwise(handle, computed, rs[1..]);
    }
  }

  lemma {:induction false} FindIsFirst(fullName: string, rs: seq<Repository>)
    requires DistinctNames(rs)
    ensures match Find("/repos/" + fullName, rs)
            case Some(r) => r in rs && r.fullName == fullName
            case None => !Named(rs, fullName)
  {
    if rs != [] {
      assert ("/repos/" + fullName)[7..] == fullName && ("/repos/" + rs[0].fullName)[7..] == rs[0].fullName;
      FindIsFirst(fullName, rs[1..]);
    }
  }

  lemma {:induction false} AccessibleIsDistinct(c: Config, handle: string)
    requires WellFormed(c.catalogue)
    ensures DistinctNames(Accessible(handle, c.catalogue))
  {
    SeenFromCatalogue(handle, c.catalogue);
  }

  lemma {:induction false} NotUnderScore(c: Config, handle: string, fullName: string)
    requires WellFormed(c.catalogue) && Named(Accessible(handle, c.catalogue), fullName)
    ensures !(SCORE_PATH <= "/repos/" + fullName)
  {
    var path := "/repos/" + fullName;
    assert SCORE_PATH[15] == '/' && SCORE_PATH[16] == 's' && SCORE_PATH[21] == '/';
    assert forall i :: 0 <= i < |fullName| ==> path[i + 7] == fullName[i];
    if MACHINE_SHARER <= handle {
      assert path[16] == fullName[9] == 'r';
    } else if |path| > 21 {
      SeenFromCatalogue(handle, c.catalogue);
      var r :| r in AllSeen(handle, c.catalogue) && r.fullName == fullName;
      SecondSlashIsInName(r);
      assert path[15] == fullName[8] && path[21] == fullName[14];
    }
  }

  /** No accessible repository is hidden behind the commit and reference routes. */
  lemma {:induction false} RepositoryRouteIsFree(c: Config, handle: string, computed: nat, fullName: string)
    requires handle != "expired"
    requires WellFormed(c.catalogue) && Named(Accessible(handle, c.catalogue), fullName)
    ensures Api(c, handle, computed, Url(API, "/repos/" + fullName, []), None)
            == match Find("/repos/" + fullName, Accessible(handle, c.catalogue))
               case Some(repository) => Ok(Single(repository))
               case None => Response(404, Message("Not Found"), None, None)
  {
    var path := "/repos/" + fullName;
    NotUnderScore(c, handle, fullName);
    var commits := "/repos/octo-org/score/commits/main";
    assert SCORE_PATH == commits[..|SCORE_PATH|];
    assert path[1] == 'r';
    assert "/user"[1] == 'u' && "/user/memberships/orgs/githubnext"[1] == 'u' && "/user/installations"[1] == 'u'
           && LISTING_101[1] == 'u' && LISTING_102[1] == 'u';
  }

  lemma {:induction false} SecondSlashIsInName(r: Repository)
    requires WellNamed(r) && |r.fullName| > 14
    ensures !(r.fullName[8] == '/' && r.fullName[14] == '/')
  {
    var n := r.fullName;
    assert forall i :: 0 <= i < |r.owner| ==> n[i] == r.owner[i] != '/';
    assert forall i :: |r.owner| < i < |n| ==> n[i] == r.name[i - |r.owner| - 1] != '/';
  }

  lemma {:induction false} DirectFinds(c: Config, s: State, handle: string, revision: nat, fullName: string)
    requires Readable(handle) && handle != "expired" && WellFormed(c.catalogue)
    requires Named(Accessible(handle, c.catalogue), fullName)
    ensures exists r :: r in Accessible(handle, c.catalogue) && r.fullName == fullName
                        && Direct(c, s, Header(handle, revision), fullName) == OkReply(Single(r))
  {
    AnswersApi(c, s, handle, revision, Url(API, "/repos/" + fullName, []));
    AccessibleIsDistinct(c, handle);
    FindIsFirst(fullName, Accessible(handle, c.catalogue));
    RepositoryRouteIsFree(c, handle, Count(s.computed, handle), fullName);
  }

  lemma {:induction false} DirectReachesOnlyAccessible(c: Config, s: State, handle: string, revision: nat, fullName: string, r: Repository)
    requires Readable(handle) && WellFormed(c.catalogue)
    requires Direct(c, s, Header(handle, revision), fullName) == OkReply(Single(r))
    ensures r in Accessible(handle, c.catalogue) && r.fullName == fullName
  {
    AnswersApi(c, s, handle, revision, Url(API, "/repos/" + fullName, []));
    AccessibleIsDistinct(c, handle);
    FindIsFirst(fullName, Accessible(handle, c.catalogue));
  }

  /** Everything a client collects from both installations. */
  function Listed(c: Config, s: State, handle: string, revision: nat): seq<Repository> {
    var (t, mine) := Collect(c, s, Header(handle, revision), FIRST_101);
    mine + Collect(c, t, Header(handle, revision), FIRST_102).1
  }

  lemma {:induction false} ListedContents(c: Config, s: State, handle: string, revision: nat)
    requires Readable(handle) && handle != "expired" && WellFormed(c.catalogue)
    ensures var all := Accessible(handle, c.catalogue);
            Listed(c, s, handle, revision)
            == LoweredAll(handle, Count(s.computed, handle), OwnedBy(ORG, all)) + OwnedBy(PERSON, all)
  {
    CollectsInstallation101(c, s, handle, revision);
    var t := Collect(c, s, Header(handle, revision), FIRST_101).0;
    CollectsInstallation102(c, t, handle, revision);
  }

  /** No repository is listed twice, within an installation or across the two. */
  lemma {:induction false} ListedOnce(c: Config, s: State, handle: string, revision: nat)
    requires Readable(handle) && handle != "expired" && WellFormed(c.catalogue)
    ensures DistinctNames(Listed(c, s, handle, revision))
  {
    ListedContents(c, s, handle, revision);
    var all, computed := Accessible(handle, c.catalogue), Count(s.computed, handle);
    var org, person := OwnedBy(ORG, all), OwnedBy(PERSON, all);
    AccessibleIsDistinct(c, handle);
    OwnedByFilters(ORG, all);
    OwnedByFilters(PERSON, all);
    LoweredPointwise(handle, computed, org);
    assert |PERSON| != |ORG|;
    forall i, j | 0 <= i < |org| && 0 <= j < |person| ensures org[i].fullName != person[j].fullName {
      assert org[i] in all && person[j] in all && org[i] != person[j];
    }
    var listed := LoweredAll(handle, computed, org) + person;
    forall i, j | 0 <= i < j < |listed| ensures listed[i].fullName != listed[j].fullName {
      if j < |org| {
        assert org[i].fullName != org[j].fullName;
      } else if i < |org| {
        assert org[i].fullName != person[j - |org|].fullName;
      } else {
        assert person[i - |org|].fullName != person[j - |org|].fullName;
      }
    }
  }

  /** A repository is listed exactly when a direct lookup finds it and one of the two accounts owns it. */
  lemma {:induction false} ListedIffReachable(c: Config, s: State, handle: string, revision: nat, fullName: string)
    requires Readable(handle) && handle != "expired" && WellFormed(c.catalogue)
    ensures Named(Listed(c, s, handle, revision), fullName)
            <==> exists r :: Direct(c, s, Header(handle, revision), fullName) == OkReply(Single(r))
                             && (r.owner == ORG || r.owner == PERSON)
  {
    ListedContents(c, s, handle, revision);
    var all, computed := Accessible(handle, c.catalogue), Count(s.computed, handle);
    OwnedByFilters(ORG, all);
    OwnedByFilters(PERSON, all);
    LoweredPointwise(handle, computed, OwnedBy(ORG, all));
    AccessibleIsDistinct(c, handle);
    if Named(Listed(c, s, handle, revision), fullName) {
      var x :| x in Listed(c, s, handle, revision) && x.fullName == fullName;
      var r := ListedComesFrom(c, s, handle, revision, x);
      DirectFinds(c, s, handle, revision, fullName);
    }
    forall r | Direct(c, s, Header(handle, revision), fullName) == OkReply(Single(r)) && (r.owner == ORG || r.owner == PERSON)
      ensures Named(Listed(c, s, handle, revision), fullName)
    {
      DirectReachesOnlyAccessible(c, s, handle, revision, fullName, r);
      var listed := Listed(c, s, handle, revision);
      if r.owner == ORG {
        var i :| 0 <= i < |OwnedBy(ORG, all)| && OwnedBy(ORG, all)[i] == r;
        assert listed[i] == Lowered(handle, computed, r) && listed[i] in listed;
      } else {
        assert r in listed;
      }
    }
  }

  /** The accessible repository behind a listed one. */
  lemma {:induction false} ListedComesFrom(c: Config, s: State, handle: string, revision: nat, x: Repository) returns (r: Repository)
    requires Readable(handle) && handle != "expired" && WellFormed(c.catalogue)
    requires x in Listed(c, s, handle, revision)
    ensures r in Accessible(handle, c.catalogue) && r.fullName == x.fullName && r.name == x.name && r.owner == x.owner
    ensures x == (if r.owner == ORG then Lowered(handle, Count(s.computed, handle), r) else r)
    ensures r.owner == ORG || r.owner == PERSON
  {
    ListedContents(c, s, handle, revision);
    var all, computed := Accessible(handle, c.catalogue), Count(s.computed, handle);
    OwnedByFilters(ORG, all);
    OwnedByFilters(PERSON, all);
    LoweredPointwise(handle, computed, OwnedBy(ORG, all));
    assert |PERSON| != |ORG|;
    if x in OwnedBy(PERSON, all) {
      r := x;
    } else {
      var i :| 0 <= i < |OwnedBy(ORG, all)| && LoweredAll(handle, computed, OwnedBy(ORG, all))[i] == x;
      r := OwnedBy(ORG, all)[i];
    }
  }

  predicate Within(p: Permissions, q: Permissions) {
    (p.pull ==> q.pull) && (p.push ==> q.push) && (p.admin ==> q.admin)
  }

  /** The one case in which a listing promises more than the repository itself: the first read of a revoked handle. */
  predicate OverstatesPull(handle: string, computed: nat, r: Repository) {
    REVOKED <= handle && computed == 0 && r.owner == ORG && r.name == "score" && !r.permissions.pull
  }

  /** Listed permissions stay within the direct ones, except for an unreadable score on a revoked handle's first read. */
  lemma {:induction false} ListedPermissions(c: Config, s: State, handle: string, revision: nat, x: Repository, r: Repository)
    requires Readable(handle) && handle != "expired" && WellFormed(c.catalogue)
    requires x in Listed(c, s, handle, revision)
    requires Direct(c, s, Header(handle, revision), x.fullName) == OkReply(Single(r))
    ensures x.(permissions := r.permissions) == r
    ensures Within(x.permissions, r.permissions) <==> !OverstatesPull(handle, Count(s.computed, handle), r)
  {
    var q := ListedComesFrom(c, s, handle, revision, x);
    DirectReachesOnlyAccessible(c, s, handle, revision, x.fullName, r);
    AccessibleIsDistinct(c, handle);
    var all := Accessible(handle, c.catalogue);
    var i :| 0 <= i < |all| && all[i] == q;
    var j :| 0 <= j < |all| && all[j] == r;
    assert i == j;
  }
}

/** Revocation after admission (e2e/github.ts:163-166 and 267-278): permanent, and invisible to other handles. */
module GitHubRevocation {
  import opened Text
  import opened Tokens
  import opened GitHub
  import opened GitHubRuns
  import opened Sequences

  predicate ByHandle(e: Exchange, handle: string) {
    e.request.url.origin == API && ReadBearer(e.request.authorization.Or("")) == Some(handle)
  }

  predicate ListsFor(e: Exchange, handle: string) {
    ByHandle(e, handle) && e.request.url.pathname == LISTING_101
  }

  /** How many 101 listings were computed for this handle. */
  ghost function Listings(es: seq<Exchange>, handle: string): nat {
    if es == [] then 0 else Listings(Front(es), handle) + if ListsFor(Last(es), handle) then 1 else 0
  }

  /** The exchanges of one handle, in order. */
  ghost function Own(es: seq<Exchange>, handle: string): seq<Exchange> {
    if es == [] then []
    else Own(Front(es), handle) + if ByHandle(Last(es), handle) then [Last(es)] else []
  }

  lemma {:induction false} CountStep(c: Config, s: State, e: Exchange, handle: string)
    ensures Count(Do(c, s, e).0.computed, handle)
            == Count(s.computed, handle) + if ListsFor(e, handle) && REVOKED <= handle then 1 else 0
  {
    assert API != SITE;
  }

  /** The counter of a handle is the number of its own listings, whatever the others ask. */
  lemma {:induction false} CounterCountsListings(c: Config, es: seq<Exchange>, handle: string)
    ensures Count(After(c, es).computed, handle) == if REVOKED <= handle then Listings(es, handle) else 0
  {
    if es != [] {
      CounterCountsListings(c, Front(es), handle);
      CountStep(c, After(c, Front(es)), Last(es), handle);
    }
  }

  lemma {:induction false} OwnKeepsListings(es: seq<Exchange>, handle: string)
    ensures Listings(Own(es, handle), handle) == Listings(es, handle)
  {
    if es != [] {
      OwnKeepsListings(Front(es), handle);
      if ByHandle(Last(es), handle) {
        assert Own(es, handle) == Own(Front(es), handle) + [Last(es)];
        assert Front(Own(es, handle)) == Own(Front(es), handle);
      } else {
        assert Own(es, handle) == Own(Front(es), handle);
      }
    }
  }

  /** What a handle is told is unchanged when every exchange of every other handle is removed from the run. */
  lemma {:induction false} OthersDoNotMatter(c: Config, es: seq<Exchange>, e: Exchange, handle: string)
    requires ByHandle(e, handle)
    ensures Do(c, After(c, es), e).1 == Do(c, After(c, Own(es, handle)), e).1
  {
    CounterCountsListings(c, es, handle);
    CounterCountsListings(c, Own(es, handle), handle);
    OwnKeepsListings(es, handle);
    assert API != SITE;
  }

  lemma {:induction false} AvailableLowered(handle: string, computed: nat, rs: seq<Repository>)
    requires REVOKED <= handle
    ensures forall r :: r in LoweredAll(handle, computed, rs)
                        ==> !r.permissions.push && (r.name == "score" ==> (r.permissions.pull <==> computed == 0))
  {
    if rs != [] {
      AvailableLowered(handle, computed, rs[1..]);
    }
  }

  lemma {:induction false} ListingReply(c: Config, es: seq<Exchange>, e: Exchange, handle: string)
    requires REVOKED <= handle && ListsFor(e, handle)
    ensures Do(c, After(c, es), e).1
            == Answered(Page101(c, handle, Listings(es, handle), Get(e.request.url.query, "page"), e.request.ifNoneMatch))
  {
    assert API != SITE;
    CounterCountsListings(c, es, handle);
    assert handle[0] == 'r' && handle[1] == 'e' && "expired"[0] == 'e';
  }

  /**
   * In every run a revoked handle is answered its whole listing, or 304 if it already holds the tag; the
   * listing offers pull on score exactly when it is the handle's first, so never again, and never push.
   */
  lemma {:induction false} RevocationIsPermanent(c: Config, es: seq<Exchange>, e: Exchange, handle: string, r: Repository)
    requires REVOKED <= handle && ListsFor(e, handle)
    ensures var reply := Do(c, After(c, es), e).1;
            var tag := ListingTag(handle, "101", Get(e.request.url.query, "page").Or("1"));
            var listed := Available(c, handle, Listings(es, handle));
            && reply == Answered(if e.request.ifNoneMatch == Some(tag) then Response(304, Empty, Some(tag), None)
                                 else Response(200, Repositories(listed), Some(tag), None))
            && (r in listed ==> !r.permissions.push && (r.name == "score" ==> (r.permissions.pull <==> Listings(es, handle) == 0)))
  {
    ListingReply(c, es, e, handle);
    assert handle[0] == 'r' && "paged"[0] == 'p';
    AvailableLowered(handle, Listings(es, handle), OwnedBy(ORG, Accessible(handle, c.catalogue)));
  }
}
