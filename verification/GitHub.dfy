/**
 * The in-memory GitHub service (e2e/github.ts:168-315): one request is answered at a time and three
 * pieces of state change. `Step` is the specification of a request; the class `GitHub` updates the
 * state in place and is proved against it. The catalogue of repositories is a parameter.
 */
module GitHub {
  import opened Text
  import opened Tokens

  datatype Permissions = Permissions(pull: bool, push: bool, admin: bool)

  datatype Repository = Repository(
    nodeId: string, owner: string, name: string, fullName: string, isPrivate: bool, permissions: Permissions)

  /** A parsed URL: the query is the list of decoded parameters. */
  datatype Url = Url(origin: string, pathname: string, query: seq<(string, string)>)

  datatype Request = Request(
    url: Url, form: seq<(string, string)>, authorization: Option<string>, ifNoneMatch: Option<string>)

  /** What a request reads besides its own content: the auth mode, a new UUID and the approval file. */
  datatype Ambient = Ambient(localAuth: bool, uuid: string, approval: string)

  datatype Body =
    | Empty
    | Device(deviceCode: string, userCode: string)
    | Grant(access: string, refresh: string)
    | OAuthError(error: string)
    | Message(text: string)
    | User(login: string)
    | Membership(active: bool)
    | Installations
    | Repositories(listed: seq<Repository>)
    | Single(repository: Repository)
    | CommitHead
    | Summary(reference: string)

  datatype Response = Response(status: nat, body: Body, etag: Option<string>, link: Option<Url>)

  datatype Reply = Answered(response: Response) | Forwarded

  datatype Config = Config(catalogue: seq<Repository>, references: set<string>)

  datatype State = State(issued: map<string, string>, nextCode: nat, computed: map<string, nat>)

  const INITIAL := State(map[], 0, map[])

  const SITE := "https://github.com"
  const API := "https://api.github.com"
  const DEVICE_CODE := Url(SITE, "/login/device/code", [])
  const ACCESS_TOKEN := Url(SITE, "/login/oauth/access_token", [])
  const DEVICE_GRANT := "urn:ietf:params:oauth:grant-type:device_code"
  const ORG := "octo-org"
  const PERSON := "octocat"
  const LISTING_101 := "/user/installations/101/repositories"
  const LISTING_102 := "/user/installations/102/repositories"
  const REVOKED := "revoked-after-admission-"
  const SCORE_READER := "score-reader-"
  const SCORE_OUTSIDER := "score-outsider-"
  const MACHINE_SHARER := "machine-sharer-"
  const DOCUMENT_CREATOR := "document-creator-"
  const CREATOR_WRITABLE: set<string> := {"archive-1", "archive-8", "archive-9"}

  /** `URLSearchParams.get`: the first value of a name. */
  function Get(params: seq<(string, string)>, name: string): Option<string> {
    if params == [] then None
    else if params[0].0 == name then Some(params[0].1)
    else Get(params[1..], name)
  }

  function UserCode(n: nat): string {
    "E2E-" + PadStart(Decimal(n), 4, '0')
  }

  function Ok(body: Body): Response {
    Response(200, body, None, None)
  }

  function OkReply(body: Body): Reply {
    Answered(Ok(body))
  }

  // ----- what a handle may see

  function SharerRepository(handle: string): Repository
    requires MACHINE_SHARER <= handle
  {
    var name := "relay-" + handle[|MACHINE_SHARER|..];
    Repository("R_" + name, ORG, name, ORG + "/" + name, true, Permissions(true, true, false))
  }

  function WithPush(r: Repository, push: bool): Repository {
    r.(permissions := r.permissions.(push := push))
  }

  function Seen(handle: string, r: Repository): seq<Repository> {
    if SCORE_OUTSIDER <= handle && r.name == "score" then []
    else if SCORE_READER <= handle && r.name == "score" then [WithPush(r, false)]
    else if DOCUMENT_CREATOR <= handle && r.name in CREATOR_WRITABLE then [WithPush(r, true)]
    else [r]
  }

  function AllSeen(handle: string, catalogue: seq<Repository>): seq<Repository> {
    if catalogue == [] then [] else Seen(handle, catalogue[0]) + AllSeen(handle, catalogue[1..])
  }

  function Accessible(handle: string, catalogue: seq<Repository>): seq<Repository> {
    if MACHINE_SHARER <= handle then [SharerRepository(handle)] else AllSeen(handle, catalogue)
  }

  function OwnedBy(owner: string, rs: seq<Repository>): seq<Repository> {
    if rs == [] then []
    else if rs[0].owner == owner then [rs[0]] + OwnedBy(owner, rs[1..])
    else OwnedBy(owner, rs[1..])
  }

  function Lowered(handle: string, computed: nat, r: Repository): Repository {
    var r := if handle == "readonly" then WithPush(r, false) else r;
    if REVOKED <= handle then
      r.(permissions := r.permissions.(pull := if r.name == "score" then computed == 0 else r.permissions.pull, push := false))
    else r
  }

  function LoweredAll(handle: string, computed: nat, rs: seq<Repository>): seq<Repository> {
    if rs == [] then [] else [Lowered(handle, computed, rs[0])] + LoweredAll(handle, computed, rs[1..])
  }

  /** The repositories of installation 101 as one computed listing shows them, before paging. */
  function Available(c: Config, handle: string, computed: nat): seq<Repository> {
    LoweredAll(handle, computed, OwnedBy(ORG, Accessible(handle, c.catalogue)))
  }

  function Find(path: string, rs: seq<Repository>): Option<Repository> {
    if rs == [] then None
    else if path == "/repos/" + rs[0].fullName then Some(rs[0])
    else Find(path, rs[1..])
  }

  // ----- tagged responses

  /** An entity with a validator: 304 without a body when the request already holds that tag. */
  function Tagged(ifNoneMatch: Option<string>, body: Body, etag: string, link: Option<Url>): Response {
    if ifNoneMatch == Some(etag) then Response(304, Empty, Some(etag), link) else Response(200, body, Some(etag), link)
  }

  const REPOSITORIES_TAG := "\"repositories-"
  const INSTALLATIONS_TAG := "\"installations-"
  const REFERENCE_TAG := "\"reference-"

  function ListingTag(handle: string, installation: string, page: string): string {
    REPOSITORIES_TAG + handle + "-" + installation + "-" + page + "\""
  }

  function NextPage(): Url {
    Url(API, LISTING_101, [("per_page", "100"), ("page", "2")])
  }

  function FirstOf(rs: seq<Repository>): seq<Repository> {
    if rs == [] then [] else rs[..1]
  }

  function RestOf(rs: seq<Repository>): seq<Repository> {
    if rs == [] then [] else rs[1..]
  }

  function Page101(c: Config, handle: string, computed: nat, page: Option<string>, inm: Option<string>): Response {
    var available := Available(c, handle, computed);
    if handle == "paged" && page != Some("2") then
      Tagged(inm, Repositories(FirstOf(available)), ListingTag(handle, "101", "1"), Some(NextPage()))
    else
      Tagged(inm, Repositories(if handle == "paged" then RestOf(available) else available),
             ListingTag(handle, "101", page.Or("1")), None)
  }

  function Page102(c: Config, handle: string, page: Option<string>, inm: Option<string>): Response {
    Tagged(inm, Repositories(OwnedBy(PERSON, Accessible(handle, c.catalogue))),
           ListingTag(handle, "102", page.Or("1")), None)
  }

  const SCORE_PATH := "/repos/octo-org/score/"

  /** The capture of `(pulls|issues)/\d+` under octo-org/score. */
  function ReferenceKey(path: string): Option<string> {
    if !(SCORE_PATH <= path) then None
    else
      var key := path[|SCORE_PATH|..];
      var number := if "pulls/" <= key then key[6..] else if "issues/" <= key then key[7..] else "";
      if number != "" && AllDigits(number) then Some(key) else None
  }

  /** The answer to an authorized API request; `computed` is how often this handle's 101 listing was computed before. */
  function Api(c: Config, handle: string, computed: nat, url: Url, inm: Option<string>): Response {
    var page := Get(url.query, "page");
    if url.pathname == "/user" then Ok(User(handle))
    else if url.pathname == "/user/memberships/orgs/githubnext" then
      if handle == "outsider" then Response(404, Message("Not Found"), None, None) else Ok(Membership(handle != "pending"))
    else if handle == "expired" then Response(401, Message("Bad credentials"), None, None)
    else if url.pathname == "/user/installations" then
      Tagged(inm, Installations, INSTALLATIONS_TAG + handle + "\"", None)
    else if url.pathname == LISTING_101 then Page101(c, handle, computed, page, inm)
    else if url.pathname == LISTING_102 then Page102(c, handle, page, inm)
    else if url.pathname == "/repos/octo-org/score/commits/main" then Ok(CommitHead)
    else if ReferenceKey(url.pathname).Some? && ReferenceKey(url.pathname).value in c.references then
      Tagged(inm, Summary(ReferenceKey(url.pathname).value), REFERENCE_TAG + ReferenceKey(url.pathname).value + "\"", None)
    else
      match Find(url.pathname, Accessible(handle, c.catalogue))
      case Some(repository) => Ok(Single(repository))
      case None => Response(404, Message("Not Found"), None, None)
  }

  function Count(computed: map<string, nat>, handle: string): nat {
    if handle in computed then computed[handle] else 0
  }

  predicate CountsRead(handle: string, url: Url) {
    url.pathname == LISTING_101 && REVOKED <= handle
  }

  // ----- the token endpoint

  function StripOnce(prefix: string, s: string): string {
    if prefix <= s then s[|prefix|..] else s
  }

  function Granted(handle: string, revision: nat): Body {
    Grant(MintAccess(handle, revision), MintRefresh(handle, revision))
  }

  function DeviceKey(form: seq<(string, string)>): string {
    Get(form, "device_code").Or("")
  }

  /** Whether a device-code poll is approved: the code is outstanding and the file holds its user code. */
  predicate Approved(s: State, form: seq<(string, string)>, approval: string) {
    DeviceKey(form) in s.issued && s.issued[DeviceKey(form)] != "" && Trim(approval) == s.issued[DeviceKey(form)]
  }

  function Redeem(s: State, form: seq<(string, string)>): State {
    match Get(form, "device_code")
    case None => s
    case Some(key) => s.(issued := s.issued - {key})
  }

  /** The refresh and authorization-code grants, which read nothing but the form. */
  function FormGrant(form: seq<(string, string)>): Body {
    if Get(form, "grant_type") == Some("refresh_token") then
      match ReadRefresh(Get(form, "refresh_token").Or(""))
      case None => OAuthError("bad_refresh_token")
      case Some(r) =>
        if r.handle == "expired" then OAuthError("bad_refresh_token") else Granted(r.handle, r.revision + 1)
    else Granted(StripOnce("e2e-", Get(form, "code").Or("e2e-person")), 1)
  }

  /** One request: the next state and the reply. */
  function Step(c: Config, s: State, r: Request, a: Ambient): (State, Reply) {
    if r.url == DEVICE_CODE && a.localAuth then
      var code := UserCode(s.nextCode + 1);
      (State(s.issued[a.uuid := code], s.nextCode + 1, s.computed), OkReply(Device(a.uuid, code)))
    else if r.url == ACCESS_TOKEN then
      if Get(r.form, "grant_type") == Some(DEVICE_GRANT) then
        if Approved(s, r.form, a.approval) then (Redeem(s, r.form), OkReply(Granted("octocat", 1)))
        else (s, OkReply(OAuthError("authorization_pending")))
      else (s, OkReply(FormGrant(r.form)))
    else if r.url.origin == API then
      match ReadBearer(r.authorization.Or(""))
      case None => (s, Answered(Response(401, Message("Bad credentials"), None, None)))
      case Some(handle) =>
        var computed := Count(s.computed, handle);
        (if CountsRead(handle, r.url) then s.(computed := s.computed[handle := computed + 1]) else s,
         Answered(Api(c, handle, computed, r.url, r.ifNoneMatch)))
    else (s, Forwarded)
  }

  class GitHub {
    const config: Config
    var issuedCodes: map<string, string>
    var nextCode: nat
    var revokedViewerRepositoryReads: map<string, nat>

    constructor (config: Config)
      ensures this.config == config && Current() == INITIAL
    {
      this.config := config;
      issuedCodes, nextCode, revokedViewerRepositoryReads := map[], 0, map[];
    }

    ghost function Current(): State
      reads this
    {
      State(issuedCodes, nextCode, revokedViewerRepositoryReads)
    }

    method Fetch(r: Request, a: Ambient) returns (reply: Reply)
      modifies this
      ensures (Current(), reply) == Step(config, old(Current()), r, a)
    {
      if r.url == DEVICE_CODE && a.localAuth {
        nextCode := nextCode + 1;
        var code := UserCode(nextCode);
        issuedCodes := issuedCodes[a.uuid := code];
        reply := OkReply(Device(a.uuid, code));
      } else if r.url == ACCESS_TOKEN {
        reply := Token(r.form, a.approval);
      } else if r.url.origin == API {
        var authorized := ReadBearer(r.authorization.Or(""));
        if authorized.None? {
          return Answered(Response(401, Message("Bad credentials"), None, None));
        }
        var handle := authorized.value;
        var computed := Count(revokedViewerRepositoryReads, handle);
        if CountsRead(handle, r.url) {
          revokedViewerRepositoryReads := revokedViewerRepositoryReads[handle := computed + 1];
        }
        reply := Answered(Api(config, handle, computed, r.url, r.ifNoneMatch));
      } else {
        reply := Forwarded;
      }
    }

    /** `POST /login/oauth/access_token`. */
    method Token(form: seq<(string, string)>, approval: string) returns (reply: Reply)
      modifies this
      ensures forall r: Request, a: Ambient ::
                r.url == ACCESS_TOKEN && r.form == form && a.approval == approval
                ==> (Current(), reply) == Step(config, old(Current()), r, a)
    {
      if Get(form, "grant_type") == Some(DEVICE_GRANT) {
        var key := Get(form, "device_code");
        var code := if key.Or("") in issuedCodes then issuedCodes[key.Or("")] else "";
        if code == "" || Trim(approval) != code {
          return OkReply(OAuthError("authorization_pending"));
        }
        if key.Some? {
          issuedCodes := issuedCodes - {key.value};
        }
        reply := OkReply(Granted("octocat", 1));
      } else {
        reply := OkReply(FormGrant(form));
      }
    }
  }
}
