/** Whole runs of the GitHub service: any sequence of requests from any clients, answered one after the other. */
module GitHubRuns {
  import opened Text
  import opened GitHub
  import opened Sequences

  datatype Exchange = Exchange(request: Request, ambient: Ambient)

  function Do(c: Config, s: State, e: Exchange): (State, Reply) {
    Step(c, s, e.request, e.ambient)
  }

  function After(c: Config, es: seq<Exchange>): State {
    if es == [] then INITIAL else Do(c, After(c, Front(es)), Last(es)).0
  }

  /** The reply to the exchange at `i`. */
  function ReplyAt(c: Config, es: seq<Exchange>, i: nat): Reply
    requires i < |es|
  {
    Do(c, After(c, es[..i]), es[i]).1
  }

  ghost predicate Distinct<T>(xs: seq<T>) {
    forall i, j :: 0 <= i < j < |xs| ==> xs[i] != xs[j]
  }
}

/**
 * The device grant (e2e/github.ts:174-200; RFC 8628 sections 3.2, 3.4 and 3.5): which private codes
 * are outstanding, which were redeemed, and what an approval file can grant.
 */
module DeviceGrant {
  import opened Text
  import opened GitHub
  import opened GitHubRuns
  import opened Sequences

  predicate Issues(e: Exchange) {
    e.request.url == DEVICE_CODE && e.ambient.localAuth
  }

  predicate Polls(e: Exchange) {
    e.request.url == ACCESS_TOKEN && Get(e.request.form, "grant_type") == Some(DEVICE_GRANT)
  }

  predicate IsGrant(reply: Reply) {
    reply.Answered? && reply.response.body.Grant?
  }

  /** The private codes handed out so far, oldest first. */
  ghost function Issued(es: seq<Exchange>): seq<string> {
    if es == [] then []
    else Issued(Front(es)) + if Issues(Last(es)) then [Last(es).ambient.uuid] else []
  }

  /** The private codes that were exchanged for a token so far, oldest first. */
  ghost function Redeemed(c: Config, es: seq<Exchange>): seq<string> {
    if es == [] then []
    else
      Redeemed(c, Front(es))
      + if Polls(Last(es)) && IsGrant(ReplyAt(c, es, |es| - 1)) then [DeviceKey(Last(es).request.form)] else []
  }

  /** The assumption on `crypto.randomUUID`: never empty, never repeated. */
  ghost predicate Fresh(es: seq<Exchange>) {
    Distinct(Issued(es)) && "" !in Issued(es)
  }

  lemma {:induction false} UserCodesDiffer(m: nat, n: nat)
    requires UserCode(m) == UserCode(n)
    ensures m == n
  {
    var p, q := PadStart(Decimal(m), 4, '0'), PadStart(Decimal(n), 4, '0');
    assert p == ("E2E-" + p)[4..] == ("E2E-" + q)[4..] == q;
    PaddedDecimalIsInjective(m, n, 4);
  }

  /** Outstanding and redeemed codes partition the issued ones, and each outstanding code keeps its number. */
  ghost predicate Ledger(s: State, issued: seq<string>, redeemed: seq<string>) {
    && |issued| == s.nextCode
    && (forall k :: 0 <= k < |issued| && issued[k] in s.issued ==> s.issued[issued[k]] == UserCode(k + 1))
    && (forall p :: p in s.issued <==> p in issued && p !in redeemed)
    && (forall p :: p in redeemed ==> p in issued)
    && Distinct(redeemed)
    && |s.issued| + |redeemed| == s.nextCode
  }

  /** What a request does to the outstanding codes: issue one, redeem one or leave them alone. */
  lemma {:induction false} CodesStep(c: Config, s: State, e: Exchange)
    ensures var (t, reply) := Do(c, s, e);
            if Issues(e) then
              t.issued == s.issued[e.ambient.uuid := UserCode(s.nextCode + 1)] && t.nextCode == s.nextCode + 1
              && reply == OkReply(Device(e.ambient.uuid, UserCode(s.nextCode + 1))) && !Polls(e)
            else if Polls(e) && IsGrant(reply) then
              var key := DeviceKey(e.request.form);
              t.nextCode == s.nextCode && key in s.issued && s.issued[key] == Trim(e.ambient.approval)
              && (key != "" ==> t.issued == s.issued - {key})
            else t.issued == s.issued && t.nextCode == s.nextCode
    ensures Polls(e) ==> (IsGrant(Do(c, s, e).1) <==> Approved(s, e.request.form, e.ambient.approval))
  {
  }

  lemma {:induction false} LedgerIssues(s: State, t: State, issued: seq<string>, redeemed: seq<string>, id: string)
    requires Ledger(s, issued, redeemed) && id !in issued
    requires t.issued == s.issued[id := UserCode(s.nextCode + 1)] && t.nextCode == s.nextCode + 1
    ensures Ledger(t, issued + [id], redeemed)
  {
    assert id !in s.issued;
  }

  lemma {:induction false} LedgerRedeems(s: State, t: State, issued: seq<string>, redeemed: seq<string>, key: string)
    requires Ledger(s, issued, redeemed) && key in s.issued
    requires t.issued == s.issued - {key} && t.nextCode == s.nextCode
    ensures Ledger(t, issued, redeemed + [key])
  {
    assert s.issued.Keys == t.issued.Keys + {key};
    assert |s.issued.Keys| == |t.issued.Keys| + 1;
  }

  lemma {:induction false} LedgerStep(c: Config, s: State, e: Exchange, issued: seq<string>, redeemed: seq<string>)
    requires Ledger(s, issued, redeemed) && "" !in issued && (Issues(e) ==> e.ambient.uuid !in issued)
    ensures var (t, reply) := Do(c, s, e);
            Ledger(t, issued + (if Issues(e) then [e.ambient.uuid] else []),
                   redeemed + if Polls(e) && IsGrant(reply) then [DeviceKey(e.request.form)] else [])
  {
    var (t, reply) := Do(c, s, e);
    CodesStep(c, s, e);
    assert issued + [] == issued && redeemed + [] == redeemed;
    if Issues(e) {
      LedgerIssues(s, t, issued, redeemed, e.ambient.uuid);
    } else if Polls(e) && IsGrant(reply) {
      LedgerRedeems(s, t, issued, redeemed, DeviceKey(e.request.form));
    }
  }

  /** Conservation: in every run with fresh private codes, outstanding plus redeemed codes equal `nextCode`. */
  lemma {:induction false} LedgerHolds(c: Config, es: seq<Exchange>)
    requires Fresh(es)
    ensures Ledger(After(c, es), Issued(es), Redeemed(c, es))
  {
    if es != [] {
      var pre, e := Front(es), Last(es);
      FreshPrefix(c, es, |es| - 1);
      LedgerHolds(c, pre);
      if Issues(e) {
        NotYetIssued(Issued(pre), e.ambient.uuid);
      }
      LedgerStep(c, After(c, pre), e, Issued(pre), Redeemed(c, pre));
    }
  }

  lemma {:induction false} NotYetIssued(issued: seq<string>, id: string)
    requires Distinct(issued + [id])
    ensures id !in issued
  {
    var all := issued + [id];
    forall i | 0 <= i < |issued| ensures issued[i] != id {
      assert all[i] != all[|issued|];
    }
  }

  /**
   * A poll is granted exactly when its private code is outstanding and the approval file, trimmed,
   * holds the user code that was handed out with it.
   */
  lemma {:induction false} PollIsGrantedExactly(c: Config, es: seq<Exchange>, poll: Exchange)
    requires Fresh(es) && Polls(poll)
    ensures IsGrant(Do(c, After(c, es), poll).1)
            <==> exists k :: 0 <= k < |Issued(es)| && Issued(es)[k] == DeviceKey(poll.request.form)
                           && DeviceKey(poll.request.form) !in Redeemed(c, es)
                           && Trim(poll.ambient.approval) == UserCode(k + 1)
  {
    LedgerHolds(c, es);
    var s, key := After(c, es), DeviceKey(poll.request.form);
    if key in s.issued {
      var k :| 0 <= k < |Issued(es)| && Issued(es)[k] == key;
      assert s.issued[key] == UserCode(k + 1) != "";
    }
  }

  lemma {:induction false} HistoriesGrow(c: Config, es: seq<Exchange>, i: nat, j: nat)
    requires i <= j <= |es|
    ensures Issued(es[..i]) <= Issued(es[..j]) && Redeemed(c, es[..i]) <= Redeemed(c, es[..j])
    decreases j - i
  {
    if i < j {
      HistoriesGrow(c, es, i, j - 1);
      assert Front(es[..j]) == es[..j - 1];
    }
  }

  lemma {:induction false} DistinctPrefix(xs: seq<string>, ys: seq<string>, absent: string)
    requires xs <= ys && Distinct(ys) && absent !in ys
    ensures Distinct(xs) && absent !in xs
  {
    assert forall i :: 0 <= i < |xs| ==> xs[i] == ys[i];
  }

  lemma {:induction false} FreshPrefix(c: Config, es: seq<Exchange>, i: nat)
    requires Fresh(es) && i <= |es|
    ensures Fresh(es[..i]) && Issued(es[..i]) <= Issued(es)
  {
    HistoriesGrow(c, es, i, |es|);
    assert es[..|es|] == es;
    DistinctPrefix(Issued(es[..i]), Issued(es), "");
  }

  /** Each issuing exchange makes the list of issued codes longer, for good. */
  lemma {:induction false} IssuedIsLonger(c: Config, es: seq<Exchange>, i: nat, j: nat)
    requires i < j <= |es| && Issues(es[i])
    ensures |Issued(es[..i])| < |Issued(es[..j])|
    ensures Issued(es[..j])[|Issued(es[..i])|] == es[i].ambient.uuid
  {
    assert Front(es[..i + 1]) == es[..i] && Last(es[..i + 1]) == es[i];
    assert Issued(es[..i + 1]) == Issued(es[..i]) + [es[i].ambient.uuid];
    HistoriesGrow(c, es, i + 1, j);
  }

  /** The user code handed out by the exchange at `i` is numbered by the codes before it. */
  lemma {:induction false} IssuedAt(c: Config, es: seq<Exchange>, i: nat)
    requires Fresh(es) && i < |es| && Issues(es[i])
    ensures ReplyAt(c, es, i) == OkReply(Device(es[i].ambient.uuid, UserCode(|Issued(es[..i])| + 1)))
  {
    FreshPrefix(c, es, i);
    LedgerHolds(c, es[..i]);
    CodesStep(c, After(c, es[..i]), es[i]);
  }

  /** In one run no two device-code answers share a private code or a user code. */
  lemma {:induction false} AnsweredUserCodesDiffer(c: Config, es: seq<Exchange>, i: nat, j: nat)
    requires Fresh(es) && i < j < |es| && Issues(es[i]) && Issues(es[j])
    ensures exists p, m, q, n :: ReplyAt(c, es, i) == OkReply(Device(p, m)) && ReplyAt(c, es, j) == OkReply(Device(q, n))
                                 && p != q && m != n
  {
    IssuedIsLonger(c, es, i, j);
    IssuedIsLonger(c, es, i, |es|);
    IssuedIsLonger(c, es, j, |es|);
    assert es[..|es|] == es;
    IssuedAt(c, es, i);
    IssuedAt(c, es, j);
    var m, n := |Issued(es[..i])| + 1, |Issued(es[..j])| + 1;
    if UserCode(m) == UserCode(n) {
      UserCodesDiffer(m, n);
    }
  }

  /** A grant at `i` names the private code it redeemed and the number of that code. */
  lemma {:induction false} GrantAt(c: Config, es: seq<Exchange>, i: nat) returns (k: nat)
    requires Fresh(es) && i < |es| && Polls(es[i]) && IsGrant(ReplyAt(c, es, i))
    ensures k < |Issued(es)| && Issued(es)[k] == DeviceKey(es[i].request.form)
    ensures Trim(es[i].ambient.approval) == UserCode(k + 1)
    ensures Redeemed(c, es[..i + 1]) == Redeemed(c, es[..i]) + [DeviceKey(es[i].request.form)]
    ensures DeviceKey(es[i].request.form) !in Redeemed(c, es[..i])
  {
    FreshPrefix(c, es, i);
    PollIsGrantedExactly(c, es[..i], es[i]);
    k :| 0 <= k < |Issued(es[..i])| && Issued(es[..i])[k] == DeviceKey(es[i].request.form)
         && Trim(es[i].ambient.approval) == UserCode(k + 1);
    assert Front(es[..i + 1]) == es[..i] && es[..i + 1][..i] == es[..i];
  }

  lemma {:induction false} LaterGrantDiffers(c: Config, es: seq<Exchange>, i: nat, j: nat)
    requires i < j <= |es| && Redeemed(c, es[..i + 1]) == Redeemed(c, es[..i]) + [DeviceKey(es[i].request.form)]
    ensures DeviceKey(es[i].request.form) in Redeemed(c, es[..j])
  {
    HistoriesGrow(c, es, i + 1, j);
    assert Redeemed(c, es[..j])[|Redeemed(c, es[..i])|] == DeviceKey(es[i].request.form);
  }

  lemma {:induction false} CodesDiffer(issued: seq<string>, k: nat, l: nat)
    requires k < |issued| && l < |issued| && issued[k] != issued[l]
    ensures UserCode(k + 1) != UserCode(l + 1)
  {
    if UserCode(k + 1) == UserCode(l + 1) {
      UserCodesDiffer(k + 1, l + 1);
    }
  }

  /** One approval lets in one sign-in: two grants of a run need different private codes and different approvals. */
  lemma {:induction false} OneGrantPerApproval(c: Config, es: seq<Exchange>, i: nat, j: nat)
    requires Fresh(es) && i < j < |es| && Polls(es[i]) && Polls(es[j])
    requires IsGrant(ReplyAt(c, es, i)) && IsGrant(ReplyAt(c, es, j))
    ensures DeviceKey(es[i].request.form) != DeviceKey(es[j].request.form)
    ensures Trim(es[i].ambient.approval) != Trim(es[j].ambient.approval)
  {
    var k := GrantAt(c, es, i);
    LaterGrantDiffers(c, es, i, j);
    var l := GrantAt(c, es, j);
    CodesDiffer(Issued(es), k, l);
  }

  /** Freshness is needed: a repeated private code overwrites the first one and a code is lost. */
  lemma {:induction false} RepeatedCodeIsLost(c: Config, id: string)
    ensures var e := Exchange(Request(DEVICE_CODE, [], None, None), Ambient(true, id, ""));
            After(c, [e, e]).nextCode == 2 && |After(c, [e, e]).issued| == 1 && Redeemed(c, [e, e]) == []
  {
    var e := Exchange(Request(DEVICE_CODE, [], None, None), Ambient(true, id, ""));
    assert Front([e, e]) == [e] && Last([e, e]) == e && Front([e]) == [] && Last([e]) == e;
    assert After(c, [e]) == Do(c, INITIAL, e).0 && After(c, [e, e]) == Do(c, After(c, [e]), e).0;
    assert Redeemed(c, [e]) == Redeemed(c, []) + [];
    CodesStep(c, INITIAL, e);
    CodesStep(c, After(c, [e]), e);
    assert [e, e][..1] == [e] && [e][..0] == [];
  }
}

/** Sign-in and refresh (e2e/github.ts:202-215; RFC 6749 section 6): a chain of refreshes keeps the handle. */
module RefreshChains {
  import opened Text
  import opened Tokens
  import opened GitHub
  import opened GitHubRuns
  import opened Sequences

  function Ask(form: seq<(string, string)>): Exchange {
    Exchange(Request(ACCESS_TOKEN, form, None, None), Ambient(false, "", ""))
  }

  function SignIn(code: string): Exchange {
    Ask([("code", code)])
  }

  function Renew(token: string): Exchange {
    Ask([("grant_type", "refresh_token"), ("refresh_token", token)])
  }

  function HandleOf(code: string): string {
    StripOnce("e2e-", code)
  }

  /** Sign in, then refresh with the newest token after each burst of other traffic; the last reply. */
  function Chain(c: Config, before: seq<Exchange>, code: string, bursts: seq<seq<Exchange>>): (seq<Exchange>, Reply) {
    if bursts == [] then (before + [SignIn(code)], Do(c, After(c, before), SignIn(code)).1)
    else
      var (es, reply) := Chain(c, before, code, Front(bursts));
      if reply.Answered? && reply.response.body.Grant? then
        var next := Renew(reply.response.body.refresh);
        var es' := es + Last(bursts);
        (es' + [next], Do(c, After(c, es'), next).1)
      else (es, reply)
  }

  /** A refresh is refused exactly for `expired` and for handles the pattern cannot read. */
  predicate Refreshable(handle: string) {
    Readable(handle) && handle != "expired"
  }

  /** One refresh of a minted token, in any state: next revision, same handle, or a refusal. */
  lemma {:induction false} RenewOnce(c: Config, s: State, handle: string, revision: nat)
    ensures Do(c, s, Renew(MintRefresh(handle, revision)))
            == (s, OkReply(if Refreshable(handle) then Granted(handle, revision + 1) else OAuthError("bad_refresh_token")))
  {
    RefreshRoundTrip(handle, revision);
    var form := Renew(MintRefresh(handle, revision)).request.form;
    assert form[1..] == [("refresh_token", MintRefresh(handle, revision))];
    assert Get(form, "grant_type") == Some("refresh_token");
    assert Get(form, "refresh_token") == Get(form[1..], "refresh_token") == Some(MintRefresh(handle, revision));
    assert ACCESS_TOKEN != DEVICE_CODE;
    assert Step(c, s, Renew(MintRefresh(handle, revision)).request, Ambient(false, "", "")) == (s, OkReply(FormGrant(form)));
  }

  lemma {:induction false} SignInOnce(c: Config, s: State, code: string)
    ensures Do(c, s, SignIn(code)) == (s, OkReply(Granted(HandleOf(code), 1)))
  {
    var form := SignIn(code).request.form;
    assert form[1..] == [];
    assert Get(form, "grant_type") == Get(form[1..], "grant_type") == None;
    assert ACCESS_TOKEN != DEVICE_CODE;
    assert Step(c, s, SignIn(code).request, Ambient(false, "", "")) == (s, OkReply(FormGrant(form)));
  }

  /**
   * After a sign-in and any number n of refreshes, whatever else the service answered in between, the
   * client holds revision n + 1 of its own handle; only the first refresh can be refused.
   */
  lemma {:induction false} ChainKeepsIdentity(c: Config, before: seq<Exchange>, code: string, bursts: seq<seq<Exchange>>)
    ensures Chain(c, before, code, bursts).1
            == OkReply(if bursts == [] || Refreshable(HandleOf(code)) then Granted(HandleOf(code), |bursts| + 1)
                       else OAuthError("bad_refresh_token"))
  {
    SignInOnce(c, After(c, before), code);
    if bursts != [] {
      ChainKeepsIdentity(c, before, code, Front(bursts));
      var (es, reply) := Chain(c, before, code, Front(bursts));
      RenewOnce(c, After(c, es + Last(bursts)), HandleOf(code), |bursts|);
    }
  }

  /** Every access token of a chain authenticates as the chain's handle, exactly when that handle is readable. */
  lemma {:induction false} ChainAuthenticates(c: Config, before: seq<Exchange>, code: string, bursts: seq<seq<Exchange>>)
    requires bursts == [] || Refreshable(HandleOf(code))
    ensures var reply := Chain(c, before, code, bursts).1;
            reply.Answered? && reply.response.body.Grant?
            && ReadBearer(BEARER + reply.response.body.access)
               == if Readable(HandleOf(code)) then Some(HandleOf(code)) else None
  {
    ChainKeepsIdentity(c, before, code, bursts);
    BearerRoundTrip(HandleOf(code), |bursts| + 1);
  }
}
