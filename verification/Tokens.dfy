/**
 * The text of the fake service's tokens (e2e/github.ts:202-222). A token carries the handle and the
 * revision it was minted for; the service keeps no table of tokens and reads both back by pattern.
 */
module Tokens {
  import opened Text

  const REFRESH_PREFIX := "ghr_e2e_"
  const ACCESS_PREFIX := "ghu_e2e_"
  const BEARER := "Bearer "

  function MintRefresh(handle: string, revision: nat): string {
    REFRESH_PREFIX + handle + "_" + Decimal(revision)
  }

  function MintAccess(handle: string, revision: nat): string {
    ACCESS_PREFIX + handle + "_" + Decimal(revision)
  }

  /** The characters `.` does not match. */
  predicate IsLineTerminator(c: char) {
    c == '\n' || c == '\r' || c == '\U{2028}' || c == '\U{2029}'
  }

  /** What `.+` matches: at least one character and no line terminator. */
  predicate Readable(handle: string) {
    handle != "" && forall i :: 0 <= i < |handle| ==> !IsLineTerminator(handle[i])
  }

  datatype Capture = Capture(handle: string, digits: string)

  /** The declarative meaning of `(.+)_(\d+)` against a whole text. */
  predicate Splits(s: string, c: Capture) {
    s == c.handle + ['_'] + c.digits && Readable(c.handle) && c.digits != "" && AllDigits(c.digits)
  }

  /**
   * The greedy matcher of `(.+)_(\d+)$`: `.+` starts with every character and gives one back at a
   * time until an underscore and digits fill the rest.
   */
  function Backtrack(s: string, taken: nat): Option<Capture>
    requires taken <= |s|
  {
    if taken == 0 then None
    else if taken < |s| && s[taken] == '_' && taken + 1 < |s| && AllDigits(s[taken + 1..]) && Readable(s[..taken]) then
      Some(Capture(s[..taken], s[taken + 1..]))
    else Backtrack(s, taken - 1)
  }

  function Match(s: string): Option<Capture> {
    Backtrack(s, |s|)
  }

  function AfterPrefix(prefix: string, s: string): Option<string> {
    if prefix <= s then Some(s[|prefix|..]) else None
  }

  datatype Refresh = Refresh(handle: string, revision: nat)

  function Digits(c: Capture): nat {
    if AllDigits(c.digits) then Value(c.digits) else 0
  }

  function ReadRefresh(token: string): Option<Refresh> {
    match AfterPrefix(REFRESH_PREFIX, token)
    case None => None
    case Some(rest) =>
      match Match(rest)
      case None => None
      case Some(c) => Some(Refresh(c.handle, Digits(c)))
  }

  function ReadBearer(header: string): Option<string> {
    match AfterPrefix(BEARER + ACCESS_PREFIX, header)
    case None => None
    case Some(rest) =>
      match Match(rest)
      case None => None
      case Some(c) => Some(c.handle)
  }

  /** At most one split exists, although handles may hold underscores and digits: it is at the last underscore. */
  lemma {:induction false} SplitIsUnique(s: string, c: Capture, d: Capture)
    requires Splits(s, c) && Splits(s, d)
    ensures c == d
    ensures '_' !in c.digits
  {
    LastSplitIsUnique(c.handle, c.digits, d.handle, d.digits, '_');
  }

  lemma {:induction false} BacktrackFinds(s: string, taken: nat)
    requires taken <= |s|
    ensures match Backtrack(s, taken)
            case Some(c) => Splits(s, c) && |c.handle| <= taken
            case None => forall c: Capture :: |c.handle| <= taken ==> !Splits(s, c)
  {
    if taken > 0 {
      BacktrackFinds(s, taken - 1);
      if Backtrack(s, taken).None? {
        forall c: Capture | Splits(s, c)
          ensures |c.handle| < |s| && c.handle == s[..|c.handle|] && c.digits == s[|c.handle| + 1..] && s[|c.handle|] == '_'
        {
        }
      } else if Backtrack(s, taken) != Backtrack(s, taken - 1) {
        var c := Backtrack(s, taken).value;
        assert s == s[..taken] + [s[taken]] + s[taken + 1..];
      }
    }
  }

  /** The backtracking matcher finds a capture exactly when one exists, and then the only one. */
  lemma {:induction false} MatchMeansSplit(s: string, c: Capture)
    ensures Match(s) == Some(c) <==> Splits(s, c)
  {
    BacktrackFinds(s, |s|);
    if Splits(s, c) {
      SplitIsUnique(s, c, Match(s).value);
    }
  }

  lemma {:induction false} MatchOfMinted(handle: string, revision: nat)
    ensures Match(handle + "_" + Decimal(revision))
            == if Readable(handle) then Some(Capture(handle, Decimal(revision))) else None
  {
    var s := handle + "_" + Decimal(revision);
    var c := Capture(handle, Decimal(revision));
    MatchMeansSplit(s, c);
    BacktrackFinds(s, |s|);
    if Match(s).Some? {
      var d := Match(s).value;
      LastSplitIsUnique(handle, c.digits, d.handle, d.digits, '_');
    }
  }

  /** A minted refresh token reads back as exactly its handle and revision, and only readable handles survive. */
  lemma {:induction false} RefreshRoundTrip(handle: string, revision: nat)
    ensures ReadRefresh(MintRefresh(handle, revision))
            == if Readable(handle) then Some(Refresh(handle, revision)) else None
  {
    var token := MintRefresh(handle, revision);
    assert token[|REFRESH_PREFIX|..] == handle + "_" + Decimal(revision);
    MatchOfMinted(handle, revision);
    ValueOfDecimal(revision);
  }

  lemma {:induction false} BearerRoundTrip(handle: string, revision: nat)
    ensures ReadBearer(BEARER + MintAccess(handle, revision)) == if Readable(handle) then Some(handle) else None
  {
    var header := BEARER + MintAccess(handle, revision);
    assert header == BEARER + ACCESS_PREFIX + (handle + "_" + Decimal(revision));
    assert header[|BEARER + ACCESS_PREFIX|..] == handle + "_" + Decimal(revision);
    MatchOfMinted(handle, revision);
  }

  /** Whatever reads as a refresh token was printed from that handle and a numeral of that revision. */
  lemma {:induction false} ReadRefreshIsSound(token: string, r: Refresh)
    ensures ReadRefresh(token) == Some(r)
            <==> exists digits: string ::
                   token == REFRESH_PREFIX + (r.handle + ['_'] + digits) && Readable(r.handle)
                   && digits != "" && AllDigits(digits) && Value(digits) == r.revision
  {
    if ReadRefresh(token) == Some(r) {
      var rest := token[|REFRESH_PREFIX|..];
      var c := Match(rest).value;
      MatchMeansSplit(rest, c);
      assert token == REFRESH_PREFIX + rest;
      assert token == REFRESH_PREFIX + (r.handle + ['_'] + c.digits);
    }
    forall digits: string |
      token == REFRESH_PREFIX + (r.handle + ['_'] + digits) && Readable(r.handle)
      && digits != "" && AllDigits(digits) && Value(digits) == r.revision
      ensures ReadRefresh(token) == Some(r)
    {
      assert token[|REFRESH_PREFIX|..] == r.handle + ['_'] + digits;
      MatchMeansSplit(r.handle + ['_'] + digits, Capture(r.handle, digits));
    }
  }

  /** Different handle and revision pairs never share a token text, for any handles at all. */
  lemma {:induction false} MintingIsInjective(h: string, m: nat, k: string, n: nat)
    requires MintRefresh(h, m) == MintRefresh(k, n) || MintAccess(h, m) == MintAccess(k, n)
    ensures h == k && m == n
  {
    var left := h + ['_'] + Decimal(m);
    var right := k + ['_'] + Decimal(n);
    if MintRefresh(h, m) == MintRefresh(k, n) {
      assert left == MintRefresh(h, m)[|REFRESH_PREFIX|..];
      assert right == MintRefresh(k, n)[|REFRESH_PREFIX|..];
    } else {
      assert left == MintAccess(h, m)[|ACCESS_PREFIX|..];
      assert right == MintAccess(k, n)[|ACCESS_PREFIX|..];
    }
    LastSplitIsUnique(h, Decimal(m), k, Decimal(n), '_');
    DecimalIsInjective(m, n);
  }
}
