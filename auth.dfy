/**
 * The Supabase sign-in helpers of auth.js: the parser for the URL fragment the OAuth
 * redirect carries (section 4.2.2 of RFC 6749, implicit grant), the session built from it,
 * the session built from a token-refresh response, and the stored-session check that
 * decides whether to refresh. The clock, the network and `chrome.storage` are inputs or
 * fields; `decodeURIComponent` is the identity here.
 */
module Auth {
  import opened Wrappers
  import opened Text
  import opened Js

  // ---- parseUrlHash ----

  /** `new URL(url).hash?.slice(1) || ""`: the fragment without its leading `#`. */
  function Fragment(hash: string): string {
    if hash == [] then "" else hash[1..]
  }

  /** `.filter(Boolean)` over strings: the non-empty ones, in order. */
  function NonEmpty(parts: seq<string>): (r: seq<string>)
    ensures forall i :: 0 <= i < |r| ==> r[i] != ""
    ensures forall x :: x in r <==> x in parts && x != ""
    ensures |r| <= |parts|
    decreases |parts|
  {
    if parts == [] then []
    else if parts[0] == "" then NonEmpty(parts[1..])
    else [parts[0]] + NonEmpty(parts[1..])
  }

  /** `const [rawKey, rawValue = ""] = part.split("=")`: text before the first `=`, and
   *  the text up to the second `=` (or "" when there is no `=`). */
  function Pair(part: string): (string, string) {
    var pieces := Split(part, '=');
    (pieces[0], if |pieces| >= 2 then pieces[1] else "")
  }

  /** `new Map(entries)`: entries inserted in order, so a later key replaces an earlier one. */
  function ToMap(entries: seq<(string, string)>): map<string, string>
    decreases |entries|
  {
    if entries == [] then map[]
    else
      var last := entries[|entries| - 1];
      ToMap(entries[..|entries| - 1])[last.0 := last.1]
  }

  /** `parseUrlHash(url)`, given the URL's `hash` property. */
  function ParseUrlHash(hash: string): map<string, string> {
    var parts := NonEmpty(Split(Fragment(hash), '&'));
    ToMap(seq(|parts|, i requires 0 <= i < |parts| => Pair(parts[i])))
  }

  /** The fragment a server writes for the given key/value pairs: `#k1=v1&k2=v2…`. */
  function EncodeFragment(entries: seq<(string, string)>): string {
    "#" + Join(Segments(entries), "&")
  }

  /** The `k=v` segments of a fragment. */
  function Segments(entries: seq<(string, string)>): (r: seq<string>)
    ensures |r| == |entries|
  {
    seq(|entries|, i requires 0 <= i < |entries| => entries[i].0 + "=" + entries[i].1)
  }

  /** Keys and values that need no escaping in a fragment. */
  predicate PlainEntries(entries: seq<(string, string)>) {
    forall i :: 0 <= i < |entries| ==>
      '&' !in entries[i].0 && '=' !in entries[i].0 && '&' !in entries[i].1 && '=' !in entries[i].1
  }

  lemma {:induction false} NonEmptyAppend(a: seq<string>, b: seq<string>)
    ensures NonEmpty(a + b) == NonEmpty(a) + NonEmpty(b)
    decreases |a|
  {
    if a == [] {
      assert a + b == b;
    } else {
      assert (a + b)[0] == a[0];
      assert (a + b)[1..] == a[1..] + b;
      NonEmptyAppend(a[1..], b);
    }
  }

  lemma {:induction false} NonEmptyKeepsAll(parts: seq<string>)
    requires forall i :: 0 <= i < |parts| ==> parts[i] != ""
    ensures NonEmpty(parts) == parts
    decreases |parts|
  {
    if parts != [] {
      NonEmptyKeepsAll(parts[1..]);
    }
  }

  /** A segment `k=v` with neither part holding `=` reads back as the pair `(k, v)`. */
  lemma PairOfKeyValue(k: string, v: string)
    requires '=' !in k && '=' !in v
    ensures Pair(k + "=" + v) == (k, v)
  {
    SplitAround(k, '=', v);
    SplitNoSep(k, '=');
    SplitNoSep(v, '=');
    assert k + "=" + v == k + ['='] + v;
  }

  /**
   * Round trip: parsing the fragment written for plain pairs gives the map in which the
   * last pair for each key wins.
   */
  lemma ParseEncoded(entries: seq<(string, string)>)
    requires PlainEntries(entries)
    ensures ParseUrlHash(EncodeFragment(entries)) == ToMap(entries)
  {
    var segs := Segments(entries);
    assert Fragment(EncodeFragment(entries)) == Join(segs, "&");
    SegmentsSplitBack(entries);
    SegmentsPairBack(entries);
  }

  /** Splitting the fragment at `&` and dropping empty pieces gives back the segments. */
  lemma SegmentsSplitBack(entries: seq<(string, string)>)
    requires PlainEntries(entries)
    ensures NonEmpty(Split(Join(Segments(entries), "&"), '&')) == Segments(entries)
  {
    var segs := Segments(entries);
    if entries == [] {
      assert Split("", '&') == [""];
    } else {
      forall i | 0 <= i < |segs|
        ensures '&' !in segs[i] && segs[i] != ""
      {
        assert segs[i] == entries[i].0 + "=" + entries[i].1;
        assert segs[i][|entries[i].0|] == '=';
      }
      SplitJoin(segs, '&');
      NonEmptyKeepsAll(segs);
    }
  }

  /** Each segment reads back as its pair. */
  lemma SegmentsPairBack(entries: seq<(string, string)>)
    requires PlainEntries(entries)
    ensures seq(|entries|, i requires 0 <= i < |entries| => Pair(Segments(entries)[i])) == entries
  {
    var segs := Segments(entries);
    var pairs := seq(|segs|, i requires 0 <= i < |segs| => Pair(segs[i]));
    forall i | 0 <= i < |segs|
      ensures pairs[i] == entries[i]
    {
      PairOfKeyValue(entries[i].0, entries[i].1);
    }
  }

  /** The last index at which `k` is a key, if any. */
  predicate IsLastKey(entries: seq<(string, string)>, k: string, i: int) {
    0 <= i < |entries| && entries[i].0 == k &&
    forall j :: i < j < |entries| ==> entries[j].0 != k
  }

  /** A key is in the map iff some entry has it, and it maps to the value of its last entry. */
  lemma LastWins(entries: seq<(string, string)>, k: string)
    ensures k in ToMap(entries) <==> exists i :: 0 <= i < |entries| && entries[i].0 == k
    ensures forall i :: IsLastKey(entries, k, i) ==> k in ToMap(entries) && ToMap(entries)[k] == entries[i].1
  {
    KeysOfToMap(entries, k);
    forall i | IsLastKey(entries, k, i)
      ensures k in ToMap(entries) && ToMap(entries)[k] == entries[i].1
    {
      LastEntryWins(entries, k, i);
    }
  }

  lemma {:induction false} KeysOfToMap(entries: seq<(string, string)>, k: string)
    ensures k in ToMap(entries) <==> exists i :: 0 <= i < |entries| && entries[i].0 == k
    decreases |entries|
  {
    if entries != [] {
      var n := |entries| - 1;
      var init := entries[..n];
      KeysOfToMap(init, k);
      if entries[n].0 != k && k in ToMap(init) {
        var i :| 0 <= i < |init| && init[i].0 == k;
        assert entries[i].0 == k;
      }
    }
  }

  lemma {:induction false} LastEntryWins(entries: seq<(string, string)>, k: string, i: int)
    requires IsLastKey(entries, k, i)
    ensures k in ToMap(entries) && ToMap(entries)[k] == entries[i].1
    decreases |entries|
  {
    var n := |entries| - 1;
    if i < n {
      var init := entries[..n];
      assert IsLastKey(init, k, i);
      LastEntryWins(init, k, i);
    }
  }

  /** Empty segments are skipped: `a&&b` parses as `a&b`. */
  lemma DoubleAmpersand(a: string, b: string)
    ensures ParseUrlHash("#" + a + "&&" + b) == ParseUrlHash("#" + a + "&" + b)
  {
    assert Fragment("#" + a + "&&" + b) == a + ['&'] + (['&'] + b);
    assert Fragment("#" + a + "&" + b) == a + ['&'] + b;
    SplitAround(a, '&', ['&'] + b);
    SplitAround(a, '&', b);
    assert Split(['&'] + b, '&') == [""] + Split(b, '&');
    NonEmptyAppend(Split(a, '&'), Split(['&'] + b, '&'));
    NonEmptyAppend([""], Split(b, '&'));
    NonEmptyAppend(Split(a, '&'), Split(b, '&'));
  }

  /** A segment without `=` is a key with the empty value; a value stops at a second `=`. */
  lemma PairQuirks(k: string, v: string, w: string)
    requires '=' !in k && '=' !in v
    ensures Pair(k) == (k, "")
    ensures Pair(k + "=" + v + "=" + w) == (k, v)
  {
    SplitNoSep(k, '=');
    SplitNoSep(v, '=');
    assert k + "=" + v + "=" + w == k + ['='] + (v + ['='] + w);
    SplitAround(k, '=', v + ['='] + w);
    SplitAround(v, '=', w);
  }

  // ---- sessions ----

  /** A stored Supabase session. `expiresIn` is `None` when `Number(...)` gave NaN;
   *  `expiresAt` is `None` for `null`; `user` is only set on a refreshed session. */
  datatype Session = Session(
    accessToken: Option<string>,
    refreshToken: Option<string>,
    tokenType: string,
    expiresIn: Option<int>,
    expiresAt: Option<int>,
    obtainedAt: int,
    user: Option<Object>)

  /** What `sessionFromRedirectUrl` returns: a session, or the "No supabase tokens found" error. */
  datatype RedirectResult = Signed(session: Session) | NoTokens

  predicate AllDigits(s: string) {
    forall i :: 0 <= i < |s| ==> '0' <= s[i] <= '9'
  }

  /**
   * `Number(s)` for a decimal integer with an optional minus sign; every other string is
   * taken as NaN (`None`).
   */
  function NumberOf(s: string): (r: Option<int>)
    ensures s != [] && AllDigits(s) ==> r == Some(DigitsValue(s))
  {
    if s != [] && AllDigits(s) then Some(DigitsValue(s))
    else if |s| >= 2 && s[0] == '-' && AllDigits(s[1..]) then Some(0 - DigitsValue(s[1..]) as int)
    else None
  }

  /** `Number(x || 0)` for a fragment field that may be absent. */
  function ExpiresIn(raw: Option<string>): Option<int> {
    if raw == None || raw == Some("") then Some(0) else NumberOf(raw.value)
  }

  /** `expires_in ? now + expires_in : null` (NaN and 0 are falsy). */
  function ExpiresAt(expiresIn: Option<int>, now: int): Option<int> {
    if expiresIn.Some? && expiresIn.value != 0 then Some(now + expiresIn.value) else None
  }

  function Lookup(m: map<string, string>, k: string): Option<string> {
    if k in m then Some(m[k]) else None
  }

  /** A string field is truthy when present and non-empty. */
  predicate Present(v: Option<string>) {
    v.Some? && v.value != ""
  }

  /** `sessionFromRedirectUrl(url)`, given the URL's hash and the current time in seconds. */
  function SessionFromRedirectUrl(hash: string, now: int): RedirectResult {
    SessionFromFields(ParseUrlHash(hash), now)
  }

  /** The session `sessionFromRedirectUrl` builds from the parsed fragment. */
  function SessionFromFields(m: map<string, string>, now: int): RedirectResult {
    var access := Lookup(m, "access_token");
    var refresh := Lookup(m, "refresh_token");
    var tokenType := Lookup(m, "token_type");
    var expiresIn := ExpiresIn(Lookup(m, "expires_in"));
    if !Present(access) || !Present(refresh) then NoTokens
    else Signed(Session(
      access, refresh,
      if Present(tokenType) then tokenType.value else "bearer",
      expiresIn, ExpiresAt(expiresIn, now), now, None))
  }

  /**
   * The redirect is refused exactly when either token is missing or empty; otherwise the
   * session carries both tokens, `bearer` unless a type is given, an expiry that is set
   * exactly when `expires_in` is a non-zero number (and is then `now + expires_in`), and
   * the time it was obtained.
   */
  lemma RedirectSessionShape(hash: string, now: int)
    ensures var m := ParseUrlHash(hash);
            var r := SessionFromRedirectUrl(hash, now);
            && (r.NoTokens? <==>
                  "access_token" !in m || m["access_token"] == "" ||
                  "refresh_token" !in m || m["refresh_token"] == "")
            && (r.Signed? ==>
                  && r.session.accessToken == Some(m["access_token"])
                  && r.session.refreshToken == Some(m["refresh_token"])
                  && r.session.tokenType ==
                       (if "token_type" in m && m["token_type"] != "" then m["token_type"] else "bearer")
                  && r.session.obtainedAt == now
                  && (r.session.expiresAt.Some? <==>
                        r.session.expiresIn.Some? && r.session.expiresIn.value != 0)
                  && (r.session.expiresAt.Some? ==>
                        r.session.expiresAt.value == now + r.session.expiresIn.value)
                  && r.session.user == None)
  {
  }

  /** A well-formed implicit-grant redirect yields a session expiring `expires_in` seconds on. */
  lemma ImplicitGrantRedirect(access: string, refresh: string, seconds: nat, now: int)
    requires access != "" && refresh != ""
    requires '&' !in access && '=' !in access && '&' !in refresh && '=' !in refresh
    requires seconds > 0
    ensures SessionFromRedirectUrl(
              EncodeFragment([("access_token", access), ("refresh_token", refresh),
                              ("expires_in", NatToString(seconds))]), now)
            == Signed(Session(Some(access), Some(refresh), "bearer", Some(seconds),
                              Some(now + seconds), now, None))
  {
    var digits := NatToString(seconds);
    GrantFragmentFields(access, refresh, digits);
    GrantFieldsSession(access, refresh, seconds, now);
  }

  /** The three implicit-grant fields, written out and parsed back. */
  lemma GrantFragmentFields(access: string, refresh: string, digits: string)
    requires '&' !in access && '=' !in access && '&' !in refresh && '=' !in refresh
    requires AllDigits(digits)
    ensures ParseUrlHash(EncodeFragment([("access_token", access), ("refresh_token", refresh),
                                         ("expires_in", digits)]))
            == map["access_token" := access, "refresh_token" := refresh, "expires_in" := digits]
  {
    var entries := [("access_token", access), ("refresh_token", refresh), ("expires_in", digits)];
    assert PlainEntries(entries);
    ParseEncoded(entries);
    var e1 := [("access_token", access)];
    var e2 := e1 + [("refresh_token", refresh)];
    assert e1[..0] == [] && e2[..1] == e1 && entries[..2] == e2;
    assert ToMap(e1) == map["access_token" := access];
    assert ToMap(e2) == map["access_token" := access, "refresh_token" := refresh];
    assert ToMap(entries) == map["access_token" := access, "refresh_token" := refresh, "expires_in" := digits];
  }

  /** The session built from the three implicit-grant fields. */
  lemma GrantFieldsSession(access: string, refresh: string, seconds: nat, now: int)
    requires access != "" && refresh != "" && seconds > 0
    ensures SessionFromFields(
              map["access_token" := access, "refresh_token" := refresh,
                  "expires_in" := NatToString(seconds)], now)
            == Signed(Session(Some(access), Some(refresh), "bearer", Some(seconds),
                              Some(now + seconds), now, None))
  {
    DigitsValueOfNatToString(seconds);
    assert ExpiresIn(Some(NatToString(seconds))) == Some(seconds);
  }

  /** The fields of a token-endpoint JSON response the refresh reads. `expiresIn` is
   *  `data.expires_in || 0` already as a number. */
  datatype TokenResponse = TokenResponse(
    accessToken: Option<string>,
    refreshToken: Option<string>,
    tokenType: Option<string>,
    expiresIn: int,
    user: Option<Object>)

  /** The session `refreshSupabaseSession(refreshToken)` returns for a successful response. */
  function RefreshedSession(data: TokenResponse, refreshToken: Option<string>, now: int): Session {
    Session(
      data.accessToken,
      if Present(data.refreshToken) then data.refreshToken else refreshToken,
      if Present(data.tokenType) then data.tokenType.value else "bearer",
      Some(data.expiresIn),
      ExpiresAt(Some(data.expiresIn), now),
      now,
      data.user)
  }

  /**
   * A refresh adopts the server's new refresh token when it sends a non-empty one and
   * keeps the old one otherwise; the token type defaults to `bearer`; the user is the
   * response's; and the new session expires `expires_in` seconds from now, or never when
   * that is 0.
   */
  lemma RefreshKeepsRotationAndExpiry(data: TokenResponse, refreshToken: Option<string>, now: int)
    ensures var s := RefreshedSession(data, refreshToken, now);
            && (s.refreshToken == refreshToken <==>
                  !Present(data.refreshToken) || data.refreshToken == refreshToken)
            && (s.expiresAt == None <==> data.expiresIn == 0)
            && (data.expiresIn != 0 ==> s.expiresAt == Some(now + data.expiresIn))
            && (Present(data.refreshToken) ==> s.refreshToken == data.refreshToken)
            && (!Present(data.refreshToken) ==> s.refreshToken == refreshToken)
            && s.tokenType == (if Present(data.tokenType) then data.tokenType.value else "bearer")
            && s.expiresIn == Some(data.expiresIn)
            && s.user == data.user
            && s.accessToken == data.accessToken
            && s.obtainedAt == now
  {
  }

  // ---- ensureValidStoredSession ----

  /** The default `leewaySeconds`. */
  const DefaultLeewaySeconds := 60

  /** The branch `ensureValidStoredSession` takes before any network call. */
  datatype Decision = NoSession | KeepCurrent | Refresh

  function Decide(session: Option<Session>, now: int, leeway: int): (d: Decision)
    ensures d == NoSession <==> session == None
  {
    if session == None then NoSession
    else if session.value.expiresAt == None || session.value.expiresAt == Some(0) then KeepCurrent
    else if session.value.expiresAt.value - now > leeway then KeepCurrent
    else Refresh
  }

  /**
   * A refresh is attempted exactly for a session with a (truthy) expiry that lies no more
   * than `leeway` seconds ahead; once due it stays due as time passes, and a larger leeway
   * only makes it due sooner.
   */
  lemma RefreshIsDueMonotonically(s: Session, now: int, later: int, leeway: int, wider: int)
    requires now <= later && leeway <= wider
    ensures Decide(Some(s), now, leeway) == Refresh <==>
              s.expiresAt.Some? && s.expiresAt.value != 0 && s.expiresAt.value - now <= leeway
    ensures Decide(Some(s), now, leeway) == Refresh ==> Decide(Some(s), later, leeway) == Refresh
    ensures Decide(Some(s), now, leeway) == Refresh ==> Decide(Some(s), now, wider) == Refresh
  {
  }

  /** The extension's `chrome.storage.local` keys `supabaseSession` and `supabaseUser`. */
  class AuthStore {
    var session: Option<Session>
    var user: Option<Object>

    constructor (session: Option<Session>, user: Option<Object>)
      ensures this.session == session && this.user == user
    {
      this.session := session;
      this.user := user;
    }

    /** `clearAuthStorage()`. */
    method Clear()
      modifies this
      ensures session == None && user == None
    {
      session := None;
      user := None;
    }

    /**
     * `ensureValidStoredSession({ leewaySeconds })`. `response` is the outcome of the
     * refresh request: `None` when it throws (a network error or a non-2xx status).
     */
    method EnsureValidStoredSession(now: int, leeway: int, response: Option<TokenResponse>)
      returns (result: Option<Session>, refreshed: bool)
      modifies this
      ensures Decide(old(session), now, leeway) != Refresh ==>
                result == old(session) && !refreshed &&
                session == old(session) && user == old(user)
      ensures Decide(old(session), now, leeway) == Refresh && response.Some? ==>
                result == Some(RefreshedSession(response.value, old(session).value.refreshToken, now)) &&
                refreshed && session == result &&
                user == (if response.value.user.Some? then response.value.user else old(user))
      ensures Decide(old(session), now, leeway) == Refresh && response.None? ==>
                result == None && !refreshed && session == None && user == None
      ensures refreshed <==> Decide(old(session), now, leeway) == Refresh && response.Some?
    {
      var d := Decide(session, now, leeway);
      if d != Refresh {
        return session, false;
      }
      if response.None? {
        Clear();
        return None, false;
      }
      var renewed := RefreshedSession(response.value, session.value.refreshToken, now);
      session := Some(renewed);
      if response.value.user.Some? {
        user := response.value.user;
      }
      return Some(renewed), true;
    }
  }
}
