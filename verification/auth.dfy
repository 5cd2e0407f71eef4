/**
 * The client-side credential store of src/utils/auth.ts.
 *
 * Three pieces of browser-global state are involved:
 *  - the cookie jar, where the durable record `{accessToken, expires}` lives under
 *    `authorized-token`, with an optional time-to-live;
 *  - session storage, a key/value map holding the `user-info` record
 *    `{refreshToken, expires, username, roles}` beside any other keys;
 *  - the user store (the identity sink), of which only `username` and `roles` matter here.
 *
 * The pure functions below describe what each operation does to that state; the class
 * `AuthStorage` performs the same operations step by step on mutable fields and is proved
 * to agree with them.
 */
module Auth {
  import opened Wrappers

  /** Session-storage key of the `user-info` record. */
  const SessionKey: string := "user-info"
  /** Cookie name of the durable token record. */
  const TokenKey: string := "authorized-token"
  /** Scheme prefix of an `Authorization` header value. */
  const BearerScheme: string := "Bearer "

  /**
   * What a caller hands to `setToken`. `expires` is already the epoch-millisecond value of
   * the caller's date; `username` and `roles` may be left out.
   */
  datatype DataInfo = DataInfo(
    accessToken: string,
    expires: int,
    refreshToken: string,
    username: Option<string>,
    roles: Option<seq<string>>)

  /** The durable record stored in the `authorized-token` cookie. */
  datatype CookieRecord = CookieRecord(accessToken: string, expires: int)

  /** A cookie: its record and, when one was given, its time-to-live in milliseconds. */
  datatype Cookie = Cookie(record: CookieRecord, ttl: Option<int>)

  /**
   * A value held in session storage. `UserInfo` is a record of the `user-info` shape whose
   * identity fields may be missing; `Other` is any value that is not such a record.
   */
  datatype SessionValue =
    | UserInfo(refreshToken: string, expires: int, username: Option<string>, roles: Option<seq<string>>)
    | Other(text: string)

  /** What the user store holds about the signed-in user. */
  datatype Identity = Identity(username: string, roles: seq<string>)

  /** The whole state the credential store touches. */
  datatype Store = Store(cookies: map<string, Cookie>, session: map<string, SessionValue>, user: Identity)

  /** What `getToken` returns: the parsed cookie record, or the session value as stored. */
  datatype Token = FromCookie(cookie: CookieRecord) | FromSession(entry: SessionValue)

  /** A fresh browser context: no cookies, empty session storage, an empty user store. */
  function Initial(): Store
  {
    Store(map[], map[], Identity("", []))
  }

  // ---------------------------------------------------------------------------------
  // getToken
  // ---------------------------------------------------------------------------------

  /** The read choice of `getToken`: the cookie tier wins, session storage is the fallback. */
  function ReadToken(s: Store): (r: Option<Token>)
    ensures r.None? <==> TokenKey !in s.cookies && SessionKey !in s.session
    ensures (r.Some? && r.value.FromCookie?) <==> TokenKey in s.cookies
    ensures TokenKey in s.cookies ==> r.value.cookie == s.cookies[TokenKey].record
    ensures TokenKey !in s.cookies && SessionKey in s.session ==>
              r == Some(FromSession(s.session[SessionKey]))
  {
    if TokenKey in s.cookies then Some(FromCookie(s.cookies[TokenKey].record))
    else if SessionKey in s.session then Some(FromSession(s.session[SessionKey]))
    else None
  }

  // ---------------------------------------------------------------------------------
  // setToken
  // ---------------------------------------------------------------------------------

  /** The cookie `setToken` writes at time `now`: it expires only when `expires` is positive. */
  function TokenCookie(d: DataInfo, now: int): (c: Cookie)
    ensures c.record.accessToken == d.accessToken && c.record.expires == d.expires
    ensures c.ttl.Some? <==> d.expires > 0
    ensures c.ttl.Some? ==> c.ttl.value == d.expires - now
  {
    var record := CookieRecord(d.accessToken, d.expires);
    if d.expires > 0 then Cookie(record, Some(d.expires - now)) else Cookie(record, None)
  }

  /**
   * The guard `data.username && data.roles`: a username that is absent or the empty
   * string is falsy; any roles array, even an empty one, is truthy.
   */
  predicate Supplied(d: DataInfo)
    ensures Supplied(d) ==> d.username.Some? && d.roles.Some?
    ensures d.username == Some("") ==> !Supplied(d)
    ensures d.username.Some? && d.username.value != "" && d.roles.Some? ==> Supplied(d)
  {
    d.username.Some? && d.username.value != "" && d.roles.Some?
  }

  /** `getItem(sessionKey)?.username`: absent unless a record with a username is stored. */
  function PreviousUsername(prev: Option<SessionValue>): (r: Option<string>)
    ensures prev.None? || prev.value.Other? ==> r.None?
    ensures prev.Some? && prev.value.UserInfo? ==> r == prev.value.username
  {
    if prev.Some? && prev.value.UserInfo? then prev.value.username else None
  }

  /** `getItem(sessionKey)?.roles`: absent unless a record with roles is stored. */
  function PreviousRoles(prev: Option<SessionValue>): (r: Option<seq<string>>)
    ensures prev.None? || prev.value.Other? ==> r.None?
    ensures prev.Some? && prev.value.UserInfo? ==> r == prev.value.roles
  {
    if prev.Some? && prev.value.UserInfo? then prev.value.roles else None
  }

  /**
   * The identity `setToken` writes, given the session value `prev` stored before the call:
   * the caller's identity when supplied, otherwise the previous record's fields, each
   * defaulting on its own to "" or [].
   */
  function ResolveIdentity(d: DataInfo, prev: Option<SessionValue>): (id: Identity)
    ensures Supplied(d) ==> id.username == d.username.value && id.roles == d.roles.value
    ensures !Supplied(d) && PreviousUsername(prev).Some? ==> id.username == PreviousUsername(prev).value
    ensures !Supplied(d) && PreviousUsername(prev).None? ==> id.username == ""
    ensures !Supplied(d) && PreviousRoles(prev).Some? ==> id.roles == PreviousRoles(prev).value
    ensures !Supplied(d) && PreviousRoles(prev).None? ==> id.roles == []
  {
    if Supplied(d) then Identity(d.username.value, d.roles.value)
    else Identity(PreviousUsername(prev).GetOr(""), PreviousRoles(prev).GetOr([]))
  }

  /**
   * The session record `setSessionKey` stores for identity `id`: it carries the refresh
   * token and expiry of `d`, and a later back-fill reads exactly `id` out of it.
   */
  function UserInfoFor(d: DataInfo, id: Identity): (v: SessionValue)
    ensures v.UserInfo? && v.refreshToken == d.refreshToken && v.expires == d.expires
    ensures PreviousUsername(Some(v)) == Some(id.username)
    ensures PreviousRoles(Some(v)) == Some(id.roles)
  {
    UserInfo(d.refreshToken, d.expires, Some(id.username), Some(id.roles))
  }

  /**
   * The state after `setToken(d)` at time `now`: both tiers are written, the `user-info`
   * record is replaced as a whole, and the sink receives the identity the record holds.
   */
  function AfterSetToken(s: Store, d: DataInfo, now: int): (t: Store)
    ensures TokenKey in t.cookies && t.cookies[TokenKey] == TokenCookie(d, now)
    ensures forall k :: k != TokenKey ==> Lookup(t.cookies, k) == Lookup(s.cookies, k)
    ensures t.user == ResolveIdentity(d, Lookup(s.session, SessionKey))
    ensures SessionKey in t.session
    ensures t.session[SessionKey] ==
              UserInfo(d.refreshToken, d.expires, Some(t.user.username), Some(t.user.roles))
    ensures forall k :: k != SessionKey ==> Lookup(t.session, k) == Lookup(s.session, k)
  {
    var id := ResolveIdentity(d, Lookup(s.session, SessionKey));
    Store(s.cookies[TokenKey := TokenCookie(d, now)], s.session[SessionKey := UserInfoFor(d, id)], id)
  }

  // ---------------------------------------------------------------------------------
  // removeToken
  // ---------------------------------------------------------------------------------

  /**
   * The state after `removeToken()`: only the token cookie goes, but the whole of session
   * storage is cleared; the user store is not touched.
   */
  function AfterRemoveToken(s: Store): (t: Store)
    ensures TokenKey !in t.cookies
    ensures forall k :: k != TokenKey ==> Lookup(t.cookies, k) == Lookup(s.cookies, k)
    ensures |t.session| == 0
    ensures t.user == s.user
  {
    Store(s.cookies - {TokenKey}, map[], s.user)
  }

  // ---------------------------------------------------------------------------------
  // formatToken
  // ---------------------------------------------------------------------------------

  /** The `Authorization` header value for `token`: the bearer scheme, then the token. */
  function FormatToken(token: string): (h: string)
    ensures |h| == |BearerScheme| + |token|
    ensures BearerScheme <= h
    ensures h[|BearerScheme|..] == token
  {
    BearerScheme + token
  }

  /** The token carried by a bearer header, or nothing when `h` has another scheme. */
  function TokenOfHeader(h: string): (r: Option<string>)
    ensures r.Some? <==> BearerScheme <= h
    ensures r.Some? ==> FormatToken(r.value) == h
  {
    if BearerScheme <= h then Some(h[|BearerScheme|..]) else None
  }

  /** Every header `FormatToken` builds gives back its token. */
  lemma HeaderRoundTrip(token: string)
    ensures TokenOfHeader(FormatToken(token)) == Some(token)
  {
  }

  /** Distinct tokens give distinct headers. */
  lemma FormatTokenInjective(a: string, b: string)
    ensures FormatToken(a) == FormatToken(b) ==> a == b
  {
  }

  // ---------------------------------------------------------------------------------
  // Properties of single operations
  // ---------------------------------------------------------------------------------

  /** Right after `setToken(d)`, `getToken` yields the cookie record of `d`. */
  lemma SetThenGet(s: Store, d: DataInfo, now: int)
    ensures ReadToken(AfterSetToken(s, d, now)) == Some(FromCookie(CookieRecord(d.accessToken, d.expires)))
  {
  }

  /**
   * Once the token cookie is gone (evicted by the browser after its time-to-live), `getToken`
   * falls back to the session record `setToken` wrote, which carries the refresh token.
   */
  lemma SetThenEvictThenGet(s: Store, d: DataInfo, now: int)
    ensures var t := AfterSetToken(s, d, now);
            ReadToken(t.(cookies := t.cookies - {TokenKey})) ==
              Some(FromSession(UserInfo(d.refreshToken, d.expires, Some(t.user.username), Some(t.user.roles))))
  {
  }

  /** After `removeToken()` nothing is found on either tier, and a second call changes nothing. */
  lemma RemoveThenGet(s: Store)
    ensures ReadToken(AfterRemoveToken(s)) == None
    ensures AfterRemoveToken(AfterRemoveToken(s)) == AfterRemoveToken(s)
  {
  }

  /** An empty-string username is falsy: it is treated exactly as a missing one. */
  lemma EmptyUsernameIsAbsent(d: DataInfo, prev: Option<SessionValue>)
    requires d.username == Some("")
    ensures ResolveIdentity(d, prev) == ResolveIdentity(d.(username := None), prev)
  {
  }

  /** An empty roles array is truthy: with a non-empty username it is written as given. */
  lemma EmptyRolesArePresent(d: DataInfo, prev: Option<SessionValue>)
    requires d.username.Some? && d.username.value != "" && d.roles == Some([])
    ensures ResolveIdentity(d, prev) == Identity(d.username.value, [])
  {
  }

  /**
   * Refreshing without an identity over a stored `alice`/`["admin"]` record pushes
   * `alice`/`["admin"]` to the sink and keeps them in the new record.
   */
  lemma BackfillFromPreviousRecord(s: Store, d: DataInfo, now: int)
    requires d.username.None? && d.roles.None?
    requires SessionKey in s.session
    requires s.session[SessionKey] == UserInfo("old-refresh", 1, Some("alice"), Some(["admin"]))
    ensures AfterSetToken(s, d, now).user == Identity("alice", ["admin"])
    ensures AfterSetToken(s, d, now).session[SessionKey] ==
              UserInfo(d.refreshToken, d.expires, Some("alice"), Some(["admin"]))
  {
  }

  /** Refreshing without an identity and without a stored record writes "" and []. */
  lemma BackfillWithoutRecord(s: Store, d: DataInfo, now: int)
    requires !Supplied(d)
    requires SessionKey !in s.session
    ensures AfterSetToken(s, d, now).user == Identity("", [])
  {
  }

  // ---------------------------------------------------------------------------------
  // The mutable store
  // ---------------------------------------------------------------------------------

  /** The browser-global state as mutable fields, with the operations of auth.ts as methods. */
  class AuthStorage {
    /** The cookie jar. */
    var cookies: map<string, Cookie>
    /** Session storage. */
    var session: map<string, SessionValue>
    /** The user store's `username`. */
    var username: string
    /** The user store's `roles`. */
    var roles: seq<string>

    /** The abstract value of the fields. */
    function State(): Store
      reads this
    {
      Store(cookies, session, Identity(username, roles))
    }

    /** A fresh browser context. */
    constructor ()
      ensures State() == Initial()
    {
      cookies := map[];
      session := map[];
      username := "";
      roles := [];
    }

    /** `getToken()`: the cookie record if the token cookie is set, else the session record. */
    method GetToken() returns (r: Option<Token>)
      ensures r == ReadToken(State())
    {
      if TokenKey in cookies {
        r := Some(FromCookie(cookies[TokenKey].record));
      } else {
        var stored := Lookup(session, SessionKey);
        if stored.Some? {
          r := Some(FromSession(stored.value));
        } else {
          r := None;
        }
      }
    }

    /**
     * `setSessionKey(name, rs)`, the inner helper of `setToken`: pushes the identity to the
     * user store and overwrites the `user-info` record with it, leaving the cookies alone.
     */
    method SetSessionKey(refreshToken: string, expires: int, name: string, rs: seq<string>)
      modifies this
      ensures username == name && roles == rs
      ensures session == old(session)[SessionKey := UserInfo(refreshToken, expires, Some(name), Some(rs))]
      ensures cookies == old(cookies)
    {
      username := name;
      roles := rs;
      session := session[SessionKey := UserInfo(refreshToken, expires, Some(name), Some(rs))];
    }

    /** `setToken(data)` at time `now`: writes the cookie, resolves the identity, stores the record. */
    method SetToken(data: DataInfo, now: int)
      modifies this
      ensures State() == AfterSetToken(old(State()), data, now)
    {
      var expires := data.expires;
      var record := CookieRecord(data.accessToken, expires);
      if expires > 0 {
        cookies := cookies[TokenKey := Cookie(record, Some(expires - now))];
      } else {
        cookies := cookies[TokenKey := Cookie(record, None)];
      }
      if Supplied(data) {
        SetSessionKey(data.refreshToken, expires, data.username.value, data.roles.value);
      } else {
        var name := PreviousUsername(Lookup(session, SessionKey)).GetOr("");
        var rs := PreviousRoles(Lookup(session, SessionKey)).GetOr([]);
        SetSessionKey(data.refreshToken, expires, name, rs);
      }
    }

    /** `removeToken()`: deletes the token cookie and clears all of session storage. */
    method RemoveToken()
      modifies this
      ensures State() == AfterRemoveToken(old(State()))
    {
      cookies := cookies - {TokenKey};
      session := map[];
    }
  }
}
