/**
 * Sequences of credential-store calls, and what holds after any of them.
 */
module AuthTraces {
  import opened Wrappers
  import opened Auth

  /** One call into the credential store. */
  datatype Call = SetTokenCall(data: DataInfo, now: int) | RemoveTokenCall

  /** The state after one call. */
  function Step(s: Store, c: Call): Store
  {
    match c
    case SetTokenCall(d, now) => AfterSetToken(s, d, now)
    case RemoveTokenCall => AfterRemoveToken(s)
  }

  /** The state after the calls, first to last. */
  function Run(s: Store, calls: seq<Call>): Store
    decreases |calls|
  {
    if calls == [] then s else Run(Step(s, calls[0]), calls[1..])
  }

  /** Running one more call is running the calls and then that call. */
  lemma {:induction false} RunSnoc(s: Store, calls: seq<Call>, c: Call)
    ensures Run(s, calls + [c]) == Step(Run(s, calls), c)
    decreases |calls|
  {
    if calls == [] {
      assert calls + [c] == [c];
    } else {
      assert (calls + [c])[1..] == calls[1..] + [c];
      RunSnoc(Step(s, calls[0]), calls[1..], c);
    }
  }

  /** Whatever came before, logging out leaves `getToken` with nothing. */
  lemma LogoutForgetsCredentials(s: Store, calls: seq<Call>)
    ensures ReadToken(Run(s, calls + [RemoveTokenCall])) == None
  {
    RunSnoc(s, calls, RemoveTokenCall);
    RemoveThenGet(Run(s, calls));
  }

  /**
   * Whatever came before, a `setToken` without a usable identity right after logging out
   * writes the empty identity: the logout wiped the record the back-fill would have read.
   */
  lemma RefreshAfterLogoutForgetsIdentity(s: Store, calls: seq<Call>, d: DataInfo, now: int)
    requires !Supplied(d)
    ensures var t := Run(s, calls + [RemoveTokenCall, SetTokenCall(d, now)]);
            t.user == Identity("", []) &&
            t.session == map[SessionKey := UserInfo(d.refreshToken, d.expires, Some(""), Some([]))]
  {
    assert calls + [RemoveTokenCall, SetTokenCall(d, now)] == (calls + [RemoveTokenCall]) + [SetTokenCall(d, now)];
    RunSnoc(s, calls + [RemoveTokenCall], SetTokenCall(d, now));
    RunSnoc(s, calls, RemoveTokenCall);
    var loggedOut := Run(s, calls + [RemoveTokenCall]);
    assert |loggedOut.session| == 0;
    assert loggedOut.session == map[];
  }

  /** Whatever came before, `getToken` yields the cookie record of the latest `setToken`. */
  lemma LatestSetTokenWins(s: Store, calls: seq<Call>, d: DataInfo, now: int)
    ensures ReadToken(Run(s, calls + [SetTokenCall(d, now)])) ==
              Some(FromCookie(CookieRecord(d.accessToken, d.expires)))
  {
    RunSnoc(s, calls, SetTokenCall(d, now));
    SetThenGet(Run(s, calls), d, now);
  }

  /**
   * The user store agrees with the `user-info` record whenever that record is one
   * `setToken` could have written.
   */
  predicate SinkInSync(s: Store)
  {
    SessionKey in s.session && s.session[SessionKey].UserInfo? ==>
      s.session[SessionKey].username == Some(s.user.username) &&
      s.session[SessionKey].roles == Some(s.user.roles)
  }

  /** A fresh context is in sync, vacuously. */
  lemma InitialInSync()
    ensures SinkInSync(Initial())
  {
  }

  /** Any sequence of calls keeps the user store in sync with the session record. */
  lemma {:induction false} RunKeepsSinkInSync(s: Store, calls: seq<Call>)
    requires SinkInSync(s)
    ensures SinkInSync(Run(s, calls))
    decreases |calls|
  {
    if calls != [] {
      RunKeepsSinkInSync(Step(s, calls[0]), calls[1..]);
    }
  }

  /** A call that only refreshes tokens: `setToken` without a usable identity. */
  predicate IsRefresh(c: Call)
  {
    c.SetTokenCall? && !Supplied(c.data)
  }

  /** The signed-in identity as recorded in session storage. */
  predicate RecordsIdentity(s: Store, id: Identity)
  {
    SessionKey in s.session && s.session[SessionKey].UserInfo? &&
    s.session[SessionKey].username == Some(id.username) &&
    s.session[SessionKey].roles == Some(id.roles)
  }

  /**
   * Once a session record holds an identity, any number of token refreshes keep it, both
   * in the record and in the user store.
   */
  lemma {:induction false} RefreshesKeepIdentity(s: Store, calls: seq<Call>, id: Identity)
    requires RecordsIdentity(s, id)
    requires forall i :: 0 <= i < |calls| ==> IsRefresh(calls[i])
    ensures RecordsIdentity(Run(s, calls), id)
    ensures calls != [] ==> Run(s, calls).user == id
    decreases |calls|
  {
    if calls != [] {
      var t := Step(s, calls[0]);
      assert t.user == id;
      RefreshesKeepIdentity(t, calls[1..], id);
    }
  }

  /** Session keys other than `user-info` survive any sequence of `setToken` calls. */
  lemma {:induction false} SetTokenKeepsOtherSessionKeys(s: Store, calls: seq<Call>, k: string)
    requires k != SessionKey
    requires forall i :: 0 <= i < |calls| ==> calls[i].SetTokenCall?
    ensures Lookup(Run(s, calls).session, k) == Lookup(s.session, k)
    decreases |calls|
  {
    if calls != [] {
      SetTokenKeepsOtherSessionKeys(Step(s, calls[0]), calls[1..], k);
    }
  }

  /** Cookies other than `authorized-token` survive any sequence of calls. */
  lemma {:induction false} OtherCookiesSurvive(s: Store, calls: seq<Call>, k: string)
    requires k != TokenKey
    ensures Lookup(Run(s, calls).cookies, k) == Lookup(s.cookies, k)
    decreases |calls|
  {
    if calls != [] {
      OtherCookiesSurvive(Step(s, calls[0]), calls[1..], k);
    }
  }
}
