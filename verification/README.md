# Credential store and authorization gate of `src/utils/auth.ts`

This project models the client-side credential handling of the admin front end in Dafny:

- `getToken` reads the `authorized-token` cookie and falls back to the `user-info` record in session storage.
- `setToken` writes both tiers. When no usable identity is supplied, it back-fills `username`/`roles` from the previous session record. It then pushes the identity to the user store.
- `removeToken` deletes the token cookie and clears all of session storage.
- `formatToken` builds the bearer header.
- `checkAuth` decides whether to ask `/check-auth` and whether to redirect to `/error/403`.

Layout:

- `wrappers.dfy`: module `Wrappers`. `Option` (JavaScript's `undefined`) and `Lookup` (a storage `getItem`).
- `auth.dfy`: module `Auth`.
  - The state is three parts: the cookie jar, session storage and the user store's `username`/`roles`. The datatype `Store` holds all three.
  - Pure functions give the effect of each operation (`ReadToken`, `AfterSetToken`, `AfterRemoveToken`).
  - Class `AuthStorage` keeps the same state in mutable fields. Its methods `GetToken`, `SetToken` (with `SetSessionKey`) and `RemoveToken` work step by step, as the source does, and are proved equal to those functions.
- `auth_gate.dfy`: module `AuthGate`. The gating condition and the deny decision of `checkAuth`, as pure functions of the route and of how the request settled.
- `auth_traces.dfy`: module `AuthTraces`. Arbitrary sequences of `setToken`/`removeToken` calls, with properties proved by induction over them.

Modelling choices:

- Timestamps are integers in epoch milliseconds. `now` is a parameter.
- The cookie's time-to-live is kept in whole milliseconds (`expires - now`). It is present exactly when `expires > 0`.
- The cookie stores the record itself instead of its JSON text.
- Truthiness at `src/utils/auth.ts:53` is modelled exactly (`Auth.Supplied`):
  - an empty-string username counts as missing;
  - an empty roles array counts as present.
- `??` at lines 58 and 60 replaces only a missing value. A stored empty username therefore stays `""`.
- The two back-fill reads at lines 58 and 60 read the same, unchanged value. The method reads it once per field, as the source does.

Two details of the code that the model keeps:

- The stored expiry field is named `expires`, both in the cookie record (line 34) and in the session record (line 47).
- The identity guard at line 53 tests truthiness, not presence. An empty username therefore falls back to the stored record.

## Model

| member | source | states |
|---|---|---|
| `Auth.ReadToken` | src/utils/auth.ts:22-28 | the cookie tier wins whenever the token cookie exists; otherwise the stored `user-info` value is returned; nothing is returned exactly when both are absent |
| `Auth.AuthStorage.GetToken` | src/utils/auth.ts:23-28 | the method's result is the tier choice `ReadToken` of the current state |
| `Auth.TokenCookie` | src/utils/auth.ts:31-40 | the cookie holds exactly `{accessToken, expires}` of the input; it has a time-to-live iff `expires > 0`, and that time-to-live is `expires - now` |
| `Auth.Supplied` | src/utils/auth.ts:53 | the guard holds only with a username and roles both present; an empty-string username fails it; any non-empty username with any roles array, even `[]`, passes |
| `Auth.PreviousUsername` | src/utils/auth.ts:57-58 | `?.username` on the stored value: missing when nothing or a non-record is stored, otherwise the record's own (possibly missing) username |
| `Auth.PreviousRoles` | src/utils/auth.ts:59-60 | `?.roles` on the stored value: missing when nothing or a non-record is stored, otherwise the record's own (possibly missing) roles |
| `Auth.ResolveIdentity` | src/utils/auth.ts:53-61 | a truthy username plus roles are used as given; otherwise each field comes from the previous record, `""`/`[]` when that record or field is missing |
| `Auth.UserInfoFor` | src/utils/auth.ts:45-50 | the written record carries the call's refresh token and expiry, and a later back-fill reads back exactly the identity written |
| `Auth.AfterSetToken` | src/utils/auth.ts:30-63 | the token cookie is replaced, other cookies untouched; `user-info` is replaced whole by `{refreshToken, expires, username, roles}`, other session keys untouched; the sink gets the record's identity |
| `Auth.AuthStorage.SetSessionKey` | src/utils/auth.ts:42-51 | the sink's username/roles become the arguments and `user-info` is overwritten with them; the cookies are unchanged |
| `Auth.AuthStorage.SetToken` | src/utils/auth.ts:30-63 | the new state of cookies, session and sink is `AfterSetToken` of the old state |
| `Auth.AfterRemoveToken` | src/utils/auth.ts:65-69 | the token cookie is gone and other cookies stay; session storage is empty; the user store is not reset |
| `Auth.AuthStorage.RemoveToken` | src/utils/auth.ts:66-69 | the new state is `AfterRemoveToken` of the old state |
| `Auth.FormatToken` | src/utils/auth.ts:71-74 | the header is `Bearer ` followed by exactly the token |
| `Auth.TokenOfHeader` | src/utils/auth.ts:72-74 | the inverse of `FormatToken`: defined exactly on bearer headers, and formatting its result gives the header back |
| `Auth.HeaderRoundTrip` | src/utils/auth.ts:72-74 | parsing a formatted header yields the original token |
| `Auth.FormatTokenInjective` | src/utils/auth.ts:72-74 | different tokens give different headers |
| `Auth.SetThenGet` | src/utils/auth.ts:23-40 | right after `setToken(d)`, `getToken` returns `{d.accessToken, d.expires}` from the cookie |
| `Auth.SetThenEvictThenGet` | src/utils/auth.ts:23-50 | if the token cookie then disappears, `getToken` returns the session record just written, refresh token included |
| `Auth.RemoveThenGet` | src/utils/auth.ts:66-69 | after `removeToken`, `getToken` returns nothing; `removeToken` is idempotent |
| `Auth.EmptyUsernameIsAbsent` | src/utils/auth.ts:53 | an empty-string username behaves exactly like a missing one |
| `Auth.EmptyRolesArePresent` | src/utils/auth.ts:53-55 | a non-empty username with an empty roles array is written as given |
| `Auth.BackfillFromPreviousRecord` | src/utils/auth.ts:56-61 | with no identity supplied over a stored `alice`/`["admin"]` record, the sink and the new record get `alice`/`["admin"]` |
| `Auth.BackfillWithoutRecord` | src/utils/auth.ts:56-61 | with no identity supplied and no stored record, the sink gets `""` and `[]` |
| `AuthGate.Truthy` | src/utils/auth.ts:82 | an optionally chained flag is truthy exactly when it is present and `true` |
| `AuthGate.NeedsCheck` | src/utils/auth.ts:82 | no metadata means no check; either flag being `true` means a check; a check implies one of the flags is `true` |
| `AuthGate.OnSettled` | src/utils/auth.ts:84-92 | a redirect happens iff the request resolved with `data` false, and it goes to `/error/403`; a transport fault never redirects |
| `AuthGate.CheckAuth` | src/utils/auth.ts:81-94 | one request to `/check-auth` iff `requiresRoles` or `requiresAuth` is truthy, none otherwise; a redirect to `/error/403` iff a request was made and it answered `data: false` |
| `AuthGate.UnguardedRouteIsIgnored` | src/utils/auth.ts:82 | an unflagged route causes no request and no redirect, whatever the outcome |
| `AuthGate.FaultNeverRedirects` | src/utils/auth.ts:90-92 | the gate fails open on transport faults |
| `AuthGate.SuccessFlagIgnored` | src/utils/auth.ts:86 | the response's `success` field does not influence the decision |
| `AuthTraces.LogoutForgetsCredentials` | src/utils/auth.ts:66-69 | after any call sequence ending in `removeToken`, `getToken` returns nothing |
| `AuthTraces.LatestSetTokenWins` | src/utils/auth.ts:30-40 | after any call sequence ending in `setToken(d)`, `getToken` returns `d`'s cookie record |
| `AuthTraces.RefreshAfterLogoutForgetsIdentity` | src/utils/auth.ts:56-69 | after any calls, a logout followed by a `setToken` without a usable identity leaves session storage holding only a `user-info` record with `""`/`[]`, and the sink gets `""`/`[]` |
| `AuthTraces.RunKeepsSinkInSync` | src/utils/auth.ts:42-50 | every call sequence keeps the user store equal to the identity in the `user-info` record |
| `AuthTraces.RefreshesKeepIdentity` | src/utils/auth.ts:56-61 | any number of `setToken` calls without a usable identity keep the stored identity, in the record and in the sink |
| `AuthTraces.SetTokenKeepsOtherSessionKeys` | src/utils/auth.ts:45-50 | session keys other than `user-info` survive any sequence of `setToken` calls |
| `AuthTraces.OtherCookiesSurvive` | src/utils/auth.ts:67 | cookies other than `authorized-token` survive any call sequence |

## Left out

- The cookie library and session-storage internals are not modelled. The cookie jar and session storage are in-memory maps.
- JSON serialisation is not modelled. The cookie holds the record itself, so the fault when a malformed cookie is parsed is not modelled.
- A cookie whose value is the empty string (falsy at line 25) cannot arise in the model, because the record is stored directly.
- The date conversion `new Date(...).getTime()` and `Date.now()` are not modelled. `expires` and `now` are integer inputs, so an invalid date (NaN) is not modelled.
- `Auth.TokenCookie`: the time-to-live is `expires - now` in whole milliseconds, not the fractional-day value `/ 86400000` (floating point).
- The browser's eviction of an expired cookie is not modelled. A non-positive time-to-live is kept in the cookie rather than dropping it. `Auth.SetThenEvictThenGet` states what reading gives once the cookie is gone.
- `Auth.SetThenGet`: holds in the model for every `expires`, but when `0 < expires <= now` the cookie is written with an expiry date in the past, the browser drops it at once, and the real `getToken` falls back to the session record.
- `AuthTraces.LatestSetTokenWins`: the same restriction; the cookie read back is only there in the browser when `expires <= 0` or `expires > now`.
- The user store (Pinia) is modelled only through its `username` and `roles` fields.
- The HTTP request of `checkAuth` is not modelled. Its asynchronous continuation, the `console.error` on failure and the router callback `next` are not modelled either. The way the request settles is a parameter, and the redirect is a returned value.
