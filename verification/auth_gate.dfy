/**
 * The authorization gate `checkAuth` of src/utils/auth.ts, as pure decisions.
 *
 * The request to the remote authority and its asynchronous continuation are replaced by
 * a parameter: the way the request settled. The functions say whether a request is issued
 * and where, if anywhere, navigation is redirected.
 */
module AuthGate {
  import opened Wrappers

  /** The endpoint the gate asks. */
  const CheckAuthPath: string := "/check-auth"
  /** Where an explicit denial sends the navigation. */
  const ForbiddenPath: string := "/error/403"

  /** The two route metadata flags the gate reads; either may be missing. */
  datatype RouteMeta = RouteMeta(requiresRoles: Option<bool>, requiresAuth: Option<bool>)

  /** A navigation target; its metadata may be missing altogether. */
  datatype Route = Route(meta: Option<RouteMeta>)

  /** The body of the authority's answer. */
  datatype AuthResponse = AuthResponse(success: bool, data: bool)

  /** How the request settled: with an answer, or with a transport fault. */
  datatype Outcome = Resolved(response: AuthResponse) | Faulted

  /** The observable effects of one `checkAuth` call. */
  datatype Effects = Effects(requests: seq<string>, redirect: Option<string>)

  /** A flag read through optional chaining is truthy only when it is present and true. */
  predicate Truthy(flag: Option<bool>)
    ensures Truthy(flag) ==> flag.Some? && flag.value
    ensures flag == Some(true) ==> Truthy(flag)
  {
    flag == Some(true)
  }

  /** `to.meta?.requiresRoles || to.meta?.requiresAuth`. */
  predicate NeedsCheck(to: Route)
    ensures to.meta.None? ==> !NeedsCheck(to)
    ensures to.meta.Some? && to.meta.value.requiresRoles == Some(true) ==> NeedsCheck(to)
    ensures to.meta.Some? && to.meta.value.requiresAuth == Some(true) ==> NeedsCheck(to)
    ensures NeedsCheck(to) ==>
              to.meta.value.requiresRoles == Some(true) || to.meta.value.requiresAuth == Some(true)
  {
    to.meta.Some? && (Truthy(to.meta.value.requiresRoles) || Truthy(to.meta.value.requiresAuth))
  }

  /**
   * The continuation run once the request settles: only an explicit `data: false` answer
   * redirects, to the forbidden page; `success` is not consulted and a fault is swallowed.
   */
  function OnSettled(outcome: Outcome): (redirect: Option<string>)
    ensures redirect.Some? <==> outcome.Resolved? && !outcome.response.data
    ensures redirect.Some? ==> redirect.value == ForbiddenPath
  {
    match outcome
    case Resolved(response) => if !response.data then Some(ForbiddenPath) else None
    case Faulted => None
  }

  /**
   * `checkAuth(to, next)` when its request, if issued, settles as `outcome`: at most one
   * request, issued exactly when the route asks for it; a redirect only after a request.
   */
  function CheckAuth(to: Route, outcome: Outcome): (e: Effects)
    ensures NeedsCheck(to) ==> e.requests == [CheckAuthPath]
    ensures !NeedsCheck(to) ==> e.requests == []
    ensures e.redirect.Some? <==> NeedsCheck(to) && outcome.Resolved? && !outcome.response.data
    ensures e.redirect.Some? ==> e.redirect.value == ForbiddenPath
  {
    if NeedsCheck(to) then Effects([CheckAuthPath], OnSettled(outcome)) else Effects([], None)
  }

  /** A route that asks for neither roles nor authentication is left alone whatever happens. */
  lemma UnguardedRouteIsIgnored(to: Route, o1: Outcome, o2: Outcome)
    requires !NeedsCheck(to)
    ensures CheckAuth(to, o1) == CheckAuth(to, o2) == Effects([], None)
  {
  }

  /** The gate fails open: a transport fault never redirects. */
  lemma FaultNeverRedirects(to: Route)
    ensures CheckAuth(to, Faulted).redirect == None
  {
  }

  /** The `success` flag of the answer has no bearing on the decision. */
  lemma SuccessFlagIgnored(to: Route, s1: bool, s2: bool, data: bool)
    ensures CheckAuth(to, Resolved(AuthResponse(s1, data))) == CheckAuth(to, Resolved(AuthResponse(s2, data)))
  {
  }
}
