/**
 * The two route guards. The public-landing guard runs before every navigation, initialises
 * the session lazily and sends anonymous visitors back to the landing page; the
 * protected-app guard keeps anonymous users on the login page and signed-in users off it.
 * A guard's answer is `None` (navigation allowed) or `Some(target)` (redirect to target).
 */
module Guards {
  import opened Wrappers
  import opened Text
  import opened Auth

  const ApiPrefix: string := "/api"
  const LoginPath: string := "/login"
  const DashboardPath: string := "/dashboard"

  /** The public-landing guard's decision for a path outside the API, once initialised. */
  function LandingDecision(path: string, authenticated: bool): (redirect: Option<string>)
    ensures path == Landing ==> redirect == None
    ensures redirect.Some? <==> path != Landing && !authenticated
    ensures redirect.Some? ==> redirect.value == Landing && redirect.value != path
  {
    if path == Landing then None
    else if !authenticated then Some(Landing)
    else None
  }

  /** The global middleware: API paths pass untouched, others initialise the session first. */
  method PublicLandingGuard(path: string, auth: AuthStore) returns (redirect: Option<string>)
    modifies auth
    ensures StartsWith(path, ApiPrefix) ==> redirect == None && auth.View() == old(auth.View())
    ensures !StartsWith(path, ApiPrefix) && old(auth.initialized) ==> auth.View() == old(auth.View())
    ensures !StartsWith(path, ApiPrefix) && !old(auth.initialized) ==>
      auth.View() == AfterInitialize(old(auth.View()), auth.isClient, auth.parseUser)
    ensures !StartsWith(path, ApiPrefix) ==>
      auth.initialized && redirect == LandingDecision(path, IsAuthenticated(auth.State()))
    ensures redirect.Some? ==> redirect.value != path
  {
    if StartsWith(path, ApiPrefix) {
      return None;
    }
    if !auth.initialized {
      auth.InitializeAuth();
    }
    if path == Landing {
      return None;
    }
    if !IsAuthenticated(auth.State()) {
      return Some(Landing);
    }
    return None;
  }

  /** The protected-app middleware. */
  function ProtectedAppGuard(path: string, s: AuthState): (redirect: Option<string>)
    ensures !IsAuthenticated(s) && path != LoginPath ==> redirect == Some(LoginPath)
    ensures IsAuthenticated(s) && path == LoginPath ==> redirect == Some(DashboardPath)
    ensures redirect.None? <==> (IsAuthenticated(s) <==> path != LoginPath)
    ensures redirect.Some? ==> redirect.value != path
  {
    if !IsAuthenticated(s) && path != LoginPath then Some(LoginPath)
    else if IsAuthenticated(s) && path == LoginPath then Some(DashboardPath)
    else None
  }

  /** Neither guard can loop: following a redirect once, the guard lets the target through. */
  lemma ProtectedRedirectSettles(path: string, s: AuthState)
    requires ProtectedAppGuard(path, s).Some?
    ensures ProtectedAppGuard(ProtectedAppGuard(path, s).value, s) == None
  {
  }

  lemma LandingRedirectSettles(path: string, authenticated: bool)
    requires LandingDecision(path, authenticated).Some?
    ensures LandingDecision(LandingDecision(path, authenticated).value, authenticated) == None
  {
  }

  /** Every API path bypasses the guard, whatever follows the prefix. */
  lemma ApiPathsBypass(rest: string)
    ensures StartsWith(ApiPrefix + rest, ApiPrefix)
  {
    PrefixConcat(ApiPrefix, rest);
  }
}
