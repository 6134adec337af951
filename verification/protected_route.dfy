/**
 * The route guard in front of the protected pages: what it shows for the
 * `google_auth` query parameter and the manager's state.
 */
module ProtectedRoute {
  import opened Optional
  import opened Store
  import opened Coordinator
  import opened Scenarios

  /** The three things the guard can do: render the page, show the loader, or redirect to `/signin`. */
  datatype View = RenderChildren | ShowLoader | RedirectToSignin

  /**
   * The guard's decision. A Google callback (`google_auth=success`) passes
   * unconditionally; otherwise nothing is decided while initializing, and
   * afterwards the page renders exactly for an authenticated user.
   */
  function Decide(googleAuth: Option<string>, initializing: bool, isAuthenticated: bool): (v: View)
    ensures googleAuth == Some("success") ==> v == RenderChildren
    ensures googleAuth != Some("success") && initializing ==> v == ShowLoader
    ensures googleAuth != Some("success") && !initializing ==>
      (v == RenderChildren <==> isAuthenticated) && (v == RedirectToSignin <==> !isAuthenticated)
  {
    if googleAuth == Some("success") then RenderChildren
    else if initializing then ShowLoader
    else if isAuthenticated then RenderChildren
    else RedirectToSignin
  }

  /** The guard over the manager's state: the auth context exposes `initializing` as `!isInitialized`. */
  function Guard(googleAuth: Option<string>, s: AuthState): (v: View)
    ensures googleAuth != Some("success") ==> (v == ShowLoader <==> !s.isInitialized)
    ensures v == RenderChildren <==> googleAuth == Some("success") || (s.isInitialized && s.isAuthenticated)
    ensures v == RedirectToSignin <==> googleAuth != Some("success") && s.isInitialized && !s.isAuthenticated
  {
    Decide(googleAuth, !s.isInitialized, s.isAuthenticated)
  }

  /**
   * Once `initialize` has finished, by whatever path, the loader is gone for
   * good: whatever steps follow, the guard never shows it again.
   */
  lemma NoLoaderAfterInitialize(googleAuth: Option<string>, m: Manager, es: seq<Event>)
    requires m.state.isInitialized
    ensures Guard(googleAuth, Run(m, es).state) != ShowLoader
  {
    RunKeepsInitialized(m, es);
  }

  /**
   * A visitor with nothing cached is redirected to sign in as soon as
   * `initialize` has run, without any request to the server.
   */
  lemma SignedOutVisitorIsRedirected(session: Storage, local: Storage, now: int, lockId: string)
    requires AuthLockKey !in session && AuthStateKey !in session && AuthStateKey !in local
    ensures var r := InitializeBegin(Boot(session, local), now, lockId);
      r.InitDone? && Guard(None, r.m.state) == RedirectToSignin
  {
  }
}
