/**
 * The manager as a state machine over interleaved steps, and what the code
 * as written does under particular interleavings: which races it closes and
 * which it leaves open.
 */
module Scenarios {
  import opened Json
  import opened Api
  import opened AuthService
  import opened Store
  import opened Lock
  import opened Requests
  import opened Coordinator

  /** One step of some operation, with what its awaited call settled to where it has one. */
  datatype Event =
    | StartValidate(now: int)
    | FinishValidate(handle: Handle, outcome: Settled<ServiceResult>, now: int)
    | StartLogin(now: int)
    | FinishLogin(handle: Handle, outcome: Settled<ServiceResult>, now: int)
    | StartLogout(now: int)
    | FinishLogout(outcome: Settled<ServiceResult>, now: int)
    | StartInitialize(now: int, lockId: string)
    | ResumeInitialize(now: int)
    | FinishInitialize(handle: Handle, outcome: Settled<ServiceResult>, now: int)
    | TearDown

  /** The manager after one step. */
  function Step(m: Manager, e: Event): (r: Manager)
    ensures TableWf(m) ==> TableWf(r)
    ensures m.aborted <= r.aborted && m.nextHandle <= r.nextHandle
    ensures m.state.isInitialized ==> r.state.isInitialized
  {
    match e
    case StartValidate(t) => ValidateBegin(m, t).m
    case FinishValidate(h, o, t) => ValidateComplete(m, h, o, t)
    case StartLogin(t) => LoginBegin(m, t).m
    case FinishLogin(h, o, t) => LoginComplete(m, h, o, t).m
    case StartLogout(t) => LogoutBegin(m, t)
    case FinishLogout(o, t) => LogoutComplete(m, o, t).m
    case StartInitialize(t, id) => InitializeBegin(m, t, id).m
    case ResumeInitialize(t) => InitializeAfterWait(m, t)
    case FinishInitialize(h, o, t) => InitializeAfterValidation(m, h, o, t)
    case TearDown => Destroy(m)
  }

  /** The manager after a sequence of steps. */
  function Run(m: Manager, es: seq<Event>): Manager
    decreases |es|
  {
    if es == [] then m else Run(Step(m, es[0]), es[1..])
  }

  /**
   * Under every interleaving the controller table stays well formed, aborted
   * controllers stay aborted and no controller is created twice.
   */
  lemma {:induction false} RunPreservesWf(m: Manager, es: seq<Event>)
    requires TableWf(m)
    ensures TableWf(Run(m, es))
    ensures m.aborted <= Run(m, es).aborted && m.nextHandle <= Run(m, es).nextHandle
    decreases |es|
  {
    if es != [] {
      RunPreservesWf(Step(m, es[0]), es[1..]);
    }
  }

  /** `isInitialized` only ever goes from false to true: no interleaving of steps resets it. */
  lemma {:induction false} RunKeepsInitialized(m: Manager, es: seq<Event>)
    requires m.state.isInitialized
    ensures Run(m, es).state.isInitialized
    decreases |es|
  {
    if es != [] {
      RunKeepsInitialized(Step(m, es[0]), es[1..]);
    }
  }

  /**
   * Once a validation's controller is aborted, its result, whenever it
   * arrives, changes neither the user nor the authentication flag.
   */
  lemma StaleValidationIsNoOp(m: Manager, es: seq<Event>, h: Handle, res: ServiceResult, now: int)
    requires TableWf(m) && h in m.aborted
    ensures var later := Run(m, es);
      var r := ValidateComplete(later, h, Returned(res), now);
      r.state.user == later.state.user && r.state.isAuthenticated == later.state.isAuthenticated
      && r.session == later.session && r.local == later.local
  {
    RunPreservesWf(m, es);
  }

  /**
   * A superseded validation's `finally` removes its successor's controller:
   * a third validation then starts without aborting the second, which is left
   * live but unregistered, so not even `cancelAllRequests` can abort it.
   */
  lemma SupersededFinallyOrphansSuccessor(m: Manager, o: Settled<ServiceResult>, t: int)
    requires TableWf(m)
    ensures var first := ValidateBegin(m, t);
      var second := ValidateBegin(first.m, t);
      var third := ValidateBegin(ValidateComplete(second.m, first.handle, o, t), t);
      && Live(third.m, second.handle) && Live(third.m, third.handle) && second.handle != third.handle
      && second.handle !in third.m.controllers.Values
      && Live(CancelAllRequests(third.m), second.handle)
  {
  }

  /**
   * A validation and a login run under different request names, so neither
   * aborts the other: a validation started before a successful login and
   * failing after it signs the freshly logged-in user out.
   */
  lemma ValidationOverwritesLaterLogin(m: Manager, t: int, ok: ServiceResult, bad: ServiceResult)
    requires TableWf(m) && ok.success && !bad.success
    ensures var v := ValidateBegin(m, t);
      var l := LoginBegin(v.m, t);
      var li := LoginComplete(l.m, l.handle, Returned(ok), t);
      var after := ValidateComplete(li.m, v.handle, Returned(bad), t);
      && li.reply.success && li.m.state.isAuthenticated
      && !after.state.isAuthenticated && after.state.user == Null && AuthStateKey !in after.local
  {
  }

  /**
   * `logout` aborts a validation in flight: even a successful result arriving
   * after the logout leaves the user signed out.
   */
  lemma LogoutPreemptsValidation(m: Manager, t: int, o: Settled<ServiceResult>, res: ServiceResult)
    requires TableWf(m)
    ensures var v := ValidateBegin(m, t);
      var out := LogoutComplete(LogoutBegin(v.m, t), o, t);
      var after := ValidateComplete(out.m, v.handle, Returned(res), t);
      && out.reply.success
      && !after.state.isAuthenticated && after.state.user == Null
      && AuthStateKey !in after.session && AuthStateKey !in after.local
  {
  }

  /**
   * `getCurrentUser` turns a network failure or a server error into a
   * failure result, and `validateAuthentication` signs the user out on any
   * failure result: a transient outage logs the user out.
   */
  lemma NetworkFailureLogsOut(m: Manager, h: Handle, first: Fetched, retry: Fetched, t: int)
    requires h !in m.aborted
    requires first.FetchFailed? || (!StatusOk(first.status) && first.status != 419)
    ensures var r := ValidateComplete(m, h, Returned(GetCurrentUser(Request(first, retry))), t);
      !r.state.isAuthenticated && r.state.user == Null
      && AuthStateKey !in r.session && UserCacheKey !in r.session && AuthStateKey !in r.local
  {
  }

  /**
   * At process start `initialize` never contacts the server: either the
   * cache hits, and its own update stamps the check time, or nothing is
   * authenticated.
   */
  lemma ColdStartNeverValidates(m: Manager, now: int, lockId: string)
    requires !m.state.isAuthenticated
    ensures !InitializeBegin(m, now, lockId).Validating?
  {
  }

  /**
   * A reload within five minutes of signing in: `initialize` serves the
   * cached user without a request and ends initialized and unlocked.
   */
  lemma ColdStartServesCache(session: Storage, local: Storage, user: Json, authType: string, t: int, now: int, lockId: string)
    requires AuthLockKey !in session
    requires AuthStateKey in session && session[AuthStateKey] == Marker(true, authType, t)
    requires UserCacheKey in session && session[UserCacheKey] == UserCache(user, t)
    requires now - t < CacheExpiry
    ensures var r := InitializeBegin(Boot(session, local), now, lockId);
      r.InitDone? && r.m.state == AuthState(user, true, false, true, Null) && GetLock(r.m).NoLock?
      && r.m.controllers == map[]
  {
  }

  /**
   * A new tab opened within five minutes of signing in: only local storage
   * holds the marker and there is no user cache, so `initialize` ends
   * authenticated with a null user, and since the cache hit stamped
   * `last_auth_check` no validation fetches the user.
   */
  lemma NewTabAuthenticatedWithoutUser(local: Storage, authType: string, t: int, now: int, lockId: string)
    requires AuthStateKey in local && local[AuthStateKey] == Marker(true, authType, t)
    requires now - t < CacheExpiry
    ensures var r := InitializeBegin(Boot(map[], local), now, lockId);
      && r.InitDone? && r.m.state.isAuthenticated && r.m.state.user == Null
      && r.m.state.isInitialized && !r.m.state.isLoading && r.m.controllers == map[]
  {
  }

  /**
   * A login the server rejects: the manager stays signed out, records the
   * server's message as its error and hands the result back.
   */
  lemma LoginRejectsBadCredentials(m: Manager, h: Handle, status: nat, body: Json, retry: Fetched, t: int)
    requires h !in m.aborted && !m.state.isAuthenticated
    requires !StatusOk(status) && status !in {401, 419, 422}
    requires Get(body, "message").Str? && Get(body, "message").s != ""
    ensures var r := LoginComplete(m, h, Returned(AuthService.Login(Request(Response(status, body), retry))), t);
      && r.reply == Failed(Get(body, "message"))
      && !r.m.state.isAuthenticated && r.m.state.error == Get(body, "message") && !r.m.state.isLoading
  {
  }
}
