/**
 * The cache layer: `loadCachedState` serves the persisted authentication
 * marker and user record for five minutes, and `shouldValidateAuth` decides
 * whether the server must be asked again.
 */
module Cache {
  import opened Optional
  import opened Json
  import opened Store

  /** The `auth_state` record `loadCachedState` reads: session storage first, else local storage. */
  function ConsultedMarker(m: Manager): (r: Option<Entry>)
    ensures AuthStateKey in m.session ==> r == Some(m.session[AuthStateKey])
    ensures AuthStateKey !in m.session && AuthStateKey in m.local ==> r == Some(m.local[AuthStateKey])
    ensures r.None? <==> AuthStateKey !in m.session && AuthStateKey !in m.local
  {
    if AuthStateKey in m.session then Some(m.session[AuthStateKey])
    else if AuthStateKey in m.local then Some(m.local[AuthStateKey])
    else None
  }

  /** The consulted marker says authenticated and is younger than the cache expiry. */
  predicate MarkerFresh(m: Manager, now: int) {
    var e := ConsultedMarker(m);
    e.Some? && e.value.Marker? && e.value.isAuthenticated && now - e.value.timestamp < CacheExpiry
  }

  /** `user_cache` holds text that does not parse. */
  predicate UserCacheCorrupt(m: Manager) {
    UserCacheKey in m.session && m.session[UserCacheKey].Corrupt?
  }

  /** `user_cache` holds a record younger than the cache expiry. */
  predicate UserCacheFresh(m: Manager, now: int) {
    UserCacheKey in m.session && TimestampOf(m.session[UserCacheKey]).Some?
    && now - TimestampOf(m.session[UserCacheKey]).value < CacheExpiry
  }

  /** `.user` of the parsed `user_cache` record (undefined for a record of another shape). */
  function CachedUserField(e: Entry): Json {
    if e.UserCache? then e.user else Undefined
  }

  /**
   * `loadCachedState`: a fresh authenticated marker makes the state
   * authenticated, with the cached user if that record is fresh too and null
   * otherwise. A missing, stale or unparseable marker, or an unparseable
   * user record, changes nothing (the parse error is swallowed).
   */
  function LoadCachedState(m: Manager, now: int): (r: Manager)
    ensures !MarkerFresh(m, now) ==> r == m
    ensures UserCacheCorrupt(m) ==> r == m
    ensures MarkerFresh(m, now) && !UserCacheCorrupt(m) ==>
      && r.state.isAuthenticated
      && r.state.isLoading == m.state.isLoading && r.state.isInitialized == m.state.isInitialized
      && r.state.error == m.state.error
      && r.session == m.session[LastCheckKey := Stamp(now)] && r.local == m.local
      && r.notified == m.notified + 1
    ensures MarkerFresh(m, now) && !UserCacheCorrupt(m) && !UserCacheFresh(m, now) ==> r.state.user == Null
    ensures MarkerFresh(m, now) && UserCacheFresh(m, now) && m.session[UserCacheKey].UserCache? ==>
      r.state.user == m.session[UserCacheKey].user
    ensures MarkerFresh(m, now) && UserCacheFresh(m, now) && !m.session[UserCacheKey].UserCache? ==>
      r.state.user == Undefined
    ensures r.controllers == m.controllers && r.aborted == m.aborted && r.nextHandle == m.nextHandle
  {
    if !MarkerFresh(m, now) || UserCacheCorrupt(m) then m
    else
      var user := if UserCacheFresh(m, now) then CachedUserField(m.session[UserCacheKey]) else Null;
      UpdateState(m, Patch(Some(user), Some(true), None, None, None), now)
  }

  /**
   * `shouldValidateAuth`: only an authenticated state is revalidated, and
   * only when `last_auth_check` is missing or more than five minutes old.
   */
  function ShouldValidateAuth(m: Manager, now: int): (r: bool)
    ensures !m.state.isAuthenticated ==> !r
    ensures m.state.isAuthenticated && LastCheckKey !in m.session ==> r
    ensures m.state.isAuthenticated && LastCheckKey in m.session && m.session[LastCheckKey].Stamp? ==>
      (r <==> now - m.session[LastCheckKey].ms > CacheExpiry)
    ensures LastCheckKey in m.session && !m.session[LastCheckKey].Stamp? ==> !r
  {
    if !m.state.isAuthenticated then false
    else if LastCheckKey !in m.session then true
    else
      match m.session[LastCheckKey]
      case Stamp(t) => now - t > CacheExpiry
      case _ => false
  }

  /** What `setAuthenticatedState` persists at `t` is served back at `t2` exactly while it is under five minutes old. */
  lemma PersistThenLoad(m: Manager, user: Json, t: int, t2: int)
    ensures var saved := SetAuthenticatedState(m, user, t);
      var loaded := LoadCachedState(saved, t2);
      && (t2 - t < CacheExpiry ==> loaded.state.isAuthenticated && loaded.state.user == user)
      && (t2 - t >= CacheExpiry ==> loaded == saved)
  {
  }

  /** After `setUnauthenticatedState` there is nothing to load. */
  lemma ClearThenLoad(m: Manager, t: int, t2: int)
    ensures LoadCachedState(SetUnauthenticatedState(m, t), t2) == SetUnauthenticatedState(m, t)
  {
  }

  /** Any update that carries `isAuthenticated` stamps the check time, so right after it nothing needs validating. */
  lemma UpdateDefersValidation(m: Manager, p: Patch, now: int)
    requires p.isAuthenticated.Some?
    ensures !ShouldValidateAuth(UpdateState(m, p, now), now)
  {
  }

  /**
   * A cache hit never leads to validation at the same instant: the hit's own
   * `updateState` stamps `last_auth_check` with the current time.
   */
  lemma CacheHitDefersValidation(m: Manager, now: int)
    requires MarkerFresh(m, now) && !UserCacheCorrupt(m)
    ensures LoadCachedState(m, now).state.isAuthenticated
    ensures !ShouldValidateAuth(LoadCachedState(m, now), now)
  {
  }
}
