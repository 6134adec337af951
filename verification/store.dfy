/**
 * The state store of the authentication state manager: the `AuthState`
 * snapshot, the two key/value stores it persists into (per-tab session
 * storage and durable local storage), the abort-controller table, and the
 * merge operation `updateState` through which every change goes.
 */
module Store {
  import opened Optional
  import opened Json

  /** Cached records are served for five minutes. */
  const CacheExpiry: int := 300000
  /** A lock record older than five seconds is treated as abandoned. */
  const LockTimeout: int := 5000

  datatype AuthState = AuthState(user: Json, isAuthenticated: bool, isLoading: bool, isInitialized: bool, error: Json)

  /** The state at process start. */
  const InitialState: AuthState := AuthState(Null, false, false, false, Null)

  /** A partial state: `Some` for each key present in the object passed to `updateState`. */
  datatype Patch = Patch(user: Option<Json>, isAuthenticated: Option<bool>, isLoading: Option<bool>,
                         isInitialized: Option<bool>, error: Option<Json>)

  /** The storage keys: `auth_state`, `user_cache`, `auth_lock`, `last_auth_check`. */
  datatype Key = AuthStateKey | UserCacheKey | AuthLockKey | LastCheckKey

  /** What a key holds, as it parses: one of the records the manager writes, or unparseable text. */
  datatype Entry =
    | Marker(isAuthenticated: bool, authType: string, timestamp: int)
    | UserCache(user: Json, timestamp: int)
    | LockRecord(timestamp: int, id: string)
    | Stamp(ms: int)
    | Corrupt(parseError: string)

  type Storage = map<Key, Entry>

  /** The names under which abort controllers are registered: `validate_auth` and `login`. */
  datatype RequestName = ValidateAuth | LoginRequest

  /** An abort controller, identified by the order of its creation. */
  type Handle = nat

  /** An exception as the manager's `catch` blocks see it. */
  datatype JsError = JsError(name: string, message: string)

  /**
   * Everything the manager reads and writes: its state, both stores, the
   * controller table, the controllers aborted so far, the next controller to
   * create and the number of observer notifications sent.
   */
  datatype Manager = Manager(
    state: AuthState,
    session: Storage,
    local: Storage,
    controllers: map<RequestName, Handle>,
    aborted: set<Handle>,
    nextHandle: Handle,
    notified: nat)

  /** A manager at process start over whatever the two stores already hold. */
  function Boot(session: Storage, local: Storage): Manager {
    Manager(InitialState, session, local, map[], {}, 0, 0)
  }

  /** `{...s, ...p}`. */
  function Merge(s: AuthState, p: Patch): AuthState {
    AuthState(p.user.GetOr(s.user), p.isAuthenticated.GetOr(s.isAuthenticated), p.isLoading.GetOr(s.isLoading),
              p.isInitialized.GetOr(s.isInitialized), p.error.GetOr(s.error))
  }

  /** `{...p, ...q}`: the later patch wins on shared keys. */
  function Then(p: Patch, q: Patch): Patch {
    Patch(if q.user.Some? then q.user else p.user,
          if q.isAuthenticated.Some? then q.isAuthenticated else p.isAuthenticated,
          if q.isLoading.Some? then q.isLoading else p.isLoading,
          if q.isInitialized.Some? then q.isInitialized else p.isInitialized,
          if q.error.Some? then q.error else p.error)
  }

  /** `.timestamp` of a parsed record, if it has one. */
  function TimestampOf(e: Entry): Option<int> {
    match e
    case Marker(_, _, t) => Some(t)
    case UserCache(_, t) => Some(t)
    case LockRecord(t, _) => Some(t)
    case _ => None
  }

  /**
   * `updateState`: merge the patch into the state, notify observers once,
   * and stamp `last_auth_check` when the patch carries `isAuthenticated`.
   */
  function UpdateState(m: Manager, p: Patch, now: int): (r: Manager)
    ensures p.user.Some? ==> r.state.user == p.user.value
    ensures p.user.None? ==> r.state.user == m.state.user
    ensures p.isAuthenticated.Some? ==> r.state.isAuthenticated == p.isAuthenticated.value
    ensures p.isAuthenticated.None? ==> r.state.isAuthenticated == m.state.isAuthenticated
    ensures p.isLoading.Some? ==> r.state.isLoading == p.isLoading.value
    ensures p.isLoading.None? ==> r.state.isLoading == m.state.isLoading
    ensures p.isInitialized.Some? ==> r.state.isInitialized == p.isInitialized.value
    ensures p.isInitialized.None? ==> r.state.isInitialized == m.state.isInitialized
    ensures p.error.Some? ==> r.state.error == p.error.value
    ensures p.error.None? ==> r.state.error == m.state.error
    ensures r.notified == m.notified + 1
    ensures p.isAuthenticated.Some? ==> r.session == m.session[LastCheckKey := Stamp(now)]
    ensures p.isAuthenticated.None? ==> r.session == m.session
    ensures r.local == m.local && r.controllers == m.controllers
    ensures r.aborted == m.aborted && r.nextHandle == m.nextHandle
  {
    var stamped := if p.isAuthenticated.Some? then m.session[LastCheckKey := Stamp(now)] else m.session;
    m.(state := Merge(m.state, p), session := stamped, notified := m.notified + 1)
  }

  /** Merging the same patch twice is merging it once. */
  lemma MergeIdempotent(s: AuthState, p: Patch)
    ensures Merge(Merge(s, p), p) == Merge(s, p)
  {
  }

  /** Two successive merges are one merge of the combined patch. */
  lemma MergeThen(s: AuthState, p: Patch, q: Patch)
    ensures Merge(Merge(s, p), q) == Merge(s, Then(p, q))
  {
  }

  /** `setAuthenticatedState(user)`: authenticated in memory, and persisted to both stores. */
  function SetAuthenticatedState(m: Manager, user: Json, now: int): (r: Manager)
    ensures r.state == m.state.(user := user, isAuthenticated := true, error := Null)
    ensures r.session == m.session[LastCheckKey := Stamp(now)][AuthStateKey := Marker(true, "session", now)]
                                  [UserCacheKey := UserCache(user, now)]
    ensures r.local == m.local[AuthStateKey := Marker(true, "session", now)]
    ensures r.controllers == m.controllers && r.aborted == m.aborted && r.nextHandle == m.nextHandle
    ensures r.notified == m.notified + 1
  {
    var m1 := UpdateState(m, Patch(Some(user), Some(true), None, None, Some(Null)), now);
    var marker := Marker(true, "session", now);
    m1.(session := m1.session[AuthStateKey := marker][UserCacheKey := UserCache(user, now)],
        local := m1.local[AuthStateKey := marker])
  }

  /** `setUnauthenticatedState()`: signed out in memory, and every persisted marker and user cache removed. */
  function SetUnauthenticatedState(m: Manager, now: int): (r: Manager)
    ensures r.state == m.state.(user := Null, isAuthenticated := false, error := Null)
    ensures r.session == m.session[LastCheckKey := Stamp(now)] - {AuthStateKey, UserCacheKey}
    ensures r.local == m.local - {AuthStateKey}
    ensures r.controllers == m.controllers && r.aborted == m.aborted && r.nextHandle == m.nextHandle
    ensures r.notified == m.notified + 1
  {
    var m1 := UpdateState(m, Patch(Some(Null), Some(false), None, None, Some(Null)), now);
    m1.(session := m1.session - {AuthStateKey, UserCacheKey}, local := m1.local - {AuthStateKey})
  }

  /** `handleError(context, e)`: record the error's message (or the context) and stop loading. */
  function HandleError(m: Manager, context: string, e: JsError, now: int): (r: Manager)
    ensures r.state == m.state.(error := Str(MessageOr(e.message, context)), isLoading := false)
    ensures r.session == m.session && r.local == m.local
    ensures r.controllers == m.controllers && r.aborted == m.aborted && r.nextHandle == m.nextHandle
    ensures r.notified == m.notified + 1
  {
    UpdateState(m, Patch(None, None, Some(false), None, Some(Str(MessageOr(e.message, context)))), now)
  }
}
