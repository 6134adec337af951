/**
 * The orchestrations of the authentication state manager. Each asynchronous
 * operation is split at its network call into a start step and a completion
 * step that receives what the call settled to; other steps may run in
 * between. Every step reads the clock once, as `now`.
 */
module Coordinator {
  import opened Optional
  import opened Strings
  import opened Json
  import opened Store
  import opened Cache
  import opened Lock
  import opened Requests
  import opened AuthService

  const MaxAttempts: nat := 3
  const RetryDelay: nat := 1000
  const CancelledMessage: string := "Request cancelled"

  /** How an awaited call settled: the value it resolved to, or the exception it rejected with. */
  datatype Settled<T> = Returned(value: T) | Threw(error: JsError)

  /** The manager after a completion step, and what the operation returns to its caller. */
  datatype Replied = Replied(m: Manager, reply: ServiceResult)

  /** Where `initialize` stands when its synchronous part ends. */
  datatype InitPhase =
    | InitDone(m: Manager)
    | WaitingForOther(m: Manager)
    | Validating(m: Manager, handle: Handle)

  /** One attempt of the Google session flow: the manager afterwards, and the exception if it rejected. */
  datatype Attempt = Attempt(m: Manager, rejected: Option<JsError>)

  /** The state `initialize` always ends in: no lock record, initialized, not loading. */
  predicate InitializedAndUnlocked(m: Manager) {
    AuthLockKey !in m.session && m.state.isInitialized && !m.state.isLoading
  }

  /** The lock entry is the same in both managers. */
  predicate SameLock(a: Manager, b: Manager) {
    (AuthLockKey in a.session <==> AuthLockKey in b.session)
    && (AuthLockKey in a.session ==> a.session[AuthLockKey] == b.session[AuthLockKey])
  }

  // ---------------------------------------------------------------- validateAuthentication

  /** Start of `validateAuthentication`: replace any earlier validation's controller, then mark loading. */
  function ValidateBegin(m: Manager, now: int): (r: Started)
    ensures r.m.state == m.state.(isLoading := true, error := Null)
    ensures r.handle == m.nextHandle && ValidateAuth in r.m.controllers && r.m.controllers[ValidateAuth] == r.handle
    ensures ValidateAuth in m.controllers ==> r.m.aborted == m.aborted + {m.controllers[ValidateAuth]}
    ensures ValidateAuth !in m.controllers ==> r.m.aborted == m.aborted
    ensures LoginRequest in m.controllers ==>
      (LoginRequest in r.m.controllers && r.m.controllers[LoginRequest] == m.controllers[LoginRequest])
    ensures r.m.session == m.session && r.m.local == m.local
    ensures TableWf(m) ==> TableWf(r.m) && Live(r.m, r.handle)
  {
    var s := BeginRequest(m, ValidateAuth);
    Started(UpdateState(s.m, Patch(None, None, Some(true), None, Some(Null)), now), s.handle)
  }

  /** The `try`/`catch` of `validateAuthentication` once `getCurrentUser` has settled. */
  function ValidateBody(m: Manager, h: Handle, outcome: Settled<ServiceResult>, now: int): Manager {
    match outcome
    case Returned(res) =>
      if h in m.aborted then m
      else if res.success then SetAuthenticatedState(m, res.user, now)
      else SetUnauthenticatedState(m, now)
    case Threw(e) =>
      if e.name == "AbortError" then m
      else if Includes(e.message, "Session expired") then SetUnauthenticatedState(m, now)
      else HandleError(m, "Auth validation failed", e, now)
  }

  /**
   * Completion of `validateAuthentication` for controller `h`. A result
   * arriving for an aborted controller is dropped; otherwise success
   * authenticates with the returned user and ANY unsuccessful result signs the
   * user out. The `finally` removes whatever `validate_auth` controller is
   * registered now and stops loading.
   */
  function ValidateComplete(m: Manager, h: Handle, outcome: Settled<ServiceResult>, now: int): (r: Manager)
    ensures !r.state.isLoading
    ensures r.controllers == m.controllers - {ValidateAuth}
    ensures r.aborted == m.aborted && r.nextHandle == m.nextHandle
    ensures SameLock(r, m)
    ensures outcome.Returned? && h in m.aborted ==>
      r.state == m.state.(isLoading := false) && r.session == m.session && r.local == m.local
    ensures outcome.Returned? && h !in m.aborted && outcome.value.success ==>
      && r.state == m.state.(user := outcome.value.user, isAuthenticated := true, error := Null, isLoading := false)
      && AuthStateKey in r.session && r.session[AuthStateKey] == Marker(true, "session", now)
      && UserCacheKey in r.session && r.session[UserCacheKey] == UserCache(outcome.value.user, now)
      && AuthStateKey in r.local && r.local[AuthStateKey] == Marker(true, "session", now)
    ensures outcome.Returned? && h !in m.aborted && !outcome.value.success ==>
      && r.state == m.state.(user := Null, isAuthenticated := false, error := Null, isLoading := false)
      && AuthStateKey !in r.session && UserCacheKey !in r.session && AuthStateKey !in r.local
    ensures outcome.Threw? && outcome.error.name == "AbortError" ==>
      r.state == m.state.(isLoading := false) && r.session == m.session && r.local == m.local
    ensures outcome.Threw? && outcome.error.name != "AbortError" && Includes(outcome.error.message, "Session expired") ==>
      && r.state == m.state.(user := Null, isAuthenticated := false, error := Null, isLoading := false)
      && AuthStateKey !in r.session && UserCacheKey !in r.session && AuthStateKey !in r.local
    ensures outcome.Threw? && outcome.error.name != "AbortError" && !Includes(outcome.error.message, "Session expired") ==>
      r.state == m.state.(error := Str(MessageOr(outcome.error.message, "Auth validation failed")), isLoading := false)
    ensures TableWf(m) ==> TableWf(r)
  {
    UpdateState(FinishRequest(ValidateBody(m, h, outcome, now), ValidateAuth), Patch(None, None, Some(false), None, None), now)
  }

  // ---------------------------------------------------------------- login

  /** `{success: false, message: 'Request cancelled'}`. */
  const Cancelled: ServiceResult := Failed(Str(CancelledMessage))

  /** Start of `login`: replace any earlier login's controller, then mark loading and clear the error. */
  function LoginBegin(m: Manager, now: int): (r: Started)
    ensures r.m.state == m.state.(isLoading := true, error := Null)
    ensures r.handle == m.nextHandle && LoginRequest in r.m.controllers && r.m.controllers[LoginRequest] == r.handle
    ensures LoginRequest in m.controllers ==> r.m.aborted == m.aborted + {m.controllers[LoginRequest]}
    ensures LoginRequest !in m.controllers ==> r.m.aborted == m.aborted
    ensures ValidateAuth in m.controllers ==>
      (ValidateAuth in r.m.controllers && r.m.controllers[ValidateAuth] == m.controllers[ValidateAuth])
    ensures r.m.session == m.session && r.m.local == m.local
    ensures TableWf(m) ==> TableWf(r.m) && Live(r.m, r.handle)
  {
    var s := BeginRequest(m, LoginRequest);
    Started(UpdateState(s.m, Patch(None, None, Some(true), None, Some(Null)), now), s.handle)
  }

  /** The `try`/`catch` of `login` once the service call has settled. */
  function LoginBody(m: Manager, h: Handle, outcome: Settled<ServiceResult>, now: int): Replied {
    match outcome
    case Returned(res) =>
      if h in m.aborted then Replied(m, Cancelled)
      else if res.success then
        Replied(SetAuthenticatedState(m, res.user, now), ServiceResult(true, Undefined, res.message, Undefined))
      else Replied(UpdateState(m, Patch(None, None, None, None, Some(res.message)), now), res)
    case Threw(e) =>
      if e.name == "AbortError" then Replied(m, Cancelled)
      else Replied(HandleError(m, "Login failed", e, now), Failed(Str(MessageOr(e.message, "Login failed"))))
  }

  /**
   * Completion of `login` for controller `h`: a failure is handed back
   * unchanged with its message recorded as the error, a success
   * authenticates, an aborted login reports cancellation; loading stops.
   */
  function LoginComplete(m: Manager, h: Handle, outcome: Settled<ServiceResult>, now: int): (r: Replied)
    ensures !r.m.state.isLoading
    ensures r.m.controllers == m.controllers - {LoginRequest}
    ensures r.m.aborted == m.aborted && r.m.nextHandle == m.nextHandle
    ensures SameLock(r.m, m)
    ensures outcome.Returned? && h in m.aborted ==>
      r.reply == Cancelled && r.m.state == m.state.(isLoading := false)
    ensures outcome.Returned? && h !in m.aborted && outcome.value.success ==>
      && r.reply == ServiceResult(true, Undefined, outcome.value.message, Undefined)
      && r.m.state == m.state.(user := outcome.value.user, isAuthenticated := true, error := Null, isLoading := false)
      && AuthStateKey in r.m.session && r.m.session[AuthStateKey] == Marker(true, "session", now)
      && AuthStateKey in r.m.local && r.m.local[AuthStateKey] == Marker(true, "session", now)
    ensures outcome.Returned? && h !in m.aborted && !outcome.value.success ==>
      && r.reply == outcome.value
      && r.m.state == m.state.(error := outcome.value.message, isLoading := false)
    ensures outcome.Threw? && outcome.error.name == "AbortError" ==>
      r.reply == Cancelled && r.m.state == m.state.(isLoading := false)
    ensures outcome.Threw? && outcome.error.name != "AbortError" ==>
      && r.reply == Failed(Str(MessageOr(outcome.error.message, "Login failed")))
      && r.m.state == m.state.(error := Str(MessageOr(outcome.error.message, "Login failed")), isLoading := false)
    ensures TableWf(m) ==> TableWf(r.m)
  {
    var body := LoginBody(m, h, outcome, now);
    Replied(UpdateState(FinishRequest(body.m, LoginRequest), Patch(None, None, Some(false), None, None), now), body.reply)
  }

  // ---------------------------------------------------------------- logout

  /** Start of `logout`: abort every request in flight, then mark loading. */
  function LogoutBegin(m: Manager, now: int): (r: Manager)
    ensures r.controllers == map[]
    ensures r.aborted == m.aborted + m.controllers.Values
    ensures r.state == m.state.(isLoading := true)
    ensures r.session == m.session && r.local == m.local && r.nextHandle == m.nextHandle
    ensures TableWf(m) ==> TableWf(r)
  {
    UpdateState(CancelAllRequests(m), Patch(None, None, Some(true), None, None), now)
  }

  /**
   * Completion of `logout`, however the service call settled: signed out,
   * not loading, persisted auth records removed, and `{success: true}`.
   */
  function LogoutComplete(m: Manager, outcome: Settled<ServiceResult>, now: int): (r: Replied)
    ensures r.reply == Succeeded
    ensures r.m.state == m.state.(user := Null, isAuthenticated := false, error := Null, isLoading := false)
    ensures AuthStateKey !in r.m.session && UserCacheKey !in r.m.session && AuthStateKey !in r.m.local
    ensures r.m.controllers == m.controllers && r.m.aborted == m.aborted && r.m.nextHandle == m.nextHandle
    ensures SameLock(r.m, m)
    ensures TableWf(m) ==> TableWf(r.m)
  {
    Replied(UpdateState(SetUnauthenticatedState(m, now), Patch(None, None, Some(false), None, None), now), Succeeded)
  }

  // ---------------------------------------------------------------- initialize

  /** The `finally` of `initialize`: release the lock and mark initialized and not loading. */
  function InitFinally(m: Manager, now: int): (r: Manager)
    ensures InitializedAndUnlocked(r)
    ensures r.state == m.state.(isInitialized := true, isLoading := false)
    ensures r.session == m.session - {AuthLockKey} && r.local == m.local
    ensures r.controllers == m.controllers && r.aborted == m.aborted && r.nextHandle == m.nextHandle
  {
    UpdateState(ReleaseLock(m), Patch(None, None, Some(false), Some(true), None), now)
  }

  /**
   * The synchronous part of `initialize`. A fresh lock means another
   * initializer runs: wait, validating nothing. Otherwise take the lock, load
   * the cache, and start a validation only if `shouldValidateAuth` holds. An
   * unparseable lock record is an exception: recorded, then the `finally`.
   */
  function InitializeBegin(m: Manager, now: int, lockId: string): (r: InitPhase)
    ensures LockFresh(m, now) ==> r == WaitingForOther(m)
    ensures GetLock(m).Unreadable? ==>
      r == InitDone(InitFinally(HandleError(m, "Initialization failed", GetLock(m).error, now), now))
    ensures !LockFresh(m, now) && !GetLock(m).Unreadable? ==>
      var loaded := LoadCachedState(SetLock(m, now, lockId), now);
      && (r.Validating? <==> ShouldValidateAuth(loaded, now))
      && (r.Validating? ==> r == Validating(ValidateBegin(loaded, now).m, ValidateBegin(loaded, now).handle)
                            && r.m.session[AuthLockKey] == LockRecord(now, lockId))
      && (r.InitDone? ==> r.m == InitFinally(loaded, now))
    ensures r.InitDone? ==> InitializedAndUnlocked(r.m)
    ensures TableWf(m) ==> TableWf(r.m)
  {
    match GetLock(m)
    case Unreadable(e) => InitDone(InitFinally(HandleError(m, "Initialization failed", e, now), now))
    case _ =>
      if LockFresh(m, now) then WaitingForOther(m)
      else
        var loaded := LoadCachedState(SetLock(m, now, lockId), now);
        if ShouldValidateAuth(loaded, now) then
          var s := ValidateBegin(loaded, now);
          Validating(s.m, s.handle)
        else InitDone(InitFinally(loaded, now))
  }

  /**
   * `initialize` resuming after waiting for the other initializer: the wait
   * ends at a poll that finds no lock (then the cache is loaded) or at the
   * ten-second timeout (lock still there). Either way the `finally` runs and
   * removes the lock record, even one the other initializer still holds.
   */
  function InitializeAfterWait(m: Manager, now: int): (r: Manager)
    ensures InitializedAndUnlocked(r)
    ensures GetLock(m).NoLock? ==> r == InitFinally(LoadCachedState(m, now), now)
    ensures !GetLock(m).NoLock? ==> r == InitFinally(m, now)
    ensures r.state.user == m.state.user || GetLock(m).NoLock?
    ensures TableWf(m) ==> TableWf(r)
  {
    InitFinally(if GetLock(m).NoLock? then LoadCachedState(m, now) else m, now)
  }

  /** `initialize` resuming when the validation it started completes. */
  function InitializeAfterValidation(m: Manager, h: Handle, outcome: Settled<ServiceResult>, now: int): (r: Manager)
    ensures InitializedAndUnlocked(r)
    ensures r.state == ValidateComplete(m, h, outcome, now).state.(isInitialized := true)
    ensures TableWf(m) ==> TableWf(r)
  {
    InitFinally(ValidateComplete(m, h, outcome, now), now)
  }

  /** `destroy`: abort every request and release the lock (observers are not modelled). */
  function Destroy(m: Manager): (r: Manager)
    ensures r.controllers == map[] && r.aborted == m.aborted + m.controllers.Values
    ensures GetLock(r).NoLock? && r.state == m.state
    ensures TableWf(m) ==> TableWf(r)
  {
    ReleaseLock(CancelAllRequests(m))
  }

  // ---------------------------------------------------------------- handleGoogleAuthSession

  /**
   * `handleGoogleAuthSession`: up to three attempts, attempt `k > 1` preceded
   * by a delay of `1000 * k` ms; the first attempt that does not reject ends
   * the loop with success; if the third rejects, sign out and report its
   * message. `attempt(m, k)` is attempt `k` run on manager `m`.
   */
  method HandleGoogleAuthSession(m: Manager, attempt: (Manager, nat) -> Attempt, now: int)
    returns (r: Manager, reply: ServiceResult, trace: seq<Attempt>, delays: seq<nat>)
    ensures 1 <= |trace| <= MaxAttempts
    ensures trace[0] == attempt(m, 1)
    ensures forall k :: 0 < k < |trace| ==> trace[k] == attempt(trace[k - 1].m, k + 1)
    ensures forall k :: 0 <= k < |trace| - 1 ==> trace[k].rejected.Some?
    ensures |delays| == |trace| - 1
    ensures forall k :: 0 <= k < |delays| ==> delays[k] == RetryDelay * (k + 2)
    ensures reply.success <==> trace[|trace| - 1].rejected.None?
    ensures reply.success ==> reply == Succeeded && r == trace[|trace| - 1].m
    ensures !reply.success ==>
      && |trace| == MaxAttempts
      && r == SetUnauthenticatedState(trace[2].m, now)
      && reply == Failed(Str(trace[2].rejected.value.message))
  {
    var k: nat := 1;
    var current := m;
    trace := [];
    delays := [];
    while true
      invariant 1 <= k <= MaxAttempts
      invariant |trace| == k - 1
      invariant current == if k == 1 then m else trace[k - 2].m
      invariant k > 1 ==> trace[0] == attempt(m, 1)
      invariant forall i :: 0 < i < |trace| ==> trace[i] == attempt(trace[i - 1].m, i + 1)
      invariant forall i :: 0 <= i < |trace| ==> trace[i].rejected.Some?
      invariant |delays| == if k == 1 then 0 else k - 2
      invariant forall i :: 0 <= i < |delays| ==> delays[i] == RetryDelay * (i + 2)
      decreases MaxAttempts - k
    {
      if k > 1 {
        delays := delays + [RetryDelay * k];
      }
      var a := attempt(current, k);
      trace := trace + [a];
      if a.rejected.None? {
        r, reply := a.m, Succeeded;
        return;
      }
      if k == MaxAttempts {
        r, reply := SetUnauthenticatedState(a.m, now), Failed(Str(a.rejected.value.message));
        return;
      }
      current := a.m;
      k := k + 1;
    }
  }

  /**
   * An attempt as the manager runs it: start a validation and complete it
   * with what `getCurrentUser` settled to on attempt `k`.
   */
  function ValidationAttempt(outcomes: nat -> Settled<ServiceResult>, now: int): (Manager, nat) -> Attempt {
    (mm: Manager, k: nat) =>
      var s := ValidateBegin(mm, now);
      Attempt(ValidateComplete(s.m, s.handle, outcomes(k), now), None)
  }

  /**
   * The Google session flow as the manager runs it. `validateAuthentication`
   * catches everything itself, so its attempt never rejects: the flow stops
   * after the first attempt and reports success, even when that attempt
   * signed the user out.
   */
  method GoogleSessionViaValidation(m: Manager, outcomes: nat -> Settled<ServiceResult>, now: int)
    returns (r: Manager, reply: ServiceResult)
    ensures reply == Succeeded
    ensures r == ValidateComplete(ValidateBegin(m, now).m, ValidateBegin(m, now).handle, outcomes(1), now)
    ensures TableWf(m) && outcomes(1).Returned? && !outcomes(1).value.success ==>
      !r.state.isAuthenticated && r.state.user == Null && AuthStateKey !in r.local
  {
    var trace, delays;
    r, reply, trace, delays := HandleGoogleAuthSession(m, ValidationAttempt(outcomes, now), now);
  }
}
