/**
 * The advisory initialization lock: a timestamped record under `auth_lock`
 * in session storage. It is not atomic; the model keeps only its timestamp
 * rule: a record younger than five seconds means someone else is initializing.
 */
module Lock {
  import opened Optional
  import opened Store

  /** What `getLock` sees: nothing, a parsed record (with its timestamp, if any), or a JSON parse exception. */
  datatype LockView = NoLock | Held(timestamp: Option<int>) | Unreadable(error: JsError)

  /** `getLock`. */
  function GetLock(m: Manager): (r: LockView)
    ensures r.NoLock? <==> AuthLockKey !in m.session
    ensures r.Unreadable? <==> AuthLockKey in m.session && m.session[AuthLockKey].Corrupt?
    ensures r.Held? ==> r.timestamp == TimestampOf(m.session[AuthLockKey])
    ensures r.Unreadable? ==> r.error == JsError("SyntaxError", m.session[AuthLockKey].parseError)
  {
    if AuthLockKey !in m.session then NoLock
    else
      match m.session[AuthLockKey]
      case Corrupt(msg) => Unreadable(JsError("SyntaxError", msg))
      case e => Held(TimestampOf(e))
  }

  /** The lock is held by a record younger than the lock timeout (a record without a timestamp compares as NaN). */
  predicate LockFresh(m: Manager, now: int) {
    var v := GetLock(m);
    v.Held? && v.timestamp.Some? && now - v.timestamp.value < LockTimeout
  }

  /** `setLock(now)`, with `id` standing for the random identifier. */
  function SetLock(m: Manager, now: int, id: string): (r: Manager)
    ensures AuthLockKey in r.session && r.session[AuthLockKey] == LockRecord(now, id)
    ensures r.session - {AuthLockKey} == m.session - {AuthLockKey}
    ensures r.state == m.state && r.local == m.local && r.controllers == m.controllers
    ensures r.aborted == m.aborted && r.nextHandle == m.nextHandle && r.notified == m.notified
    ensures GetLock(r) == Held(Some(now))
  {
    m.(session := m.session[AuthLockKey := LockRecord(now, id)])
  }

  /** `releaseLock`: remove the record, whoever wrote it. */
  function ReleaseLock(m: Manager): (r: Manager)
    ensures AuthLockKey !in r.session && r.session - {AuthLockKey} == m.session - {AuthLockKey}
    ensures r.state == m.state && r.local == m.local && r.controllers == m.controllers
    ensures r.aborted == m.aborted && r.nextHandle == m.nextHandle && r.notified == m.notified
    ensures GetLock(r) == NoLock
  {
    m.(session := m.session - {AuthLockKey})
  }

  /** A lock taken at `t0` blocks others exactly until `t0 + 5000`, with or without a release. */
  lemma LockExpires(m: Manager, t0: int, id: string, t: int)
    ensures LockFresh(SetLock(m, t0, id), t) <==> t < t0 + LockTimeout
  {
  }

  /** A released lock blocks nobody. */
  lemma ReleasedLockIsFree(m: Manager, t: int)
    ensures !LockFresh(ReleaseLock(m), t)
  {
  }
}
