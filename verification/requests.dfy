/**
 * Per-name request cancellation: at most one abort controller per request
 * name; starting a new request aborts and removes the previous one. Aborting
 * only sets a flag the request inspects when its network call returns.
 */
module Requests {
  import opened Store

  /** A request just started, with the controller it registered. */
  datatype Started = Started(m: Manager, handle: Handle)

  /** A controller that exists and has not been aborted. */
  predicate Live(m: Manager, h: Handle) {
    h < m.nextHandle && h !in m.aborted
  }

  /**
   * The controller table is well formed: every registered controller exists
   * and is live, the two names never share one, and only existing
   * controllers have been aborted.
   */
  ghost predicate TableWf(m: Manager) {
    && (forall n :: n in m.controllers ==> Live(m, m.controllers[n]))
    && (forall n1, n2 :: n1 in m.controllers && n2 in m.controllers && n1 != n2 ==>
          m.controllers[n1] != m.controllers[n2])
    && (forall h :: h in m.aborted ==> h < m.nextHandle)
  }

  /** `cancelRequest(name)`: abort and remove the controller registered under `name`, if any. */
  function CancelRequest(m: Manager, name: RequestName): (r: Manager)
    ensures name !in r.controllers
    ensures r.controllers == m.controllers - {name}
    ensures name in m.controllers ==> r.aborted == m.aborted + {m.controllers[name]}
    ensures name !in m.controllers ==> r == m
    ensures r.state == m.state && r.session == m.session && r.local == m.local
    ensures r.nextHandle == m.nextHandle && r.notified == m.notified
    ensures TableWf(m) ==> TableWf(r)
  {
    if name in m.controllers then
      m.(aborted := m.aborted + {m.controllers[name]}, controllers := m.controllers - {name})
    else m
  }

  /** `cancelAllRequests`: abort every registered controller and empty the table. */
  function CancelAllRequests(m: Manager): (r: Manager)
    ensures r.controllers == map[]
    ensures r.aborted == m.aborted + m.controllers.Values
    ensures forall n :: n in m.controllers ==> !Live(r, m.controllers[n])
    ensures r.state == m.state && r.session == m.session && r.local == m.local
    ensures r.nextHandle == m.nextHandle && r.notified == m.notified
    ensures TableWf(m) ==> TableWf(r)
  {
    m.(aborted := m.aborted + m.controllers.Values, controllers := map[])
  }

  /** Cancel any earlier request under `name`, then create and register a fresh controller. */
  function BeginRequest(m: Manager, name: RequestName): (r: Started)
    ensures r.handle == m.nextHandle && r.m.nextHandle == m.nextHandle + 1
    ensures r.m.controllers == (m.controllers - {name})[name := r.handle]
    ensures name in m.controllers ==> r.m.aborted == m.aborted + {m.controllers[name]}
    ensures name !in m.controllers ==> r.m.aborted == m.aborted
    ensures r.m.state == m.state && r.m.session == m.session && r.m.local == m.local
    ensures r.m.notified == m.notified
    ensures TableWf(m) ==> TableWf(r.m) && Live(r.m, r.handle)
    ensures TableWf(m) && name in m.controllers ==> !Live(r.m, m.controllers[name])
  {
    var c := CancelRequest(m, name);
    Started(c.(controllers := c.controllers[name := c.nextHandle], nextHandle := c.nextHandle + 1), c.nextHandle)
  }

  /**
   * The `finally` of a request: delete whatever controller is registered
   * under `name` now, which is not necessarily the caller's own.
   */
  function FinishRequest(m: Manager, name: RequestName): (r: Manager)
    ensures name !in r.controllers && r.controllers == m.controllers - {name}
    ensures r.aborted == m.aborted && r.nextHandle == m.nextHandle
    ensures r.state == m.state && r.session == m.session && r.local == m.local && r.notified == m.notified
    ensures TableWf(m) ==> TableWf(r)
  {
    m.(controllers := m.controllers - {name})
  }
}
