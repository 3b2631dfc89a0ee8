/**
 * The limiter registry `getLimiterForConfig`: a map from configuration id to the
 * limiter currently governing it. The process-wide singleton and its mutex become
 * an ordinary object whose methods run one at a time.
 */
module Registry {
  import opened Wrappers
  import opened Limiting

  /** One call `getLimiterForConfig(configID, limit)`. */
  datatype Request = Request(configID: nat, limit: int)

  // ---------------------------------------------------------------------------
  // The registry seen through the capacities of its limiters
  // ---------------------------------------------------------------------------

  /** A request that the existing entry answers: same id, same (positive) limit. */
  predicate Reuses(caps: map<nat, nat>, r: Request)
  {
    r.limit > 0 && r.configID in caps && caps[r.configID] == r.limit
  }

  /**
   * What one request does to the id-to-capacity map: a non-positive limit touches
   * nothing; otherwise the id ends up governed by a limiter of the requested
   * capacity (reused or fresh), and every other id keeps its entry.
   */
  function Apply(caps: map<nat, nat>, r: Request): (after: map<nat, nat>)
    ensures r.limit <= 0 ==> after == caps
    ensures r.limit > 0 ==> after.Keys == caps.Keys + {r.configID} && after[r.configID] == r.limit
    ensures forall id :: id in caps && id != r.configID ==> id in after && after[id] == caps[id]
    ensures Reuses(caps, r) ==> after == caps
  {
    if r.limit <= 0 then caps else caps[r.configID := r.limit]
  }

  /** The map after a whole history of requests, the last one applied last. */
  function Replay(caps: map<nat, nat>, rs: seq<Request>): map<nat, nat>
  {
    if rs == [] then caps else Apply(Replay(caps, rs[..|rs| - 1]), rs[|rs| - 1])
  }

  /** The limit of the last request in `rs` that asked for a gate on `id`, if any. */
  function LatestLimit(rs: seq<Request>, id: nat): (latest: Option<nat>)
    ensures latest.Some? ==> latest.value > 0
  {
    if rs == [] then None
    else if rs[|rs| - 1].configID == id && rs[|rs| - 1].limit > 0 then Some(rs[|rs| - 1].limit)
    else LatestLimit(rs[..|rs| - 1], id)
  }

  /**
   * After any history, an id has an entry exactly when it had one before or some
   * request asked to gate it, and its capacity is the latest positive limit asked
   * for it (or its old capacity when nothing asked).
   */
  lemma {:induction false} ReplayAt(caps: map<nat, nat>, rs: seq<Request>, id: nat)
    ensures id in Replay(caps, rs) <==> id in caps || LatestLimit(rs, id).Some?
    ensures LatestLimit(rs, id).Some? ==> Replay(caps, rs)[id] == LatestLimit(rs, id).value
    ensures LatestLimit(rs, id).None? && id in caps ==> Replay(caps, rs)[id] == caps[id]
  {
    if rs != [] {
      ReplayAt(caps, rs[..|rs| - 1], id);
    }
  }

  /** Entries are never removed: the registry only grows. */
  lemma {:induction false} ReplayNeverShrinks(caps: map<nat, nat>, rs: seq<Request>)
    ensures caps.Keys <= Replay(caps, rs).Keys
  {
    forall id | id in caps
      ensures id in Replay(caps, rs)
    {
      ReplayAt(caps, rs, id);
    }
  }

  /**
   * After a history, a positive request is answered by the existing limiter exactly
   * when the latest positive request for that id asked for the same limit (or, when
   * none did, the entry it started with had that capacity).
   */
  lemma ReuseAfterHistory(caps: map<nat, nat>, rs: seq<Request>, r: Request)
    requires r.limit > 0
    ensures Reuses(Replay(caps, rs), r) <==>
      (LatestLimit(rs, r.configID) == Some(r.limit as nat) ||
       (LatestLimit(rs, r.configID).None? && r.configID in caps && caps[r.configID] == r.limit))
  {
  }

  /** Once a positive request has been served, repeating it is always a reuse. */
  lemma RepeatReuses(caps: map<nat, nat>, rs: seq<Request>, r: Request)
    requires r.limit > 0
    ensures Reuses(Replay(caps, rs + [r]), r)
  {
  }

  // ---------------------------------------------------------------------------
  // The registry object
  // ---------------------------------------------------------------------------

  class LimiterRegistry {
    /** `byConfig`: the limiter currently governing each configuration id. */
    var byConfig: map<nat, Limiter>

    /** The registry seen through the capacities of its limiters (an unfolding of `byConfig`). */
    ghost function Capacities(): (caps: map<nat, nat>)
      reads this
      ensures caps.Keys == byConfig.Keys
    {
      map id | id in byConfig :: byConfig[id].capacity
    }

    /** An empty registry. */
    constructor ()
      ensures byConfig == map[]
    {
      byConfig := map[];
    }

    /**
     * `getLimiterForConfig`: no gate for a non-positive limit; the existing limiter
     * when it has the requested limit; otherwise a fresh, empty limiter that
     * replaces the entry for `configID` and leaves every other entry alone.
     */
    method GetLimiterForConfig(configID: nat, limit: int) returns (l: Limiter?)
      modifies this
      ensures Capacities() == Apply(old(Capacities()), Request(configID, limit))
      ensures limit <= 0 ==> l == null && byConfig == old(byConfig)
      ensures Reuses(old(Capacities()), Request(configID, limit)) ==>
        l == old(byConfig)[configID] && byConfig == old(byConfig)
      ensures limit > 0 && !Reuses(old(Capacities()), Request(configID, limit)) ==>
        l != null && fresh(l) && l.capacity == limit && l.occupancy == 0 &&
        byConfig == old(byConfig)[configID := l]
      ensures l != null ==> configID in byConfig && byConfig[configID] == l && l.capacity == limit
    {
      if limit <= 0 {
        return null;
      }
      if configID in byConfig && byConfig[configID].capacity == limit {
        return byConfig[configID];
      }
      var created := new Limiter(limit);
      byConfig := byConfig[configID := created];
      assert Capacities() == old(Capacities())[configID := limit];
      l := created;
    }
  }

  /** Two lookups with the same id and the same positive limit give the identical limiter. */
  method LookupTwice(registry: LimiterRegistry, configID: nat, limit: int)
    returns (first: Limiter?, second: Limiter?)
    modifies registry
    ensures limit <= 0 <==> first == null
    ensures first == second
  {
    first := registry.GetLimiterForConfig(configID, limit);
    second := registry.GetLimiterForConfig(configID, limit);
  }

  /**
   * A lookup with a new limit replaces the limiter by a distinct one, and later
   * lookups with that limit reuse the replacement.
   */
  method LookupWithChangedLimit(registry: LimiterRegistry, configID: nat, limit: int, newLimit: int)
    returns (before: Limiter?, after: Limiter?, again: Limiter?)
    requires limit > 0 && newLimit > 0 && newLimit != limit
    modifies registry
    ensures before != null && after != null && before != after
    ensures after.capacity == newLimit && again == after
  {
    before := registry.GetLimiterForConfig(configID, limit);
    after := registry.GetLimiterForConfig(configID, newLimit);
    again := registry.GetLimiterForConfig(configID, newLimit);
  }
}
