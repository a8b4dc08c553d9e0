/** The entities every component shares. Instants and durations are nanoseconds on one clock;
    an optional instant that is None stands for Go's zero time. */
module Domain {
  datatype Option<+T> = None | Some(value: T)

  datatype Result<+T> = Ok(value: T) | Err(error: Error)

  datatype Error =
    | NoEligible | NotFound | StaleLease | LeaseRevoked | LeaseExpired | AuthFailed | PolicyDenied | UnsafeDestination

  type Instant = int

  const SECOND := 1_000_000_000

  /** The zero instant of the original, in nanoseconds from the start of 1970. */
  const ZERO_TIME: Instant := -62135596800 * SECOND

  datatype Proxy = Proxy(
    id: string, healthy: bool, weight: int, healthScore: int, consecutiveFailures: int,
    circuitOpenUntil: Option<Instant>, latencyEwmaMs: int,
    lastCheckedAt: Option<Instant>, lastSuccessAt: Option<Instant>, lastFailureAt: Option<Instant>, failureHint: string)

  datatype ResourceRef = ResourceRef(kind: string, id: string, scope: string, labels: map<string, string>)

  datatype Lease = Lease(
    tenantId: string, id: string, generation: int, resource: ResourceRef, password: string, passwordHash: string,
    proxyId: string, expiresAt: Instant, renewBefore: Instant, revoked: bool)

  /** The selectors' common test: healthy, positive weight and score, circuit closed or past. */
  predicate Eligible(p: Proxy, now: Instant) {
    p.healthy && p.weight > 0 && p.healthScore > 0 && (p.circuitOpenUntil.None? || p.circuitOpenUntil.value <= now)
  }
}
