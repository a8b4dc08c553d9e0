/** The outcome function of the proxy store: how one observed delta changes a proxy's health. */
module ProxyHealth {
  import opened Domain

  datatype FailureKind = FailureUnknown | FailureConn | FailureTimeout | FailureAuth | FailureProtocol

  datatype Delta = Delta(
    success: bool, reward: int, latencyMs: int, failureHint: string, penalty: int,
    maxConsecutiveFailure: int, baseCooldown: int, maxCooldown: int, observedAt: Option<Instant>)

  function Min(a: int, b: int): int { if a < b then a else b }

  function Max(a: int, b: int): int { if a > b then a else b }

  /** The health fields, without the latency average. */
  datatype Health = Health(
    score: int, failures: int, circuit: Option<Instant>, hint: string,
    checkedAt: Option<Instant>, successAt: Option<Instant>, failureAt: Option<Instant>)

  function HealthOf(p: Proxy): Health {
    Health(p.healthScore, p.consecutiveFailures, p.circuitOpenUntil, p.failureHint,
           p.lastCheckedAt, p.lastSuccessAt, p.lastFailureAt)
  }

  /** A score of zero on a proxy never observed means full health. */
  function StartScore(h: Health): int {
    if h.score == 0 && h.failures == 0 && h.successAt.None? && h.failureAt.None? then 100 else h.score
  }

  function AfterSuccess(h: Health, reward: int, at: Instant): Health {
    h.(score := Min(100, StartScore(h) + (if reward <= 0 then 1 else reward)), failures := 0,
       checkedAt := Some(at), successAt := Some(at),
       circuit := if h.circuit.Some? && h.circuit.value <= at then None else h.circuit)
  }

  function AfterFailure(h: Health, d: Delta, at: Instant): Health {
    var penalty := if d.penalty <= 0 then 10 else d.penalty;
    var threshold := if d.maxConsecutiveFailure <= 0 then 3 else d.maxConsecutiveFailure;
    var baseCooldown := if d.baseCooldown <= 0 then 30 * SECOND else d.baseCooldown;
    var maxCooldown := if d.maxCooldown <= 0 then 300 * SECOND else d.maxCooldown;
    var failures := h.failures + 1;
    h.(score := Max(0, StartScore(h) - penalty), failures := failures,
       checkedAt := Some(at), failureAt := Some(at), hint := d.failureHint,
       circuit := if failures >= threshold then Some(at + Min(failures * baseCooldown, maxCooldown)) else h.circuit)
  }

  function HealthAfter(h: Health, d: Delta, at: Instant): Health {
    if d.success then AfterSuccess(h, d.reward, at) else AfterFailure(h, d, at)
  }

  /** Rounds the new latency average; the float arithmetic of the original is not modelled. */
  type Average = (int, int) -> int

  /** Only a success with a latency moves the average; the first one starts it. */
  function LatencyAfter(average: Average, before: int, d: Delta): int {
    if !d.success || d.latencyMs <= 0 then before else if before <= 0 then d.latencyMs else average(before, d.latencyMs)
  }

  /** The proxy is the same in everything an outcome does not concern. */
  predicate OnlyHealthMoved(p: Proxy, q: Proxy) { q.id == p.id && q.healthy == p.healthy && q.weight == p.weight }

  /** What befalls one attempt: nothing, or an error, seen or not seen before the write took effect. */
  datatype Fault = NoFault | Fault(applied: bool, retryable: bool)

  /** The proxies of the store. Attempt number n meets the backend fault fault(n). */
  class ProxyStore {
    var proxies: map<string, Proxy>
    var attempts: nat
    const fault: nat -> Fault
    const average: Average

    constructor (proxies: map<string, Proxy>, fault: nat -> Fault, average: Average)
      ensures this.proxies == proxies && this.fault == fault && this.average == average && attempts == 0
    {
      this.proxies, this.fault, this.average, attempts := proxies, fault, average, 0;
    }

    /** Applies one delta to one proxy; nothing changes for an unknown proxy or when a fault came first. */
    method RecordProxyOutcome(proxyId: string, delta: Delta, clock: Instant) returns (outcome: Outcome)
      modifies this
      ensures attempts == old(attempts) + 1
      ensures outcome == AttemptOutcome(fault, old(attempts), proxyId in old(proxies))
      ensures !Applies(fault, old(attempts), proxyId in old(proxies)) ==> proxies == old(proxies)
      ensures Applies(fault, old(attempts), proxyId in old(proxies)) ==>
                && proxyId in old(proxies) && proxies.Keys == old(proxies).Keys
                && proxies == old(proxies)[proxyId := proxies[proxyId]]
                && HealthOf(proxies[proxyId]) == HealthAfter(HealthOf(old(proxies)[proxyId]), delta, At(delta, clock))
      ensures Applies(fault, old(attempts), proxyId in old(proxies)) ==>
                var was, now := old(proxies)[proxyId], proxies[proxyId];
                && now.id == was.id && now.healthy == was.healthy && now.weight == was.weight
                && now.latencyEwmaMs == if !delta.success || delta.latencyMs <= 0 then was.latencyEwmaMs
                                        else if was.latencyEwmaMs <= 0 then delta.latencyMs
                                        else average(was.latencyEwmaMs, delta.latencyMs)
    {
      var n := attempts;
      attempts := attempts + 1;
      if proxyId in proxies && (fault(n).NoFault? || fault(n).applied) {
        var proxy := Observe(proxies[proxyId], delta, At(delta, clock));
        proxies := proxies[proxyId := proxy];
      }
      if fault(n).Fault? {
        return if fault(n).retryable then TimedOut else Failed;
      }
      outcome := if proxyId in proxies then Written else Failed;
    }

    method Observe(p: Proxy, delta: Delta, at: Instant) returns (proxy: Proxy)
      ensures HealthOf(proxy) == HealthAfter(HealthOf(p), delta, at) && OnlyHealthMoved(p, proxy)
      ensures proxy.latencyEwmaMs == LatencyAfter(average, p.latencyEwmaMs, delta)
    {
      proxy := p.(lastCheckedAt := Some(at));
      if proxy.healthScore == 0 && proxy.consecutiveFailures == 0 && proxy.lastSuccessAt.None? && proxy.lastFailureAt.None? {
        proxy := proxy.(healthScore := 100);
      }
      if delta.success {
        proxy := Reward(proxy, delta, at);
      } else {
        proxy := Penalise(proxy, delta, at);
      }
    }

    method Reward(p: Proxy, delta: Delta, at: Instant) returns (proxy: Proxy)
      requires delta.success && p.lastCheckedAt == Some(at) && StartScore(HealthOf(p)) == p.healthScore
      ensures HealthOf(proxy) == AfterSuccess(HealthOf(p), delta.reward, at) && OnlyHealthMoved(p, proxy)
      ensures proxy.latencyEwmaMs == LatencyAfter(average, p.latencyEwmaMs, delta)
    {
      proxy := p;
      var reward := if delta.reward <= 0 then 1 else delta.reward;
      proxy := proxy.(consecutiveFailures := 0, healthScore := Min(100, proxy.healthScore + reward), lastSuccessAt := Some(at));
      if delta.latencyMs > 0 {
        proxy := proxy.(latencyEwmaMs :=
          if proxy.latencyEwmaMs <= 0 then delta.latencyMs else average(proxy.latencyEwmaMs, delta.latencyMs));
      }
      if proxy.circuitOpenUntil.Some? && proxy.circuitOpenUntil.value <= at {
        proxy := proxy.(circuitOpenUntil := None);
      }
    }

    method Penalise(p: Proxy, delta: Delta, at: Instant) returns (proxy: Proxy)
      requires !delta.success && p.lastCheckedAt == Some(at) && StartScore(HealthOf(p)) == p.healthScore
      ensures HealthOf(proxy) == AfterFailure(HealthOf(p), delta, at) && OnlyHealthMoved(p, proxy)
      ensures proxy.latencyEwmaMs == LatencyAfter(average, p.latencyEwmaMs, delta)
    {
      proxy := p;
      var penalty := if delta.penalty <= 0 then 10 else delta.penalty;
      proxy := proxy.(consecutiveFailures := proxy.consecutiveFailures + 1,
                      healthScore := Max(0, proxy.healthScore - penalty), lastFailureAt := Some(at),
                      failureHint := delta.failureHint);
      var threshold := if delta.maxConsecutiveFailure <= 0 then 3 else delta.maxConsecutiveFailure;
      var baseCooldown := if delta.baseCooldown <= 0 then 30 * SECOND else delta.baseCooldown;
      var maxCooldown := if delta.maxCooldown <= 0 then 300 * SECOND else delta.maxCooldown;
      if proxy.consecutiveFailures >= threshold {
        var cooldown := proxy.consecutiveFailures * baseCooldown;
        if cooldown > maxCooldown {
          cooldown := maxCooldown;
        }
        proxy := proxy.(circuitOpenUntil := Some(at + cooldown));
      }
    }
  }

  datatype Outcome = Written | TimedOut | Failed

  function At(d: Delta, clock: Instant): Instant { if d.observedAt.None? then clock else d.observedAt.value }

  function AttemptOutcome(fault: nat -> Fault, n: nat, known: bool): Outcome {
    match fault(n)
    case NoFault => if known then Written else Failed
    case Fault(_, retryable) => if retryable then TimedOut else Failed
  }

  predicate Applies(fault: nat -> Fault, n: nat, known: bool) { known && (fault(n).NoFault? || fault(n).applied) }

  // ---------- runs of outcomes ----------

  datatype Observed = Observed(delta: Delta, at: Instant)

  function HealthRun(h: Health, os: seq<Observed>): Health {
    if os == [] then h
    else HealthAfter(HealthRun(h, os[..|os| - 1]), os[|os| - 1].delta, os[|os| - 1].at)
  }

  /** In every run a score between 0 and 100 stays there. */
  lemma {:induction false} ScoreStaysInRange(h: Health, os: seq<Observed>)
    requires 0 <= h.score <= 100
    ensures 0 <= HealthRun(h, os).score <= 100
  {
    if os != [] { ScoreStaysInRange(h, os[..|os| - 1]); }
  }

  /** What a row of failures costs: each its penalty, 10 where none is given. */
  function Penalties(os: seq<Observed>): int {
    if os == [] then 0
    else Penalties(os[..|os| - 1]) + (if os[|os| - 1].delta.penalty > 0 then os[|os| - 1].delta.penalty else 10)
  }

  /** What a row of successes earns: each its reward, 1 where none is given. */
  function Rewards(os: seq<Observed>): int {
    if os == [] then 0
    else Rewards(os[..|os| - 1]) + (if os[|os| - 1].delta.reward > 0 then os[|os| - 1].delta.reward else 1)
  }

  /** A row of failures lowers the score by the sum of its penalties, not below 0; a proxy never observed starts at 100. */
  lemma {:induction false} FailuresLowerScore(h: Health, os: seq<Observed>)
    requires os != [] && h.failures >= 0 && forall o :: o in os ==> !o.delta.success
    ensures var start := if h.score == 0 && h.failures == 0 && h.successAt == None && h.failureAt == None then 100 else h.score;
            HealthRun(h, os).score == if start > Penalties(os) then start - Penalties(os) else 0
    ensures HealthRun(h, os).failureAt.Some?
  {
    var front, last := os[..|os| - 1], os[|os| - 1];
    assert last in os;
    if front == [] {
      assert HealthRun(h, front) == h && Penalties(front) == 0;
    } else {
      FailuresLowerScore(h, front);
    }
  }

  /** A row of successes raises it by the sum of its rewards, not above 100. */
  lemma {:induction false} SuccessesRaiseScore(h: Health, os: seq<Observed>)
    requires os != [] && forall o :: o in os ==> o.delta.success
    ensures var start := if h.score == 0 && h.failures == 0 && h.successAt == None && h.failureAt == None then 100 else h.score;
            HealthRun(h, os).score == if start + Rewards(os) < 100 then start + Rewards(os) else 100
    ensures HealthRun(h, os).successAt.Some?
  {
    var front, last := os[..|os| - 1], os[|os| - 1];
    assert last in os;
    if front == [] {
      assert HealthRun(h, front) == h && Rewards(front) == 0;
    } else {
      SuccessesRaiseScore(h, front);
    }
  }

  /** A row of k failures, under one threshold and cooldown (3, 30 seconds and 5 minutes where none is given), counts up
      by k, and once the count reaches the threshold the circuit is open for count * base from the last failure, at most
      the maximum; a shorter row leaves it alone. The last failure leaves its time and its hint. */
  lemma {:induction false} FailuresOpenCircuit(h: Health, os: seq<Observed>, threshold: int, base: int, most: int)
    requires os != []
    requires forall o :: o in os ==> !o.delta.success && o.delta.maxConsecutiveFailure == threshold
                                     && o.delta.baseCooldown == base && o.delta.maxCooldown == most
    ensures var after, last, k := HealthRun(h, os), os[|os| - 1], h.failures + |os|;
            var limit, cooldown := if most > 0 then most else 300_000_000_000, k * if base > 0 then base else 30_000_000_000;
            && after.failures == k
            && after.circuit == (if k < (if threshold > 0 then threshold else 3) then h.circuit
                                 else Some(last.at + if cooldown > limit then limit else cooldown))
            && after.hint == last.delta.failureHint && after.failureAt == after.checkedAt == Some(last.at) && after.successAt == h.successAt
  {
    var front, last := os[..|os| - 1], os[|os| - 1];
    assert last in os;
    if front == [] {
      assert HealthRun(h, front) == h;
    } else {
      FailuresOpenCircuit(h, front, threshold, base, most);
    }
  }

  /** One success ends the row: the count restarts, and the circuit closes exactly if its deadline has come. */
  lemma SuccessClosesCircuit(h: Health, os: seq<Observed>, o: Observed)
    requires o.delta.success
    ensures var before, after := HealthRun(h, os), HealthRun(h, os + [o]);
            && after.failures == 0
            && (after.circuit.Some? <==> before.circuit.Some? && before.circuit.value > o.at)
            && (after.circuit.Some? ==> after.circuit == before.circuit)
            && (after.score > before.score || after.score >= 100)
            && after.successAt == after.checkedAt == Some(o.at) && after.failureAt == before.failureAt && after.hint == before.hint
  {
    assert (os + [o])[..|os|] == os;
  }

  /** One outcome on the proxy's own fields, where q is p after it. */
  lemma OutcomeMeaning(p: Proxy, q: Proxy, d: Delta, at: Instant)
    requires HealthOf(q) == HealthAfter(HealthOf(p), d, at)
    ensures q.lastCheckedAt == Some(at)
    ensures var start := if p.healthScore == 0 && p.consecutiveFailures == 0 && p.lastSuccessAt == None && p.lastFailureAt == None
                         then 100 else p.healthScore;
            var reward, penalty := if d.reward > 0 then d.reward else 1, if d.penalty > 0 then d.penalty else 10;
            if d.success then
              && q.lastSuccessAt == Some(at) && q.lastFailureAt == p.lastFailureAt && q.failureHint == p.failureHint
              && q.consecutiveFailures == 0
              && q.healthScore == (if start + reward < 100 then start + reward else 100)
              && q.circuitOpenUntil == (if p.circuitOpenUntil.Some? && p.circuitOpenUntil.value > at then p.circuitOpenUntil else None)
            else
              && q.lastFailureAt == Some(at) && q.lastSuccessAt == p.lastSuccessAt && q.failureHint == d.failureHint
              && q.consecutiveFailures == p.consecutiveFailures + 1
              && q.healthScore == (if start > penalty then start - penalty else 0)
  {
  }
}
