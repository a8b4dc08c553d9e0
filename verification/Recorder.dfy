/** The health recorder: a bounded buffer that drops its oldest event, drained into the store. */
module Recorder {
  import opened Domain
  import opened ProxyHealth
  import opened Coalescing

  function LastN<T>(s: seq<T>, n: nat): seq<T> { if |s| <= n then s else s[|s| - n..] }

  // ---------- writing the coalesced deltas ----------

  type Clock = nat -> Instant

  /** One delta that took effect in the store. */
  datatype Effect = Effect(key: string, delta: Delta)

  /** The effects of some writes in order, the attempts used so far, and how many events their errors cost. */
  datatype Log = Log(effects: seq<Effect>, attempts: nat, failed: nat)

  function Attempt(e: Effect, fault: nat -> Fault, n: nat, known: bool): seq<Effect> {
    if Applies(fault, n, known) then [e] else []
  }

  predicate Retries(fault: nat -> Fault, n: nat, known: bool) { AttemptOutcome(fault, n, known) == TimedOut }

  /** One write with its single retry; size is the number of events it stands for. */
  function WriteOf(e: Effect, size: nat, fault: nat -> Fault, n: nat, known: bool): Log {
    if Retries(fault, n, known) then
      Log(Attempt(e, fault, n, known) + Attempt(e, fault, n + 1, known), n + 2,
          if AttemptOutcome(fault, n + 1, known) == Written then 0 else size)
    else Log(Attempt(e, fault, n, known), n + 1, if AttemptOutcome(fault, n, known) == Written then 0 else size)
  }

  /** A retry can apply a write twice: exactly when the first attempt took effect but reported a retryable error,
      and the second took effect as well. */
  lemma AppliedTwiceIff(e: Effect, size: nat, fault: nat -> Fault, n: nat, known: bool)
    ensures WriteOf(e, size, fault, n, known).effects == [e, e]
            <==> known && fault(n) == Fault(true, true) && (fault(n + 1).NoFault? || fault(n + 1).applied)
    ensures WriteOf(e, size, fault, n, known).failed == 0 && size > 0 ==> e in WriteOf(e, size, fault, n, known).effects
  {
  }

  /** A write is tried once more exactly after a retryable error. It has failed, for all its events, unless the last try
      met no fault and the proxy is known; and each try that took effect on a known proxy counts. */
  lemma WriteMeaning(e: Effect, size: nat, fault: nat -> Fault, n: nat, known: bool)
    ensures var l, again := WriteOf(e, size, fault, n, known), fault(n).Fault? && fault(n).retryable;
            var last := if again then n + 1 else n;
            && l.attempts == last + 1
            && l.failed == (if known && fault(last) == NoFault then 0 else size)
            && |l.effects| == (if known && (fault(n) == NoFault || fault(n).applied) then 1 else 0)
                              + (if again && known && (fault(n + 1) == NoFault || fault(n + 1).applied) then 1 else 0)
            && forall x :: x in l.effects ==> x == e
  {
  }

  function Then(l: Log, m: Log): Log { Log(l.effects + m.effects, m.attempts, l.failed + m.failed) }

  function SuccessLog(d: OrderedDelta, p: Policy, clock: Clock, fault: nat -> Fault, n: nat, known: bool): Log {
    if d.bucket.successCount > 0
    then WriteOf(Effect(d.key, SuccessDelta(d.bucket, p, clock(n))), d.bucket.successCount, fault, n, known) else Log([], n, 0)
  }

  function FailureLog(d: OrderedDelta, p: Policy, clock: Clock, fault: nat -> Fault, n: nat, known: bool): Log {
    if d.bucket.hasFailure then WriteOf(Effect(d.key, FailureDelta(d.bucket, p, clock(n))), 1, fault, n, known) else Log([], n, 0)
  }

  /** The writes of one delta; the clock is read before each, at clock(n) before attempt n. */
  function DeltaLog(d: OrderedDelta, p: Policy, clock: Clock, fault: nat -> Fault, n: nat, known: bool): Log {
    var l := SuccessLog(d, p, clock, fault, n, known); Then(l, FailureLog(d, p, clock, fault, l.attempts, known))
  }

  function LogOf(deltas: seq<OrderedDelta>, p: Policy, clock: Clock, fault: nat -> Fault, n: nat, known: set<string>): Log {
    if deltas == [] then Log([], n, 0)
    else
      var l, d := LogOf(deltas[..|deltas| - 1], p, clock, fault, n, known), deltas[|deltas| - 1];
      Then(l, DeltaLog(d, p, clock, fault, l.attempts, d.key in known))
  }

  lemma {:induction false} FailedNotMore(deltas: seq<OrderedDelta>, p: Policy, clock: Clock, fault: nat -> Fault, n: nat, known: set<string>)
    ensures LogOf(deltas, p, clock, fault, n, known).failed <= Size(deltas)
  {
    if deltas != [] { FailedNotMore(deltas[..|deltas| - 1], p, clock, fault, n, known); }
  }

  function ApplyEffect(h: Health, d: Delta): Health { HealthAfter(h, d, At(d, 0)) }

  function ApplyEffects(effects: seq<Effect>, key: string, h: Health): Health {
    if effects == [] then h
    else
      var r, e := ApplyEffects(effects[..|effects| - 1], key, h), effects[|effects| - 1];
      if e.key == key then ApplyEffect(r, e.delta) else r
  }

  lemma {:induction false} ApplyAppended(effects: seq<Effect>, more: seq<Effect>, key: string, h: Health)
    ensures ApplyEffects(effects + more, key, h) == ApplyEffects(more, key, ApplyEffects(effects, key, h))
  {
    hide ApplyEffect;
    if more == [] {
      assert effects + more == effects;
    } else {
      ApplyAppended(effects, more[..|more| - 1], key, h);
      assert (effects + more)[..|effects + more| - 1] == effects + more[..|more| - 1];
    }
  }

  lemma ApplyOne(e: Effect, key: string, h: Health)
    ensures ApplyEffects([e], key, h) == if e.key == key then ApplyEffect(h, e.delta) else h
  {
    assert [e][..0] == [];
  }

  /** The health every proxy of the store ends with. */
  ghost predicate HealthApplied(before: map<string, Proxy>, after: map<string, Proxy>, effects: seq<Effect>) {
    && after.Keys == before.Keys
    && forall id :: id in before ==> HealthOf(after[id]) == ApplyEffects(effects, id, HealthOf(before[id]))
  }

  lemma NothingApplied(m: map<string, Proxy>)
    ensures HealthApplied(m, m, [])
  {
  }

  lemma AppliedNext(m0: map<string, Proxy>, m1: map<string, Proxy>, m2: map<string, Proxy>, effects: seq<Effect>, more: seq<Effect>)
    requires HealthApplied(m0, m1, effects) && HealthApplied(m1, m2, more)
    ensures HealthApplied(m0, m2, effects + more)
  {
    hide ApplyEffects, HealthOf;
    forall id | id in m0 ensures HealthOf(m2[id]) == ApplyEffects(effects + more, id, HealthOf(m0[id])) {
      ApplyAppended(effects, more, id, HealthOf(m0[id]));
    }
  }

  /** What one attempt does to the store. */
  lemma AttemptApplied(m: map<string, Proxy>, after: map<string, Proxy>, e: Effect, clock: Instant, applies: bool)
    requires e.delta.observedAt.Some?
    requires !applies ==> after == m
    requires applies ==> e.key in m && after.Keys == m.Keys && after == m[e.key := after[e.key]]
                         && HealthOf(after[e.key]) == HealthAfter(HealthOf(m[e.key]), e.delta, At(e.delta, clock))
    ensures HealthApplied(m, after, if applies then [e] else [])
  {
    hide HealthAfter, HealthOf;
    forall id | id in m ensures applies ==> HealthOf(after[id]) == ApplyEffects([e], id, HealthOf(m[id])) {
      ApplyOne(e, id, HealthOf(m[id]));
    }
  }

  class CoalescingRecorder {
    const store: ProxyStore
    const policy: Policy
    const events: array<Event>
    var len: nat
    var closed: bool

    ghost predicate Valid() reads this { len <= events.Length && events.Length > 0 }

    ghost function Buffered(): seq<Event>
      requires Valid()
      reads this, events
    {
      events[..len]
    }

    constructor (store: ProxyStore, bufferSize: int, policy: Policy)
      ensures Valid() && fresh(events) && Buffered() == [] && !closed
      ensures events.Length == (if bufferSize <= 0 then 1024 else bufferSize)
      ensures this.store == store && this.policy == Effective(policy)
    {
      var size := if bufferSize <= 0 then 1024 else bufferSize;
      this.store, this.policy := store, Effective(policy);
      events, len, closed := new Event[size], 0, false;
    }

    /** Appends the event; a full buffer first loses its oldest one. */
    method RecordProxyResult(event: Event)
      requires Valid()
      modifies this`len, events
      ensures Valid()
      ensures Buffered() == if event.proxyId == "" || closed then old(Buffered())
                            else LastN(old(Buffered()) + [event], events.Length)
    {
      if event.proxyId == "" || closed {
        return;
      }
      if len == events.Length {
        ShiftIn(event);
        return;
      }
      events[len] := event;
      len := len + 1;
    }

    method ShiftIn(event: Event)
      requires Valid() && len == events.Length
      modifies events
      ensures events[..] == old(events[1..]) + [event]
    {
      for i := 0 to len - 1
        invariant forall k :: 0 <= k < i ==> events[k] == old(events[k + 1])
        invariant forall k :: i <= k < len ==> events[k] == old(events[k])
      {
        events[i] := events[i + 1];
      }
      events[len - 1] := event;
    }

    method Drain() returns (taken: seq<Event>)
      requires Valid()
      modifies this`len
      ensures Valid() && Buffered() == []
      ensures taken == old(Buffered())
    {
      taken := events[..len];
      len := 0;
    }

    /** One write, retried once after a retryable error. */
    method RecordOutcome(proxyId: string, delta: Delta, size: nat) returns (failed: nat)
      requires delta.observedAt.Some?
      modifies store
      ensures var l := WriteOf(Effect(proxyId, delta), size, store.fault, old(store.attempts), proxyId in old(store.proxies));
              store.attempts == l.attempts && failed == l.failed && HealthApplied(old(store.proxies), store.proxies, l.effects)
    {
      ghost var e, m0, n0 := Effect(proxyId, delta), store.proxies, store.attempts;
      hide HealthApplied, HealthAfter, HealthOf;
      var o := store.RecordProxyOutcome(proxyId, delta, 0);
      AttemptApplied(m0, store.proxies, e, 0, Applies(store.fault, n0, proxyId in m0));
      if o == TimedOut {
        ghost var m1 := store.proxies;
        assert proxyId in m1 <==> proxyId in m0;
        o := store.RecordProxyOutcome(proxyId, delta, 0);
        AttemptApplied(m1, store.proxies, e, 0, Applies(store.fault, n0 + 1, proxyId in m0));
        AppliedNext(m0, m1, store.proxies, Attempt(e, store.fault, n0, proxyId in m0), Attempt(e, store.fault, n0 + 1, proxyId in m0));
      }
      failed := if o == Written then 0 else size;
    }

    /** Writes one delta; the clock is read before each of its writes. */
    method WriteDelta(d: OrderedDelta, clock: Clock) returns (failed: nat)
      modifies store
      ensures var l := DeltaLog(d, policy, clock, store.fault, old(store.attempts), d.key in old(store.proxies));
              store.attempts == l.attempts && failed == l.failed && HealthApplied(old(store.proxies), store.proxies, l.effects)
    {
      failed := 0;
      hide WriteOf, SuccessDelta, FailureDelta, HealthApplied;
      ghost var m0, n0 := store.proxies, store.attempts;
      NothingApplied(m0);
      if d.bucket.successCount > 0 {
        SuccessIsStamped(d.bucket, policy, clock(store.attempts));
        failed := RecordOutcome(d.key, SuccessDelta(d.bucket, policy, clock(store.attempts)), d.bucket.successCount);
      }
      ghost var m1, n1 := store.proxies, store.attempts;
      ghost var l := SuccessLog(d, policy, clock, store.fault, n0, d.key in m0);
      SameKeys(m0, m1, l.effects);
      NothingApplied(m1);
      if d.bucket.hasFailure {
        FailureIsStamped(d.bucket, policy, clock(store.attempts));
        var f := RecordOutcome(d.key, FailureDelta(d.bucket, policy, clock(store.attempts)), 1);
        failed := failed + f;
      }
      AppliedNext(m0, m1, store.proxies, l.effects, FailureLog(d, policy, clock, store.fault, n1, d.key in m0).effects);
    }

    /** Coalesces and writes the events. */
    method WriteEvents(taken: seq<Event>, clock: Clock) returns (failed: nat)
      modifies store
      ensures var l := LogOf(CoalesceOf(taken).deltas, policy, clock, store.fault, old(store.attempts), old(store.proxies).Keys);
              failed == l.failed && HealthApplied(old(store.proxies), store.proxies, l.effects)
      ensures failed <= |taken|
    {
      failed := 0;
      var deltas := Coalesce(taken);
      ghost var m0, n0 := store.proxies, store.attempts;
      NothingApplied(m0);
      for i := 0 to |deltas|
        invariant var l := LogOf(deltas[..i], policy, clock, store.fault, n0, m0.Keys);
                  store.attempts == l.attempts && failed == l.failed && HealthApplied(m0, store.proxies, l.effects)
      {
        hide HealthApplied, DeltaLog, LogOf;
        ghost var l, mi := LogOf(deltas[..i], policy, clock, store.fault, n0, m0.Keys), store.proxies;
        SameKeys(m0, mi, l.effects);
        var f := WriteDelta(deltas[i], clock);
        failed := failed + f;
        LogNext(deltas, i, policy, clock, store.fault, n0, m0.Keys);
        AppliedNext(m0, mi, store.proxies, l.effects,
                    DeltaLog(deltas[i], policy, clock, store.fault, l.attempts, deltas[i].key in m0).effects);
      }
      assert deltas[..|deltas|] == deltas;
      CoalescingKeepsCount(taken);
      FailedNotMore(deltas, policy, clock, store.fault, n0, m0.Keys);
    }

    /** Drains the buffer and writes it: every event taken is counted once, as drained or as failed. */
    method FlushDrain(clock: Clock) returns (drained: nat, failed: nat)
      requires Valid()
      modifies this`len, store
      ensures Valid() && Buffered() == []
      ensures drained + failed == |old(Buffered())|
      ensures var l := LogOf(CoalesceOf(old(Buffered())).deltas, policy, clock, store.fault, old(store.attempts), old(store.proxies).Keys);
              failed == l.failed && HealthApplied(old(store.proxies), store.proxies, l.effects)
    {
      var taken := Drain();
      if taken == [] {
        NothingApplied(store.proxies);
        return 0, 0;
      }
      failed := WriteEvents(taken, clock);
      drained := |taken| - failed;
    }

    /** Close stops recording and drains what is left; a second Close does nothing. */
    method Close(clock: Clock) returns (drained: nat, failed: nat)
      requires Valid()
      modifies this`len, this`closed, store
      ensures Valid() && closed
      ensures old(closed) ==> Buffered() == old(Buffered()) && store.proxies == old(store.proxies) && drained == failed == 0
      ensures !old(closed) ==> Buffered() == [] && drained + failed == |old(Buffered())|
    {
      if closed {
        return 0, 0;
      }
      closed := true;
      drained, failed := FlushDrain(clock);
    }
  }

  lemma SuccessIsStamped(b: Bucket, p: Policy, at: Instant)
    ensures SuccessDelta(b, p, at).observedAt == Some(at)
  {
  }

  lemma FailureIsStamped(b: Bucket, p: Policy, at: Instant)
    ensures FailureDelta(b, p, at).observedAt == Some(at)
  {
  }

  lemma SameKeys(before: map<string, Proxy>, after: map<string, Proxy>, effects: seq<Effect>)
    requires HealthApplied(before, after, effects)
    ensures before.Keys == after.Keys
  {
  }

  lemma LogNext(deltas: seq<OrderedDelta>, i: nat, p: Policy, clock: Clock, fault: nat -> Fault, n: nat, known: set<string>)
    requires i < |deltas|
    ensures var l := LogOf(deltas[..i], p, clock, fault, n, known);
            LogOf(deltas[..i + 1], p, clock, fault, n, known)
            == Then(l, DeltaLog(deltas[i], p, clock, fault, l.attempts, deltas[i].key in known))
  {
    hide DeltaLog;
    assert deltas[..i + 1][..i] == deltas[..i];
  }

  // ---------- with a healthy backend, exactly the events of unknown proxies fail ----------

  function KnownEvents(events: seq<Event>, known: set<string>): nat {
    if events == [] then 0
    else KnownEvents(events[..|events| - 1], known) + (if events[|events| - 1].proxyId in known then 1 else 0)
  }

  function KnownSize(deltas: seq<OrderedDelta>, known: set<string>): nat {
    if deltas == [] then 0
    else KnownSize(deltas[..|deltas| - 1], known)
         + (if deltas[|deltas| - 1].key in known then BucketSize(deltas[|deltas| - 1].bucket) else 0)
  }

  lemma {:induction false} KnownSizeUpdate(deltas: seq<OrderedDelta>, i: nat, b: Bucket, known: set<string>)
    requires i < |deltas|
    ensures KnownSize(deltas[i := deltas[i].(bucket := b)], known) ==
            KnownSize(deltas, known) + (if deltas[i].key in known then BucketSize(b) - BucketSize(deltas[i].bucket) else 0)
  {
    var front, changed := deltas[..|deltas| - 1], deltas[i := deltas[i].(bucket := b)];
    if i < |deltas| - 1 {
      KnownSizeUpdate(front, i, b, known);
      assert changed[..|deltas| - 1] == front[i := front[i].(bucket := b)];
    } else {
      assert changed[..|deltas| - 1] == front;
    }
  }

  lemma KnownSizeAppend(deltas: seq<OrderedDelta>, d: OrderedDelta, known: set<string>)
    ensures KnownSize(deltas + [d], known) == KnownSize(deltas, known) + if d.key in known then BucketSize(d.bucket) else 0
  {
    assert (deltas + [d])[..|deltas|] == deltas;
  }

  lemma AddEventKnown(c: Coalesced, e: Event, known: set<string>)
    requires WellFormed(c)
    ensures KnownSize(AddEvent(c, e).deltas, known) == KnownSize(c.deltas, known) + if e.proxyId in known then 1 else 0
  {
    if e.success && e.proxyId in c.open {
      assert Open(c, e.proxyId);
      var i := c.open[e.proxyId];
      KnownSizeUpdate(c.deltas, i, AddSuccess(c.deltas[i].bucket, e.latencyMs), known);
    } else {
      KnownSizeAppend(c.deltas, OrderedDelta(e.proxyId, if e.success then AddSuccess(EMPTY, e.latencyMs) else FailureBucket(e)), known);
    }
    hide WellFormed, KnownSize;
  }

  lemma {:induction false} CoalescingKeepsKnown(events: seq<Event>, known: set<string>)
    ensures KnownSize(CoalesceOf(events).deltas, known) == KnownEvents(events, known)
  {
    if events != [] {
      hide WellFormed, AddEvent;
      CoalescingKeepsKnown(events[..|events| - 1], known);
      AddEventKnown(CoalesceOf(events[..|events| - 1]), events[|events| - 1], known);
    }
  }

  lemma {:induction false} FaultlessLog(deltas: seq<OrderedDelta>, p: Policy, clock: Clock, fault: nat -> Fault, n: nat, known: set<string>)
    requires forall k: nat :: fault(k) == NoFault
    ensures LogOf(deltas, p, clock, fault, n, known).failed == Size(deltas) - KnownSize(deltas, known)
  {
    hide SuccessDelta, FailureDelta;
    if deltas != [] { FaultlessLog(deltas[..|deltas| - 1], p, clock, fault, n, known); }
  }

  /** Without backend faults the events that fail are exactly those of proxies the store lacks. */
  lemma OnlyUnknownProxiesFail(events: seq<Event>, p: Policy, clock: Clock, fault: nat -> Fault, n: nat, known: set<string>)
    requires forall k: nat :: fault(k) == NoFault
    ensures LogOf(CoalesceOf(events).deltas, p, clock, fault, n, known).failed == |events| - KnownEvents(events, known)
  {
    FaultlessLog(CoalesceOf(events).deltas, p, clock, fault, n, known);
    CoalescingKeepsKnown(events, known);
    CoalescingKeepsCount(events);
  }

  lemma FaultlessDelta(d: OrderedDelta, p: Policy, clock: Clock, fault: nat -> Fault, n: nat, known: bool, at: Instant, key: string, h: Health)
    requires (forall k: nat :: fault(k) == NoFault) && (forall k: nat :: clock(k) == at) && (d.key == key ==> known)
    ensures ApplyEffects(DeltaLog(d, p, clock, fault, n, known).effects, key, h) == if d.key == key then ApplyBucket(h, d.bucket, p, at) else h
  {
    var l := SuccessLog(d, p, clock, fault, n, known);
    var m := FailureLog(d, p, clock, fault, l.attempts, known);
    SuccessIsStamped(d.bucket, p, at);
    FailureIsStamped(d.bucket, p, at);
    hide SuccessDelta, FailureDelta, HealthAfter;
    ApplyAppended(l.effects, m.effects, key, h);
    ApplyOne(Effect(d.key, SuccessDelta(d.bucket, p, at)), key, h);
    ApplyOne(Effect(d.key, FailureDelta(d.bucket, p, at)), key, ApplyEffects(l.effects, key, h));
  }

  lemma {:induction false} FaultlessApplies(deltas: seq<OrderedDelta>, p: Policy, clock: Clock, fault: nat -> Fault, n: nat, known: set<string>,
                                            key: string, h: Health, at: Instant)
    requires (forall k: nat :: fault(k) == NoFault) && (forall k: nat :: clock(k) == at) && key in known
    ensures ApplyEffects(LogOf(deltas, p, clock, fault, n, known).effects, key, h) == ApplyDeltas(deltas, key, h, p, at)
  {
    hide DeltaLog, ApplyBucket;
    if deltas != [] {
      var l, d := LogOf(deltas[..|deltas| - 1], p, clock, fault, n, known), deltas[|deltas| - 1];
      FaultlessApplies(deltas[..|deltas| - 1], p, clock, fault, n, known, key, h, at);
      ApplyAppended(l.effects, DeltaLog(d, p, clock, fault, l.attempts, d.key in known).effects, key, h);
      FaultlessDelta(d, p, clock, fault, l.attempts, d.key in known, at, key, ApplyEffects(l.effects, key, h));
    }
  }

  /** A flush against a healthy backend, all at one observation time, leaves every proxy with the health that its
      events, applied one by one, would leave. */
  lemma FlushMeansEvents(events: seq<Event>, before: map<string, Proxy>, after: map<string, Proxy>,
                         clock: Clock, fault: nat -> Fault, n: nat, p: Policy, at: Instant, id: string)
    requires (forall k: nat :: fault(k) == NoFault) && (forall k: nat :: clock(k) == at) && p.successReward > 0 && id in before
    requires HealthApplied(before, after, LogOf(CoalesceOf(events).deltas, p, clock, fault, n, before.Keys).effects)
    ensures HealthOf(after[id]) == ApplyEvents(events, id, HealthOf(before[id]), p, at)
  {
    FaultlessApplies(CoalesceOf(events).deltas, p, clock, fault, n, before.Keys, id, HealthOf(before[id]), at);
    CoalescingPreservesHealth(events, id, HealthOf(before[id]), p, at);
  }

  /** In the stored record: when all of a proxy's drained events are failures, a flush by a recorder built with policy p
      costs it the penalties of their kinds, and from the threshold on opens its circuit. */
  lemma FlushedFailures(events: seq<Event>, before: map<string, Proxy>, after: map<string, Proxy>,
                        clock: Clock, fault: nat -> Fault, n: nat, p: Policy, at: Instant, id: string)
    requires (forall k: nat :: fault(k) == NoFault) && (forall k: nat :: clock(k) == at) && (p.successReward >= 0 || p.failurePenalty == None)
    requires id in before && CountFor(events, id) > 0 && forall e :: e in events && e.proxyId == id ==> !e.success
    requires before[id].consecutiveFailures >= 0
    requires HealthApplied(before, after, LogOf(CoalesceOf(events).deltas, Effective(p), clock, fault, n, before.Keys).effects)
    ensures var was, now, cost := before[id], after[id], PenaltiesFor(events, id, p);
            var start := if was.healthScore == 0 && was.consecutiveFailures == 0 && was.lastSuccessAt == None && was.lastFailureAt == None
                         then 100 else was.healthScore;
            var k := was.consecutiveFailures + CountFor(events, id);
            && now.healthScore == (if start > cost then start - cost else 0) && now.consecutiveFailures == k && now.lastFailureAt == Some(at)
            && now.circuitOpenUntil == if k >= ThresholdFor(p) then Some(at + CooldownFor(p, k)) else was.circuitOpenUntil
  {
    hide *;
    RewardsOfRecorder(p);
    SameKeys(before, after, LogOf(CoalesceOf(events).deltas, Effective(p), clock, fault, n, before.Keys).effects);
    HealthFields(before[id]);
    HealthFields(after[id]);
    FlushMeansEvents(events, before, after, clock, fault, n, Effective(p), at, id);
    FailuresOfEvents(HealthOf(before[id]), events, id, p, at);
  }

  lemma RewardsOfRecorder(p: Policy)
    requires p.successReward >= 0 || p.failurePenalty == None
    ensures Effective(p).successReward > 0
  {
  }

  lemma HealthFields(p: Proxy)
    ensures var h := HealthOf(p);
            && h.score == p.healthScore && h.failures == p.consecutiveFailures && h.circuit == p.circuitOpenUntil
            && h.successAt == p.lastSuccessAt && h.failureAt == p.lastFailureAt
  {
  }

  // ---------- runs of the buffer ----------

  datatype Op = Record(event: Event) | TakeAll | Shut

  /** The buffer after a run, with the batches its drains returned. */
  datatype Trace = Trace(buffer: seq<Event>, closed: bool, batches: seq<seq<Event>>)

  function RunOf(ops: seq<Op>, capacity: nat): Trace {
    if ops == [] then Trace([], false, [])
    else
      var t := RunOf(ops[..|ops| - 1], capacity);
      match ops[|ops| - 1]
      case Record(e) => if e.proxyId == "" || t.closed then t else t.(buffer := LastN(t.buffer + [e], capacity))
      case TakeAll => t.(buffer := [], batches := t.batches + [t.buffer])
      case Shut => t.(closed := true)
  }

  /** The events that count: named proxies, before the recorder was closed, cut at every drain. */
  datatype Segments = Segments(done: seq<seq<Event>>, current: seq<Event>)

  function SegmentsOf(ops: seq<Op>): Segments {
    if ops == [] then Segments([], [])
    else
      var front := ops[..|ops| - 1];
      var s := SegmentsOf(front);
      match ops[|ops| - 1]
      case Record(e) => if e.proxyId == "" || Shut in front then s else s.(current := s.current + [e])
      case TakeAll => Segments(s.done + [s.current], [])
      case Shut => s
  }

  lemma LastNExtends(s: seq<Event>, e: Event, n: nat)
    requires n > 0
    ensures LastN(LastN(s, n) + [e], n) == LastN(s + [e], n)
  {
  }

  /** In every run the buffer is the last min(n, capacity) events recorded since the last drain, in
      order, and each drain returned exactly that for its own stretch: only the oldest are lost. */
  lemma {:induction false} BufferIsRecentTail(ops: seq<Op>, capacity: nat)
    requires capacity > 0
    ensures var t, s := RunOf(ops, capacity), SegmentsOf(ops);
            && t.buffer == LastN(s.current, capacity)
            && t.closed == (Shut in ops)
            && |t.batches| == |s.done|
            && forall i :: 0 <= i < |s.done| ==> t.batches[i] == LastN(s.done[i], capacity)
  {
    if ops != [] {
      var front := ops[..|ops| - 1];
      assert ops == front + [ops[|ops| - 1]];
      BufferIsRecentTail(front, capacity);
      if ops[|ops| - 1].Record? {
        LastNExtends(SegmentsOf(front).current, ops[|ops| - 1].event, capacity);
      }
    }
  }

  function Flatten(ss: seq<seq<Event>>): seq<Event> {
    if ss == [] then [] else Flatten(ss[..|ss| - 1]) + ss[|ss| - 1]
  }

  /** The events accepted by the recorder, in order. */
  function Accepted(ops: seq<Op>): seq<Event> {
    if ops == [] then []
    else
      var front := ops[..|ops| - 1];
      match ops[|ops| - 1]
      case Record(e) => if e.proxyId == "" || Shut in front then Accepted(front) else Accepted(front) + [e]
      case TakeAll => Accepted(front)
      case Shut => Accepted(front)
  }

  /** The stretches between drains partition the accepted events: nothing is drained twice. */
  lemma {:induction false} SegmentsPartition(ops: seq<Op>)
    ensures Flatten(SegmentsOf(ops).done) + SegmentsOf(ops).current == Accepted(ops)
  {
    if ops != [] {
      var front := ops[..|ops| - 1];
      var s := SegmentsOf(front);
      SegmentsPartition(front);
      match ops[|ops| - 1]
      case Record(e) =>
        assert Flatten(s.done) + (s.current + [e]) == (Flatten(s.done) + s.current) + [e];
      case TakeAll =>
        assert (s.done + [s.current])[..|s.done|] == s.done;
      case Shut =>
    }
  }
}
