/** The coalescer rewrites a list of health events into fewer deltas. Applying the rewritten list
    has the same effect on every proxy's health as applying the events one by one. */
module Coalescing {
  import opened Domain
  import opened ProxyHealth
  import Arith

  datatype Event = Event(proxyId: string, success: bool, kind: FailureKind, latencyMs: int, hint: string)

  datatype Policy = Policy(
    successReward: int, failurePenalty: Option<map<FailureKind, int>>, circuitOpenThreshold: int,
    circuitBaseCooldown: int, circuitMaxCooldown: int)

  const DEFAULT_POLICY := Policy(
    5, Some(map[FailureUnknown := 5, FailureConn := 10, FailureTimeout := 15, FailureAuth := 30, FailureProtocol := 30]),
    3, 30 * SECOND, 300 * SECOND)

  /** The policy a recorder built with p works with. */
  function Effective(p: Policy): Policy {
    if p.successReward == 0 || p.failurePenalty.None? then DEFAULT_POLICY else p
  }

  datatype Bucket = Bucket(
    successCount: nat, latencySumMs: int, latencyCount: nat, hasFailure: bool, failureKind: FailureKind, failureHint: string)

  datatype OrderedDelta = OrderedDelta(key: string, bucket: Bucket)

  /** The coalescer's state: the deltas so far and, per proxy, the bucket still open for successes. */
  datatype Coalesced = Coalesced(deltas: seq<OrderedDelta>, open: map<string, nat>)

  const EMPTY := Bucket(0, 0, 0, false, FailureUnknown, "")

  function AddSuccess(b: Bucket, latencyMs: int): Bucket {
    var b := b.(successCount := b.successCount + 1);
    if latencyMs > 0 then b.(latencySumMs := b.latencySumMs + latencyMs, latencyCount := b.latencyCount + 1) else b
  }

  function FailureBucket(e: Event): Bucket { EMPTY.(hasFailure := true, failureKind := e.kind, failureHint := e.hint) }

  predicate PureSuccess(b: Bucket) { b.successCount > 0 && !b.hasFailure }

  /** Every open bucket is a success bucket of its proxy, and no later delta concerns that proxy. */
  predicate Open(c: Coalesced, key: string) {
    key in c.open && c.open[key] < |c.deltas| && c.deltas[c.open[key]].key == key && PureSuccess(c.deltas[c.open[key]].bucket) &&
    forall j :: c.open[key] < j < |c.deltas| ==> c.deltas[j].key != key
  }

  predicate WellFormed(c: Coalesced) { forall key :: key in c.open ==> Open(c, key) }

  function AddEvent(c: Coalesced, e: Event): (r: Coalesced)
    requires WellFormed(c)
    ensures WellFormed(r)
  {
    if !e.success then
      Coalesced(c.deltas + [OrderedDelta(e.proxyId, FailureBucket(e))], c.open - {e.proxyId})
    else if e.proxyId !in c.open then
      Coalesced(c.deltas + [OrderedDelta(e.proxyId, AddSuccess(EMPTY, e.latencyMs))], c.open[e.proxyId := |c.deltas|])
    else
      assert Open(c, e.proxyId);
      var i := c.open[e.proxyId];
      c.(deltas := c.deltas[i := c.deltas[i].(bucket := AddSuccess(c.deltas[i].bucket, e.latencyMs))])
  }

  function CoalesceOf(events: seq<Event>): (r: Coalesced)
    ensures WellFormed(r)
  {
    if events == [] then Coalesced([], map[])
    else AddEvent(CoalesceOf(events[..|events| - 1]), events[|events| - 1])
  }

  /** The loop of the recorder. */
  method Coalesce(events: seq<Event>) returns (deltas: seq<OrderedDelta>)
    ensures deltas == CoalesceOf(events).deltas
  {
    deltas := [];
    var open: map<string, nat> := map[];
    for n := 0 to |events|
      invariant Coalesced(deltas, open) == CoalesceOf(events[..n])
    {
      assert events[..n + 1][..n] == events[..n];
      ghost var before := Coalesced(deltas, open);
      var event := events[n];
      if event.success {
        if event.proxyId !in open {
          deltas := deltas + [OrderedDelta(event.proxyId, AddSuccess(EMPTY, event.latencyMs))];
          open := open[event.proxyId := |deltas| - 1];
        } else {
          assert Open(before, event.proxyId);
          var idx := open[event.proxyId];
          deltas := deltas[idx := deltas[idx].(bucket := AddSuccess(deltas[idx].bucket, event.latencyMs))];
        }
      } else {
        open := open - {event.proxyId};
        deltas := deltas + [OrderedDelta(event.proxyId, FailureBucket(event))];
      }
    }
    assert events[..|events|] == events;
  }

  // ---------- what a list of deltas does to one proxy ----------

  function SuccessDelta(b: Bucket, p: Policy, at: Instant): Delta {
    var latency := if b.latencyCount > 0 then b.latencySumMs / b.latencyCount else 0;
    Delta(true, p.successReward * b.successCount, latency, "", 0, 0, 0, 0, Some(at))
  }

  function Lookup(m: map<FailureKind, int>, k: FailureKind): int { if k in m then m[k] else 0 }

  function FailureDelta(b: Bucket, p: Policy, at: Instant): Delta {
    var table := if p.failurePenalty.Some? then p.failurePenalty.value else map[];
    var penalty := Lookup(table, b.failureKind);
    Delta(false, 0, 0, b.failureHint, if penalty <= 0 then Lookup(table, FailureUnknown) else penalty,
          p.circuitOpenThreshold, p.circuitBaseCooldown, p.circuitMaxCooldown, Some(at))
  }

  function ApplyBucket(h: Health, b: Bucket, p: Policy, at: Instant): Health {
    var h := if b.successCount > 0 then HealthAfter(h, SuccessDelta(b, p, at), at) else h;
    if b.hasFailure then HealthAfter(h, FailureDelta(b, p, at), at) else h
  }

  function ApplyDeltas(deltas: seq<OrderedDelta>, key: string, h: Health, p: Policy, at: Instant): Health {
    if deltas == [] then h
    else
      var r, d := ApplyDeltas(deltas[..|deltas| - 1], key, h, p, at), deltas[|deltas| - 1];
      if d.key == key then ApplyBucket(r, d.bucket, p, at) else r
  }

  /** One event on its own, without coalescing. */
  function ApplyEvent(h: Health, e: Event, p: Policy, at: Instant): Health {
    ApplyBucket(h, if e.success then AddSuccess(EMPTY, e.latencyMs) else FailureBucket(e), p, at)
  }

  function ApplyEvents(events: seq<Event>, key: string, h: Health, p: Policy, at: Instant): Health {
    if events == [] then h
    else
      var r, e := ApplyEvents(events[..|events| - 1], key, h, p, at), events[|events| - 1];
      if e.proxyId == key then ApplyEvent(r, e, p, at) else r
  }

  // ---------- the rewriting preserves the meaning ----------

  /** One more success merged into a bucket is one more success applied after it. */
  lemma MergeSuccess(h: Health, b: Bucket, latencyMs: int, p: Policy, at: Instant)
    requires PureSuccess(b) && p.successReward > 0
    ensures ApplyBucket(h, AddSuccess(b, latencyMs), p, at) ==
            ApplyBucket(ApplyBucket(h, b, p, at), AddSuccess(EMPTY, latencyMs), p, at)
  {
    var k := b.successCount;
    Arith.Distribute(k, 1, p.successReward);
    Arith.NonNegative(k - 1, p.successReward);
    Arith.Distribute(k - 1, 1, p.successReward);
  }

  lemma {:induction false} ApplyAfterSkip(deltas: seq<OrderedDelta>, i: nat, key: string, h: Health, p: Policy, at: Instant)
    requires i < |deltas| && deltas[i].key == key
    requires forall j :: i < j < |deltas| ==> deltas[j].key != key
    ensures ApplyDeltas(deltas, key, h, p, at) == ApplyBucket(ApplyDeltas(deltas[..i], key, h, p, at), deltas[i].bucket, p, at)
  {
    hide ApplyBucket;
    if i < |deltas| - 1 {
      var front := deltas[..|deltas| - 1];
      ApplyAfterSkip(front, i, key, h, p, at);
      assert front[..i] == deltas[..i];
    }
  }

  lemma {:induction false} ApplyOtherKey(deltas: seq<OrderedDelta>, i: nat, b: Bucket, key: string, h: Health, p: Policy, at: Instant)
    requires i < |deltas| && deltas[i].key != key
    ensures ApplyDeltas(deltas[i := deltas[i].(bucket := b)], key, h, p, at) == ApplyDeltas(deltas, key, h, p, at)
  {
    hide ApplyBucket;
    var front := deltas[..|deltas| - 1];
    if i < |deltas| - 1 {
      ApplyOtherKey(front, i, b, key, h, p, at);
      assert deltas[i := deltas[i].(bucket := b)][..|deltas| - 1] == front[i := front[i].(bucket := b)];
    } else {
      assert deltas[i := deltas[i].(bucket := b)][..|deltas| - 1] == front;
    }
  }

  lemma AppendDelta(deltas: seq<OrderedDelta>, d: OrderedDelta, key: string, h: Health, p: Policy, at: Instant)
    ensures ApplyDeltas(deltas + [d], key, h, p, at) ==
            if d.key == key then ApplyBucket(ApplyDeltas(deltas, key, h, p, at), d.bucket, p, at)
            else ApplyDeltas(deltas, key, h, p, at)
  {
    assert (deltas + [d])[..|deltas|] == deltas;
  }

  lemma AddEventApplies(c: Coalesced, e: Event, key: string, h: Health, p: Policy, at: Instant)
    requires WellFormed(c) && p.successReward > 0
    ensures ApplyDeltas(AddEvent(c, e).deltas, key, h, p, at) ==
            if e.proxyId == key then ApplyEvent(ApplyDeltas(c.deltas, key, h, p, at), e, p, at)
            else ApplyDeltas(c.deltas, key, h, p, at)
  {
    hide ApplyBucket;
    if !e.success {
      AppendDelta(c.deltas, OrderedDelta(e.proxyId, FailureBucket(e)), key, h, p, at);
    } else if e.proxyId !in c.open {
      AppendDelta(c.deltas, OrderedDelta(e.proxyId, AddSuccess(EMPTY, e.latencyMs)), key, h, p, at);
    } else {
      assert Open(c, e.proxyId);
      var i := c.open[e.proxyId];
      var b := c.deltas[i].bucket;
      var merged := c.deltas[i := c.deltas[i].(bucket := AddSuccess(b, e.latencyMs))];
      if e.proxyId == key {
        ApplyAfterSkip(c.deltas, i, key, h, p, at);
        ApplyAfterSkip(merged, i, key, h, p, at);
        assert merged[..i] == c.deltas[..i];
        MergeSuccess(ApplyDeltas(c.deltas[..i], key, h, p, at), b, e.latencyMs, p, at);
      } else {
        ApplyOtherKey(c.deltas, i, AddSuccess(b, e.latencyMs), key, h, p, at);
      }
    }
  }

  /** Coalescing preserves meaning: for every event list, proxy and starting health, with a positive
      reward, the coalesced deltas leave the same score, failure count, circuit deadline and hint
      (and the same check times) as the events applied one by one. */
  lemma {:induction false} CoalescingPreservesHealth(events: seq<Event>, key: string, h: Health, p: Policy, at: Instant)
    requires p.successReward > 0
    ensures ApplyDeltas(CoalesceOf(events).deltas, key, h, p, at) == ApplyEvents(events, key, h, p, at)
  {
    if events != [] {
      var front := events[..|events| - 1];
      CoalescingPreservesHealth(front, key, h, p, at);
      AddEventApplies(CoalesceOf(front), events[|events| - 1], key, h, p, at);
    }
  }

  ghost predicate PreservesHealth(p: Policy) {
    forall events, key, h, at :: ApplyDeltas(CoalesceOf(events).deltas, key, h, p, at) == ApplyEvents(events, key, h, p, at)
  }

  lemma TwoSuccessesCoalesce(e: Event)
    requires e.success
    ensures CoalesceOf([e, e]).deltas == [OrderedDelta(e.proxyId, AddSuccess(AddSuccess(EMPTY, e.latencyMs), e.latencyMs))]
  {
    assert [e, e][..1] == [e] && [e][..0] == [];
    var one := AddEvent(CoalesceOf([]), e);
    assert CoalesceOf([e]) == one;
    assert one == Coalesced([OrderedDelta(e.proxyId, AddSuccess(EMPTY, e.latencyMs))], map[e.proxyId := 0]);
  }

  lemma OneDelta(d: OrderedDelta, h: Health, p: Policy, at: Instant)
    ensures ApplyDeltas([d], d.key, h, p, at) == ApplyBucket(h, d.bucket, p, at)
  {
    AppendDelta([], d, d.key, h, p, at);
    assert [] + [d] == [d];
  }

  lemma TwoEvents(e: Event, h: Health, p: Policy, at: Instant)
    ensures ApplyEvents([e, e], e.proxyId, h, p, at) == ApplyEvent(ApplyEvent(h, e, p, at), e, p, at)
  {
    hide ApplyEvent;
    assert [e, e][..1] == [e] && [e][..0] == [];
    assert ApplyEvents([e], e.proxyId, h, p, at) == ApplyEvent(h, e, p, at);
  }

  /** Two successes for a proxy at half health: coalesced they raise the score once, apart twice. */
  lemma NotPreservedWithoutReward(p: Policy, at: Instant)
    requires p.successReward <= 0
    ensures var e := Event("p", true, FailureUnknown, 0, "");
            var h := Health(50, 0, None, "", None, Some(at), None);
            && ApplyDeltas(CoalesceOf([e, e]).deltas, "p", h, p, at).score == 51
            && ApplyEvents([e, e], "p", h, p, at).score == 52
  {
    var e := Event("p", true, FailureUnknown, 0, "");
    var h := Health(50, 0, None, "", None, Some(at), None);
    TwoSuccessesCoalesce(e);
    OneDelta(CoalesceOf([e, e]).deltas[0], h, p, at);
    TwoEvents(e, h, p, at);
    hide ApplyDeltas, ApplyEvents, CoalesceOf;
  }

  /** The rewriting is meaning-preserving exactly for positive rewards. */
  lemma PreservesHealthIff(p: Policy)
    ensures PreservesHealth(p) <==> p.successReward > 0
  {
    if p.successReward > 0 {
      forall events, key, h, at
        ensures ApplyDeltas(CoalesceOf(events).deltas, key, h, p, at) == ApplyEvents(events, key, h, p, at)
      {
        CoalescingPreservesHealth(events, key, h, p, at);
      }
    } else {
      NotPreservedWithoutReward(p, 0);
    }
  }

  /** A recorder preserves meaning unless it was configured with a negative reward (and penalties). */
  lemma RecorderPreservesHealthIff(p: Policy)
    ensures PreservesHealth(Effective(p)) <==> p.successReward >= 0 || p.failurePenalty.None?
  {
    PreservesHealthIff(Effective(p));
  }

  // ---------- what events do to a score, by the recorder's policy ----------

  /** What a failure of this kind costs: the policy's penalty for it, else the one for unknown failures, else 10. */
  function PenaltyFor(p: Policy, k: FailureKind): int {
    if p.successReward == 0 || p.failurePenalty == None then
      (match k case FailureUnknown => 5 case FailureConn => 10 case FailureTimeout => 15 case FailureAuth => 30 case FailureProtocol => 30)
    else
      var table := p.failurePenalty.value;
      if k in table && table[k] > 0 then table[k]
      else if FailureUnknown in table && table[FailureUnknown] > 0 then table[FailureUnknown]
      else 10
  }

  function RewardFor(p: Policy): int {
    if p.successReward == 0 || p.failurePenalty == None then 5 else if p.successReward > 0 then p.successReward else 1
  }

  function Positive(given: int, default: int): int { if given > 0 then given else default }

  function CountFor(events: seq<Event>, key: string): nat {
    if events == [] then 0 else CountFor(events[..|events| - 1], key) + if events[|events| - 1].proxyId == key then 1 else 0
  }

  function PenaltiesFor(events: seq<Event>, key: string, p: Policy): int {
    if events == [] then 0
    else
      PenaltiesFor(events[..|events| - 1], key, p)
      + if events[|events| - 1].proxyId == key then PenaltyFor(p, events[|events| - 1].kind) else 0
  }

  /** How long a circuit stays open after the k-th failure in a row. */
  function CooldownFor(p: Policy, k: int): int {
    var default := p.successReward == 0 || p.failurePenalty == None;
    var cooldown := k * if default then 30_000_000_000 else Positive(p.circuitBaseCooldown, 30_000_000_000);
    var limit := if default then 300_000_000_000 else Positive(p.circuitMaxCooldown, 300_000_000_000);
    if cooldown > limit then limit else cooldown
  }

  function ThresholdFor(p: Policy): int {
    if p.successReward == 0 || p.failurePenalty == None then 3 else Positive(p.circuitOpenThreshold, 3)
  }

  lemma OneFailure(h: Health, e: Event, p: Policy, at: Instant)
    requires !e.success
    ensures var start := if h.score == 0 && h.failures == 0 && h.successAt == None && h.failureAt == None then 100 else h.score;
            var after, cost := ApplyEvent(h, e, Effective(p), at), PenaltyFor(p, e.kind);
            && after.score == (if start > cost then start - cost else 0) && after.failures == h.failures + 1 && after.failureAt == Some(at)
            && after.hint == e.hint
            && after.circuit == if h.failures + 1 >= ThresholdFor(p) then Some(at + CooldownFor(p, h.failures + 1)) else h.circuit
  {
  }

  lemma OneSuccess(h: Health, e: Event, p: Policy, at: Instant)
    requires e.success
    ensures var start := if h.score == 0 && h.failures == 0 && h.successAt == None && h.failureAt == None then 100 else h.score;
            var after := ApplyEvent(h, e, Effective(p), at);
            && after.score == (if start + RewardFor(p) < 100 then start + RewardFor(p) else 100) && after.failures == 0 && after.successAt == Some(at)
            && after.hint == h.hint
            && after.circuit == if h.circuit.Some? && h.circuit.value > at then h.circuit else None
  {
  }

  /** A proxy whose events are all failures loses the sum of their penalties, not below 0; their number counts up, and
      from the threshold on its circuit is open for the cooldown of that number. */
  lemma {:induction false} FailuresOfEvents(h: Health, events: seq<Event>, key: string, p: Policy, at: Instant)
    requires CountFor(events, key) > 0 && h.failures >= 0 && forall e :: e in events && e.proxyId == key ==> !e.success
    ensures var start := if h.score == 0 && h.failures == 0 && h.successAt == None && h.failureAt == None then 100 else h.score;
            var after, cost, k := ApplyEvents(events, key, h, Effective(p), at), PenaltiesFor(events, key, p), h.failures + CountFor(events, key);
            && after.score == (if start > cost then start - cost else 0) && after.failures == k && after.failureAt == Some(at)
            && after.circuit == if k >= ThresholdFor(p) then Some(at + CooldownFor(p, k)) else h.circuit
  {
    var front, e := events[..|events| - 1], events[|events| - 1];
    assert e in events;
    hide ApplyEvent, PenaltyFor, CooldownFor, ThresholdFor, Effective;
    if CountFor(front, key) > 0 { FailuresOfEvents(h, front, key, p, at); } else { NothingOfKey(h, front, key, p, at); }
    if e.proxyId == key { OneFailure(ApplyEvents(front, key, h, Effective(p), at), e, p, at); }
    PenaltyIsPositive(p, e.kind);
  }

  /** A proxy whose events are all successes gains the reward of each, up to 100. */
  lemma {:induction false} SuccessesOfEvents(h: Health, events: seq<Event>, key: string, p: Policy, at: Instant)
    requires CountFor(events, key) > 0 && forall e :: e in events && e.proxyId == key ==> e.success
    ensures var start := if h.score == 0 && h.failures == 0 && h.successAt == None && h.failureAt == None then 100 else h.score;
            var after, gain := ApplyEvents(events, key, h, Effective(p), at), CountFor(events, key) * RewardFor(p);
            && after.score == (if start + gain < 100 then start + gain else 100) && after.failures == 0 && after.successAt == Some(at)
            && after.circuit == if h.circuit.Some? && h.circuit.value > at then h.circuit else None
  {
    var front, e := events[..|events| - 1], events[|events| - 1];
    assert e in events;
    hide ApplyEvent, RewardFor, Effective;
    if CountFor(front, key) > 0 { SuccessesOfEvents(h, front, key, p, at); } else { NothingOfKey(h, front, key, p, at); }
    if e.proxyId == key { OneSuccess(ApplyEvents(front, key, h, Effective(p), at), e, p, at); }
    RewardIsPositive(p);
    Arith.Distribute(CountFor(front, key), 1, RewardFor(p));
  }

  lemma NothingOfKey(h: Health, events: seq<Event>, key: string, p: Policy, at: Instant)
    requires CountFor(events, key) == 0
    ensures ApplyEvents(events, key, h, Effective(p), at) == h && PenaltiesFor(events, key, p) == 0
  {
    hide ApplyEvent, PenaltyFor;
    if events != [] { NothingOfKey(h, events[..|events| - 1], key, p, at); }
  }

  lemma PenaltyIsPositive(p: Policy, k: FailureKind)
    ensures PenaltyFor(p, k) > 0
  {
  }

  lemma RewardIsPositive(p: Policy)
    ensures RewardFor(p) > 0
  {
  }

  // ---------- no event is lost in the rewriting ----------

  function BucketSize(b: Bucket): nat { b.successCount + if b.hasFailure then 1 else 0 }

  function Size(deltas: seq<OrderedDelta>): nat {
    if deltas == [] then 0 else Size(deltas[..|deltas| - 1]) + BucketSize(deltas[|deltas| - 1].bucket)
  }

  lemma {:induction false} SizeUpdate(deltas: seq<OrderedDelta>, i: nat, d: OrderedDelta)
    requires i < |deltas|
    ensures Size(deltas[i := d]) == Size(deltas) - BucketSize(deltas[i].bucket) + BucketSize(d.bucket)
  {
    var front := deltas[..|deltas| - 1];
    if i < |deltas| - 1 {
      SizeUpdate(front, i, d);
      assert deltas[i := d][..|deltas| - 1] == front[i := d];
    } else {
      assert deltas[i := d][..|deltas| - 1] == front;
    }
  }

  lemma SizeAppend(deltas: seq<OrderedDelta>, d: OrderedDelta)
    ensures Size(deltas + [d]) == Size(deltas) + BucketSize(d.bucket)
  {
    assert (deltas + [d])[..|deltas|] == deltas;
  }

  /** The bucket sizes sum to the number of events. */
  lemma {:induction false} CoalescingKeepsCount(events: seq<Event>)
    ensures Size(CoalesceOf(events).deltas) == |events|
  {
    if events != [] {
      var c, e := CoalesceOf(events[..|events| - 1]), events[|events| - 1];
      CoalescingKeepsCount(events[..|events| - 1]);
      if e.success && e.proxyId in c.open {
        assert Open(c, e.proxyId);
        var i := c.open[e.proxyId];
        SizeUpdate(c.deltas, i, c.deltas[i].(bucket := AddSuccess(c.deltas[i].bucket, e.latencyMs)));
      } else {
        SizeAppend(c.deltas, OrderedDelta(e.proxyId, if e.success then AddSuccess(EMPTY, e.latencyMs) else FailureBucket(e)));
      }
    }
  }

  // ---------- nor is a latency ----------

  /** The latencies that count for a proxy's average: of its successes, where positive. */
  function LatencyFor(events: seq<Event>, key: string): int {
    if events == [] then 0
    else
      var e := events[|events| - 1];
      LatencyFor(events[..|events| - 1], key) + if e.proxyId == key && e.success && e.latencyMs > 0 then e.latencyMs else 0
  }

  function TimedFor(events: seq<Event>, key: string): nat {
    if events == [] then 0
    else
      var e := events[|events| - 1];
      TimedFor(events[..|events| - 1], key) + if e.proxyId == key && e.success && e.latencyMs > 0 then 1 else 0
  }

  function LatencyIn(deltas: seq<OrderedDelta>, key: string): int {
    if deltas == [] then 0
    else LatencyIn(deltas[..|deltas| - 1], key) + if deltas[|deltas| - 1].key == key then deltas[|deltas| - 1].bucket.latencySumMs else 0
  }

  function TimedIn(deltas: seq<OrderedDelta>, key: string): nat {
    if deltas == [] then 0
    else TimedIn(deltas[..|deltas| - 1], key) + if deltas[|deltas| - 1].key == key then deltas[|deltas| - 1].bucket.latencyCount else 0
  }

  lemma {:induction false} LatencyUpdate(deltas: seq<OrderedDelta>, i: nat, b: Bucket, key: string)
    requires i < |deltas|
    ensures var changed, was := deltas[i := deltas[i].(bucket := b)], deltas[i].bucket;
            && LatencyIn(changed, key) == LatencyIn(deltas, key) + (if deltas[i].key == key then b.latencySumMs - was.latencySumMs else 0)
            && TimedIn(changed, key) == TimedIn(deltas, key) + (if deltas[i].key == key then b.latencyCount - was.latencyCount else 0)
  {
    var front, changed := deltas[..|deltas| - 1], deltas[i := deltas[i].(bucket := b)];
    if i < |deltas| - 1 {
      LatencyUpdate(front, i, b, key);
      assert changed[..|deltas| - 1] == front[i := front[i].(bucket := b)];
    } else {
      assert changed[..|deltas| - 1] == front;
    }
  }

  lemma LatencyAppend(deltas: seq<OrderedDelta>, d: OrderedDelta, key: string)
    ensures LatencyIn(deltas + [d], key) == LatencyIn(deltas, key) + if d.key == key then d.bucket.latencySumMs else 0
    ensures TimedIn(deltas + [d], key) == TimedIn(deltas, key) + if d.key == key then d.bucket.latencyCount else 0
  {
    assert (deltas + [d])[..|deltas|] == deltas;
  }

  /** A proxy's buckets together hold exactly the sum and number of its positive success latencies. */
  lemma {:induction false} CoalescingKeepsLatency(events: seq<Event>, key: string)
    ensures LatencyIn(CoalesceOf(events).deltas, key) == LatencyFor(events, key)
    ensures TimedIn(CoalesceOf(events).deltas, key) == TimedFor(events, key)
  {
    if events != [] {
      var c, e := CoalesceOf(events[..|events| - 1]), events[|events| - 1];
      CoalescingKeepsLatency(events[..|events| - 1], key);
      if e.success && e.proxyId in c.open {
        assert Open(c, e.proxyId);
        var i := c.open[e.proxyId];
        LatencyUpdate(c.deltas, i, AddSuccess(c.deltas[i].bucket, e.latencyMs), key);
      } else {
        LatencyAppend(c.deltas, OrderedDelta(e.proxyId, if e.success then AddSuccess(EMPTY, e.latencyMs) else FailureBucket(e)), key);
      }
      hide LatencyIn, TimedIn, WellFormed;
    }
  }

  /** What a success bucket reports as its latency: the mean, rounded down, of what it holds, or nothing. */
  lemma MeanLatency(b: Bucket, p: Policy, at: Instant)
    requires b.latencySumMs >= b.latencyCount
    ensures var d := SuccessDelta(b, p, at);
            if b.latencyCount == 0 then d.latencyMs == 0
            else d.latencyMs * b.latencyCount <= b.latencySumMs < (d.latencyMs + 1) * b.latencyCount
  {
  }
}
