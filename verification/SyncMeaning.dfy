/** A sync and the picks after it in terms of the candidates' own records. */
module SyncMeaning {
  import opened Domain
  import opened ZFair
  import opened ZFairQueue
  import opened SyncSkip
  import opened SyncRuns
  import opened SelectRuns
  import ZFairLag

  /** The last healthy record of its id in the list. */
  predicate Counts(cs: seq<Proxy>, now: Instant, i: int) {
    0 <= i < |cs| && Healthy(cs[i], now) && forall j :: i < j < |cs| && Healthy(cs[j], now) ==> cs[j].id != cs[i].id
  }

  lemma {:induction false} LastRecordCounts(cs: seq<Proxy>, now: Instant, i: int)
    requires Counts(cs, now, i)
    ensures cs[i].id in EligibleById(cs, now) && EligibleById(cs, now)[cs[i].id] == cs[i]
  {
    EligibleByIdNext(cs, now);
    hide EligibleById;
    if i < |cs| - 1 {
      CountsBefore(cs, now, i);
      hide Counts;
      LastRecordCounts(cs[..|cs| - 1], now, i);
    }
  }

  lemma {:induction false} OnlyRecordsCount(cs: seq<Proxy>, now: Instant, id: string)
    requires id in EligibleById(cs, now)
    ensures exists i :: 0 <= i < |cs| && Counts(cs, now, i) && cs[i].id == id
  {
    if cs == [] {
    } else {
      var front, p := cs[..|cs| - 1], cs[|cs| - 1];
      EligibleByIdNext(cs, now);
      hide EligibleById;
      if Healthy(p, now) && p.id == id {
        assert Counts(cs, now, |front|);
      } else {
        OnlyRecordsCount(front, now, id);
        var i :| 0 <= i < |front| && Counts(front, now, i) && front[i].id == id;
        assert Counts(cs, now, i);
      }
    }
  }

  /** The candidates of a call by id: for each id its last healthy record, and no others. */
  lemma CandidatesMeaning(cs: seq<Proxy>, now: Instant)
    ensures forall i :: Counts(cs, now, i) ==> cs[i].id in EligibleById(cs, now) && EligibleById(cs, now)[cs[i].id] == cs[i]
    ensures forall id :: id in EligibleById(cs, now) ==> exists i :: 0 <= i < |cs| && Counts(cs, now, i) && cs[i].id == id
  {
    forall i | Counts(cs, now, i) ensures cs[i].id in EligibleById(cs, now) && EligibleById(cs, now)[cs[i].id] == cs[i] {
      LastRecordCounts(cs, now, i);
    }
    hide EligibleById, Counts;
    forall id | id in EligibleById(cs, now) ensures exists i :: 0 <= i < |cs| && Counts(cs, now, i) && cs[i].id == id { OnlyRecordsCount(cs, now, id); }
  }

  lemma EligibleByIdNext(cs: seq<Proxy>, now: Instant)
    requires cs != []
    ensures var rest, p := EligibleById(cs[..|cs| - 1], now), cs[|cs| - 1];
            EligibleById(cs, now) == if Healthy(p, now) then rest[p.id := p] else rest
  {
  }

  lemma CountsBefore(cs: seq<Proxy>, now: Instant, i: int)
    requires Counts(cs, now, i) && i < |cs| - 1
    ensures Counts(cs[..|cs| - 1], now, i) && (Healthy(cs[|cs| - 1], now) ==> cs[|cs| - 1].id != cs[i].id)
  {
    var front := cs[..|cs| - 1];
    assert front[i] == cs[i] && forall j :: i < j < |front| ==> front[j] == cs[j];
  }

  // ---------- what a sync writes ----------

  function LatencyMs(p: Proxy, defaultLatencyMs: nat): nat { if p.latencyEwmaMs > 0 then p.latencyEwmaMs else defaultLatencyMs }

  /** The node has the record's weight, health, latency and circuit, in whole milliseconds. */
  predicate NodeOf(n: Node, p: Proxy, defaultLatencyMs: nat) {
    && n.weight == p.weight && n.health == p.healthScore && n.latencyMs == Some(LatencyMs(p, defaultLatencyMs))
    && n.circuitUntil == match p.circuitOpenUntil case None => 0 case Some(at) => at / 1_000_000
  }

  lemma WrittenIsRecord(nodes: Nodes, p: Proxy, defaultLatencyMs: nat)
    ensures var n := Written(nodes, p.id, FieldsOf(p, defaultLatencyMs));
            && NodeOf(n, p, defaultLatencyMs)
            && (if p.id in nodes then n.runtime == nodes[p.id].runtime && n.nextEligible == nodes[p.id].nextEligible
                else n.runtime == 0.0 && n.nextEligible == 0)
  {
  }

  /** After a performed sync the node of every candidate is that of its record; a known node keeps its runtime and next
      eligibility, a new one starts at 0; nodes that are no candidates, and both sets, stay as they were. */
  lemma SyncWritesRecords(w: World, c: Call, g: Settings, i: nat)
    requires Possible(c, g) && Performs(w, c, g) && Counts(c.candidates, c.now, i)
    ensures var q, r, p := w.process.queue, AfterSync(w, c, g), c.candidates[i];
            && p.id in r.nodes && NodeOf(r.nodes[p.id], p, g.defaultLatencyMs)
            && (if p.id in q.nodes then r.nodes[p.id].runtime == q.nodes[p.id].runtime && r.nodes[p.id].nextEligible == q.nodes[p.id].nextEligible
                else r.nodes[p.id].runtime == 0.0 && r.nodes[p.id].nextEligible == 0)
            && r.ready == q.ready && r.delayed == q.delayed
            && forall id :: id in r.nodes && id !in EligibleById(c.candidates, c.now) ==> id in q.nodes && r.nodes[id] == q.nodes[id]
  {
    var p := c.candidates[i];
    CandidatesMeaning(c.candidates, c.now);
    WrittenIsRecord(w.process.queue.nodes, p, g.defaultLatencyMs);
    WritesOf(c, g);
    hide *;
    SyncIsWriteAll(w, c, g);
    WriteAllNodes(w.process.queue, CallWrites(c, g));
  }

  lemma WritesOf(c: Call, g: Settings)
    ensures CallWrites(c, g).Keys == EligibleById(c.candidates, c.now).Keys
    ensures forall id :: id in CallWrites(c, g) ==> CallWrites(c, g)[id] == FieldsOf(EligibleById(c.candidates, c.now)[id], g.defaultLatencyMs)
  {
    hide EligibleById, FieldsOf;
  }

  lemma SyncIsWriteAll(w: World, c: Call, g: Settings)
    requires Possible(c, g) && Performs(w, c, g)
    ensures AfterSync(w, c, g) == WriteAll(w.process.queue, CallWrites(c, g), CallWrites(c, g).Keys)
  {
    assert c.executed == CallWrites(c, g).Keys;
    hide CallWrites, WriteAll, Signature, Ambiguous;
  }

  lemma WriteAllNodes(q: Queue, writes: map<string, Fields>)
    ensures var r := WriteAll(q, writes, writes.Keys);
            && r.ready == q.ready && r.delayed == q.delayed
            && (forall id :: id in writes ==> id in r.nodes && r.nodes[id] == Written(q.nodes, id, writes[id]))
            && forall id :: id in r.nodes && id !in writes ==> id in q.nodes && r.nodes[id] == q.nodes[id]
  {
    hide Written;
  }

  // ---------- when a sync is skipped ----------

  /** Call i wrote its candidates, and no later one has. */
  ghost predicate LastSync(q: Queue, calls: seq<Call>, i: nat, g: Settings)
    requires AllPossible(calls, g)
  {
    && i < |calls| && Performs(Calls(q, calls[..i], g), calls[i], g)
    && forall j :: i < j < |calls| ==> !Performs(Calls(q, calls[..j], g), calls[j], g)
  }

  lemma StepIdles(w: World, d: Call, g: Settings)
    requires Possible(d, g) && !Performs(w, d, g)
    ensures var v := Step(w, d, g); v.process.lastAt == w.process.lastAt && v.process.lastSig == w.process.lastSig && v.synced == w.synced
  {
    hide Run, CallWrites, Signature, WriteAll, Fresh;
  }

  lemma {:induction false} LastSyncIsRemembered(q: Queue, calls: seq<Call>, i: nat, g: Settings)
    requires AllPossible(calls, g) && LastSync(q, calls, i, g)
    ensures Remembers(Calls(q, calls, g), calls[i], g)
  {
    var front, d := calls[..|calls| - 1], calls[|calls| - 1];
    LastCall(q, calls, g);
    if i == |front| {
      hide *;
      StepPerforms(Calls(q, front, g), d, g);
    } else {
      LastSyncBefore(q, calls, i, g);
      hide *;
      LastSyncIsRemembered(q, front, i, g);
      StepIdles(Calls(q, front, g), d, g);
      IdlesRemember(Calls(q, front, g), Calls(q, calls, g), calls[i], g);
    }
  }

  lemma LastCall(q: Queue, calls: seq<Call>, g: Settings)
    requires AllPossible(calls, g) && calls != []
    ensures var front, d := calls[..|calls| - 1], calls[|calls| - 1];
            AllPossible(front, g) && Possible(d, g) && Calls(q, calls, g) == Step(Calls(q, front, g), d, g)
  {
    hide Step, Possible;
  }

  lemma LastSyncBefore(q: Queue, calls: seq<Call>, i: nat, g: Settings)
    requires AllPossible(calls, g) && LastSync(q, calls, i, g) && i < |calls| - 1
    ensures var front := calls[..|calls| - 1];
            AllPossible(front, g) && LastSync(q, front, i, g) && front[i] == calls[i] && !Performs(Calls(q, front, g), calls[|calls| - 1], g)
  {
    hide Calls, Possible, Performs;
    var front := calls[..|calls| - 1];
    assert front[..i] == calls[..i] && calls[..|front|] == front;
    forall j | i < j < |front| ensures !Performs(Calls(q, front[..j], g), front[j], g) { assert front[..j] == calls[..j]; }
  }

  lemma IdlesRemember(w: World, v: World, s: Call, g: Settings)
    requires Remembers(w, s, g)
    requires v.process.lastAt == w.process.lastAt && v.process.lastSig == w.process.lastSig && v.synced == w.synced
    ensures Remembers(v, s, g)
  {
    hide CallWrites, Signature;
  }

  /** In every run a call is skipped exactly when the last performed sync is less than the TTL before it and wrote the
      same fields for the same candidates. */
  lemma SkipMeaning(q: Queue, calls: seq<Call>, i: nat, c: Call, g: Settings)
    requires AllPossible(calls, g) && Possible(c, g) && LastSync(q, calls, i, g)
    ensures Skips(Calls(q, calls, g).process, CallWrites(c, g), g, c.now)
            <==> g.ttl > 0 && c.now < calls[i].now + g.ttl && CallWrites(c, g) == CallWrites(calls[i], g)
  {
    LastSyncIsRemembered(q, calls, i, g);
    assert calls[i] in calls;
    SignatureIff(CallWrites(c, g), CallWrites(calls[i], g));
    hide Calls, CallWrites, Signature, LastSync, Ambiguous;
  }

  lemma {:induction false} NeverSynced(q: Queue, calls: seq<Call>, g: Settings)
    requires AllPossible(calls, g) && forall i :: 0 <= i < |calls| ==> !Performs(Calls(q, calls[..i], g), calls[i], g)
    ensures Calls(q, calls, g).process.lastAt == None
  {
    if calls != [] {
      var front := calls[..|calls| - 1];
      hide Step, Possible, Performs;
      assert forall j :: 0 <= j < |front| ==> front[..j] == calls[..j];
      NeverSynced(q, front, g);
      assert !Performs(Calls(q, calls[..|front|], g), calls[|front|], g);
      StepIdles(Calls(q, front, g), calls[|front|], g);
    }
  }

  /** Before the first performed sync nothing is skipped. */
  lemma FirstIsNotSkipped(q: Queue, calls: seq<Call>, c: Call, g: Settings)
    requires AllPossible(calls, g) && forall i :: 0 <= i < |calls| ==> !Performs(Calls(q, calls[..i], g), calls[i], g)
    ensures !Skips(Calls(q, calls, g).process, CallWrites(c, g), g, c.now)
  {
    NeverSynced(q, calls, g);
    hide Calls, CallWrites, Signature;
  }

  // ---------- shares of the picks by the records ----------

  /** What a record is worth to the shared queue: weight times health, over a thousand plus its latency in milliseconds. */
  function Share(p: Proxy, defaultLatencyMs: nat): real { (p.weight * p.healthScore) as real / (1000 + LatencyMs(p, defaultLatencyMs)) as real }

  function TotalShare(el: Candidates, xs: seq<string>, defaultLatencyMs: nat): real
    requires forall x :: x in xs ==> x in el
  {
    if xs == [] then 0.0 else TotalShare(el, xs[..|xs| - 1], defaultLatencyMs) + Share(el[xs[|xs| - 1]], defaultLatencyMs)
  }

  /** Runs of the script for these candidates, one after the other, with one quantum and default latency. */
  predicate PicksFrom(ops: seq<Op>, ids: set<string>, start: int, quantum: real, defaultLatencyMs: nat) {
    && (forall k :: 0 <= k < |ops| ==> ops[k].Pick? && ops[k].allowed == ids && ops[k].now >= start
                                       && ops[k].config.quantum == quantum && ops[k].config.defaultLatencyMs == defaultLatencyMs)
    && forall j, k :: 0 <= j < k < |ops| ==> ops[j].now <= ops[k].now
  }

  lemma WorthIsWeight(n: Node, p: Proxy, defaultLatencyMs: nat)
    requires NodeOf(n, p, defaultLatencyMs) && p.weight > 0 && p.healthScore > 0
    ensures EffectiveWeight(n, defaultLatencyMs) == 10.0 * Share(p, defaultLatencyMs)
  {
    var e, l, wh := EffectiveWeight(n, defaultLatencyMs), (1000 + LatencyMs(p, defaultLatencyMs)) as real, (p.weight * p.healthScore) as real;
    EffectiveWeightRatio(n, defaultLatencyMs);
    hide EffectiveWeight;
    Products(p.weight, p.healthScore);
    assert e * l == 10.0 * wh;
    Divided(e, l, wh);
  }

  lemma Products(w: int, h: int)
    ensures 10.0 * w as real * h as real == 10.0 * (w * h) as real
  {
  }

  lemma Divided(e: real, l: real, wh: real)
    requires l > 0.0 && e * l == 10.0 * wh
    ensures e == 10.0 * (wh / l)
  {
    assert wh / l * l == wh;
    assert (e - 10.0 * (wh / l)) * l == 0.0;
  }

  /** A process that has made no call, and an empty queue. */
  const FIRST := World(Process(EMPTY, None, ""), map[], map[])

  function SettingOf(el: Candidates, quantum: real, defaultLatencyMs: nat): ZFairLag.Setting {
    ZFairLag.Setting(el.Keys, quantum, defaultLatencyMs, map id | id in el :: 10.0 * Share(el[id], defaultLatencyMs))
  }

  lemma FirstPerforms(c: Call, g: Settings)
    requires !c.failed && EligibleById(c.candidates, c.now) != map[]
    ensures Performs(FIRST, c, g)
  {
    hide EligibleById, Signature;
    assert CallWrites(c, g).Keys == EligibleById(c.candidates, c.now).Keys;
    assert EligibleById(c.candidates, c.now).Keys != {};
  }

  lemma FirstNode(c: Call, g: Settings, id: string)
    requires Possible(c, g) && !c.failed && c.now >= 0 && id in EligibleById(c.candidates, c.now)
    ensures var q, p := AfterSync(FIRST, c, g), EligibleById(c.candidates, c.now)[id];
            && id in q.nodes && Pickable(q.nodes[id], Millis(c.now)) && q.nodes[id].runtime == 0.0
            && EffectiveWeight(q.nodes[id], g.defaultLatencyMs) == 10.0 * Share(p, g.defaultLatencyMs)
  {
    CandidatesMeaning(c.candidates, c.now);
    hide *;
    var i :| 0 <= i < |c.candidates| && Counts(c.candidates, c.now, i) && c.candidates[i].id == id;
    CountsIsHealthy(c.candidates, c.now, i);
    FirstPerforms(c, g);
    FirstIsEmpty();
    SyncWritesRecords(FIRST, c, g, i);
    SyncEmpty(c, g);
    NodeIsPickable(AfterSync(FIRST, c, g).nodes[id], c.candidates[i], c.now, g.defaultLatencyMs);
    HealthyIsLive(c.candidates[i], c.now);
    WorthIsWeight(AfterSync(FIRST, c, g).nodes[id], c.candidates[i], g.defaultLatencyMs);
  }

  lemma FirstIsEmpty()
    ensures FIRST.process.queue == Queue(map[], map[], map[])
  {
  }

  lemma CountsIsHealthy(cs: seq<Proxy>, now: Instant, i: int)
    requires Counts(cs, now, i)
    ensures 0 <= i < |cs| && Healthy(cs[i], now)
  {
  }

  lemma HealthyIsLive(p: Proxy, now: Instant)
    requires Healthy(p, now)
    ensures p.weight > 0 && p.healthScore > 0
  {
  }

  lemma NodeIsPickable(n: Node, p: Proxy, now: Instant, defaultLatencyMs: nat)
    requires NodeOf(n, p, defaultLatencyMs) && Healthy(p, now) && now >= 0 && n.nextEligible == 0
    ensures Pickable(n, Millis(now))
  {
    if p.circuitOpenUntil.Some? { EarlierMillis(p.circuitOpenUntil.value, now); }
  }

  lemma FirstIsFair(c: Call, g: Settings, quantum: real)
    requires Possible(c, g) && !c.failed && c.now >= 0 && quantum > 0.0
    ensures ZFairLag.FairStart(AfterSync(FIRST, c, g), SettingOf(EligibleById(c.candidates, c.now), quantum, g.defaultLatencyMs), Millis(c.now), 0.0)
  {
    hide *;
    var q, el := AfterSync(FIRST, c, g), EligibleById(c.candidates, c.now);
    forall id | id in el
      ensures id in q.nodes && Pickable(q.nodes[id], Millis(c.now)) && q.nodes[id].runtime == 0.0
      ensures EffectiveWeight(q.nodes[id], g.defaultLatencyMs) == 10.0 * Share(el[id], g.defaultLatencyMs)
    {
      FirstNode(c, g, id);
    }
    SyncEmpty(c, g);
    FreshIsFair(q, el, quantum, Millis(c.now), g.defaultLatencyMs);
  }

  lemma FreshIsFair(q: Queue, el: Candidates, quantum: real, now: int, defaultLatencyMs: nat)
    requires q.ready == map[] && q.delayed == map[] && quantum > 0.0
    requires forall id :: id in el ==>
      id in q.nodes && Pickable(q.nodes[id], now) && q.nodes[id].runtime == 0.0
      && EffectiveWeight(q.nodes[id], defaultLatencyMs) == 10.0 * Share(el[id], defaultLatencyMs)
    ensures ZFairLag.FairStart(q, SettingOf(el, quantum, defaultLatencyMs), now, 0.0)
  {
    assert forall id :: id in el ==> EffectiveWeight(q.nodes[id], defaultLatencyMs) > 0.0;
    hide EffectiveWeight, Share, Pickable;
  }

  lemma SyncEmpty(c: Call, g: Settings)
    requires Possible(c, g)
    ensures AfterSync(FIRST, c, g).ready == map[] && AfterSync(FIRST, c, g).delayed == map[]
  {
    hide CallWrites, Signature, Ambiguous;
  }

  lemma {:induction false} PicksFit(q: Queue, t: ZFairLag.Setting, start: int, ops: seq<Op>)
    requires PicksFrom(ops, t.allowed, start, t.quantum, t.defaultLatencyMs)
    ensures ZFairLag.RunFits(q, t, start, ops) && ZFairLag.Clock(start, ops) == if ops == [] then start else ops[|ops| - 1].now
  {
    hide Run;
    if ops != [] { PicksFit(q, t, start, ops[..|ops| - 1]); }
  }

  lemma {:induction false} TotalIsTenfold(el: Candidates, xs: seq<string>, quantum: real, defaultLatencyMs: nat)
    requires ZFairLag.WellSet(SettingOf(el, quantum, defaultLatencyMs)) && forall x :: x in xs ==> x in el
    ensures ZFairLag.TotalWeight(SettingOf(el, quantum, defaultLatencyMs), xs) == 10.0 * TotalShare(el, xs, defaultLatencyMs)
  {
    hide Share, ZFairLag.WellSet;
    if xs != [] { TotalIsTenfold(el, xs[..|xs| - 1], quantum, defaultLatencyMs); }
  }

  lemma Tenth(n: real, m: real, k: real, total: real, share: real)
    requires ZFairLag.Times(n, 10.0 * total) <= ZFairLag.Times(m, 10.0 * share) + 10.0 * total
    requires ZFairLag.Times(m - k, 10.0 * share) <= ZFairLag.Times(n, 10.0 * total)
    ensures n * total <= m * share + total && (m - k) * share <= n * total
  {
    assert n * (10.0 * total) == 10.0 * (n * total) && m * (10.0 * share) == 10.0 * (m * share);
    assert (m - k) * (10.0 * share) == 10.0 * ((m - k) * share);
  }

  /** From an empty queue: after a sync of some candidates, of N picks among them a candidate of share s in a total of S
      gets at most N * s / S + 1 and at least (N - k) * s / S, where the k candidates' shares come from their own records;
      both sides are multiplied by S. */
  lemma PicksFollowRecords(c: Call, g: Settings, quantum: real, ops: seq<Op>, i: string, xs: seq<string>)
    requires Possible(c, g) && !c.failed && c.now >= 0 && quantum > 0.0 && i in EligibleById(c.candidates, c.now)
    requires PicksFrom(ops, EligibleById(c.candidates, c.now).Keys, Millis(c.now), quantum, g.defaultLatencyMs)
    requires ZFairLag.Distinct(xs) && forall x :: x in xs <==> x in EligibleById(c.candidates, c.now)
    ensures var el, picks := EligibleById(c.candidates, c.now), Run(AfterSync(FIRST, c, g), ops).picks;
            var n, total, share := multiset(picks)[i] as real, TotalShare(el, xs, g.defaultLatencyMs), Share(el[i], g.defaultLatencyMs);
            && n * total <= |picks| as real * share + total
            && (|picks| - |xs|) as real * share <= n * total
  {
    hide *;
    var q, el := AfterSync(FIRST, c, g), EligibleById(c.candidates, c.now);
    var t := SettingOf(el, quantum, g.defaultLatencyMs);
    FirstIsFair(c, g, quantum);
    SettingIs(el, quantum, g.defaultLatencyMs, i);
    PicksFit(q, t, Millis(c.now), ops);
    ZFairLag.ProportionalShare(q, t, Millis(c.now), 0.0, ops, i, xs);
    WellSetStart(q, t, Millis(c.now), 0.0);
    TotalIsTenfold(el, xs, quantum, g.defaultLatencyMs);
    Tenth(multiset(Run(q, ops).picks)[i] as real, |Run(q, ops).picks| as real, |xs| as real, TotalShare(el, xs, g.defaultLatencyMs), Share(el[i], g.defaultLatencyMs));
  }

  lemma WellSetStart(q: Queue, t: ZFairLag.Setting, now: int, start: real)
    requires ZFairLag.FairStart(q, t, now, start)
    ensures ZFairLag.WellSet(t)
  {
  }

  lemma SettingIs(el: Candidates, quantum: real, defaultLatencyMs: nat, i: string)
    requires i in el
    ensures var t := SettingOf(el, quantum, defaultLatencyMs);
            && t.allowed == el.Keys && t.quantum == quantum && t.defaultLatencyMs == defaultLatencyMs
            && i in t.weights && t.weights[i] == 10.0 * Share(el[i], defaultLatencyMs)
  {
    hide Share;
  }
}
