/** Fairness of the shared queue over whole runs: a fixed set of proxies with fixed fields shares the picks
    in proportion to effective weight, up to one pick each. */
module ZFairLag {
  import opened Domain
  import opened ZFair
  import opened ZFairQueue

  /** What stays fixed: the allowed set, the quantum and default latency, and each allowed proxy's effective weight. */
  datatype Setting = Setting(allowed: set<string>, quantum: real, defaultLatencyMs: nat, weights: map<string, real>)

  predicate WellSet(g: Setting) {
    g.quantum > 0.0 && g.weights.Keys == g.allowed && forall i :: i in g.allowed ==> g.weights[i] > 0.0
  }

  /** Every allowed proxy has a live node of its weight whose circuit and eligibility times are past, and is not parked. */
  predicate Settled(q: Queue, g: Setting, now: int)
    requires g.weights.Keys == g.allowed
  {
    forall i :: i in g.allowed ==>
      i in q.nodes && Pickable(q.nodes[i], now) && EffectiveWeight(q.nodes[i], g.defaultLatencyMs) == g.weights[i] && i !in q.delayed
  }

  /** Runtimes are the start plus one charge per pick. */
  ghost predicate Paid(q: Queue, g: Setting, start: real, picks: seq<string>)
    requires WellSet(g) && g.allowed <= q.nodes.Keys
  {
    forall i :: i in g.allowed ==> q.nodes[i].runtime == start + Charges(multiset(picks)[i], g.quantum, g.weights[i])
  }

  function Charges(n: nat, quantum: real, weight: real): real
    requires weight > 0.0
  {
    n as real * (quantum / weight)
  }

  /** No allowed proxy is ahead of another by more than its own charge. */
  predicate Close(q: Queue, g: Setting)
    requires WellSet(g) && g.allowed <= q.nodes.Keys
  {
    forall i, j :: i in g.allowed && j in g.allowed ==> q.nodes[i].runtime <= q.nodes[j].runtime + g.quantum / g.weights[i]
  }

  /** A step the setting allows at time now: a pick from the allowed set with any limits, or a node write that leaves
      an allowed proxy's fields as they are. */
  predicate Fits(q: Queue, g: Setting, now: int, op: Op) {
    match op
    case Pick(allowed, at, c) => allowed == g.allowed && at >= now && c.quantum == g.quantum && c.defaultLatencyMs == g.defaultLatencyMs
    case Write(id, f) => id in g.allowed ==> id in q.nodes && WriteOne(q, id, f) == q
  }

  function At(now: int, op: Op): int { if op.Pick? then op.now else now }

  lemma PreparedSettled(q: Queue, g: Setting, now: int, maxPromote: nat)
    requires Valid(q) && WellSet(g) && Settled(q, g, now)
    ensures var p := Prepared(q, g.allowed, now, maxPromote);
            p.nodes == q.nodes && Settled(p, g, now) && g.allowed <= p.ready.Keys
  {
    PreparedValid(q, g.allowed, now, maxPromote);
    forall i | i in g.allowed
      ensures i in Prepared(q, g.allowed, now, maxPromote).ready && i !in Prepared(q, g.allowed, now, maxPromote).delayed
    {
      PreparedHolds(q, g.allowed, now, maxPromote, i);
    }
    hide Prepared, Valid, EffectiveWeight;
  }

  /** A pickable allowed id outside the delayed set is ready after preparation, and still outside the delayed set. */
  lemma PreparedHolds(q: Queue, allowed: set<string>, now: int, maxPromote: nat, i: string)
    requires Valid(q) && CanPick(q, i, allowed, now) && i !in q.delayed
    ensures i in Prepared(q, allowed, now, maxPromote).ready && i !in Prepared(q, allowed, now, maxPromote).delayed
  {
    var q1 := Enqueued(q, allowed, now);
    var ids := UnqueuedIds(q, allowed);
    IdsWithin(q.nodes, ids, now);
    SplitReadyKeys(q, PickableIds(q.nodes, ids, now), WaitingIds(q.nodes, ids, now), now);
    assert i in q1.ready && i !in q1.delayed;
    hide Enqueued, UnqueuedIds, PickableIds, WaitingIds;
    var q2 := Promoted(q1, Elements(Firsts(q1.delayed, DueIds(q1.delayed, now), maxPromote)), allowed);
    assert i in q2.ready && i !in q2.delayed;
  }

  lemma WeightIsFixed(n: Node, runtime: real, nextEligible: int, defaultLatencyMs: nat)
    ensures EffectiveWeight(n.(runtime := runtime, nextEligible := nextEligible), defaultLatencyMs) == EffectiveWeight(n, defaultLatencyMs)
  {
  }

  /** One call: the allowed proxies stay settled; at most one is charged, and it had the least runtime. */
  ghost predicate ChargesLeast(q: Queue, g: Setting, s: Selection)
    requires WellSet(g) && g.allowed <= q.nodes.Keys
  {
    && g.allowed <= s.queue.nodes.Keys
    && (s.picked.Some? ==>
          var id := s.picked.value;
          && id in g.allowed
          && s.queue.nodes[id].runtime == q.nodes[id].runtime + g.quantum / g.weights[id]
          && forall j :: j in g.allowed ==> q.nodes[id].runtime <= q.nodes[j].runtime)
    && forall j :: j in g.allowed && Some(j) != s.picked ==> s.queue.nodes[j] == q.nodes[j]
  }

  lemma SettledCanPick(p: Queue, g: Setting, now: int)
    requires WellSet(g) && Settled(p, g, now)
    ensures forall j :: j in g.allowed ==> CanPick(p, j, g.allowed, now)
  {
  }

  lemma FirstIsLeast(p: Queue, g: Setting, now: int, s: Selection)
    requires Valid(p) && WellSet(g) && Settled(p, g, now) && g.allowed <= p.ready.Keys
    requires PicksFirst(p, g.allowed, now, g.quantum, g.defaultLatencyMs, s)
    ensures ChargesLeast(p, g, s)
  {
    SettledCanPick(p, g, now);
    hide CanPick, EffectiveWeight, Pickable;
    forall j | j in g.allowed && Some(j) != s.picked ensures j in s.queue.nodes && s.queue.nodes[j] == p.nodes[j] {
    }
    if s.picked.Some? {
      var id := s.picked.value;
      assert id in g.allowed by { PickedAllowed(p, g, now, s); }
      forall j | j in g.allowed ensures p.nodes[id].runtime <= p.nodes[j].runtime {
        assert j != id ==> Before(p.ready, id, j);
      }
    }
  }

  lemma PickedAllowed(p: Queue, g: Setting, now: int, s: Selection)
    requires PicksFirst(p, g.allowed, now, g.quantum, g.defaultLatencyMs, s) && s.picked.Some?
    ensures s.picked.value in g.allowed
  {
  }

  lemma StaysSettled(p: Queue, g: Setting, now: int, s: Selection)
    requires WellSet(g) && Settled(p, g, now) && g.allowed <= p.ready.Keys
    requires PicksFirst(p, g.allowed, now, g.quantum, g.defaultLatencyMs, s)
    ensures Settled(s.queue, g, now)
  {
    SettledCanPick(p, g, now);
    forall i | i in g.allowed
      ensures i in s.queue.nodes && Pickable(s.queue.nodes[i], now)
      ensures EffectiveWeight(s.queue.nodes[i], g.defaultLatencyMs) == g.weights[i] && i !in s.queue.delayed
    {
      if Some(i) == s.picked { WeightIsFixed(p.nodes[i], s.queue.nodes[i].runtime, now, g.defaultLatencyMs); }
      hide CanPick, EffectiveWeight;
    }
    hide PicksFirst, EffectiveWeight, Pickable;
  }

  lemma PickCharges(q: Queue, g: Setting, now: int, c: Config)
    requires Valid(q) && WellSet(g) && Settled(q, g, now) && c.quantum == g.quantum && c.defaultLatencyMs == g.defaultLatencyMs
    ensures var s := Script(q, g.allowed, now, c); ChargesLeast(q, g, s) && Settled(s.queue, g, now)
  {
    hide Prepared, Script, Valid, Settled, PicksFirst;
    var p := Prepared(q, g.allowed, now, c.maxPromote);
    PreparedSettled(q, g, now, c.maxPromote);
    PreparedValid(q, g.allowed, now, c.maxPromote);
    PickIsLeast(q, g.allowed, now, c);
    FirstIsLeast(p, g, now, Script(q, g.allowed, now, c));
    StaysSettled(p, g, now, Script(q, g.allowed, now, c));
  }

  lemma LaterSettled(q: Queue, g: Setting, now: int, later: int)
    requires WellSet(g) && Settled(q, g, now) && now <= later
    ensures Settled(q, g, later)
  {
  }

  lemma ChargeStaysClose(q: Queue, g: Setting, s: Selection)
    requires WellSet(g) && g.allowed <= q.nodes.Keys && Close(q, g) && ChargesLeast(q, g, s)
    ensures Close(s.queue, g)
  {
    forall i | i in g.allowed ensures g.quantum / g.weights[i] > 0.0 { Positive(g.quantum, g.weights[i]); }
  }

  lemma Positive(a: real, b: real)
    requires a > 0.0 && b > 0.0
    ensures a / b > 0.0
  {
  }

  lemma OneMore(n: nat, quantum: real, weight: real)
    requires weight > 0.0
    ensures Charges(n + 1, quantum, weight) == Charges(n, quantum, weight) + quantum / weight
  {
  }

  lemma ChargeStaysPaid(q: Queue, g: Setting, start: real, picks: seq<string>, s: Selection)
    requires WellSet(g) && g.allowed <= q.nodes.Keys && Paid(q, g, start, picks) && ChargesLeast(q, g, s)
    ensures Paid(s.queue, g, start, picks + if s.picked.Some? then [s.picked.value] else [])
  {
    if s.picked.Some? {
      var id := s.picked.value;
      OneMore(multiset(picks)[id], g.quantum, g.weights[id]);
      assert multiset(picks + [id]) == multiset(picks) + multiset{id};
      hide Charges;
    } else {
      assert picks + [] == picks;
    }
  }

  // ---------- runs ----------

  function Clock(now: int, ops: seq<Op>): int {
    if ops == [] then now else At(Clock(now, ops[..|ops| - 1]), ops[|ops| - 1])
  }

  ghost predicate RunFits(q: Queue, g: Setting, now: int, ops: seq<Op>) {
    ops == [] || (
      var before := ops[..|ops| - 1];
      RunFits(q, g, now, before) && Fits(Run(q, before).queue, g, Clock(now, before), ops[|ops| - 1]))
  }

  /** Where a fair run may start: all allowed proxies settled with the same runtime. */
  predicate FairStart(q: Queue, g: Setting, now: int, start: real) {
    && Valid(q) && WellSet(g) && Settled(q, g, now)
    && forall i :: i in g.allowed ==> q.nodes[i].runtime == start
  }

  ghost predicate Fair(t: Trace, g: Setting, now: int, start: real) {
    && Valid(t.queue) && WellSet(g) && Settled(t.queue, g, now)
    && g.allowed <= t.queue.nodes.Keys && Close(t.queue, g) && Paid(t.queue, g, start, t.picks)
    && forall x :: x in t.picks ==> x in g.allowed
  }

  lemma StartIsFair(q: Queue, g: Setting, now: int, start: real)
    requires FairStart(q, g, now, start)
    ensures Fair(Trace(q, []), g, now, start)
  {
    forall i | i in g.allowed ensures g.quantum / g.weights[i] > 0.0 { Positive(g.quantum, g.weights[i]); }
  }

  lemma PickKeepsFair(t: Trace, g: Setting, now: int, start: real, at: int, c: Config)
    requires Fair(t, g, now, start) && at >= now && c.quantum == g.quantum && c.defaultLatencyMs == g.defaultLatencyMs
    ensures var s := Script(t.queue, g.allowed, at, c);
            Fair(Trace(s.queue, t.picks + if s.picked.Some? then [s.picked.value] else []), g, at, start)
  {
    var s := Script(t.queue, g.allowed, at, c);
    hide Script, Valid, Settled, Close, Paid;
    LaterSettled(t.queue, g, now, at);
    PickCharges(t.queue, g, at, c);
    ApplyValid(t.queue, Pick(g.allowed, at, c));
    ChargeStaysClose(t.queue, g, s);
    ChargeStaysPaid(t.queue, g, start, t.picks, s);
  }

  lemma WriteKeepsFair(t: Trace, g: Setting, now: int, start: real, id: string, f: Fields)
    requires Fair(t, g, now, start) && Fits(t.queue, g, now, Write(id, f))
    ensures Fair(Trace(WriteOne(t.queue, id, f), t.picks), g, now, start)
  {
    WriteValid(t.queue, id, f);
    var q := WriteOne(t.queue, id, f);
    assert forall i :: i in g.allowed ==> i in q.nodes && q.nodes[i] == t.queue.nodes[i];
    hide EffectiveWeight, Pickable, Charges;
  }

  lemma {:induction false} RunIsFair(q: Queue, g: Setting, now: int, start: real, ops: seq<Op>)
    requires FairStart(q, g, now, start) && RunFits(q, g, now, ops)
    ensures Fair(Run(q, ops), g, Clock(now, ops), start)
  {
    if ops == [] {
      StartIsFair(q, g, now, start);
    } else {
      var before, op := ops[..|ops| - 1], ops[|ops| - 1];
      RunIsFair(q, g, now, start, before);
      hide Fair, WriteOne, Script;
      match op
      case Pick(allowed, at, c) => PickKeepsFair(Run(q, before), g, Clock(now, before), start, at, c);
      case Write(id, f) =>
        WriteKeepsFair(Run(q, before), g, Clock(now, before), start, id, f);
        assert Run(q, before).picks + [] == Run(q, before).picks;
    }
  }

  /** A queue that holds nothing but newly written eligible nodes is such a start. */
  lemma FreshQueueIsFair(nodes: Nodes, quantum: real, defaultLatencyMs: nat, now: int)
    requires quantum > 0.0 && forall id :: id in nodes ==> Pickable(nodes[id], now) && nodes[id].runtime == 0.0
    ensures var weights := map id | id in nodes :: EffectiveWeight(nodes[id], defaultLatencyMs);
            FairStart(Queue(map[], map[], nodes), Setting(nodes.Keys, quantum, defaultLatencyMs, weights), now, 0.0)
  {
    hide EffectiveWeight, Pickable;
  }

  // ---------- the theorems ----------

  lemma FairMeans(t: Trace, g: Setting, now: int, start: real, i: string, j: string)
    requires Fair(t, g, now, start) && i in g.allowed && j in g.allowed
    ensures WellSet(g) && i in t.queue.nodes && j in t.queue.nodes
    ensures t.queue.nodes[i].runtime <= t.queue.nodes[j].runtime + g.quantum / g.weights[i]
    ensures t.queue.nodes[i].runtime == start + Charges(multiset(t.picks)[i], g.quantum, g.weights[i])
  {
    hide Valid, Settled, Charges;
  }

  /** Over every fair run, no proxy's runtime is ahead of another's by more than one charge of its own, and a
      runtime is the start plus a charge for each pick. */
  lemma BoundedLag(q: Queue, g: Setting, now: int, start: real, ops: seq<Op>, i: string, j: string)
    requires FairStart(q, g, now, start) && RunFits(q, g, now, ops) && i in g.allowed && j in g.allowed
    ensures var t := Run(q, ops);
            && i in t.queue.nodes && j in t.queue.nodes
            && t.queue.nodes[i].runtime <= t.queue.nodes[j].runtime + g.quantum / g.weights[i]
            && t.queue.nodes[i].runtime == start + Charges(multiset(t.picks)[i], g.quantum, g.weights[i])
  {
    hide *;
    RunIsFair(q, g, now, start, ops);
    FairMeans(Run(q, ops), g, Clock(now, ops), start, i, j);
  }

  lemma DividedByQuantum(n: nat, m: nat, quantum: real, e: real, f: real)
    requires quantum > 0.0 && e > 0.0 && f > 0.0
    requires Charges(n, quantum, e) <= Charges(m, quantum, f) + quantum / e
    ensures n as real / e <= m as real / f + 1.0 / e
  {
    assert n as real * (quantum / e) == quantum * (n as real / e);
    assert m as real * (quantum / f) == quantum * (m as real / f);
    assert quantum / e == quantum * (1.0 / e);
    ScaleDown(quantum, n as real / e, m as real / f + 1.0 / e);
  }

  lemma ScaleDown(k: real, a: real, b: real)
    requires k > 0.0 && k * a <= k * b
    ensures a <= b
  {
    if a > b { ScaleUp(k, a - b); }
  }

  lemma ScaleUp(k: real, a: real)
    requires k > 0.0 && a > 0.0
    ensures k * a > 0.0
  {
  }

  lemma FairPicks(t: Trace, g: Setting, now: int, start: real, i: string, j: string)
    requires Fair(t, g, now, start) && i in g.allowed && j in g.allowed
    ensures WellSet(g)
    ensures multiset(t.picks)[i] as real / g.weights[i] - multiset(t.picks)[j] as real / g.weights[j] <= 1.0 / g.weights[i]
  {
    FairMeans(t, g, now, start, i, j);
    FairMeans(t, g, now, start, j, i);
    hide Fair, Charges;
    DividedByQuantum(multiset(t.picks)[i], multiset(t.picks)[j], g.quantum, g.weights[i], g.weights[j]);
  }

  /** Picks per unit of weight differ by at most one pick of the lighter of the two. */
  lemma PicksFollowWeights(q: Queue, g: Setting, now: int, start: real, ops: seq<Op>, i: string, j: string)
    requires FairStart(q, g, now, start) && RunFits(q, g, now, ops) && i in g.allowed && j in g.allowed
    ensures var n := multiset(Run(q, ops).picks);
            && n[i] as real / g.weights[i] - n[j] as real / g.weights[j] <= 1.0 / g.weights[i]
            && n[j] as real / g.weights[j] - n[i] as real / g.weights[i] <= 1.0 / g.weights[j]
  {
    hide *;
    RunIsFair(q, g, now, start, ops);
    FairPicks(Run(q, ops), g, Clock(now, ops), start, i, j);
    FairPicks(Run(q, ops), g, Clock(now, ops), start, j, i);
  }

  // ---------- shares of the whole ----------

  function TotalWeight(g: Setting, xs: seq<string>): real
    requires WellSet(g) && forall x :: x in xs ==> x in g.allowed
  {
    if xs == [] then 0.0 else TotalWeight(g, xs[..|xs| - 1]) + g.weights[xs[|xs| - 1]]
  }

  function TotalCount(picks: multiset<string>, xs: seq<string>): nat {
    if xs == [] then 0 else TotalCount(picks, xs[..|xs| - 1]) + picks[xs[|xs| - 1]]
  }

  predicate Distinct(xs: seq<string>) { forall a, b :: 0 <= a < b < |xs| ==> xs[a] != xs[b] }

  lemma {:induction false} CountGrows(picks: multiset<string>, x: string, xs: seq<string>)
    requires Distinct(xs)
    ensures TotalCount(picks + multiset{x}, xs) == TotalCount(picks, xs) + if x in xs then 1 else 0
  {
    if xs != [] {
      CountGrows(picks, x, xs[..|xs| - 1]);
      assert xs == xs[..|xs| - 1] + [xs[|xs| - 1]];
    }
  }

  lemma {:induction false} NoCount(xs: seq<string>)
    ensures TotalCount(multiset{}, xs) == 0
  {
    if xs != [] { NoCount(xs[..|xs| - 1]); }
  }

  lemma {:induction false} CountIsLength(picks: seq<string>, xs: seq<string>)
    requires Distinct(xs) && forall x :: x in picks ==> x in xs
    ensures TotalCount(multiset(picks), xs) == |picks|
  {
    if picks == [] {
      NoCount(xs);
    } else {
      var front, last := picks[..|picks| - 1], picks[|picks| - 1];
      CountIsLength(front, xs);
      CountGrows(multiset(front), last, xs);
      assert picks == front + [last];
      assert multiset(picks) == multiset(front) + multiset{last};
    }
  }

  function Times(a: real, b: real): real { a * b }

  lemma TimesAdd(a: real, b: real, c: real)
    ensures Times(a, b + c) == Times(a, b) + Times(a, c)
    ensures Times(b + c, a) == Times(b, a) + Times(c, a)
  {
  }

  /** Multiplied out: no pick count runs ahead of another's share by more than one pick. */
  lemma Crosswise(n: nat, m: nat, e: real, f: real)
    requires e > 0.0 && f > 0.0 && n as real / e - m as real / f <= 1.0 / e
    ensures Times(n as real, f) <= Times(m as real, e) + f
  {
    var a, b := n as real / e, m as real / f;
    assert n as real == a * e && m as real == b * f;
    Scale(e * f, a, b + 1.0 / e);
    assert a * (e * f) == n as real * f;
    assert b * (e * f) == m as real * e;
    assert (1.0 / e) * (e * f) == f;
  }

  lemma Scale(k: real, a: real, b: real)
    requires k > 0.0 && a <= b
    ensures a * k <= b * k
  {
    if a < b { ScaleUp(k, b - a); }
  }

  /** n is the number of picks of each proxy; proxy i is never more than one pick ahead of x's share. */
  predicate NotAhead(n: multiset<string>, g: Setting, i: string, x: string)
    requires WellSet(g) && i in g.allowed && x in g.allowed
  {
    Times(n[i] as real, g.weights[x]) <= Times(n[x] as real, g.weights[i]) + g.weights[x]
  }

  /** Summing the bound over the proxies, from either side. */
  lemma {:induction false} ShareAbove(n: multiset<string>, g: Setting, i: string, xs: seq<string>)
    requires WellSet(g) && i in g.allowed && forall x :: x in xs ==> x in g.allowed && NotAhead(n, g, i, x)
    ensures Times(n[i] as real, TotalWeight(g, xs)) <= Times(TotalCount(n, xs) as real, g.weights[i]) + TotalWeight(g, xs)
  {
    if xs != [] {
      var front, x := xs[..|xs| - 1], xs[|xs| - 1];
      ShareAbove(n, g, i, front);
      hide Times;
      assert NotAhead(n, g, i, x);
      TimesAdd(n[i] as real, TotalWeight(g, front), g.weights[x]);
      TimesAdd(g.weights[i], TotalCount(n, front) as real, n[x] as real);
    }
  }

  lemma {:induction false} ShareBelow(n: multiset<string>, g: Setting, i: string, xs: seq<string>)
    requires WellSet(g) && i in g.allowed && forall x :: x in xs ==> x in g.allowed && NotAhead(n, g, x, i)
    ensures Times(TotalCount(n, xs) as real, g.weights[i]) <= Times(n[i] as real, TotalWeight(g, xs)) + Times(|xs| as real, g.weights[i])
  {
    if xs != [] {
      var front, x := xs[..|xs| - 1], xs[|xs| - 1];
      ShareBelow(n, g, i, front);
      TimesOne(g.weights[i]);
      hide Times;
      assert NotAhead(n, g, x, i);
      TimesAdd(n[i] as real, TotalWeight(g, front), g.weights[x]);
      TimesAdd(g.weights[i], TotalCount(n, front) as real, n[x] as real);
      TimesAdd(g.weights[i], |front| as real, 1.0);
      assert |xs| as real == |front| as real + 1.0;
    }
  }

  lemma TimesOne(a: real)
    ensures Times(1.0, a) == a
  {
  }

  lemma FairNotAhead(t: Trace, g: Setting, now: int, start: real, i: string, j: string)
    requires Fair(t, g, now, start) && i in g.allowed && j in g.allowed
    ensures WellSet(g) && NotAhead(multiset(t.picks), g, i, j)
  {
    FairPicks(t, g, now, start, i, j);
    hide Fair, Times;
    Crosswise(multiset(t.picks)[i], multiset(t.picks)[j], g.weights[i], g.weights[j]);
  }

  /** Of N picks in a fair run, a proxy of weight e among total weight E gets at most N * e / E + 1 and at
      least (N - k) * e / E, where k proxies share; both sides are multiplied by E. */
  lemma ProportionalShare(q: Queue, g: Setting, now: int, start: real, ops: seq<Op>, i: string, xs: seq<string>)
    requires FairStart(q, g, now, start) && RunFits(q, g, now, ops) && i in g.allowed
    requires Distinct(xs) && forall x :: x in xs <==> x in g.allowed
    ensures var picks := Run(q, ops).picks;
            && Times(multiset(picks)[i] as real, TotalWeight(g, xs)) <= Times(|picks| as real, g.weights[i]) + TotalWeight(g, xs)
            && Times(|picks| as real - |xs| as real, g.weights[i]) <= Times(multiset(picks)[i] as real, TotalWeight(g, xs))
  {
    hide *;
    RunIsFair(q, g, now, start, ops);
    FairShare(Run(q, ops), g, Clock(now, ops), start, i, xs);
  }

  lemma FairShare(t: Trace, g: Setting, now: int, start: real, i: string, xs: seq<string>)
    requires Fair(t, g, now, start) && i in g.allowed
    requires Distinct(xs) && forall x :: x in xs <==> x in g.allowed
    ensures WellSet(g)
    ensures Times(multiset(t.picks)[i] as real, TotalWeight(g, xs)) <= Times(|t.picks| as real, g.weights[i]) + TotalWeight(g, xs)
    ensures Times(|t.picks| as real - |xs| as real, g.weights[i]) <= Times(multiset(t.picks)[i] as real, TotalWeight(g, xs))
  {
    var n := multiset(t.picks);
    assert WellSet(g) && forall x :: x in t.picks ==> x in xs;
    forall x | x in xs ensures NotAhead(n, g, i, x) && NotAhead(n, g, x, i) {
      FairNotAhead(t, g, now, start, i, x);
      FairNotAhead(t, g, now, start, x, i);
    }
    CountIsLength(t.picks, xs);
    hide Fair, NotAhead, Times;
    ShareAbove(n, g, i, xs);
    ShareBelow(n, g, i, xs);
    TimesAdd(g.weights[i], |t.picks| as real - |xs| as real, |xs| as real);
  }

  /** A fair run never stalls: with limits at least the number of nodes, every call picks someone. */
  lemma AlwaysPicks(q: Queue, g: Setting, now: int, start: real, ops: seq<Op>, at: int, c: Config)
    requires FairStart(q, g, now, start) && RunFits(q, g, now, ops) && g.allowed != {}
    requires at >= Clock(now, ops) && c.maxScan >= |Run(q, ops).queue.nodes.Keys| && c.maxPromote >= |Run(q, ops).queue.nodes.Keys|
    ensures Script(Run(q, ops).queue, g.allowed, at, c).picked.Some?
  {
    RunIsFair(q, g, now, start, ops);
    var t := Run(q, ops);
    WorkConserving(t.queue, g.allowed, at, c);
    var i :| i in g.allowed;
    LaterSettled(t.queue, g, Clock(now, ops), at);
    hide Script, Run, RunFits, Valid;
    assert CanPick(t.queue, i, g.allowed, at) && !Parked(t.queue, i, at);
  }
}
