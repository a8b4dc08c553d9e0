/** The selection script on the fields of its nodes: who is picked, charged, parked and dropped. */
module ZFairMeaning {
  import opened Domain
  import opened ZFair
  import opened ZFairQueue
  import Text

  /** Allowed, of positive weight and health, and past its circuit and its eligibility time. */
  predicate Choosable(q: Queue, allowed: set<string>, now: int, j: string) {
    && j in allowed && j in q.nodes && q.nodes[j].weight > 0 && q.nodes[j].health > 0
    && q.nodes[j].circuitUntil <= now && q.nodes[j].nextEligible <= now
  }

  predicate Sleeps(q: Queue, j: string, now: int) { j in q.delayed && q.delayed[j] > now as real }

  /** Comes first by virtual runtime, ties in byte order. */
  predicate Precedes(q: Queue, i: string, j: string)
    requires i in q.nodes && j in q.nodes
  {
    q.nodes[i].runtime < q.nodes[j].runtime || (q.nodes[i].runtime == q.nodes[j].runtime && Text.Less(i, j))
  }

  lemma ChoosableCanPick(q: Queue, allowed: set<string>, now: int, j: string)
    ensures Choosable(q, allowed, now, j) <==> CanPick(q, j, allowed, now)
  {
  }

  /** The latency the weight is counted with. */
  function LatencyOf(n: Node, defaultLatencyMs: nat): nat { if n.latencyMs == None then defaultLatencyMs else n.latencyMs.value }

  /** A pick's charge is quantum, divided by weight and by health per cent, times one second plus latency in seconds. */
  predicate Charge(before: Node, after: Node, quantum: real, defaultLatencyMs: nat) {
    (after.runtime - before.runtime) * (10 * before.weight * before.health) as real == quantum * (1000 + LatencyOf(before, defaultLatencyMs)) as real
  }

  lemma ChargeMeaning(n: Node, quantum: real, defaultLatencyMs: nat)
    requires n.weight > 0 && n.health > 0
    ensures Charge(n, n.(runtime := n.runtime + quantum / EffectiveWeight(n, defaultLatencyMs)), quantum, defaultLatencyMs)
  {
    var e, l, w := EffectiveWeight(n, defaultLatencyMs), (1000 + LatencyOf(n, defaultLatencyMs)) as real, (10 * n.weight * n.health) as real;
    EffectiveWeightRatio(n, defaultLatencyMs);
    hide EffectiveWeight;
    AsReal(n.weight, n.health);
    assert e * l == w;
    Quotient(quantum, e, l, w);
  }

  lemma AsReal(w: int, h: int)
    ensures 10.0 * w as real * h as real == (10 * w * h) as real
  {
  }

  lemma Quotient(quantum: real, e: real, l: real, w: real)
    requires e > 0.0 && e * l == w
    ensures quantum / e * w == quantum * l
  {
    var c := quantum / e;
    assert c * e == quantum;
    assert c * (e * l) == (c * e) * l;
  }

  lemma AwakeIsReady(q: Queue, allowed: set<string>, now: int, maxPromote: nat, j: string)
    requires Valid(q) && maxPromote >= |q.nodes.Keys| && Choosable(q, allowed, now, j) && !Sleeps(q, j, now)
    ensures j in Prepared(q, allowed, now, maxPromote).ready
  {
    ChoosableCanPick(q, allowed, now, j);
    PreparedReady(q, allowed, now, maxPromote);
    CanPickPlaces(q, allowed, now, j);
    assert Parked(q, j, now) <==> Sleeps(q, j, now);
    hide Prepared, Arrived, CanPick, Parked, Sleeps, Choosable, PickableIds;
  }

  lemma FirstIsAhead(p: Queue, q: Queue, allowed: set<string>, now: int, quantum: real, defaultLatencyMs: nat, s: Selection)
    requires p.nodes == q.nodes && Valid(p) && PicksFirst(p, allowed, now, quantum, defaultLatencyMs, s) && s.picked.Some?
    ensures var id := s.picked.value;
            && Choosable(q, allowed, now, id) && id in s.queue.nodes
            && (forall j :: j in p.ready && Choosable(q, allowed, now, j) && j != id ==> Precedes(q, id, j))
            && s.queue.nodes[id].runtime == q.nodes[id].runtime + quantum / EffectiveWeight(q.nodes[id], defaultLatencyMs)
            && s.queue.nodes[id] == q.nodes[id].(runtime := s.queue.nodes[id].runtime, nextEligible := now)
  {
    hide EffectiveWeight;
    assert forall j :: Choosable(q, allowed, now, j) <==> CanPick(p, j, allowed, now);
    hide CanPick, Choosable;
  }

  /** With limits at least the number of nodes: the pick is choosable and comes first among all choosable nodes that are
      not asleep in the delayed set; it alone is charged, and becomes eligible again now. */
  lemma PickMeaning(q: Queue, allowed: set<string>, now: int, c: Config)
    requires Valid(q) && c.maxPromote >= |q.nodes.Keys| && Script(q, allowed, now, c).picked.Some?
    ensures var s := Script(q, allowed, now, c); var id := s.picked.value;
            && Choosable(q, allowed, now, id) && id in s.queue.nodes
            && (forall j :: Choosable(q, allowed, now, j) && !Sleeps(q, j, now) && j != id ==> Precedes(q, id, j))
            && Charge(q.nodes[id], s.queue.nodes[id], c.quantum, c.defaultLatencyMs)
            && s.queue.nodes[id] == q.nodes[id].(runtime := s.queue.nodes[id].runtime, nextEligible := now)
  {
    hide *;
    var p, s := Prepared(q, allowed, now, c.maxPromote), Script(q, allowed, now, c);
    var id := s.picked.value;
    PickIsLeast(q, allowed, now, c);
    PreparedValid(q, allowed, now, c.maxPromote);
    FirstIsAhead(p, q, allowed, now, c.quantum, c.defaultLatencyMs, s);
    ChoosableIsLive(q, allowed, now, id);
    ChargeMeaning(q.nodes[id], c.quantum, c.defaultLatencyMs);
    SameCharge(q.nodes[id], s.queue.nodes[id], now, c.quantum, c.defaultLatencyMs);
    forall j | Choosable(q, allowed, now, j) && !Sleeps(q, j, now) && j != id
      ensures j in q.nodes && id in q.nodes && Precedes(q, id, j)
    {
      ChoosableIsLive(q, allowed, now, j);
      AwakeIsReady(q, allowed, now, c.maxPromote, j);
    }
  }

  lemma ChoosableIsLive(q: Queue, allowed: set<string>, now: int, j: string)
    requires Choosable(q, allowed, now, j)
    ensures j in q.nodes && q.nodes[j].weight > 0 && q.nodes[j].health > 0
  {
  }

  lemma SameCharge(n: Node, m: Node, now: int, quantum: real, defaultLatencyMs: nat)
    requires m == n.(runtime := m.runtime, nextEligible := now) && m.runtime == n.runtime + quantum / EffectiveWeight(n, defaultLatencyMs)
    requires Charge(n, n.(runtime := n.runtime + quantum / EffectiveWeight(n, defaultLatencyMs)), quantum, defaultLatencyMs)
    ensures Charge(n, m, quantum, defaultLatencyMs)
  {
    hide EffectiveWeight;
  }

  /** Something is ready, or an allowed member's time in the delayed set is up. */
  ghost predicate Busy(q: Queue, allowed: set<string>, now: int) {
    exists k :: k in q.ready || (k in allowed && k in q.delayed && q.delayed[k] <= now as real)
  }

  lemma BusyIsOccupied(q: Queue, allowed: set<string>, now: int)
    ensures Busy(q, allowed, now) <==> Occupied(q, allowed, now)
  {
    if Busy(q, allowed, now) {
      var k :| k in q.ready || (k in allowed && k in q.delayed && q.delayed[k] <= now as real);
      assert k in q.ready.Keys + allowed * DueIds(q.delayed, now);
    }
    if Occupied(q, allowed, now) {
      var k :| k in q.ready.Keys + allowed * DueIds(q.delayed, now);
    }
  }

  lemma SleepsIsParked(q: Queue, j: string, now: int)
    ensures Sleeps(q, j, now) <==> Parked(q, j, now)
  {
  }

  /** With limits at least the number of nodes: nothing is picked exactly when every choosable node is asleep while
      something else is ready or due. */
  lemma NothingPickedMeaning(q: Queue, allowed: set<string>, now: int, c: Config)
    requires Valid(q) && c.maxScan >= |q.nodes.Keys| && c.maxPromote >= |q.nodes.Keys|
    ensures Script(q, allowed, now, c).picked == None <==>
              forall j :: Choosable(q, allowed, now, j) ==> Sleeps(q, j, now) && Busy(q, allowed, now)
  {
    hide *;
    WorkConserving(q, allowed, now, c);
    BusyIsOccupied(q, allowed, now);
    forall j
      ensures Choosable(q, allowed, now, j) <==> CanPick(q, j, allowed, now)
      ensures Sleeps(q, j, now) <==> Parked(q, j, now)
    {
      ChoosableCanPick(q, allowed, now, j);
      SleepsIsParked(q, j, now);
    }
  }

  // ---------- who is parked, and who is dropped ----------

  /** The instant a node has to wait for: its circuit's, or else its eligibility time. */
  predicate WaitsUntil(n: Node, now: int, score: real) {
    && n.weight > 0 && n.health > 0
    && if n.circuitUntil > now then score == n.circuitUntil as real else n.nextEligible > now && score == n.nextEligible as real
  }

  /** From q to s: nodes keep their fields, except the pick; only nodes that are not allowed or not live may be dropped;
      and whoever is newly parked is allowed and has that long to wait. */
  ghost predicate Tidy(q: Queue, allowed: set<string>, now: int, s: Selection) {
    && s.queue.nodes.Keys <= q.nodes.Keys
    && (forall j :: j in q.nodes && Some(j) != s.picked ==>
          if j in s.queue.nodes then s.queue.nodes[j] == q.nodes[j] else !(j in allowed && q.nodes[j].weight > 0 && q.nodes[j].health > 0))
    && forall j :: j in s.queue.delayed ==>
         (j in q.delayed && s.queue.delayed[j] == q.delayed[j]) || (j in allowed && j in q.nodes && WaitsUntil(q.nodes[j], now, s.queue.delayed[j]))
  }

  lemma TidyThen(q: Queue, p: Queue, allowed: set<string>, now: int, s: Selection)
    requires p.nodes.Keys <= q.nodes.Keys && Tidy(q, allowed, now, Selection(p, None)) && Tidy(p, allowed, now, s)
    ensures Tidy(q, allowed, now, s)
  {
    forall j | j in q.nodes && Some(j) != s.picked
      ensures if j in s.queue.nodes then s.queue.nodes[j] == q.nodes[j] else !(j in allowed && q.nodes[j].weight > 0 && q.nodes[j].health > 0)
    {
      if j in p.nodes { assert p.nodes[j] == q.nodes[j]; }
    }
    forall j | j in s.queue.delayed
      ensures (j in q.delayed && s.queue.delayed[j] == q.delayed[j]) || (j in allowed && j in q.nodes && WaitsUntil(q.nodes[j], now, s.queue.delayed[j]))
    {
      if !(j in p.delayed && s.queue.delayed[j] == p.delayed[j]) { assert p.nodes[j] == q.nodes[j]; }
    }
  }

  lemma PlacedTidy(q: Queue, ids: set<string>, allowed: set<string>, now: int)
    requires ids <= allowed
    ensures Tidy(q, allowed, now, Selection(Placed(q, ids, now), None)) && Placed(q, ids, now).nodes == q.nodes
  {
    IdsWithin(q.nodes, ids, now);
    var w := WaitingIds(q.nodes, ids, now);
    forall j | j in w ensures WaitsUntil(q.nodes[j], now, Deadline(q.nodes[j], now)) { }
    hide PickableIds, WaitingIds, WaitsUntil, Deadline;
  }

  lemma PromotedTidy(q: Queue, due: set<string>, allowed: set<string>, now: int)
    ensures Tidy(q, allowed, now, Selection(Promoted(q, due, allowed), None)) && Promoted(q, due, allowed).nodes == q.nodes
  {
    hide WaitsUntil;
  }

  lemma PreparedTidy(q: Queue, allowed: set<string>, now: int, maxPromote: nat)
    ensures Tidy(q, allowed, now, Selection(Prepared(q, allowed, now, maxPromote), None)) && Prepared(q, allowed, now, maxPromote).nodes == q.nodes
  {
    var q1 := Enqueued(q, allowed, now);
    var due := Elements(Firsts(q1.delayed, DueIds(q1.delayed, now), maxPromote));
    var q2 := Promoted(q1, due, allowed);
    PlacedTidy(q, UnqueuedIds(q, allowed), allowed, now);
    PromotedTidy(q1, due, allowed, now);
    PlacedTidy(q2, allowed, allowed, now);
    hide Tidy, Placed, Promoted, UnqueuedIds, DueIds;
    TidyThen(q, q1, allowed, now, Selection(q2, None));
    TidyThen(q, q2, allowed, now, Selection(Placed(q2, allowed, now), None));
  }

  lemma DroppedTidy(q: Queue, id: string, allowed: set<string>, now: int)
    requires !CanPick(q, id, allowed, now)
    ensures Tidy(q, allowed, now, Selection(Dropped(q, id, allowed, now), None))
  {
  }

  lemma ChargedTidy(q: Queue, id: string, allowed: set<string>, now: int, quantum: real, defaultLatencyMs: nat)
    requires id in q.ready && id in q.nodes
    ensures Tidy(q, allowed, now, Selection(Charged(q, id, now, quantum, defaultLatencyMs), Some(id)))
  {
    hide EffectiveWeight;
  }

  lemma {:induction false} ScannedTidy(q: Queue, allowed: set<string>, now: int, quantum: real, defaultLatencyMs: nat, maxScan: nat)
    ensures Tidy(q, allowed, now, Scanned(q, allowed, now, quantum, defaultLatencyMs, maxScan))
    decreases maxScan
  {
    hide Dropped, Charged, Pickable, WaitsUntil, IsFirst;
    if maxScan > 0 && q.ready != map[] {
      var id := First(q.ready, q.ready.Keys);
      FirstIsMember(q.ready);
      hide Tidy;
      if CanPick(q, id, allowed, now) {
        ChargedTidy(q, id, allowed, now, quantum, defaultLatencyMs);
      } else {
        var d := Dropped(q, id, allowed, now);
        DroppedTidy(q, id, allowed, now);
        ScannedTidy(d, allowed, now, quantum, defaultLatencyMs, maxScan - 1);
        NodesWithin(q, allowed, now, d);
        TidyThen(q, d, allowed, now, Scanned(d, allowed, now, quantum, defaultLatencyMs, maxScan - 1));
      }
    }
  }

  lemma NodesWithin(q: Queue, allowed: set<string>, now: int, p: Queue)
    requires Tidy(q, allowed, now, Selection(p, None))
    ensures p.nodes.Keys <= q.nodes.Keys
  {
  }

  /** In every call, whatever its limits: only the pick's node changes, no live allowed node is dropped, and a member of
      the delayed set was there before or waits for its circuit, or else its eligibility time, to pass. */
  lemma ScriptMeaning(q: Queue, allowed: set<string>, now: int, c: Config)
    ensures Tidy(q, allowed, now, Script(q, allowed, now, c))
  {
    hide *;
    var p := Prepared(q, allowed, now, c.maxPromote);
    PreparedTidy(q, allowed, now, c.maxPromote);
    ScannedTidy(p, allowed, now, c.quantum, c.defaultLatencyMs, c.maxScan);
    TidyThen(q, p, allowed, now, Scanned(p, allowed, now, c.quantum, c.defaultLatencyMs, c.maxScan));
    ScriptIs(q, allowed, now, c);
  }

  lemma ScriptIs(q: Queue, allowed: set<string>, now: int, c: Config)
    ensures Script(q, allowed, now, c)
            == Scanned(Prepared(q, allowed, now, c.maxPromote), allowed, now, c.quantum, c.defaultLatencyMs, c.maxScan)
  {
    hide Scanned, Prepared;
  }
}
