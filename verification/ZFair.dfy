/** The shared fair queue: a selection script over a ready set, a delayed set and proxy nodes.
    Runtimes are reals; instants are milliseconds. */
module ZFair {
  import opened Domain
  import Text

  type Scores = map<string, real>

  datatype Node = Node(weight: int, health: int, latencyMs: Option<nat>, circuitUntil: int, nextEligible: int, runtime: real)

  type Nodes = map<string, Node>

  datatype Queue = Queue(ready: Scores, delayed: Scores, nodes: Nodes)

  predicate Live(n: Node) { n.weight > 0 && n.health > 0 }

  predicate Due(n: Node, now: int) { n.circuitUntil <= now && n.nextEligible <= now }

  predicate Pickable(n: Node, now: int) { Live(n) && Due(n, now) }

  /** When a node that is not due is to be looked at again. */
  function Deadline(n: Node, now: int): real { (if n.circuitUntil > now then n.circuitUntil else n.nextEligible) as real }

  function EffectiveWeight(n: Node, defaultLatencyMs: nat): (r: real)
    ensures r > 0.0
  {
    var latency := if n.latencyMs.Some? then n.latencyMs.value else defaultLatencyMs;
    var e := n.weight as real * (n.health as real / 100.0) * (1.0 / (1.0 + latency as real / 1000.0));
    if e <= 0.0 then 1.0 else e
  }

  /** A live node counts in proportion to weight and health, and inversely to one second plus its latency. */
  lemma EffectiveWeightRatio(n: Node, defaultLatencyMs: nat)
    requires Live(n)
    ensures var latency := if n.latencyMs.Some? then n.latencyMs.value else defaultLatencyMs;
            EffectiveWeight(n, defaultLatencyMs) * (1000.0 + latency as real) == 10.0 * n.weight as real * n.health as real
  {
    var latency := (if n.latencyMs.Some? then n.latencyMs.value else defaultLatencyMs) as real;
    var w, h, f := n.weight as real, n.health as real / 100.0, 1.0 / (1.0 + latency / 1000.0);
    assert f * (1.0 + latency / 1000.0) == 1.0;
    assert f * (1000.0 + latency) == 1000.0;
    Products(w, h, f);
    assert w * h * f * (1000.0 + latency) == w * h * (f * (1000.0 + latency));
  }

  lemma Products(w: real, h: real, f: real)
    requires w > 0.0 && h > 0.0 && f > 0.0
    ensures w * h * f > 0.0
  {
  }

  // ---------- the order of a sorted set ----------

  predicate Before(m: Scores, a: string, b: string)
    requires a in m && b in m
  {
    m[a] < m[b] || (m[a] == m[b] && Text.Less(a, b))
  }

  predicate IsFirst(m: Scores, ids: set<string>, x: string)
    requires ids <= m.Keys
  {
    x in ids && forall y :: y in ids && y != x ==> Before(m, x, y)
  }

  lemma BeforeTransitive(m: Scores, a: string, b: string, c: string)
    requires a in m && b in m && c in m && Before(m, a, b) && Before(m, b, c)
    ensures Before(m, a, c)
  {
    if m[a] == m[c] { Text.LessTransitive(a, b, c); }
  }

  lemma BeforeTotal(m: Scores, a: string, b: string)
    requires a in m && b in m && a != b
    ensures Before(m, a, b) || Before(m, b, a)
    ensures !(Before(m, a, b) && Before(m, b, a))
  {
    Text.LessTotal(a, b);
    if Text.Less(a, b) { Text.LessAsymmetric(a, b); }
  }

  lemma {:induction false} FirstExists(m: Scores, ids: set<string>)
    requires ids <= m.Keys && ids != {}
    ensures exists x :: IsFirst(m, ids, x)
  {
    var x :| x in ids;
    var rest := ids - {x};
    if rest == {} {
      assert forall y :: y in ids && y != x ==> y in rest;
      assert IsFirst(m, ids, x);
    } else {
      FirstExists(m, rest);
      var y :| IsFirst(m, rest, y);
      BeforeTotal(m, x, y);
      if Before(m, x, y) {
        forall z | z in ids && z != x ensures Before(m, x, z) {
          if z != y { BeforeTransitive(m, x, y, z); }
        }
        assert IsFirst(m, ids, x);
      } else {
        assert forall z :: z in ids && z != y ==> z == x || z in rest;
        assert IsFirst(m, ids, y);
      }
    }
  }

  ghost function First(m: Scores, ids: set<string>): (x: string)
    requires ids <= m.Keys && ids != {}
    ensures IsFirst(m, ids, x)
  {
    FirstExists(m, ids);
    var x :| IsFirst(m, ids, x);
    x
  }

  lemma FirstUnique(m: Scores, ids: set<string>, x: string)
    requires ids <= m.Keys && IsFirst(m, ids, x)
    ensures First(m, ids) == x
  {
    var y := First(m, ids);
    if x != y { BeforeTotal(m, x, y); }
  }

  /** The first member of a sorted set. */
  method Head(m: Scores, ids: set<string>) returns (x: string)
    requires ids <= m.Keys && ids != {}
    ensures x == First(m, ids)
  {
    x :| x in ids;
    var pending := ids - {x};
    while pending != {}
      invariant pending <= ids && x in ids && x !in pending
      invariant IsFirst(m, ids - pending, x)
    {
      var y :| y in pending;
      BeforeTotal(m, x, y);
      if m[y] < m[x] || (m[y] == m[x] && Text.Less(y, x)) {
        forall z | z in ids - (pending - {y}) && z != y ensures Before(m, y, z) {
          if z != x { BeforeTransitive(m, y, x, z); }
        }
        x := y;
      }
      pending := pending - {y};
    }
    assert ids - pending == ids;
    FirstUnique(m, ids, x);
  }

  /** The first members of a sorted set, at most limit of them. */
  ghost function Firsts(m: Scores, ids: set<string>, limit: nat): (xs: seq<string>)
    requires ids <= m.Keys
    decreases limit
  {
    if limit == 0 || ids == {} then []
    else var x := First(m, ids); [x] + Firsts(m, ids - {x}, limit - 1)
  }

  function DueIds(m: Scores, now: int): set<string> { set id | id in m && m[id] <= now as real }

  // ---------- the four phases of the script ----------

  function Runtimes(nodes: Nodes, ids: set<string>): Scores
    requires ids <= nodes.Keys
  {
    map id | id in ids :: nodes[id].runtime
  }

  function Deadlines(nodes: Nodes, ids: set<string>, now: int): Scores
    requires ids <= nodes.Keys
  {
    map id | id in ids :: Deadline(nodes[id], now)
  }

  function PickableIds(nodes: Nodes, ids: set<string>, now: int): set<string> {
    set id | id in ids && id in nodes && Pickable(nodes[id], now)
  }

  function WaitingIds(nodes: Nodes, ids: set<string>, now: int): set<string> {
    set id | id in ids && id in nodes && Live(nodes[id]) && !Due(nodes[id], now)
  }

  function Split(q: Queue, p: set<string>, w: set<string>, now: int): Queue
    requires p + w <= q.nodes.Keys
  {
    Queue(q.ready + Runtimes(q.nodes, p), q.delayed - p + Deadlines(q.nodes, w, now), q.nodes)
  }

  /** Live nodes join the ready set at their runtime, or the delayed set at their deadline. */
  function Placed(q: Queue, ids: set<string>, now: int): Queue {
    Split(q, PickableIds(q.nodes, ids, now), WaitingIds(q.nodes, ids, now), now)
  }

  function PlaceOne(q: Queue, id: string, now: int): Queue {
    if id in q.nodes && Live(q.nodes[id]) then
      if Due(q.nodes[id], now) then Queue(q.ready[id := q.nodes[id].runtime], q.delayed - {id}, q.nodes)
      else q.(delayed := q.delayed[id := Deadline(q.nodes[id], now)])
    else q
  }

  lemma MergeUpdate(m: Scores, n: Scores, id: string, v: real)
    ensures m + n[id := v] == (m + n)[id := v]
  {
  }

  lemma RemoveUpdate(m: Scores, p: set<string>, n: Scores, id: string)
    requires id !in n
    ensures m - (p + {id}) + n == m - p + n - {id}
  {
  }

  lemma RuntimesUpdate(nodes: Nodes, ids: set<string>, id: string)
    requires ids + {id} <= nodes.Keys
    ensures Runtimes(nodes, ids + {id}) == Runtimes(nodes, ids)[id := nodes[id].runtime]
  {
  }

  lemma DeadlinesUpdate(nodes: Nodes, ids: set<string>, id: string, now: int)
    requires ids + {id} <= nodes.Keys
    ensures Deadlines(nodes, ids + {id}, now) == Deadlines(nodes, ids, now)[id := Deadline(nodes[id], now)]
  {
  }

  lemma IdsNext(nodes: Nodes, done: set<string>, id: string, now: int)
    ensures PickableIds(nodes, done + {id}, now)
            == if id in nodes && Pickable(nodes[id], now) then PickableIds(nodes, done, now) + {id} else PickableIds(nodes, done, now)
    ensures WaitingIds(nodes, done + {id}, now)
            == if id in nodes && Live(nodes[id]) && !Due(nodes[id], now) then WaitingIds(nodes, done, now) + {id} else WaitingIds(nodes, done, now)
  {
  }

  lemma SplitReady(q: Queue, p: set<string>, w: set<string>, id: string, now: int)
    requires p + {id} + w <= q.nodes.Keys && id !in w
    ensures Split(q, p + {id}, w, now)
            == Queue(Split(q, p, w, now).ready[id := q.nodes[id].runtime], Split(q, p, w, now).delayed - {id}, q.nodes)
  {
    RuntimesUpdate(q.nodes, p, id);
    MergeUpdate(q.ready, Runtimes(q.nodes, p), id, q.nodes[id].runtime);
    RemoveUpdate(q.delayed, p, Deadlines(q.nodes, w, now), id);
  }

  lemma SplitDelayed(q: Queue, p: set<string>, w: set<string>, id: string, now: int)
    requires p + w + {id} <= q.nodes.Keys
    ensures Split(q, p, w + {id}, now)
            == Split(q, p, w, now).(delayed := Split(q, p, w, now).delayed[id := Deadline(q.nodes[id], now)])
  {
    DeadlinesUpdate(q.nodes, w, id, now);
    MergeUpdate(q.delayed - p, Deadlines(q.nodes, w, now), id, Deadline(q.nodes[id], now));
  }

  lemma PlaceNext(q: Queue, done: set<string>, id: string, now: int)
    requires id !in done
    ensures Placed(q, done + {id}, now) == PlaceOne(Placed(q, done, now), id, now)
  {
    hide Split, PickableIds, WaitingIds;
    IdsWithin(q.nodes, done, now);
    SplitNodes(q, PickableIds(q.nodes, done, now), WaitingIds(q.nodes, done, now), now);
    IdsNext(q.nodes, done, id, now);
    if id in q.nodes && Live(q.nodes[id]) {
      if Due(q.nodes[id], now) {
        SplitReady(q, PickableIds(q.nodes, done, now), WaitingIds(q.nodes, done, now), id, now);
      } else {
        SplitDelayed(q, PickableIds(q.nodes, done, now), WaitingIds(q.nodes, done, now), id, now);
      }
    }
  }

  lemma SplitNodes(q: Queue, p: set<string>, w: set<string>, now: int)
    requires p + w <= q.nodes.Keys
    ensures Split(q, p, w, now).nodes == q.nodes
  {
  }

  lemma IdsWithin(nodes: Nodes, ids: set<string>, now: int)
    ensures PickableIds(nodes, ids, now) <= ids * nodes.Keys && WaitingIds(nodes, ids, now) <= ids * nodes.Keys
    ensures PickableIds(nodes, ids, now) !! WaitingIds(nodes, ids, now)
  {
  }

  function UnqueuedIds(q: Queue, ids: set<string>): set<string> { (ids * q.nodes.Keys) - q.ready.Keys - q.delayed.Keys }

  /** Phase 1: allowed live nodes in neither set join one of them. */
  function Enqueued(q: Queue, allowed: set<string>, now: int): Queue { Placed(q, UnqueuedIds(q, allowed), now) }

  /** An id not placed stays as it was. */
  lemma PlacedElsewhere(q: Queue, ids: set<string>, id: string, now: int)
    requires id !in ids
    ensures var p := Placed(q, ids, now);
            p.nodes == q.nodes && (id in p.ready <==> id in q.ready) && (id in p.delayed <==> id in q.delayed)
    ensures id in q.ready ==> Placed(q, ids, now).ready[id] == q.ready[id]
    ensures id in q.delayed ==> Placed(q, ids, now).delayed[id] == q.delayed[id]
  {
    hide PickableIds, WaitingIds;
    IdsWithin(q.nodes, ids, now);
  }

  lemma EnqueueNext(q: Queue, done: set<string>, id: string, now: int)
    requires id !in done
    ensures var e := Enqueued(q, done, now);
            Enqueued(q, done + {id}, now) == (if id in e.nodes && id !in e.ready && id !in e.delayed then PlaceOne(e, id, now) else e)
  {
    var ids := UnqueuedIds(q, done);
    PlacedElsewhere(q, ids, id, now);
    if id in UnqueuedIds(q, {id}) {
      PlaceNext(q, ids, id, now);
      assert UnqueuedIds(q, done + {id}) == ids + {id};
    } else {
      assert UnqueuedIds(q, done + {id}) == ids;
    }
  }

  lemma NothingPlaced(q: Queue, now: int)
    ensures Placed(q, {}, now) == q && Enqueued(q, {}, now) == q
  {
    assert UnqueuedIds(q, {}) == {};
    IdsWithin(q.nodes, {}, now);
    hide PickableIds, WaitingIds, UnqueuedIds;
    assert Runtimes(q.nodes, {}) == map[] && Deadlines(q.nodes, {}, now) == map[];
    assert q.delayed - {} == q.delayed;
  }

  /** Phase 2: due members leave the delayed set; the allowed ones become ready. */
  function Promoted(q: Queue, due: set<string>, allowed: set<string>): Queue {
    Queue(q.ready + Runtimes(q.nodes, due * allowed * q.nodes.Keys), q.delayed - due, q.nodes)
  }

  function PromoteOne(q: Queue, id: string, allowed: set<string>): Queue {
    Queue(if id in allowed && id in q.nodes then q.ready[id := q.nodes[id].runtime] else q.ready, q.delayed - {id}, q.nodes)
  }

  lemma PromoteNext(q: Queue, done: set<string>, id: string, allowed: set<string>)
    ensures Promoted(q, done + {id}, allowed) == PromoteOne(Promoted(q, done, allowed), id, allowed)
  {
    var p := done * allowed * q.nodes.Keys;
    assert q.delayed - (done + {id}) == q.delayed - done - {id};
    if id in allowed && id in q.nodes {
      assert (done + {id}) * allowed * q.nodes.Keys == p + {id};
      RuntimesUpdate(q.nodes, p, id);
      MergeUpdate(q.ready, Runtimes(q.nodes, p), id, q.nodes[id].runtime);
    } else {
      assert (done + {id}) * allowed * q.nodes.Keys == p;
    }
  }

  lemma NothingPromoted(q: Queue, allowed: set<string>)
    ensures Promoted(q, {}, allowed) == q
  {
  }

  function Elements(xs: seq<string>): set<string> { set x | x in xs }

  lemma ElementsNext(xs: seq<string>, i: nat)
    requires i < |xs|
    ensures Elements(xs[..i + 1]) == Elements(xs[..i]) + {xs[i]}
  {
  }

  ghost function Prepared(q: Queue, allowed: set<string>, now: int, maxPromote: nat): Queue {
    var q1 := Enqueued(q, allowed, now);
    var q2 := Promoted(q1, Elements(Firsts(q1.delayed, DueIds(q1.delayed, now), maxPromote)), allowed);
    // Phase 3, only when nothing is ready: every allowed live node is queued afresh.
    if q2.ready == map[] then Placed(q2, allowed, now) else q2
  }

  datatype Selection = Selection(queue: Queue, picked: Option<string>)

  /** A member of the ready set that turns out not pickable leaves it: for good, or until its deadline. */
  function Dropped(q: Queue, id: string, allowed: set<string>, now: int): Queue {
    if id !in allowed || id !in q.nodes || !Live(q.nodes[id]) then Queue(q.ready - {id}, q.delayed, q.nodes - {id})
    else Queue(q.ready - {id}, q.delayed[id := Deadline(q.nodes[id], now)], q.nodes)
  }

  predicate CanPick(q: Queue, id: string, allowed: set<string>, now: int) {
    id in allowed && id in q.nodes && Pickable(q.nodes[id], now)
  }

  function Charged(q: Queue, id: string, now: int, quantum: real, defaultLatencyMs: nat): Queue
    requires id in q.ready && id in q.nodes
  {
    var runtime := q.ready[id] + quantum / EffectiveWeight(q.nodes[id], defaultLatencyMs);
    Queue(q.ready[id := runtime], q.delayed, q.nodes[id := q.nodes[id].(runtime := runtime, nextEligible := now)])
  }

  /** Phase 4: at most maxScan heads of the ready set are looked at; the first pickable one is charged. */
  ghost function Scanned(q: Queue, allowed: set<string>, now: int, quantum: real, defaultLatencyMs: nat, maxScan: nat): Selection
    decreases maxScan
  {
    if maxScan == 0 || q.ready == map[] then Selection(q, None)
    else
      var id := First(q.ready, q.ready.Keys);
      if CanPick(q, id, allowed, now) then Selection(Charged(q, id, now, quantum, defaultLatencyMs), Some(id))
      else Scanned(Dropped(q, id, allowed, now), allowed, now, quantum, defaultLatencyMs, maxScan - 1)
  }

  datatype Config = Config(quantum: real, defaultLatencyMs: nat, maxPromote: nat, maxScan: nat)

  ghost function Script(q: Queue, allowed: set<string>, now: int, c: Config): Selection {
    Scanned(Prepared(q, allowed, now, c.maxPromote), allowed, now, c.quantum, c.defaultLatencyMs, c.maxScan)
  }

  /** The fields a sync writes for a proxy; runtime and next eligibility are set only on a new node. */
  datatype Fields = Fields(weight: int, health: int, latencyMs: nat, circuitUntil: int)

  function WriteOne(q: Queue, id: string, f: Fields): Queue {
    var n := if id in q.nodes then q.nodes[id] else Node(0, 0, None, 0, 0, 0.0);
    q.(nodes := q.nodes[id := n.(weight := f.weight, health := f.health, latencyMs := Some(f.latencyMs), circuitUntil := f.circuitUntil)])
  }

  class SharedQueue {
    var ready: Scores
    var delayed: Scores
    var nodes: Nodes

    ghost function View(): Queue reads this { Queue(ready, delayed, nodes) }

    constructor ()
      ensures View() == Queue(map[], map[], map[])
    {
      ready, delayed, nodes := map[], map[], map[];
    }

    method WriteNode(id: string, f: Fields)
      modifies this`nodes
      ensures View() == WriteOne(old(View()), id, f)
    {
      var n := if id in nodes then nodes[id] else Node(0, 0, None, 0, 0, 0.0);
      nodes := nodes[id := n.(weight := f.weight, health := f.health, latencyMs := Some(f.latencyMs), circuitUntil := f.circuitUntil)];
    }

    /** The whole script. */
    method Select(allowed: set<string>, now: int, c: Config) returns (picked: Option<string>)
      modifies this
      ensures Selection(View(), picked) == Script(old(View()), allowed, now, c)
    {
      Enqueue(allowed, now);
      var due := TakeDue(now, c.maxPromote);
      Promote(due, allowed);
      if ready == map[] {
        Refill(allowed, now);
      }
      picked := Scan(allowed, now, c);
    }

    method Enqueue(allowed: set<string>, now: int)
      modifies this
      ensures View() == Enqueued(old(View()), allowed, now)
    {
      hide Placed, Enqueued;
      ghost var q := View();
      NothingPlaced(q, now);
      var pending := allowed;
      assert allowed - pending == {};
      while pending != {}
        invariant pending <= allowed
        invariant View() == Enqueued(q, allowed - pending, now)
      {
        var id :| id in pending;
        EnqueueNext(q, allowed - pending, id, now);
        assert allowed - pending + {id} == allowed - (pending - {id});
        if id in nodes && id !in ready && id !in delayed {
          var node := nodes[id];
          if node.weight > 0 && node.health > 0 {
            if node.circuitUntil > now {
              delayed := delayed[id := node.circuitUntil as real];
            } else if node.nextEligible > now {
              delayed := delayed[id := node.nextEligible as real];
            } else {
              ready := ready[id := node.runtime];
            }
          }
        }
        pending := pending - {id};
      }
      assert allowed - pending == allowed;
    }

    /** The members whose score has come, earliest first, at most limit of them. */
    method TakeDue(now: int, limit: nat) returns (due: seq<string>)
      ensures due == Firsts(delayed, DueIds(delayed, now), limit)
    {
      due := [];
      var left := DueIds(delayed, now);
      var k := limit;
      while k > 0 && left != {}
        invariant left <= delayed.Keys
        invariant due + Firsts(delayed, left, k) == Firsts(delayed, DueIds(delayed, now), limit)
        decreases k
      {
        var x := Head(delayed, left);
        assert due + ([x] + Firsts(delayed, left - {x}, k - 1)) == due + [x] + Firsts(delayed, left - {x}, k - 1);
        due, left, k := due + [x], left - {x}, k - 1;
      }
    }

    method Promote(due: seq<string>, allowed: set<string>)
      modifies this
      ensures View() == Promoted(old(View()), Elements(due), allowed)
    {
      hide Promoted;
      ghost var q := View();
      assert Promoted(q, Elements(due[..0]), allowed) == q by { NothingPromoted(q, allowed); assert Elements(due[..0]) == {}; }
      for i := 0 to |due|
        invariant View() == Promoted(q, Elements(due[..i]), allowed)
      {
        var id := due[i];
        PromoteNext(q, Elements(due[..i]), id, allowed);
        ElementsNext(due, i);
        delayed := delayed - {id};
        if id in allowed && id in nodes {
          ready := ready[id := nodes[id].runtime];
        }
      }
      assert due[..|due|] == due;
    }

    method Refill(allowed: set<string>, now: int)
      modifies this
      ensures View() == Placed(old(View()), allowed, now)
    {
      hide Placed, Enqueued;
      ghost var q := View();
      NothingPlaced(q, now);
      var pending := allowed;
      assert allowed - pending == {};
      while pending != {}
        invariant pending <= allowed
        invariant View() == Placed(q, allowed - pending, now)
      {
        var id :| id in pending;
        PlaceNext(q, allowed - pending, id, now);
        assert allowed - pending + {id} == allowed - (pending - {id});
        if id in nodes {
          var node := nodes[id];
          if node.weight > 0 && node.health > 0 {
            if node.circuitUntil > now {
              delayed := delayed[id := node.circuitUntil as real];
            } else if node.nextEligible > now {
              delayed := delayed[id := node.nextEligible as real];
            } else {
              delayed := delayed - {id};
              ready := ready[id := node.runtime];
            }
          }
        }
        pending := pending - {id};
      }
      assert allowed - pending == allowed;
    }

    method Drop(id: string, allowed: set<string>, now: int)
      requires id in ready && !CanPick(View(), id, allowed, now)
      modifies this
      ensures View() == Dropped(old(View()), id, allowed, now)
    {
      ready := ready - {id};
      if id !in allowed || id !in nodes || nodes[id].weight <= 0 || nodes[id].health <= 0 {
        nodes := nodes - {id};
      } else if nodes[id].circuitUntil > now {
        delayed := delayed[id := nodes[id].circuitUntil as real];
      } else {
        delayed := delayed[id := nodes[id].nextEligible as real];
      }
    }

    method Charge(id: string, now: int, c: Config)
      requires id in ready && id in nodes
      modifies this
      ensures View() == Charged(old(View()), id, now, c.quantum, c.defaultLatencyMs)
    {
      var runtime := ready[id] + c.quantum / EffectiveWeight(nodes[id], c.defaultLatencyMs);
      nodes := nodes[id := nodes[id].(runtime := runtime, nextEligible := now)];
      ready := ready[id := runtime];
    }

    method Scan(allowed: set<string>, now: int, c: Config) returns (picked: Option<string>)
      modifies this
      ensures Selection(View(), picked) == Scanned(old(View()), allowed, now, c.quantum, c.defaultLatencyMs, c.maxScan)
    {
      hide First, Charged, Dropped, Pickable;
      var k := c.maxScan;
      while k > 0
        invariant Scanned(View(), allowed, now, c.quantum, c.defaultLatencyMs, k)
                  == Scanned(old(View()), allowed, now, c.quantum, c.defaultLatencyMs, c.maxScan)
      {
        if ready == map[] {
          return None;
        }
        var id := Head(ready, ready.Keys);
        if id in allowed && id in nodes && Pickable(nodes[id], now) {
          Charge(id, now, c);
          return Some(id);
        }
        Drop(id, allowed, now);
        k := k - 1;
      }
      picked := None;
    }
  }
}
