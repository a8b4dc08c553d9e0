/** What every run of the selection script keeps, what it picks, and exactly when it picks nothing. */
module ZFairQueue {
  import opened Domain
  import opened ZFair

  datatype Op = Write(id: string, fields: Fields) | Pick(allowed: set<string>, now: int, config: Config)

  datatype Trace = Trace(queue: Queue, picks: seq<string>)

  ghost function Apply(q: Queue, op: Op): Selection {
    match op
    case Write(id, f) => Selection(WriteOne(q, id, f), None)
    case Pick(allowed, now, c) => Script(q, allowed, now, c)
  }

  ghost function Run(q: Queue, ops: seq<Op>): Trace {
    if ops == [] then Trace(q, [])
    else
      var before := Run(q, ops[..|ops| - 1]);
      var s := Apply(before.queue, ops[|ops| - 1]);
      Trace(s.queue, before.picks + if s.picked.Some? then [s.picked.value] else [])
  }

  // ---------- the queue invariant ----------

  predicate Valid(q: Queue) {
    && q.ready.Keys !! q.delayed.Keys
    && q.ready.Keys + q.delayed.Keys <= q.nodes.Keys
    && forall id :: id in q.ready ==> q.ready[id] == q.nodes[id].runtime
  }

  lemma SplitValid(q: Queue, p: set<string>, w: set<string>, now: int)
    requires Valid(q) && p + w <= q.nodes.Keys && p !! w && w !! q.ready.Keys
    ensures Valid(Split(q, p, w, now))
  {
  }

  lemma EnqueuedValid(q: Queue, allowed: set<string>, now: int)
    requires Valid(q)
    ensures Valid(Enqueued(q, allowed, now))
  {
    IdsWithin(q.nodes, UnqueuedIds(q, allowed), now);
    SplitValid(q, PickableIds(q.nodes, UnqueuedIds(q, allowed), now), WaitingIds(q.nodes, UnqueuedIds(q, allowed), now), now);
  }

  lemma RefilledValid(q: Queue, allowed: set<string>, now: int)
    requires Valid(q) && q.ready == map[]
    ensures Valid(Placed(q, allowed, now))
  {
    IdsWithin(q.nodes, allowed, now);
    SplitValid(q, PickableIds(q.nodes, allowed, now), WaitingIds(q.nodes, allowed, now), now);
  }

  lemma PromotedValid(q: Queue, due: set<string>, allowed: set<string>)
    requires Valid(q) && due <= q.delayed.Keys
    ensures Valid(Promoted(q, due, allowed))
  {
  }

  lemma {:induction false} FirstsWithin(m: Scores, ids: set<string>, limit: nat)
    requires ids <= m.Keys
    ensures Elements(Firsts(m, ids, limit)) <= ids
    decreases limit
  {
    if limit > 0 && ids != {} {
      var x := First(m, ids);
      FirstsWithin(m, ids - {x}, limit - 1);
      assert Firsts(m, ids, limit) == [x] + Firsts(m, ids - {x}, limit - 1);
      assert Elements([x] + Firsts(m, ids - {x}, limit - 1)) == {x} + Elements(Firsts(m, ids - {x}, limit - 1));
    }
  }

  lemma PreparedValid(q: Queue, allowed: set<string>, now: int, maxPromote: nat)
    requires Valid(q)
    ensures Valid(Prepared(q, allowed, now, maxPromote))
    ensures Prepared(q, allowed, now, maxPromote).nodes == q.nodes
  {
    var q1 := Enqueued(q, allowed, now);
    var due := Firsts(q1.delayed, DueIds(q1.delayed, now), maxPromote);
    EnqueuedValid(q, allowed, now);
    FirstsWithin(q1.delayed, DueIds(q1.delayed, now), maxPromote);
    PromotedValid(q1, Elements(due), allowed);
    var q2 := Promoted(q1, Elements(due), allowed);
    if q2.ready == map[] { RefilledValid(q2, allowed, now); }
  }

  lemma DroppedValid(q: Queue, id: string, allowed: set<string>, now: int)
    requires Valid(q) && id in q.ready
    ensures Valid(Dropped(q, id, allowed, now))
  {
  }

  lemma ChargedValid(q: Queue, id: string, now: int, quantum: real, defaultLatencyMs: nat)
    requires Valid(q) && id in q.ready
    ensures Valid(Charged(q, id, now, quantum, defaultLatencyMs))
  {
  }

  lemma {:induction false} ScannedValid(q: Queue, allowed: set<string>, now: int, quantum: real, defaultLatencyMs: nat, maxScan: nat)
    requires Valid(q)
    ensures Valid(Scanned(q, allowed, now, quantum, defaultLatencyMs, maxScan).queue)
    decreases maxScan
  {
    hide Valid, Dropped, Charged, CanPick;
    if maxScan > 0 && q.ready != map[] {
      var id := First(q.ready, q.ready.Keys);
      if CanPick(q, id, allowed, now) {
        ChargedValid(q, id, now, quantum, defaultLatencyMs);
      } else {
        DroppedValid(q, id, allowed, now);
        ScannedValid(Dropped(q, id, allowed, now), allowed, now, quantum, defaultLatencyMs, maxScan - 1);
      }
    }
  }

  lemma WriteValid(q: Queue, id: string, f: Fields)
    requires Valid(q)
    ensures Valid(WriteOne(q, id, f))
  {
  }

  lemma ApplyValid(q: Queue, op: Op)
    requires Valid(q)
    ensures Valid(Apply(q, op).queue)
  {
    hide Valid, WriteOne, Prepared, Scanned;
    match op
    case Write(id, f) => WriteValid(q, id, f);
    case Pick(allowed, now, c) =>
      PreparedValid(q, allowed, now, c.maxPromote);
      ScannedValid(Prepared(q, allowed, now, c.maxPromote), allowed, now, c.quantum, c.defaultLatencyMs, c.maxScan);
  }

  /** Every run of the script and of node writes keeps ready and delayed apart, backed by nodes, ready at its runtime. */
  lemma {:induction false} RunValid(q: Queue, ops: seq<Op>)
    requires Valid(q)
    ensures Valid(Run(q, ops).queue)
  {
    hide Valid, Apply;
    if ops != [] {
      RunValid(q, ops[..|ops| - 1]);
      ApplyValid(Run(q, ops[..|ops| - 1]).queue, ops[|ops| - 1]);
    }
  }

  // ---------- what is picked ----------

  /** s comes from q by picking the first pickable allowed member and charging it, or by picking nothing; the other
      pickable allowed members keep their nodes and their places. */
  ghost predicate PicksFirst(q: Queue, allowed: set<string>, now: int, quantum: real, defaultLatencyMs: nat, s: Selection) {
    && (s.picked.Some? ==>
          var id := s.picked.value;
          && id in q.ready && CanPick(q, id, allowed, now)
          && (forall j :: j in q.ready && CanPick(q, j, allowed, now) && j != id ==> Before(q.ready, id, j))
          && id in s.queue.ready && id in s.queue.nodes
          && s.queue.ready[id] == q.ready[id] + quantum / EffectiveWeight(q.nodes[id], defaultLatencyMs)
          && s.queue.nodes[id] == q.nodes[id].(runtime := s.queue.ready[id], nextEligible := now))
    && (forall j :: j in q.ready && CanPick(q, j, allowed, now) && Some(j) != s.picked ==>
          j in s.queue.ready && s.queue.ready[j] == q.ready[j] && j in s.queue.nodes && s.queue.nodes[j] == q.nodes[j])
    && (forall j :: CanPick(q, j, allowed, now) && j !in q.delayed ==> j !in s.queue.delayed)
  }

  lemma DroppedKeeps(q: Queue, id: string, allowed: set<string>, now: int, j: string)
    requires Valid(q) && id in q.ready && !CanPick(q, id, allowed, now) && CanPick(q, j, allowed, now)
    ensures var d := Dropped(q, id, allowed, now);
            CanPick(d, j, allowed, now) && d.nodes[j] == q.nodes[j] && (j in d.ready <==> j in q.ready) && (j in d.delayed <==> j in q.delayed)
    ensures j in q.ready ==> Dropped(q, id, allowed, now).ready[j] == q.ready[j]
  {
  }

  lemma DroppedAdds(q: Queue, id: string, allowed: set<string>, now: int, j: string)
    requires Valid(q) && id in q.ready && !CanPick(q, id, allowed, now)
    ensures var d := Dropped(q, id, allowed, now);
            j in d.ready ==> j in q.ready && j != id && d.ready[j] == q.ready[j] && (CanPick(d, j, allowed, now) ==> CanPick(q, j, allowed, now))
    ensures Dropped(q, id, allowed, now).ready.Keys == q.ready.Keys - {id}
  {
  }

  lemma DropThenPick(q: Queue, id: string, allowed: set<string>, now: int, quantum: real, defaultLatencyMs: nat, s: Selection)
    requires Valid(q) && id in q.ready && !CanPick(q, id, allowed, now)
    requires PicksFirst(Dropped(q, id, allowed, now), allowed, now, quantum, defaultLatencyMs, s)
    ensures PicksFirst(q, allowed, now, quantum, defaultLatencyMs, s)
  {
    var d := Dropped(q, id, allowed, now);
    forall j | CanPick(q, j, allowed, now)
      ensures CanPick(d, j, allowed, now) && d.nodes[j] == q.nodes[j] && (j in d.ready <==> j in q.ready) && (j in d.delayed <==> j in q.delayed)
      ensures j in q.ready ==> d.ready[j] == q.ready[j]
    {
      DroppedKeeps(q, id, allowed, now, j);
    }
    if s.picked.Some? {
      DroppedAdds(q, id, allowed, now, s.picked.value);
    }
    hide Dropped, CanPick, Valid, EffectiveWeight;
  }

  lemma ChargePicks(q: Queue, id: string, allowed: set<string>, now: int, quantum: real, defaultLatencyMs: nat)
    requires Valid(q) && IsFirst(q.ready, q.ready.Keys, id) && CanPick(q, id, allowed, now)
    ensures PicksFirst(q, allowed, now, quantum, defaultLatencyMs, Selection(Charged(q, id, now, quantum, defaultLatencyMs), Some(id)))
  {
    hide EffectiveWeight;
  }

  lemma NothingPicksFirst(q: Queue, allowed: set<string>, now: int, quantum: real, defaultLatencyMs: nat)
    ensures PicksFirst(q, allowed, now, quantum, defaultLatencyMs, Selection(q, None))
  {
  }

  /** The scan picks the member of least runtime, ties by name, among the allowed pickable ones. */
  lemma {:induction false} ScanPicksFirst(q: Queue, allowed: set<string>, now: int, quantum: real, defaultLatencyMs: nat, maxScan: nat)
    requires Valid(q)
    ensures PicksFirst(q, allowed, now, quantum, defaultLatencyMs, Scanned(q, allowed, now, quantum, defaultLatencyMs, maxScan))
    decreases maxScan
  {
    hide PicksFirst, Dropped, Charged, CanPick, Valid, IsFirst;
    if maxScan == 0 || q.ready == map[] {
      NothingPicksFirst(q, allowed, now, quantum, defaultLatencyMs);
    } else {
      var id := First(q.ready, q.ready.Keys);
      FirstIsMember(q.ready);
      if CanPick(q, id, allowed, now) {
        ChargePicks(q, id, allowed, now, quantum, defaultLatencyMs);
      } else {
        var d := Dropped(q, id, allowed, now);
        DroppedValid(q, id, allowed, now);
        ScanPicksFirst(d, allowed, now, quantum, defaultLatencyMs, maxScan - 1);
        DropThenPick(q, id, allowed, now, quantum, defaultLatencyMs, Scanned(d, allowed, now, quantum, defaultLatencyMs, maxScan - 1));
      }
    }
  }

  predicate IsChoice(q: Queue, allowed: set<string>, now: int, j: string) { j in q.ready && CanPick(q, j, allowed, now) }

  lemma DroppedChoice(q: Queue, id: string, allowed: set<string>, now: int, j: string)
    requires Valid(q) && id in q.ready && !CanPick(q, id, allowed, now)
    ensures IsChoice(Dropped(q, id, allowed, now), allowed, now, j) <==> IsChoice(q, allowed, now, j)
  {
    DroppedAdds(q, id, allowed, now, j);
    if CanPick(q, j, allowed, now) { DroppedKeeps(q, id, allowed, now, j); }
  }

  lemma DroppedSize(q: Queue, id: string, allowed: set<string>, now: int)
    requires id in q.ready
    ensures |Dropped(q, id, allowed, now).ready.Keys| == |q.ready.Keys| - 1
  {
    assert Dropped(q, id, allowed, now).ready.Keys == q.ready.Keys - {id};
  }

  predicate NoChoice(q: Queue, allowed: set<string>, now: int) { forall j :: j in q.ready ==> !IsChoice(q, allowed, now, j) }

  lemma DroppedNoChoice(q: Queue, id: string, allowed: set<string>, now: int)
    requires Valid(q) && id in q.ready && !CanPick(q, id, allowed, now)
    ensures NoChoice(Dropped(q, id, allowed, now), allowed, now) <==> NoChoice(q, allowed, now)
  {
    forall j ensures IsChoice(Dropped(q, id, allowed, now), allowed, now, j) <==> IsChoice(q, allowed, now, j) {
      DroppedChoice(q, id, allowed, now, j);
    }
    hide Dropped, CanPick, Valid;
  }

  lemma NothingToChoose(q: Queue, allowed: set<string>, now: int, quantum: real, defaultLatencyMs: nat, maxScan: nat)
    requires q.ready == map[]
    ensures NoChoice(q, allowed, now)
    ensures Scanned(q, allowed, now, quantum, defaultLatencyMs, maxScan).picked == None
  {
  }

  lemma HasChoice(q: Queue, id: string, allowed: set<string>, now: int)
    requires id in q.ready && CanPick(q, id, allowed, now)
    ensures !NoChoice(q, allowed, now)
  {
    assert IsChoice(q, allowed, now, id);
  }

  lemma NoKeys(m: Scores)
    ensures m == map[] <==> m.Keys == {}
  {
  }

  lemma FirstIsMember(m: Scores)
    requires m.Keys != {}
    ensures First(m, m.Keys) in m
  {
  }

  lemma ScanStep(q: Queue, allowed: set<string>, now: int, quantum: real, defaultLatencyMs: nat, maxScan: nat) returns (id: string)
    requires maxScan > 0 && q.ready != map[]
    ensures id in q.ready
    ensures var s := Scanned(q, allowed, now, quantum, defaultLatencyMs, maxScan);
            if CanPick(q, id, allowed, now) then s.picked == Some(id)
            else s == Scanned(Dropped(q, id, allowed, now), allowed, now, quantum, defaultLatencyMs, maxScan - 1)
  {
    id := First(q.ready, q.ready.Keys);
    hide Dropped, CanPick, Charged, IsFirst;
    FirstIsMember(q.ready);
  }

  /** A long enough scan picks nothing exactly when no ready member is allowed and pickable. */
  lemma {:induction false} ScanPicksIff(q: Queue, allowed: set<string>, now: int, quantum: real, defaultLatencyMs: nat, maxScan: nat)
    requires Valid(q) && maxScan >= |q.ready.Keys|
    ensures Scanned(q, allowed, now, quantum, defaultLatencyMs, maxScan).picked.None? <==> NoChoice(q, allowed, now)
    decreases maxScan
  {
    hide *;
    NoKeys(q.ready);
    if q.ready == map[] {
      NothingToChoose(q, allowed, now, quantum, defaultLatencyMs, maxScan);
    } else {
      var id := ScanStep(q, allowed, now, quantum, defaultLatencyMs, maxScan);
      if CanPick(q, id, allowed, now) {
        HasChoice(q, id, allowed, now);
      } else {
        DroppedValid(q, id, allowed, now);
        DroppedSize(q, id, allowed, now);
        DroppedNoChoice(q, id, allowed, now);
        ScanPicksIff(Dropped(q, id, allowed, now), allowed, now, quantum, defaultLatencyMs, maxScan - 1);
      }
    }
  }

  // ---------- when nothing is picked ----------

  lemma {:induction false} FirstsAll(m: Scores, ids: set<string>, limit: nat)
    requires ids <= m.Keys && limit >= |ids|
    ensures Elements(Firsts(m, ids, limit)) == ids
    decreases limit
  {
    if limit > 0 && ids != {} {
      var x := First(m, ids);
      FirstsAll(m, ids - {x}, limit - 1);
      assert Elements([x] + Firsts(m, ids - {x}, limit - 1)) == {x} + Elements(Firsts(m, ids - {x}, limit - 1));
    }
  }

  lemma SubsetSize<T>(a: set<T>, b: set<T>)
    requires a <= b
    ensures |a| <= |b|
  {
    assert b == a + (b - a) && a !! b - a;
  }

  lemma SplitReadyKeys(q: Queue, p: set<string>, w: set<string>, now: int)
    requires p + w <= q.nodes.Keys
    ensures Split(q, p, w, now).ready.Keys == q.ready.Keys + p
    ensures Split(q, p, w, now).delayed.Keys == q.delayed.Keys - p + w
  {
  }

  lemma EnqueuedReady(q: Queue, allowed: set<string>, now: int)
    requires Valid(q)
    ensures Enqueued(q, allowed, now).ready.Keys == q.ready.Keys + PickableIds(q.nodes, UnqueuedIds(q, allowed), now)
    ensures Enqueued(q, allowed, now).nodes == q.nodes
    ensures DueIds(Enqueued(q, allowed, now).delayed, now) == DueIds(q.delayed, now)
  {
    var ids := UnqueuedIds(q, allowed);
    IdsWithin(q.nodes, ids, now);
    SplitReadyKeys(q, PickableIds(q.nodes, ids, now), WaitingIds(q.nodes, ids, now), now);
    forall j ensures j in DueIds(Enqueued(q, allowed, now).delayed, now) <==> j in DueIds(q.delayed, now) {
      if j !in ids {
        PlacedElsewhere(q, ids, j, now);
      }
    }
  }

  predicate Parked(q: Queue, j: string, now: int) { j in q.delayed && q.delayed[j] > now as real }

  /** Something enters the scan without a refill, whether or not it can be picked. */
  predicate Occupied(q: Queue, allowed: set<string>, now: int) { q.ready.Keys + allowed * DueIds(q.delayed, now) != {} }

  /** The ids that are ready once due members are promoted. */
  function Arrived(q: Queue, allowed: set<string>, now: int): set<string> {
    q.ready.Keys + PickableIds(q.nodes, UnqueuedIds(q, allowed), now) + allowed * DueIds(q.delayed, now)
  }

  lemma PromotedReady(q: Queue, due: set<string>, allowed: set<string>)
    requires due <= q.nodes.Keys
    ensures Promoted(q, due, allowed).ready.Keys == q.ready.Keys + allowed * due
    ensures Promoted(q, due, allowed).nodes == q.nodes
  {
    assert due * allowed * q.nodes.Keys == allowed * due;
  }

  lemma RefilledReady(q: Queue, allowed: set<string>, now: int)
    requires q.ready == map[]
    ensures Placed(q, allowed, now).ready.Keys == PickableIds(q.nodes, allowed, now)
  {
    hide PickableIds, WaitingIds;
    IdsWithin(q.nodes, allowed, now);
    SplitReadyKeys(q, PickableIds(q.nodes, allowed, now), WaitingIds(q.nodes, allowed, now), now);
  }

  lemma PreparedReady(q: Queue, allowed: set<string>, now: int, maxPromote: nat)
    requires Valid(q) && maxPromote >= |q.nodes.Keys|
    ensures Prepared(q, allowed, now, maxPromote).ready.Keys
            == if Arrived(q, allowed, now) == {} then PickableIds(q.nodes, allowed, now) else Arrived(q, allowed, now)
  {
    var q1, due := Enqueued(q, allowed, now), DueIds(q.delayed, now);
    EnqueuedReady(q, allowed, now);
    SubsetSize(due, q.nodes.Keys);
    FirstsAll(q1.delayed, due, maxPromote);
    hide Enqueued, DueIds, Promoted, Placed, PickableIds, UnqueuedIds, Valid;
    PromotedReady(q1, due, allowed);
    var q2 := Promoted(q1, due, allowed);
    NoKeys(q2.ready);
    if q2.ready == map[] { RefilledReady(q2, allowed, now); }
  }

  lemma CanPickPlaces(q: Queue, allowed: set<string>, now: int, j: string)
    requires Valid(q)
    ensures CanPick(q, j, allowed, now) <==> j in PickableIds(q.nodes, allowed, now)
    ensures CanPick(q, j, allowed, now) ==> (j in Arrived(q, allowed, now) <==> !Parked(q, j, now))
    ensures j in Arrived(q, allowed, now) && j !in q.ready.Keys + allowed * DueIds(q.delayed, now) ==> CanPick(q, j, allowed, now)
  {
  }

  lemma NothingArrived(q: Queue, allowed: set<string>, now: int, ready: set<string>)
    requires Valid(q)
    requires ready == if Arrived(q, allowed, now) == {} then PickableIds(q.nodes, allowed, now) else Arrived(q, allowed, now)
    ensures (forall j :: CanPick(q, j, allowed, now) ==> j !in ready)
            <==> (forall j :: CanPick(q, j, allowed, now) ==> Parked(q, j, now) && Occupied(q, allowed, now))
  {
    assert Occupied(q, allowed, now) ==> Arrived(q, allowed, now) != {};
    forall j
      ensures CanPick(q, j, allowed, now) <==> j in PickableIds(q.nodes, allowed, now)
      ensures CanPick(q, j, allowed, now) ==> (j in Arrived(q, allowed, now) <==> !Parked(q, j, now))
    {
      CanPickPlaces(q, allowed, now, j);
    }
    if Arrived(q, allowed, now) != {} && !Occupied(q, allowed, now) {
      var k :| k in Arrived(q, allowed, now);
      CanPickPlaces(q, allowed, now, k);
      assert CanPick(q, k, allowed, now) && k in ready;
    }
    hide Valid, CanPick, Parked, Occupied, Arrived, PickableIds;
  }

  lemma NoChoiceIff(p: Queue, q: Queue, allowed: set<string>, now: int)
    requires p.nodes == q.nodes
    ensures NoChoice(p, allowed, now) <==> forall j :: CanPick(q, j, allowed, now) ==> j !in p.ready.Keys
  {
    assert forall j :: j in p.ready.Keys ==> (IsChoice(p, allowed, now, j) <==> CanPick(q, j, allowed, now));
  }

  /** The whole script, whatever its limits: the pick is allowed and pickable, and of least runtime, ties by name, among
      the allowed pickable members of the ready set it scans; only the pick is charged, and the queue stays valid. */
  lemma PickIsLeast(q: Queue, allowed: set<string>, now: int, c: Config)
    requires Valid(q)
    ensures var p := Prepared(q, allowed, now, c.maxPromote);
            p.nodes == q.nodes && PicksFirst(p, allowed, now, c.quantum, c.defaultLatencyMs, Script(q, allowed, now, c))
    ensures Valid(Script(q, allowed, now, c).queue)
  {
    PreparedValid(q, allowed, now, c.maxPromote);
    hide Prepared, Valid, PicksFirst, Scanned;
    ScanPicksFirst(Prepared(q, allowed, now, c.maxPromote), allowed, now, c.quantum, c.defaultLatencyMs, c.maxScan);
    ScannedValid(Prepared(q, allowed, now, c.maxPromote), allowed, now, c.quantum, c.defaultLatencyMs, c.maxScan);
  }

  /** With limits at least the number of nodes, the script picks nothing exactly when every allowed pickable node is
      parked in the delayed set past now, and something else, ready or due, keeps the refill from happening. In
      particular it never returns nothing while an allowed pickable node is ready, unqueued or due. */
  lemma WorkConserving(q: Queue, allowed: set<string>, now: int, c: Config)
    requires Valid(q) && c.maxScan >= |q.nodes.Keys| && c.maxPromote >= |q.nodes.Keys|
    ensures Script(q, allowed, now, c).picked.None?
            <==> forall j :: CanPick(q, j, allowed, now) ==> Parked(q, j, now) && Occupied(q, allowed, now)
  {
    PreparedValid(q, allowed, now, c.maxPromote);
    PreparedReady(q, allowed, now, c.maxPromote);
    hide Prepared, Scanned, CanPick, Parked, Occupied, Arrived, PickableIds, NoChoice;
    var p := Prepared(q, allowed, now, c.maxPromote);
    SubsetSize(p.ready.Keys, q.nodes.Keys);
    NoChoiceIff(p, q, allowed, now);
    ScanPicksIff(p, allowed, now, c.quantum, c.defaultLatencyMs, c.maxScan);
    NothingArrived(q, allowed, now, p.ready.Keys);
  }

  // ---------- parking never hides a pickable node, while fields do not improve ----------

  /** Before its score comes, no parked node would be due. */
  ghost predicate Parks(n: Node, score: real) { forall t: int :: t as real < score ==> !Due(n, t) }

  ghost predicate Honest(q: Queue) { forall id :: id in q.delayed && id in q.nodes ==> Parks(q.nodes[id], q.delayed[id]) }

  lemma DeadlineParks(n: Node, now: int)
    requires !Due(n, now)
    ensures Parks(n, Deadline(n, now)) && Deadline(n, now) > now as real
  {
  }

  lemma SplitHonest(q: Queue, p: set<string>, w: set<string>, now: int)
    requires Honest(q) && p + w <= q.nodes.Keys && forall id :: id in w ==> !Due(q.nodes[id], now)
    ensures Honest(Split(q, p, w, now))
  {
    forall id | id in w ensures Parks(q.nodes[id], Deadline(q.nodes[id], now)) { DeadlineParks(q.nodes[id], now); }
    hide Parks, Deadline, Due;
  }

  lemma PlacedHonest(q: Queue, ids: set<string>, now: int)
    requires Honest(q)
    ensures Honest(Placed(q, ids, now))
  {
    IdsWithin(q.nodes, ids, now);
    SplitHonest(q, PickableIds(q.nodes, ids, now), WaitingIds(q.nodes, ids, now), now);
  }

  lemma PreparedHonest(q: Queue, allowed: set<string>, now: int, maxPromote: nat)
    requires Honest(q)
    ensures Honest(Prepared(q, allowed, now, maxPromote))
  {
    PlacedHonest(q, UnqueuedIds(q, allowed), now);
    var q1 := Enqueued(q, allowed, now);
    var due := Elements(Firsts(q1.delayed, DueIds(q1.delayed, now), maxPromote));
    PromotedHonest(q1, due, allowed);
    PlacedHonest(Promoted(q1, due, allowed), allowed, now);
    hide Honest, Placed, Promoted;
  }

  lemma PromotedHonest(q: Queue, due: set<string>, allowed: set<string>)
    requires Honest(q)
    ensures Honest(Promoted(q, due, allowed))
  {
    hide Parks;
  }

  lemma DroppedHonest(q: Queue, id: string, allowed: set<string>, now: int)
    requires Valid(q) && Honest(q) && id in q.ready && !CanPick(q, id, allowed, now)
    ensures Honest(Dropped(q, id, allowed, now))
  {
    if id in q.nodes && !Due(q.nodes[id], now) { DeadlineParks(q.nodes[id], now); }
    hide Parks, Deadline, Due;
  }

  lemma ChargedHonest(q: Queue, id: string, now: int, quantum: real, defaultLatencyMs: nat)
    requires Valid(q) && Honest(q) && id in q.ready
    ensures Honest(Charged(q, id, now, quantum, defaultLatencyMs))
  {
    hide Parks;
  }

  lemma {:induction false} ScannedHonest(q: Queue, allowed: set<string>, now: int, quantum: real, defaultLatencyMs: nat, maxScan: nat)
    requires Valid(q) && Honest(q)
    ensures Honest(Scanned(q, allowed, now, quantum, defaultLatencyMs, maxScan).queue)
    decreases maxScan
  {
    hide Valid, Dropped, Charged, CanPick, Honest;
    if maxScan > 0 && q.ready != map[] {
      var id := First(q.ready, q.ready.Keys);
      if CanPick(q, id, allowed, now) {
        ChargedHonest(q, id, now, quantum, defaultLatencyMs);
      } else {
        DroppedValid(q, id, allowed, now);
        DroppedHonest(q, id, allowed, now);
        ScannedHonest(Dropped(q, id, allowed, now), allowed, now, quantum, defaultLatencyMs, maxScan - 1);
      }
    }
  }

  /** A write that does not open a parked node's circuit earlier. */
  predicate Sober(q: Queue, op: Op) {
    op.Write? && op.id in q.delayed && op.id in q.nodes ==> op.fields.circuitUntil >= q.nodes[op.id].circuitUntil
  }

  lemma WriteHonest(q: Queue, id: string, f: Fields)
    requires Valid(q) && Honest(q) && Sober(q, Write(id, f))
    ensures Honest(WriteOne(q, id, f))
  {
    var after := WriteOne(q, id, f);
    forall j | j in after.delayed && j in after.nodes ensures Parks(after.nodes[j], after.delayed[j]) {
      assert Parks(q.nodes[j], q.delayed[j]);
      forall t: int | t as real < q.delayed[j] ensures !Due(after.nodes[j], t) { assert !Due(q.nodes[j], t); }
    }
  }

  ghost predicate SoberRun(q: Queue, ops: seq<Op>) {
    ops == [] || (SoberRun(q, ops[..|ops| - 1]) && Sober(Run(q, ops[..|ops| - 1]).queue, ops[|ops| - 1]))
  }

  lemma {:induction false} RunHonest(q: Queue, ops: seq<Op>)
    requires Valid(q) && Honest(q) && SoberRun(q, ops)
    ensures Valid(Run(q, ops).queue) && Honest(Run(q, ops).queue)
  {
    RunValid(q, ops);
    if ops != [] {
      RunHonest(q, ops[..|ops| - 1]);
      var p, op := Run(q, ops[..|ops| - 1]).queue, ops[|ops| - 1];
      hide Valid, Honest, WriteOne, Prepared, Scanned, SoberRun;
      match op
      case Write(id, f) => WriteHonest(p, id, f);
      case Pick(allowed, now, c) =>
        PreparedHonest(p, allowed, now, c.maxPromote);
        PreparedValid(p, allowed, now, c.maxPromote);
        ScannedHonest(Prepared(p, allowed, now, c.maxPromote), allowed, now, c.quantum, c.defaultLatencyMs, c.maxScan);
    }
  }

  lemma ParkedNotPickable(q: Queue, j: string, allowed: set<string>, now: int)
    requires Valid(q) && Honest(q) && Parked(q, j, now)
    ensures !CanPick(q, j, allowed, now)
  {
    assert Parks(q.nodes[j], q.delayed[j]);
  }

  /** While no write opens a parked node's circuit earlier, a call with large enough limits picks someone exactly when
      some allowed node is pickable: nothing pickable is ever lost in the delayed set. */
  lemma PicksWhenever(q: Queue, ops: seq<Op>, allowed: set<string>, now: int, c: Config)
    requires Valid(q) && Honest(q) && SoberRun(q, ops)
    requires var p := Run(q, ops).queue; c.maxScan >= |p.nodes.Keys| && c.maxPromote >= |p.nodes.Keys|
    ensures var p := Run(q, ops).queue;
            Script(p, allowed, now, c).picked.Some? <==> exists j :: CanPick(p, j, allowed, now)
  {
    RunHonest(q, ops);
    var p := Run(q, ops).queue;
    WorkConserving(p, allowed, now, c);
    forall j | Parked(p, j, now) ensures !CanPick(p, j, allowed, now) { ParkedNotPickable(p, j, allowed, now); }
    hide Script, Run, Valid, CanPick, Parked, Occupied;
  }

  // ---------- a run that returns nothing although a node is pickable ----------

  const EMPTY := Queue(map[], map[], map[])

  function WrittenNode(f: Fields): Node { Node(f.weight, f.health, Some(f.latencyMs), f.circuitUntil, 0, 0.0) }

  /** Both nodes written, neither queued; x pickable, y waiting for its circuit. */
  predicate OneWaits(q: Queue, x: string, y: string, now: int) {
    && q.ready == map[] && q.delayed == map[] && q.nodes.Keys == {x, y} && x != y
    && Pickable(q.nodes[x], now) && Live(q.nodes[y]) && q.nodes[y].circuitUntil > now
  }

  lemma TwoWrites(x: string, f: Fields, y: string, g: Fields, now: int)
    requires x != y && 0 <= now && f.weight > 0 && f.health > 0 && f.circuitUntil <= now
    requires g.weight > 0 && g.health > 0 && g.circuitUntil > now
    ensures OneWaits(WriteOne(WriteOne(EMPTY, x, f), y, g), x, y, now)
  {
    var q := WriteOne(WriteOne(EMPTY, x, f), y, g);
    assert q.nodes == map[x := WrittenNode(f), y := WrittenNode(g)];
    assert q.nodes.Keys == {x, y};
  }

  lemma WaiterIsParked(q: Queue, x: string, y: string, now: int, maxPromote: nat)
    requires OneWaits(q, x, y, now)
    ensures var p := Prepared(q, {x, y}, now, maxPromote);
            p.ready.Keys == {x} && p.delayed == map[y := q.nodes[y].circuitUntil as real] && p.nodes == q.nodes
  {
    assert UnqueuedIds(q, {x, y}) == {x, y};
    assert PickableIds(q.nodes, {x, y}, now) == {x} && WaitingIds(q.nodes, {x, y}, now) == {y};
    var q1 := Enqueued(q, {x, y}, now);
    assert q1.ready.Keys == {x} && x in q1.ready;
    assert q1.delayed == map[y := q.nodes[y].circuitUntil as real];
    assert DueIds(q1.delayed, now) == {};
    hide Enqueued, DueIds, UnqueuedIds, PickableIds, WaitingIds;
    assert Elements(Firsts(q1.delayed, {}, maxPromote)) == {};
    NothingPromoted(q1, {x, y});
    NoKeys(q1.ready);
  }

  lemma OnlyMemberIsPicked(p: Queue, x: string, allowed: set<string>, now: int, quantum: real, defaultLatencyMs: nat, maxScan: nat)
    requires p.ready.Keys == {x} && CanPick(p, x, allowed, now) && maxScan > 0
    ensures Scanned(p, allowed, now, quantum, defaultLatencyMs, maxScan)
            == Selection(Charged(p, x, now, quantum, defaultLatencyMs), Some(x))
  {
    NoKeys(p.ready);
    FirstIsMember(p.ready);
    hide Charged, CanPick;
  }

  /** y waits in the delayed set for score, and x is ready. */
  predicate Waits(q: Queue, x: string, y: string, score: int) {
    q.ready.Keys == {x} && q.delayed == map[y := score as real] && q.nodes.Keys == {x, y} && x != y
  }

  lemma ChargedWaits(p: Queue, x: string, y: string, score: int, now: int, quantum: real, defaultLatencyMs: nat)
    requires p.ready.Keys == {x} && p.delayed == map[y := score as real] && p.nodes.Keys == {x, y} && x != y
    ensures var q := Charged(p, x, now, quantum, defaultLatencyMs); Waits(q, x, y, score) && q.nodes[y] == p.nodes[y]
  {
    hide EffectiveWeight;
    var q := Charged(p, x, now, quantum, defaultLatencyMs);
    assert q.ready.Keys == {x} && q.nodes.Keys == {x, y};
  }

  lemma OneIsPickable(q: Queue, p: Queue, x: string, y: string, now: int)
    requires OneWaits(q, x, y, now) && p.nodes == q.nodes
    ensures CanPick(p, x, {x, y}, now) && p.nodes.Keys == {x, y} && x != y
  {
  }

  lemma FirstPickParks(q: Queue, x: string, y: string, now: int, c: Config)
    requires OneWaits(q, x, y, now) && c.maxScan > 0
    ensures y in q.nodes
    ensures var s := Script(q, {x, y}, now, c); Waits(s.queue, x, y, q.nodes[y].circuitUntil) && s.queue.nodes[y] == q.nodes[y]
  {
    var p := Prepared(q, {x, y}, now, c.maxPromote);
    assert Script(q, {x, y}, now, c) == Scanned(p, {x, y}, now, c.quantum, c.defaultLatencyMs, c.maxScan);
    WaiterIsParked(q, x, y, now, c.maxPromote);
    OneIsPickable(q, p, x, y, now);
    hide *;
    OnlyMemberIsPicked(p, x, {x, y}, now, c.quantum, c.defaultLatencyMs, c.maxScan);
    ChargedWaits(p, x, y, q.nodes[y].circuitUntil, now, c.quantum, c.defaultLatencyMs);
  }

  lemma HealedIsParked(q: Queue, x: string, y: string, score: int, h: Fields, now: int)
    requires Waits(q, x, y, score) && score > now
    requires h.weight > 0 && h.health > 0 && h.circuitUntil <= now && q.nodes[y].nextEligible <= now
    ensures var r := WriteOne(q, y, h);
            CanPick(r, y, {y}, now) && Parked(r, y, now) && Occupied(r, {y}, now) && r.nodes.Keys == {x, y}
  {
    var r := WriteOne(q, y, h);
    assert r.nodes.Keys == {x, y};
    assert x in r.ready.Keys;
  }

  lemma ParkedIsMissed(r: Queue, x: string, y: string, now: int, c: Config)
    requires Valid(r) && Parked(r, y, now) && Occupied(r, {y}, now) && r.nodes.Keys == {x, y} && c.maxScan >= 2 && c.maxPromote >= 2
    ensures Script(r, {y}, now, c).picked == None
  {
    SubsetSize({x, y}, {x} + {y});
    assert |r.nodes.Keys| <= 2;
    WorkConserving(r, {y}, now, c);
    forall j | CanPick(r, j, {y}, now) ensures j == y { }
    hide Script, Valid, Parked, Occupied, CanPick;
  }

  lemma HealedIsMissed(q: Queue, x: string, y: string, score: int, h: Fields, now: int, c: Config)
    requires Valid(q) && Waits(q, x, y, score) && score > now && c.maxScan >= 2 && c.maxPromote >= 2
    requires h.weight > 0 && h.health > 0 && h.circuitUntil <= now && q.nodes[y].nextEligible <= now
    ensures var r := WriteOne(q, y, h); CanPick(r, y, {y}, now) && Script(r, {y}, now, c).picked == None
  {
    hide *;
    WriteValid(q, y, h);
    HealedIsParked(q, x, y, score, h, now);
    ParkedIsMissed(WriteOne(q, y, h), x, y, now, c);
  }

  lemma RunMore(q: Queue, ops: seq<Op>, op: Op)
    ensures Run(q, ops + [op]).queue == Apply(Run(q, ops).queue, op).queue
  {
    assert (ops + [op])[..|ops|] == ops;
    hide Apply;
  }

  /** A node whose circuit is written shorter while it is parked is missed: the last call of this run returns nothing
      although its only allowed node is pickable, because the other node keeps the ready set from being refilled. */
  lemma HealedNodeIsMissed(x: string, f: Fields, y: string, g: Fields, h: Fields, now: int, c: Config, ops: seq<Op>)
    requires x != y && 0 <= now && c.maxScan >= 2 && c.maxPromote >= 2
    requires f.weight > 0 && f.health > 0 && f.circuitUntil <= now
    requires g.weight > 0 && g.health > 0 && g.circuitUntil > now
    requires h.weight > 0 && h.health > 0 && h.circuitUntil <= now
    requires ops == [] + [Write(x, f)] + [Write(y, g)] + [Pick({x, y}, now, c)] + [Write(y, h)]
    ensures var q := Run(EMPTY, ops).queue;
            CanPick(q, y, {y}, now) && Script(q, {y}, now, c).picked == None
  {
    var o2 := [] + [Write(x, f)] + [Write(y, g)];
    var o3 := o2 + [Pick({x, y}, now, c)];
    TwoWritesRun(x, f, y, g, now);
    var q2, q3 := Run(EMPTY, o2).queue, Run(EMPTY, o3).queue;
    RunMore(EMPTY, o2, Pick({x, y}, now, c));
    RunMore(EMPTY, o3, Write(y, h));
    assert q3 == Script(q2, {x, y}, now, c).queue && Run(EMPTY, ops).queue == WriteOne(q3, y, h);
    RunValid(EMPTY, o3);
    hide *;
    FirstPickParks(q2, x, y, now, c);
    HealedIsMissed(q3, x, y, g.circuitUntil, h, now, c);
  }

  lemma TwoWritesRun(x: string, f: Fields, y: string, g: Fields, now: int)
    requires x != y && 0 <= now && f.weight > 0 && f.health > 0 && f.circuitUntil <= now
    requires g.weight > 0 && g.health > 0 && g.circuitUntil > now
    ensures var q := Run(EMPTY, [] + [Write(x, f)] + [Write(y, g)]).queue;
            OneWaits(q, x, y, now) && q.nodes[y].nextEligible <= now && q.nodes[y].circuitUntil == g.circuitUntil
    ensures Valid(EMPTY)
  {
    RunMore(EMPTY, [], Write(x, f));
    RunMore(EMPTY, [] + [Write(x, f)], Write(y, g));
    hide OneWaits;
    TwoWrites(x, f, y, g, now);
  }
}
