/** When a skipped sync is sound, over whole runs of one process that owns the nodes. */
module SyncRuns {
  import opened Domain
  import opened ZFair
  import opened ZFairQueue
  import opened SyncSkip

  /** One Select call: its candidates and clock, how far a write pipeline got, and the script runs that followed. */
  datatype Call = Call(candidates: seq<Proxy>, now: Instant, executed: set<string>, failed: bool, evals: seq<Op>)

  /** The process, with two history variables: the last write executed for each id, and the last successful sync. */
  datatype World = World(process: Process, written: map<string, Fields>, synced: map<string, Fields>)

  function CallWrites(c: Call, g: Settings): map<string, Fields> { Writes(EligibleById(c.candidates, c.now), g.defaultLatencyMs) }

  ghost predicate Possible(c: Call, g: Settings) {
    var writes := CallWrites(c, g);
    && c.executed <= writes.Keys && (!c.failed ==> c.executed == writes.Keys)
    && (forall id :: id in writes ==> !Ambiguous(id))
    && forall op :: op in c.evals ==> op.Pick? && op.allowed == writes.Keys
  }

  ghost predicate AllPossible(calls: seq<Call>, g: Settings) { forall d :: d in calls ==> Possible(d, g) }

  function Logged(written: map<string, Fields>, writes: map<string, Fields>, executed: set<string>): map<string, Fields>
    requires executed <= writes.Keys
  {
    written + map id | id in executed :: writes[id]
  }

  ghost function Step(w: World, c: Call, g: Settings): World
    requires Possible(c, g)
  {
    var writes, p := CallWrites(c, g), w.process;
    if writes == map[] then w
    else
      var skips, p1 := Skips(p, writes, g, c.now), Synced(p, writes, g, c.now, c.executed, c.failed);
      if !skips && c.failed then World(p1, Logged(w.written, writes, c.executed), w.synced)
      else World(p1.(queue := Run(p1.queue, c.evals).queue),
                 if skips then w.written else Logged(w.written, writes, c.executed), if skips then w.synced else writes)
  }

  ghost function Calls(q: Queue, calls: seq<Call>, g: Settings): World
    requires AllPossible(calls, g)
  {
    if calls == [] then World(Process(q, None, ""), map[], map[])
    else Step(Calls(q, calls[..|calls| - 1], g), calls[|calls| - 1], g)
  }

  predicate NodeHolds(q: Queue, id: string, f: Fields) {
    id in q.nodes && q.nodes[id].weight == f.weight && q.nodes[id].health == f.health
    && q.nodes[id].latencyMs == Some(f.latencyMs) && q.nodes[id].circuitUntil == f.circuitUntil
  }

  /** The nodes already hold what a sync would write. */
  predicate NodesHold(q: Queue, writes: map<string, Fields>) { forall id :: id in writes ==> NodeHolds(q, id, writes[id]) }

  lemma HoldingIsFixpoint(q: Queue, writes: map<string, Fields>)
    requires forall id :: id in writes ==> id in q.nodes
    ensures NodesHold(q, writes) <==> WriteAll(q, writes, writes.Keys) == q
  {
    var after := WriteAll(q, writes, writes.Keys);
    assert forall id :: id in q.nodes && id !in writes ==> after.nodes[id] == q.nodes[id];
    assert after.nodes.Keys == q.nodes.Keys;
    if after == q {
      forall id | id in writes ensures NodeHolds(q, id, writes[id]) { assert after.nodes[id] == Written(q.nodes, id, writes[id]); }
    }
    if NodesHold(q, writes) {
      forall id | id in writes ensures after.nodes[id] == q.nodes[id] {
        assert NodeHolds(q, id, writes[id]) && after.nodes[id] == Written(q.nodes, id, writes[id]);
      }
      assert after.nodes == q.nodes;
    }
  }

  predicate LiveFields(f: Fields) { f.weight > 0 && f.health > 0 }

  // ---------- the script leaves allowed live nodes' fields alone ----------

  lemma {:induction false} ScanKeepsFields(q: Queue, allowed: set<string>, now: int, quantum: real, defaultLatencyMs: nat, maxScan: nat,
                                           id: string, f: Fields)
    requires id in allowed && NodeHolds(q, id, f) && LiveFields(f)
    ensures NodeHolds(Scanned(q, allowed, now, quantum, defaultLatencyMs, maxScan).queue, id, f)
    decreases maxScan
  {
    hide EffectiveWeight, Deadline, IsFirst;
    if maxScan > 0 && q.ready != map[] {
      var head := First(q.ready, q.ready.Keys);
      if !CanPick(q, head, allowed, now) {
        ScanKeepsFields(Dropped(q, head, allowed, now), allowed, now, quantum, defaultLatencyMs, maxScan - 1, id, f);
      }
    }
  }

  lemma {:induction false} EvalsKeepFields(q: Queue, evals: seq<Op>, allowed: set<string>, id: string, f: Fields)
    requires Valid(q) && id in allowed && NodeHolds(q, id, f) && LiveFields(f)
    requires forall op :: op in evals ==> op.Pick? && op.allowed == allowed
    ensures Valid(Run(q, evals).queue) && NodeHolds(Run(q, evals).queue, id, f)
  {
    if evals != [] {
      var before, op := evals[..|evals| - 1], evals[|evals| - 1];
      assert op in evals;
      EvalsKeepFields(q, before, allowed, id, f);
      var q1 := Run(q, before).queue;
      hide Valid, Prepared, Scanned, LiveFields;
      ApplyValid(q1, op);
      PreparedValid(q1, allowed, op.now, op.config.maxPromote);
      ScanKeepsFields(Prepared(q1, allowed, op.now, op.config.maxPromote), allowed, op.now, op.config.quantum,
                      op.config.defaultLatencyMs, op.config.maxScan, id, f);
    }
  }

  // ---------- the invariant ----------

  /** Nodes follow the log of executed writes, which only ever holds live fields. */
  predicate Follows(q: Queue, written: map<string, Fields>, ids: set<string>) {
    && Valid(q)
    && (forall id :: id in written ==> LiveFields(written[id]))
    && forall id :: id in ids ==> id in written && NodeHolds(q, id, written[id])
  }

  ghost predicate Inv(w: World) {
    && Follows(w.process.queue, w.written, w.synced.Keys)
    && (w.process.lastAt.Some? ==> w.process.lastSig == Signature(w.synced))
    && forall id :: id in w.synced ==> !Ambiguous(id)
  }

  lemma {:induction false} WriteAllValid(q: Queue, writes: map<string, Fields>, ids: set<string>)
    requires Valid(q) && ids <= writes.Keys
    ensures Valid(WriteAll(q, writes, ids))
  {
  }

  lemma WriteAllHolds(q: Queue, writes: map<string, Fields>, ids: set<string>, written: map<string, Fields>, id: string)
    requires ids <= writes.Keys && (id in ids || (id in written && NodeHolds(q, id, written[id])))
    ensures id in Logged(written, writes, ids) && NodeHolds(WriteAll(q, writes, ids), id, Logged(written, writes, ids)[id])
  {
  }

  lemma WritesAreLive(c: Call, g: Settings)
    ensures forall id :: id in CallWrites(c, g) ==> LiveFields(CallWrites(c, g)[id])
  {
    EligibleByIdMeaning(c.candidates, c.now);
  }

  lemma LogIsLive(written: map<string, Fields>, c: Call, g: Settings)
    requires Possible(c, g) && forall id :: id in written ==> LiveFields(written[id])
    ensures forall id :: id in Logged(written, CallWrites(c, g), c.executed) ==> LiveFields(Logged(written, CallWrites(c, g), c.executed)[id])
  {
    WritesAreLive(c, g);
    hide LiveFields, CallWrites;
  }

  lemma EvalsFollow(q: Queue, evals: seq<Op>, written: map<string, Fields>, ids: set<string>)
    requires Follows(q, written, ids) && forall op :: op in evals ==> op.Pick? && op.allowed == ids
    ensures Follows(Run(q, evals).queue, written, ids)
  {
    RunValid(q, evals);
    forall id | id in ids ensures NodeHolds(Run(q, evals).queue, id, written[id]) {
      EvalsKeepFields(q, evals, ids, id, written[id]);
    }
    hide Valid, Run, NodeHolds, LiveFields;
  }

  /** A skip repeats exactly the last successful sync. */
  lemma SkipRepeats(w: World, c: Call, g: Settings)
    requires Inv(w) && Possible(c, g) && Skips(w.process, CallWrites(c, g), g, c.now)
    ensures CallWrites(c, g) == w.synced
  {
    SignatureIff(CallWrites(c, g), w.synced);
  }

  /** The executed part of a write: the nodes follow the longer log, for old and new ids alike. */
  lemma WriteFollows(w: World, c: Call, g: Settings)
    requires Inv(w) && Possible(c, g)
    ensures Follows(WriteAll(w.process.queue, CallWrites(c, g), c.executed), Logged(w.written, CallWrites(c, g), c.executed),
                    w.synced.Keys + c.executed)
  {
    var writes := CallWrites(c, g);
    WriteAllValid(w.process.queue, writes, c.executed);
    LogIsLive(w.written, c, g);
    forall id | id in w.synced.Keys + c.executed
      ensures id in Logged(w.written, writes, c.executed)
      ensures NodeHolds(WriteAll(w.process.queue, writes, c.executed), id, Logged(w.written, writes, c.executed)[id])
    {
      WriteAllHolds(w.process.queue, writes, c.executed, w.written, id);
    }
  }

  lemma FollowsFewer(q: Queue, written: map<string, Fields>, ids: set<string>, fewer: set<string>)
    requires Follows(q, written, ids) && fewer <= ids
    ensures Follows(q, written, fewer)
  {
  }

  lemma StepFollows(w: World, c: Call, g: Settings)
    requires Inv(w) && Possible(c, g)
    ensures var v := Step(w, c, g); Follows(v.process.queue, v.written, v.synced.Keys)
  {
    var writes := CallWrites(c, g);
    if writes == map[] {
    } else if Skips(w.process, writes, g, c.now) {
      SkipRepeats(w, c, g);
      hide Follows, Skips, CallWrites, Run;
      EvalsFollow(w.process.queue, c.evals, w.written, w.synced.Keys);
    } else {
      WriteFollows(w, c, g);
      hide Follows, Skips, CallWrites, Run;
      var q, written := WriteAll(w.process.queue, writes, c.executed), Logged(w.written, writes, c.executed);
      FollowsFewer(q, written, w.synced.Keys + c.executed, if c.failed then w.synced.Keys else c.executed);
      if !c.failed { EvalsFollow(q, c.evals, written, writes.Keys); }
    }
  }

  lemma StepSigned(w: World, c: Call, g: Settings)
    requires Inv(w) && Possible(c, g)
    ensures var v := Step(w, c, g); v.process.lastAt.Some? ==> v.process.lastSig == Signature(v.synced)
    ensures forall id :: id in Step(w, c, g).synced ==> !Ambiguous(id)
  {
    hide Follows, Skips, CallWrites, Run, Signature, Ambiguous, WriteAll, Logged;
  }

  lemma StepKeepsInv(w: World, c: Call, g: Settings)
    requires Inv(w) && Possible(c, g)
    ensures Inv(Step(w, c, g))
  {
    StepFollows(w, c, g);
    StepSigned(w, c, g);
    hide Follows, Step, Signature, Ambiguous;
  }

  lemma {:induction false} CallsKeepInv(q: Queue, calls: seq<Call>, g: Settings)
    requires Valid(q) && AllPossible(calls, g)
    ensures Inv(Calls(q, calls, g))
  {
    if calls != [] {
      hide Step, Possible, Valid;
      CallsKeepInv(q, calls[..|calls| - 1], g);
      hide Inv;
      StepKeepsInv(Calls(q, calls[..|calls| - 1], g), calls[|calls| - 1], g);
    }
  }

  // ---------- the theorems ----------

  /** In every run, a skipped sync finds the nodes already holding its fields exactly when, for each of its
      candidates, the last write Redis executed was of these fields. */
  lemma SkipSoundIff(q: Queue, calls: seq<Call>, c: Call, g: Settings)
    requires Valid(q) && Possible(c, g) && forall d :: d in calls ==> Possible(d, g)
    requires var w := Calls(q, calls, g); Skips(w.process, CallWrites(c, g), g, c.now)
    ensures var w, writes := Calls(q, calls, g), CallWrites(c, g);
            NodesHold(w.process.queue, writes) <==> forall id :: id in writes ==> id in w.written && w.written[id] == writes[id]
  {
    CallsKeepInv(q, calls, g);
    var w := Calls(q, calls, g);
    hide Calls, Possible, Valid, Signature;
    SkipRepeats(w, c, g);
    assert forall id :: id in w.synced ==> NodeHolds(w.process.queue, id, w.written[id]);
  }

  // ---------- the same, by what the process itself has seen ----------

  ghost function Steps(w: World, calls: seq<Call>, g: Settings): World
    requires AllPossible(calls, g)
  {
    if calls == [] then w else Step(Steps(w, calls[..|calls| - 1], g), calls[|calls| - 1], g)
  }

  lemma {:induction false} CallsThen(q: Queue, calls: seq<Call>, more: seq<Call>, g: Settings)
    requires AllPossible(calls, g) && AllPossible(more, g)
    ensures AllPossible(calls + more, g) && Calls(q, calls + more, g) == Steps(Calls(q, calls, g), more, g)
  {
    hide Step, Possible;
    if more == [] {
      assert calls + more == calls;
    } else {
      CallsThen(q, calls, more[..|more| - 1], g);
      assert (calls + more)[..|calls + more| - 1] == calls + more[..|more| - 1];
    }
  }

  /** The call writes its candidates, and the write succeeds. */
  ghost predicate Performs(w: World, s: Call, g: Settings) {
    !s.failed && CallWrites(s, g) != map[] && !Skips(w.process, CallWrites(s, g), g, s.now)
  }

  /** The process remembers s as its last successful sync. */
  ghost predicate Remembers(w: World, s: Call, g: Settings) {
    w.process.lastAt == Some(s.now) && w.process.lastSig == Signature(CallWrites(s, g)) && w.synced == CallWrites(s, g)
  }

  /** While s is remembered, call c is skipped. */
  ghost predicate Repeats(s: Call, c: Call, g: Settings) {
    Fresh(Some(s.now), g.ttl, c.now) && Signature(CallWrites(c, g)) == Signature(CallWrites(s, g))
  }

  /** No call of these writes successfully after s: each fails, is skipped, or has no candidates. */
  ghost predicate NoSyncSince(s: Call, after: seq<Call>, g: Settings) {
    forall d :: d in after ==> d.failed || Repeats(s, d, g) || CallWrites(d, g) == map[]
  }

  /** The two calls write the same fields for the ids they share. */
  predicate Agree(d: Call, s: Call, g: Settings) {
    forall id :: id in CallWrites(d, g) && id in CallWrites(s, g) ==> CallWrites(d, g)[id] == CallWrites(s, g)[id]
  }

  predicate LogsSync(w: World) { forall id :: id in w.synced ==> id in w.written && w.written[id] == w.synced[id] }

  lemma StepPerforms(w: World, s: Call, g: Settings)
    requires Possible(s, g) && Performs(w, s, g)
    ensures Remembers(Step(w, s, g), s, g) && LogsSync(Step(w, s, g))
  {
    assert s.executed == CallWrites(s, g).Keys;
    hide Run, CallWrites, Signature, WriteAll;
  }

  lemma StepRemembers(w: World, s: Call, d: Call, g: Settings)
    requires Possible(d, g) && Remembers(w, s, g) && NoSyncSince(s, [d], g)
    ensures Remembers(Step(w, d, g), s, g)
  {
    assert d in [d];
    hide Run, CallWrites, Signature, WriteAll, Fresh;
  }

  lemma StepLogsSync(w: World, c: Call, g: Settings)
    requires Possible(c, g) && !c.failed && LogsSync(w)
    ensures LogsSync(Step(w, c, g))
  {
    assert c.executed == CallWrites(c, g).Keys;
    hide Run, Synced, CallWrites, Skips;
  }

  lemma StepAgrees(w: World, s: Call, d: Call, g: Settings)
    requires Possible(d, g) && Remembers(w, s, g) && LogsSync(w) && (d.failed ==> Agree(d, s, g)) && NoSyncSince(s, [d], g)
    ensures LogsSync(Step(w, d, g))
  {
    if d.failed {
      assert d.executed <= CallWrites(d, g).Keys;
      hide Run, CallWrites, Signature, WriteAll, Skips, Fresh;
    } else {
      StepLogsSync(w, d, g);
    }
  }

  lemma {:induction false} StepsLogSync(w: World, calls: seq<Call>, g: Settings)
    requires AllPossible(calls, g) && LogsSync(w) && forall d :: d in calls ==> !d.failed
    ensures LogsSync(Steps(w, calls, g))
  {
    if calls != [] {
      hide Step, LogsSync, Possible;
      StepsLogSync(w, calls[..|calls| - 1], g);
      StepLogsSync(Steps(w, calls[..|calls| - 1], g), calls[|calls| - 1], g);
    }
  }

  lemma {:induction false} StepsRemember(w: World, s: Call, calls: seq<Call>, g: Settings)
    requires AllPossible(calls, g) && Remembers(w, s, g) && NoSyncSince(s, calls, g)
    ensures Remembers(Steps(w, calls, g), s, g)
    ensures LogsSync(w) && (forall d :: d in calls && d.failed ==> Agree(d, s, g)) ==> LogsSync(Steps(w, calls, g))
  {
    if calls != [] {
      var before, d := calls[..|calls| - 1], calls[|calls| - 1];
      hide Step, LogsSync, Possible, Remembers, Agree, Repeats, CallWrites;
      StepsRemember(w, s, before, g);
      StepRemembers(Steps(w, before, g), s, d, g);
      if LogsSync(Steps(w, before, g)) && (d.failed ==> Agree(d, s, g)) { StepAgrees(Steps(w, before, g), s, d, g); }
    }
  }

  lemma LoggedSkipHolds(q: Queue, calls: seq<Call>, c: Call, g: Settings)
    requires Valid(q) && Possible(c, g) && AllPossible(calls, g) && Skips(Calls(q, calls, g).process, CallWrites(c, g), g, c.now)
    requires LogsSync(Calls(q, calls, g))
    ensures NodesHold(Calls(q, calls, g).process.queue, CallWrites(c, g))
    ensures var p := Calls(q, calls, g).process; WriteAll(p.queue, CallWrites(c, g), CallWrites(c, g).Keys) == p.queue
  {
    var w := Calls(q, calls, g);
    CallsKeepInv(q, calls, g);
    SkipSoundIff(q, calls, c, g);
    hide Calls, Possible, Valid, Signature;
    SkipRepeats(w, c, g);
    HoldingIsFixpoint(w.process.queue, CallWrites(c, g));
  }

  /** Whatever happened before: once a sync s has been performed and no later call has failed, a skipped sync would
      have changed nothing. */
  lemma SkipSound(q: Queue, before: seq<Call>, s: Call, after: seq<Call>, c: Call, g: Settings)
    requires Valid(q) && Possible(c, g) && AllPossible(before, g) && Possible(s, g) && AllPossible(after, g)
    requires Performs(Calls(q, before, g), s, g) && forall d :: d in after ==> !d.failed
    requires Skips(Calls(q, before + [s] + after, g).process, CallWrites(c, g), g, c.now)
    ensures var p := Calls(q, before + [s] + after, g).process;
            WriteAll(p.queue, CallWrites(c, g), CallWrites(c, g).Keys) == p.queue
  {
    assert AllPossible([s], g);
    hide *;
    CallsThen(q, before, [s], g);
    CallsAfterSync(q, before, s, g);
    CallsThen(q, before + [s], after, g);
    StepsLogSync(Calls(q, before + [s], g), after, g);
    LoggedSkipHolds(q, before + [s] + after, c, g);
  }

  lemma CallsAfterSync(q: Queue, before: seq<Call>, s: Call, g: Settings)
    requires AllPossible(before, g) && Possible(s, g) && AllPossible(before + [s], g) && Performs(Calls(q, before, g), s, g)
    ensures Remembers(Calls(q, before + [s], g), s, g) && LogsSync(Calls(q, before + [s], g))
  {
    assert (before + [s])[..|before|] == before;
    hide Step, Possible, Performs, Remembers, LogsSync;
    StepPerforms(Calls(q, before, g), s, g);
  }

  // ---------- which failures are harmless, however far Redis got ----------

  /** The same calls, with Redis having got as far as ex says in each. */
  function Executing(after: seq<Call>, ex: seq<set<string>>): seq<Call>
    requires |ex| == |after|
  {
    seq(|after|, i requires 0 <= i < |after| => after[i].(executed := ex[i]))
  }

  /** If these calls can happen at all, skipping c after them is right. */
  ghost predicate RightAfter(q: Queue, calls: seq<Call>, c: Call, g: Settings) {
    AllPossible(calls, g) ==> NodesHold(Calls(q, calls, g).process.queue, CallWrites(c, g))
  }

  ghost predicate RightHoweverExecuted(q: Queue, before: seq<Call>, after: seq<Call>, c: Call, g: Settings) {
    forall ex: seq<set<string>> :: |ex| == |after| ==> RightAfter(q, before + Executing(after, ex), c, g)
  }

  lemma ExecutingKeeps(s: Call, after: seq<Call>, ex: seq<set<string>>, g: Settings)
    requires |ex| == |after| && NoSyncSince(s, after, g) && forall d :: d in after && d.failed ==> Agree(d, s, g)
    ensures NoSyncSince(s, Executing(after, ex), g)
    ensures forall d :: d in Executing(after, ex) && d.failed ==> Agree(d, s, g)
  {
    forall d | d in Executing(after, ex)
      ensures d.failed || Repeats(s, d, g) || CallWrites(d, g) == map[]
      ensures d.failed ==> Agree(d, s, g)
    {
      var i :| 0 <= i < |after| && Executing(after, ex)[i] == d;
      var o := after[i];
      assert o in after && CallWrites(o, g) == CallWrites(d, g) && o.failed == d.failed && o.now == d.now;
      hide CallWrites, Signature, Fresh;
    }
  }

  lemma RememberedIsSkipped(w: World, s: Call, c: Call, g: Settings)
    requires Remembers(w, s, g) && Repeats(s, c, g)
    ensures Skips(w.process, CallWrites(c, g), g, c.now)
  {
    hide CallWrites, Signature, Fresh;
  }

  /** Failures that agree with the last sync leave every skip right. */
  lemma HarmlessIsRight(q: Queue, calls: seq<Call>, s: Call, after: seq<Call>, c: Call, g: Settings)
    requires Valid(q) && Possible(c, g) && AllPossible(calls, g) && AllPossible(after, g) && Repeats(s, c, g)
    requires Remembers(Calls(q, calls, g), s, g) && LogsSync(Calls(q, calls, g))
    requires NoSyncSince(s, after, g) && forall d :: d in after && d.failed ==> Agree(d, s, g)
    ensures RightAfter(q, calls + after, c, g)
  {
    hide *;
    CallsThen(q, calls, after, g);
    StepsRemember(Calls(q, calls, g), s, after, g);
    RememberedIsSkipped(Calls(q, calls + after, g), s, c, g);
    LoggedSkipHolds(q, calls + after, c, g);
    HoldsIsRight(q, calls + after, c, g);
  }

  lemma HoldsIsRight(q: Queue, calls: seq<Call>, c: Call, g: Settings)
    requires AllPossible(calls, g)
    ensures RightAfter(q, calls, c, g) <==> NodesHold(Calls(q, calls, g).process.queue, CallWrites(c, g))
  {
    hide NodesHold, Calls, CallWrites, AllPossible;
  }

  lemma QuietStep(w: World, s: Call, d: Call, g: Settings)
    requires Possible(d, g) && Remembers(w, s, g) && NoSyncSince(s, [d], g) && (d.failed ==> d.executed == {})
    ensures Step(w, d, g).written == w.written
  {
    assert d in [d];
    hide Run, CallWrites, Signature, WriteAll, Fresh;
  }

  lemma {:induction false} QuietSteps(w: World, s: Call, calls: seq<Call>, g: Settings)
    requires AllPossible(calls, g) && Remembers(w, s, g) && NoSyncSince(s, calls, g)
    requires forall d :: d in calls && d.failed ==> d.executed == {}
    ensures Steps(w, calls, g).written == w.written && Remembers(Steps(w, calls, g), s, g)
  {
    if calls != [] {
      var before, d := calls[..|calls| - 1], calls[|calls| - 1];
      hide Step, Possible, Remembers, Repeats, CallWrites;
      QuietSteps(w, s, before, g);
      QuietStep(Steps(w, before, g), s, d, g);
      StepRemembers(Steps(w, before, g), s, d, g);
    }
  }

  lemma HarmfulStep(w: World, s: Call, d: Call, id: string, g: Settings)
    requires Possible(d, g) && Possible(s, g) && Remembers(w, s, g) && d.failed && id in d.executed
    requires id in CallWrites(d, g) && id in CallWrites(s, g) && CallWrites(d, g)[id] != CallWrites(s, g)[id]
    ensures var v := Step(w, d, g); Remembers(v, s, g) && id in v.written && v.written[id] == CallWrites(d, g)[id]
  {
    SignatureIff(CallWrites(d, g), CallWrites(s, g));
    assert CallWrites(d, g) != map[] && CallWrites(d, g) != CallWrites(s, g);
    hide Run, CallWrites, Signature, WriteAll, Fresh, Possible;
  }

  /** One failure that disagrees and wrote one of the ids, then nothing more: the skip is wrong. */
  lemma HarmfulIsWrong(q: Queue, calls: seq<Call>, s: Call, d: Call, quiet: seq<Call>, id: string, c: Call, g: Settings)
    requires Valid(q) && Possible(c, g) && AllPossible(calls, g) && Possible(s, g) && Possible(d, g) && AllPossible(quiet, g)
    requires Remembers(Calls(q, calls, g), s, g) && Repeats(s, c, g) && NoSyncSince(s, quiet, g)
    requires d.failed && id in d.executed && forall o :: o in quiet && o.failed ==> o.executed == {}
    requires id in CallWrites(d, g) && id in CallWrites(s, g) && CallWrites(d, g)[id] != CallWrites(s, g)[id]
    ensures AllPossible(calls + [d] + quiet, g) && !RightAfter(q, calls + [d] + quiet, c, g)
  {
    assert AllPossible([d], g);
    SignatureIff(CallWrites(c, g), CallWrites(s, g));
    assert CallWrites(c, g) == CallWrites(s, g) by { hide CallWrites, Signature, Possible; assert Repeats(s, c, g); }
    hide *;
    CallsThen(q, calls, [d], g);
    OneStep(Calls(q, calls, g), d, g);
    HarmfulStep(Calls(q, calls, g), s, d, id, g);
    CallsThen(q, calls + [d], quiet, g);
    QuietSteps(Calls(q, calls + [d], g), s, quiet, g);
    RememberedIsSkipped(Calls(q, calls + [d] + quiet, g), s, c, g);
    SkipSoundIff(q, calls + [d] + quiet, c, g);
    HoldsIsRight(q, calls + [d] + quiet, c, g);
  }

  lemma OneStep(w: World, d: Call, g: Settings)
    requires Possible(d, g) && AllPossible([d], g)
    ensures Steps(w, [d], g) == Step(w, d, g)
  {
    hide Step, Possible;
    assert [d][..0] == [];
  }

  /** Of the failed calls only number i got through, and only for id. */
  function OnlyOne(after: seq<Call>, i: nat, id: string): (ex: seq<set<string>>)
    ensures |ex| == |after|
  {
    seq(|after|, j requires 0 <= j < |after| => if j == i then {id} else if after[j].failed then {} else after[j].executed)
  }

  lemma OnlyOnePossible(s: Call, after: seq<Call>, i: nat, id: string, g: Settings)
    requires i < |after| && after[i].failed && id in CallWrites(after[i], g) && AllPossible(after, g) && NoSyncSince(s, after, g)
    ensures var v := Executing(after, OnlyOne(after, i, id));
            && |v| == |after| && v == v[..i] + [v[i]] + v[i + 1..]
            && AllPossible(v[..i], g) && Possible(v[i], g) && AllPossible(v[i + 1..], g)
            && NoSyncSince(s, v[..i], g) && NoSyncSince(s, v[i + 1..], g)
            && v[i].failed && v[i].executed == {id} && CallWrites(v[i], g) == CallWrites(after[i], g)
            && forall d :: (d in v[..i] || d in v[i + 1..]) && d.failed ==> d.executed == {}
  {
    var v := Executing(after, OnlyOne(after, i, id));
    forall j | 0 <= j < |v|
      ensures Possible(v[j], g) && CallWrites(v[j], g) == CallWrites(after[j], g)
      ensures v[j].failed || Repeats(s, v[j], g) || CallWrites(v[j], g) == map[]
      ensures j != i && v[j].failed ==> v[j].executed == {}
    {
      assert after[j] in after;
      assert CallWrites(v[j], g) == CallWrites(after[j], g);
      hide CallWrites, Signature, Fresh, Ambiguous;
    }
    hide Possible, CallWrites, Repeats;
  }

  /** The exact condition, by what the process has seen: a skip is right however far Redis got in the failed calls
      since the last performed sync s if and only if each of them wrote the same fields for the ids it shares with s. */
  lemma SkipRightIff(q: Queue, before: seq<Call>, s: Call, after: seq<Call>, c: Call, g: Settings)
    requires Valid(q) && Possible(c, g) && AllPossible(before, g) && Possible(s, g) && AllPossible(after, g)
    requires Performs(Calls(q, before, g), s, g) && NoSyncSince(s, after, g) && Repeats(s, c, g)
    ensures RightHoweverExecuted(q, before + [s], after, c, g) <==> forall d :: d in after && d.failed ==> Agree(d, s, g)
  {
    assert AllPossible([s], g);
    hide *;
    CallsThen(q, before, [s], g);
    CallsAfterSync(q, before, s, g);
    if forall d :: d in after && d.failed ==> Agree(d, s, g) {
      AgreeingIsRight(q, before + [s], s, after, c, g);
    } else {
      var d :| d in after && d.failed && !Agree(d, s, g);
      DisagreeingIsWrong(q, before + [s], s, after, d, c, g);
    }
  }

  lemma AgreeingIsRight(q: Queue, calls: seq<Call>, s: Call, after: seq<Call>, c: Call, g: Settings)
    requires Valid(q) && Possible(c, g) && AllPossible(calls, g) && Repeats(s, c, g) && NoSyncSince(s, after, g)
    requires Remembers(Calls(q, calls, g), s, g) && LogsSync(Calls(q, calls, g))
    requires forall d :: d in after && d.failed ==> Agree(d, s, g)
    ensures RightHoweverExecuted(q, calls, after, c, g)
  {
    forall ex: seq<set<string>> | |ex| == |after| ensures RightAfter(q, calls + Executing(after, ex), c, g) {
      var v := Executing(after, ex);
      ExecutingKeeps(s, after, ex, g);
      hide Executing, Possible, Remembers, LogsSync, Repeats, NoSyncSince, Agree, Calls, CallWrites, NodesHold;
      if AllPossible(calls + v, g) {
        assert forall d :: d in v ==> d in calls + v;
        assert AllPossible(v, g);
        HarmlessIsRight(q, calls, s, v, c, g);
      }
    }
  }

  lemma DisagreeingIsWrong(q: Queue, calls: seq<Call>, s: Call, after: seq<Call>, d: Call, c: Call, g: Settings)
    requires Valid(q) && Possible(c, g) && AllPossible(calls, g) && Possible(s, g) && AllPossible(after, g)
    requires Remembers(Calls(q, calls, g), s, g) && Repeats(s, c, g) && NoSyncSince(s, after, g)
    requires d in after && d.failed && !Agree(d, s, g)
    ensures !RightHoweverExecuted(q, calls, after, c, g)
  {
    var id :| id in CallWrites(d, g) && id in CallWrites(s, g) && CallWrites(d, g)[id] != CallWrites(s, g)[id];
    var i :| 0 <= i < |after| && after[i] == d;
    hide *;
    OnlyOnePossible(s, after, i, id, g);
    var v := Executing(after, OnlyOne(after, i, id));
    ThreeThen(q, calls, s, v[..i], v[i], v[i + 1..], id, c, g);
    Reassemble(calls, v, i);
    OneExecutionIsWrong(q, calls, after, c, OnlyOne(after, i, id), g);
  }

  lemma Reassemble(calls: seq<Call>, v: seq<Call>, i: nat)
    requires i < |v|
    ensures calls + v[..i] + [v[i]] + v[i + 1..] == calls + v
  {
  }

  lemma OneExecutionIsWrong(q: Queue, calls: seq<Call>, after: seq<Call>, c: Call, ex: seq<set<string>>, g: Settings)
    requires |ex| == |after| && !RightAfter(q, calls + Executing(after, ex), c, g)
    ensures !RightHoweverExecuted(q, calls, after, c, g)
  {
    hide RightAfter, Executing;
  }

  lemma ThreeThen(q: Queue, calls: seq<Call>, s: Call, a: seq<Call>, d: Call, b: seq<Call>, id: string, c: Call, g: Settings)
    requires Valid(q) && Possible(c, g) && AllPossible(calls, g) && Possible(s, g)
    requires AllPossible(a, g) && Possible(d, g) && AllPossible(b, g) && NoSyncSince(s, a, g) && NoSyncSince(s, b, g)
    requires Remembers(Calls(q, calls, g), s, g) && Repeats(s, c, g)
    requires d.failed && d.executed == {id} && forall o :: o in b && o.failed ==> o.executed == {}
    requires id in CallWrites(d, g) && id in CallWrites(s, g) && CallWrites(d, g)[id] != CallWrites(s, g)[id]
    ensures !RightAfter(q, calls + a + [d] + b, c, g)
  {
    hide *;
    CallsThen(q, calls, a, g);
    StepsRemember(Calls(q, calls, g), s, a, g);
    HarmfulIsWrong(q, calls + a, s, d, b, id, c, g);
  }

  function OneWrite(p: Proxy, g: Settings): map<string, Fields> { map[p.id := FieldsOf(p, g.defaultLatencyMs)] }

  lemma OneCandidate(p: Proxy, now: Instant, executed: set<string>, failed: bool, g: Settings)
    requires Eligible(p, now) && !Ambiguous(p.id) && executed == {p.id}
    ensures Possible(Call([p], now, executed, failed, []), g)
    ensures CallWrites(Call([p], now, executed, failed, []), g) == OneWrite(p, g)
  {
    assert EligibleById([p], now) == map[p.id := p] by { assert [p][..0] == []; }
  }

  lemma StepSynced(w: World, c: Call, g: Settings)
    requires Possible(c, g) && CallWrites(c, g) != map[] && w.process.lastAt.None? && c.evals == []
    ensures Step(w, c, g).process == if c.failed then w.process.(queue := WriteAll(w.process.queue, CallWrites(c, g), c.executed))
                                     else Process(WriteAll(w.process.queue, CallWrites(c, g), c.executed), Some(c.now), Signature(CallWrites(c, g)))
  {
    hide CallWrites, WriteAll, Signature, Possible, Logged;
  }

  lemma StepLost(w: World, c: Call, g: Settings)
    requires Possible(c, g) && CallWrites(c, g) != map[] && w.process.lastSig != Signature(CallWrites(c, g)) && c.failed
    ensures Step(w, c, g).process == w.process.(queue := WriteAll(w.process.queue, CallWrites(c, g), c.executed))
  {
    hide CallWrites, WriteAll, Signature, Possible, Logged;
  }

  lemma OverwrittenNode(q: Queue, f: map<string, Fields>, h: map<string, Fields>, executed: set<string>, id: string)
    requires id in f && id in executed && executed <= h.Keys && f[id] != h[id]
    ensures !NodesHold(WriteAll(q, h, executed), f)
  {
    var after := WriteAll(q, h, executed);
    assert id in after.nodes && after.nodes[id] == Written(q.nodes, id, h[id]);
    assert !NodeHolds(after, id, f[id]);
  }

  lemma TwoCalls(q: Queue, c: Call, d: Call, g: Settings)
    requires Possible(c, g) && Possible(d, g)
    ensures Calls(q, [c, d], g) == Step(Step(World(Process(q, None, ""), map[], map[]), c, g), d, g)
  {
    assert [c, d][..1] == [c] && [c][..0] == [];
    assert Calls(q, [c], g) == Step(World(Process(q, None, ""), map[], map[]), c, g);
    hide Step, Possible;
  }

  lemma SyncThenLose(q: Queue, c: Call, d: Call, g: Settings)
    requires Possible(c, g) && Possible(d, g) && !c.failed && d.failed && c.evals == []
    requires CallWrites(c, g) != map[] && CallWrites(d, g) != map[] && Signature(CallWrites(c, g)) != Signature(CallWrites(d, g))
    ensures Calls(q, [c, d], g).process
            == Process(WriteAll(WriteAll(q, CallWrites(c, g), c.executed), CallWrites(d, g), d.executed), Some(c.now), Signature(CallWrites(c, g)))
  {
    var w0 := World(Process(q, None, ""), map[], map[]);
    hide Calls, Step, Signature, CallWrites, Possible, WriteAll;
    TwoCalls(q, c, d, g);
    StepSynced(w0, c, g);
    StepLost(Step(w0, c, g), d, g);
  }

  /** The process would skip, yet a sync would change a node. */
  ghost predicate SkipIsStale(w: World, c: Call, g: Settings) {
    Skips(w.process, CallWrites(c, g), g, c.now) && !NodesHold(w.process.queue, CallWrites(c, g))
  }

  lemma DifferentSignatures(c: Call, d: Call, id: string, g: Settings)
    requires Possible(c, g) && Possible(d, g) && id in CallWrites(c, g) && id in d.executed && d.executed <= CallWrites(d, g).Keys
    requires CallWrites(c, g)[id] != CallWrites(d, g)[id]
    ensures c.executed <= CallWrites(c, g).Keys && d.executed <= CallWrites(d, g).Keys
    ensures CallWrites(c, g) != map[] && CallWrites(d, g) != map[]
    ensures Signature(CallWrites(c, g)) != Signature(CallWrites(d, g))
  {
    SignatureIff(CallWrites(c, g), CallWrites(d, g));
    hide CallWrites, Signature;
  }

  /** Any lost write of other fields does it. */
  lemma LostWriteIsStale(q: Queue, c: Call, d: Call, id: string, g: Settings)
    requires Possible(c, g) && Possible(d, g) && !c.failed && d.failed && c.evals == [] && g.ttl > 0
    requires id in CallWrites(c, g) && id in d.executed && d.executed <= CallWrites(d, g).Keys && CallWrites(c, g)[id] != CallWrites(d, g)[id]
    ensures SkipIsStale(Calls(q, [c, d], g), c, g)
  {
    assert AllPossible([c, d], g);
    hide *;
    DifferentSignatures(c, d, id, g);
    var f, h := CallWrites(c, g), CallWrites(d, g);
    SyncThenLose(q, c, d, g);
    OverwrittenNode(WriteAll(q, f, c.executed), f, h, d.executed, id);
    FreshSkipIsStale(Calls(q, [c, d], g), c, WriteAll(WriteAll(q, f, c.executed), h, d.executed), g);
  }

  lemma FreshSkipIsStale(w: World, c: Call, q: Queue, g: Settings)
    requires w.process == Process(q, Some(c.now), Signature(CallWrites(c, g))) && g.ttl > 0 && !NodesHold(q, CallWrites(c, g))
    ensures SkipIsStale(w, c, g)
  {
    hide CallWrites, NodesHold, Signature;
  }

  /** After one failed sync that Redis nevertheless executed, the next skip is unsound: a synced proxy whose record
      changes and changes back within the TTL is scheduled by the fields in between. */
  lemma FailedSyncBreaksSkip(q: Queue, a: Proxy, b: Proxy, now: Instant, g: Settings, synced: Call, lost: Call)
    requires a.id == b.id && !Ambiguous(a.id) && Eligible(a, now) && Eligible(b, now) && g.ttl > 0
    requires FieldsOf(a, g.defaultLatencyMs) != FieldsOf(b, g.defaultLatencyMs)
    requires synced == Call([a], now, {a.id}, false, []) && lost == Call([b], now, {b.id}, true, [])
    ensures Possible(synced, g) && Possible(lost, g) && SkipIsStale(Calls(q, [synced, lost], g), synced, g)
  {
    OneCandidate(a, now, {a.id}, false, g);
    OneCandidate(b, now, {b.id}, true, g);
    hide Calls, Possible, FieldsOf, Ambiguous, Eligible, SkipIsStale;
    assert OneWrite(b, g).Keys == {b.id};
    LostWriteIsStale(q, synced, lost, a.id, g);
  }

  // ---------- the answer ----------

  function ParseSelectionResult(picked: Option<string>, candidates: Candidates): Result<Proxy> {
    if picked.None? then Err(NoEligible)
    else if picked.value !in candidates then Err(NotFound)
    else Ok(candidates[picked.value])
  }

  /** The script only ever answers with one of the caller's eligible candidates, so its answer is never stale. */
  lemma AnswerIsCandidate(q: Queue, candidates: seq<Proxy>, now: Instant, nowMs: int, c: Config)
    requires Valid(q)
    ensures var eligible := EligibleById(candidates, now);
            var picked := Script(q, eligible.Keys, nowMs, c).picked;
            picked.Some? ==> var r := ParseSelectionResult(picked, eligible);
                             r.Ok? && r.value in candidates && r.value.id == picked.value && Eligible(r.value, now)
  {
    var eligible := EligibleById(candidates, now);
    PickIsLeast(q, eligible.Keys, nowMs, c);
    EligibleByIdMeaning(candidates, now);
    hide Script, EligibleById, Valid, Eligible, EffectiveWeight;
  }
}
