/** What a Select call answers, over sequential runs of one process: whoever may be picked is found. */
module SelectRuns {
  import opened Domain
  import opened ZFair
  import opened ZFairQueue
  import opened SyncSkip
  import opened SyncRuns

  /** The clock the script is given: whole milliseconds. */
  function Millis(t: Instant): int { t / MILLISECOND }

  /** The clock reading of the last call, or the start. */
  function Clock(start: Instant, calls: seq<Call>): Instant { if calls == [] then start else calls[|calls| - 1].now }

  /** The calls follow one another: no clock reading before the previous one, and each runs the script by its own. */
  predicate Sequential(start: Instant, calls: seq<Call>) {
    calls == [] ||
    var front, c := calls[..|calls| - 1], calls[|calls| - 1];
    Sequential(start, front) && Clock(start, front) <= c.now && forall op :: op in c.evals && op.Pick? ==> op.now == Millis(c.now)
  }

  /** Nobody is parked, and nobody would have to be at t. */
  predicate AllDue(q: Queue, t: int) { q.delayed == map[] && forall id :: id in q.nodes ==> Due(q.nodes[id], t) }

  lemma LaterAllDue(q: Queue, t: int, t': int)
    requires AllDue(q, t) && t <= t'
    ensures AllDue(q, t')
  {
  }

  // ---------- the script parks nobody ----------

  lemma NobodyWaits(q: Queue, ids: set<string>, t: int)
    requires AllDue(q, t)
    ensures WaitingIds(q.nodes, ids, t) == {}
  {
  }

  lemma PlacedAllDue(q: Queue, ids: set<string>, t: int)
    requires AllDue(q, t)
    ensures AllDue(Placed(q, ids, t), t) && Placed(q, ids, t).nodes == q.nodes
  {
    NobodyWaits(q, ids, t);
    IdsWithin(q.nodes, ids, t);
    hide PickableIds, Due;
    assert Deadlines(q.nodes, {}, t) == map[];
    assert q.delayed - PickableIds(q.nodes, ids, t) == map[];
  }

  lemma PromotedAllDue(q: Queue, due: set<string>, allowed: set<string>, t: int)
    requires AllDue(q, t)
    ensures AllDue(Promoted(q, due, allowed), t)
  {
    hide Due;
    assert q.delayed - due == map[];
  }

  lemma PreparedAllDue(q: Queue, allowed: set<string>, t: int, maxPromote: nat)
    requires AllDue(q, t)
    ensures AllDue(Prepared(q, allowed, t, maxPromote), t)
  {
    PlacedAllDue(q, UnqueuedIds(q, allowed), t);
    var q1 := Enqueued(q, allowed, t);
    var due := Elements(Firsts(q1.delayed, DueIds(q1.delayed, t), maxPromote));
    PromotedAllDue(q1, due, allowed, t);
    PlacedAllDue(Promoted(q1, due, allowed), allowed, t);
    hide AllDue, Placed, Promoted;
  }

  lemma DroppedAllDue(q: Queue, id: string, allowed: set<string>, t: int)
    requires AllDue(q, t) && !CanPick(q, id, allowed, t)
    ensures AllDue(Dropped(q, id, allowed, t), t)
  {
    hide Due;
  }

  lemma ChargedAllDue(q: Queue, id: string, t: int, quantum: real, defaultLatencyMs: nat)
    requires AllDue(q, t) && id in q.ready && id in q.nodes
    ensures AllDue(Charged(q, id, t, quantum, defaultLatencyMs), t)
  {
    hide EffectiveWeight;
  }

  lemma {:induction false} ScannedAllDue(q: Queue, allowed: set<string>, t: int, quantum: real, defaultLatencyMs: nat, maxScan: nat)
    requires AllDue(q, t)
    ensures AllDue(Scanned(q, allowed, t, quantum, defaultLatencyMs, maxScan).queue, t)
    decreases maxScan
  {
    hide AllDue, Dropped, Charged, Pickable;
    if maxScan > 0 && q.ready != map[] {
      var id := First(q.ready, q.ready.Keys);
      if CanPick(q, id, allowed, t) {
        ChargedAllDue(q, id, t, quantum, defaultLatencyMs);
      } else {
        DroppedAllDue(q, id, allowed, t);
        ScannedAllDue(Dropped(q, id, allowed, t), allowed, t, quantum, defaultLatencyMs, maxScan - 1);
      }
    }
  }

  lemma {:induction false} EvalsAllDue(q: Queue, evals: seq<Op>, t: int)
    requires AllDue(q, t) && forall op :: op in evals ==> op.Pick? && op.now == t
    ensures AllDue(Run(q, evals).queue, t)
  {
    if evals != [] {
      var before, op := evals[..|evals| - 1], evals[|evals| - 1];
      assert op in evals;
      EvalsAllDue(q, before, t);
      hide AllDue, Prepared, Scanned;
      var q1 := Run(q, before).queue;
      PreparedAllDue(q1, op.allowed, t, op.config.maxPromote);
      ScannedAllDue(Prepared(q1, op.allowed, t, op.config.maxPromote), op.allowed, t, op.config.quantum, op.config.defaultLatencyMs,
                    op.config.maxScan);
    }
  }

  // ---------- nor does a sync ----------

  /** Only eligible candidates are written, and their circuits are closed or past. */
  lemma WritesAreDue(c: Call, g: Settings)
    requires c.now >= 0
    ensures forall id :: id in CallWrites(c, g) ==> CallWrites(c, g)[id].circuitUntil <= Millis(c.now)
  {
    EligibleByIdMeaning(c.candidates, c.now);
    hide EligibleById;
    forall id | id in CallWrites(c, g) ensures CallWrites(c, g)[id].circuitUntil <= Millis(c.now) {
      var p := EligibleById(c.candidates, c.now)[id];
      if p.circuitOpenUntil.Some? { EarlierMillis(p.circuitOpenUntil.value, c.now); }
    }
  }

  lemma EarlierMillis(a: Instant, b: Instant)
    requires a <= b
    ensures Millis(a) <= Millis(b)
  {
  }

  lemma WrittenAllDue(q: Queue, writes: map<string, Fields>, ids: set<string>, t: int)
    requires AllDue(q, t) && 0 <= t && ids <= writes.Keys && forall id :: id in writes ==> writes[id].circuitUntil <= t
    ensures AllDue(WriteAll(q, writes, ids), t)
  {
  }

  /** The queue the script finds after a call's sync. */
  ghost function AfterSync(w: World, c: Call, g: Settings): Queue
    requires Possible(c, g)
  {
    Synced(w.process, CallWrites(c, g), g, c.now, c.executed, c.failed).queue
  }

  /** The call's sync is performed or skipped, rightly or not. */
  ghost predicate GoesOn(w: World, c: Call, g: Settings) { !c.failed || Skips(w.process, CallWrites(c, g), g, c.now) }

  /** A call without candidates leaves the queue; one whose sync failed leaves it as far as Redis got; any other runs its
      scripts after the sync. */
  lemma CallMeaning(w: World, c: Call, g: Settings)
    requires Possible(c, g)
    ensures Step(w, c, g).process.queue == if CallWrites(c, g) == map[] then w.process.queue
                                           else if GoesOn(w, c, g) then Run(AfterSync(w, c, g), c.evals).queue
                                           else WriteAll(w.process.queue, CallWrites(c, g), c.executed)
  {
    hide Run, CallWrites, Signature, Fresh, WriteAll, Ambiguous, Logged;
  }

  lemma SyncedAllDue(w: World, c: Call, g: Settings)
    requires Possible(c, g) && c.now >= 0 && AllDue(w.process.queue, Millis(c.now))
    ensures AllDue(AfterSync(w, c, g), Millis(c.now))
  {
    WritesAreDue(c, g);
    hide AllDue, Millis, Skips, CallWrites, WriteAll, Ambiguous;
    WrittenAllDue(w.process.queue, CallWrites(c, g), c.executed, Millis(c.now));
  }

  lemma StepAllDue(w: World, c: Call, g: Settings)
    requires Possible(c, g) && c.now >= 0 && AllDue(w.process.queue, Millis(c.now))
    requires forall op :: op in c.evals && op.Pick? ==> op.now == Millis(c.now)
    ensures AllDue(Step(w, c, g).process.queue, Millis(c.now))
  {
    SyncedAllDue(w, c, g);
    hide AllDue, Millis, Skips, CallWrites, Run, Ambiguous, Logged;
    if CallWrites(c, g) != map[] { EvalsAllDue(AfterSync(w, c, g), c.evals, Millis(c.now)); }
  }

  lemma {:induction false} CallsAllDue(q: Queue, calls: seq<Call>, g: Settings, start: Instant)
    requires AllPossible(calls, g) && Sequential(start, calls) && start >= 0 && AllDue(q, Millis(start))
    ensures Clock(start, calls) >= start && AllDue(Calls(q, calls, g).process.queue, Millis(Clock(start, calls)))
  {
    if calls != [] {
      var front, c := calls[..|calls| - 1], calls[|calls| - 1];
      CallsAllDue(q, front, g, start);
      hide AllDue, Millis, Possible, Step;
      EarlierMillis(Clock(start, front), c.now);
      LaterAllDue(Calls(q, front, g).process.queue, Millis(Clock(start, front)), Millis(c.now));
      StepAllDue(Calls(q, front, g), c, g);
    }
  }

  // ---------- so somebody is picked ----------

  /** After a sync, performed or skipped, the nodes of all candidates are live, even when the skip was not right. */
  lemma CandidatesAreLive(w: World, c: Call, g: Settings)
    requires Inv(w) && Possible(c, g) && GoesOn(w, c, g)
    ensures var q := AfterSync(w, c, g);
            Valid(q) && forall id :: id in CallWrites(c, g) ==> id in q.nodes && Live(q.nodes[id])
  {
    var writes := CallWrites(c, g);
    if Skips(w.process, writes, g, c.now) {
      SkipRepeats(w, c, g);
    } else {
      WriteFollows(w, c, g);
      LogIsLive(w.written, c, g);
    }
    hide CallWrites, Skips, WriteAll, Valid, Logged, Ambiguous, Signature;
  }

  lemma LiveIsPicked(q: Queue, allowed: set<string>, t: int, c: Config)
    requires Valid(q) && AllDue(q, t) && c.maxScan >= |q.nodes.Keys| && c.maxPromote >= |q.nodes.Keys|
    requires allowed != {} && forall id :: id in allowed ==> id in q.nodes && Live(q.nodes[id])
    ensures Script(q, allowed, t, c).picked.Some?
  {
    WorkConserving(q, allowed, t, c);
    var id :| id in allowed;
    assert CanPick(q, id, allowed, t) && !Parked(q, id, t);
    hide Script;
  }

  /** The record may carry traffic. */
  predicate Healthy(p: Proxy, now: Instant) {
    p.healthy && p.weight > 0 && p.healthScore > 0 && (p.circuitOpenUntil == None || p.circuitOpenUntil.value <= now)
  }

  lemma EligibleIsHealthy(p: Proxy, now: Instant)
    ensures Healthy(p, now) == Eligible(p, now)
  {
  }

  /** What Select answers when the script runs on q. */
  ghost function Answer(q: Queue, c: Call, config: Config): Result<Proxy> {
    var eligible := EligibleById(c.candidates, c.now);
    ParseSelectionResult(Script(q, eligible.Keys, Millis(c.now), config).picked, eligible)
  }

  lemma AnswerIs(q: Queue, c: Call, config: Config)
    ensures var eligible := EligibleById(c.candidates, c.now);
            Answer(q, c, config) == ParseSelectionResult(Script(q, eligible.Keys, Millis(c.now), config).picked, eligible)
  {
  }

  lemma CandidateKeys(c: Call, g: Settings)
    ensures CallWrites(c, g).Keys == EligibleById(c.candidates, c.now).Keys && (CallWrites(c, g) != map[] ==> CallWrites(c, g).Keys != {})
  {
    hide EligibleById;
  }

  lemma AnswersAfterSync(w: World, c: Call, g: Settings, config: Config)
    requires Inv(w) && Possible(c, g) && GoesOn(w, c, g) && CallWrites(c, g) != map[]
    requires c.now >= 0 && AllDue(w.process.queue, Millis(c.now))
    requires config.maxScan >= |AfterSync(w, c, g).nodes.Keys| && config.maxPromote >= |AfterSync(w, c, g).nodes.Keys|
    ensures var r := Answer(AfterSync(w, c, g), c, config); r.Ok? && r.value in c.candidates && Healthy(r.value, c.now)
  {
    hide *;
    var q := AfterSync(w, c, g);
    CandidatesAreLive(w, c, g);
    SyncedAllDue(w, c, g);
    CandidateKeys(c, g);
    AnswerIs(q, c, config);
    LiveIsPicked(q, CallWrites(c, g).Keys, Millis(c.now), config);
    AnswerIsCandidate(q, c.candidates, c.now, Millis(c.now), config);
    EligibleIsHealthy(Answer(q, c, config).value, c.now);
  }

  /** In every run of calls one after the other, from a queue without parked members, a call with eligible candidates
      whose sync is performed or skipped, rightly or not, gets one of them from the first run of the script. */
  lemma SelectAnswers(q: Queue, calls: seq<Call>, c: Call, g: Settings, start: Instant, config: Config)
    requires Valid(q) && start >= 0 && AllDue(q, Millis(start)) && AllPossible(calls, g) && Possible(c, g)
    requires Sequential(start, calls) && Clock(start, calls) <= c.now && CallWrites(c, g) != map[] && GoesOn(Calls(q, calls, g), c, g)
    requires var p := AfterSync(Calls(q, calls, g), c, g); config.maxScan >= |p.nodes.Keys| && config.maxPromote >= |p.nodes.Keys|
    ensures var r := Answer(AfterSync(Calls(q, calls, g), c, g), c, config);
            r.Ok? && r.value in c.candidates && Healthy(r.value, c.now)
  {
    hide *;
    var w := Calls(q, calls, g);
    CallsKeepInv(q, calls, g);
    CallsAllDue(q, calls, g, start);
    EarlierMillis(Clock(start, calls), c.now);
    LaterAllDue(w.process.queue, Millis(Clock(start, calls)), Millis(c.now));
    AnswersAfterSync(w, c, g, config);
  }
}
