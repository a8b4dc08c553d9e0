/** The cluster leader lock: one row per lock, taken and extended by a guarded upsert. */
module LeaderLock {
  import opened Domain

  datatype Row = Row(owner: string, leaseUntil: Instant, updatedAt: Instant)

  /** The row may be taken: its lease has passed, or it is the caller's already. */
  predicate Free(r: Row, owner: string, now: Instant) { r.leaseUntil < now || r.owner == owner }

  /** The upsert as one all-or-nothing update. */
  function Upserted(row: Option<Row>, owner: string, now: Instant, until: Instant): Row {
    if row.None? || Free(row.value, owner, now) then Row(owner, until, now) else row.value
  }

  class ClusterLocks {
    var rows: map<string, Row>

    constructor ()
      ensures rows == map[]
    {
      rows := map[];
    }

    /** Insert, or the three assignments from left to right, each guarded by the row as the earlier
        assignments left it. Reports whether the row changed. */
    method Upsert(name: string, owner: string, now: Instant, until: Instant) returns (affected: bool)
      modifies this
      ensures var before := if name in old(rows) then Some(old(rows)[name]) else None;
              && rows == old(rows)[name := Upserted(before, owner, now, until)]
              && affected == (before != Some(rows[name]))
    {
      if name !in rows {
        rows := rows[name := Row(owner, until, now)];
        return true;
      }
      var before := rows[name];
      var row := before;
      row := row.(owner := if row.leaseUntil < now || row.owner == owner then owner else row.owner);
      row := row.(leaseUntil := if row.leaseUntil < now || row.owner == owner then until else row.leaseUntil);
      row := row.(updatedAt := if row.leaseUntil < now || row.owner == owner then now else row.updatedAt);
      rows := rows[name := row];
      affected := row != before;
    }

    /** With no other instance in between: true exactly when the row was free, changed, and the lease
        it now holds ends after the caller's clock reading. */
    method TryAcquireLock(name: string, owner: string, now: Instant, ttl: int) returns (ok: bool)
      modifies this
      ensures var before := if name in old(rows) then Some(old(rows)[name]) else None;
              && rows == old(rows)[name := Upserted(before, owner, now, now + ttl)]
              && (ok <==> ttl > 0 && (before.None? || Free(before.value, owner, now)) && before != Some(Row(owner, now + ttl, now)))
    {
      var affected := Upsert(name, owner, now, now + ttl);
      if !affected {
        return false;
      }
      ok := rows[name].owner == owner && rows[name].leaseUntil > now;
    }
  }

  // ---------- any number of instances, with delays between clock reading, upsert and check ----------

  datatype Phase = Reading | Upserting(now: Instant) | Checking(now: Instant)

  /** A successful acquisition: the instance and the clock reading it was made with. */
  datatype Held = Held(instance: string, at: Instant)

  /** One lock's row, the shared clock, where each instance is, and all successful acquisitions. */
  datatype State = State(row: Option<Row>, clock: Instant, phases: map<string, Phase>, held: set<Held>)

  datatype Op = Tick(to: Instant) | ReadClock(instance: string) | RunUpsert(instance: string) | Check(instance: string)

  function PhaseOf(s: State, x: string): Phase { if x in s.phases then s.phases[x] else Reading }

  /** Every instance asks for its own lease length. */
  type Ttls = string -> int

  function Next(s: State, op: Op, ttl: Ttls): State {
    match op
    case Tick(to) => if to > s.clock then s.(clock := to) else s
    case ReadClock(x) => if PhaseOf(s, x).Reading? then s.(phases := s.phases[x := Upserting(s.clock)]) else s
    case RunUpsert(x) =>
      if !PhaseOf(s, x).Upserting? then s
      else
        var now := s.phases[x].now;
        var row := Upserted(s.row, x, now, now + ttl(x));
        s.(row := Some(row), phases := s.phases[x := if s.row == Some(row) then Reading else Checking(now)])
    case Check(x) =>
      if !PhaseOf(s, x).Checking? then s
      else
        var now := s.phases[x].now;
        var ok := s.row.Some? && s.row.value.owner == x && s.row.value.leaseUntil > now;
        s.(phases := s.phases[x := Reading], held := if ok then s.held + {Held(x, now)} else s.held)
  }

  function Run(clock: Instant, ops: seq<Op>, ttl: Ttls): State {
    if ops == [] then State(None, clock, map[], {}) else Next(Run(clock, ops[..|ops| - 1], ttl), ops[|ops| - 1], ttl)
  }

  /** The row still covers an acquisition of x made at time at, or that acquisition has passed. */
  predicate Covered(s: State, x: string, at: Instant, ttl: Ttls) {
    (s.row.Some? && s.row.value.owner == x && s.row.value.leaseUntil >= at + ttl(x)) || at + ttl(x) < s.clock
  }

  ghost predicate Safe(s: State, ttl: Ttls) {
    && (forall h :: h in s.held ==> h.at <= s.clock && Covered(s, h.instance, h.at, ttl))
    && (forall x :: x in s.phases && !s.phases[x].Reading? ==> s.phases[x].now <= s.clock)
    && (forall x :: x in s.phases && s.phases[x].Checking? ==> Covered(s, x, s.phases[x].now, ttl))
    && (forall h :: h in s.held && h.instance in s.phases && !s.phases[h.instance].Reading? ==> h.at <= s.phases[h.instance].now)
  }

  lemma NextSafe(s: State, op: Op, ttl: Ttls)
    requires Safe(s, ttl)
    ensures Safe(Next(s, op, ttl), ttl)
  {
  }

  lemma {:induction false} RunSafe(clock: Instant, ops: seq<Op>, ttl: Ttls)
    ensures Safe(Run(clock, ops, ttl), ttl)
  {
    if ops != [] {
      RunSafe(clock, ops[..|ops| - 1], ttl);
      NextSafe(Run(clock, ops[..|ops| - 1], ttl), ops[|ops| - 1], ttl);
      hide Next, Safe;
    }
  }

  /** Mutual exclusion: in every interleaving, two instances never both hold an acquisition whose
      lease has not passed. */
  lemma OneLeader(clock: Instant, ops: seq<Op>, ttl: Ttls, a: Held, b: Held)
    requires var s := Run(clock, ops, ttl);
             a in s.held && b in s.held && s.clock <= a.at + ttl(a.instance) && s.clock <= b.at + ttl(b.instance)
    ensures a.instance == b.instance
  {
    RunSafe(clock, ops, ttl);
  }

  /** An acquisition counts only for a positive lease length, and the row keeps it until it passes. */
  lemma LeaderOwnsRow(clock: Instant, ops: seq<Op>, ttl: Ttls, a: Held)
    requires var s := Run(clock, ops, ttl); a in s.held && s.clock <= a.at + ttl(a.instance)
    ensures var s := Run(clock, ops, ttl); s.row.Some? && s.row.value.owner == a.instance
  {
    RunSafe(clock, ops, ttl);
  }

  lemma OneMore(clock: Instant, ops: seq<Op>, op: Op, ttl: Ttls)
    ensures Run(clock, ops + [op], ttl) == Next(Run(clock, ops, ttl), op, ttl)
  {
    assert (ops + [op])[..|ops|] == ops;
  }

  /** An undisturbed attempt in any reachable state: the instance gets the lock, from its clock reading for its lease
      length, exactly when there was no row, or one whose lease had passed, or its own, and this changes it; otherwise
      the row stays as it was and nobody holds anything new. */
  lemma AttemptMeaning(clock: Instant, ops: seq<Op>, x: string, ttl: Ttls)
    requires ttl(x) > 0 && (x in Run(clock, ops, ttl).phases ==> Run(clock, ops, ttl).phases[x] == Reading)
    ensures var s, t := Run(clock, ops, ttl), Run(clock, ops + [ReadClock(x)] + [RunUpsert(x)] + [Check(x)], ttl);
            var mine := Row(x, s.clock + ttl(x), s.clock);
            && t.clock == s.clock
            && if s.row == None || s.row.value.leaseUntil < s.clock || s.row.value.owner == x
               then t.row == Some(mine) && t.held == if s.row == Some(mine) then s.held else s.held + {Held(x, s.clock)}
               else t.row == s.row && t.held == s.held
  {
    OneMore(clock, ops, ReadClock(x), ttl);
    OneMore(clock, ops + [ReadClock(x)], RunUpsert(x), ttl);
    OneMore(clock, ops + [ReadClock(x)] + [RunUpsert(x)], Check(x), ttl);
    hide Run;
    var s0 := Run(clock, ops, ttl);
    assert Next(s0, ReadClock(x), ttl) == s0.(phases := s0.phases[x := Upserting(s0.clock)]);
  }

  /** Once the holder's lease has passed, the next instance that tries gets the lock. */
  lemma TakenOver(clock: Instant, ops: seq<Op>, to: Instant, x: string, ttl: Ttls)
    requires var s := Run(clock, ops, ttl); s.row.Some? && s.row.value.leaseUntil < to && s.clock <= to
    requires ttl(x) > 0 && (x in Run(clock, ops, ttl).phases ==> Run(clock, ops, ttl).phases[x] == Reading)
    ensures var t := Run(clock, ops + [Tick(to)] + [ReadClock(x)] + [RunUpsert(x)] + [Check(x)], ttl);
            t.clock == to && t.row == Some(Row(x, to + ttl(x), to)) && Held(x, to) in t.held
  {
    OneMore(clock, ops, Tick(to), ttl);
    RunSafe(clock, ops + [Tick(to)], ttl);
    AttemptMeaning(clock, ops + [Tick(to)], x, ttl);
    hide Run, Safe;
  }

  /** An upsert that took the row counts only if, when the row is read again, it is still the instance's and not over
      by its clock reading. */
  lemma CheckMeaning(clock: Instant, ops: seq<Op>, x: string, ttl: Ttls)
    requires var s := Run(clock, ops, ttl); x in s.phases && s.phases[x].Checking?
    ensures var s, t := Run(clock, ops, ttl), Run(clock, ops + [Check(x)], ttl);
            && t.row == s.row && t.phases == s.phases[x := Reading]
            && t.held == if s.row.Some? && s.row.value.owner == x && s.phases[x].now < s.row.value.leaseUntil then s.held + {Held(x, s.phases[x].now)} else s.held
  {
    OneMore(clock, ops, Check(x), ttl);
  }
}
