/** What a cached validation answers: the stored row itself, in every field but the password. */
module ValidateAnswer {
  import opened Domain
  import opened LeaseStore
  import opened TruthRecord
  import opened ValidateTruth
  import opened Refinement = ValidateRefinement

  /** The same but for the password and the revoked flag. */
  predicate SameBut(a: Lease, b: Lease) { a.(password := "", revoked := false) == b.(password := "", revoked := false) }

  /** a is b or what b was before some renewals. */
  predicate Precedes(a: Lease, b: Lease) {
    a.passwordHash == b.passwordHash && a.generation <= b.generation && (a.generation == b.generation ==> SameBut(a, b))
  }

  /** A lease kept under the key: of a hash used so far, and, if the row has this hash, an earlier state of the row. */
  predicate Copy(l: Lease, key: Key, store: Leases, used: set<string>) {
    && KeyOf(l) == key && l.passwordHash in used
    && (key in store && store[key].passwordHash == l.passwordHash ==> Precedes(l, store[key]))
  }

  predicate RowsOk(store: Leases, used: set<string>) { forall k :: k in store ==> KeyOf(store[k]) == k && store[k].passwordHash in used }

  predicate RecordsOk(leases: map<Key, Timed<Lease>>, store: Leases, used: set<string>) {
    forall k :: k in leases ==> Copy(leases[k].value, k, store, used)
  }

  predicate EntriesOk(stamps: map<Key, Entry>, store: Leases, used: set<string>) {
    forall k :: k in stamps ==> Copy(stamps[k].lease, k, store, used)
  }

  predicate Kept(x: Caches, store: Leases, used: set<string>) {
    RecordsOk(x.server.leases, store, used) && EntriesOk(x.instance.stamps, store, used)
  }

  predicate AllKept(w: World, used: set<string>) {
    && RowsOk(w.store, used) && RecordsOk(w.server.leases, w.store, used)
    && forall id :: id in w.instances ==> EntriesOk(w.instances[id].stamps, w.store, used)
  }

  // ---------- the store moves on ----------

  /** Rows are renewed or revoked, go, or come with a hash not used before. */
  predicate MovesOn(store: Leases, after: Leases, used: set<string>) {
    forall k :: k in after ==> if k in store then Precedes(store[k], after[k]) else after[k].passwordHash !in used
  }

  lemma CopyMovesOn(l: Lease, key: Key, store: Leases, after: Leases, used: set<string>, more: set<string>)
    requires Copy(l, key, store, used) && MovesOn(store, after, used) && used <= more
    ensures Copy(l, key, after, more)
  {
  }

  lemma KeptMovesOn(w: World, after: Leases, used: set<string>, more: set<string>)
    requires AllKept(w, used) && MovesOn(w.store, after, used) && used <= more && RowsOk(after, more)
    ensures AllKept(w.(store := after), more)
  {
    hide Copy, MovesOn, RowsOk;
    forall k | k in w.server.leases ensures Copy(w.server.leases[k].value, k, after, more) {
      CopyMovesOn(w.server.leases[k].value, k, w.store, after, used, more);
    }
    forall id | id in w.instances ensures EntriesOk(w.instances[id].stamps, after, more) {
      forall k | k in w.instances[id].stamps ensures Copy(w.instances[id].stamps[k].lease, k, after, more) {
        CopyMovesOn(w.instances[id].stamps[k].lease, k, w.store, after, used, more);
      }
    }
  }

  lemma RowIsCopy(store: Leases, key: Key, password: string, used: set<string>)
    requires RowsOk(store, used) && key in store
    ensures Copy(store[key].(password := password), key, store, used)
  {
  }

  lemma SameStore(store: Leases, used: set<string>)
    ensures MovesOn(store, store, used)
  {
  }

  // ---------- what calls keep ----------

  lemma CacheLeaseKept(s: Server, l: Lease, now: Instant, c: Config, store: Leases, used: set<string>)
    requires RecordsOk(s.leases, store, used) && Copy(l, KeyOf(l), store, used)
    ensures RecordsOk(CacheLease(s, l, now, c).leases, store, used)
  {
  }

  lemma StampKept(i: Instance, l: Lease, version: nat, now: Instant, c: Config, victim: Key, store: Leases, used: set<string>)
    requires EntriesOk(i.stamps, store, used) && Copy(l, KeyOf(l), store, used)
    ensures EntriesOk(Stamp(i, l, version, now, c, victim).stamps, store, used)
  {
    RoomWithin(i.stamps, now, c.truthTtl, victim);
    hide Room, Copy;
  }

  lemma RememberKept(x: Caches, l: Lease, version: nat, now: Instant, c: Config, victim: Key, store: Leases, used: set<string>)
    requires Kept(x, store, used) && Copy(l, KeyOf(l), store, used)
    ensures Kept(Remember(x, l, version, now, c, victim), store, used)
    ensures Kept(Remember(x.(server := CacheLease(x.server, l, now, c)), l, version, now, c, victim), store, used)
  {
    hide Copy, Stamp, CacheLease, RecordsOk, EntriesOk;
    CacheLeaseKept(x.server, l, now, c, store, used);
    StampKept(x.instance, l, version, now, c, victim, store, used);
  }

  lemma ClearedKept(x: Caches, key: Key, store: Leases, used: set<string>)
    requires Kept(x, store, used)
    ensures Kept(ClearTruth(x, key), store, used) && Kept(ClearTruth(Invalidated(x, key), key), store, used) && Kept(AllInvalidated(x), store, used)
  {
    hide Copy;
  }

  lemma ValidateKept(c: Config, store: Leases, x: Caches, key: Key, password: string, target: string, safe: bool, now: Instant, victim: Key,
                     used: set<string>)
    requires RowsOk(store, used) && Kept(x, store, used)
    ensures Kept(ValidateLease(c, store, x, key, password, target, safe, now, victim).caches, store, used)
  {
    ClearedKept(x, key, store, used);
    if key in store {
      RowIsCopy(store, key, store[key].password, used);
      RememberKept(x, store[key], x.instance.version, now, c, victim, store, used);
    }
    if key in x.server.leases { StampKept(x.instance, x.server.leases[key].value, x.instance.version, now, c, victim, store, used); }
    hide Copy, EntriesOk, FreshStamp, TruthMatches, Remember, CacheLease, ClearTruth, ValidateFields, Stamp;
  }

  lemma AnswerIsCopy(c: Config, store: Leases, x: Caches, key: Key, password: string, target: string, safe: bool, now: Instant, victim: Key,
                     used: set<string>)
    requires RowsOk(store, used) && Kept(x, store, used)
    ensures var r := ValidateLease(c, store, x, key, password, target, safe, now, victim).result;
            r.Ok? ==> Copy(r.value, key, store, used)
  {
    if key in store { RowIsCopy(store, key, store[key].password, used); }
    hide Copy, TruthMatches, Remember, CacheLease, ClearTruth, VerifyPassword, Stamp;
  }

  lemma TookKept(w: World, id: InstanceId, x: Caches, used: set<string>)
    requires AllKept(w, used) && Kept(x, w.store, used) && id in w.instances
    ensures AllKept(Took(w, id, x), used)
  {
    hide RowsOk, RecordsOk, EntriesOk;
  }

  lemma SeesKept(w: World, id: InstanceId, used: set<string>)
    requires AllKept(w, used) && id in w.instances
    ensures RowsOk(w.store, used) && Kept(CachesOf(w, id), w.store, used)
  {
  }

  function Using(used: set<string>, op: Refinement.Op): set<string> { if op.Create? then used + {op.lease.passwordHash} else used }

  lemma CreateMovesOn(c: Config, store: Leases, x: Caches, l: Lease, now: Instant, victim: Key, used: set<string>)
    requires RowsOk(store, used) && l.passwordHash !in used
    ensures var r, more := CreateLease(c, store, x, l, now, victim), used + {l.passwordHash};
            MovesOn(store, r.store, used) && RowsOk(r.store, more) && r.result.Ok? && Copy(r.result.value, KeyOf(l), r.store, more)
  {
    hide Remember, CacheLease;
  }

  lemma CreateKept(c: Config, w: World, op: Refinement.Op, used: set<string>)
    requires AllKept(w, used) && op.Create? && op.lease.passwordHash !in used && op.id in w.instances
    ensures AllKept(Refinement.Next(c, w, op), Using(used, op))
  {
    var x, l := CachesOf(w, op.id), op.lease;
    var r, more := CreateLease(c, w.store, x, l, w.now, op.victim), Using(used, op);
    SeesKept(w, op.id, used);
    CreateMovesOn(c, w.store, x, l, w.now, op.victim, used);
    var moved := w.(store := r.store);
    KeptMovesOn(w, r.store, used, more);
    SeesKept(moved, op.id, more);
    assert KeyOf(r.result.value) == KeyOf(l);
    hide AllKept, Kept, Copy, MovesOn, RowsOk, Remember, CacheLease;
    RememberKept(x, r.result.value, x.instance.version, w.now, c, op.victim, r.store, more);
    TookKept(moved, op.id, r.caches, more);
  }

  lemma RenewMovesOn(store: Leases, x: Caches, key: Key, ttlSeconds: int, now: Instant, used: set<string>)
    requires RowsOk(store, used)
    ensures var r := RenewLease(store, x, key, ttlSeconds, now);
            MovesOn(store, r.store, used) && RowsOk(r.store, used) && (r.caches == x || r.caches == ClearTruth(Invalidated(x, key), key))
  {
    hide Invalidated, ClearTruth;
  }

  lemma RevokeMovesOn(store: Leases, x: Caches, key: Key, used: set<string>)
    requires RowsOk(store, used)
    ensures var r := RevokeLease(store, x, key);
            MovesOn(store, r.store, used) && RowsOk(r.store, used) && (r.caches == x || r.caches == ClearTruth(Invalidated(x, key), key))
  {
    hide Invalidated, ClearTruth;
  }

  /** A write that moves the store on and clears the caches of its key, or changes nothing. */
  lemma WriteKept(w: World, id: InstanceId, key: Key, after: Leases, x: Caches, used: set<string>)
    requires AllKept(w, used) && id in w.instances && MovesOn(w.store, after, used) && RowsOk(after, used)
    requires x == CachesOf(w, id) || x == ClearTruth(Invalidated(CachesOf(w, id), key), key)
    ensures AllKept(Took(w, id, x).(store := after), used)
  {
    var moved := w.(store := after);
    hide AllKept, Kept, MovesOn, RowsOk, ClearTruth, Invalidated;
    KeptMovesOn(w, after, used, used);
    SeesKept(moved, id, used);
    ClearedKept(CachesOf(moved, id), key, after, used);
    TookKept(moved, id, x, used);
  }

  lemma CallKept(c: Config, w: World, op: Refinement.Op, used: set<string>)
    requires AllKept(w, used) && (op.Renew? || op.Revoke? || op.Validate? || op.Deliver?) && op.id in w.instances
    ensures AllKept(Refinement.Next(c, w, op), used)
  {
    var x := CachesOf(w, op.id);
    SeesKept(w, op.id, used);
    hide AllKept, Kept, RowsOk, MovesOn, RenewLease, RevokeLease, ValidateLease, AllInvalidated;
    match op
    case Renew(id, key, ttl) =>
      RenewMovesOn(w.store, x, key, ttl, w.now, used);
      var r := RenewLease(w.store, x, key, ttl, w.now);
      WriteKept(w, id, key, r.store, r.caches, used);
    case Revoke(id, key) =>
      RevokeMovesOn(w.store, x, key, used);
      var r := RevokeLease(w.store, x, key);
      WriteKept(w, id, key, r.store, r.caches, used);
    case Validate(id, key, password, target, safe, victim) =>
      ValidateKept(c, w.store, x, key, password, target, safe, w.now, victim, used);
      TookKept(w, id, ValidateLease(c, w.store, x, key, password, target, safe, w.now, victim).caches, used);
    case Deliver(id) =>
      ClearedKept(x, LeaseStore.Key("", ""), w.store, used);
      TookKept(w, id, AllInvalidated(x), used);
  }

  lemma EventKept(c: Config, w: World, op: Refinement.Op, used: set<string>)
    requires AllKept(w, used) && (op.Wait? || op.Start? || op.Cleanup? || op.EvictLease? || op.EvictTruth?)
    ensures AllKept(Refinement.Next(c, w, op), used)
  {
    if op.Cleanup? {
      var after := Cleaned(w.store, op.expired, w.now);
      assert MovesOn(w.store, after, used) && RowsOk(after, used);
      KeptMovesOn(w, after, used, used);
    } else {
      hide Copy, RowsOk;
    }
  }

  lemma StepKept(c: Config, w: World, op: Refinement.Op, used: set<string>)
    requires AllKept(w, used) && (op.Create? ==> op.lease.passwordHash !in used)
    ensures AllKept(Refinement.Next(c, w, op), Using(used, op))
  {
    if op.Wait? || op.Start? || op.Cleanup? || op.EvictLease? || op.EvictTruth? {
      EventKept(c, w, op, used);
    } else if op.id in w.instances {
      if op.Create? { CreateKept(c, w, op, used); } else { CallKept(c, w, op, used); }
    } else {
      SameStore(w.store, used);
      KeptMovesOn(w, w.store, used, Using(used, op));
    }
  }

  // ---------- the theorem ----------

  function UsedBy(ops: seq<Refinement.Op>): set<string> { if ops == [] then {} else Using(UsedBy(ops[..|ops| - 1]), ops[|ops| - 1]) }

  /** No two creates use the same password hash, and a hash contains no bar. */
  predicate DistinctHashes(ops: seq<Refinement.Op>) {
    && (forall i :: 0 <= i < |ops| && ops[i].Create? ==> '|' !in ops[i].lease.passwordHash)
    && forall i, j :: 0 <= i < j < |ops| && ops[i].Create? && ops[j].Create? ==> ops[i].lease.passwordHash != ops[j].lease.passwordHash
  }

  lemma {:induction false} UsedWasCreated(ops: seq<Refinement.Op>, h: string)
    requires h in UsedBy(ops)
    ensures exists i :: 0 <= i < |ops| && ops[i].Create? && ops[i].lease.passwordHash == h
  {
    if h in UsedBy(ops[..|ops| - 1]) { UsedWasCreated(ops[..|ops| - 1], h); }
  }

  lemma {:induction false} RunKept(c: Config, start: Instant, ops: seq<Refinement.Op>)
    requires DistinctHashes(ops)
    ensures AllKept(Refinement.Run(c, start, ops), UsedBy(ops))
  {
    if ops != [] {
      var front, op := ops[..|ops| - 1], ops[|ops| - 1];
      RunKept(c, start, front);
      if op.Create? && op.lease.passwordHash in UsedBy(front) { UsedWasCreated(front, op.lease.passwordHash); }
      hide AllKept, Refinement.Next;
      StepKept(c, Refinement.Run(c, start, front), op, UsedBy(front));
    }
  }

  lemma DistinctIsFresh(ops: seq<Refinement.Op>)
    requires DistinctHashes(ops)
    ensures FreshHashes(ops)
  {
  }

  lemma SameAsRow(l: Lease, row: Lease, key: Key, store: Leases, used: set<string>)
    requires Copy(l, key, store, used) && key in store && row == store[key] && SameLease(l, row)
    ensures l.(password := "") == row.(password := "")
  {
  }

  /** When no two creates share a password hash, a validation that accepts answers the stored row in every field but
      the password, also the fields that no fingerprint prints. */
  lemma AnswerIsStoredRow(c: Config, start: Instant, ops: seq<Refinement.Op>, id: InstanceId, key: Key, password: string, target: string,
                          safe: bool, victim: Key)
    requires c.truthTtl > 0 && DistinctHashes(ops) && id in Refinement.Run(c, start, ops).instances
    ensures var w := Refinement.Run(c, start, ops);
            var r := ValidateLease(c, w.store, CachesOf(w, id), key, password, target, safe, w.now, victim).result;
            r.Ok? ==> key in w.store && r.value.(password := "") == w.store[key].(password := "")
  {
    DistinctIsFresh(ops);
    RunKept(c, start, ops);
    CachedValidationRefines(c, start, ops, id, key, password, target, safe, victim);
    var w := Refinement.Run(c, start, ops);
    SeesKept(w, id, UsedBy(ops));
    AnswerIsCopy(c, w.store, CachesOf(w, id), key, password, target, safe, w.now, victim, UsedBy(ops));
    var r := ValidateLease(c, w.store, CachesOf(w, id), key, password, target, safe, w.now, victim).result;
    hide Refinement.Run, ValidateLease, AllKept, Kept, RowsOk, Copy, UsedBy, DistinctHashes, FreshHashes, VerifyPassword, SameLease;
    if r.Ok? { SameAsRow(r.value, w.store[key], key, w.store, UsedBy(ops)); }
  }
}
