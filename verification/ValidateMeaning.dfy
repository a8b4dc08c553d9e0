/** What validating, creating, renewing and revoking leases mean to a caller, on the fields of the stored row. */
module ValidateMeaning {
  import opened Domain
  import LeaseStore
  import opened TruthRecord
  import opened ValidateTruth
  import opened Refinement = ValidateRefinement

  type Key = LeaseStore.Key

  type Ops = seq<Refinement.Op>

  /** The password is the lease's, and the lease is neither revoked nor expired and made for this target's host. */
  predicate Admits(c: Config, l: Lease, password: string, target: string, now: Instant) {
    && l.passwordHash != "" && password != "" && c.hash(l.id + ":" + password) == l.passwordHash
    && !l.revoked && now < l.expiresAt && c.host(l.resource.id) == c.host(target)
  }

  /** Why it is not admitted, in the order of the checks. */
  function Reason(c: Config, l: Lease, password: string, target: string, now: Instant): Error {
    if l.passwordHash == "" || password == "" || c.hash(l.id + ":" + password) != l.passwordHash then AuthFailed
    else if l.revoked then LeaseRevoked
    else if now >= l.expiresAt then LeaseExpired
    else PolicyDenied
  }

  function Outcome(c: Config, w: World, id: InstanceId, key: Key, password: string, target: string, safe: bool, victim: Key): Result<Lease>
    requires id in w.instances
  {
    ValidateLease(c, w.store, CachesOf(w, id), key, password, target, safe, w.now, victim).result
  }

  lemma ReferenceMeans(c: Config, store: LeaseStore.Leases, key: Key, password: string, target: string, safe: bool, now: Instant)
    ensures var r := Reference(c, store, key, password, target, safe, now);
            && (r.Ok? <==> safe && key in store && Admits(c, store[key], password, target, now))
            && (r.Ok? ==> r.value == store[key])
            && (!safe ==> r == Err(UnsafeDestination))
            && (safe && key !in store ==> r == Err(NotFound))
            && (safe && key in store && r.Err? ==> r.error == Reason(c, store[key], password, target, now))
  {
  }

  /** In every reachable state, wherever the answer comes from: a validation accepts exactly the stored row that admits
      this password and target, and refuses a stored row for the first check that fails. */
  lemma ValidationMeaning(c: Config, start: Instant, ops: Ops, id: InstanceId, key: Key, password: string, target: string, safe: bool, victim: Key)
    requires c.truthTtl > 0 && FreshHashes(ops) && id in Refinement.Run(c, start, ops).instances
    ensures var w := Refinement.Run(c, start, ops); var r := Outcome(c, w, id, key, password, target, safe, victim);
            && (r.Ok? <==> safe && key in w.store && Admits(c, w.store[key], password, target, w.now))
            && (r.Ok? ==> r.value.tenantId == key.tenantId && r.value.id == key.id && Admits(c, r.value, password, target, w.now))
            && (!safe ==> r == Err(UnsafeDestination))
            && (safe && key in w.store && r.Err? ==> r.error == Reason(c, w.store[key], password, target, w.now))
  {
    hide *;
    var w := Refinement.Run(c, start, ops);
    var r := Outcome(c, w, id, key, password, target, safe, victim);
    CachedValidationRefines(c, start, ops, id, key, password, target, safe, victim);
    OutcomeIs(c, w, id, key, password, target, safe, victim);
    AgreeingMeans(c, w.store, r, key, password, target, safe, w.now);
    if !safe { UnsafeMeans(c, w, id, key, password, target, victim); }
    RowsAreFiled(c, start, ops);
    if r.Ok? { KeyFields(r.value, key); }
  }

  lemma KeyFields(l: Lease, key: Key)
    requires LeaseStore.KeyOf(l) == key
    ensures l.tenantId == key.tenantId && l.id == key.id
  {
  }

  lemma OutcomeIs(c: Config, w: World, id: InstanceId, key: Key, password: string, target: string, safe: bool, victim: Key)
    requires id in w.instances
    ensures Outcome(c, w, id, key, password, target, safe, victim)
            == ValidateLease(c, w.store, CachesOf(w, id), key, password, target, safe, w.now, victim).result
  {
  }

  lemma AgreeingMeans(c: Config, store: LeaseStore.Leases, r: Result<Lease>, key: Key, password: string, target: string, safe: bool, now: Instant)
    requires var plain := Reference(c, store, key, password, target, safe, now); Agree(r, plain) && (key in store && r.Err? ==> r == plain)
    ensures (r.Ok? <==> safe && key in store && Admits(c, store[key], password, target, now))
    ensures r.Ok? ==> SameLease(r.value, store[key]) && LeaseStore.KeyOf(store[key]) == LeaseStore.KeyOf(r.value)
                      && Admits(c, r.value, password, target, now)
    ensures safe && key in store && r.Err? ==> r.error == Reason(c, store[key], password, target, now)
  {
    ReferenceMeans(c, store, key, password, target, safe, now);
    hide Reference, Admits, Reason;
    if r.Ok? { SameIsAdmitted(c, r.value, store[key], password, target, now); }
  }

  lemma UnsafeMeans(c: Config, w: World, id: InstanceId, key: Key, password: string, target: string, victim: Key)
    requires id in w.instances
    ensures Outcome(c, w, id, key, password, target, false, victim) == Err(UnsafeDestination)
  {
  }

  lemma SameIsAdmitted(c: Config, a: Lease, b: Lease, password: string, target: string, now: Instant)
    requires SameLease(a, b)
    ensures Admits(c, a, password, target, now) == Admits(c, b, password, target, now)
  {
  }

  // ---------- what the writes do to the row ----------

  lemma OneMore(c: Config, start: Instant, ops: Ops, op: Refinement.Op)
    ensures Refinement.Run(c, start, ops + [op]) == Refinement.Next(c, Refinement.Run(c, start, ops), op)
  {
    assert (ops + [op])[..|ops|] == ops;
  }

  lemma RowsAreFiled(c: Config, start: Instant, ops: Ops)
    requires c.truthTtl > 0 && FreshHashes(ops)
    ensures var w := Refinement.Run(c, start, ops); forall k :: k in w.store ==> LeaseStore.KeyOf(w.store[k]) == k
  {
    FreshIsPossible(ops);
    RunOk(c, start, ops, OriginsOf(ops));
    hide Refinement.Run, TruthsOk, LeasesOk, StampsOk, OriginsOf, FreshHashes;
  }

  /** A row that can be renewed now. */
  predicate Renewable(store: LeaseStore.Leases, key: Key, now: Instant) {
    key in store && !store[key].revoked && now < store[key].expiresAt && store[key].generation >= 1
  }

  lemma RenewWrites(store: LeaseStore.Leases, x: Caches, key: Key, ttlSeconds: int, now: Instant)
    requires key in store ==> LeaseStore.KeyOf(store[key]) == key
    ensures var r := RenewLease(store, x, key, ttlSeconds, now);
            && (r.result.Ok? <==> Renewable(store, key, now))
            && (r.result.Ok? ==> r.store == store[key := r.result.value] && LeaseStore.Extends(r.result.value, store[key], now, ttlSeconds))
            && (r.result.Err? ==> r.store == store)
  {
  }

  /** A renewal succeeds exactly for a row that is neither revoked nor expired, and answers and stores that row one
      generation on, with its expiry counted from now; nothing else in the store changes. */
  lemma RenewalMeaning(c: Config, start: Instant, ops: Ops, id: InstanceId, key: Key, ttlSeconds: int)
    requires c.truthTtl > 0 && FreshHashes(ops) && id in Refinement.Run(c, start, ops).instances
    ensures var w, after := Refinement.Run(c, start, ops), Refinement.Run(c, start, ops + [Refinement.Renew(id, key, ttlSeconds)]);
            var r := RenewLease(w.store, CachesOf(w, id), key, ttlSeconds, w.now).result;
            && after.now == w.now && after.instances.Keys == w.instances.Keys
            && (r.Ok? <==> Renewable(w.store, key, w.now))
            && (if r.Ok? then after.store == w.store[key := r.value] && LeaseStore.Extends(r.value, w.store[key], w.now, ttlSeconds)
                else after.store == w.store)
  {
    RowsAreFiled(c, start, ops);
    OneMore(c, start, ops, Refinement.Renew(id, key, ttlSeconds));
    var w := Refinement.Run(c, start, ops);
    RenewWrites(w.store, CachesOf(w, id), key, ttlSeconds, w.now);
    hide Refinement.Run, RenewLease, Renewable, LeaseStore.Extends, FreshHashes;
  }

  lemma Later(c: Config, start: Instant, ops: Ops, to: Instant)
    requires Refinement.Run(c, start, ops).now <= to
    ensures Refinement.Run(c, start, ops + [Refinement.Wait(to)]) == Refinement.Run(c, start, ops).(now := to)
  {
    OneMore(c, start, ops, Refinement.Wait(to));
    hide Refinement.Run;
  }

  lemma ExtendedAdmits(c: Config, r: Lease, l: Lease, now: Instant, ttlSeconds: int, password: string, target: string, to: Instant)
    requires LeaseStore.Extends(r, l, now, ttlSeconds) && Admits(c, l, password, target, now)
    requires to < now + if ttlSeconds > 0 then ttlSeconds * 1_000_000_000 else 1_800_000_000_000
    ensures Admits(c, r, password, target, to)
  {
    assert r.id == l.id && r.passwordHash == l.passwordHash && r.revoked == l.revoked && r.resource == l.resource;
  }

  lemma FreshMore(ops: Ops, op: Refinement.Op)
    requires FreshHashes(ops) && !op.Create?
    ensures FreshHashes(ops + [op])
  {
  }

  /** Whoever was admitted before a renewal is admitted by every instance until the renewed expiry. */
  lemma RenewedIsAccepted(c: Config, start: Instant, ops: Ops, id: InstanceId, key: Key, ttlSeconds: int, to: Instant,
                          other: InstanceId, password: string, target: string, victim: Key)
    requires c.truthTtl > 0 && FreshHashes(ops) && id in Refinement.Run(c, start, ops).instances && other in Refinement.Run(c, start, ops).instances
    requires var w := Refinement.Run(c, start, ops);
             && key in w.store && w.store[key].generation >= 1 && Admits(c, w.store[key], password, target, w.now)
             && w.now <= to < w.now + if ttlSeconds > 0 then ttlSeconds * 1_000_000_000 else 1_800_000_000_000
    ensures var w := Refinement.Run(c, start, ops + [Refinement.Renew(id, key, ttlSeconds)] + [Refinement.Wait(to)]);
            other in w.instances && Outcome(c, w, other, key, password, target, true, victim).Ok?
  {
    var w := Refinement.Run(c, start, ops);
    var o1 := ops + [Refinement.Renew(id, key, ttlSeconds)];
    assert Renewable(w.store, key, w.now);
    RenewalMeaning(c, start, ops, id, key, ttlSeconds);
    ExtendedAdmits(c, Refinement.Run(c, start, o1).store[key], w.store[key], w.now, ttlSeconds, password, target, to);
    FreshMore(ops, Refinement.Renew(id, key, ttlSeconds));
    FreshMore(o1, Refinement.Wait(to));
    hide *;
    Later(c, start, o1, to);
    ValidationMeaning(c, start, o1 + [Refinement.Wait(to)], other, key, password, target, true, victim);
  }

  lemma CreateWrites(c: Config, w: World, id: InstanceId, l: Lease, victim: Key)
    requires id in w.instances
    ensures var key, after := LeaseStore.KeyOf(l), Refinement.Next(c, w, Refinement.Create(id, l, victim));
            && after.now == w.now && after.instances.Keys == w.instances.Keys
            && after.store == if key in w.store then w.store else w.store[key := l.(password := "")]
  {
    hide Remember, CacheLease;
  }

  /** A lease created under a new id admits its password, at every instance, until it expires; a create under a known
      id leaves the row alone. */
  lemma CreatedIsAccepted(c: Config, start: Instant, ops: Ops, id: InstanceId, l: Lease, at: Key, to: Instant,
                          other: InstanceId, password: string, target: string, victim: Key)
    requires c.truthTtl > 0 && FreshHashes(ops + [Refinement.Create(id, l, at)] + [Refinement.Wait(to)])
    requires id in Refinement.Run(c, start, ops).instances && other in Refinement.Run(c, start, ops).instances
    requires Refinement.Run(c, start, ops).now <= to
    ensures var w, after := Refinement.Run(c, start, ops), Refinement.Run(c, start, ops + [Refinement.Create(id, l, at)] + [Refinement.Wait(to)]);
            var key := LeaseStore.KeyOf(l);
            && other in after.instances
            && (key !in w.store ==> (Outcome(c, after, other, key, password, target, true, victim).Ok? <==> Admits(c, l, password, target, to)))
            && (key in w.store ==> after.store == w.store)
  {
    var w := Refinement.Run(c, start, ops);
    var o1, key := ops + [Refinement.Create(id, l, at)], LeaseStore.KeyOf(l);
    OneMore(c, start, ops, Refinement.Create(id, l, at));
    CreateWrites(c, w, id, l, at);
    assert Admits(c, l.(password := ""), password, target, to) == Admits(c, l, password, target, to);
    hide *;
    Later(c, start, o1, to);
    ValidationMeaning(c, start, o1 + [Refinement.Wait(to)], other, key, password, target, true, victim);
  }

  lemma RevokeWrites(c: Config, w: World, id: InstanceId, key: Key)
    requires id in w.instances && key in w.store
    ensures var after := Refinement.Next(c, w, Refinement.Revoke(id, key));
            && after.now == w.now && after.instances.Keys == w.instances.Keys
            && after.store == w.store[key := w.store[key].(revoked := true)]
  {
    hide ClearTruth, Invalidated;
  }

  /** From a revoke on, every instance refuses the lease, and tells the holder of its password why. */
  lemma RevokedIsRefused(c: Config, start: Instant, ops: Ops, id: InstanceId, key: Key, to: Instant,
                         other: InstanceId, password: string, target: string, victim: Key)
    requires c.truthTtl > 0 && FreshHashes(ops) && id in Refinement.Run(c, start, ops).instances && other in Refinement.Run(c, start, ops).instances
    requires key in Refinement.Run(c, start, ops).store && Refinement.Run(c, start, ops).now <= to
    ensures var l, w := Refinement.Run(c, start, ops).store[key], Refinement.Run(c, start, ops + [Refinement.Revoke(id, key)] + [Refinement.Wait(to)]);
            && other in w.instances
            && var r := Outcome(c, w, other, key, password, target, true, victim);
               r.Err? && r.error == if l.passwordHash != "" && password != "" && c.hash(l.id + ":" + password) == l.passwordHash
                                    then LeaseRevoked else AuthFailed
  {
    var w := Refinement.Run(c, start, ops);
    var o1, l := ops + [Refinement.Revoke(id, key)], w.store[key].(revoked := true);
    OneMore(c, start, ops, Refinement.Revoke(id, key));
    RevokeWrites(c, w, id, key);
    FreshMore(ops, Refinement.Revoke(id, key));
    FreshMore(o1, Refinement.Wait(to));
    assert !Admits(c, l, password, target, to);
    assert Reason(c, l, password, target, to)
           == if l.passwordHash != "" && password != "" && c.hash(l.id + ":" + password) == l.passwordHash then LeaseRevoked else AuthFailed;
    hide *;
    Later(c, start, o1, to);
    ValidationMeaning(c, start, o1 + [Refinement.Wait(to)], other, key, password, target, true, victim);
  }

  /** A lease record written at now goes at the lease's expiry or one cache TTL later, whichever is first; nothing is
      written for an expired lease, and never its password. */
  lemma RecordMeaning(s: Server, l: Lease, now: Instant, c: Config)
    ensures var t, key := CacheLease(s, l, now, c), LeaseStore.Key(l.tenantId, l.id);
            && t.truths == s.truths
            && (l.expiresAt <= now ==> t == s)
            && (l.expiresAt > now ==> key in t.leases && t.leases == s.leases[key := t.leases[key]] && t.leases[key].value == l.(password := ""))
            && (l.expiresAt > now ==> t.leases[key].until == if c.cacheTtl > 0 && now + c.cacheTtl < l.expiresAt then now + c.cacheTtl else l.expiresAt)
  {
  }

  // ---------- what the calls leave in the caches ----------

  /** The shared truth record of the lease is alive and has its fingerprint. */
  ghost predicate Told(s: Server, l: Lease, now: Instant) {
    var key := LeaseStore.Key(l.tenantId, l.id);
    key in s.truths && now < s.truths[key].until && exists v :: Decode(s.truths[key].value) == Some((v, Fingerprint(l)))
  }

  lemma ToldIsMatch(s: Server, l: Lease, now: Instant)
    ensures Told(s, l, now) <==> TruthMatches(s, l, now)
  {
    hide Decode, Fingerprint;
    if TruthMatches(s, l, now) {
      var d := Decode(s.truths[LeaseStore.KeyOf(l)].value);
      assert d == Some((d.value.0, Fingerprint(l)));
    }
  }

  /** The instance's stamp of the key answers: less than one TTL old, and told by the shared record. */
  ghost predicate StampServes(c: Config, x: Caches, key: Key, now: Instant) {
    key in x.instance.stamps && now < x.instance.stamps[key].verifiedAt + c.truthTtl && Told(x.server, x.instance.stamps[key].lease, now)
  }

  /** The shared lease record answers: alive, and told by the shared truth record. */
  ghost predicate RecordServes(x: Caches, key: Key, now: Instant) {
    key in x.server.leases && now < x.server.leases[key].until && Told(x.server, x.server.leases[key].value, now)
  }

  /** The lease is stamped as verified now, under the version; stamps of other keys at most go. */
  predicate Stamped(before: Instance, after: Instance, l: Lease, now: Instant) {
    var key := LeaseStore.Key(l.tenantId, l.id);
    && after.version == before.version && key in after.stamps
    && after.stamps[key] == Entry(Fingerprint(l), l, now, before.version)
    && forall k :: k in after.stamps && k != key ==> k in before.stamps && after.stamps[k] == before.stamps[k]
  }

  lemma StampMeaning(i: Instance, l: Lease, now: Instant, c: Config, victim: Key)
    requires c.truthTtl > 0
    ensures Stamped(i, Stamp(i, l, i.version, now, c, victim), l, now)
  {
    RoomWithin(i.stamps, now, c.truthTtl, victim);
    hide Room, Fingerprint;
  }

  /** The lease is stamped, and told to everyone for one TTL. */
  predicate Remembered(c: Config, before: Caches, after: Caches, l: Lease, now: Instant) {
    && Stamped(before.instance, after.instance, l, now)
    && after.server.truths
       == before.server.truths[LeaseStore.Key(l.tenantId, l.id) := Timed(Encode(before.instance.version, Fingerprint(l)), now + c.truthTtl)]
    && after.server.leases == CacheLease(before.server, l, now, c).leases
  }

  lemma RememberMeaning(x: Caches, l: Lease, now: Instant, c: Config, victim: Key)
    requires c.truthTtl > 0
    ensures Remembered(c, x, Remember(x.(server := CacheLease(x.server, l, now, c)), l, x.instance.version, now, c, victim), l, now)
  {
    StampMeaning(x.instance, l, now, c, victim);
    RecordMeaning(x.server, l, now, c);
    hide Stamp, Stamped, Fingerprint, Encode, CacheLease;
  }

  /** A validation that a stamp answers leaves everything; one the shared record answers renews the stamp; one the store
      answers remembers its row, and without a row forgets what was told and stamped of it. */
  lemma ValidateEffects(c: Config, store: LeaseStore.Leases, x: Caches, key: Key, password: string, target: string, now: Instant, victim: Key)
    requires c.truthTtl > 0
    ensures ValidateLease(c, store, x, key, password, target, false, now, victim).caches == x
    ensures var after := ValidateLease(c, store, x, key, password, target, true, now, victim).caches;
            if StampServes(c, x, key, now) then after == x
            else if RecordServes(x, key, now)
            then after.server == x.server && Stamped(x.instance, after.instance, x.server.leases[key].value, now)
            else if key in store then Remembered(c, x, after, store[key], now)
            else after == Caches(x.server.(truths := x.server.truths - {key}), x.instance.(stamps := x.instance.stamps - {key}))
  {
    ServesMeans(c, x, key, now);
    if key in x.server.leases { StampMeaning(x.instance, x.server.leases[key].value, now, c, victim); }
    if key in store { RememberMeaning(x, store[key], now, c, victim); }
    hide FreshStamp, Live, StampServes, RecordServes, TruthMatches, Stamped, Stamp, Remembered, Remember, CacheLease, ValidateFields;
  }

  lemma ServesMeans(c: Config, x: Caches, key: Key, now: Instant)
    requires c.truthTtl > 0
    ensures var local := FreshStamp(x.instance, key, now, c);
            StampServes(c, x, key, now) <==> local.Some? && TruthMatches(x.server, local.value, now)
    ensures var cached := Live(x.server.leases, key, now);
            && (RecordServes(x, key, now) <==> cached.Some? && TruthMatches(x.server, cached.value, now))
            && (cached.Some? ==> key in x.server.leases && cached.value == x.server.leases[key].value)
  {
    if key in x.instance.stamps { ToldIsMatch(x.server, x.instance.stamps[key].lease, now); }
    if key in x.server.leases { ToldIsMatch(x.server, x.server.leases[key].value, now); }
    hide Told, TruthMatches;
  }

  /** Without a truth TTL nothing is stamped or told, and no stamp answers. */
  lemma WithoutTtl(c: Config, x: Caches, l: Lease, version: nat, key: Key, now: Instant, victim: Key)
    requires c.truthTtl <= 0
    ensures Remember(x, l, version, now, c, victim) == x && FreshStamp(x.instance, key, now, c) == None
  {
  }

  /** A create remembers the row, its own or the one there was, and answers it, with the password exactly if the row's
      hash is of the lease created. */
  lemma CreateEffects(c: Config, store: LeaseStore.Leases, x: Caches, l: Lease, now: Instant, victim: Key)
    requires c.truthTtl > 0
    ensures var key, r := LeaseStore.Key(l.tenantId, l.id), CreateLease(c, store, x, l, now, victim);
            var row := if key in store then store[key] else l.(password := "");
            && r.result.Ok? && r.result.value == (if row.id == l.id && row.passwordHash == l.passwordHash then row.(password := l.password) else row)
            && Remembered(c, x, r.caches, r.result.value, now)
  {
    RememberMeaning(x, CreateLease(c, store, x, l, now, victim).result.value, now, c, victim);
    hide Remember, Remembered, CacheLease;
  }

  /** A renewal that succeeds and a revoke of a row there is forget both records and the stamp of the key and move the
      version on, 64 bits wide; a delivered invalidation forgets all records. Refusals leave the caches alone. */
  lemma InvalidateEffects(store: LeaseStore.Leases, x: Caches, key: Key, ttlSeconds: int, now: Instant)
    ensures var next := (x.instance.version + 1) % 18446744073709551616;
            var gone := Caches(Server(x.server.leases - {key}, x.server.truths - {key}), Instance(x.instance.stamps - {key}, next));
            && RenewLease(store, x, key, ttlSeconds, now).caches == (if RenewLease(store, x, key, ttlSeconds, now).result.Ok? then gone else x)
            && RevokeLease(store, x, key).caches == (if key in store then gone else x)
            && (key !in store ==> RevokeLease(store, x, key).store == store && RevokeLease(store, x, key).result == Err(NotFound))
            && AllInvalidated(x) == Caches(Server(map[], map[]), Instance(x.instance.stamps, next))
  {
    assert x.server.truths - {key} - {key} == x.server.truths - {key};
  }

  /** Why a renewal is refused, in the order of the checks. */
  lemma RenewalRefusal(store: LeaseStore.Leases, x: Caches, key: Key, ttlSeconds: int, now: Instant)
    requires key in store ==> LeaseStore.KeyOf(store[key]) == key && store[key].generation >= 1
    ensures var r := RenewLease(store, x, key, ttlSeconds, now).result;
            r.Err? ==> r.error == if key !in store then NotFound else if store[key].revoked then LeaseRevoked else LeaseExpired
  {
  }
}
