/** Cached validation agrees with reading the store, in every reachable state of any number of instances. */
module ValidateRefinement {
  import opened Domain
  import opened LeaseStore
  import opened TruthRecord
  import opened ValidateTruth

  type InstanceId = nat

  datatype World = World(now: Instant, store: Leases, server: Server, instances: map<InstanceId, Instance>)

  /** One atomic step: a call of some instance, or something that happens to the caches. */
  datatype Op =
    | Wait(to: Instant)
    | Start(id: InstanceId)
    | Create(id: InstanceId, lease: Lease, victim: Key)
    | Renew(id: InstanceId, key: Key, ttlSeconds: int)
    | Revoke(id: InstanceId, key: Key)
    | Validate(id: InstanceId, key: Key, password: string, target: string, safe: bool, victim: Key)
    | Cleanup(expired: set<Key>)
    | Deliver(id: InstanceId)
    | EvictLease(key: Key)
    | EvictTruth(key: Key)

  /** The resource and proxy each password hash was issued for: every create draws a fresh password. */
  type Origins = map<string, (ResourceRef, string)>

  /** The hash is printed as one field, and belongs to the lease's resource and proxy. */
  predicate Printable(l: Lease, o: Origins) {
    '|' !in l.passwordHash && l.passwordHash in o && o[l.passwordHash] == (l.resource, l.proxyId)
  }

  predicate Possible(op: Op, o: Origins) { op.Create? ==> Printable(op.lease, o) }

  function CachesOf(w: World, id: InstanceId): Caches
    requires id in w.instances
  {
    Caches(w.server, w.instances[id])
  }

  function Took(w: World, id: InstanceId, x: Caches): World { w.(server := x.server, instances := w.instances[id := x.instance]) }

  function Cleaned(store: Leases, expired: set<Key>, now: Instant): Leases {
    map k | k in store && !(k in expired && store[k].expiresAt < now) :: store[k]
  }

  function Next(c: Config, w: World, op: Op): World {
    match op
    case Wait(to) => if to > w.now then w.(now := to) else w
    case Start(id) => w.(instances := w.instances[id := Instance(map[], 0)])
    case Cleanup(expired) => w.(store := Cleaned(w.store, expired, w.now))
    case EvictLease(key) => w.(server := w.server.(leases := w.server.leases - {key}))
    case EvictTruth(key) => w.(server := w.server.(truths := w.server.truths - {key}))
    case Deliver(id) => if id in w.instances then Took(w, id, AllInvalidated(CachesOf(w, id))) else w
    case Create(id, l, victim) =>
      if id in w.instances then
        var r := CreateLease(c, w.store, CachesOf(w, id), l, w.now, victim); Took(w, id, r.caches).(store := r.store)
      else w
    case Renew(id, key, ttl) =>
      if id in w.instances then
        var r := RenewLease(w.store, CachesOf(w, id), key, ttl, w.now); Took(w, id, r.caches).(store := r.store)
      else w
    case Revoke(id, key) =>
      if id in w.instances then
        var r := RevokeLease(w.store, CachesOf(w, id), key); Took(w, id, r.caches).(store := r.store)
      else w
    case Validate(id, key, password, target, safe, victim) =>
      if id in w.instances then
        Took(w, id, ValidateLease(c, w.store, CachesOf(w, id), key, password, target, safe, w.now, victim).caches)
      else w
  }

  function Run(c: Config, now: Instant, ops: seq<Op>): World {
    if ops == [] then World(now, map[], Server(map[], map[]), map[])
    else Next(c, Run(c, now, ops[..|ops| - 1]), ops[|ops| - 1])
  }

  // ---------- the invariant ----------

  predicate Placed(l: Lease, key: Key, o: Origins) { KeyOf(l) == key && Printable(l, o) }

  predicate StoreOk(store: Leases, o: Origins) { forall k :: k in store ==> Placed(store[k], k, o) }

  /** A lease record is filed under its key and never outlives its lease. */
  predicate LeasesOk(leases: map<Key, Timed<Lease>>, o: Origins) {
    forall k :: k in leases ==> Placed(leases[k].value, k, o) && leases[k].until <= leases[k].value.expiresAt
  }

  predicate StampsOk(stamps: map<Key, Entry>, o: Origins) { forall k :: k in stamps ==> Placed(stamps[k].lease, k, o) }

  predicate InstanceOk(i: Instance, o: Origins) { StampsOk(i.stamps, o) && i.version < UINT64 }

  /** Some expired lease of this key has this fingerprint. */
  ghost predicate OfExpired(fingerprint: string, key: Key, now: Instant, o: Origins) {
    exists l :: Placed(l, key, o) && Fingerprint(l) == fingerprint && l.expiresAt <= now
  }

  /** A truth record tells the stored lease's fingerprint, or, when the row is gone, that of an expired lease. */
  ghost predicate TruthOk(raw: string, store: Leases, key: Key, now: Instant, o: Origins) {
    var d := Decode(raw);
    d.Some? && if key in store then d.value.1 == Fingerprint(store[key]) else OfExpired(d.value.1, key, now, o)
  }

  ghost predicate TruthsOk(truths: map<Key, Timed<string>>, store: Leases, now: Instant, o: Origins) {
    forall k :: k in truths ==> TruthOk(truths[k].value, store, k, now, o)
  }

  ghost predicate Inv(w: World, o: Origins) {
    && StoreOk(w.store, o) && LeasesOk(w.server.leases, o) && TruthsOk(w.server.truths, w.store, w.now, o)
    && forall id :: id in w.instances ==> InstanceOk(w.instances[id], o)
  }

  // ---------- what a match with the truth record tells ----------

  lemma SameFieldsSameAnswer(c: Config, a: Lease, b: Lease, password: string, target: string, now: Instant)
    requires a.id == b.id && SameTruth(a, b) && a.resource == b.resource
    ensures var r := ValidateFields(c, b, password, target, now);
            ValidateFields(c, a, password, target, now) == if r.Ok? then Ok(a) else r
  {
  }

  /** The lease answered is the stored one in everything a fingerprint tells, and in its resource. */
  predicate SameLease(a: Lease, b: Lease) { KeyOf(a) == KeyOf(b) && SameTruth(a, b) && a.resource == b.resource }

  predicate Agree(cached: Result<Lease>, plain: Result<Lease>) {
    if plain.Ok? then cached.Ok? && SameLease(cached.value, plain.value) else cached.Err?
  }

  /** A lease that matches its truth record is the stored one, or has expired and its row is gone. */
  lemma MatchIsStored(store: Leases, s: Server, l: Lease, key: Key, now: Instant, o: Origins)
    requires StoreOk(store, o) && TruthsOk(s.truths, store, now, o) && Placed(l, key, o) && TruthMatches(s, l, now)
    ensures if key in store then SameLease(l, store[key]) else l.expiresAt <= now
  {
    var fp := Decode(s.truths[key].value).value.1;
    assert TruthOk(s.truths[key].value, store, key, now, o);
    hide Decode, Fingerprint;
    if key in store {
      FingerprintTellsHash(l, store[key]);
    } else {
      var e :| Placed(e, key, o) && Fingerprint(e) == fp && e.expiresAt <= now;
      FingerprintTellsHash(l, e);
    }
  }

  lemma MatchAgrees(c: Config, store: Leases, s: Server, l: Lease, key: Key, password: string, target: string, now: Instant, o: Origins)
    requires StoreOk(store, o) && TruthsOk(s.truths, store, now, o) && Placed(l, key, o) && TruthMatches(s, l, now)
    ensures var r, plain := ValidateFields(c, l, password, target, now), Reference(c, store, key, password, target, true, now);
            Agree(r, plain) && (key in store && r.Err? ==> r == plain)
  {
    MatchIsStored(store, s, l, key, now, o);
    if key in store { SameFieldsSameAnswer(c, l, store[key], password, target, now); }
    assert key !in store ==> ValidateFields(c, l, password, target, now).Err? by { hide TruthsOk, TruthMatches, StoreOk, Placed, VerifyPassword; }
    hide TruthsOk, TruthMatches, StoreOk, ValidateFields;
  }

  /** In a good state a validation, wherever it finds its answer, accepts exactly when the plain check would. */
  lemma ValidateAgrees(c: Config, store: Leases, x: Caches, key: Key, password: string, target: string, safe: bool, now: Instant, victim: Key, o: Origins)
    requires StoreOk(store, o) && LeasesOk(x.server.leases, o) && TruthsOk(x.server.truths, store, now, o) && InstanceOk(x.instance, o)
    ensures var r := ValidateLease(c, store, x, key, password, target, safe, now, victim).result;
            var plain := Reference(c, store, key, password, target, safe, now);
            Agree(r, plain) && (key in store && r.Err? ==> r == plain)
  {
    hide TruthMatches, Remember, Stamp, ClearTruth, Fingerprint, ValidateFields, TruthsOk;
    if safe {
      var local := FreshStamp(x.instance, key, now, c);
      var cached := Live(x.server.leases, key, now);
      if local.Some? && TruthMatches(x.server, local.value, now) {
        MatchAgrees(c, store, x.server, local.value, key, password, target, now, o);
      } else if cached.Some? && TruthMatches(x.server, cached.value, now) {
        MatchAgrees(c, store, x.server, cached.value, key, password, target, now, o);
      } else if key in store {
        PlainAgrees(c, store[key], password, target, now);
      }
    }
  }

  lemma PlainAgrees(c: Config, l: Lease, password: string, target: string, now: Instant)
    ensures var r := ValidateFields(c, l, password, target, now); Agree(r, r)
  {
  }

  // ---------- every step keeps it ----------

  lemma OwnTruth(l: Lease, version: nat, key: Key, store: Leases, now: Instant, o: Origins)
    requires version < UINT64 && key in store && Fingerprint(l) == Fingerprint(store[key])
    ensures TruthOk(Encode(version, Fingerprint(l)), store, key, now, o)
  {
    LeaseRecordRoundTrip(version, l);
  }

  lemma CacheLeaseOk(s: Server, l: Lease, now: Instant, c: Config, o: Origins)
    requires LeasesOk(s.leases, o) && Placed(l, KeyOf(l), o)
    ensures LeasesOk(CacheLease(s, l, now, c).leases, o) && CacheLease(s, l, now, c).truths == s.truths
  {
  }

  lemma RoomWithin(stamps: map<Key, Entry>, now: Instant, ttl: Instant, victim: Key)
    ensures forall k :: k in Room(stamps, now, ttl, victim) ==> k in stamps && Room(stamps, now, ttl, victim)[k] == stamps[k]
  {
  }

  lemma StampOk(i: Instance, l: Lease, version: nat, now: Instant, c: Config, victim: Key, o: Origins)
    requires InstanceOk(i, o) && Placed(l, KeyOf(l), o)
    ensures InstanceOk(Stamp(i, l, version, now, c, victim), o)
  {
    RoomWithin(i.stamps, now, c.truthTtl, victim);
    hide Room, Placed;
  }

  lemma StoreSharedOk(s: Server, l: Lease, version: nat, store: Leases, now: Instant, c: Config, o: Origins)
    requires TruthsOk(s.truths, store, now, o) && version < UINT64
    requires KeyOf(l) in store && Fingerprint(l) == Fingerprint(store[KeyOf(l)])
    ensures TruthsOk(StoreShared(s, l, version, now, c).truths, store, now, o) && StoreShared(s, l, version, now, c).leases == s.leases
  {
    OwnTruth(l, version, KeyOf(l), store, now, o);
    hide TruthOk, Encode, Fingerprint;
  }

  lemma {:induction false} LaterTruthsOk(truths: map<Key, Timed<string>>, store: Leases, now: Instant, to: Instant, o: Origins)
    requires TruthsOk(truths, store, now, o) && now <= to
    ensures TruthsOk(truths, store, to, o)
  {
    hide Decode, Fingerprint, Placed;
    forall k | k in truths ensures TruthOk(truths[k].value, store, k, to, o) {
      assert TruthOk(truths[k].value, store, k, now, o);
      var fp := Decode(truths[k].value).value.1;
      if k !in store {
        var e :| Placed(e, k, o) && Fingerprint(e) == fp && e.expiresAt <= now;
        assert OfExpired(fp, k, to, o);
      }
    }
  }

  lemma CleanedTruthsOk(truths: map<Key, Timed<string>>, store: Leases, expired: set<Key>, now: Instant, o: Origins)
    requires StoreOk(store, o) && TruthsOk(truths, store, now, o)
    ensures TruthsOk(truths, Cleaned(store, expired, now), now, o)
  {
    hide Decode, Fingerprint, Placed;
    forall k | k in truths ensures TruthOk(truths[k].value, Cleaned(store, expired, now), k, now, o) {
      assert TruthOk(truths[k].value, store, k, now, o);
      if k in store && k !in Cleaned(store, expired, now) {
        assert Placed(store[k], k, o) && Fingerprint(store[k]) == Decode(truths[k].value).value.1;
        assert OfExpired(Decode(truths[k].value).value.1, k, now, o);
      }
    }
  }

  /** Changing one row leaves the truth records of the others right. */
  lemma OtherTruthsOk(truths: map<Key, Timed<string>>, store: Leases, after: Leases, key: Key, now: Instant, o: Origins)
    requires after.Keys == store.Keys + {key} && forall k :: k in store && k != key ==> after[k] == store[k]
    requires TruthsOk(truths, store, now, o)
    ensures TruthsOk(truths - {key}, after, now, o)
  {
    hide Decode, Fingerprint, OfExpired;
    forall k | k in truths - {key} ensures TruthOk(truths[k].value, after, k, now, o) {
      assert TruthOk(truths[k].value, store, k, now, o);
    }
  }

  lemma WithinTruthsOk(truths: map<Key, Timed<string>>, fewer: map<Key, Timed<string>>, store: Leases, now: Instant, o: Origins)
    requires TruthsOk(truths, store, now, o) && forall k :: k in fewer ==> k in truths && fewer[k] == truths[k]
    ensures TruthsOk(fewer, store, now, o)
  {
    hide TruthOk;
  }

  /** The caches a call of one instance sees, all in order. */
  ghost predicate CachesOk(x: Caches, store: Leases, now: Instant, o: Origins) {
    LeasesOk(x.server.leases, o) && TruthsOk(x.server.truths, store, now, o) && InstanceOk(x.instance, o)
  }

  lemma RememberOk(x: Caches, l: Lease, store: Leases, now: Instant, c: Config, victim: Key, o: Origins)
    requires CachesOk(x, store, now, o) && Placed(l, KeyOf(l), o) && KeyOf(l) in store && Fingerprint(l) == Fingerprint(store[KeyOf(l)])
    ensures CachesOk(Remember(x, l, x.instance.version, now, c, victim), store, now, o)
  {
    hide TruthsOk, LeasesOk, StampsOk, Placed, Fingerprint, Stamp, StoreShared;
    StampOk(x.instance, l, x.instance.version, now, c, victim, o);
    StoreSharedOk(x.server, l, x.instance.version, store, now, c, o);
  }

  lemma CacheThenRememberOk(x: Caches, l: Lease, store: Leases, now: Instant, c: Config, victim: Key, o: Origins)
    requires CachesOk(x, store, now, o) && Placed(l, KeyOf(l), o) && KeyOf(l) in store && Fingerprint(l) == Fingerprint(store[KeyOf(l)])
    ensures CachesOk(Remember(x.(server := CacheLease(x.server, l, now, c)), l, x.instance.version, now, c, victim), store, now, o)
  {
    hide TruthsOk, LeasesOk, StampsOk, Placed, Fingerprint, Remember, CacheLease;
    CacheLeaseOk(x.server, l, now, c, o);
    RememberOk(x.(server := CacheLease(x.server, l, now, c)), l, store, now, c, victim, o);
  }

  lemma ClearedOk(x: Caches, key: Key, store: Leases, now: Instant, o: Origins)
    requires CachesOk(x, store, now, o)
    ensures CachesOk(ClearTruth(x, key), store, now, o)
  {
    hide TruthOk, Placed;
    WithinTruthsOk(x.server.truths, x.server.truths - {key}, store, now, o);
  }

  lemma ValidateOk(c: Config, store: Leases, x: Caches, key: Key, password: string, target: string, safe: bool, now: Instant, victim: Key, o: Origins)
    requires StoreOk(store, o) && CachesOk(x, store, now, o)
    ensures CachesOk(ValidateLease(c, store, x, key, password, target, safe, now, victim).caches, store, now, o)
  {
    hide TruthsOk, StampsOk, TruthMatches, Fingerprint, Remember, CacheLease, ClearTruth, ValidateFields, Stamp, FreshStamp;
    ClearedOk(x, key, store, now, o);
    if key in store { CacheThenRememberOk(x, store[key], store, now, c, victim, o); }
    if key in x.server.leases { StampOk(x.instance, x.server.leases[key].value, x.instance.version, now, c, victim, o); }
  }

  lemma PasswordNotPrinted(l: Lease, password: string, o: Origins)
    ensures Fingerprint(l.(password := password)) == Fingerprint(l) && (Printable(l, o) <==> Printable(l.(password := password), o))
  {
  }

  function Forgotten(x: Caches, key: Key): Caches { x.(server := x.server.(truths := x.server.truths - {key})) }

  lemma RememberOverwrites(x: Caches, l: Lease, version: nat, now: Instant, c: Config, victim: Key)
    requires c.truthTtl > 0
    ensures Remember(x.(server := CacheLease(x.server, l, now, c)), l, version, now, c, victim)
            == Remember(Forgotten(x, KeyOf(l)).(server := CacheLease(Forgotten(x, KeyOf(l)).server, l, now, c)), l, version, now, c, victim)
  {
    hide Fingerprint, Encode, Stamp;
    var t, key := Timed(Encode(version, Fingerprint(l)), now + c.truthTtl), KeyOf(l);
    assert x.server.truths[key := t] == (x.server.truths - {key})[key := t];

  }

  lemma ForgottenOk(x: Caches, store: Leases, after: Leases, key: Key, now: Instant, o: Origins)
    requires CachesOk(x, store, now, o) && after.Keys == store.Keys + {key} && forall k :: k in store && k != key ==> after[k] == store[k]
    ensures CachesOk(Forgotten(x, key), after, now, o)
  {
    hide TruthsOk, LeasesOk, StampsOk;
    OtherTruthsOk(x.server.truths, store, after, key, now, o);
  }

  lemma CreatedRow(c: Config, store: Leases, x: Caches, l: Lease, now: Instant, victim: Key, o: Origins)
    requires StoreOk(store, o) && Printable(l, o)
    ensures var r, key := CreateLease(c, store, x, l, now, victim), KeyOf(l);
            && StoreOk(r.store, o) && r.store.Keys == store.Keys + {key} && (forall k :: k in store && k != key ==> r.store[k] == store[k])
            && r.result.Ok? && Placed(r.result.value, key, o) && Fingerprint(r.result.value) == Fingerprint(r.store[key])
  {
    var r, key := CreateLease(c, store, x, l, now, victim), KeyOf(l);
    PasswordNotPrinted(l, "", o);
    PasswordNotPrinted(r.store[key], l.password, o);
    hide Fingerprint, Printable, Remember, CacheLease;
  }

  /** A row that is created where there was none, or kept: the truth record is written anew either way. */
  lemma CreateOk(c: Config, store: Leases, x: Caches, l: Lease, now: Instant, victim: Key, o: Origins)
    requires c.truthTtl > 0 && StoreOk(store, o) && CachesOk(x, store, now, o) && Printable(l, o)
    ensures var r := CreateLease(c, store, x, l, now, victim); StoreOk(r.store, o) && CachesOk(r.caches, r.store, now, o)
  {
    CreatedRow(c, store, x, l, now, victim, o);
    var key, r := KeyOf(l), CreateLease(c, store, x, l, now, victim);
    var saved := r.result.value;
    assert r.caches == Remember(x.(server := CacheLease(x.server, saved, now, c)), saved, x.instance.version, now, c, victim);
    hide CachesOk, StoreOk, Fingerprint, Printable, Remember, CacheLease, CreateLease;
    RememberOverwrites(x, saved, x.instance.version, now, c, victim);
    ForgottenOk(x, store, r.store, key, now, o);
    CacheThenRememberOk(Forgotten(x, key), saved, r.store, now, c, victim, o);
  }

  lemma InvalidatedOk(x: Caches, store: Leases, after: Leases, key: Key, now: Instant, o: Origins)
    requires CachesOk(x, store, now, o) && after.Keys == store.Keys + {key} && forall k :: k in store && k != key ==> after[k] == store[k]
    ensures CachesOk(ClearTruth(Invalidated(x, key), key), after, now, o)
  {
    ForgottenOk(x, store, after, key, now, o);
    hide TruthsOk, Placed;
    assert x.server.truths - {key} - {key} == x.server.truths - {key};
  }

  lemma RenewOk(store: Leases, x: Caches, key: Key, ttlSeconds: int, now: Instant, o: Origins)
    requires StoreOk(store, o) && CachesOk(x, store, now, o)
    ensures var r := RenewLease(store, x, key, ttlSeconds, now); StoreOk(r.store, o) && CachesOk(r.caches, r.store, now, o)
  {
    var r := RenewLease(store, x, key, ttlSeconds, now);
    hide CachesOk, Invalidated, ClearTruth;
    if r.result.Ok? {
      assert r.store.Keys == store.Keys + {key} && forall k :: k in store && k != key ==> r.store[k] == store[k];
      InvalidatedOk(x, store, r.store, key, now, o);
    }
  }

  lemma RevokeOk(store: Leases, x: Caches, key: Key, o: Origins)
    requires StoreOk(store, o)
    ensures StoreOk(RevokeLease(store, x, key).store, o)
    ensures forall now :: CachesOk(x, store, now, o) ==> CachesOk(RevokeLease(store, x, key).caches, RevokeLease(store, x, key).store, now, o)
  {
    var r := RevokeLease(store, x, key);
    hide CachesOk, Invalidated, ClearTruth;
    if r.result.Ok? {
      assert r.store.Keys == store.Keys + {key} && forall k :: k in store && k != key ==> r.store[k] == store[k];
      forall now | CachesOk(x, store, now, o) ensures CachesOk(r.caches, r.store, now, o) { InvalidatedOk(x, store, r.store, key, now, o); }
    }
  }

  lemma TookOk(w: World, id: InstanceId, x: Caches, store: Leases, o: Origins)
    requires Inv(w, o) && id in w.instances && StoreOk(store, o) && CachesOk(x, store, w.now, o)
    ensures Inv(Took(w, id, x).(store := store), o)
  {
    hide StoreOk, TruthsOk, LeasesOk, StampsOk;
  }

  lemma CallOk(c: Config, w: World, op: Op, o: Origins)
    requires c.truthTtl > 0 && Inv(w, o) && Possible(op, o)
    requires op.Create? || op.Renew? || op.Revoke? || op.Validate? || op.Deliver?
    ensures Inv(Next(c, w, op), o)
  {
    hide CreateLease, RenewLease, RevokeLease, ValidateLease, StoreOk, TruthsOk, LeasesOk, StampsOk, Inv;
    if op.id in w.instances {
      var x := CachesOf(w, op.id);
      SeesOk(w, op.id, o);
      match op
      case Create(id, l, victim) =>
        CreateOk(c, w.store, x, l, w.now, victim, o);
        var r := CreateLease(c, w.store, x, l, w.now, victim);
        TookOk(w, id, r.caches, r.store, o);
      case Renew(id, key, ttl) =>
        RenewOk(w.store, x, key, ttl, w.now, o);
        var r := RenewLease(w.store, x, key, ttl, w.now);
        TookOk(w, id, r.caches, r.store, o);
      case Revoke(id, key) =>
        RevokeOk(w.store, x, key, o);
        var r := RevokeLease(w.store, x, key);
        TookOk(w, id, r.caches, r.store, o);
      case Validate(id, key, password, target, safe, victim) =>
        ValidateOk(c, w.store, x, key, password, target, safe, w.now, victim, o);
        TookOk(w, id, ValidateLease(c, w.store, x, key, password, target, safe, w.now, victim).caches, w.store, o);
      case Deliver(id) =>
        AllInvalidatedOk(x, w.store, w.now, o);
        TookOk(w, id, AllInvalidated(x), w.store, o);
    }
  }

  lemma SeesOk(w: World, id: InstanceId, o: Origins)
    requires Inv(w, o) && id in w.instances
    ensures StoreOk(w.store, o) && CachesOk(CachesOf(w, id), w.store, w.now, o)
  {
  }

  lemma AllInvalidatedOk(x: Caches, store: Leases, now: Instant, o: Origins)
    requires CachesOk(x, store, now, o)
    ensures CachesOk(AllInvalidated(x), store, now, o)
  {
    hide TruthOk, Placed;
  }

  lemma EventOk(c: Config, w: World, op: Op, o: Origins)
    requires Inv(w, o) && (op.Wait? || op.Start? || op.Cleanup? || op.EvictLease? || op.EvictTruth?)
    ensures Inv(Next(c, w, op), o)
  {
    hide TruthOk, Placed;
    match op
    case Wait(to) => if to > w.now { LaterTruthsOk(w.server.truths, w.store, w.now, to, o); }
    case Start(id) =>
    case Cleanup(expired) => CleanedTruthsOk(w.server.truths, w.store, expired, w.now, o);
    case EvictLease(key) =>
    case EvictTruth(key) => WithinTruthsOk(w.server.truths, w.server.truths - {key}, w.store, w.now, o);
  }

  lemma {:induction false} RunOk(c: Config, now: Instant, ops: seq<Op>, o: Origins)
    requires c.truthTtl > 0 && forall op :: op in ops ==> Possible(op, o)
    ensures Inv(Run(c, now, ops), o)
  {
    if ops != [] {
      RunOk(c, now, ops[..|ops| - 1], o);
      var w, op := Run(c, now, ops[..|ops| - 1]), ops[|ops| - 1];
      hide Inv, Next, Possible;
      if op.Wait? || op.Start? || op.Cleanup? || op.EvictLease? || op.EvictTruth? { EventOk(c, w, op, o); } else { CallOk(c, w, op, o); }
    }
  }

  /** No two creates of different resources or proxies use the same password hash, and a hash contains no bar. */
  predicate FreshHashes(ops: seq<Op>) {
    && (forall a :: a in ops && a.Create? ==> '|' !in a.lease.passwordHash)
    && forall a, b :: a in ops && b in ops && a.Create? && b.Create? && a.lease.passwordHash == b.lease.passwordHash
         ==> a.lease.resource == b.lease.resource && a.lease.proxyId == b.lease.proxyId
  }

  function OriginsOf(ops: seq<Op>): Origins {
    if ops == [] then map[]
    else
      var o, op := OriginsOf(ops[..|ops| - 1]), ops[|ops| - 1];
      if op.Create? then o[op.lease.passwordHash := (op.lease.resource, op.lease.proxyId)] else o
  }

  lemma {:induction false} OriginsTell(ops: seq<Op>)
    ensures forall h :: h in OriginsOf(ops) ==> exists a :: a in ops && a.Create? && a.lease.passwordHash == h
                                                           && OriginsOf(ops)[h] == (a.lease.resource, a.lease.proxyId)
    ensures forall a :: a in ops && a.Create? ==> a.lease.passwordHash in OriginsOf(ops)
  {
    if ops != [] {
      OriginsTell(ops[..|ops| - 1]);
      assert ops == ops[..|ops| - 1] + [ops[|ops| - 1]];
    }
  }

  lemma FreshIsPossible(ops: seq<Op>)
    requires FreshHashes(ops)
    ensures forall op :: op in ops ==> Possible(op, OriginsOf(ops))
  {
    OriginsTell(ops);
  }

  /** In every reachable state of any number of instances, whatever was created, renewed, revoked, cleaned up,
      evicted or restarted, a cached validation accepts exactly when reading the store would, and then it answers
      the stored lease; while the row exists it also refuses for the same reason. */
  lemma CachedValidationRefines(c: Config, start: Instant, ops: seq<Op>, id: InstanceId, key: Key, password: string, target: string,
                                safe: bool, victim: Key)
    requires c.truthTtl > 0 && FreshHashes(ops) && id in Run(c, start, ops).instances
    ensures var w := Run(c, start, ops);
            var r := ValidateLease(c, w.store, CachesOf(w, id), key, password, target, safe, w.now, victim).result;
            var plain := Reference(c, w.store, key, password, target, safe, w.now);
            Agree(r, plain) && (key in w.store && r.Err? ==> r == plain)
  {
    var o := OriginsOf(ops);
    FreshIsPossible(ops);
    RunOk(c, start, ops, o);
    var w := Run(c, start, ops);
    SeesOk(w, id, o);
    hide Run, ValidateLease, Reference, Agree, Inv, OriginsOf, FreshHashes;
    ValidateAgrees(c, w.store, CachesOf(w, id), key, password, target, safe, w.now, victim, o);
  }

  /** In every reachable state a lease record that is still alive is of a lease that has not expired. */
  lemma LiveRecordsAreUnexpired(c: Config, start: Instant, ops: seq<Op>, key: Key)
    requires c.truthTtl > 0 && FreshHashes(ops)
    ensures var w := Run(c, start, ops); var cached := Live(w.server.leases, key, w.now);
            cached.Some? ==> KeyOf(cached.value) == key && w.now < cached.value.expiresAt
  {
    var o := OriginsOf(ops);
    FreshIsPossible(ops);
    RunOk(c, start, ops, o);
    hide Run, TruthsOk, StampsOk, OriginsOf, FreshHashes;
  }
}
