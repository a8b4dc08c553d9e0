/** The three levels lease validation looks at: this instance's stamps, the shared lease and truth records, and
    the store; first as functions on values, then as the classes that keep them. */
module ValidateTruth {
  import opened Domain
  import opened LeaseStore
  import opened TruthRecord

  const STAMPS_MAX := 8192

  datatype Timed<+T> = Timed(value: T, until: Instant)

  /** The shared Redis: lease records and printed truth records. */
  datatype Server = Server(leases: map<Key, Timed<Lease>>, truths: map<Key, Timed<string>>)

  datatype Entry = Entry(fingerprint: string, lease: Lease, verifiedAt: Instant, version: nat)

  /** One instance: its stamps and its lease invalidation version. */
  datatype Instance = Instance(stamps: map<Key, Entry>, version: nat)

  datatype Caches = Caches(server: Server, instance: Instance)

  /** hash is the digest of a lease id and password, host the host part of a target. */
  datatype Config = Config(cacheTtl: Instant, truthTtl: Instant, hash: string -> string, host: string -> string)

  function Live<T>(m: map<Key, Timed<T>>, key: Key, now: Instant): Option<T> {
    if key in m && m[key].until > now then Some(m[key].value) else None
  }

  predicate VerifyPassword(c: Config, l: Lease, password: string) {
    l.passwordHash != "" && password != "" && c.hash(l.id + ":" + password) == l.passwordHash
  }

  function ValidateFields(c: Config, l: Lease, password: string, target: string, now: Instant): Result<Lease> {
    if !VerifyPassword(c, l, password) then Err(AuthFailed)
    else if l.revoked then Err(LeaseRevoked)
    else if !(now < l.expiresAt) then Err(LeaseExpired)
    else if c.host(l.resource.id) != c.host(target) then Err(PolicyDenied)
    else Ok(l)
  }

  /** Reading the store and checking the fields: what validation means without any cache. */
  function Reference(c: Config, store: Leases, key: Key, password: string, target: string, safe: bool, now: Instant): Result<Lease> {
    if !safe then Err(UnsafeDestination)
    else if key !in store then Err(NotFound)
    else ValidateFields(c, store[key], password, target, now)
  }

  /** The zero lease of the original. */
  const NO_LEASE := Lease("", "", 0, ResourceRef("", "", "", map[]), "", "", "", ZERO_TIME, ZERO_TIME, false)

  // ---------- what each step does to the caches ----------

  function PutLease(s: Server, l: Lease, ttl: Instant, now: Instant): Server {
    if ttl <= 0 then s else s.(leases := s.leases[KeyOf(l) := Timed(l.(password := ""), now + ttl)])
  }

  function CacheLease(s: Server, l: Lease, now: Instant, c: Config): Server {
    var remain := l.expiresAt - now;
    if remain <= 0 then s else PutLease(s, l, if c.cacheTtl <= 0 || remain < c.cacheTtl then remain else c.cacheTtl, now)
  }

  function PutTruth(s: Server, key: Key, raw: string, ttl: Instant, now: Instant): Server {
    if ttl <= 0 then s else s.(truths := s.truths[key := Timed(raw, now + ttl)])
  }

  function StoreShared(s: Server, l: Lease, version: nat, now: Instant, c: Config): Server {
    PutTruth(s, KeyOf(l), Encode(version, Fingerprint(l)), c.truthTtl, now)
  }

  function Swept(stamps: map<Key, Entry>, now: Instant, ttl: Instant): map<Key, Entry> {
    map k | k in stamps && stamps[k].verifiedAt > now - ttl :: stamps[k]
  }

  /** Room for one more stamp: when full, drop the stale ones, and when still full, drop one. */
  function Room(stamps: map<Key, Entry>, now: Instant, ttl: Instant, victim: Key): map<Key, Entry> {
    if |stamps| < STAMPS_MAX then stamps
    else if |Swept(stamps, now, ttl)| < STAMPS_MAX then Swept(stamps, now, ttl)
    else Swept(stamps, now, ttl) - {victim}
  }

  lemma SweptSize(stamps: map<Key, Entry>, now: Instant, ttl: Instant)
    ensures |Swept(stamps, now, ttl)| <= |stamps|
    ensures |Swept(stamps, now, ttl)| == |stamps| ==> Swept(stamps, now, ttl) == stamps
  {
    var swept := Swept(stamps, now, ttl);
    assert swept.Keys <= stamps.Keys;
    assert stamps.Keys == swept.Keys + (stamps.Keys - swept.Keys) && |stamps.Keys| == |stamps| && |swept.Keys| == |swept|;
    if |swept| == |stamps| { assert stamps.Keys - swept.Keys == {}; }
  }

  lemma OneFewer(stamps: map<Key, Entry>, victim: Key)
    requires victim in stamps
    ensures |stamps - {victim}| == |stamps| - 1
  {
    assert (stamps - {victim}).Keys == stamps.Keys - {victim};
    assert |(stamps - {victim}).Keys| == |stamps - {victim}| && |stamps.Keys| == |stamps|;
  }

  /** The stamps never outgrow their limit, and a current stamp is only lost when all of a full map are current. */
  lemma RoomIsMade(stamps: map<Key, Entry>, now: Instant, ttl: Instant, victim: Key)
    requires |stamps| <= STAMPS_MAX && (|Swept(stamps, now, ttl)| >= STAMPS_MAX ==> victim in Swept(stamps, now, ttl))
    ensures |Room(stamps, now, ttl, victim)| < STAMPS_MAX
    ensures forall k :: k in stamps && stamps[k].verifiedAt + ttl > now && k !in Room(stamps, now, ttl, victim)
                        ==> k == victim && Swept(stamps, now, ttl) == stamps
  {
    SweptSize(stamps, now, ttl);
    if |Swept(stamps, now, ttl)| >= STAMPS_MAX { OneFewer(stamps, victim); }
  }

  /** Below the limit of 8192 all stamps stay, at it only current ones do; and a current stamp is lost, for the new one,
      only when every stamp is current. */
  lemma RoomMeaning(stamps: map<Key, Entry>, now: Instant, ttl: Instant, victim: Key)
    ensures |stamps| < 8192 ==> Room(stamps, now, ttl, victim) == stamps
    ensures |stamps| == 8192 ==> forall k :: k in stamps && stamps[k].verifiedAt + ttl <= now ==> k !in Room(stamps, now, ttl, victim)
    ensures |stamps| == 8192 ==> forall k, j :: k in stamps && j in stamps && k !in Room(stamps, now, ttl, victim) && stamps[k].verifiedAt + ttl > now
                                   ==> k == victim && stamps[j].verifiedAt + ttl > now
  {
    SweptSize(stamps, now, ttl);
  }

  function Stamp(i: Instance, l: Lease, version: nat, now: Instant, c: Config, victim: Key): Instance {
    if c.truthTtl <= 0 then i
    else i.(stamps := Room(i.stamps, now, c.truthTtl, victim)[KeyOf(l) := Entry(Fingerprint(l), l, now, version)])
  }

  function Remember(x: Caches, l: Lease, version: nat, now: Instant, c: Config, victim: Key): Caches {
    Caches(StoreShared(x.server, l, version, now, c), Stamp(x.instance, l, version, now, c, victim))
  }

  function ClearTruth(x: Caches, key: Key): Caches {
    Caches(x.server.(truths := x.server.truths - {key}), x.instance.(stamps := x.instance.stamps - {key}))
  }

  /** The version moves on, and both shared records go. */
  function Invalidated(x: Caches, key: Key): Caches {
    Caches(Server(x.server.leases - {key}, x.server.truths - {key}), x.instance.(version := (x.instance.version + 1) % UINT64))
  }

  function AllInvalidated(x: Caches): Caches {
    Caches(Server(map[], map[]), x.instance.(version := (x.instance.version + 1) % UINT64))
  }

  /** The shared truth record, if alive, is of a lease with l's fingerprint. */
  predicate TruthMatches(s: Server, l: Lease, now: Instant) {
    var raw := Live(s.truths, KeyOf(l), now);
    raw.Some? && var d := Decode(raw.value); d.Some? && d.value.1 == Fingerprint(l)
  }

  function FreshStamp(i: Instance, key: Key, now: Instant, c: Config): Option<Lease> {
    if c.truthTtl > 0 && key in i.stamps && i.stamps[key].verifiedAt + c.truthTtl > now then Some(i.stamps[key].lease) else None
  }

  // ---------- the calls ----------

  datatype Answer = Answer(caches: Caches, result: Result<Lease>)

  function ValidateLease(c: Config, store: Leases, x: Caches, key: Key, password: string, target: string, safe: bool,
                         now: Instant, victim: Key): Answer {
    if !safe then Answer(x, Err(UnsafeDestination))
    else
      var local := FreshStamp(x.instance, key, now, c);
      if local.Some? && TruthMatches(x.server, local.value, now) then
        Answer(x, ValidateFields(c, local.value, password, target, now))
      else
        var cached := Live(x.server.leases, key, now);
        if cached.Some? && TruthMatches(x.server, cached.value, now) then
          Answer(x.(instance := Stamp(x.instance, cached.value, x.instance.version, now, c, victim)),
                 ValidateFields(c, cached.value, password, target, now))
        else if key !in store then Answer(ClearTruth(x, key), Err(NotFound))
        else
          var l := store[key];
          Answer(Remember(x.(server := CacheLease(x.server, l, now, c)), l, x.instance.version, now, c, victim),
                 ValidateFields(c, l, password, target, now))
  }

  datatype Written = Written(store: Leases, caches: Caches, result: Result<Lease>)

  /** The store keeps the first lease of an id; whichever lease it answers is cached. The caller sees its
      plaintext password when the stored lease is its own. */
  function CreateLease(c: Config, store: Leases, x: Caches, l: Lease, now: Instant, victim: Key): Written {
    var stored := if KeyOf(l) in store then store[KeyOf(l)] else l.(password := "");
    var saved := if stored.id == l.id && stored.passwordHash == l.passwordHash then stored.(password := l.password) else stored;
    var cached := x.(server := CacheLease(x.server, saved, now, c));
    Written(store[KeyOf(l) := stored], Remember(cached, saved, x.instance.version, now, c, victim), Ok(saved))
  }

  function RenewLease(store: Leases, x: Caches, key: Key, ttlSeconds: int, now: Instant): Written {
    var prepared := Prepared(store, key, now, ttlSeconds);
    if prepared.Err? then Written(store, x, prepared)
    else
      var r := MemoryUpdate(store, prepared.value, now);
      if r.Err? then Written(store, x, r) else Written(Updated(store, r), ClearTruth(Invalidated(x, key), key), r)
  }

  function RevokeLease(store: Leases, x: Caches, key: Key): Written {
    if key !in store then Written(store, x, Err(NotFound))
    else Written(Revoked(store, key), ClearTruth(Invalidated(x, key), key), Ok(Revoked(store, key)[key]))
  }
}
