/** The shared cache client and the service calls that keep stamps, shared records and the store in step. */
module ValidateService {
  import opened Domain
  import opened LeaseStore
  import opened TruthRecord
  import opened ValidateTruth

  class RedisServer {
    var leases: map<Key, Timed<Lease>>
    var truths: map<Key, Timed<string>>

    ghost function View(): Server reads this { Server(leases, truths) }

    constructor ()
      ensures View() == Server(map[], map[])
    {
      leases, truths := map[], map[];
    }
  }

  class RedisCache {
    const server: RedisServer
    var leaseVer: nat

    constructor (server: RedisServer)
      ensures this.server == server && leaseVer == 0
    {
      this.server, leaseVer := server, 0;
    }

    method GetLease(key: Key, now: Instant) returns (hit: Option<Lease>)
      ensures hit == Live(server.leases, key, now)
    {
      if key in server.leases && server.leases[key].until > now {
        return Some(server.leases[key].value);
      }
      hit := None;
    }

    method PutLease(l: Lease, ttl: Instant, now: Instant)
      modifies server
      ensures server.View() == ValidateTruth.PutLease(old(server.View()), l, ttl, now)
      ensures server.truths == old(server.truths)
      ensures server.leases == if ttl > 0 then old(server.leases)[KeyOf(l) := Timed(l.(password := ""), now + ttl)] else old(server.leases)
    {
      if ttl <= 0 {
        return;
      }
      server.leases := server.leases[KeyOf(l) := Timed(l.(password := ""), now + ttl)];
    }

    method GetValidateTruth(key: Key, now: Instant) returns (hit: Option<string>)
      ensures hit == Live(server.truths, key, now)
    {
      if key in server.truths && server.truths[key].until > now {
        return Some(server.truths[key].value);
      }
      hit := None;
    }

    method PutValidateTruth(key: Key, raw: string, ttl: Instant, now: Instant)
      modifies server
      ensures server.View() == PutTruth(old(server.View()), key, raw, ttl, now)
      ensures server.leases == old(server.leases)
      ensures server.truths == if ttl > 0 then old(server.truths)[key := Timed(raw, now + ttl)] else old(server.truths)
    {
      if ttl <= 0 {
        return;
      }
      server.truths := server.truths[key := Timed(raw, now + ttl)];
    }

    method InvalidateValidateTruth(key: Key)
      modifies server`truths
      ensures server.truths == old(server.truths) - {key}
    {
      server.truths := server.truths - {key};
    }

    method InvalidateLeaseLocal(key: Key)
      modifies this, server
      ensures leaseVer == (old(leaseVer) + 1) % UINT64
      ensures server.View() == Server(old(server.leases) - {key}, old(server.truths) - {key})
    {
      leaseVer := (leaseVer + 1) % UINT64;
      server.leases := server.leases - {key};
      server.truths := server.truths - {key};
    }

    method InvalidateAllLeases()
      modifies this, server
      ensures leaseVer == (old(leaseVer) + 1) % UINT64 && server.View() == Server(map[], map[])
    {
      leaseVer := (leaseVer + 1) % UINT64;
      server.leases, server.truths := map[], map[];
    }
  }

  class Service {
    const store: MemoryStore
    const cache: RedisCache
    const config: Config
    var validateTruth: map<Key, Entry>

    ghost function View(): Caches
      reads this, cache, cache.server
    {
      Caches(cache.server.View(), Instance(validateTruth, cache.leaseVer))
    }

    constructor (store: MemoryStore, cache: RedisCache, config: Config)
      ensures this.store == store && this.cache == cache && this.config == config && validateTruth == map[]
    {
      this.store, this.cache, this.config, validateTruth := store, cache, config, map[];
    }

    method CacheLease(l: Lease, now: Instant)
      modifies cache.server
      ensures cache.server.View() == ValidateTruth.CacheLease(old(cache.server.View()), l, now, config)
    {
      var remain := l.expiresAt - now;
      if remain <= 0 {
        return;
      }
      var ttl := config.cacheTtl;
      if ttl <= 0 || remain < ttl {
        ttl := remain;
      }
      cache.PutLease(l, ttl, now);
    }

    method SharedTruthMatches(l: Lease, now: Instant) returns (ok: bool)
      ensures ok <==> TruthMatches(cache.server.View(), l, now)
    {
      var raw := cache.GetValidateTruth(KeyOf(l), now);
      if raw.None? {
        return false;
      }
      var entry := Decode(raw.value);
      ok := entry.Some? && entry.value.1 == Fingerprint(l);
    }

    /** Stamps a lease; in a full map the stale stamps go first, then any one. */
    method StampValidateTruth(l: Lease, version: nat, now: Instant) returns (ghost victim: Key)
      modifies this`validateTruth
      ensures Instance(validateTruth, cache.leaseVer) == Stamp(Instance(old(validateTruth), cache.leaseVer), l, version, now, config, victim)
      ensures config.truthTtl > 0 && |old(validateTruth)| >= STAMPS_MAX && |Swept(old(validateTruth), now, config.truthTtl)| >= STAMPS_MAX ==>
                victim in Swept(old(validateTruth), now, config.truthTtl)
    {
      victim := KeyOf(l);
      if config.truthTtl <= 0 {
        return;
      }
      if |validateTruth| >= STAMPS_MAX {
        validateTruth := Swept(validateTruth, now, config.truthTtl);
        if |validateTruth| >= STAMPS_MAX {
          assert validateTruth.Keys != {};
          var k :| k in validateTruth;
          victim := k;
          validateTruth := validateTruth - {k};
        }
      }
      validateTruth := validateTruth[KeyOf(l) := Entry(Fingerprint(l), l, now, version)];
    }

    method RememberValidateTruth(l: Lease, version: nat, now: Instant) returns (ghost victim: Key)
      modifies this`validateTruth, cache.server
      ensures View() == Remember(old(View()), l, version, now, config, victim)
    {
      victim := StampValidateTruth(l, version, now);
      if config.truthTtl > 0 {
        cache.PutValidateTruth(KeyOf(l), Encode(version, Fingerprint(l)), config.truthTtl, now);
      }
    }

    method ClearValidateTruth(key: Key)
      modifies this`validateTruth, cache.server
      ensures View() == ClearTruth(old(View()), key)
    {
      validateTruth := validateTruth - {key};
      cache.InvalidateValidateTruth(key);
    }

    method LocalValidatedLease(key: Key, now: Instant) returns (hit: Option<Lease>)
      ensures hit == var local := FreshStamp(View().instance, key, now, config);
                     if local.Some? && TruthMatches(cache.server.View(), local.value, now) then local else None
    {
      if config.truthTtl <= 0 || key !in validateTruth || !(validateTruth[key].verifiedAt + config.truthTtl > now) {
        return None;
      }
      var l := validateTruth[key].lease;
      var ok := SharedTruthMatches(l, now);
      hit := if ok then Some(l) else None;
    }

    method ValidateLease(key: Key, password: string, target: string, safe: bool, now: Instant)
        returns (r: Result<Lease>, ghost victim: Key)
      modifies this`validateTruth, cache.server
      ensures Answer(View(), r) == ValidateTruth.ValidateLease(config, store.leases, old(View()), key, password, target, safe, now, victim)
    {
      hide Stamp, Remember, ClearTruth, ValidateFields, TruthMatches, Fingerprint, ValidateTruth.CacheLease;
      victim := key;
      if !safe {
        return Err(UnsafeDestination), victim;
      }
      var version := cache.leaseVer;
      var local := LocalValidatedLease(key, now);
      if local.Some? {
        return ValidateFields(config, local.value, password, target, now), victim;
      }
      var cached := cache.GetLease(key, now);
      if cached.Some? {
        var current := SharedTruthMatches(cached.value, now);
        if current {
          victim := StampValidateTruth(cached.value, version, now);
          return ValidateFields(config, cached.value, password, target, now), victim;
        }
      }
      var found := store.GetLease(key);
      if found.Err? {
        ClearValidateTruth(key);
        return found, victim;
      }
      CacheLease(found.value, now);
      victim := RememberValidateTruth(found.value, version, now);
      r := ValidateFields(config, found.value, password, target, now);
    }

    method RenewLease(key: Key, ttlSeconds: int, now: Instant) returns (r: Result<Lease>)
      requires key in store.leases ==> KeyOf(store.leases[key]) == key
      modifies this`validateTruth, cache, cache.server, store`leases
      ensures Written(store.leases, View(), r) == ValidateTruth.RenewLease(old(store.leases), old(View()), key, ttlSeconds, now)
    {
      var found := store.GetLease(key);
      if found.Err? {
        return found;
      }
      var l := found.value;
      if l.revoked {
        return Err(LeaseRevoked);
      }
      if !(now < l.expiresAt) {
        return Err(LeaseExpired);
      }
      var ttl := ttlSeconds * SECOND;
      if ttl <= 0 {
        ttl := 1800 * SECOND;
      }
      r := store.UpdateLease(l.(generation := l.generation + 1, expiresAt := now + ttl, renewBefore := now + ttl / 2), now);
      if r.Ok? {
        cache.InvalidateLeaseLocal(KeyOf(r.value));
        ClearValidateTruth(KeyOf(r.value));
      }
    }

    method RevokeLease(key: Key) returns (found: bool)
      modifies this`validateTruth, cache, cache.server, store`leases
      ensures found == (key in old(store.leases))
      ensures var w := ValidateTruth.RevokeLease(old(store.leases), old(View()), key); store.leases == w.store && View() == w.caches
    {
      found := store.RevokeLease(key);
      if found {
        cache.InvalidateLeaseLocal(key);
        ClearValidateTruth(key);
      }
    }

    /** The store remembers this scope exactly if it still has the lease of that id. */
    ghost predicate InStep(scope: string, l: Lease) reads store {
      && (scope in store.idempotency <==> KeyOf(l) in store.leases)
      && (scope in store.idempotency ==> store.idempotency[scope] == l.id)
    }

    /** The part of a create after policy, proxy and password are chosen. For a scope whose lease was deleted the
        memory store answers the zero lease, and that is what gets cached and remembered. */
    method CreateLease(scope: string, l: Lease, now: Instant) returns (saved: Option<Lease>, ghost victim: Key)
      modifies this`validateTruth, cache.server, store
      ensures old(InStep(scope, l)) ==>
                && saved.Some?
                && Written(store.leases, View(), Ok(saved.value)) == ValidateTruth.CreateLease(config, old(store.leases), old(View()), l, now, victim)
      ensures scope in old(store.idempotency) && Key(l.tenantId, old(store.idempotency)[scope]) !in old(store.leases) ==>
                && saved.None? && store.leases == old(store.leases)
                && View() == Remember(old(View()).(server := ValidateTruth.CacheLease(old(cache.server.View()), NO_LEASE, now, config)),
                                      NO_LEASE, cache.leaseVer, now, config, victim)
    {
      hide Stamp, Remember, Fingerprint, ValidateTruth.CacheLease;
      var stored := store.CreateLease(scope, l);
      var lease := if stored.Some? then stored.value else NO_LEASE;
      if stored.Some? && lease.id == l.id && lease.passwordHash == l.passwordHash {
        lease := lease.(password := l.password);
      }
      saved := if stored.Some? then Some(lease) else None;
      CacheLease(lease, now);
      victim := RememberValidateTruth(lease, cache.leaseVer, now);
      assert old(InStep(scope, l)) ==>
        store.leases == old(store.leases)[KeyOf(l) := if KeyOf(l) in old(store.leases) then old(store.leases)[KeyOf(l)] else l.(password := "")];
    }
  }
}
