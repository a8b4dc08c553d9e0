/** The tenant-key cache: an admin store whose every key change bumps a version, and a cache that
    reloads all keys when the version it read differs from the one it holds. */
module AuthRefresh {
  import opened Domain

  type Hash = string

  datatype TenantKey = TenantKey(id: string, tenantId: string, hash: Hash, purpose: string, expiresAt: Option<Instant>, revokedAt: Option<Instant>)

  datatype Entry = Entry(tenantId: string, keyId: string, expiresAt: Option<Instant>, purpose: string)

  type Keys = map<string, seq<TenantKey>>

  function EntryOf(k: TenantKey): Entry { Entry(k.tenantId, k.id, k.expiresAt, k.purpose) }

  function AllKeys(keys: Keys): set<TenantKey> { set t, k | t in keys && k in keys[t] :: k }

  // ---------- the writer ----------

  datatype Status = Active | Disabled | Unknown

  datatype Admin = Admin(tenants: map<string, bool>, keys: Keys, version: nat)

  function RevokeAll(ks: seq<TenantKey>, now: Instant): (r: seq<TenantKey>)
    ensures |r| == |ks|
    ensures forall i :: 0 <= i < |ks| ==> r[i] == if ks[i].revokedAt.None? then ks[i].(revokedAt := Some(now)) else ks[i]
  {
    seq(|ks|, i requires 0 <= i < |ks| => if ks[i].revokedAt.None? then ks[i].(revokedAt := Some(now)) else ks[i])
  }

  /** The position of the first key with the id, or the length. */
  function Find(ks: seq<TenantKey>, id: string): (i: nat)
    ensures i <= |ks| && (i < |ks| ==> ks[i].id == id) && forall j :: 0 <= j < i ==> ks[j].id != id
  {
    if ks == [] || ks[0].id == id then 0 else 1 + Find(ks[1..], id)
  }

  function KeysOf(keys: Keys, tenantId: string): seq<TenantKey> { if tenantId in keys then keys[tenantId] else [] }

  function WithTenant(a: Admin, id: string, enabled: bool): Admin {
    if id == "" || id in a.tenants then a else a.(tenants := a.tenants[id := enabled])
  }

  function WithStatus(a: Admin, id: string, status: Status, now: Instant): Admin {
    if id !in a.tenants || status == Unknown then a
    else if status == Active then a.(tenants := a.tenants[id := true])
    else
      Admin(a.tenants[id := false],
            if id in a.keys then a.keys[id := RevokeAll(a.keys[id], now)] else a.keys, a.version + 1)
  }

  function WithKey(a: Admin, k: TenantKey): Admin {
    if k.tenantId !in a.tenants then a
    else a.(keys := a.keys[k.tenantId := KeysOf(a.keys, k.tenantId) + [k]], version := a.version + 1)
  }

  function WithoutKey(a: Admin, tenantId: string, keyId: string, now: Instant): Admin {
    var ks := KeysOf(a.keys, tenantId);
    var i := Find(ks, keyId);
    if i == |ks| then a
    else a.(keys := a.keys[tenantId := ks[i := ks[i].(revokedAt := Some(now))]], version := a.version + 1)
  }

  class MemoryAdminStore {
    var tenants: map<string, bool>
    var keys: Keys
    var version: nat

    ghost function View(): Admin reads this { Admin(tenants, keys, version) }

    constructor ()
      ensures View() == Admin(map[], map[], 0)
    {
      tenants, keys, version := map[], map[], 0;
    }

    method CreateTenant(id: string, enabled: bool) returns (ok: bool)
      modifies this
      ensures ok == (id != "" && id !in old(tenants)) && View() == WithTenant(old(View()), id, enabled)
    {
      if id == "" || id in tenants {
        return false;
      }
      tenants := tenants[id := enabled];
      ok := true;
    }

    method UpdateTenant(id: string, status: Status, now: Instant) returns (ok: bool)
      modifies this
      ensures ok == (id in old(tenants) && status != Unknown) && View() == WithStatus(old(View()), id, status, now)
    {
      if id !in tenants || status == Unknown {
        return false;
      }
      ok := true;
      if status == Active {
        tenants := tenants[id := true];
        return;
      }
      tenants := tenants[id := false];
      if id in keys {
        var ks := keys[id];
        for idx := 0 to |ks|
          invariant |ks| == |keys[id]| && keys == old(keys) && version == old(version) && tenants == old(tenants)[id := false]
          invariant forall i :: 0 <= i < idx ==> ks[i] == RevokeAll(keys[id], now)[i]
          invariant forall i :: idx <= i < |ks| ==> ks[i] == keys[id][i]
        {
          if ks[idx].revokedAt.None? {
            ks := ks[idx := ks[idx].(revokedAt := Some(now))];
          }
        }
        assert ks == RevokeAll(keys[id], now);
        keys := keys[id := ks];
      }
      version := version + 1;
    }

    method CreateTenantKey(k: TenantKey) returns (ok: bool)
      modifies this
      ensures ok == (k.tenantId in old(tenants)) && View() == WithKey(old(View()), k)
    {
      if k.tenantId !in tenants {
        return false;
      }
      keys := keys[k.tenantId := (if k.tenantId in keys then keys[k.tenantId] else []) + [k]];
      version := version + 1;
      ok := true;
    }

    method RevokeTenantKey(tenantId: string, keyId: string, now: Instant) returns (ok: bool)
      modifies this
      ensures ok == (Find(KeysOf(old(keys), tenantId), keyId) < |KeysOf(old(keys), tenantId)|)
      ensures View() == WithoutKey(old(View()), tenantId, keyId, now)
    {
      var ks := if tenantId in keys then keys[tenantId] else [];
      for idx := 0 to |ks|
        invariant View() == old(View())
        invariant forall j :: 0 <= j < idx ==> ks[j].id != keyId
      {
        if ks[idx].id == keyId {
          keys := keys[tenantId := ks[idx := ks[idx].(revokedAt := Some(now))]];
          version := version + 1;
          return true;
        }
      }
      ok := false;
    }

    /** All rows, tenants in any order. */
    method GetTenantKeys() returns (rows: seq<TenantKey>)
      ensures forall k :: k in rows <==> k in AllKeys(keys)
    {
      rows := [];
      var pending := keys.Keys;
      while pending != {}
        invariant pending <= keys.Keys
        invariant forall k :: k in rows <==> exists t :: t in keys && t !in pending && k in keys[t]
      {
        var t :| t in pending;
        pending := pending - {t};
        rows := rows + keys[t];
      }
    }
  }

  // ---------- the cache ----------

  /** What loading the rows in order puts in the table; revoked rows are left out. */
  function TableOf(rows: seq<TenantKey>): map<Hash, Entry> {
    if rows == [] then map[]
    else
      var m, r := TableOf(rows[..|rows| - 1]), rows[|rows| - 1];
      if r.revokedAt.Some? then m else m[r.hash := EntryOf(r)]
  }

  ghost predicate DistinctHashes(ks: set<TenantKey>) {
    forall a, b :: a in ks && b in ks && a.hash == b.hash ==> a == b
  }

  /** The table holds exactly the unrevoked keys among ks. */
  ghost predicate HoldsExactly(table: map<Hash, Entry>, ks: set<TenantKey>) {
    && (forall k :: k in ks && k.revokedAt.None? ==> k.hash in table && table[k.hash] == EntryOf(k))
    && (forall h :: h in table ==> exists k :: k in ks && k.revokedAt.None? && k.hash == h)
  }

  ghost function Elements(rows: seq<TenantKey>): set<TenantKey> { set k | k in rows }

  lemma {:induction false} TableHoldsExactly(rows: seq<TenantKey>)
    requires DistinctHashes(Elements(rows))
    ensures HoldsExactly(TableOf(rows), Elements(rows))
  {
    if rows != [] {
      var front, r := rows[..|rows| - 1], rows[|rows| - 1];
      assert rows == front + [r];
      assert Elements(front) <= Elements(rows);
      TableHoldsExactly(front);
      var t := TableOf(rows);
      forall h | h in t ensures exists k :: k in Elements(rows) && k.revokedAt.None? && k.hash == h {
        if h in TableOf(front) {
          var k :| k in Elements(front) && k.revokedAt.None? && k.hash == h;
          assert k in Elements(rows);
        } else {
          assert r in Elements(rows);
        }
      }
    }
  }

  /** A cached entry admits a presented key until its expiry. */
  function LookupIn(table: map<Hash, Entry>, h: Hash, now: Instant): Option<Entry> {
    if h !in table then None
    else if table[h].expiresAt.Some? && now > table[h].expiresAt.value then None
    else Some(table[h])
  }

  class DynamicStore {
    var byHash: map<Hash, Entry>
    var version: nat

    /** Loads rows first and the version second; no key change in between. */
    constructor (store: MemoryAdminStore)
      ensures version == store.version
      ensures DistinctHashes(AllKeys(store.keys)) ==> HoldsExactly(byHash, AllKeys(store.keys))
    {
      var rows := store.GetTenantKeys();
      byHash, version := map[], store.version;
      new;
      Load(rows);
      assert Elements(rows) == AllKeys(store.keys);
      if DistinctHashes(Elements(rows)) { TableHoldsExactly(rows); }
    }

    method Load(rows: seq<TenantKey>)
      modifies this`byHash
      ensures byHash == TableOf(rows)
    {
      byHash := map[];
      for i := 0 to |rows|
        invariant byHash == TableOf(rows[..i])
      {
        assert rows[..i + 1][..i] == rows[..i];
        if rows[i].revokedAt.None? {
          byHash := byHash[rows[i].hash := EntryOf(rows[i])];
        }
      }
      assert rows[..|rows|] == rows;
    }

    /** A refresh that meets no key change: afterwards the cache is current. */
    method Refresh(store: MemoryAdminStore)
      requires version == store.version ==> HoldsExactly(byHash, AllKeys(store.keys))
      requires DistinctHashes(AllKeys(store.keys))
      modifies this
      ensures version == store.version && HoldsExactly(byHash, AllKeys(store.keys))
    {
      var v := store.version;
      if v == version {
        return;
      }
      var rows := store.GetTenantKeys();
      Load(rows);
      version := v;
      assert Elements(rows) == AllKeys(store.keys);
      TableHoldsExactly(rows);
    }

    method Lookup(h: Hash, now: Instant) returns (e: Option<Entry>)
      ensures e == LookupIn(byHash, h, now)
    {
      if h !in byHash {
        return None;
      }
      var entry := byHash[h];
      if entry.expiresAt.Some? && now > entry.expiresAt.value {
        return None;
      }
      e := Some(entry);
    }
  }

  // ---------- key changes interleaved with the steps of refreshes ----------

  /** Where the one running refresh is; the refresh mutex allows no second. */
  datatype Phase = Idle | GotVersion(v: nat) | GotRows(v: nat, rows: seq<TenantKey>)

  datatype State = State(admin: Admin, byHash: map<Hash, Entry>, version: nat, phase: Phase, completed: nat)

  datatype Op =
    | CreateTenant(id: string, enabled: bool) | SetStatus(id: string, status: Status, at: Instant)
    | CreateKey(key: TenantKey) | RevokeKey(tenantId: string, keyId: string, at: Instant) | Bump
    | ReadVersion | ReadRows(rows: seq<TenantKey>) | Install | Fail

  /** New keys come with hashes that no key, revoked or not, has. */
  ghost predicate Enabled(s: State, op: Op) {
    match op
    case CreateKey(k) => forall o :: o in AllKeys(s.admin.keys) ==> o.hash != k.hash
    case ReadRows(rows) => s.phase.GotVersion? && Elements(rows) == AllKeys(s.admin.keys)
    case _ => true
  }

  function Next(s: State, op: Op): State {
    match op
    case CreateTenant(id, enabled) => s.(admin := WithTenant(s.admin, id, enabled))
    case SetStatus(id, status, at) => s.(admin := WithStatus(s.admin, id, status, at))
    case CreateKey(k) => s.(admin := WithKey(s.admin, k))
    case RevokeKey(t, id, at) => s.(admin := WithoutKey(s.admin, t, id, at))
    case Bump => s.(admin := s.admin.(version := s.admin.version + 1))
    case ReadVersion =>
      if !s.phase.Idle? then s
      else if s.admin.version == s.version then s.(completed := s.completed + 1)
      else s.(phase := GotVersion(s.admin.version))
    case ReadRows(rows) => if s.phase.GotVersion? then s.(phase := GotRows(s.phase.v, rows)) else s
    case Install =>
      if !s.phase.GotRows? then s
      else State(s.admin, TableOf(s.phase.rows), s.phase.v, Idle, s.completed + 1)
    case Fail => s.(phase := Idle)
  }

  /** A run: every step is enabled where it is taken. */
  ghost predicate Steps(s: State, ops: seq<Op>) {
    ops == [] || (Steps(s, ops[..|ops| - 1]) && Enabled(Run(s, ops[..|ops| - 1]), ops[|ops| - 1]))
  }

  function Run(s: State, ops: seq<Op>): State {
    if ops == [] then s else Next(Run(s, ops[..|ops| - 1]), ops[|ops| - 1])
  }

  /** No two keys of the store share a hash. */
  ghost predicate Unique(keys: Keys) {
    forall t, i, u, j ::
      (t in keys && 0 <= i < |keys[t]| && u in keys && 0 <= j < |keys[u]| && keys[t][i].hash == keys[u][j].hash)
      ==> t == u && i == j
  }

  lemma UniqueDistinct(keys: Keys)
    requires Unique(keys)
    ensures DistinctHashes(AllKeys(keys))
  {
    forall a, b | a in AllKeys(keys) && b in AllKeys(keys) && a.hash == b.hash ensures a == b {
      var t :| t in keys && a in keys[t];
      var u :| u in keys && b in keys[u];
      var i :| 0 <= i < |keys[t]| && keys[t][i] == a;
      var j :| 0 <= j < |keys[u]| && keys[u][j] == b;
    }
  }

  /** A freshly constructed cache over a store whose keys have distinct hashes. */
  ghost predicate Start(s: State) {
    && Unique(s.admin.keys) && s.phase == Idle
    && s.version == s.admin.version && HoldsExactly(s.byHash, AllKeys(s.admin.keys))
  }

  ghost predicate RevokedIn(a: Admin, h: Hash) { exists k :: k in AllKeys(a.keys) && k.hash == h && k.revokedAt.Some? }

  /** What every change to the store keeps: hashes stay distinct, the version never falls and an
      unchanged version means unchanged keys, and a revoked key stays revoked. */
  ghost predicate Evolves(a: Admin, b: Admin) {
    && (Unique(a.keys) ==> Unique(b.keys))
    && a.version <= b.version
    && (a.version == b.version ==> AllKeys(a.keys) == AllKeys(b.keys))
    && (forall h :: RevokedIn(a, h) ==> RevokedIn(b, h))
  }

  /** Replacing one tenant's keys by keys with the same hashes, revoked ones staying revoked. */
  lemma ReplaceEvolves(a: Admin, b: Admin, t: string, ks: seq<TenantKey>)
    requires t in a.keys && |ks| == |a.keys[t]| && b.keys == a.keys[t := ks] && b.version == a.version + 1
    requires forall i :: 0 <= i < |ks| ==> ks[i].hash == a.keys[t][i].hash && (a.keys[t][i].revokedAt.Some? ==> ks[i].revokedAt.Some?)
    ensures Evolves(a, b)
  {
    if Unique(a.keys) {
      forall t1, i, u, j | t1 in b.keys && 0 <= i < |b.keys[t1]| && u in b.keys && 0 <= j < |b.keys[u]| &&
                           b.keys[t1][i].hash == b.keys[u][j].hash
        ensures t1 == u && i == j
      {
        assert a.keys[t1][i].hash == a.keys[u][j].hash;
      }
    }
    forall h | RevokedIn(a, h) ensures RevokedIn(b, h) {
      var k :| k in AllKeys(a.keys) && k.hash == h && k.revokedAt.Some?;
      var u :| u in a.keys && k in a.keys[u];
      var i :| 0 <= i < |a.keys[u]| && a.keys[u][i] == k;
      assert b.keys[u][i] in b.keys[u] && b.keys[u][i] in AllKeys(b.keys);
    }
  }

  lemma AppendEvolves(a: Admin, k: TenantKey)
    requires forall o :: o in AllKeys(a.keys) ==> o.hash != k.hash
    ensures Evolves(a, WithKey(a, k))
  {
    var b := WithKey(a, k);
    if b != a {
      var listed := KeysOf(a.keys, k.tenantId);
      assert b.keys[k.tenantId] == listed + [k];
      forall t, i | t in a.keys && 0 <= i < |a.keys[t]| ensures a.keys[t][i].hash != k.hash {
        assert a.keys[t][i] in a.keys[t] && a.keys[t][i] in AllKeys(a.keys);
      }
      forall h | RevokedIn(a, h) ensures RevokedIn(b, h) {
        var o :| o in AllKeys(a.keys) && o.hash == h && o.revokedAt.Some?;
        var u :| u in a.keys && o in a.keys[u];
        assert u == k.tenantId ==> o in listed;
        assert o in b.keys[u] && o in AllKeys(b.keys);
      }
    }
  }

  lemma AdminEvolves(s: State, op: Op)
    requires Enabled(s, op)
    ensures Evolves(s.admin, Next(s, op).admin)
  {
    match op
    case SetStatus(id, status, at) =>
      if id in s.admin.tenants && status == Disabled && id in s.admin.keys {
        ReplaceEvolves(s.admin, Next(s, op).admin, id, RevokeAll(s.admin.keys[id], at));
      }
    case CreateKey(k) => AppendEvolves(s.admin, k);
    case RevokeKey(t, id, at) =>
      var ks := KeysOf(s.admin.keys, t);
      var i := Find(ks, id);
      if i < |ks| { ReplaceEvolves(s.admin, Next(s, op).admin, t, ks[i := ks[i].(revokedAt := Some(at))]); }
    case _ =>
  }

  ghost predicate Coherent(s: State) {
    && Unique(s.admin.keys)
    && s.version <= s.admin.version
    && (s.version == s.admin.version ==> HoldsExactly(s.byHash, AllKeys(s.admin.keys)))
    && (!s.phase.Idle? ==> s.version <= s.phase.v <= s.admin.version)
    && (s.phase.GotRows? && s.phase.v == s.admin.version ==> Elements(s.phase.rows) == AllKeys(s.admin.keys))
  }

  lemma NextCoherent(s: State, op: Op)
    requires Coherent(s) && Enabled(s, op)
    ensures Coherent(Next(s, op)) && s.version <= Next(s, op).version
  {
    AdminEvolves(s, op);
    if op.Install? && s.phase.GotRows? && s.phase.v == s.admin.version {
      UniqueDistinct(s.admin.keys);
      TableHoldsExactly(s.phase.rows);
    }
    hide Unique, HoldsExactly, AllKeys, Elements;
  }

  lemma {:induction false} RunCoherent(s: State, ops: seq<Op>)
    requires Coherent(s) && Steps(s, ops)
    ensures Coherent(Run(s, ops)) && s.version <= Run(s, ops).version
  {
    if ops != [] {
      RunCoherent(s, ops[..|ops| - 1]);
      NextCoherent(Run(s, ops[..|ops| - 1]), ops[|ops| - 1]);
      hide Coherent, Next, Enabled;
    }
  }

  /** In every interleaving, whenever the cached version equals the store's, the cache holds exactly
      the unrevoked keys, and the cached version never runs ahead. */
  lemma CurrentCacheIsExact(s: State, ops: seq<Op>)
    requires Start(s) && Steps(s, ops)
    ensures var t := Run(s, ops);
            t.version <= t.admin.version && (t.version == t.admin.version ==> HoldsExactly(t.byHash, AllKeys(t.admin.keys)))
  {
    RunCoherent(s, ops);
  }

  lemma {:induction false} RunAppend(s: State, ops: seq<Op>, more: seq<Op>)
    ensures Run(s, ops + more) == Run(Run(s, ops), more)
    ensures Steps(s, ops + more) <==> Steps(s, ops) && Steps(Run(s, ops), more)
  {
    if more == [] {
      assert ops + more == ops;
    } else {
      hide Next, Enabled;
      RunAppend(s, ops, more[..|more| - 1]);
      assert (ops + more)[..|ops + more| - 1] == ops + more[..|more| - 1];
    }
  }

  /** The cached version never decreases along a run. */
  lemma VersionNeverDecreases(s: State, ops: seq<Op>, more: seq<Op>)
    requires Start(s) && Steps(s, ops + more)
    ensures Run(s, ops).version <= Run(s, ops + more).version
  {
    RunAppend(s, ops, more);
    RunCoherent(s, ops);
    RunCoherent(Run(s, ops), more);
  }

  // ---------- revoked keys ----------

  /** Seen from the moment the key was revoked, at store version g: the store keeps it revoked, no
      table of version g or later has it, and refreshes begun since carry version g or later. */
  ghost predicate Excludes(t: State, h: Hash, g: nat, done: nat) {
    && RevokedIn(t.admin, h) && g <= t.admin.version
    && (t.version >= g ==> h !in t.byHash)
    && (t.phase.GotRows? && t.phase.v >= g ==> h !in TableOf(t.phase.rows))
    && done <= t.completed
    && (t.completed > done ==> t.version >= g)
  }

  /** Either the refresh under way began since, or none has completed since. */
  ghost predicate SinceIdle(t: State, g: nat) { !t.phase.Idle? ==> t.phase.v >= g }

  lemma RevokedNotLoaded(a: Admin, rows: seq<TenantKey>, h: Hash)
    requires Unique(a.keys) && Elements(rows) == AllKeys(a.keys) && RevokedIn(a, h)
    ensures h !in TableOf(rows)
  {
    UniqueDistinct(a.keys);
    TableHoldsExactly(rows);
  }

  lemma ExcludesNext(t: State, op: Op, h: Hash, g: nat, done: nat)
    requires Coherent(t) && Enabled(t, op) && Excludes(t, h, g, done) && SinceIdle(t, g)
    ensures Excludes(Next(t, op), h, g, done) && SinceIdle(Next(t, op), g)
  {
    AdminEvolves(t, op);
    NextCoherent(t, op);
    if op.ReadRows? { RevokedNotLoaded(t.admin, op.rows, h); }
    hide RevokedIn, Unique, HoldsExactly, AllKeys, TableOf;
  }

  lemma {:induction false} ExcludesRun(t: State, ops: seq<Op>, h: Hash, g: nat, done: nat)
    requires Coherent(t) && Steps(t, ops) && Excludes(t, h, g, done) && SinceIdle(t, g)
    ensures Excludes(Run(t, ops), h, g, done)
    ensures SinceIdle(Run(t, ops), g)
  {
    if ops != [] {
      var front := ops[..|ops| - 1];
      ExcludesRun(t, front, h, g, done);
      RunCoherent(t, front);
      ExcludesNext(Run(t, front), ops[|ops| - 1], h, g, done);
      hide Coherent, Next, Enabled, Excludes, SinceIdle;
    }
  }

  lemma RevokedNow(t: State, h: Hash)
    requires Coherent(t) && t.phase == Idle && RevokedIn(t.admin, h)
    ensures Excludes(t, h, t.admin.version, t.completed) && SinceIdle(t, t.admin.version)
  {
    if t.version == t.admin.version { UniqueDistinct(t.admin.keys); }
  }

  lemma RejectedFrom(t: State, during: seq<Op>, after: seq<Op>, h: Hash)
    requires Coherent(t) && t.phase == Idle && RevokedIn(t.admin, h)
    requires Steps(t, during) && Steps(Run(t, during), after) && Run(t, during).completed > t.completed
    ensures h !in Run(Run(t, during), after).byHash
  {
    hide Run, Steps, Coherent, SinceIdle;
    var g := t.admin.version;
    RevokedNow(t, h);
    ExcludesRun(t, during, h, g, t.completed);
    RunCoherent(t, during);
    ExcludesRun(Run(t, during), after, h, g, t.completed);
    RunCoherent(Run(t, during), after);
  }

  /** A key revoked while no refresh is under way is rejected from the next completed refresh on,
      whatever else happens before and after it. */
  lemma RevokedKeyRejected(s: State, before: seq<Op>, during: seq<Op>, after: seq<Op>, h: Hash, now: Instant)
    requires Start(s) && Steps(s, before + during + after)
    requires Run(s, before).phase == Idle && RevokedIn(Run(s, before).admin, h)
    requires Run(s, before + during).completed > Run(s, before).completed
    ensures LookupIn(Run(s, before + during + after).byHash, h, now) == None
  {
    hide Run, Steps;
    RunAppend(s, before + during, after);
    RunAppend(s, before, during);
    StartCoherent(s);
    RunCoherent(s, before);
    RejectedFrom(Run(s, before), during, after, h);
  }

  lemma StartCoherent(s: State)
    requires Start(s)
    ensures Coherent(s)
  {
  }

  // ---------- what a lookup answers, in terms of the store's keys ----------

  /** Some tenant's list holds the key. */
  predicate Listed(keys: Keys, k: TenantKey) { exists t :: t in keys && k in keys[t] }

  /** In every interleaving, while the cached version equals the store's, a presented hash is admitted exactly when a
      listed, unrevoked key of that hash has no expiry or has not passed it; the answer is that key's tenant, id,
      purpose and expiry. */
  lemma LookupMeaning(s: State, ops: seq<Op>, h: Hash, now: Instant)
    requires Start(s) && Steps(s, ops) && Run(s, ops).version == Run(s, ops).admin.version
    ensures var t := Run(s, ops); var e := LookupIn(t.byHash, h, now);
            && (e.Some? <==> exists k :: Listed(t.admin.keys, k) && k.hash == h && k.revokedAt == None
                                         && (k.expiresAt == None || now <= k.expiresAt.value))
            && forall k :: Listed(t.admin.keys, k) && k.hash == h && k.revokedAt == None && e.Some?
                 ==> e.value.tenantId == k.tenantId && e.value.keyId == k.id && e.value.purpose == k.purpose && e.value.expiresAt == k.expiresAt
  {
    CurrentCacheIsExact(s, ops);
    var t := Run(s, ops);
    hide Run, Steps, Start;
    assert forall k :: Listed(t.admin.keys, k) <==> k in AllKeys(t.admin.keys);
    var e := LookupIn(t.byHash, h, now);
    if h in t.byHash {
      var k :| k in AllKeys(t.admin.keys) && k.revokedAt.None? && k.hash == h;
      assert t.byHash[h] == EntryOf(k);
      if e.Some? { assert Listed(t.admin.keys, k) && (k.expiresAt == None || now <= k.expiresAt.value); }
    }
  }

  /** An undisturbed refresh in any run: with the version unchanged it completes at once and touches nothing; else it can
      read all rows and install them, and completes with the store's version. A failed one changes only its phase. */
  lemma RefreshMeaning(s: State, ops: seq<Op>, rows: seq<TenantKey>)
    requires Steps(s, ops) && Run(s, ops).phase == Idle && Elements(rows) == AllKeys(Run(s, ops).admin.keys)
    ensures var t, u := Run(s, ops), Run(s, ops + [ReadVersion]);
            && Steps(s, ops + [ReadVersion]) && u.admin == t.admin && u.byHash == t.byHash && u.version == t.version
            && (t.version == t.admin.version ==> u.phase == Idle && u.completed == t.completed + 1)
            && (t.version != t.admin.version ==> u.phase != Idle && u.completed == t.completed)
            && Run(s, ops + [ReadVersion] + [Fail]) == u.(phase := Idle)
    ensures var t := Run(s, ops);
            t.version != t.admin.version ==>
              var all := ops + [ReadVersion] + [ReadRows(rows)] + [Install];
              Steps(s, all) && Run(s, all) == State(t.admin, TableOf(rows), t.admin.version, Idle, t.completed + 1)
  {
    RunAppend(s, ops, [ReadVersion]);
    OneStep(Run(s, ops), ReadVersion);
    RunAppend(s, ops + [ReadVersion], [Fail]);
    OneStep(Run(s, ops + [ReadVersion]), Fail);
    RunAppend(s, ops + [ReadVersion], [ReadRows(rows)]);
    OneStep(Run(s, ops + [ReadVersion]), ReadRows(rows));
    RunAppend(s, ops + [ReadVersion] + [ReadRows(rows)], [Install]);
    OneStep(Run(s, ops + [ReadVersion] + [ReadRows(rows)]), Install);
    hide Run, Steps, TableOf, AllKeys, Elements;
  }

  lemma OneStep(s: State, op: Op)
    ensures Run(s, [op]) == Next(s, op) && (Steps(s, [op]) <==> Enabled(s, op))
  {
    hide Next, Enabled;
    assert [op][..0] == [];
  }

  // ---------- what the admin operations reach ----------

  /** The i-th key of a tenant after an admin operation: marked revoked by a disabling of the tenant unless it was before,
      and by a revoke of its id if it is the first with it; otherwise as it was. Only a create makes a list longer. */
  lemma KeysAfter(a: Admin, t: string, i: nat, op: Op)
    requires t in a.keys && i < |a.keys[t]| && (op.CreateTenant? || op.SetStatus? || op.CreateKey? || op.RevokeKey?)
    ensures var b, k := Next(State(a, map[], 0, Idle, 0), op).admin, a.keys[t][i];
            && t in b.keys && |b.keys[t]| == |a.keys[t]| + (if op.CreateKey? && op.key.tenantId == t && t in a.tenants then 1 else 0)
            && b.keys[t][i] ==
               if op.SetStatus? && op.id == t && t in a.tenants && op.status == Disabled && k.revokedAt == None then k.(revokedAt := Some(op.at))
               else if op.RevokeKey? && op.tenantId == t && k.id == op.keyId && forall j :: 0 <= j < i ==> a.keys[t][j].id != op.keyId
                 then k.(revokedAt := Some(op.at))
               else k
  {
  }

  /** Tenants are added by a create under a new name and switched by a status; nothing removes one. */
  lemma TenantsAfter(a: Admin, t: string, op: Op)
    requires op.CreateTenant? || op.SetStatus? || op.CreateKey? || op.RevokeKey?
    ensures var b := Next(State(a, map[], 0, Idle, 0), op).admin;
            && (t in b.tenants <==> t in a.tenants || (op.CreateTenant? && op.id == t && t != ""))
            && (t in b.tenants && op.SetStatus? && op.id == t && op.status != Unknown ==> b.tenants[t] == (op.status == Active))
            && (t in a.tenants && !(op.SetStatus? && op.id == t && op.status != Unknown) ==> b.tenants[t] == a.tenants[t])
            && (t in b.tenants && t !in a.tenants ==> op.CreateTenant? && b.tenants[t] == op.enabled)
            && b.version >= a.version && Next(State(a, map[], 0, Idle, 0), Bump).admin == a.(version := a.version + 1)
  {
  }

  lemma RevokeOneReaches(a: Admin, t: string, keyId: string, at: Instant, i: nat)
    requires t in a.keys && i < |a.keys[t]| && a.keys[t][i].id == keyId && forall j :: 0 <= j < i ==> a.keys[t][j].id != keyId
    ensures RevokedIn(WithoutKey(a, t, keyId, at), a.keys[t][i].hash)
  {
    var b := WithoutKey(a, t, keyId, at);
    assert Find(KeysOf(a.keys, t), keyId) == i;
    var k := b.keys[t][i];
    assert k in b.keys[t] && k in AllKeys(b.keys) && k.hash == a.keys[t][i].hash;
  }

  lemma DisableReaches(a: Admin, t: string, at: Instant, i: nat)
    requires t in a.tenants && t in a.keys && i < |a.keys[t]|
    ensures RevokedIn(WithStatus(a, t, Disabled, at), a.keys[t][i].hash)
  {
    var b := WithStatus(a, t, Disabled, at);
    var k := b.keys[t][i];
    assert k in b.keys[t] && k in AllKeys(b.keys) && k.hash == a.keys[t][i].hash;
  }

  lemma IdleStays(s: State, ops: seq<Op>, op: Op)
    requires op.RevokeKey? || op.SetStatus?
    ensures Run(s, ops + [op]).phase == Run(s, ops).phase && Run(s, ops + [op]).admin == Next(Run(s, ops), op).admin
  {
    assert (ops + [op])[..|ops|] == ops;
  }

  /** Revoking a tenant's first key with an id, while no refresh is under way, shuts its hash out from the next completed
      refresh on. */
  lemma RevokeShutsOut(s: State, before: seq<Op>, tenant: string, keyId: string, at: Instant, i: nat, during: seq<Op>, after: seq<Op>, now: Instant)
    requires var a := Run(s, before).admin;
             tenant in a.keys && i < |a.keys[tenant]| && a.keys[tenant][i].id == keyId && forall j :: 0 <= j < i ==> a.keys[tenant][j].id != keyId
    requires var b := before + [RevokeKey(tenant, keyId, at)];
             && Start(s) && Steps(s, b + during + after) && Run(s, before).phase == Idle
             && Run(s, b + during).completed > Run(s, b).completed
    ensures LookupIn(Run(s, before + [RevokeKey(tenant, keyId, at)] + during + after).byHash, Run(s, before).admin.keys[tenant][i].hash, now) == None
  {
    hide Run, Steps, Start, RevokedIn;
    IdleStays(s, before, RevokeKey(tenant, keyId, at));
    RevokeOneReaches(Run(s, before).admin, tenant, keyId, at, i);
    RevokedKeyRejected(s, before + [RevokeKey(tenant, keyId, at)], during, after, Run(s, before).admin.keys[tenant][i].hash, now);
  }

  /** Disabling a tenant shuts out every key it has. */
  lemma DisableShutsOut(s: State, before: seq<Op>, tenant: string, at: Instant, i: nat, during: seq<Op>, after: seq<Op>, now: Instant)
    requires var a := Run(s, before).admin; tenant in a.tenants && tenant in a.keys && i < |a.keys[tenant]|
    requires var b := before + [SetStatus(tenant, Disabled, at)];
             && Start(s) && Steps(s, b + during + after) && Run(s, before).phase == Idle
             && Run(s, b + during).completed > Run(s, b).completed
    ensures LookupIn(Run(s, before + [SetStatus(tenant, Disabled, at)] + during + after).byHash, Run(s, before).admin.keys[tenant][i].hash, now) == None
  {
    hide Run, Steps, Start, RevokedIn;
    IdleStays(s, before, SetStatus(tenant, Disabled, at));
    DisableReaches(Run(s, before).admin, tenant, at, i);
    RevokedKeyRejected(s, before + [SetStatus(tenant, Disabled, at)], during, after, Run(s, before).admin.keys[tenant][i].hash, now);
  }

  /** A key created for a known tenant while no refresh is under way is admitted until its expiry after a refresh with
      no other change: version read, rows read, installed. */
  lemma CreatedKeyIsAdmitted(s: State, before: seq<Op>, k: TenantKey, rows: seq<TenantKey>, now: Instant, ops: seq<Op>)
    requires ops == before + [CreateKey(k)] + [ReadVersion] + [ReadRows(rows)] + [Install]
    requires Start(s) && Steps(s, ops) && Run(s, before).phase == Idle && k.tenantId in Run(s, before).admin.tenants && k.revokedAt == None
    ensures var e := LookupIn(Run(s, ops).byHash, k.hash, now);
            if k.expiresAt.Some? && now > k.expiresAt.value then e == None
            else e.Some? && e.value.tenantId == k.tenantId && e.value.keyId == k.id && e.value.purpose == k.purpose && e.value.expiresAt == k.expiresAt
  {
    var o1 := before + [CreateKey(k)];
    var o2, o3 := o1 + [ReadVersion], o1 + [ReadVersion] + [ReadRows(rows)];
    assert ops == o3 + [Install];
    StepsMore(s, o3, Install);
    StepsMore(s, o2, ReadRows(rows));
    StepsMore(s, o1, ReadVersion);
    StepsMore(s, before, CreateKey(k));
    StartCoherent(s);
    RunCoherent(s, before);
    var a := Run(s, before).admin;
    assert Run(s, before).version <= a.version;
    KeyIsListed(a, k);
    hide Run, Steps, Start, Coherent, WithKey, Enabled, TableOf, Listed;
    assert Run(s, ops).version == a.version + 1 && Run(s, ops).admin == WithKey(a, k);
    LookupMeaning(s, ops, k.hash, now);
  }

  lemma StepsMore(s: State, ops: seq<Op>, op: Op)
    requires Steps(s, ops + [op])
    ensures Steps(s, ops) && Enabled(Run(s, ops), op) && Run(s, ops + [op]) == Next(Run(s, ops), op)
  {
    assert (ops + [op])[..|ops|] == ops;
  }

  lemma KeyIsListed(a: Admin, k: TenantKey)
    requires k.tenantId in a.tenants
    ensures Listed(WithKey(a, k).keys, k) && WithKey(a, k).version == a.version + 1
  {
    var b := WithKey(a, k);
    assert b.keys[k.tenantId] == KeysOf(a.keys, k.tenantId) + [k];
    assert k in b.keys[k.tenantId];
  }
}
