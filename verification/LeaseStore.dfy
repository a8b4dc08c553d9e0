/** Lease rows and the compare-and-swap that renews them, in the memory store's form and in the form
    of the SQL stores' guarded UPDATE. */
module LeaseStore {
  import opened Domain

  datatype Key = Key(tenantId: string, id: string)

  type Leases = map<Key, Lease>

  function KeyOf(l: Lease): Key { Key(l.tenantId, l.id) }

  /** What the memory store answers to an update, checks in its order. */
  function MemoryUpdate(m: Leases, l: Lease, now: Instant): Result<Lease> {
    if KeyOf(l) !in m then Err(NotFound)
    else
      var existing := m[KeyOf(l)];
      if l.generation <= 1 || existing.generation != l.generation - 1 then Err(StaleLease)
      else if existing.revoked then Err(LeaseRevoked)
      else if !(now < existing.expiresAt) then Err(LeaseExpired)
      else Ok(l.(password := ""))
  }

  /** The WHERE clause of the SQL stores. */
  predicate RowMatches(m: Leases, l: Lease, now: Instant) {
    && KeyOf(l) in m
    && m[KeyOf(l)].generation == l.generation - 1 && m[KeyOf(l)].revoked == false && m[KeyOf(l)].expiresAt > now
  }

  /** What the SQL stores answer: the guarded UPDATE, then a look at the row when none was affected. */
  function SqlUpdate(m: Leases, l: Lease, now: Instant): Result<Lease> {
    if l.generation <= 1 then Err(StaleLease)
    else if RowMatches(m, l, now) then Ok(l.(password := ""))
    else if KeyOf(l) !in m then Err(NotFound)
    else if m[KeyOf(l)].revoked then Err(LeaseRevoked)
    else if !(now < m[KeyOf(l)].expiresAt) then Err(LeaseExpired)
    else Err(StaleLease)
  }

  function Updated(m: Leases, r: Result<Lease>): Leases { if r.Ok? then m[KeyOf(r.value) := r.value] else m }

  function Revoked(m: Leases, key: Key): Leases {
    if key in m then m[key := m[key].(revoked := true)] else m
  }

  predicate Outlived(l: Lease, tenantId: string, before: Instant) {
    l.tenantId == tenantId && l.expiresAt != ZERO_TIME && l.expiresAt < before
  }

  class MemoryStore {
    var leases: Leases
    var idempotency: map<string, string>

    constructor ()
      ensures leases == map[] && idempotency == map[]
    {
      leases, idempotency := map[], map[];
    }

    method GetLease(key: Key) returns (r: Result<Lease>)
      ensures r == if key in leases then Ok(leases[key]) else Err(NotFound)
    {
      if key !in leases {
        return Err(NotFound);
      }
      r := Ok(leases[key]);
    }

    /** The first create of a scope stores its lease; later ones answer the lease stored then. If that
        lease has been deleted since, the answer is None: the zero lease. */
    method CreateLease(scope: string, l: Lease) returns (saved: Option<Lease>)
      modifies this
      ensures scope in old(idempotency) ==>
                && leases == old(leases) && idempotency == old(idempotency)
                && var key := Key(l.tenantId, idempotency[scope]);
                   saved == if key in leases then Some(leases[key]) else None
      ensures scope !in old(idempotency) ==>
                && saved == Some(l.(password := ""))
                && leases == old(leases)[KeyOf(l) := l.(password := "")]
                && idempotency == old(idempotency)[scope := l.id]
    {
      if scope in idempotency {
        var key := Key(l.tenantId, idempotency[scope]);
        return if key in leases then Some(leases[key]) else None;
      }
      var stored := l.(password := "");
      leases := leases[KeyOf(l) := stored];
      idempotency := idempotency[scope := l.id];
      saved := Some(stored);
    }

    method UpdateLease(l: Lease, now: Instant) returns (r: Result<Lease>)
      modifies this`leases
      ensures r == MemoryUpdate(old(leases), l, now) && leases == Updated(old(leases), r)
    {
      var key := KeyOf(l);
      if key !in leases {
        return Err(NotFound);
      }
      var existing := leases[key];
      if l.generation <= 1 || existing.generation != l.generation - 1 {
        return Err(StaleLease);
      }
      if existing.revoked {
        return Err(LeaseRevoked);
      }
      if !(now < existing.expiresAt) {
        return Err(LeaseExpired);
      }
      var stored := l.(password := "");
      leases := leases[key := stored];
      r := Ok(stored);
    }

    method RevokeLease(key: Key) returns (found: bool)
      modifies this`leases
      ensures found == (key in old(leases)) && leases == Revoked(old(leases), key)
    {
      if key !in leases {
        return false;
      }
      found := true;
      if !leases[key].revoked {
        leases := leases[key := leases[key].(revoked := true)];
      }
    }

    /** Deletes the tenant's rows that expired before the instant; a row without an expiry stays. */
    method DeleteExpiredLeases(tenantId: string, before: Instant) returns (deleted: nat)
      modifies this`leases
      ensures forall k :: k in leases ==> k in old(leases) && leases[k] == old(leases)[k]
      ensures forall k :: k in old(leases) ==>
                var l := old(leases)[k];
                (k !in leases <==> l.tenantId == tenantId && l.expiresAt != ZERO_TIME && l.expiresAt < before)
      ensures deleted == |old(leases)| - |leases|
    {
      deleted := 0;
      var pending := leases.Keys;
      while pending != {}
        invariant pending <= old(leases).Keys
        invariant leases == map k | k in old(leases) &&
                    (k in pending || !Outlived(old(leases)[k], tenantId, before)) :: old(leases)[k]
        invariant deleted == |old(leases)| - |leases|
      {
        var k :| k in pending;
        pending := pending - {k};
        if leases[k].tenantId == tenantId && leases[k].expiresAt != ZERO_TIME && leases[k].expiresAt < before {
          ghost var was := leases;
          leases := leases - {k};
          assert leases.Keys == was.Keys - {k} && |leases.Keys| == |leases|;
          deleted := deleted + 1;
        }
      }
    }
  }

  /** The lease table of the SQL stores. */
  class SqlStore {
    var rows: Leases

    constructor ()
      ensures rows == map[]
    {
      rows := map[];
    }

    /** INSERT by primary id; on a duplicate key the stored row is the answer. */
    method CreateLeaseByPrimaryId(l: Lease) returns (saved: Lease)
      modifies this
      ensures saved == if KeyOf(l) in old(rows) then old(rows)[KeyOf(l)] else l.(password := "")
      ensures rows == old(rows)[KeyOf(l) := saved]
    {
      if KeyOf(l) in rows {
        return rows[KeyOf(l)];
      }
      saved := l.(password := "");
      rows := rows[KeyOf(l) := saved];
    }

    /** The guarded UPDATE; when no row is affected, a look at the row says why. */
    method UpdateLease(l: Lease, now: Instant) returns (r: Result<Lease>)
      modifies this
      ensures r == SqlUpdate(old(rows), l, now) && rows == Updated(old(rows), r)
    {
      if l.generation <= 1 {
        return Err(StaleLease);
      }
      var stored, key := l.(password := ""), KeyOf(l);
      var affected := 0;
      if key in rows && rows[key].generation == l.generation - 1 && rows[key].revoked == false && rows[key].expiresAt > now {
        rows, affected := rows[key := stored], 1;
      }
      if affected == 0 {
        if key !in rows {
          return Err(NotFound);
        }
        if rows[key].revoked {
          return Err(LeaseRevoked);
        }
        if !(now < rows[key].expiresAt) {
          return Err(LeaseExpired);
        }
        return Err(StaleLease);
      }
      r := Ok(stored);
    }

    /** UPDATE ... SET revoked = TRUE WHERE revoked = FALSE; an already revoked row counts as found. */
    method RevokeLease(key: Key) returns (found: bool)
      modifies this
      ensures found == (key in old(rows)) && rows == Revoked(old(rows), key)
    {
      var affected := 0;
      if key in rows && rows[key].revoked == false {
        rows, affected := rows[key := rows[key].(revoked := true)], 1;
      }
      found := affected > 0 || key in rows;
    }
  }

  /** The three stores accept exactly the same updates and store the same row. */
  lemma StoresAcceptTheSame(m: Leases, l: Lease, now: Instant)
    ensures MemoryUpdate(m, l, now).Ok? <==> SqlUpdate(m, l, now).Ok?
    ensures MemoryUpdate(m, l, now).Ok? <==> l.generation > 1 && RowMatches(m, l, now)
    ensures Updated(m, MemoryUpdate(m, l, now)) == Updated(m, SqlUpdate(m, l, now))
  {
  }

  /** Their refusals differ exactly for a first-generation update of a missing lease, and for a stale
      update of a lease that is also revoked or expired. */
  lemma StoresRefuseAlikeIff(m: Leases, l: Lease, now: Instant)
    ensures MemoryUpdate(m, l, now) == SqlUpdate(m, l, now) <==>
              && !(KeyOf(l) !in m && l.generation <= 1)
              && !(KeyOf(l) in m && l.generation > 1 && m[KeyOf(l)].generation != l.generation - 1 &&
                   (m[KeyOf(l)].revoked || now >= m[KeyOf(l)].expiresAt))
  {
  }

  // ---------- renewals and revocations interleaved ----------

  type Caller = nat

  function TtlOf(ttlSeconds: int): int { if ttlSeconds <= 0 then 1800 * SECOND else ttlSeconds * SECOND }

  /** The row RenewLease prepares from the one it read, if it may be renewed at all. */
  function Prepared(m: Leases, key: Key, now: Instant, ttlSeconds: int): Result<Lease> {
    if key !in m then Err(NotFound)
    else if m[key].revoked then Err(LeaseRevoked)
    else if !(now < m[key].expiresAt) then Err(LeaseExpired)
    else
      var ttl := TtlOf(ttlSeconds);
      Ok(m[key].(generation := m[key].generation + 1, expiresAt := now + ttl, renewBefore := now + ttl / 2))
  }

  datatype Renewal = Renewal(key: Key, generation: int)

  /** The store, the rows prepared by callers whose swap is still to come, and the successful renewals. */
  datatype State = State(leases: Leases, pending: map<Caller, Lease>, renewals: seq<Renewal>)

  datatype Op =
    | Create(lease: Lease)
    | Read(caller: Caller, key: Key, now: Instant, ttlSeconds: int)
    | Swap(caller: Caller, at: Instant)
    | Revoke(key: Key)

  function Next(s: State, op: Op): State {
    match op
    case Create(l) =>
      if KeyOf(l) in s.leases then s else s.(leases := s.leases[KeyOf(l) := l.(generation := 1, revoked := false)])
    case Read(caller, key, now, ttl) =>
      var r := Prepared(s.leases, key, now, ttl);
      if r.Ok? then s.(pending := s.pending[caller := r.value]) else s
    case Swap(caller, at) =>
      if caller !in s.pending then s
      else
        var l := s.pending[caller];
        var r := MemoryUpdate(s.leases, l, at);
        State(Updated(s.leases, r), s.pending - {caller},
              if r.Ok? then s.renewals + [Renewal(KeyOf(l), l.generation)] else s.renewals)
    case Revoke(key) => s.(leases := Revoked(s.leases, key))
  }

  function Run(s: State, ops: seq<Op>): State {
    if ops == [] then s else Next(Run(s, ops[..|ops| - 1]), ops[|ops| - 1])
  }

  const INITIAL := State(map[], map[], [])

  function CountOf(rs: seq<Renewal>, key: Key): nat {
    if rs == [] then 0 else CountOf(rs[..|rs| - 1], key) + (if rs[|rs| - 1].key == key then 1 else 0)
  }

  ghost predicate Consistent(s: State) {
    && (forall k :: k in s.leases ==> KeyOf(s.leases[k]) == k && s.leases[k].generation == 1 + CountOf(s.renewals, k))
    && (forall c :: c in s.pending ==> !s.pending[c].revoked && KeyOf(s.pending[c]) in s.leases)
    && (forall i :: 0 <= i < |s.renewals| ==> s.renewals[i].key in s.leases)
    && Serial(s.renewals)
  }

  /** Each renewal's generation is two more than the renewals its lease had before. */
  ghost predicate Serial(rs: seq<Renewal>) {
    forall i :: 0 <= i < |rs| ==> rs[i].generation == 2 + CountOf(rs[..i], rs[i].key)
  }

  lemma NotCounted(rs: seq<Renewal>, key: Key)
    requires forall i :: 0 <= i < |rs| ==> rs[i].key != key
    ensures CountOf(rs, key) == 0
  {
    if rs != [] { NotCounted(rs[..|rs| - 1], key); }
  }

  lemma CreateConsistent(s: State, l: Lease)
    requires Consistent(s)
    ensures Consistent(Next(s, Create(l)))
  {
    if KeyOf(l) !in s.leases { NotCounted(s.renewals, KeyOf(l)); }
  }

  lemma SwapConsistent(s: State, caller: Caller, at: Instant)
    requires Consistent(s)
    ensures Consistent(Next(s, Swap(caller, at)))
  {
    hide Serial;
    if caller in s.pending && MemoryUpdate(s.leases, s.pending[caller], at).Ok? {
      var t, l := Next(s, Swap(caller, at)), s.pending[caller];
      SerialAppend(s.renewals, Renewal(KeyOf(l), l.generation));
      assert t.renewals == s.renewals + [Renewal(KeyOf(l), l.generation)];
      assert t.renewals[..|s.renewals|] == s.renewals;
    }
  }

  lemma SerialAppend(rs: seq<Renewal>, r: Renewal)
    requires Serial(rs) && r.generation == 2 + CountOf(rs, r.key)
    ensures Serial(rs + [r])
  {
    forall i | 0 <= i <= |rs| ensures (rs + [r])[i].generation == 2 + CountOf((rs + [r])[..i], (rs + [r])[i].key) {
      assert (rs + [r])[..i] == rs[..i];
      assert rs[..|rs|] == rs;
    }
  }

  lemma RevokeConsistent(s: State, key: Key)
    requires Consistent(s)
    ensures Consistent(Next(s, Revoke(key)))
  {
    hide Serial, CountOf;
  }

  lemma ReadConsistent(s: State, caller: Caller, key: Key, now: Instant, ttlSeconds: int)
    requires Consistent(s)
    ensures Consistent(Next(s, Read(caller, key, now, ttlSeconds)))
  {
    hide Serial, CountOf;
  }

  lemma {:induction false} RunConsistent(ops: seq<Op>)
    ensures Consistent(Run(INITIAL, ops))
  {
    if ops != [] {
      RunConsistent(ops[..|ops| - 1]);
      NextConsistent(Run(INITIAL, ops[..|ops| - 1]), ops[|ops| - 1]);
      hide Consistent, Next;
    }
  }

  lemma NextConsistent(s: State, op: Op)
    requires Consistent(s)
    ensures Consistent(Next(s, op))
  {
    hide Consistent, Next;
    match op
    case Create(l) => CreateConsistent(s, l);
    case Read(caller, key, now, ttl) => ReadConsistent(s, caller, key, now, ttl);
    case Swap(caller, at) => SwapConsistent(s, caller, at);
    case Revoke(key) => RevokeConsistent(s, key);
  }

  lemma {:induction false} CountMonotone(rs: seq<Renewal>, i: nat, j: nat, key: Key)
    requires i <= j <= |rs|
    ensures CountOf(rs[..i], key) <= CountOf(rs[..j], key)
  {
    if i < j {
      CountMonotone(rs, i, j - 1, key);
      assert rs[..j][..j - 1] == rs[..j - 1];
    }
  }

  lemma SerialGenerations(rs: seq<Renewal>, i: nat, j: nat)
    requires Serial(rs)
    requires i < j < |rs| && rs[i].key == rs[j].key
    ensures rs[i].generation < rs[j].generation
  {
    CountMonotone(rs, i + 1, j, rs[i].key);
    assert rs[..i + 1][..i] == rs[..i];
  }

  /** In every interleaving a lease's generation is 1 plus its successful renewals, and no two of its
      successful renewals share a generation. */
  lemma RenewalsAreSerial(ops: seq<Op>, key: Key)
    ensures var s := Run(INITIAL, ops);
            && (key in s.leases ==> s.leases[key].generation == 1 + CountOf(s.renewals, key))
            && forall i, j :: 0 <= i < j < |s.renewals| && s.renewals[i].key == s.renewals[j].key == key ==>
                 s.renewals[i].generation < s.renewals[j].generation
  {
    hide Run, CountOf;
    var rs := Run(INITIAL, ops).renewals;
    RunConsistent(ops);
    forall i, j | 0 <= i < j < |rs| && rs[i].key == rs[j].key == key ensures rs[i].generation < rs[j].generation {
      SerialGenerations(rs, i, j);
    }
  }

  lemma {:induction false} RunAppend(s: State, ops: seq<Op>, more: seq<Op>)
    ensures Run(s, ops + more) == Run(Run(s, ops), more)
  {
    if more == [] {
      assert ops + more == ops;
    } else {
      RunAppend(s, ops, more[..|more| - 1]);
      assert (ops + more)[..|ops + more| - 1] == ops + more[..|more| - 1];
    }
  }

  lemma CountOther(rs: seq<Renewal>, r: Renewal, key: Key)
    requires r.key != key
    ensures CountOf(rs + [r], key) == CountOf(rs, key)
  {
    assert (rs + [r])[..|rs|] == rs;
  }

  lemma RevokedSwap(s: State, caller: Caller, at: Instant, key: Key)
    requires key in s.leases && s.leases[key].revoked
    ensures var t := Next(s, Swap(caller, at));
            key in t.leases && t.leases[key] == s.leases[key] && CountOf(t.renewals, key) == CountOf(s.renewals, key)
  {
    if caller in s.pending && MemoryUpdate(s.leases, s.pending[caller], at).Ok? {
      var l := s.pending[caller];
      CountOther(s.renewals, Renewal(KeyOf(l), l.generation), key);
      hide CountOf;
    }
  }

  lemma RevokedNext(s: State, op: Op, key: Key)
    requires key in s.leases && s.leases[key].revoked
    ensures var t := Next(s, op); key in t.leases && t.leases[key] == s.leases[key] && CountOf(t.renewals, key) == CountOf(s.renewals, key)
  {
    hide CountOf, MemoryUpdate;
    if op.Swap? { RevokedSwap(s, op.caller, op.at, key); }
  }

  lemma {:induction false} RevokedStays(s: State, ops: seq<Op>, key: Key)
    requires key in s.leases && s.leases[key].revoked
    ensures var t := Run(s, ops); key in t.leases && t.leases[key] == s.leases[key] && CountOf(t.renewals, key) == CountOf(s.renewals, key)
  {
    if ops != [] {
      hide Next, CountOf;
      RevokedStays(s, ops[..|ops| - 1], key);
      RevokedNext(Run(s, ops[..|ops| - 1]), ops[|ops| - 1], key);
    }
  }

  /** After a revoke, in every interleaving, no renewal of the lease succeeds and it stays revoked:
      also the renewals that had read it before. */
  lemma NoRenewalAfterRevoke(before: seq<Op>, key: Key, after: seq<Op>)
    requires key in Run(INITIAL, before).leases
    ensures var s, t := Run(INITIAL, before), Run(INITIAL, before + [Revoke(key)] + after);
            && key in t.leases && t.leases[key] == s.leases[key].(revoked := true)
            && CountOf(t.renewals, key) == CountOf(s.renewals, key)
  {
    RunAppend(INITIAL, before + [Revoke(key)], after);
    assert (before + [Revoke(key)])[..|before|] == before;
    RevokedStays(Run(INITIAL, before + [Revoke(key)]), after, key);
  }

  // ---------- what a renewal writes ----------

  /** A renewal made at now from row l for so many seconds, half an hour where none are given. */
  predicate Extends(r: Lease, l: Lease, now: Instant, ttlSeconds: int) {
    var ttl := if ttlSeconds > 0 then ttlSeconds * 1_000_000_000 else 1_800_000_000_000;
    r.(password := "") == l.(password := "", generation := l.generation + 1, expiresAt := now + ttl, renewBefore := now + ttl / 2)
  }

  /** An update is accepted exactly when it follows the row by one generation and the row is neither revoked nor
      expired; then the row is the update without its password, and no other row has changed. */
  lemma UpdateMeaning(m: Leases, l: Lease, now: Instant)
    ensures var r, key := MemoryUpdate(m, l, now), KeyOf(l);
            && (r.Ok? <==> key in m && l.generation > 1 && m[key].generation + 1 == l.generation && !m[key].revoked && now < m[key].expiresAt)
            && Updated(m, r) == if r.Ok? then m[Key(l.tenantId, l.id) := l.(password := "")] else m
  {
  }

  /** A create stores its lease at generation 1, unless there is a row. */
  lemma CreateStores(ops: seq<Op>, l: Lease)
    ensures var s, key := Run(INITIAL, ops), Key(l.tenantId, l.id);
            Run(INITIAL, ops + [Create(l)])
            == if key in s.leases then s else s.(leases := s.leases[key := l.(generation := 1, revoked := false)])
  {
    assert (ops + [Create(l)])[..|ops|] == ops;
  }

  /** A renewal of a row neither revoked nor expired, with nothing in between, succeeds and extends the row. */
  lemma UndisturbedRenewal(ops: seq<Op>, c: Caller, key: Key, now: Instant, ttlSeconds: int, at: Instant)
    requires var m := Run(INITIAL, ops).leases; key in m && !m[key].revoked && now < m[key].expiresAt && at < m[key].expiresAt
    ensures var s, t := Run(INITIAL, ops), Run(INITIAL, ops + [Read(c, key, now, ttlSeconds)] + [Swap(c, at)]);
            && key in t.leases && t.leases == s.leases[key := t.leases[key]] && Extends(t.leases[key], s.leases[key], now, ttlSeconds)
            && t.renewals == s.renewals + [Renewal(key, s.leases[key].generation + 1)]
  {
    hide *;
    var s := Run(INITIAL, ops);
    OneMore(ops, Read(c, key, now, ttlSeconds));
    OneMore(ops + [Read(c, key, now, ttlSeconds)], Swap(c, at));
    RunConsistent(ops);
    RowsAreFiled(s, key);
    ReadStep(s, c, key, now, ttlSeconds);
    SwapStep(Next(s, Read(c, key, now, ttlSeconds)), c, key, now, ttlSeconds, at);
  }

  lemma OneMore(ops: seq<Op>, op: Op)
    ensures Run(INITIAL, ops + [op]) == Next(Run(INITIAL, ops), op)
  {
    hide Next;
    assert (ops + [op])[..|ops|] == ops;
  }

  lemma RowsAreFiled(s: State, key: Key)
    requires Consistent(s) && key in s.leases
    ensures KeyOf(s.leases[key]) == key && s.leases[key].generation >= 1
  {
    hide Serial;
  }

  lemma ReadStep(s: State, c: Caller, key: Key, now: Instant, ttlSeconds: int)
    requires key in s.leases && !s.leases[key].revoked && now < s.leases[key].expiresAt
    ensures var t := Next(s, Read(c, key, now, ttlSeconds));
            && t == s.(pending := t.pending) && c in t.pending && Extends(t.pending[c], s.leases[key], now, ttlSeconds)
  {
  }

  lemma SwapStep(s: State, c: Caller, key: Key, now: Instant, ttlSeconds: int, at: Instant)
    requires key in s.leases && KeyOf(s.leases[key]) == key && s.leases[key].generation >= 1 && !s.leases[key].revoked && at < s.leases[key].expiresAt
    requires c in s.pending && Extends(s.pending[c], s.leases[key], now, ttlSeconds)
    ensures var t := Next(s, Swap(c, at));
            && key in t.leases && t.leases == s.leases[key := t.leases[key]] && Extends(t.leases[key], s.leases[key], now, ttlSeconds)
            && t.renewals == s.renewals + [Renewal(key, s.leases[key].generation + 1)]
  {
    var r := s.pending[c];
    assert r.tenantId == s.leases[key].tenantId && r.id == s.leases[key].id && r.generation == s.leases[key].generation + 1;
    UpdateMeaning(s.leases, r, at);
    hide MemoryUpdate, Updated;
  }

  /** Step i read the row that the pending renewal l of caller c extends. */
  predicate WasRead(ops: seq<Op>, i: nat, c: Caller, l: Lease) {
    && i < |ops| && ops[i].Read? && ops[i].caller == c
    && var m, key := Run(INITIAL, ops[..i]).leases, ops[i].key;
       key in m && KeyOf(l) == key && !m[key].revoked && ops[i].now < m[key].expiresAt && Extends(l, m[key], ops[i].now, ops[i].ttlSeconds)
  }

  lemma ReadMore(ops: seq<Op>, op: Op, i: nat, c: Caller, l: Lease)
    requires WasRead(ops, i, c, l)
    ensures WasRead(ops + [op], i, c, l)
  {
    hide Run, Extends;
    assert (ops + [op])[..i] == ops[..i];
  }

  lemma PreparedExtends(s: State, op: Op)
    requires op.Read? && Prepared(s.leases, op.key, op.now, op.ttlSeconds).Ok? && forall k :: k in s.leases ==> KeyOf(s.leases[k]) == k
    ensures var l := Prepared(s.leases, op.key, op.now, op.ttlSeconds).value;
            && op.key in s.leases && KeyOf(l) == op.key && !s.leases[op.key].revoked && op.now < s.leases[op.key].expiresAt
            && Extends(l, s.leases[op.key], op.now, op.ttlSeconds)
  {
  }

  lemma {:induction false} PendingWasRead(ops: seq<Op>, c: Caller)
    requires c in Run(INITIAL, ops).pending
    ensures exists i :: 0 <= i < |ops| && WasRead(ops, i, c, Run(INITIAL, ops).pending[c])
  {
    if ops != [] {
      var front, op := ops[..|ops| - 1], ops[|ops| - 1];
      var s := Run(INITIAL, front);
      var l := Run(INITIAL, ops).pending[c];
      assert ops == front + [op];
      if op.Read? && op.caller == c && Prepared(s.leases, op.key, op.now, op.ttlSeconds).Ok? {
        RunConsistent(front);
        hide Run, Extends, Prepared, CountOf;
        PreparedExtends(s, op);
        assert WasRead(ops, |front|, c, l);
      } else {
        PendingWasRead(front, c);
        hide Run, WasRead, Prepared, MemoryUpdate;
        var i :| 0 <= i < |front| && WasRead(front, i, c, l);
        ReadMore(front, op, i, c, l);
      }
    }
  }

  /** Step j was the last successful renewal of the key, for a caller that had read at step i; it wrote the row. */
  ghost predicate LastRenewal(ops: seq<Op>, i: nat, j: nat, key: Key, row: Lease) {
    && i < j < |ops| && ops[j].Swap? && ops[i].Read? && ops[i].key == key
    && CountOf(Run(INITIAL, ops[..j + 1]).renewals, key) == CountOf(Run(INITIAL, ops).renewals, key) == 1 + CountOf(Run(INITIAL, ops[..j]).renewals, key)
    && exists l :: WasRead(ops[..j], i, ops[j].caller, l) && row.(revoked := false) == l.(password := "")
  }

  /** No renewal of the key has succeeded, and step i created the row. */
  predicate StillCreated(ops: seq<Op>, i: nat, key: Key, row: Lease) {
    && i < |ops| && ops[i].Create? && KeyOf(ops[i].lease) == key && CountOf(Run(INITIAL, ops).renewals, key) == 0
    && row.(revoked := false) == ops[i].lease.(generation := 1, revoked := false)
  }

  lemma CreatedMore(ops: seq<Op>, op: Op, i: nat, key: Key, row: Lease, now: Lease)
    requires StillCreated(ops, i, key, row) && now.(revoked := false) == row.(revoked := false)
    requires CountOf(Run(INITIAL, ops + [op]).renewals, key) == CountOf(Run(INITIAL, ops).renewals, key)
    ensures StillCreated(ops + [op], i, key, now)
  {
    hide Run, CountOf;
  }

  lemma RenewedMore(ops: seq<Op>, op: Op, i: nat, j: nat, key: Key, row: Lease, now: Lease)
    requires LastRenewal(ops, i, j, key, row) && now.(revoked := false) == row.(revoked := false)
    requires CountOf(Run(INITIAL, ops + [op]).renewals, key) == CountOf(Run(INITIAL, ops).renewals, key)
    ensures LastRenewal(ops + [op], i, j, key, now)
  {
    hide Run, CountOf, WasRead;
    var more := ops + [op];
    assert more[..j + 1] == ops[..j + 1] && more[..j] == ops[..j];
  }

  /** What one step can do to a row: nothing, revoke it, create it, or renew it. */
  lemma RowNext(s: State, op: Op, key: Key)
    requires Consistent(s) && key in Next(s, op).leases
    ensures var t := Next(s, op); var row := t.leases[key];
            || (key in s.leases && row.(revoked := false) == s.leases[key].(revoked := false) && CountOf(t.renewals, key) == CountOf(s.renewals, key))
            || (key !in s.leases && op.Create? && KeyOf(op.lease) == key && row == op.lease.(generation := 1, revoked := false)
                && CountOf(t.renewals, key) == 0)
            || (key in s.leases && op.Swap? && op.caller in s.pending && KeyOf(s.pending[op.caller]) == key && row == s.pending[op.caller].(password := "")
                && !row.revoked && CountOf(t.renewals, key) == 1 + CountOf(s.renewals, key))
  {
    hide CountOf, Serial, Prepared;
    if op.Create? {
      if key !in s.leases { NotCounted(s.renewals, key); }
    } else if op.Swap? {
      if op.caller in s.pending {
        SwapCounts(s, op, key);
        UpdateMeaning(s.leases, s.pending[op.caller], op.at);
        hide MemoryUpdate, Updated;
      }
    }
  }

  lemma SwapCounts(s: State, op: Op, key: Key)
    requires op.Swap? && op.caller in s.pending
    ensures var t, l := Next(s, op), s.pending[op.caller];
            CountOf(t.renewals, key) == CountOf(s.renewals, key) + if MemoryUpdate(s.leases, l, op.at).Ok? && KeyOf(l) == key then 1 else 0
  {
    var l := s.pending[op.caller];
    var r := Renewal(KeyOf(l), l.generation);
    assert (s.renewals + [r])[..|s.renewals|] == s.renewals;
  }

  /** In every interleaving a row is what its last successful renewal wrote: the row its caller had read, one generation
      on, with expiry and renewal time counted from that reading; or, without one, what its create wrote. */
  lemma {:induction false} RowIsLastRenewal(ops: seq<Op>, key: Key)
    requires key in Run(INITIAL, ops).leases
    ensures var row := Run(INITIAL, ops).leases[key];
            || (exists i :: StillCreated(ops, i, key, row))
            || (exists i, j :: LastRenewal(ops, i, j, key, row))
  {
    if ops != [] {
      var front, op := ops[..|ops| - 1], ops[|ops| - 1];
      var s, row := Run(INITIAL, front), Run(INITIAL, ops).leases[key];
      assert ops == front + [op];
      RunConsistent(front);
      RowNext(s, op, key);
      if key in s.leases && row.(revoked := false) == s.leases[key].(revoked := false) && CountOf(Run(INITIAL, ops).renewals, key) == CountOf(s.renewals, key) {
        RowIsLastRenewal(front, key);
        RowCarries(front, op, key, s.leases[key], row);
      } else if op.Create? {
        hide Run, CountOf;
        assert StillCreated(ops, |front|, key, row);
      } else {
        PendingWasRead(front, op.caller);
        RenewedNow(front, op, key, row);
      }
    }
  }

  lemma RowCarries(front: seq<Op>, op: Op, key: Key, was: Lease, row: Lease)
    requires row.(revoked := false) == was.(revoked := false)
    requires CountOf(Run(INITIAL, front + [op]).renewals, key) == CountOf(Run(INITIAL, front).renewals, key)
    requires (exists i :: StillCreated(front, i, key, was)) || (exists i, j :: LastRenewal(front, i, j, key, was))
    ensures (exists i :: StillCreated(front + [op], i, key, row)) || (exists i, j :: LastRenewal(front + [op], i, j, key, row))
  {
    hide Run, CountOf, StillCreated, LastRenewal;
    if i :| StillCreated(front, i, key, was) {
      CreatedMore(front, op, i, key, was, row);
    } else {
      var i, j :| LastRenewal(front, i, j, key, was);
      RenewedMore(front, op, i, j, key, was, row);
    }
  }

  lemma RenewedNow(front: seq<Op>, op: Op, key: Key, row: Lease)
    requires op.Swap? && op.caller in Run(INITIAL, front).pending
    requires var l := Run(INITIAL, front).pending[op.caller]; KeyOf(l) == key && row == l.(password := "") && !row.revoked
    requires exists i :: 0 <= i < |front| && WasRead(front, i, op.caller, Run(INITIAL, front).pending[op.caller])
    requires CountOf(Run(INITIAL, front + [op]).renewals, key) == 1 + CountOf(Run(INITIAL, front).renewals, key)
    ensures exists i, j :: LastRenewal(front + [op], i, j, key, row)
  {
    hide *;
    var l := Run(INITIAL, front).pending[op.caller];
    var i :| 0 <= i < |front| && WasRead(front, i, op.caller, l);
    var ops := front + [op];
    assert ops[..|front|] == front && ops[..|front| + 1] == ops;
    assert ops[|front|] == op && ops[i] == front[i];
    ReadOfKey(front, i, op.caller, l, key);
    IsLastRenewal(ops, i, |front|, key, row, l);
  }

  lemma ReadOfKey(ops: seq<Op>, i: nat, c: Caller, l: Lease, key: Key)
    requires WasRead(ops, i, c, l) && KeyOf(l) == key
    ensures i < |ops| && ops[i].Read? && ops[i].key == key
  {
    hide Run, Extends;
  }

  lemma IsLastRenewal(ops: seq<Op>, i: nat, j: nat, key: Key, row: Lease, l: Lease)
    requires i < j < |ops| && ops[j].Swap? && ops[i].Read? && ops[i].key == key
    requires CountOf(Run(INITIAL, ops[..j + 1]).renewals, key) == CountOf(Run(INITIAL, ops).renewals, key) == 1 + CountOf(Run(INITIAL, ops[..j]).renewals, key)
    requires WasRead(ops[..j], i, ops[j].caller, l) && row == l.(password := "") && !row.revoked
    ensures LastRenewal(ops, i, j, key, row)
  {
    hide Run, CountOf, WasRead;
  }
}
