/** How old an answer from the cache can be when calls interleave step by step and deletes or messages get lost.
    One lease key, any number of instances and calls; the store changes by guarded writes at any time. */
module Staleness {
  import opened Domain
  import opened LeaseStore
  import opened TruthRecord
  import opened ValidateTruth

  type Caller = nat
  type InstanceId = nat

  /** Where a call stands. A lease carried from the store carries the instant it was read or created. */
  datatype Thread =
    | Started(id: InstanceId, version: nat)
    | LocalFound(id: InstanceId, version: nat, lease: Lease)
    | NoLocal(id: InstanceId, version: nat)
    | CachedFound(id: InstanceId, version: nat, lease: Lease)
    | Matched(id: InstanceId, version: nat, lease: Lease)
    | NoCached(id: InstanceId, version: nat)
    | FromStore(id: InstanceId, version: nat, lease: Lease, readAt: Instant, created: bool)
    | ToCompare(id: InstanceId, version: nat, lease: Lease, readAt: Instant)
    | ToStamp(id: InstanceId, version: nat, lease: Lease, readAt: Instant)
    | ToPut(id: InstanceId, version: nat, lease: Lease, readAt: Instant)
    | ToClear(id: InstanceId)

  /** What a store read or create saw, and when; and what a validation accepted from the cache, and when. */
  datatype Seen = Seen(at: Instant, lease: Lease)

  /** A truth record put at some instant for a lease that the call had seen at readAt. */
  datatype Put = Put(readAt: Instant, at: Instant, lease: Lease)

  /** seen, puts and accepted are logs; no step depends on them. */
  datatype World = World(
    now: Instant, store: Leases, leaseRecord: Option<Timed<Lease>>, truthRecord: Option<Timed<string>>,
    instances: map<InstanceId, Instance>, threads: map<Caller, Thread>,
    seen: set<Seen>, puts: set<Put>, accepted: set<Seen>)

  datatype Op =
    | Wait(to: Instant)
    // the store
    | Insert(caller: Caller, id: InstanceId, lease: Lease)
    | Swap(lease: Lease)
    | RevokeRow
    | DeleteRow
    // what invalidation, eviction and restarts do when they get through
    | EvictLease
    | EvictTruth
    | DropStamp(id: InstanceId)
    | Bump(id: InstanceId)
    | Start(id: InstanceId)
    // the steps of a validation
    | Begin(caller: Caller, id: InstanceId)
    | LookLocal(caller: Caller)
    | CheckLocal(caller: Caller, password: string, target: string)
    | LookCached(caller: Caller)
    | CheckCached(caller: Caller, password: string, target: string)
    | StampCached(caller: Caller, victim: Key)
    | ReadFails(caller: Caller)
    | ReadStore(caller: Caller)
    | CacheIt(caller: Caller)
    | CacheFails(caller: Caller)
    | Compare(caller: Caller)
    | StampIt(caller: Caller, victim: Key)
    | PutIt(caller: Caller)
    | ClearIt(caller: Caller)

  function Current<T>(r: Option<Timed<T>>, now: Instant): Option<T> {
    if r.Some? && r.value.until > now then Some(r.value.value) else None
  }

  predicate Matches(s: World, l: Lease) {
    var raw := Current(s.truthRecord, s.now);
    raw.Some? && var d := Decode(raw.value); d.Some? && d.value.1 == Fingerprint(l)
  }

  function Goes(s: World, caller: Caller, t: Thread): World { s.(threads := s.threads[caller := t]) }

  function Done(s: World, caller: Caller): World { s.(threads := s.threads - {caller}) }

  /** A validation that trusts l answers what its fields say. */
  function Answered(c: Config, s: World, l: Lease, password: string, target: string): World {
    if ValidateFields(c, l, password, target, s.now).Ok? then s.(accepted := s.accepted + {Seen(s.now, l)}) else s
  }

  function StampOn(c: Config, s: World, id: InstanceId, l: Lease, version: nat, victim: Key): World {
    if id in s.instances then s.(instances := s.instances[id := Stamp(s.instances[id], l, version, s.now, c, victim)]) else s
  }

  function StoreStep(s: World, key: Key, op: Op): World {
    match op
    case Insert(caller, id, l) =>
      if KeyOf(l) != key || caller in s.threads || id !in s.instances then s
      else
        var store := if key in s.store then s.store else s.store[key := l.(password := "")];
        Goes(s.(store := store, seen := s.seen + {Seen(s.now, store[key])}), caller,
             FromStore(id, s.instances[id].version, store[key], s.now, true))
    case Swap(l) => if KeyOf(l) == key then s.(store := Updated(s.store, MemoryUpdate(s.store, l, s.now))) else s
    case RevokeRow => s.(store := Revoked(s.store, key))
    case DeleteRow => s.(store := s.store - {key})
    case _ => s
  }

  function LossStep(s: World, key: Key, op: Op): World {
    match op
    case Wait(to) => if to > s.now then s.(now := to) else s
    case EvictLease => s.(leaseRecord := None)
    case EvictTruth => s.(truthRecord := None)
    case DropStamp(id) =>
      if id in s.instances then s.(instances := s.instances[id := s.instances[id].(stamps := s.instances[id].stamps - {key})]) else s
    case Bump(id) =>
      if id in s.instances then s.(instances := s.instances[id := s.instances[id].(version := (s.instances[id].version + 1) % UINT64)]) else s
    case Start(id) => s.(instances := s.instances[id := Instance(map[], 0)])
    case _ => s
  }

  function LookStep(c: Config, s: World, key: Key, op: Op): World {
    match op
    case Begin(caller, id) =>
      if caller in s.threads || id !in s.instances then s else Goes(s, caller, Started(id, s.instances[id].version))
    case LookLocal(caller) =>
      if caller in s.threads && s.threads[caller].Started? then
        var t := s.threads[caller];
        var local := if t.id in s.instances then FreshStamp(s.instances[t.id], key, s.now, c) else None;
        Goes(s, caller, if local.Some? then LocalFound(t.id, t.version, local.value) else NoLocal(t.id, t.version))
      else s
    case CheckLocal(caller, password, target) =>
      if caller in s.threads && s.threads[caller].LocalFound? then
        var t := s.threads[caller];
        if Matches(s, t.lease) then Answered(c, Done(s, caller), t.lease, password, target)
        else Goes(s, caller, NoLocal(t.id, t.version))
      else s
    case LookCached(caller) =>
      if caller in s.threads && s.threads[caller].NoLocal? then
        var t := s.threads[caller];
        var cached := Current(s.leaseRecord, s.now);
        Goes(s, caller, if cached.Some? then CachedFound(t.id, t.version, cached.value) else NoCached(t.id, t.version))
      else s
    case CheckCached(caller, password, target) =>
      if caller in s.threads && s.threads[caller].CachedFound? then
        var t := s.threads[caller];
        if Matches(s, t.lease) then Answered(c, Goes(s, caller, Matched(t.id, t.version, t.lease)), t.lease, password, target)
        else Goes(s, caller, NoCached(t.id, t.version))
      else s
    case StampCached(caller, victim) =>
      if caller in s.threads && s.threads[caller].Matched? then
        var t := s.threads[caller]; StampOn(c, Done(s, caller), t.id, t.lease, t.version, victim)
      else s
    case ReadFails(caller) => // an error of a Redis read counts as a miss
      if caller in s.threads && s.threads[caller].LocalFound? then Goes(s, caller, NoLocal(s.threads[caller].id, s.threads[caller].version))
      else if caller in s.threads && (s.threads[caller].NoLocal? || s.threads[caller].CachedFound?) then
        Goes(s, caller, NoCached(s.threads[caller].id, s.threads[caller].version))
      else s
    case _ => s
  }

  /** A call that has tried to write the lease record. */
  function Cached(t: Thread): Thread
    requires t.FromStore?
  {
    if t.created then ToStamp(t.id, t.version, t.lease, t.readAt) else ToCompare(t.id, t.version, t.lease, t.readAt)
  }

  function FillStep(c: Config, s: World, key: Key, op: Op): World {
    match op
    case ReadStore(caller) =>
      if caller in s.threads && s.threads[caller].NoCached? then
        var t := s.threads[caller];
        if key in s.store then
          Goes(s.(seen := s.seen + {Seen(s.now, s.store[key])}), caller, FromStore(t.id, t.version, s.store[key], s.now, false))
        else Goes(s, caller, ToClear(t.id))
      else s
    case CacheIt(caller) =>
      if caller in s.threads && s.threads[caller].FromStore? then
        var t := s.threads[caller];
        var server := CacheLease(Server(map[], map[]), t.lease, s.now, c);
        Goes(if KeyOf(t.lease) in server.leases then s.(leaseRecord := Some(server.leases[KeyOf(t.lease)])) else s, caller, Cached(t))
      else s
    case CacheFails(caller) => // the write is lost, an older record stays
      if caller in s.threads && s.threads[caller].FromStore? then Goes(s, caller, Cached(s.threads[caller])) else s
    case Compare(caller) =>
      if caller in s.threads && s.threads[caller].ToCompare? then
        var t := s.threads[caller];
        Goes(s, caller, if t.id in s.instances && s.instances[t.id].version == t.version then ToStamp(t.id, t.version, t.lease, t.readAt)
                        else ToClear(t.id))
      else s
    case StampIt(caller, victim) =>
      if caller in s.threads && s.threads[caller].ToStamp? then
        var t := s.threads[caller]; Goes(StampOn(c, s, t.id, t.lease, t.version, victim), caller, ToPut(t.id, t.version, t.lease, t.readAt))
      else s
    case PutIt(caller) =>
      if caller in s.threads && s.threads[caller].ToPut? then
        var t := s.threads[caller];
        if c.truthTtl <= 0 then Done(s, caller)
        else Done(s, caller).(truthRecord := Some(Timed(Encode(t.version, Fingerprint(t.lease)), s.now + c.truthTtl)),
                              puts := s.puts + {Put(t.readAt, s.now, t.lease)})
      else s
    case ClearIt(caller) =>
      if caller in s.threads && s.threads[caller].ToClear? then Done(s, caller).(truthRecord := None) else s
    case _ => s
  }

  function Next(c: Config, s: World, key: Key, op: Op): World {
    if op.Insert? || op.Swap? || op.RevokeRow? || op.DeleteRow? then StoreStep(s, key, op)
    else if op.Wait? || op.EvictLease? || op.EvictTruth? || op.DropStamp? || op.Bump? || op.Start? then LossStep(s, key, op)
    else if op.Begin? || op.LookLocal? || op.CheckLocal? || op.LookCached? || op.CheckCached? || op.StampCached? || op.ReadFails?
    then LookStep(c, s, key, op)
    else FillStep(c, s, key, op)
  }

  function Run(c: Config, start: Instant, key: Key, ops: seq<Op>): World {
    if ops == [] then World(start, map[], None, None, map[], map[], {}, {}, {})
    else Next(c, Run(c, start, key, ops[..|ops| - 1]), key, ops[|ops| - 1])
  }

  // ---------- where a truth record comes from ----------

  /** A record that ends at until is one of the puts, made one TTL before. */
  ghost predicate Sourced(c: Config, raw: string, until: Instant, puts: set<Put>, now: Instant) {
    exists p :: p in puts && Decode(raw).Some? && Decode(raw).value.1 == Fingerprint(p.lease) && until == p.at + c.truthTtl && p.at <= now
  }

  /** What was accepted at a.at rests on a record of its fingerprint put less than one TTL before. */
  ghost predicate Backed(c: Config, a: Seen, puts: set<Put>) {
    exists p :: p in puts && Fingerprint(p.lease) == Fingerprint(a.lease) && p.at <= a.at < p.at + c.truthTtl
  }

  predicate Carries(t: Thread) { t.FromStore? || t.ToCompare? || t.ToStamp? || t.ToPut? }

  predicate ThreadOk(t: Thread, seen: set<Seen>, now: Instant) {
    (Carries(t) ==> Seen(t.readAt, t.lease) in seen && t.readAt <= now && t.version < UINT64)
    && (t.Started? || t.LocalFound? || t.NoLocal? || t.CachedFound? || t.Matched? || t.NoCached? ==> t.version < UINT64)
  }

  ghost predicate Inv(c: Config, s: World) {
    && (s.truthRecord.Some? ==> Sourced(c, s.truthRecord.value.value, s.truthRecord.value.until, s.puts, s.now))
    && (forall a :: a in s.accepted ==> Backed(c, a, s.puts))
    && (forall k :: k in s.threads ==> ThreadOk(s.threads[k], s.seen, s.now))
    && (forall i :: i in s.instances ==> s.instances[i].version < UINT64)
  }

  lemma SourcedLater(c: Config, raw: string, until: Instant, s: World, t: World)
    requires Sourced(c, raw, until, s.puts, s.now) && s.puts <= t.puts && s.now <= t.now
    ensures Sourced(c, raw, until, t.puts, t.now)
  {
    hide Decode, Fingerprint;
  }

  lemma BackedLater(c: Config, a: Seen, s: World, t: World)
    requires Backed(c, a, s.puts) && s.puts <= t.puts
    ensures Backed(c, a, t.puts)
  {
    hide Fingerprint;
  }

  predicate Grows(s: World, t: World) { s.seen <= t.seen && s.puts <= t.puts && s.now <= t.now }

  predicate ThreadsOk(s: World) { forall k :: k in s.threads ==> ThreadOk(s.threads[k], s.seen, s.now) }

  predicate VersionsOk(s: World) { forall i :: i in s.instances ==> s.instances[i].version < UINT64 }

  /** A step that puts no truth record and accepts nothing. */
  lemma QuietOk(c: Config, s: World, t: World)
    requires Inv(c, s) && Grows(s, t) && ThreadsOk(t) && VersionsOk(t)
    requires (t.truthRecord == s.truthRecord || t.truthRecord == None) && t.accepted == s.accepted
    ensures Inv(c, t)
  {
    hide Sourced, Backed, ThreadOk;
    if t.truthRecord.Some? { SourcedLater(c, s.truthRecord.value.value, s.truthRecord.value.until, s, t); }
    forall a | a in t.accepted ensures Backed(c, a, t.puts) { BackedLater(c, a, s, t); }
  }

  lemma StampVersion(c: Config, s: World, id: InstanceId, l: Lease, version: nat, victim: Key)
    requires VersionsOk(s)
    ensures VersionsOk(StampOn(c, s, id, l, version, victim))
    ensures StampOn(c, s, id, l, version, victim).(instances := s.instances) == s
  {
    hide Fingerprint, Room;
  }

  lemma LossOk(c: Config, s: World, key: Key, op: Op)
    requires Inv(c, s)
    ensures Inv(c, LossStep(s, key, op))
  {
    hide Inv, Sourced, Backed;
    InvParts(c, s);
    QuietOk(c, s, LossStep(s, key, op));
  }

  lemma InvParts(c: Config, s: World)
    requires Inv(c, s)
    ensures ThreadsOk(s) && VersionsOk(s)
  {
    hide Sourced, Backed, ThreadOk;
  }

  lemma StoreOk(c: Config, s: World, key: Key, op: Op)
    requires Inv(c, s)
    ensures Inv(c, StoreStep(s, key, op))
  {
    hide Inv, Sourced, Backed, MemoryUpdate;
    InvParts(c, s);
    QuietOk(c, s, StoreStep(s, key, op));
  }

  /** What is accepted while a live record matches is backed by it. */
  lemma MatchBacks(c: Config, s: World, l: Lease)
    requires Inv(c, s) && Matches(s, l)
    ensures Backed(c, Seen(s.now, l), s.puts)
  {
    hide Decode, Fingerprint;
    var r := s.truthRecord.value;
    var p :| p in s.puts && Decode(r.value).Some? && Decode(r.value).value.1 == Fingerprint(p.lease) && r.until == p.at + c.truthTtl && p.at <= s.now;
    assert p.at <= s.now < p.at + c.truthTtl;
  }

  lemma AcceptOk(c: Config, s: World, t: World, l: Lease)
    requires Inv(c, s) && Grows(s, t) && ThreadsOk(t) && VersionsOk(t) && Backed(c, Seen(s.now, l), s.puts)
    requires t.truthRecord == s.truthRecord && t.accepted <= s.accepted + {Seen(s.now, l)}
    ensures Inv(c, t)
  {
    hide Sourced, Backed, ThreadOk;
    if t.truthRecord.Some? { SourcedLater(c, s.truthRecord.value.value, s.truthRecord.value.until, s, t); }
    forall a | a in t.accepted ensures Backed(c, a, t.puts) { BackedLater(c, a, s, t); }
  }

  lemma CheckOk(c: Config, s: World, key: Key, op: Op)
    requires Inv(c, s) && (op.CheckLocal? || op.CheckCached?)
    ensures Inv(c, LookStep(c, s, key, op))
  {
    hide Inv, Sourced, Backed, Matches, ValidateFields;
    InvParts(c, s);
    var t := LookStep(c, s, key, op);
    if op.caller in s.threads && (if op.CheckLocal? then s.threads[op.caller].LocalFound? else s.threads[op.caller].CachedFound?)
       && Matches(s, s.threads[op.caller].lease) {
      MatchBacks(c, s, s.threads[op.caller].lease);
      AcceptOk(c, s, t, s.threads[op.caller].lease);
    } else {
      QuietOk(c, s, t);
    }
  }

  lemma StampCachedOk(c: Config, s: World, key: Key, op: Op)
    requires Inv(c, s) && op.StampCached?
    ensures Inv(c, LookStep(c, s, key, op))
  {
    hide Inv, Sourced, Backed, StampOn;
    InvParts(c, s);
    if op.caller in s.threads && s.threads[op.caller].Matched? {
      var t := s.threads[op.caller];
      StampVersion(c, Done(s, op.caller), t.id, t.lease, t.version, op.victim);
    }
    QuietOk(c, s, LookStep(c, s, key, op));
  }

  lemma LookOk(c: Config, s: World, key: Key, op: Op)
    requires Inv(c, s)
    ensures Inv(c, LookStep(c, s, key, op))
  {
    if op.CheckLocal? || op.CheckCached? {
      CheckOk(c, s, key, op);
    } else if op.StampCached? {
      StampCachedOk(c, s, key, op);
    } else {
      hide Inv, Sourced, Backed, Matches, StampOn, FreshStamp;
      InvParts(c, s);
      QuietOk(c, s, LookStep(c, s, key, op));
    }
  }

  lemma PutOk(c: Config, s: World, caller: Caller, key: Key)
    requires Inv(c, s) && caller in s.threads && s.threads[caller].ToPut? && c.truthTtl > 0
    ensures Inv(c, FillStep(c, s, key, PutIt(caller)))
  {
    var t, x := FillStep(c, s, key, PutIt(caller)), s.threads[caller];
    assert ThreadOk(x, s.seen, s.now);
    LeaseRecordRoundTrip(x.version, x.lease);
    hide Decode, Encode, Fingerprint, Backed;
    assert Put(x.readAt, s.now, x.lease) in t.puts;
    assert Sourced(c, t.truthRecord.value.value, t.truthRecord.value.until, t.puts, t.now);
    forall a | a in t.accepted ensures Backed(c, a, t.puts) { BackedLater(c, a, s, t); }
  }

  lemma StampItOk(c: Config, s: World, key: Key, op: Op)
    requires Inv(c, s) && op.StampIt?
    ensures Inv(c, FillStep(c, s, key, op))
  {
    hide Inv, Sourced, Backed, StampOn;
    InvParts(c, s);
    if op.caller in s.threads && s.threads[op.caller].ToStamp? {
      var t := s.threads[op.caller];
      StampVersion(c, s, t.id, t.lease, t.version, op.victim);
    }
    QuietOk(c, s, FillStep(c, s, key, op));
  }

  lemma FillOk(c: Config, s: World, key: Key, op: Op)
    requires Inv(c, s)
    ensures Inv(c, FillStep(c, s, key, op))
  {
    if op.PutIt? && op.caller in s.threads && s.threads[op.caller].ToPut? && c.truthTtl > 0 {
      PutOk(c, s, op.caller, key);
    } else if op.StampIt? {
      StampItOk(c, s, key, op);
    } else {
      hide Inv, Sourced, Backed, StampOn, CacheLease, Fingerprint;
      InvParts(c, s);
      QuietOk(c, s, FillStep(c, s, key, op));
    }
  }

  lemma {:induction false} RunOk(c: Config, start: Instant, key: Key, ops: seq<Op>)
    ensures Inv(c, Run(c, start, key, ops))
  {
    if ops != [] {
      var s, op := Run(c, start, key, ops[..|ops| - 1]), ops[|ops| - 1];
      RunOk(c, start, key, ops[..|ops| - 1]);
      hide Inv, StoreStep, LossStep, LookStep, FillStep;
      StoreOk(c, s, key, op);
      LossOk(c, s, key, op);
      LookOk(c, s, key, op);
      FillOk(c, s, key, op);
    }
  }

  // ---------- what a call saw was in the store ----------

  /** After the first i steps the store held lease e at instant e.at. */
  predicate Held(c: Config, start: Instant, key: Key, ops: seq<Op>, i: nat, e: Seen)
    requires i <= |ops|
  {
    var s := Run(c, start, key, ops[..i]); s.now == e.at && key in s.store && s.store[key] == e.lease
  }

  /** This step puts the record p, for a call that carries p.lease since p.readAt. */
  predicate Puts(c: Config, s: World, op: Op, p: Put) {
    && c.truthTtl > 0 && op.PutIt? && op.caller in s.threads && s.threads[op.caller].ToPut?
    && s.threads[op.caller].lease == p.lease && s.threads[op.caller].readAt == p.readAt && s.now == p.at
  }

  lemma LossFrame(s: World, key: Key, op: Op)
    ensures var t := LossStep(s, key, op);
            t.now >= s.now && t.store == s.store && t.seen == s.seen && t.puts == s.puts && t.accepted == s.accepted
  {
  }

  lemma LookFrame(c: Config, s: World, key: Key, op: Op)
    ensures var t := LookStep(c, s, key, op); t.now == s.now && t.store == s.store && t.seen == s.seen && t.puts == s.puts
    ensures forall a :: a in LookStep(c, s, key, op).accepted ==> a in s.accepted || !a.lease.revoked
  {
    hide Stamp, Matches, VerifyPassword, FreshStamp;
  }

  lemma FillFrame(c: Config, s: World, key: Key, op: Op)
    ensures var t := FillStep(c, s, key, op); t.now == s.now && t.store == s.store && t.accepted == s.accepted
    ensures forall e :: e in FillStep(c, s, key, op).seen ==> e in s.seen || (s.now == e.at && key in s.store && s.store[key] == e.lease)
    ensures forall p :: p in FillStep(c, s, key, op).puts ==> p in s.puts || Puts(c, s, op, p)
  {
    hide Stamp, CacheLease;
  }

  lemma StoreFrame(s: World, key: Key, op: Op)
    ensures var t := StoreStep(s, key, op);
            t.now == s.now && t.accepted == s.accepted && t.puts == s.puts
            && forall e :: e in t.seen ==> e in s.seen || (t.now == e.at && key in t.store && t.store[key] == e.lease)
  {
    hide MemoryUpdate;
  }

  /** What one step does to the clock, the store's row, and the logs. */
  lemma StepFrame(c: Config, s: World, key: Key, op: Op)
    ensures var t := Next(c, s, key, op);
            && t.now >= s.now
            && (forall e :: e in t.seen ==> e in s.seen || (s.now == e.at && key in s.store && s.store[key] == e.lease)
                                            || (t.now == e.at && key in t.store && t.store[key] == e.lease))
            && (forall p :: p in t.puts ==> p in s.puts || Puts(c, s, op, p))
            && (forall a :: a in t.accepted ==> a in s.accepted || !a.lease.revoked)
            && (!(op.Insert? || op.Swap? || op.RevokeRow? || op.DeleteRow?) ==> t.store == s.store)
  {
    hide StoreStep, LossStep, LookStep, FillStep;
    StoreFrame(s, key, op);
    LossFrame(s, key, op);
    LookFrame(c, s, key, op);
    FillFrame(c, s, key, op);
  }

  lemma {:induction false} SeenWasHeld(c: Config, start: Instant, key: Key, ops: seq<Op>, e: Seen)
    requires e in Run(c, start, key, ops).seen
    ensures exists i :: 0 <= i <= |ops| && Held(c, start, key, ops, i, e)
  {
    if ops != [] {
      var n := |ops| - 1;
      var before, op := ops[..n], ops[n];
      StepFrame(c, Run(c, start, key, before), key, op);
      assert ops[..|ops|] == ops;
      if e in Run(c, start, key, before).seen {
        hide Run, Next;
        SeenWasHeld(c, start, key, before, e);
        var i: nat :| i <= n && Held(c, start, key, before, i, e);
        assert before[..i] == ops[..i];
        assert Held(c, start, key, ops, i, e);
      } else {
        hide Next;
        assert Held(c, start, key, ops, n, e) || Held(c, start, key, ops, n + 1, e);
      }
    }
  }

  /** Step i put the record p. */
  predicate PutAt(c: Config, start: Instant, key: Key, ops: seq<Op>, i: nat, p: Put)
    requires i < |ops|
  {
    Puts(c, Run(c, start, key, ops[..i]), ops[i], p)
  }

  lemma {:induction false} PutsWereSteps(c: Config, start: Instant, key: Key, ops: seq<Op>, p: Put)
    requires p in Run(c, start, key, ops).puts
    ensures exists i :: 0 <= i < |ops| && PutAt(c, start, key, ops, i, p)
  {
    if ops != [] {
      var n := |ops| - 1;
      StepFrame(c, Run(c, start, key, ops[..n]), key, ops[n]);
      if p in Run(c, start, key, ops[..n]).puts {
        hide Run, Next, Puts;
        PutsWereSteps(c, start, key, ops[..n], p);
        var i :| 0 <= i < n && PutAt(c, start, key, ops[..n], i, p);
        assert ops[..n][..i] == ops[..i];
        assert PutAt(c, start, key, ops, i, p);
      } else {
        hide Next, Puts;
        assert PutAt(c, start, key, ops, n, p);
      }
    }
  }

  lemma CarriedWasSeen(c: Config, s: World, op: Op, p: Put)
    requires Inv(c, s) && Puts(c, s, op, p)
    ensures Seen(p.readAt, p.lease) in s.seen && p.readAt <= p.at
  {
    hide Sourced, Backed;
    assert ThreadOk(s.threads[op.caller], s.seen, s.now);
  }

  /** What was accepted at a.at rests on step i, which put a record of its fingerprint less than one TTL before, for a
      lease that the store held earlier still, after j steps. */
  predicate RestsOn(c: Config, start: Instant, key: Key, ops: seq<Op>, a: Seen, i: nat, j: nat, p: Put)
    requires j <= i < |ops|
  {
    && PutAt(c, start, key, ops, i, p) && Held(c, start, key, ops, j, Seen(p.readAt, p.lease))
    && Fingerprint(p.lease) == Fingerprint(a.lease) && p.readAt <= p.at <= a.at < p.at + c.truthTtl
  }

  lemma HeldEarlier(c: Config, start: Instant, key: Key, ops: seq<Op>, i: nat, j: nat, e: Seen)
    requires j <= i <= |ops| && Held(c, start, key, ops[..i], j, e)
    ensures Held(c, start, key, ops, j, e)
  {
    hide Run;
    assert ops[..i][..j] == ops[..j];
  }

  lemma PutWasHeld(c: Config, start: Instant, key: Key, ops: seq<Op>, i: nat, p: Put) returns (j: nat)
    requires i < |ops| && PutAt(c, start, key, ops, i, p)
    ensures j <= i && Held(c, start, key, ops, j, Seen(p.readAt, p.lease)) && p.readAt <= p.at
  {
    RunOk(c, start, key, ops[..i]);
    hide Run, Inv, Puts, Held;
    CarriedWasSeen(c, Run(c, start, key, ops[..i]), ops[i], p);
    var e := Seen(p.readAt, p.lease);
    SeenWasHeld(c, start, key, ops[..i], e);
    j :| 0 <= j <= |ops[..i]| && Held(c, start, key, ops[..i], j, e);
    HeldEarlier(c, start, key, ops, i, j, e);
  }

  /** In every interleaving, with any deletes and messages lost, a lease accepted from the cache has the fingerprint of
      a lease the store held, and its truth record was put less than one TTL before the acceptance. */
  lemma BoundedStaleness(c: Config, start: Instant, key: Key, ops: seq<Op>, a: Seen)
    requires a in Run(c, start, key, ops).accepted
    ensures exists i: nat, j: nat, p :: j <= i < |ops| && RestsOn(c, start, key, ops, a, i, j, p)
  {
    RunOk(c, start, key, ops);
    var s := Run(c, start, key, ops);
    assert Backed(c, a, s.puts) by { hide Run, Sourced, Backed, ThreadOk; }
    hide Run, Fingerprint, Sourced, Held, PutAt, Inv;
    var p :| p in s.puts && Fingerprint(p.lease) == Fingerprint(a.lease) && p.at <= a.at < p.at + c.truthTtl;
    PutsWereSteps(c, start, key, ops, p);
    var i: nat :| i < |ops| && PutAt(c, start, key, ops, i, p);
    var j := PutWasHeld(c, start, key, ops, i, p);
    assert RestsOn(c, start, key, ops, a, i, j, p);
  }

  // ---------- after a revoke ----------

  lemma {:induction false} AcceptedNotRevoked(c: Config, start: Instant, key: Key, ops: seq<Op>, a: Seen)
    requires a in Run(c, start, key, ops).accepted
    ensures !a.lease.revoked
  {
    if ops != [] {
      hide Next;
      var before := ops[..|ops| - 1];
      StepFrame(c, Run(c, start, key, before), key, ops[|ops| - 1]);
      if a in Run(c, start, key, before).accepted { AcceptedNotRevoked(c, start, key, before, a); }
    }
  }

  lemma {:induction false} ClockGrows(c: Config, start: Instant, key: Key, ops: seq<Op>, i: nat)
    requires i <= |ops|
    ensures Run(c, start, key, ops[..i]).now <= Run(c, start, key, ops).now
  {
    if i == |ops| {
      assert ops[..i] == ops;
    } else {
      var before := ops[..|ops| - 1];
      ClockGrows(c, start, key, before, i);
      assert before[..i] == ops[..i];
      StepFrame(c, Run(c, start, key, before), key, ops[|ops| - 1]);
      hide Next;
    }
  }

  predicate RowRevoked(s: World, key: Key) { key in s.store && s.store[key].revoked }

  lemma RevokedRowNext(c: Config, s: World, key: Key, op: Op)
    requires RowRevoked(s, key) && !op.DeleteRow?
    ensures RowRevoked(Next(c, s, key, op), key)
  {
    StepFrame(c, s, key, op);
    hide LossStep, LookStep, FillStep;
  }

  lemma {:induction false} RowStaysRevoked(c: Config, start: Instant, key: Key, ops: seq<Op>, n: nat)
    requires n <= |ops| && RowRevoked(Run(c, start, key, ops[..n]), key) && forall i :: n <= i < |ops| ==> !ops[i].DeleteRow?
    ensures RowRevoked(Run(c, start, key, ops), key)
  {
    if n == |ops| {
      assert ops[..n] == ops;
    } else {
      var before := ops[..|ops| - 1];
      assert before[..n] == ops[..n];
      RowStaysRevoked(c, start, key, before, n);
      RevokedRowNext(c, Run(c, start, key, before), key, ops[|ops| - 1]);
      hide Next, RowRevoked;
    }
  }

  /** A lease revoked at step n, and not deleted and created anew since, is only ever accepted from the cache on the
      word of a call that had read it by then: at most one TTL plus that call's own delay from read to put after the
      revoke, even if every invalidation of it was lost. */
  lemma RevokedNotAcceptedAfterWindow(c: Config, start: Instant, key: Key, ops: seq<Op>, n: nat, a: Seen)
    requires n < |ops| && ops[n].RevokeRow? && key in Run(c, start, key, ops[..n]).store
    requires forall i :: n < i < |ops| ==> !ops[i].DeleteRow?
    requires a in Run(c, start, key, ops).accepted
    ensures exists i: nat, j: nat, p :: j <= i < |ops| && RestsOn(c, start, key, ops, a, i, j, p)
              && var revokedAt := Run(c, start, key, ops[..n]).now;
                 p.readAt <= revokedAt && a.at < revokedAt + (p.at - p.readAt) + c.truthTtl
  {
    AcceptedNotRevoked(c, start, key, ops, a);
    BoundedStaleness(c, start, key, ops, a);
    hide Run, Fingerprint, Held, PutAt;
    var i: nat, j: nat, p :| j <= i < |ops| && RestsOn(c, start, key, ops, a, i, j, p);
    HeldAfterRevoke(c, start, key, ops, n, j, Seen(p.readAt, p.lease));
    FingerprintTellsRevoked(p.lease, a.lease);
  }

  /** So where calls that read before the revoke put their records within delay, one TTL plus delay closes the window. */
  lemma PromptPutsCloseTheWindow(c: Config, start: Instant, key: Key, ops: seq<Op>, n: nat, delay: Instant, a: Seen)
    requires n < |ops| && ops[n].RevokeRow? && key in Run(c, start, key, ops[..n]).store
    requires forall i :: n < i < |ops| ==> !ops[i].DeleteRow?
    requires forall i: nat, p :: i < |ops| && PutAt(c, start, key, ops, i, p) && p.readAt <= Run(c, start, key, ops[..n]).now
               ==> p.at <= p.readAt + delay
    requires a in Run(c, start, key, ops).accepted
    ensures a.at < Run(c, start, key, ops[..n]).now + delay + c.truthTtl
  {
    RevokedNotAcceptedAfterWindow(c, start, key, ops, n, a);
    hide Run, Fingerprint, Held, PutAt;
  }

  /** Before the revoke the clock was no later, and after it the row is revoked. */
  lemma HeldAfterRevoke(c: Config, start: Instant, key: Key, ops: seq<Op>, n: nat, i: nat, e: Seen)
    requires n < |ops| && ops[n].RevokeRow? && key in Run(c, start, key, ops[..n]).store
    requires forall j :: n < j < |ops| ==> !ops[j].DeleteRow?
    requires i <= |ops| && Held(c, start, key, ops, i, e)
    ensures e.at <= Run(c, start, key, ops[..n]).now || e.lease.revoked
  {
    hide Run;
    if i <= n {
      assert ops[..n][..i] == ops[..i];
      ClockGrows(c, start, key, ops[..n], i);
    } else {
      RevokedRowHeld(c, start, key, ops, n, i);
    }
  }

  lemma RevokedRowHeld(c: Config, start: Instant, key: Key, ops: seq<Op>, n: nat, i: nat)
    requires n < i <= |ops| && ops[n].RevokeRow? && key in Run(c, start, key, ops[..n]).store
    requires forall j :: n < j < |ops| ==> !ops[j].DeleteRow?
    ensures RowRevoked(Run(c, start, key, ops[..i]), key)
  {
    assert ops[..n + 1][..n] == ops[..n] && ops[..i][..n + 1] == ops[..n + 1];
    assert RowRevoked(Run(c, start, key, ops[..n + 1]), key);
    hide Next;
    RowStaysRevoked(c, start, key, ops[..i], n + 1);
  }

  lemma RunMore(c: Config, start: Instant, key: Key, ops: seq<Op>, op: Op)
    ensures Run(c, start, key, ops + [op]) == Next(c, Run(c, start, key, ops), key, op)
  {
    assert (ops + [op])[..|ops + [op]| - 1] == ops;
  }

  /** Caller 1 carries lease own of instance 0, whose row has been revoked since. */
  predicate Filling(s: World, key: Key, own: Lease, t: Thread) {
    && s.threads == map[1 := t] && 0 in s.instances && s.instances[0].version == 0 && KeyOf(own) == key && RowRevoked(s, key)
  }

  lemma InsertFirst(c: Config, s: World, l: Lease)
    requires s.threads == map[] && s.instances == map[0 := Instance(map[], 0)] && s.store == map[]
    ensures var t := Next(c, s, KeyOf(l), Insert(1, 0, l));
            && t.now == s.now && t.instances == s.instances && t.store == map[KeyOf(l) := l.(password := "")]
            && t.threads == map[1 := FromStore(0, 0, l.(password := ""), s.now, true)]
  {
  }

  lemma RevokeNext(c: Config, s: World, key: Key, own: Lease, t: Thread)
    requires s.store == map[key := own] && KeyOf(own) == key && s.threads == map[1 := t] && s.instances == map[0 := Instance(map[], 0)]
    ensures var u := Next(c, s, key, RevokeRow); u.now == s.now && u.instances == s.instances && Filling(u, key, own, t)
  {
  }

  lemma WaitNext(c: Config, s: World, key: Key, to: Instant)
    requires s.now <= to
    ensures Next(c, s, key, Wait(to)) == s.(now := to)
  {
  }

  lemma CacheItNext(c: Config, s: World, key: Key, own: Lease, readAt: Instant)
    requires Filling(s, key, own, FromStore(0, 0, own, readAt, true))
    ensures var t := Next(c, s, key, CacheIt(1));
            t.now == s.now && t.instances == s.instances && Filling(t, key, own, ToStamp(0, 0, own, readAt))
  {
    hide CacheLease;
  }

  /** Instance 0 has a stamp of own that is good until the instant. */
  predicate Stamped(c: Config, s: World, key: Key, own: Lease, until: Instant) {
    0 in s.instances && key in s.instances[0].stamps && s.instances[0].stamps[key].lease == own
    && s.instances[0].stamps[key].verifiedAt + c.truthTtl == until
  }

  lemma StampItNext(c: Config, s: World, key: Key, own: Lease, readAt: Instant)
    requires Filling(s, key, own, ToStamp(0, 0, own, readAt)) && c.truthTtl > 0
    ensures var t := Next(c, s, key, StampIt(1, key));
            t.now == s.now && Filling(t, key, own, ToPut(0, 0, own, readAt)) && Stamped(c, t, key, own, s.now + c.truthTtl)
  {
    hide Fingerprint, Room;
  }

  /** The shared record tells own until the instant. */
  predicate Told(s: World, own: Lease, until: Instant) {
    s.truthRecord.Some? && s.truthRecord.value.until == until
    && var d := Decode(s.truthRecord.value.value); d.Some? && d.value.1 == Fingerprint(own)
  }

  lemma PutItNext(c: Config, s: World, key: Key, own: Lease, readAt: Instant)
    requires Filling(s, key, own, ToPut(0, 0, own, readAt)) && c.truthTtl > 0
    ensures var t := Next(c, s, key, PutIt(1));
            && t.now == s.now && t.instances == s.instances && t.store == s.store && t.threads == map[]
            && Told(t, own, s.now + c.truthTtl)
  {
    LeaseRecordRoundTrip(0, own);
    hide Decode, Encode, Fingerprint;
  }

  /** A create whose lease is revoked before its call has filled the caches, at putAt. */
  function Overtaken(l: Lease, putAt: Instant): seq<Op> {
    [Start(0)] + [Insert(1, 0, l)] + [RevokeRow] + [Wait(putAt)] + [CacheIt(1)] + [StampIt(1, KeyOf(l))] + [PutIt(1)]
  }

  lemma RevokedBeforeFill(c: Config, start: Instant, l: Lease, putAt: Instant, setup: seq<Op>)
    requires start <= putAt && setup == [Start(0)] + [Insert(1, 0, l)] + [RevokeRow] + [Wait(putAt)]
    ensures var s, own := Run(c, start, KeyOf(l), setup), l.(password := "");
            s.now == putAt && Filling(s, KeyOf(l), own, FromStore(0, 0, own, start, true))
  {
    var key, own := KeyOf(l), l.(password := "");
    var o1 := [Start(0)];
    assert [] + [Start(0)] == o1;
    RunMore(c, start, key, [], Start(0));
    assert Run(c, start, key, o1) == World(start, map[], None, None, map[0 := Instance(map[], 0)], map[], {}, {}, {});
    hide Run, Next;
    RunMore(c, start, key, o1, Insert(1, 0, l));
    InsertFirst(c, Run(c, start, key, o1), l);
    var o2 := o1 + [Insert(1, 0, l)];
    RunMore(c, start, key, o2, RevokeRow);
    RevokeNext(c, Run(c, start, key, o2), key, own, FromStore(0, 0, own, start, true));
    RunMore(c, start, key, o2 + [RevokeRow], Wait(putAt));
    WaitNext(c, Run(c, start, key, o2 + [RevokeRow]), key, putAt);
  }

  lemma OvertakenFills(c: Config, start: Instant, l: Lease, putAt: Instant)
    requires c.truthTtl > 0 && start <= putAt
    ensures var s, own := Run(c, start, KeyOf(l), Overtaken(l, putAt)), l.(password := "");
            && s.now == putAt && s.threads == map[] && RowRevoked(s, KeyOf(l))
            && Stamped(c, s, KeyOf(l), own, putAt + c.truthTtl) && Told(s, own, putAt + c.truthTtl)
  {
    var key, own := KeyOf(l), l.(password := "");
    var o4 := [Start(0)] + [Insert(1, 0, l)] + [RevokeRow] + [Wait(putAt)];
    var o5, o6 := o4 + [CacheIt(1)], o4 + [CacheIt(1)] + [StampIt(1, key)];
    assert Overtaken(l, putAt) == o6 + [PutIt(1)];
    RevokedBeforeFill(c, start, l, putAt, o4);
    RunMore(c, start, key, o4, CacheIt(1));
    RunMore(c, start, key, o5, StampIt(1, key));
    RunMore(c, start, key, o6, PutIt(1));
    hide Run, Next, Told;
    CacheItNext(c, Run(c, start, key, o4), key, own, start);
    StampItNext(c, Run(c, start, key, o5), key, own, start);
    PutItNext(c, Run(c, start, key, o6), key, own, start);
  }

  lemma StampServes(c: Config, s: World, key: Key, own: Lease, until: Instant)
    requires c.truthTtl > 0 && Stamped(c, s, key, own, until) && Told(s, own, until) && s.now < until
    ensures 0 in s.instances && FreshStamp(s.instances[0], key, s.now, c) == Some(own) && Matches(s, own)
  {
    hide Decode, Fingerprint;
  }

  lemma SameMatch(s: World, t: World, l: Lease)
    requires t.truthRecord == s.truthRecord && t.now == s.now
    ensures Matches(t, l) == Matches(s, l)
  {
  }

  lemma ServedFromStamp(c: Config, s: World, key: Key, own: Lease, until: Instant, password: string, target: string)
    requires c.truthTtl > 0 && Stamped(c, s, key, own, until) && Told(s, own, until) && s.now < until
    requires RowRevoked(s, key) && s.threads == map[] && ValidateFields(c, own, password, target, s.now).Ok?
    ensures var s1 := Next(c, s, key, Begin(2, 0));
            var s2 := Next(c, s1, key, LookLocal(2));
            var s3 := Next(c, s2, key, CheckLocal(2, password, target));
            RowRevoked(s3, key) && Seen(s.now, own) in s3.accepted
  {
    StampServes(c, s, key, own, until);
    hide FreshStamp, Matches, Stamped, Told, ValidateFields, RowRevoked, StoreStep, LossStep, FillStep;
    var s1 := Next(c, s, key, Begin(2, 0));
    assert s1 == Goes(s, 2, Started(0, s.instances[0].version));
    var s2 := Next(c, s1, key, LookLocal(2));
    assert s2 == Goes(s1, 2, LocalFound(0, s.instances[0].version, own));
    SameMatch(s, s2, own);
    StepFrame(c, s, key, Begin(2, 0));
    StepFrame(c, s1, key, LookLocal(2));
    StepFrame(c, s2, key, CheckLocal(2, password, target));
    SameRow(s, s1, key);
    SameRow(s1, s2, key);
    SameRow(s2, Next(c, s2, key, CheckLocal(2, password, target)), key);
  }

  lemma SameRow(s: World, t: World, key: Key)
    requires t.store == s.store
    ensures RowRevoked(t, key) == RowRevoked(s, key)
  {
  }

  /** The window is as wide as that: a lease revoked right after its create, whose call fills the caches at putAt and
      whose revoke's invalidations are lost, is accepted at every later instant less than one TTL after putAt at which
      its fields are good. */
  lemma LostInvalidationIsServed(c: Config, start: Instant, l: Lease, putAt: Instant, at: Instant, password: string, target: string,
                                 ops: seq<Op>)
    requires start <= putAt <= at < putAt + c.truthTtl && ValidateFields(c, l.(password := ""), password, target, at).Ok?
    requires ops == Overtaken(l, putAt) + [Wait(at)] + [Begin(2, 0)] + [LookLocal(2)] + [CheckLocal(2, password, target)]
    ensures ops[2].RevokeRow? && Run(c, start, KeyOf(l), ops[..2]).now == start && KeyOf(l) in Run(c, start, KeyOf(l), ops[..2]).store
    ensures var s := Run(c, start, KeyOf(l), ops);
            RowRevoked(s, KeyOf(l)) && Seen(at, l.(password := "")) in s.accepted
  {
    var key, own := KeyOf(l), l.(password := "");
    hide *;
    OvertakenStarts(l, putAt, ops);
    RevokedAtStart(c, start, l, ops[..2]);
    OvertakenFills(c, start, l, putAt);
    var o1 := Overtaken(l, putAt);
    var s := Run(c, start, key, o1);
    RunMore(c, start, key, o1, Wait(at));
    WaitNext(c, s, key, at);
    WaitKeeps(c, s, key, own, putAt + c.truthTtl, at);
    ServedFromStamp(c, s.(now := at), key, own, putAt + c.truthTtl, password, target);
    RunThree(c, start, key, o1 + [Wait(at)], Begin(2, 0), LookLocal(2), CheckLocal(2, password, target));
  }

  lemma RunThree(c: Config, start: Instant, key: Key, ops: seq<Op>, a: Op, b: Op, d: Op)
    ensures Run(c, start, key, ops + [a] + [b] + [d]) == Next(c, Next(c, Next(c, Run(c, start, key, ops), key, a), key, b), key, d)
  {
    hide Run, Next;
    RunMore(c, start, key, ops, a);
    RunMore(c, start, key, ops + [a], b);
    RunMore(c, start, key, ops + [a] + [b], d);
  }

  lemma OvertakenStarts(l: Lease, putAt: Instant, ops: seq<Op>)
    requires Overtaken(l, putAt) <= ops
    ensures |ops| > 2 && ops[2].RevokeRow? && ops[..2] == [Start(0)] + [Insert(1, 0, l)]
  {
  }

  lemma RevokedAtStart(c: Config, start: Instant, l: Lease, setup: seq<Op>)
    requires setup == [Start(0)] + [Insert(1, 0, l)]
    ensures Run(c, start, KeyOf(l), setup).now == start && KeyOf(l) in Run(c, start, KeyOf(l), setup).store
  {
    assert [] + [Start(0)] == [Start(0)];
    RunMore(c, start, KeyOf(l), [], Start(0));
    RunMore(c, start, KeyOf(l), [Start(0)], Insert(1, 0, l));
    InsertFirst(c, Run(c, start, KeyOf(l), [Start(0)]), l);
  }

  lemma WaitKeeps(c: Config, s: World, key: Key, own: Lease, until: Instant, to: Instant)
    ensures Stamped(c, s.(now := to), key, own, until) == Stamped(c, s, key, own, until)
    ensures Told(s.(now := to), own, until) == Told(s, own, until) && RowRevoked(s.(now := to), key) == RowRevoked(s, key)
  {
  }
}
