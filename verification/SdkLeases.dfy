/** The client's sticky lease per key: reuse, else renew, else recreate, with writers of a key serialised. */
module SdkLeases {
  import opened Domain

  datatype ClientLease = ClientLease(
    leaseId: string, proxyId: string, gatewayUrl: string, username: string, password: string,
    expiresAt: Option<Instant>, renewBefore: Option<Instant>)

  datatype LeasePolicy = LeasePolicy(renewSkew: int, autoRenew: bool, autoReacquire: bool)

  predicate Usable(l: ClientLease, now: Instant, p: LeasePolicy) {
    l.leaseId != "" && (l.expiresAt.None? || l.expiresAt.value - now > p.renewSkew)
  }

  predicate ShouldRenew(l: ClientLease, now: Instant, p: LeasePolicy) {
    && l.leaseId != "" && l.expiresAt.Some? && l.expiresAt.value - now > 0
    && (if l.renewBefore.Some? then now > l.renewBefore.value else l.expiresAt.value - now <= p.renewSkew)
  }

  /** A renewal response keeps the credentials it does not repeat. */
  function KeepCredentials(renewed: ClientLease, prev: ClientLease): ClientLease {
    renewed.(password := if renewed.password == "" then prev.password else renewed.password,
             username := if renewed.username == "" then prev.username else renewed.username,
             gatewayUrl := if renewed.gatewayUrl == "" then prev.gatewayUrl else renewed.gatewayUrl)
  }

  datatype Failure = Expired | Refused

  datatype Acquired = Acquired(lease: ClientLease) | NotAcquired(why: Failure)

  /** What the cache answers: an entry with a lease id. */
  function Known(entry: Option<ClientLease>): Option<ClientLease> { if entry.Some? && entry.value.leaseId != "" then entry else None }

  function CachedLease(m: map<string, ClientLease>, key: string): Option<ClientLease> { Known(if key in m then Some(m[key]) else None) }

  datatype Way = Reuse(lease: ClientLease) | Renew(prev: ClientLease) | Refuse | Create

  /** Neither reused nor renewed: recreate, unless reacquiring is off and the cached lease is no longer usable. */
  function Otherwise(cached: Option<ClientLease>, now: Instant, p: LeasePolicy): Way {
    if !p.autoReacquire && cached.Some? && !Usable(cached.value, now, p) then Refuse else Create
  }

  /** The decision tree under the key's mutex. */
  function Decide(cached: Option<ClientLease>, force: bool, now: Instant, p: LeasePolicy): Way {
    if !force && cached.Some? && Usable(cached.value, now, p) then Reuse(cached.value)
    else if !force && cached.Some? && ShouldRenew(cached.value, now, p) && p.autoRenew then Renew(cached.value)
    else Otherwise(cached, now, p)
  }

  class Client {
    const policy: LeasePolicy
    var leases: map<string, ClientLease>

    constructor (policy: LeasePolicy)
      ensures this.policy == policy && leases == map[]
    {
      this.policy, leases := policy, map[];
    }

    /** The decision tree under the key's mutex, given what the server would answer to a renewal and to
        a create. The lease returned is the one cached afterwards. */
    method AcquireUnderLock(key: string, force: bool, now: Instant, renewal: Option<ClientLease>, creation: Option<ClientLease>)
      returns (r: Acquired)
      modifies this
      ensures var cached := CachedLease(old(leases), key);
              var first := Decide(cached, force, now, policy);
              var way := if first.Renew? && renewal.None? then Otherwise(cached, now, policy) else first;
              && (way.Reuse? ==> cached == Some(way.lease) && r == Acquired(way.lease))
              && (way.Renew? ==> cached == Some(way.prev) && r == Acquired(KeepCredentials(renewal.value, way.prev)))
              && (way.Refuse? ==> r == NotAcquired(Expired))
              && (way.Create? ==> r == if creation.Some? then Acquired(creation.value) else NotAcquired(Refused))
              && leases == if r.Acquired? then old(leases)[key := r.lease] else old(leases)
    {
      var cached := CachedLease(leases, key);
      if !force && cached.Some? {
        if Usable(cached.value, now, policy) {
          return Acquired(cached.value);
        }
        if ShouldRenew(cached.value, now, policy) && policy.autoRenew && renewal.Some? {
          var renewed := KeepCredentials(renewal.value, cached.value);
          leases := leases[key := renewed];
          return Acquired(renewed);
        }
      }
      if !policy.autoReacquire && cached.Some? && !Usable(cached.value, now, policy) {
        return NotAcquired(Expired);
      }
      if creation.None? {
        return NotAcquired(Refused);
      }
      leases := leases[key := creation.value];
      r := Acquired(creation.value);
    }
  }

  // ---------- non-forced calls for one key, step by step ----------

  type Thread = nat

  datatype Stage =
    | Outside
    | Renewing(prev: ClientLease)
    | Creating
    | Storing(lease: ClientLease)
    | Returned(r: Acquired)

  /** The cached lease of the key, the holder of its mutex, and the leases the server has created. */
  datatype State = State(cached: Option<ClientLease>, holder: Option<Thread>, threads: map<Thread, Stage>, created: seq<ClientLease>)

  datatype Op =
    | Call(t: Thread, now: Instant)
    | Lock(t: Thread, now: Instant)
    | RenewReply(t: Thread, now: Instant, reply: Option<ClientLease>)
    | CreateReply(t: Thread, reply: Option<ClientLease>)
    | Store(t: Thread)

  function Leave(s: State, t: Thread, r: Acquired): State { s.(holder := None, threads := s.threads[t := Returned(r)]) }

  /** The holder of the mutex goes the way decided: out with an answer, or on to the server. */
  function Goes(s: State, t: Thread, way: Way): State {
    match way
    case Reuse(l) => Leave(s, t, Acquired(l))
    case Renew(prev) => s.(holder := Some(t), threads := s.threads[t := Renewing(prev)])
    case Refuse => Leave(s, t, NotAcquired(Expired))
    case Create => s.(holder := Some(t), threads := s.threads[t := Creating])
  }

  function Next(s: State, op: Op, p: LeasePolicy): State {
    match op
    case Call(t, now) =>
      if t in s.threads then s
      else
        var way := Decide(Known(s.cached), false, now, p);
        s.(threads := s.threads[t := if way.Reuse? then Returned(Acquired(way.lease)) else Outside])
    case Lock(t, now) =>
      if t !in s.threads || !s.threads[t].Outside? || s.holder.Some? then s else Goes(s, t, Decide(Known(s.cached), false, now, p))
    case RenewReply(t, now, reply) =>
      if t !in s.threads || !s.threads[t].Renewing? then s
      else if reply.Some? then s.(threads := s.threads[t := Storing(KeepCredentials(reply.value, s.threads[t].prev))])
      else Goes(s, t, Otherwise(Known(s.cached), now, p))
    case CreateReply(t, reply) =>
      if t !in s.threads || !s.threads[t].Creating? then s
      else if reply.None? then Leave(s, t, NotAcquired(Refused))
      else s.(threads := s.threads[t := Storing(reply.value)], created := s.created + [reply.value])
    case Store(t) =>
      if t !in s.threads || !s.threads[t].Storing? then s
      else Leave(s, t, Acquired(s.threads[t].lease)).(cached := Some(s.threads[t].lease))
  }

  function Run(ops: seq<Op>, p: LeasePolicy): State {
    if ops == [] then State(None, None, map[], []) else Next(Run(ops[..|ops| - 1], p), ops[|ops| - 1], p)
  }

  predicate Writing(g: Stage) { g.Renewing? || g.Creating? || g.Storing? }

  ghost predicate Serial(s: State) {
    forall t :: t in s.threads && Writing(s.threads[t]) ==> s.holder == Some(t)
  }

  lemma NextSerial(s: State, op: Op, p: LeasePolicy)
    requires Serial(s)
    ensures Serial(Next(s, op, p))
  {
    hide Usable, ShouldRenew, KeepCredentials;
  }

  lemma {:induction false} RunSerial(ops: seq<Op>, p: LeasePolicy)
    ensures Serial(Run(ops, p))
  {
    if ops != [] {
      RunSerial(ops[..|ops| - 1], p);
      NextSerial(Run(ops[..|ops| - 1], p), ops[|ops| - 1], p);
      hide Serial, Next;
    }
  }

  /** In every interleaving at most one call is renewing, creating or storing. */
  lemma OneWriter(ops: seq<Op>, p: LeasePolicy, t: Thread, u: Thread)
    requires var s := Run(ops, p); t in s.threads && u in s.threads && Writing(s.threads[t]) && Writing(s.threads[u])
    ensures t == u
  {
    RunSerial(ops, p);
  }

  /** Whatever the server creates is usable at every clock reading of the run. */
  ghost predicate StaysUsable(ops: seq<Op>, p: LeasePolicy) {
    forall i, j :: 0 <= i < |ops| && 0 <= j < |ops| && ops[i].CreateReply? && ops[i].reply.Some? && (ops[j].Call? || ops[j].Lock?) ==>
      Usable(ops[i].reply.value, ops[j].now, p)
  }

  /** Every lease counted as created was some create's answer. */
  ghost predicate FromReplies(s: State, ops: seq<Op>) {
    forall l :: l in s.created ==> exists i :: 0 <= i < |ops| && ops[i].CreateReply? && ops[i].reply == Some(l)
  }

  ghost predicate Single(s: State) {
    && |s.created| <= 1
    && (s.cached.Some? ==> s.created == [s.cached.value])
    && (s.created != [] && s.cached.None? ==> s.holder.Some? && s.holder.value in s.threads && s.threads[s.holder.value].Storing?)
    && forall t :: t in s.threads ==> SingleAt(s, s.threads[t])
  }

  ghost predicate SingleAt(s: State, g: Stage) {
    && (g.Returned? && g.r.Acquired? ==> s.created == [g.r.lease] && s.cached.Some?)
    && (g.Creating? ==> s.created == [] && s.cached.None?)
    && (g.Storing? ==> s.created == [g.lease])
    && !g.Renewing?
  }

  lemma NextSingle(s: State, op: Op, p: LeasePolicy)
    requires Serial(s) && Single(s)
    requires (op.Call? || op.Lock?) && s.cached.Some? ==> Usable(s.cached.value, op.now, p)
    ensures Single(Next(s, op, p))
  {
    hide ShouldRenew, KeepCredentials;
  }

  lemma NextFromReplies(s: State, ops: seq<Op>, op: Op, p: LeasePolicy)
    requires FromReplies(s, ops)
    ensures FromReplies(Next(s, op, p), ops + [op])
  {
    var all := ops + [op];
    assert all[|ops|] == op;
    forall l | l in Next(s, op, p).created ensures exists i :: 0 <= i < |all| && all[i].CreateReply? && all[i].reply == Some(l) {
      if l in s.created {
        var i :| 0 <= i < |ops| && ops[i].CreateReply? && ops[i].reply == Some(l);
        assert all[i] == ops[i];
      }
    }
  }

  lemma {:induction false} RunSingle(ops: seq<Op>, p: LeasePolicy)
    requires StaysUsable(ops, p)
    ensures Single(Run(ops, p)) && FromReplies(Run(ops, p), ops)
  {
    if ops != [] {
      var front, op := ops[..|ops| - 1], ops[|ops| - 1];
      var s := Run(front, p);
      assert ops == front + [op];
      RunSingle(front, p);
      RunSerial(front, p);
      if (op.Call? || op.Lock?) && s.cached.Some? {
        var i :| 0 <= i < |front| && front[i].CreateReply? && front[i].reply == Some(s.cached.value);
        assert ops[i] == front[i];
      }
      NextSingle(s, op, p);
      NextFromReplies(s, front, op, p);
      hide Next, Serial;
    }
  }

  /** In every interleaving of non-forced calls on an empty cache whose created leases stay usable, at
      most one create succeeds, exactly one if any call returned a lease, and all calls return that one. */
  lemma OneCreateSucceeds(ops: seq<Op>, p: LeasePolicy, t: Thread)
    requires StaysUsable(ops, p)
    requires var s := Run(ops, p); t in s.threads && s.threads[t].Returned? && s.threads[t].r.Acquired?
    ensures Run(ops, p).created == [Run(ops, p).threads[t].r.lease]
  {
    RunSingle(ops, p);
  }

  lemma AtMostOneCreate(ops: seq<Op>, p: LeasePolicy)
    requires StaysUsable(ops, p)
    ensures |Run(ops, p).created| <= 1
  {
    RunSingle(ops, p);
  }

  // ---------- what a call is answered ----------

  lemma OneMore(ops: seq<Op>, op: Op, p: LeasePolicy)
    ensures Run(ops + [op], p) == Next(Run(ops, p), op, p)
  {
    assert (ops + [op])[..|ops|] == ops;
  }

  /** In every run a call that looks at the cache, before or under the mutex, is answered from it exactly when the cached
      lease has an id and no expiry, or one later than the skew from now; then the answer is that lease. */
  lemma ReuseMeaning(ops: seq<Op>, t: Thread, now: Instant, p: LeasePolicy, locking: bool)
    requires var s := Run(ops, p); if locking then t in s.threads && s.threads[t] == Outside && s.holder == None else t !in s.threads
    ensures var s, n := Run(ops, p), Run(ops + [if locking then Lock(t, now) else Call(t, now)], p);
            var good := s.cached.Some? && s.cached.value.leaseId != ""
                        && (s.cached.value.expiresAt == None || s.cached.value.expiresAt.value > now + p.renewSkew);
            && t in n.threads && n.cached == s.cached && n.created == s.created
            && (good <==> n.threads[t].Returned? && n.threads[t].r.Acquired?)
            && (good ==> n.threads[t] == Returned(Acquired(s.cached.value)) && n.holder == s.holder)
  {
    OneMore(ops, if locking then Lock(t, now) else Call(t, now), p);
  }

  /** Under the mutex, a cached lease that is not good any more is renewed while it has not expired and its renewal time
      has passed, or without one when the skew is reached; else the call fails if reacquiring is off, and creates otherwise. */
  lemma LockMeaning(ops: seq<Op>, t: Thread, now: Instant, p: LeasePolicy)
    requires var s := Run(ops, p); t in s.threads && s.threads[t] == Outside && s.holder == None
    requires var s := Run(ops, p); s.cached.Some? ==> s.cached.value.leaseId != "" && s.cached.value.expiresAt.Some?
                                                      && s.cached.value.expiresAt.value <= now + p.renewSkew
    ensures var s, n := Run(ops, p), Run(ops + [Lock(t, now)], p);
            if s.cached == None then n.threads[t] == Creating && n.holder == Some(t)
            else
              var l := s.cached.value;
              if p.autoRenew && now < l.expiresAt.value && (l.renewBefore.Some? ==> l.renewBefore.value < now)
              then n.threads[t] == Renewing(l) && n.holder == Some(t)
              else if p.autoReacquire then n.threads[t] == Creating && n.holder == Some(t)
              else n.threads[t] == Returned(NotAcquired(Expired)) && n.holder == None
  {
    OneMore(ops, Lock(t, now), p);
  }

  /** A forced call never reuses or renews: it creates, unless reacquiring is off and the cached lease is no longer good. */
  lemma ForcedMeaning(m: map<string, ClientLease>, key: string, now: Instant, p: LeasePolicy)
    ensures var spent := key in m && m[key].leaseId != "" && m[key].expiresAt.Some? && m[key].expiresAt.value <= now + p.renewSkew;
            Decide(CachedLease(m, key), true, now, p) == if spent && !p.autoReacquire then Refuse else Create
  {
  }

  /** A renewed lease is the server's answer, with the former password, user name and gateway where it names none. */
  lemma RenewedMeaning(ops: seq<Op>, t: Thread, now: Instant, reply: ClientLease, p: LeasePolicy)
    requires var s := Run(ops, p); t in s.threads && s.threads[t].Renewing?
    ensures var prev, n := Run(ops, p).threads[t].prev, Run(ops + [RenewReply(t, now, Some(reply))] + [Store(t)], p);
            && n.holder == None && n.cached.Some? && t in n.threads && n.threads[t] == Returned(Acquired(n.cached.value))
            && var l := n.cached.value;
               && l.leaseId == reply.leaseId && l.proxyId == reply.proxyId && l.expiresAt == reply.expiresAt && l.renewBefore == reply.renewBefore
               && l.password == (if reply.password != "" then reply.password else prev.password)
               && l.username == (if reply.username != "" then reply.username else prev.username)
               && l.gatewayUrl == (if reply.gatewayUrl != "" then reply.gatewayUrl else prev.gatewayUrl)
  {
    OneMore(ops, RenewReply(t, now, Some(reply)), p);
    OneMore(ops + [RenewReply(t, now, Some(reply))], Store(t), p);
    hide Run;
  }
}
