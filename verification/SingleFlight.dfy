/** The short-lived cache in front of the default policy and of the selectable proxies: lookups that
    miss share one store read per epoch, and an admin change starts a new epoch. */
module SingleFlight {
  import opened Domain

  datatype Reply<+V> = Got(value: V) | Failed

  datatype Entry<+V> = Entry(value: V, expiresAt: Instant)

  /** A flight: the epoch it began in, its reply once finished, and how often it was closed. */
  datatype Call<+V> = Call(epoch: nat, reply: Option<Reply<V>>, closes: nat)

  /** Flights are identified by their position; current is the one new lookups may join. */
  datatype Cache<+V> = Cache(entry: Option<Entry<V>>, calls: seq<Call<V>>, current: Option<nat>, epoch: nat)

  datatype Turn<+V> = Hit(value: V) | Join(call: nat) | Own(call: nat)

  /** The two uses differ in which values they keep: the policy cache stores any and serves those with
      an id, the proxy cache stores and serves non-empty lists. */
  datatype Rules<!V> = Rules(ttl: int, keeps: V -> bool, serves: V -> bool)

  function LookupIn<V>(c: Cache<V>, rules: Rules<V>, now: Instant): Option<V> {
    if c.entry.Some? && rules.serves(c.entry.value.value) && c.entry.value.expiresAt > now then Some(c.entry.value.value) else None
  }

  predicate Joinable<V>(c: Cache<V>, id: nat) { c.current == Some(id) && id < |c.calls| && c.calls[id].epoch == c.epoch }

  function Begun<V>(c: Cache<V>, rules: Rules<V>, now: Instant): (Cache<V>, Turn<V>) {
    var hit := LookupIn(c, rules, now);
    if hit.Some? then (c, Hit(hit.value))
    else if c.current.Some? && Joinable(c, c.current.value) then (c, Join(c.current.value))
    else (c.(calls := c.calls + [Call(c.epoch, None, 0)], current := Some(|c.calls|)), Own(|c.calls|))
  }

  function Finished<V>(c: Cache<V>, rules: Rules<V>, now: Instant, id: nat, reply: Reply<V>): Cache<V>
    requires id < |c.calls|
  {
    var call := c.calls[id];
    Cache(if reply.Got? && rules.keeps(reply.value) && c.epoch == call.epoch then Some(Entry(reply.value, now + rules.ttl)) else c.entry,
          c.calls[id := Call(call.epoch, Some(reply), call.closes + 1)],
          if c.current == Some(id) then None else c.current,
          c.epoch)
  }

  function Cleared<V>(c: Cache<V>): Cache<V> { c.(epoch := c.epoch + 1, entry := None) }

  class LookupCache<V> {
    const rules: Rules<V>
    var entry: Option<Entry<V>>
    var calls: seq<Call<V>>
    var current: Option<nat>
    var epoch: nat

    ghost function View(): Cache<V> reads this { Cache(entry, calls, current, epoch) }

    constructor (rules: Rules<V>)
      ensures View() == Cache(None, [], None, 0) && this.rules == rules
    {
      this.rules, entry, calls, current, epoch := rules, None, [], None, 0;
    }

    method Lookup(now: Instant) returns (hit: Option<V>)
      ensures hit == LookupIn(View(), rules, now)
    {
      if entry.None? || !rules.serves(entry.value.value) || !(entry.value.expiresAt > now) {
        return None;
      }
      hit := Some(entry.value.value);
    }

    method Begin(now: Instant) returns (turn: Turn<V>)
      modifies this
      ensures (View(), turn) == Begun(old(View()), rules, now)
    {
      if entry.Some? && rules.serves(entry.value.value) && entry.value.expiresAt > now {
        return Hit(entry.value.value);
      }
      if current.Some? && current.value < |calls| && calls[current.value].epoch == epoch {
        return Join(current.value);
      }
      turn := Own(|calls|);
      current := Some(|calls|);
      calls := calls + [Call(epoch, None, 0)];
    }

    method Finish(now: Instant, id: nat, reply: Reply<V>)
      requires id < |calls|
      modifies this
      ensures View() == Finished(old(View()), rules, now, id, reply)
    {
      calls := calls[id := calls[id].(reply := Some(reply))];
      if reply.Got? && rules.keeps(reply.value) && epoch == calls[id].epoch {
        entry := Some(Entry(reply.value, now + rules.ttl));
      }
      if current == Some(id) {
        current := None;
      }
      calls := calls[id := calls[id].(closes := calls[id].closes + 1)];
    }

    method Clear()
      modifies this
      ensures View() == Cleared(old(View()))
    {
      epoch := epoch + 1;
      entry := None;
    }
  }

  // ---------- any number of lookups and admin changes, step by step ----------

  /** A store value together with the number of admin changes before it. */
  datatype Snapshot<+T> = Snapshot(version: nat, value: T)

  datatype Stage<+T> =
    | Started
    | Owner(call: nat)
    | Loaded(call: nat, reply: Reply<Snapshot<T>>)
    | Waiting(call: nat)
    | Done(reply: Reply<Snapshot<T>>)
    | Cancelled

  /** A lookup: its clock reading and the last admin change cleared before it began. */
  datatype Lookup<+T> = Lookup(now: Instant, floor: nat, stage: Stage<T>)

  type Thread = nat

  /** history holds every value the store has had; floor is the last change whose clear has run;
      floors gives each flight the floor it began at. */
  datatype State<+T> = State(
    history: seq<T>, cache: Cache<Snapshot<T>>, floor: nat, floors: seq<nat>,
    lookups: map<Thread, Lookup<T>>, changes: map<Thread, nat>)

  datatype Op<+T> =
    | Start(t: Thread, now: Instant) | Begin(t: Thread) | ReadStore(t: Thread, fails: bool) | Finish(t: Thread)
    | Wake(t: Thread) | Cancel(t: Thread) | Change(t: Thread, value: T) | Clear(t: Thread)

  predicate At<T>(s: State<T>, t: Thread, stage: Stage<T> -> bool) { t in s.lookups && stage(s.lookups[t].stage) }

  function Moved<T>(s: State<T>, t: Thread, stage: Stage<T>): State<T>
    requires t in s.lookups
  {
    s.(lookups := s.lookups[t := s.lookups[t].(stage := stage)])
  }

  function Next<T>(s: State<T>, op: Op<T>, rules: Rules<Snapshot<T>>): State<T> {
    match op
    case Start(t, now) =>
      var hit := LookupIn(s.cache, rules, now);
      if t in s.lookups then s
      else s.(lookups := s.lookups[t := Lookup(now, s.floor, if hit.Some? then Done(Got(hit.value)) else Started)])
    case Begin(t) =>
      if !At(s, t, (g: Stage<T>) => g.Started?) then s
      else
        var (cache, turn) := Begun(s.cache, rules, s.lookups[t].now);
        (match turn
         case Hit(v) => Moved(s, t, Done(Got(v)))
         case Join(id) => Moved(s, t, Waiting(id))
         case Own(id) => Moved(s, t, Owner(id)).(cache := cache, floors := s.floors + [s.floor]))
    case ReadStore(t, fails) =>
      if !At(s, t, (g: Stage<T>) => g.Owner?) || s.history == [] then s
      else
        var v := |s.history| - 1;
        Moved(s, t, Loaded(s.lookups[t].stage.call, if fails then Failed else Got(Snapshot(v, s.history[v]))))
    case Finish(t) =>
      if !At(s, t, (g: Stage<T>) => g.Loaded? && g.call < |s.cache.calls|) then s
      else
        var g := s.lookups[t].stage;
        Moved(s, t, Done(g.reply)).(cache := Finished(s.cache, rules, s.lookups[t].now, g.call, g.reply))
    case Wake(t) =>
      if !At(s, t, (g: Stage<T>) => g.Waiting? && g.call < |s.cache.calls| && s.cache.calls[g.call].reply.Some?) then s
      else Moved(s, t, Done(s.cache.calls[s.lookups[t].stage.call].reply.value))
    case Cancel(t) => if At(s, t, (g: Stage<T>) => g.Waiting?) then Moved(s, t, Cancelled) else s
    case Change(t, v) => s.(history := s.history + [v], changes := s.changes[t := |s.history|])
    case Clear(t) =>
      if t !in s.changes then s
      else s.(cache := Cleared(s.cache), changes := s.changes - {t}, floor := if s.changes[t] > s.floor then s.changes[t] else s.floor)
  }

  function Initial<T>(first: T): State<T> { State([first], Cache(None, [], None, 0), 0, [], map[], map[]) }

  function Run<T>(first: T, ops: seq<Op<T>>, rules: Rules<Snapshot<T>>): State<T> {
    if ops == [] then Initial(first) else Next(Run(first, ops[..|ops| - 1], rules), ops[|ops| - 1], rules)
  }

  /** A reply that is a value the store really had, no older than the given change. */
  ghost predicate Since<T>(s: State<T>, reply: Reply<Snapshot<T>>, floor: nat) {
    reply.Got? ==> floor <= reply.value.version < |s.history| && reply.value.value == s.history[reply.value.version]
  }

  predicate OwnsCall<T>(g: Stage<T>, id: nat) { (g.Owner? || g.Loaded?) && g.call == id }

  /** Store and admin side: clears never run ahead of changes. */
  ghost predicate StoreOk<T>(s: State<T>) {
    && s.floor < |s.history| && |s.floors| == |s.cache.calls|
    && (forall t :: t in s.changes ==> s.changes[t] < |s.history|)
    && (s.cache.entry.Some? ==> Since(s, Got(s.cache.entry.value.value), s.floor))
  }

  /** Flights: the floor of a flight of the present epoch is the present floor, an unfinished one of the
      present epoch is the joinable one, and a finished one was closed once with a fresh enough reply. */
  ghost predicate CallOk<T>(s: State<T>, id: nat)
    requires id < |s.floors| == |s.cache.calls|
  {
    var call := s.cache.calls[id];
    && call.epoch <= s.cache.epoch && s.floors[id] <= s.floor
    && (call.epoch == s.cache.epoch ==> s.floors[id] == s.floor)
    && call.closes == (if call.reply.Some? then 1 else 0)
    && (call.reply.Some? ==> Since(s, call.reply.value, s.floors[id]))
    && (call.reply.None? && call.epoch == s.cache.epoch ==> s.cache.current == Some(id))
    && (s.cache.current == Some(id) ==> call.reply.None?)
  }

  /** Lookups: whatever they hold or wait for is at least as fresh as their floor; an owner's flight is unfinished. */
  ghost predicate LookupOk<T>(s: State<T>, t: Thread)
    requires t in s.lookups && |s.floors| == |s.cache.calls|
  {
    var l := s.lookups[t];
    && l.floor <= s.floor
    && (l.stage.Done? ==> Since(s, l.stage.reply, l.floor))
    && (l.stage.Owner? || l.stage.Loaded? || l.stage.Waiting? ==>
          l.stage.call < |s.floors| && l.floor <= s.floors[l.stage.call])
    && (l.stage.Owner? || l.stage.Loaded? ==> s.cache.calls[l.stage.call].reply.None?)
    && (l.stage.Loaded? ==> Since(s, l.stage.reply, s.floors[l.stage.call]))
  }

  ghost predicate Ok<T>(s: State<T>) {
    && StoreOk(s)
    && (forall id :: 0 <= id < |s.cache.calls| ==> CallOk(s, id))
    && (forall t :: t in s.lookups ==> LookupOk(s, t))
    && (forall t, u, id :: t in s.lookups && u in s.lookups && OwnsCall(s.lookups[t].stage, id) && OwnsCall(s.lookups[u].stage, id) ==> t == u)
  }

  lemma MovedOk<T>(s: State<T>, t: Thread, stage: Stage<T>)
    requires Ok(s) && t in s.lookups
    requires LookupOk(Moved(s, t, stage), t)
    requires stage.Owner? || stage.Loaded? ==> OwnsCall(s.lookups[t].stage, stage.call)
    ensures Ok(Moved(s, t, stage))
  {
    var n := Moved(s, t, stage);
    forall id | 0 <= id < |n.cache.calls| ensures CallOk(n, id) { assert CallOk(s, id); }
    forall u | u in n.lookups ensures LookupOk(n, u) {
      if u != t { assert LookupOk(s, u); }
    }
  }

  lemma AddedLookupOk<T>(s: State<T>, t: Thread, l: Lookup<T>)
    requires Ok(s) && t !in s.lookups && l.floor == s.floor
    requires l.stage.Started? || (l.stage.Done? && Since(s, l.stage.reply, l.floor))
    ensures Ok(s.(lookups := s.lookups[t := l]))
  {
    var n := s.(lookups := s.lookups[t := l]);
    forall id | 0 <= id < |n.cache.calls| ensures CallOk(n, id) { assert CallOk(s, id); }
    forall u | u in n.lookups ensures LookupOk(n, u) {
      if u != t { assert LookupOk(s, u); }
    }
  }

  lemma StartOk<T>(s: State<T>, t: Thread, now: Instant, rules: Rules<Snapshot<T>>)
    requires Ok(s)
    ensures Ok(Next(s, Start(t, now), rules))
  {
    if t !in s.lookups {
      AddedLookupOk(s, t, Next(s, Start(t, now), rules).lookups[t]);
    }
  }

  lemma OwnOk<T>(s: State<T>, t: Thread, rules: Rules<Snapshot<T>>)
    requires Ok(s) && t in s.lookups && s.lookups[t].stage.Started?
    requires Begun(s.cache, rules, s.lookups[t].now).1.Own?
    ensures Ok(Next(s, Begin(t), rules))
  {
    var n := Next(s, Begin(t), rules);
    forall id | 0 <= id < |n.cache.calls| ensures CallOk(n, id) {
      if id < |s.cache.calls| { assert CallOk(s, id); }
    }
    forall u | u in n.lookups ensures LookupOk(n, u) { assert LookupOk(s, u); }
  }

  lemma BeginOk<T>(s: State<T>, t: Thread, rules: Rules<Snapshot<T>>)
    requires Ok(s)
    ensures Ok(Next(s, Begin(t), rules))
  {
    if t in s.lookups && s.lookups[t].stage.Started? {
      assert LookupOk(s, t);
      match Begun(s.cache, rules, s.lookups[t].now).1
      case Hit(v) => MovedOk(s, t, Done(Got(v)));
      case Join(id) =>
        assert CallOk(s, id);
        MovedOk(s, t, Waiting(id));
      case Own(id) => OwnOk(s, t, rules);
    }
  }

  lemma ReadOk<T>(s: State<T>, t: Thread, fails: bool, rules: Rules<Snapshot<T>>)
    requires Ok(s)
    ensures Ok(Next(s, ReadStore(t, fails), rules))
  {
    if t in s.lookups && s.lookups[t].stage.Owner? {
      assert LookupOk(s, t);
      var id, v := s.lookups[t].stage.call, |s.history| - 1;
      assert CallOk(s, id);
      MovedOk(s, t, Loaded(id, if fails then Failed else Got(Snapshot(v, s.history[v]))));
    }
  }

  lemma FinishKeepsCall<T>(s: State<T>, t: Thread, rules: Rules<Snapshot<T>>, id: nat)
    requires Ok(s) && t in s.lookups && s.lookups[t].stage.Loaded? && id < |s.cache.calls|
    ensures var n := Next(s, Finish(t), rules); id < |n.floors| == |n.cache.calls| && CallOk(n, id)
  {
    assert LookupOk(s, t) && CallOk(s, id) && CallOk(s, s.lookups[t].stage.call);
  }

  lemma FinishKeepsLookup<T>(s: State<T>, t: Thread, rules: Rules<Snapshot<T>>, u: Thread)
    requires Ok(s) && t in s.lookups && s.lookups[t].stage.Loaded? && u in s.lookups
    ensures var n := Next(s, Finish(t), rules); u in n.lookups && |n.floors| == |n.cache.calls| && LookupOk(n, u)
  {
    var mine := s.lookups[t].stage.call;
    assert LookupOk(s, t) && LookupOk(s, u) && OwnsCall(s.lookups[t].stage, mine);
    assert u != t ==> !OwnsCall(s.lookups[u].stage, mine);
  }

  lemma FinishOk<T>(s: State<T>, t: Thread, rules: Rules<Snapshot<T>>)
    requires Ok(s)
    ensures Ok(Next(s, Finish(t), rules))
  {
    hide CallOk, LookupOk;
    var n := Next(s, Finish(t), rules);
    if t in s.lookups && s.lookups[t].stage.Loaded? && s.lookups[t].stage.call < |s.cache.calls| {
      forall id | 0 <= id < |n.cache.calls| ensures CallOk(n, id) { FinishKeepsCall(s, t, rules, id); }
      forall u | u in n.lookups ensures LookupOk(n, u) { FinishKeepsLookup(s, t, rules, u); }
      FinishKeepsEntry(s, t, rules);
    }
  }

  lemma FinishKeepsEntry<T>(s: State<T>, t: Thread, rules: Rules<Snapshot<T>>)
    requires Ok(s) && t in s.lookups && s.lookups[t].stage.Loaded?
    ensures StoreOk(Next(s, Finish(t), rules))
  {
    assert LookupOk(s, t) && CallOk(s, s.lookups[t].stage.call);
  }

  lemma WakeOk<T>(s: State<T>, t: Thread, rules: Rules<Snapshot<T>>)
    requires Ok(s)
    ensures Ok(Next(s, Wake(t), rules)) && Ok(Next(s, Cancel(t), rules))
  {
    if t in s.lookups && s.lookups[t].stage.Waiting? {
      assert LookupOk(s, t);
      var call := s.lookups[t].stage.call;
      assert CallOk(s, call);
      if s.cache.calls[call].reply.Some? { MovedOk(s, t, Done(s.cache.calls[call].reply.value)); }
      MovedOk(s, t, Cancelled);
    }
  }

  lemma AdminOk<T>(s: State<T>, op: Op<T>, rules: Rules<Snapshot<T>>)
    requires Ok(s) && (op.Change? || op.Clear?)
    ensures Ok(Next(s, op, rules))
  {
    var n := Next(s, op, rules);
    forall id | 0 <= id < |n.cache.calls| ensures CallOk(n, id) { assert CallOk(s, id); }
    forall u | u in n.lookups ensures LookupOk(n, u) { assert LookupOk(s, u); }
  }

  lemma NextOk<T>(s: State<T>, op: Op<T>, rules: Rules<Snapshot<T>>)
    requires Ok(s)
    ensures Ok(Next(s, op, rules))
  {
    hide Ok, Next;
    match op
    case Start(t, now) => StartOk(s, t, now, rules);
    case Begin(t) => BeginOk(s, t, rules);
    case ReadStore(t, fails) => ReadOk(s, t, fails, rules);
    case Finish(t) => FinishOk(s, t, rules);
    case Wake(t) => WakeOk(s, t, rules);
    case Cancel(t) => WakeOk(s, t, rules);
    case Change(_, _) => AdminOk(s, op, rules);
    case Clear(_) => AdminOk(s, op, rules);
  }

  lemma {:induction false} RunOk<T>(first: T, ops: seq<Op<T>>, rules: Rules<Snapshot<T>>)
    ensures Ok(Run(first, ops, rules))
  {
    if ops != [] {
      RunOk(first, ops[..|ops| - 1], rules);
      NextOk(Run(first, ops[..|ops| - 1], rules), ops[|ops| - 1], rules);
      hide Ok, Next;
    }
  }

  lemma NextKeepsFloor<T>(s: State<T>, op: Op<T>, t: Thread, rules: Rules<Snapshot<T>>)
    requires t in s.lookups
    ensures t in Next(s, op, rules).lookups && Next(s, op, rules).lookups[t].floor == s.lookups[t].floor
  {
  }

  lemma StartSetsFloor<T>(s: State<T>, t: Thread, now: Instant, rules: Rules<Snapshot<T>>)
    requires t !in s.lookups
    ensures var n := Next(s, Start(t, now), rules); t in n.lookups && n.lookups[t].floor == s.floor
  {
  }

  lemma RunMore<T>(first: T, ops: seq<Op<T>>, op: Op<T>, rules: Rules<Snapshot<T>>)
    ensures Run(first, ops + [op], rules) == Next(Run(first, ops, rules), op, rules)
  {
    hide Next;
    assert (ops + [op])[..|ops|] == ops;
  }

  lemma {:induction false} KeepsFloor<T>(first: T, before: seq<Op<T>>, t: Thread, now: Instant, after: seq<Op<T>>, rules: Rules<Snapshot<T>>)
    requires t !in Run(first, before, rules).lookups
    ensures var s, u := Run(first, before, rules), Run(first, before + [Start(t, now)] + after, rules);
            t in u.lookups && u.lookups[t].floor == s.floor
    decreases |after|
  {
    hide *;
    var started := before + [Start(t, now)];
    if after == [] {
      RunMore(first, before, Start(t, now), rules);
      StartSetsFloor(Run(first, before, rules), t, now, rules);
      assert started + [] == started;
    } else {
      var front, op := after[..|after| - 1], after[|after| - 1];
      KeepsFloor(first, before, t, now, front, rules);
      RunMore(first, started + front, op, rules);
      NextKeepsFloor(Run(first, started + front, rules), op, t, rules);
      assert started + after == started + front + [op];
    }
  }

  lemma FloorNeverFalls<T>(s: State<T>, op: Op<T>, rules: Rules<Snapshot<T>>)
    ensures Next(s, op, rules).floor >= s.floor
    ensures op.Clear? && op.t in s.changes ==> Next(s, op, rules).floor >= s.changes[op.t]
  {
  }

  /** The floor is the latest change whose clear has run: it never falls, and a clear raises it to its change. */
  lemma {:induction false} FloorCoversClears<T>(first: T, ops: seq<Op<T>>, admin: Thread, more: seq<Op<T>>, rules: Rules<Snapshot<T>>)
    requires admin in Run(first, ops, rules).changes
    ensures Run(first, ops + [Clear(admin)] + more, rules).floor >= Run(first, ops, rules).changes[admin]
    decreases |more|
  {
    hide Next;
    var all := ops + [Clear(admin)] + more;
    var front := all[..|all| - 1];
    FloorNeverFalls(Run(first, front, rules), all[|all| - 1], rules);
    if more == [] {
      assert front == ops;
    } else {
      assert front == ops + [Clear(admin)] + more[..|more| - 1];
      FloorCoversClears(first, ops, admin, more[..|more| - 1], rules);
    }
  }

  /** Read your writes: in every interleaving, a lookup that begins after an admin change has cleared the
      cache answers with a value the store had after that change. */
  lemma ReadsYourWrites<T>(first: T, ops: seq<Op<T>>, admin: Thread, more: seq<Op<T>>, t: Thread, now: Instant,
                           after: seq<Op<T>>, rules: Rules<Snapshot<T>>)
    requires admin in Run(first, ops, rules).changes
    requires t !in Run(first, ops + [Clear(admin)] + more, rules).lookups
    ensures var u := Run(first, ops + [Clear(admin)] + more + [Start(t, now)] + after, rules);
            && t in u.lookups
            && (u.lookups[t].stage.Done? ==> Since(u, u.lookups[t].stage.reply, Run(first, ops, rules).changes[admin]))
  {
    hide Run;
    var before := ops + [Clear(admin)] + more;
    FloorCoversClears(first, ops, admin, more, rules);
    KeepsFloor(first, before, t, now, after, rules);
    RunOk(first, before + [Start(t, now)] + after, rules);
    assert LookupOk(Run(first, before + [Start(t, now)] + after, rules), t);
  }

  /** Single flight: at most one unfinished flight belongs to the present epoch, and it is the one new
      lookups join; no lookup joins a finished flight; a flight is closed exactly once, by its one owner. */
  lemma OneFlightPerEpoch<T>(first: T, ops: seq<Op<T>>, rules: Rules<Snapshot<T>>, a: nat, b: nat)
    requires var c := Run(first, ops, rules).cache;
             a < |c.calls| && b < |c.calls| && c.calls[a].reply.None? && c.calls[a].epoch == c.epoch
    ensures var c := Run(first, ops, rules).cache;
            && Joinable(c, a)
            && (c.calls[b].reply.None? && c.calls[b].epoch == c.epoch ==> a == b)
            && (Joinable(c, b) ==> a == b)
  {
    RunOk(first, ops, rules);
    assert CallOk(Run(first, ops, rules), a) && CallOk(Run(first, ops, rules), b);
  }

  lemma FlightsCloseOnce<T>(first: T, ops: seq<Op<T>>, rules: Rules<Snapshot<T>>, id: nat)
    requires id < |Run(first, ops, rules).cache.calls|
    ensures var c := Run(first, ops, rules).cache;
            && c.calls[id].closes == (if c.calls[id].reply.Some? then 1 else 0)
            && (Joinable(c, id) ==> c.calls[id].reply.None?)
  {
    RunOk(first, ops, rules);
    assert CallOk(Run(first, ops, rules), id);
  }

  // ---------- what is served, kept and joined ----------

  /** Some lookup loaded the entry's value, and its time runs from that lookup's clock reading. */
  ghost predicate EntryLoaded<T>(s: State<T>, rules: Rules<Snapshot<T>>) {
    s.cache.entry.Some? ==>
      var e := s.cache.entry.value;
      rules.keeps(e.value) && exists u :: u in s.lookups && s.lookups[u].stage == Done(Got(e.value)) && e.expiresAt == s.lookups[u].now + rules.ttl
  }

  lemma EntryNext<T>(s: State<T>, op: Op<T>, rules: Rules<Snapshot<T>>)
    requires EntryLoaded(s, rules)
    ensures EntryLoaded(Next(s, op, rules), rules)
  {
    var n := Next(s, op, rules);
    if s.cache.entry.Some? && n.cache.entry == s.cache.entry {
      var e := s.cache.entry.value;
      var u :| u in s.lookups && s.lookups[u].stage == Done(Got(e.value)) && e.expiresAt == s.lookups[u].now + rules.ttl;
      assert u in n.lookups && n.lookups[u] == s.lookups[u];
    } else if n.cache.entry.Some? {
      assert op.Finish? && op.t in n.lookups && n.lookups[op.t].stage == Done(Got(n.cache.entry.value.value));
    }
  }

  lemma {:induction false} RunEntryLoaded<T>(first: T, ops: seq<Op<T>>, rules: Rules<Snapshot<T>>)
    ensures EntryLoaded(Run(first, ops, rules), rules)
  {
    if ops != [] {
      RunEntryLoaded(first, ops[..|ops| - 1], rules);
      hide EntryLoaded, Next;
      EntryNext(Run(first, ops[..|ops| - 1], rules), ops[|ops| - 1], rules);
    }
  }

  /** In every interleaving a lookup is answered at once exactly from an entry that the rules serve and whose time is not
      up; the value was loaded by a lookup whose clock reading is less than the TTL before its own. */
  lemma ServedMeaning<T>(first: T, ops: seq<Op<T>>, t: Thread, now: Instant, rules: Rules<Snapshot<T>>)
    requires t !in Run(first, ops, rules).lookups
    ensures var s, n := Run(first, ops, rules), Run(first, ops + [Start(t, now)], rules);
            && t in n.lookups && n.lookups[t].now == now && n.cache == s.cache
            && (if s.cache.entry.Some? && rules.serves(s.cache.entry.value.value) && now < s.cache.entry.value.expiresAt
                then n.lookups[t].stage == Done(Got(s.cache.entry.value.value))
                     && exists u :: u in s.lookups && s.lookups[u].stage == n.lookups[t].stage && now < s.lookups[u].now + rules.ttl
                else n.lookups[t].stage == Started)
  {
    RunEntryLoaded(first, ops, rules);
    RunMore(first, ops, Start(t, now), rules);
    hide Run;
  }

  /** A loaded value is kept, from its lookup's clock reading for the TTL, exactly when it was read without error, the
      rules keep it and no clear has come since its flight began; the flight is closed with it either way. */
  lemma KeptMeaning<T>(first: T, ops: seq<Op<T>>, t: Thread, rules: Rules<Snapshot<T>>)
    requires var s := Run(first, ops, rules); t in s.lookups && s.lookups[t].stage.Loaded?
    ensures var s, n := Run(first, ops, rules), Run(first, ops + [Finish(t)], rules);
            var g := s.lookups[t].stage;
            && g.call < |s.cache.calls| == |n.cache.calls| && t in n.lookups && n.lookups[t].stage == Done(g.reply)
            && n.cache.calls[g.call].reply == Some(g.reply) && n.cache.epoch == s.cache.epoch && n.cache.current != Some(g.call)
            && n.cache.entry == if g.reply.Got? && rules.keeps(g.reply.value) && s.cache.calls[g.call].epoch == s.cache.epoch
                                then Some(Entry(g.reply.value, s.lookups[t].now + rules.ttl)) else s.cache.entry
  {
    hide *;
    RunOk(first, ops, rules);
    RunMore(first, ops, Finish(t), rules);
    OwnsFlight(Run(first, ops, rules), t);
    FinishMeaning(Run(first, ops, rules), t, rules);
  }

  lemma OwnsFlight<T>(s: State<T>, t: Thread)
    requires Ok(s) && t in s.lookups && s.lookups[t].stage.Loaded?
    ensures s.lookups[t].stage.call < |s.cache.calls|
  {
    assert LookupOk(s, t);
  }

  lemma FinishMeaning<T>(s: State<T>, t: Thread, rules: Rules<Snapshot<T>>)
    requires t in s.lookups && s.lookups[t].stage.Loaded? && s.lookups[t].stage.call < |s.cache.calls|
    ensures var n, g := Next(s, Finish(t), rules), s.lookups[t].stage;
            && |s.cache.calls| == |n.cache.calls| && t in n.lookups && n.lookups[t].stage == Done(g.reply)
            && n.cache.calls[g.call].reply == Some(g.reply) && n.cache.epoch == s.cache.epoch && n.cache.current != Some(g.call)
            && n.cache.entry == if g.reply.Got? && rules.keeps(g.reply.value) && s.cache.calls[g.call].epoch == s.cache.epoch
                                then Some(Entry(g.reply.value, s.lookups[t].now + rules.ttl)) else s.cache.entry
  {
  }

  /** A flight of the present epoch that has no reply yet. */
  predicate Unfinished<T>(c: Cache<T>, id: nat) { id < |c.calls| && c.calls[id].epoch == c.epoch && c.calls[id].reply.None? }

  /** A lookup that is not served waits for the unfinished flight of the present epoch, if there is one, and else opens one. */
  lemma JoinMeaning<T>(first: T, ops: seq<Op<T>>, t: Thread, a: nat, rules: Rules<Snapshot<T>>)
    requires var s := Run(first, ops, rules);
             && t in s.lookups && s.lookups[t].stage.Started?
             && (s.cache.entry.Some? && rules.serves(s.cache.entry.value.value) ==> s.cache.entry.value.expiresAt <= s.lookups[t].now)
    ensures var s, n := Run(first, ops, rules), Run(first, ops + [Begin(t)], rules);
            && t in n.lookups
            && (Unfinished(s.cache, a) ==> n.lookups[t].stage == Waiting(a) && n.cache == s.cache)
            && ((forall b :: !Unfinished(s.cache, b)) ==>
                  n.lookups[t].stage == Owner(|s.cache.calls|) && n.cache.calls == s.cache.calls + [Call(s.cache.epoch, None, 0)])
  {
    var s := Run(first, ops, rules);
    RunOk(first, ops, rules);
    RunMore(first, ops, Begin(t), rules);
    if Unfinished(s.cache, a) { OneFlightPerEpoch(first, ops, rules, a, a); }
    if s.cache.current.Some? && s.cache.current.value < |s.cache.calls| {
      assert CallOk(s, s.cache.current.value);
      assert Joinable(s.cache, s.cache.current.value) ==> Unfinished(s.cache, s.cache.current.value);
    }
    hide Run, Ok;
  }

  /** A change adds its value to the store's history and is remembered until its clear; the clear empties the cache and
      starts the next epoch, and leaves flights and lookups to themselves. */
  lemma ChangeMeaning<T>(first: T, ops: seq<Op<T>>, admin: Thread, value: T, rules: Rules<Snapshot<T>>)
    ensures var s, n := Run(first, ops, rules), Run(first, ops + [Change(admin, value)], rules);
            var m := Run(first, ops + [Change(admin, value)] + [Clear(admin)], rules);
            && n == s.(history := s.history + [value], changes := s.changes[admin := |s.history|])
            && m.history == n.history && admin !in m.changes && m.lookups == s.lookups && m.cache.calls == s.cache.calls
            && m.cache.entry == None && m.cache.epoch == s.cache.epoch + 1 && m.floor == |s.history|
  {
    hide *;
    var s := Run(first, ops, rules);
    RunMore(first, ops, Change(admin, value), rules);
    RunMore(first, ops + [Change(admin, value)], Clear(admin), rules);
    RunOk(first, ops, rules);
    FloorWithin(s);
    ChangeStep(s, admin, value, rules);
    ClearStep(s.(history := s.history + [value], changes := s.changes[admin := |s.history|]), admin, rules);
  }

  lemma FloorWithin<T>(s: State<T>)
    requires Ok(s)
    ensures s.floor < |s.history|
  {
    hide CallOk, LookupOk;
  }

  lemma ChangeStep<T>(s: State<T>, admin: Thread, value: T, rules: Rules<Snapshot<T>>)
    ensures Next(s, Change(admin, value), rules) == s.(history := s.history + [value], changes := s.changes[admin := |s.history|])
  {
  }

  lemma ClearStep<T>(s: State<T>, admin: Thread, rules: Rules<Snapshot<T>>)
    requires admin in s.changes
    ensures Next(s, Clear(admin), rules)
            == s.(cache := s.cache.(entry := None, epoch := s.cache.epoch + 1), changes := s.changes - {admin},
                  floor := if s.changes[admin] > s.floor then s.changes[admin] else s.floor)
  {
  }
}
