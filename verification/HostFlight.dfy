/** Host safety: lookups of one host name share one DNS query, unsafe verdicts are cached for a while,
    and safe ones never are. */
module HostFlight {
  import opened Domain

  const MAX_CACHED := 4096

  type Ip = seq<nat>

  datatype Verdict = Verdict(safe: bool, expiresAt: Instant)

  /** A shared lookup; done once its owner has published safe and retry. */
  datatype Call = Call(safe: bool, retry: bool, done: bool)

  /** What the resolver returned: None is an error. */
  type Answer = Option<seq<Ip>>

  predicate AllPublic(a: Answer, internal: Ip -> bool) {
    a.Some? && a.value != [] && forall i :: 0 <= i < |a.value| ==> !internal(a.value[i])
  }

  predicate SomeInternal(a: Answer, internal: Ip -> bool) {
    a.Some? && exists i :: 0 <= i < |a.value| && internal(a.value[i])
  }

  /** safe and retry, given whether the owner's context was cancelled by the end of the query. */
  function Resolution(cancelled: bool, a: Answer, internal: Ip -> bool): (bool, bool) {
    if cancelled then (false, true) else (AllPublic(a, internal), false)
  }

  /** Only an unexpired unsafe verdict decides. */
  function CachedVerdict(m: map<string, Verdict>, host: string, now: Instant): Option<bool> {
    if host in m && m[host].expiresAt > now && !m[host].safe then Some(false) else None
  }

  /** The shared lookups, and the one that each host's callers may join. */
  datatype Board = Board(flights: map<string, nat>, calls: seq<Call>)

  function Begun(b: Board, host: string): Board {
    if host in b.flights then b else Board(b.flights[host := |b.calls|], b.calls + [Call(false, false, false)])
  }

  function Finished(b: Board, host: string, call: nat, safe: bool, retry: bool): Board
    requires call < |b.calls|
  {
    Board(b.flights - {host}, b.calls[call := Call(safe, retry, true)])
  }

  /** The verdicts once an answer has been judged. */
  function Judged(m: map<string, Verdict>, host: string, cancelled: bool, a: Answer, internal: Ip -> bool, now: Instant, ttl: int)
    : map<string, Verdict>
  {
    if !cancelled && SomeInternal(a, internal) && ttl > 0 then m[host := Verdict(false, now + ttl)] else m
  }

  class HostSafety {
    const ttl: int
    var hostSafety: map<string, Verdict>
    var flights: map<string, nat>
    var calls: seq<Call>

    function View(): Board reads this { Board(flights, calls) }

    constructor (ttl: int)
      ensures this.ttl == ttl && hostSafety == map[] && flights == map[] && calls == []
    {
      this.ttl, hostSafety, flights, calls := ttl, map[], map[], [];
    }

    method LookupHostSafety(host: string, now: Instant) returns (decision: Option<bool>)
      ensures decision == CachedVerdict(hostSafety, host, now)
    {
      if host !in hostSafety || !(hostSafety[host].expiresAt > now) || hostSafety[host].safe {
        return None;
      }
      decision := Some(hostSafety[host].safe);
    }

    method Begin(host: string) returns (call: nat, owner: bool)
      modifies this`flights, this`calls
      ensures View() == Begun(old(View()), host)
      ensures owner == (host !in old(flights)) && host in flights && call == flights[host]
    {
      if host in flights {
        return flights[host], false;
      }
      call, owner := |calls|, true;
      flights := flights[host := call];
      calls := calls + [Call(false, false, false)];
    }

    method Finish(host: string, call: nat, safe: bool, retry: bool)
      requires call < |calls|
      modifies this`flights, this`calls
      ensures View() == Finished(old(View()), host, call, safe, retry)
    {
      calls := calls[call := calls[call].(safe := safe, retry := retry)];
      flights := flights - {host};
      calls := calls[call := calls[call].(done := true)];
    }

    /** Judges the answer, stopping at the first internal address, and caches an unsafe verdict. Only a full cache
        drops others for it. */
    method Judge(host: string, cancelled: bool, answer: Answer, internal: Ip -> bool, now: Instant)
      returns (safe: bool, retry: bool, ghost dropped: set<string>)
      modifies this`hostSafety
      ensures (safe, retry) == Resolution(cancelled, answer, internal)
      ensures hostSafety == Judged(old(hostSafety) - dropped, host, cancelled, answer, internal, now, ttl)
      ensures !cancelled && SomeInternal(answer, internal) && ttl > 0 ==> CachedVerdict(hostSafety, host, now) == Some(false)
      ensures !(!cancelled && SomeInternal(answer, internal)) || |old(hostSafety)| < MAX_CACHED ==> dropped == {}
    {
      dropped := {};
      assert hostSafety - {} == hostSafety;
      if cancelled {
        return false, true, {};
      }
      if answer.None? || answer.value == [] {
        return false, false, {};
      }
      var ips := answer.value;
      for i := 0 to |ips|
        invariant hostSafety == old(hostSafety)
        invariant forall j :: 0 <= j < i ==> !internal(ips[j])
      {
        if internal(ips[i]) {
          dropped := StoreHostSafety(host, false, now);
          return false, false, dropped;
        }
      }
      return true, false, {};
    }

    /** Makes room by dropping expired verdicts, or else any one, and stores the verdict. */
    method StoreHostSafety(host: string, safe: bool, now: Instant) returns (ghost dropped: set<string>)
      modifies this`hostSafety
      ensures hostSafety == if ttl > 0 then (old(hostSafety) - dropped)[host := Verdict(safe, now + ttl)] else old(hostSafety)
      ensures ttl <= 0 || |old(hostSafety)| < MAX_CACHED ==> dropped == {}
      ensures ttl > 0 && |old(hostSafety)| <= MAX_CACHED ==> |hostSafety| <= MAX_CACHED
    {
      dropped := {};
      if ttl <= 0 {
        return;
      }
      ghost var before := hostSafety;
      assert before - {} == before;
      if |hostSafety| >= MAX_CACHED {
        hostSafety := map h | h in hostSafety && hostSafety[h].expiresAt > now :: hostSafety[h];
        SmallerMap(hostSafety, old(hostSafety));
        if |hostSafety| >= MAX_CACHED {
          assert hostSafety != map[];
          var h :| h in hostSafety;
          OneFewer(hostSafety, h);
          hostSafety := hostSafety - {h};
        }
        dropped := before.Keys - hostSafety.Keys;
        TheRest(before, hostSafety);
      }
      OneMore(hostSafety, host, Verdict(safe, now + ttl));
      hostSafety := hostSafety[host := Verdict(safe, now + ttl)];
    }
  }

  lemma OneFewer(m: map<string, Verdict>, h: string)
    requires h in m
    ensures |m - {h}| == |m| - 1
  {
    assert (m - {h}).Keys == m.Keys - {h};
    assert |(m - {h}).Keys| == |m - {h}| && |m.Keys| == |m|;
  }

  lemma OneMore(m: map<string, Verdict>, h: string, v: Verdict)
    ensures |m[h := v]| <= |m| + 1
  {
    assert m[h := v].Keys == m.Keys + {h};
    assert |m[h := v].Keys| == |m[h := v]| && |m.Keys| == |m|;
  }

  lemma TheRest(before: map<string, Verdict>, after: map<string, Verdict>)
    requires forall h :: h in after ==> h in before && after[h] == before[h]
    ensures before - (before.Keys - after.Keys) == after
  {
  }

  lemma SmallerMap(a: map<string, Verdict>, b: map<string, Verdict>)
    requires a.Keys <= b.Keys
    ensures |a| <= |b|
  {
    SmallerSet(a.Keys, b.Keys);
  }

  lemma SmallerSet(a: set<string>, b: set<string>)
    requires a <= b
    ensures |a| <= |b|
  {
    if a != {} {
      var x :| x in a;
      SmallerSet(a - {x}, b - {x});
    }
  }

  // ---------- any number of requests, step by step ----------

  /** A flight with its host, the moment its owner finished it, and what the resolver had answered. */
  datatype Flight = Flight(host: string, call: Call, finishedAt: nat, answer: Answer, ownerCancelled: bool)

  datatype Stage =
    | Looping
    | Owner(flight: nat)
    | Resolved(flight: nat, answer: Answer, cancelled: bool)
    | Waiting(flight: nat)
    | Answered(safe: bool, via: Option<nat>, live: bool)

  /** One isSafeHost call for a name that is no IP literal; live until its context is cancelled. */
  datatype Request = Request(host: string, startedAt: nat, live: bool, stage: Stage)

  type Thread = nat

  datatype State = State(tick: nat, cached: map<string, Verdict>, inFlight: map<string, nat>, flights: seq<Flight>, requests: map<Thread, Request>)

  datatype Op =
    | Start(t: Thread, host: string, now: Instant) | Begin(t: Thread) | Resolve(t: Thread, answer: Answer, now: Instant)
    | Finish(t: Thread) | Wake(t: Thread) | Cancel(t: Thread) | GiveUp(t: Thread) | Evict(hosts: set<string>)

  function With(s: State, t: Thread, stage: Stage): State
    requires t in s.requests
  {
    s.(requests := s.requests[t := s.requests[t].(stage := stage)])
  }

  function Acted(s: State, op: Op, internal: Ip -> bool, ttl: int): State {
    match op
    case Start(t, host, now) =>
      if t in s.requests then s
      else
        var hit := CachedVerdict(s.cached, host, now);
        s.(requests := s.requests[t := Request(host, s.tick, true, if hit.Some? then Answered(hit.value, None, true) else Looping)])
    case Begin(t) =>
      if t !in s.requests || !s.requests[t].stage.Looping? then s
      else
        var host := s.requests[t].host;
        if host in s.inFlight then With(s, t, Waiting(s.inFlight[host]))
        else
          var id := |s.flights|;
          With(s, t, Owner(id)).(inFlight := s.inFlight[host := id],
                                 flights := s.flights + [Flight(host, Call(false, false, false), 0, None, false)])
    case Resolve(t, answer, now) =>
      if t !in s.requests || !s.requests[t].stage.Owner? then s
      else
        var r := s.requests[t];
        With(s, t, Resolved(r.stage.flight, answer, !r.live)).(
          cached := if r.live && SomeInternal(answer, internal) && ttl > 0 then s.cached[r.host := Verdict(false, now + ttl)] else s.cached)
    case Finish(t) =>
      if t !in s.requests || !s.requests[t].stage.Resolved? || s.requests[t].stage.flight >= |s.flights| then s
      else
        var r := s.requests[t];
        var g := r.stage;
        var (safe, retry) := Resolution(g.cancelled, g.answer, internal);
        With(s, t, Answered(safe, Some(g.flight), r.live)).(
          inFlight := s.inFlight - {r.host},
          flights := s.flights[g.flight := Flight(s.flights[g.flight].host, Call(safe, retry, true), s.tick, g.answer, g.cancelled)])
    case Wake(t) =>
      if t !in s.requests || !s.requests[t].stage.Waiting? || s.requests[t].stage.flight >= |s.flights| then s
      else
        var r := s.requests[t];
        var call := s.flights[r.stage.flight].call;
        if !call.done then s
        else if call.retry && r.live then With(s, t, Looping)
        else With(s, t, Answered(call.safe, Some(r.stage.flight), r.live))
    case Cancel(t) => if t in s.requests then s.(requests := s.requests[t := s.requests[t].(live := false)]) else s
    case GiveUp(t) =>
      if t in s.requests && s.requests[t].stage.Waiting? && !s.requests[t].live then With(s, t, Answered(false, None, false)) else s
    case Evict(hosts) => s.(cached := s.cached - hosts)
  }

  function BoardOf(s: State): Board { Board(s.inFlight, seq(|s.flights|, i requires 0 <= i < |s.flights| => s.flights[i].call)) }

  /** The steps of requests are the steps of the methods: each does to the shared state what its method does. */
  lemma StepsAreMethods(s: State, op: Op, internal: Ip -> bool, ttl: int)
    ensures var n := Acted(s, op, internal, ttl);
            match op
            case Start(t, host, now) =>
              var hit := CachedVerdict(s.cached, host, now);
              BoardOf(n) == BoardOf(s) && n.cached == s.cached
              && (t !in s.requests ==> n.requests[t].stage == if hit.Some? then Answered(hit.value, None, true) else Looping)
            case Begin(t) =>
              n.cached == s.cached && (t in s.requests && s.requests[t].stage.Looping? ==>
                var host := s.requests[t].host;
                BoardOf(n) == Begun(BoardOf(s), host) && host in n.inFlight
                && n.requests[t].stage == (if host in s.inFlight then Waiting(n.inFlight[host]) else Owner(n.inFlight[host])))
            case Resolve(t, answer, now) =>
              BoardOf(n) == BoardOf(s) && (t in s.requests && s.requests[t].stage.Owner? ==>
                var r := s.requests[t]; n.cached == Judged(s.cached, r.host, !r.live, answer, internal, now, ttl))
            case Finish(t) =>
              n.cached == s.cached && (t in s.requests && s.requests[t].stage.Resolved? && s.requests[t].stage.flight < |s.flights| ==>
                var g := s.requests[t].stage;
                var (safe, retry) := Resolution(g.cancelled, g.answer, internal);
                BoardOf(n) == Finished(BoardOf(s), s.requests[t].host, g.flight, safe, retry))
            case Evict(hosts) => BoardOf(n) == BoardOf(s) && n.cached == s.cached - hosts
            case _ => BoardOf(n) == BoardOf(s) && n.cached == s.cached
  {
    hide SomeInternal, Resolution;
  }

  function Next(s: State, op: Op, internal: Ip -> bool, ttl: int): State { Acted(s, op, internal, ttl).(tick := s.tick + 1) }

  function Run(ops: seq<Op>, internal: Ip -> bool, ttl: int): State {
    if ops == [] then State(0, map[], map[], [], map[]) else Next(Run(ops[..|ops| - 1], internal, ttl), ops[|ops| - 1], internal, ttl)
  }

  ghost predicate FlightOk(s: State, id: nat, internal: Ip -> bool)
    requires id < |s.flights|
  {
    var f := s.flights[id];
    && (!f.call.done ==> f.host in s.inFlight && s.inFlight[f.host] == id)
    && (f.call.done ==> f.finishedAt <= s.tick && (f.call.safe, f.call.retry) == Resolution(f.ownerCancelled, f.answer, internal))
  }

  /** The request joined the flight before it finished. */
  predicate Joined(s: State, r: Request, id: nat) {
    id < |s.flights| && s.flights[id].host == r.host && (s.flights[id].call.done ==> s.flights[id].finishedAt >= r.startedAt)
  }

  ghost predicate RequestOk(s: State, t: Thread)
    requires t in s.requests
  {
    var r := s.requests[t];
    && r.startedAt <= s.tick
    && (r.stage.Owner? || r.stage.Resolved? ==> Joined(s, r, r.stage.flight) && !s.flights[r.stage.flight].call.done)
    && (r.stage.Waiting? ==> Joined(s, r, r.stage.flight))
    && (r.stage.Answered? && r.stage.via.Some? ==>
          var id := r.stage.via.value;
          && Joined(s, r, id) && s.flights[id].call.done && s.flights[id].call.safe == r.stage.safe
          && (r.stage.live ==> !s.flights[id].ownerCancelled))
    && (r.stage.Resolved? && r.stage.cancelled ==> !r.live)
    && (r.stage.Answered? && r.stage.via.None? ==> !r.stage.safe)
  }

  predicate Owns(r: Request, id: nat) { (r.stage.Owner? || r.stage.Resolved?) && r.stage.flight == id }

  ghost predicate Ok(s: State, internal: Ip -> bool) {
    && (forall h :: h in s.inFlight ==> s.inFlight[h] < |s.flights| && s.flights[s.inFlight[h]].host == h && !s.flights[s.inFlight[h]].call.done)
    && (forall id :: 0 <= id < |s.flights| ==> FlightOk(s, id, internal))
    && (forall t :: t in s.requests ==> RequestOk(s, t))
    && (forall t, u, id :: t in s.requests && u in s.requests && Owns(s.requests[t], id) && Owns(s.requests[u], id) ==> t == u)
    && (forall h :: h in s.cached ==> !s.cached[h].safe)
  }

  lemma TickOk(s: State, internal: Ip -> bool)
    requires Ok(s, internal)
    ensures Ok(s.(tick := s.tick + 1), internal)
  {
    var n := s.(tick := s.tick + 1);
    forall id | 0 <= id < |n.flights| ensures FlightOk(n, id, internal) { assert FlightOk(s, id, internal); }
    forall u | u in n.requests ensures RequestOk(n, u) { assert RequestOk(s, u); }
  }

  lemma CacheOk(s: State, cached: map<string, Verdict>, internal: Ip -> bool)
    requires Ok(s, internal) && forall h :: h in cached ==> !cached[h].safe
    ensures Ok(s.(cached := cached), internal)
  {
    var n := s.(cached := cached);
    forall id | 0 <= id < |n.flights| ensures FlightOk(n, id, internal) { assert FlightOk(s, id, internal); }
    forall u | u in n.requests ensures RequestOk(n, u) { assert RequestOk(s, u); }
  }

  /** One request changes, keeping or giving up the flight it owns. */
  lemma RequestMovedOk(s: State, t: Thread, r: Request, internal: Ip -> bool)
    requires Ok(s, internal)
    requires RequestOk(s.(requests := s.requests[t := r]), t)
    requires forall id :: Owns(r, id) ==> t in s.requests && Owns(s.requests[t], id)
    ensures Ok(s.(requests := s.requests[t := r]), internal)
  {
    var n := s.(requests := s.requests[t := r]);
    forall id | 0 <= id < |n.flights| ensures FlightOk(n, id, internal) { assert FlightOk(s, id, internal); }
    forall u | u in n.requests ensures RequestOk(n, u) {
      if u != t { assert RequestOk(s, u); }
    }
  }

  lemma NewFlightKeepsRequest(s: State, t: Thread, u: Thread, internal: Ip -> bool)
    requires Ok(s, internal) && t in s.requests && s.requests[t].stage.Looping? && s.requests[t].host !in s.inFlight && u in s.requests
    ensures var n := Acted(s, Begin(t), internal, 0); u in n.requests && RequestOk(n, u)
    ensures !Owns(s.requests[u], |s.flights|)
  {
    assert RequestOk(s, u);
  }

  lemma NewFlightKeepsFlight(s: State, t: Thread, id: nat, internal: Ip -> bool)
    requires Ok(s, internal) && t in s.requests && s.requests[t].stage.Looping? && s.requests[t].host !in s.inFlight && id <= |s.flights|
    ensures var n := Acted(s, Begin(t), internal, 0); id < |n.flights| && FlightOk(n, id, internal)
  {
    if id < |s.flights| { assert FlightOk(s, id, internal); }
  }

  lemma NewFlightOk(s: State, t: Thread, internal: Ip -> bool)
    requires Ok(s, internal) && t in s.requests && s.requests[t].stage.Looping? && s.requests[t].host !in s.inFlight
    ensures Ok(Acted(s, Begin(t), internal, 0), internal)
  {
    hide FlightOk, RequestOk;
    var n := Acted(s, Begin(t), internal, 0);
    forall id | 0 <= id < |n.flights| ensures FlightOk(n, id, internal) { NewFlightKeepsFlight(s, t, id, internal); }
    forall u | u in n.requests ensures RequestOk(n, u) && !Owns(s.requests[u], |s.flights|) { NewFlightKeepsRequest(s, t, u, internal); }
  }

  lemma FinishKeepsRequest(s: State, t: Thread, u: Thread, internal: Ip -> bool)
    requires Ok(s, internal) && t in s.requests && s.requests[t].stage.Resolved? && u in s.requests
    ensures var n := Acted(s, Finish(t), internal, 0); u in n.requests && RequestOk(n, u)
  {
    var mine := s.requests[t].stage.flight;
    assert RequestOk(s, t) && RequestOk(s, u) && Owns(s.requests[t], mine);
    assert FlightOk(s, mine, internal);
    assert u != t ==> !Owns(s.requests[u], mine);
  }

  lemma FinishKeepsFlight(s: State, t: Thread, id: nat, internal: Ip -> bool)
    requires Ok(s, internal) && t in s.requests && s.requests[t].stage.Resolved? && id < |s.flights|
    ensures var n := Acted(s, Finish(t), internal, 0); id < |n.flights| && FlightOk(n, id, internal)
  {
    assert RequestOk(s, t) && FlightOk(s, id, internal) && FlightOk(s, s.requests[t].stage.flight, internal);
  }

  lemma FinishOk(s: State, t: Thread, internal: Ip -> bool)
    requires Ok(s, internal) && t in s.requests && s.requests[t].stage.Resolved?
    ensures Ok(Acted(s, Finish(t), internal, 0), internal)
  {
    hide FlightOk, RequestOk;
    var n := Acted(s, Finish(t), internal, 0);
    forall id | 0 <= id < |n.flights| ensures FlightOk(n, id, internal) { FinishKeepsFlight(s, t, id, internal); }
    forall u | u in n.requests ensures RequestOk(n, u) { FinishKeepsRequest(s, t, u, internal); }
    FinishInFlight(s, t, internal);
  }

  lemma FinishInFlight(s: State, t: Thread, internal: Ip -> bool)
    requires Ok(s, internal) && t in s.requests && s.requests[t].stage.Resolved?
    ensures var n := Acted(s, Finish(t), internal, 0);
            forall h :: h in n.inFlight ==>
              n.inFlight[h] < |n.flights| && n.flights[n.inFlight[h]].host == h && !n.flights[n.inFlight[h]].call.done
  {
    assert RequestOk(s, t) && FlightOk(s, s.requests[t].stage.flight, internal);
  }

  lemma ResolveOk(s: State, t: Thread, answer: Answer, now: Instant, internal: Ip -> bool, ttl: int)
    requires Ok(s, internal) && t in s.requests && s.requests[t].stage.Owner?
    ensures Ok(Acted(s, Resolve(t, answer, now), internal, ttl), internal)
  {
    var r := s.requests[t];
    assert RequestOk(s, t);
    var moved := r.(stage := Resolved(r.stage.flight, answer, !r.live));
    RequestMovedOk(s, t, moved, internal);
    CacheOk(s.(requests := s.requests[t := moved]), Acted(s, Resolve(t, answer, now), internal, ttl).cached, internal);
  }

  lemma WaitingOk(s: State, t: Thread, op: Op, internal: Ip -> bool, ttl: int)
    requires Ok(s, internal) && t in s.requests && (op == Wake(t) || op == GiveUp(t) || op == Cancel(t))
    ensures Ok(Acted(s, op, internal, ttl), internal)
  {
    var n := Acted(s, op, internal, ttl);
    WaitingMovedOk(s, t, op, internal, ttl);
    hide Ok, Acted, RequestOk;
    RequestMovedOk(s, t, n.requests[t], internal);
  }

  lemma WaitingMovedOk(s: State, t: Thread, op: Op, internal: Ip -> bool, ttl: int)
    requires Ok(s, internal) && t in s.requests && (op == Wake(t) || op == GiveUp(t) || op == Cancel(t))
    ensures var n := Acted(s, op, internal, ttl);
            && t in n.requests && n == s.(requests := s.requests[t := n.requests[t]])
            && RequestOk(n, t) && forall id :: Owns(n.requests[t], id) ==> Owns(s.requests[t], id)
  {
    assert RequestOk(s, t);
    if s.requests[t].stage.Waiting? { assert FlightOk(s, s.requests[t].stage.flight, internal); }
    hide Ok, FlightOk;
  }

  lemma ActedOk(s: State, op: Op, internal: Ip -> bool, ttl: int)
    requires Ok(s, internal)
    ensures Ok(Acted(s, op, internal, ttl), internal)
  {
    hide FlightOk;
    var n := Acted(s, op, internal, ttl);
    match op
    case Start(t, host, now) => if t !in s.requests { RequestMovedOk(s, t, n.requests[t], internal); }
    case Begin(t) => BeginOk(s, t, internal, ttl);
    case Resolve(t, answer, now) => if t in s.requests && s.requests[t].stage.Owner? { ResolveOk(s, t, answer, now, internal, ttl); }
    case Finish(t) => if t in s.requests && s.requests[t].stage.Resolved? { FinishOk(s, t, internal); }
    case Wake(t) => if t in s.requests { WaitingOk(s, t, op, internal, ttl); }
    case Cancel(t) => if t in s.requests { WaitingOk(s, t, op, internal, ttl); }
    case GiveUp(t) => if t in s.requests { WaitingOk(s, t, op, internal, ttl); }
    case Evict(hosts) => CacheOk(s, s.cached - hosts, internal);
  }

  lemma BeginOk(s: State, t: Thread, internal: Ip -> bool, ttl: int)
    requires Ok(s, internal)
    ensures Ok(Acted(s, Begin(t), internal, ttl), internal)
  {
    if t in s.requests && s.requests[t].stage.Looping? {
      assert RequestOk(s, t);
      if s.requests[t].host in s.inFlight {
        RequestMovedOk(s, t, Acted(s, Begin(t), internal, ttl).requests[t], internal);
      } else {
        NewFlightOk(s, t, internal);
      }
    }
  }

  lemma ActedThenTicked(s: State, op: Op, internal: Ip -> bool, ttl: int)
    requires Ok(s, internal)
    ensures Ok(Next(s, op, internal, ttl), internal)
  {
    hide Ok, Acted;
    ActedOk(s, op, internal, ttl);
    KeepsTick(s, op, internal, ttl);
    TickOk(Acted(s, op, internal, ttl), internal);
  }

  lemma {:induction false} RunOk(ops: seq<Op>, internal: Ip -> bool, ttl: int)
    ensures Ok(Run(ops, internal, ttl), internal)
  {
    if ops != [] {
      RunOk(ops[..|ops| - 1], internal, ttl);
      ActedThenTicked(Run(ops[..|ops| - 1], internal, ttl), ops[|ops| - 1], internal, ttl);
      hide Ok, Next;
    }
  }

  lemma KeepsTick(s: State, op: Op, internal: Ip -> bool, ttl: int)
    ensures Acted(s, op, internal, ttl).tick == s.tick
  {
  }

  /** In every interleaving a hostname is called safe only on the word of a lookup of that name whose
      query found public addresses only, was not cancelled, and finished after the call began. */
  lemma SafeOnlyFromFreshLookup(ops: seq<Op>, internal: Ip -> bool, ttl: int, t: Thread)
    requires var s := Run(ops, internal, ttl); t in s.requests && s.requests[t].stage.Answered? && s.requests[t].stage.safe
    ensures var s := Run(ops, internal, ttl);
            var r := s.requests[t];
            && r.stage.via.Some? && r.stage.via.value < |s.flights|
            && var f := s.flights[r.stage.via.value];
               f.host == r.host && f.call.done && f.finishedAt >= r.startedAt && !f.ownerCancelled && AllPublic(f.answer, internal)
  {
    RunOk(ops, internal, ttl);
    var s := Run(ops, internal, ttl);
    assert RequestOk(s, t);
    assert FlightOk(s, s.requests[t].stage.via.value, internal);
  }

  /** At most one lookup of a host is in flight. */
  lemma OneFlightPerHost(ops: seq<Op>, internal: Ip -> bool, ttl: int, a: nat, b: nat)
    requires var s := Run(ops, internal, ttl);
             a < |s.flights| && b < |s.flights| && !s.flights[a].call.done && !s.flights[b].call.done && s.flights[a].host == s.flights[b].host
    ensures a == b
  {
    RunOk(ops, internal, ttl);
    assert FlightOk(Run(ops, internal, ttl), a, internal) && FlightOk(Run(ops, internal, ttl), b, internal);
  }

  /** A call whose context is alive when it answers never adopts the verdict of a cancelled owner. */
  lemma LiveNeverAdoptsCancelled(ops: seq<Op>, internal: Ip -> bool, ttl: int, t: Thread)
    requires var s := Run(ops, internal, ttl); t in s.requests && s.requests[t].stage.Answered?
    requires var g := Run(ops, internal, ttl).requests[t].stage; g.live && g.via.Some?
    ensures var s := Run(ops, internal, ttl);
            var id := s.requests[t].stage.via.value;
            id < |s.flights| && !s.flights[id].ownerCancelled && !s.flights[id].call.retry
  {
    RunOk(ops, internal, ttl);
    var s := Run(ops, internal, ttl);
    assert RequestOk(s, t);
    assert FlightOk(s, s.requests[t].stage.via.value, internal);
  }

  // ---------- what is answered, cached and joined ----------

  lemma RunMore(ops: seq<Op>, op: Op, internal: Ip -> bool, ttl: int)
    ensures Run(ops + [op], internal, ttl) == Next(Run(ops, internal, ttl), op, internal, ttl)
  {
    assert (ops + [op])[..|ops|] == ops;
  }

  /** A call answered from a lookup is told safe exactly when that lookup was not cancelled, succeeded, and found at least
      one address and no internal one. */
  lemma VerdictMeaning(ops: seq<Op>, internal: Ip -> bool, ttl: int, t: Thread)
    requires var s := Run(ops, internal, ttl); t in s.requests && s.requests[t].stage.Answered? && s.requests[t].stage.via.Some?
    ensures var s := Run(ops, internal, ttl); var g := s.requests[t].stage;
            && g.via.value < |s.flights|
            && var f := s.flights[g.via.value];
               g.safe <==> !f.ownerCancelled && f.answer.Some? && |f.answer.value| > 0
                           && forall i :: 0 <= i < |f.answer.value| ==> !internal(f.answer.value[i])
  {
    RunOk(ops, internal, ttl);
    var s := Run(ops, internal, ttl);
    assert RequestOk(s, t);
    assert FlightOk(s, s.requests[t].stage.via.value, internal);
  }

  /** Step i is a lookup of the host, resolved in time at this instant, that found an internal address. */
  predicate FoundInternal(ops: seq<Op>, i: nat, host: string, at: Instant, internal: Ip -> bool, ttl: int) {
    && i < |ops| && ops[i].Resolve? && ops[i].now == at && ops[i].answer.Some?
    && (exists k :: 0 <= k < |ops[i].answer.value| && internal(ops[i].answer.value[k]))
    && var s := Run(ops[..i], internal, ttl);
       ops[i].t in s.requests && s.requests[ops[i].t].host == host && s.requests[ops[i].t].live
  }

  lemma FoundMore(ops: seq<Op>, op: Op, i: nat, host: string, at: Instant, internal: Ip -> bool, ttl: int)
    requires FoundInternal(ops, i, host, at, internal, ttl)
    ensures FoundInternal(ops + [op], i, host, at, internal, ttl)
  {
    hide Run;
    assert (ops + [op])[..i] == ops[..i];
  }

  /** Such a lookup keeps a verdict until this instant. */
  ghost predicate Warned(ops: seq<Op>, host: string, until: Instant, internal: Ip -> bool, ttl: int) {
    exists i, at :: FoundInternal(ops, i, host, at, internal, ttl) && until == at + ttl
  }

  lemma CachedNext(s: State, op: Op, host: string, internal: Ip -> bool, ttl: int)
    requires host in Next(s, op, internal, ttl).cached
    ensures var v := Next(s, op, internal, ttl).cached[host];
            || (host in s.cached && v == s.cached[host])
            || (op.Resolve? && ttl > 0 && v == Verdict(false, op.now + ttl) && op.t in s.requests && s.requests[op.t].host == host && s.requests[op.t].live
                && op.answer.Some? && exists k :: 0 <= k < |op.answer.value| && internal(op.answer.value[k]))
  {
  }

  lemma {:induction false} CachedWasFound(ops: seq<Op>, host: string, internal: Ip -> bool, ttl: int)
    requires host in Run(ops, internal, ttl).cached
    ensures var v := Run(ops, internal, ttl).cached[host]; ttl > 0 && !v.safe && Warned(ops, host, v.expiresAt, internal, ttl)
  {
    if ops != [] {
      var front, op := ops[..|ops| - 1], ops[|ops| - 1];
      var s, v := Run(front, internal, ttl), Run(ops, internal, ttl).cached[host];
      assert ops == front + [op] && ops[..|front|] == front;
      CachedNext(s, op, host, internal, ttl);
      hide Next;
      if host in s.cached && v == s.cached[host] {
        CachedWasFound(front, host, internal, ttl);
        hide Run, FoundInternal;
        var i, at :| FoundInternal(front, i, host, at, internal, ttl) && v.expiresAt == at + ttl;
        FoundMore(front, op, i, host, at, internal, ttl);
      } else {
        hide Run;
        assert FoundInternal(ops, |front|, host, op.now, internal, ttl);
      }
    }
  }

  /** A call is answered at once exactly from a verdict whose time is not up. Such an answer is unsafe, and rests on a
      lookup of the host that found an internal address less than the TTL before. */
  lemma CachedMeaning(ops: seq<Op>, t: Thread, host: string, now: Instant, internal: Ip -> bool, ttl: int)
    requires t !in Run(ops, internal, ttl).requests
    ensures var s, n := Run(ops, internal, ttl), Run(ops + [Start(t, host, now)], internal, ttl);
            && t in n.requests && n.requests[t].host == host && n.requests[t].startedAt == s.tick
            && (if host in s.cached && now < s.cached[host].expiresAt
                then n.requests[t].stage == Answered(false, None, true) && Warned(ops, host, s.cached[host].expiresAt, internal, ttl)
                else n.requests[t].stage == Looping)
  {
    var s := Run(ops, internal, ttl);
    RunMore(ops, Start(t, host, now), internal, ttl);
    if host in s.cached { CachedWasFound(ops, host, internal, ttl); }
    hide Warned, Run;
  }

  /** A lookup resolved in time that found an internal address is remembered for the TTL. */
  lemma FoundIsCached(ops: seq<Op>, t: Thread, answer: Answer, now: Instant, internal: Ip -> bool, ttl: int, k: nat)
    requires var s := Run(ops, internal, ttl); t in s.requests && s.requests[t].stage.Owner? && s.requests[t].live
    requires ttl > 0 && answer.Some? && k < |answer.value| && internal(answer.value[k])
    ensures var s, n := Run(ops, internal, ttl), Run(ops + [Resolve(t, answer, now)], internal, ttl);
            n.cached == s.cached[s.requests[t].host := Verdict(false, now + ttl)]
  {
    RunMore(ops, Resolve(t, answer, now), internal, ttl);
    hide Run;
  }

  /** A call that is not answered waits for the host's unfinished lookup, if there is one, and else owns a new one. */
  lemma JoinMeaning(ops: seq<Op>, t: Thread, a: nat, internal: Ip -> bool, ttl: int)
    requires var s := Run(ops, internal, ttl); t in s.requests && s.requests[t].stage == Looping
    ensures var s, n := Run(ops, internal, ttl), Run(ops + [Begin(t)], internal, ttl);
            var host := s.requests[t].host;
            && t in n.requests
            && (a < |s.flights| && s.flights[a].host == host && !s.flights[a].call.done ==> n.requests[t].stage == Waiting(a) && n.flights == s.flights)
            && ((forall b :: 0 <= b < |s.flights| && s.flights[b].host == host ==> s.flights[b].call.done)
                  ==> n.requests[t].stage == Owner(|s.flights|) && |n.flights| == |s.flights| + 1 && n.flights[|s.flights|].host == host)
  {
    var s := Run(ops, internal, ttl);
    RunOk(ops, internal, ttl);
    RunMore(ops, Begin(t), internal, ttl);
    if a < |s.flights| { assert FlightOk(s, a, internal); }
    hide Run, FlightOk, RequestOk;
  }

  /** A waiting call, once its lookup is finished, asks again if the lookup's owner was cancelled and it is alive itself,
      and else takes the verdict; it gives up, unsafe, only when its own context is over. */
  lemma WaitMeaning(ops: seq<Op>, t: Thread, internal: Ip -> bool, ttl: int)
    requires var s := Run(ops, internal, ttl); t in s.requests && s.requests[t].stage.Waiting?
    ensures var s := Run(ops, internal, ttl); var r := s.requests[t];
            && r.stage.flight < |s.flights|
            && var f, woken := s.flights[r.stage.flight], Run(ops + [Wake(t)], internal, ttl);
               woken == if !f.call.done then s.(tick := s.tick + 1)
                        else s.(tick := s.tick + 1, requests := s.requests[t := r.(stage :=
                               if f.ownerCancelled && r.live then Looping else Answered(f.call.safe, Some(r.stage.flight), r.live))])
    ensures var s := Run(ops, internal, ttl); var r := s.requests[t];
            && Run(ops + [Cancel(t)], internal, ttl) == s.(tick := s.tick + 1, requests := s.requests[t := r.(live := false)])
            && Run(ops + [GiveUp(t)], internal, ttl)
               == if r.live then s.(tick := s.tick + 1)
                  else s.(tick := s.tick + 1, requests := s.requests[t := r.(stage := Answered(false, None, false))])
  {
    var s := Run(ops, internal, ttl);
    RunOk(ops, internal, ttl);
    RunMore(ops, Wake(t), internal, ttl);
    RunMore(ops, Cancel(t), internal, ttl);
    RunMore(ops, GiveUp(t), internal, ttl);
    assert RequestOk(s, t);
    assert FlightOk(s, s.requests[t].stage.flight, internal);
    hide Run, Ok, RequestOk, FlightOk, AllPublic;
  }
}
