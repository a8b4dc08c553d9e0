/** Writing candidates to the shared queue, and skipping the write while a printed signature of it is unchanged. */
module SyncSkip {
  import opened Domain
  import opened ZFair
  import opened ZFairQueue
  import Text

  type Candidates = map<string, Proxy>

  const MILLISECOND := 1_000_000

  /** What a sync writes for one candidate. */
  function FieldsOf(p: Proxy, defaultLatencyMs: nat): Fields {
    Fields(p.weight, p.healthScore, if p.latencyEwmaMs <= 0 then defaultLatencyMs else p.latencyEwmaMs,
           if p.circuitOpenUntil.None? then 0 else p.circuitOpenUntil.value / MILLISECOND)
  }

  function Writes(candidates: Candidates, defaultLatencyMs: nat): map<string, Fields> {
    map id | id in candidates :: FieldsOf(candidates[id], defaultLatencyMs)
  }

  // ---------- the signature ----------

  function Tail(f: Fields): string {
    "|" + Text.ShowInt(f.weight) + "|" + Text.ShowInt(f.health) + "|" + Text.ShowInt(f.latencyMs) + "|" + Text.ShowInt(f.circuitUntil)
  }

  function Entry(id: string, f: Fields): string { id + Tail(f) }

  function FieldsAt(writes: map<string, Fields>, id: string): Fields {
    if id in writes then writes[id] else Fields(0, 0, 0, 0)
  }

  function Joined(ids: seq<string>, writes: map<string, Fields>): string {
    if ids == [] then "" else Entry(ids[0], FieldsAt(writes, ids[0])) + ";" + Joined(ids[1..], writes)
  }

  /** The ids in byte order, the order in which the queue breaks ties. */
  ghost function Sorted(ids: set<string>): (s: seq<string>)
    ensures Elements(s) == ids
  {
    FirstsAll(Zeros(ids), ids, |ids|);
    Firsts(Zeros(ids), ids, |ids|)
  }

  function Zeros(ids: set<string>): Scores { map id | id in ids :: 0.0 }

  ghost function Signature(writes: map<string, Fields>): string { Joined(Sorted(writes.Keys), writes) }

  lemma NumeralPlain(n: int)
    ensures '|' !in Text.ShowInt(n) && ';' !in Text.ShowInt(n)
  {
    if '|' in Text.ShowInt(n) { Text.ShowIntPlain(n, '|'); }
    if ';' in Text.ShowInt(n) { Text.ShowIntPlain(n, ';'); }
  }

  lemma TailPlain(f: Fields)
    ensures ';' !in Tail(f)
  {
    NumeralPlain(f.weight);
    NumeralPlain(f.health);
    NumeralPlain(f.latencyMs);
    NumeralPlain(f.circuitUntil);
    hide Text.ShowInt;
  }

  /** An entry is read from the right, so it determines its id whatever the id contains. */
  lemma EntryInjective(i: string, f: Fields, j: string, g: Fields)
    requires Entry(i, f) == Entry(j, g)
    ensures i == j && f == g
  {
    var w, w' := Text.ShowInt(f.weight), Text.ShowInt(g.weight);
    var h, h' := Text.ShowInt(f.health), Text.ShowInt(g.health);
    var l, l' := Text.ShowInt(f.latencyMs), Text.ShowInt(g.latencyMs);
    var c, c' := Text.ShowInt(f.circuitUntil), Text.ShowInt(g.circuitUntil);
    NumeralPlain(f.weight); NumeralPlain(g.weight);
    NumeralPlain(f.health); NumeralPlain(g.health);
    NumeralPlain(f.latencyMs); NumeralPlain(g.latencyMs);
    NumeralPlain(f.circuitUntil); NumeralPlain(g.circuitUntil);
    hide Text.ShowInt;
    assert Entry(i, f) == i + "|" + w + "|" + h + "|" + l + "|" + c;
    assert Entry(j, g) == j + "|" + w' + "|" + h' + "|" + l' + "|" + c';
    Text.JoinInjectiveRight(i + "|" + w + "|" + h + "|" + l, c, j + "|" + w' + "|" + h' + "|" + l', c', '|');
    Text.JoinInjectiveRight(i + "|" + w + "|" + h, l, j + "|" + w' + "|" + h', l', '|');
    Text.JoinInjectiveRight(i + "|" + w, h, j + "|" + w', h', '|');
    Text.JoinInjectiveRight(i, w, j, w', '|');
    Text.ShowIntInjective(f.weight, g.weight);
    Text.ShowIntInjective(f.health, g.health);
    Text.ShowIntInjective(f.latencyMs, g.latencyMs);
    Text.ShowIntInjective(f.circuitUntil, g.circuitUntil);
  }

  /** The id reads as the printed entry of a smaller id and a rest that would be listed after it. */
  ghost predicate Ambiguous(id: string) {
    exists p: string, w: Fields, y: string :: id == Entry(p, w) + ";" + y && Text.Less(p, y)
  }

  lemma ReadingHasBoth(p: string, w: Fields, y: string)
    ensures '|' in Entry(p, w) + ";" + y && ';' in Entry(p, w) + ";" + y
  {
    var id := Entry(p, w) + ";" + y;
    assert id == p + Tail(w) + (";" + y) && Tail(w)[0] == '|';
    assert id[|Entry(p, w)|] == ';' && id[|p|] == '|';
  }

  /** Either separator on its own is harmless. */
  lemma LoneSeparatorIsClear(id: string)
    requires '|' !in id || ';' !in id
    ensures !Ambiguous(id)
  {
    forall p: string, w: Fields, y: string ensures '|' in Entry(p, w) + ";" + y && ';' in Entry(p, w) + ";" + y {
      ReadingHasBoth(p, w, y);
    }
    hide Entry;
  }

  predicate Increasing(xs: seq<string>) {
    xs == [] || ((forall x :: x in xs[1..] ==> Text.Less(xs[0], x)) && Increasing(xs[1..]))
  }

  ghost predicate Clear(xs: seq<string>) { forall x :: x in xs ==> !Ambiguous(x) }

  /** Of two first entries of equal texts the longer one has the shorter inside its id. */
  lemma LongerEntrySplits(x: string, f: Fields, s: string, y: string, g: Fields, t: string) returns (r: string)
    requires Entry(x, f) + ";" + s == Entry(y, g) + ";" + t && |Entry(x, f)| < |Entry(y, g)|
    ensures y == Entry(x, f) + ";" + r && s == Entry(r, g) + ";" + t
  {
    TailPlain(g);
    hide Tail;
    var e, whole := Entry(x, f), Entry(y, g) + ";" + t;
    var n := |e|;
    assert whole[..n] == e && whole[n] == ';' && whole[n + 1..] == s;
    assert whole == y + (Tail(g) + ";" + t);
    assert n < |y|;
    r := y[n + 1..];
    assert y == y[..n] + [y[n]] + r && y[..n] == whole[..n] && y[n] == whole[n];
    assert whole[n + 1..] == r + (Tail(g) + ";" + t);
  }

  lemma SameLengthEntries(x: string, f: Fields, s: string, y: string, g: Fields, t: string)
    requires Entry(x, f) + ";" + s == Entry(y, g) + ";" + t && |Entry(x, f)| == |Entry(y, g)|
    ensures x == y && f == g && s == t
  {
    var e, d := Entry(x, f), Entry(y, g);
    assert e == (e + ";" + s)[..|e|] && d == (d + ";" + t)[..|d|];
    assert s == (e + ";" + s)[|e| + 1..] && t == (d + ";" + t)[|d| + 1..];
    EntryInjective(x, f, y, g);
  }

  lemma EntryContains(p: string, w: Fields, y: string)
    ensures Text.Less(p, Entry(p, w) + ";" + y)
  {
    Text.LessPrefix(p, Tail(w) + ";" + y);
    assert p + (Tail(w) + ";" + y) == Entry(p, w) + ";" + y;
  }

  /** The rest r of a split id, no later than bound, can never be matched by ids that come after bound. */
  lemma {:induction false} RestNeverMatches(r: string, w: Fields, bound: string, xs: seq<string>, f: map<string, Fields>,
                                            ys: seq<string>, g: map<string, Fields>)
    requires Entry(r, w) + ";" + Joined(xs, f) == Joined(ys, g)
    requires Clear(xs) && Clear(ys) && (r == bound || Text.Less(r, bound))
    requires (forall x :: x in xs ==> Text.Less(bound, x)) && (forall y :: y in ys ==> Text.Less(bound, y))
    ensures false
    decreases |xs| + |ys|
  {
    assert ys != [];
    var y, v := ys[0], FieldsAt(g, ys[0]);
    assert y in ys;
    hide Entry, FieldsAt;
    if |Entry(r, w)| == |Entry(y, v)| {
      SameLengthEntries(r, w, Joined(xs, f), y, v, Joined(ys[1..], g));
      NotAfter(r, bound, y);
    } else if |Entry(r, w)| < |Entry(y, v)| {
      var z := LongerEntrySplits(r, w, Joined(xs, f), y, v, Joined(ys[1..], g));
      RestIsEarly(r, w, y, z, bound);
      RestNeverMatches(z, v, bound, ys[1..], g, xs, f);
    } else {
      var z := LongerEntrySplits(y, v, Joined(ys[1..], g), r, w, Joined(xs, f));
      EntryContains(y, v, z);
      NotAfter(r, bound, y);
    }
  }

  lemma NotAfter(r: string, bound: string, y: string)
    requires (r == bound || Text.Less(r, bound)) && Text.Less(bound, y)
    ensures y != r && !Text.Less(y, r)
  {
    if r != bound { Text.LessTransitive(r, bound, y); }
    Text.LessAsymmetric(r, y);
  }

  lemma RestIsEarly(r: string, w: Fields, y: string, z: string, bound: string)
    requires !Ambiguous(y) && y == Entry(r, w) + ";" + z && (r == bound || Text.Less(r, bound))
    ensures z == bound || Text.Less(z, bound)
  {
    hide Entry;
    assert !Text.Less(r, z);
    Text.LessTotal(r, z);
    if z != r && r != bound { Text.LessTransitive(z, r, bound); }
  }

  /** The first id of one list cannot print shorter than that of the other. */
  lemma HeadsAgree(xs: seq<string>, f: map<string, Fields>, ys: seq<string>, g: map<string, Fields>)
    requires xs != [] && ys != [] && Increasing(xs) && Increasing(ys) && Clear(xs) && Clear(ys)
    requires Joined(xs, f) == Joined(ys, g)
    ensures |Entry(xs[0], FieldsAt(f, xs[0]))| >= |Entry(ys[0], FieldsAt(g, ys[0]))|
  {
    var x, u, y, v := xs[0], FieldsAt(f, xs[0]), ys[0], FieldsAt(g, ys[0]);
    hide Entry, FieldsAt;
    assert y in ys;
    if |Entry(x, u)| < |Entry(y, v)| {
      var r := LongerEntrySplits(x, u, Joined(xs[1..], f), y, v, Joined(ys[1..], g));
      RestIsEarly(x, u, y, r, x);
      EntryContains(x, u, r);
      forall z | z in ys[1..] ensures Text.Less(x, z) { Text.LessTransitive(x, y, z); }
      RestNeverMatches(r, v, x, ys[1..], g, xs[1..], f);
    }
  }

  lemma {:induction false} JoinedInjective(xs: seq<string>, f: map<string, Fields>, ys: seq<string>, g: map<string, Fields>)
    requires Increasing(xs) && Increasing(ys) && Clear(xs) && Clear(ys) && Joined(xs, f) == Joined(ys, g)
    ensures xs == ys && forall id :: id in xs ==> FieldsAt(f, id) == FieldsAt(g, id)
  {
    hide FieldsAt, Ambiguous, Entry;
    if xs == [] || ys == [] {
    } else {
      var x, y := xs[0], ys[0];
      HeadsAgree(xs, f, ys, g);
      HeadsAgree(ys, g, xs, f);
      SameLengthEntries(x, FieldsAt(f, x), Joined(xs[1..], f), y, FieldsAt(g, y), Joined(ys[1..], g));
      JoinedInjective(xs[1..], f, ys[1..], g);
      assert xs == [x] + xs[1..] && ys == [y] + ys[1..];
    }
  }

  lemma SortedCovers(ids: set<string>)
    ensures forall id :: id in Sorted(ids) <==> id in ids
  {
    assert forall id :: id in Sorted(ids) <==> id in Elements(Sorted(ids));
  }

  lemma SameFields(f: map<string, Fields>, g: map<string, Fields>)
    requires f.Keys == g.Keys && forall id :: id in f.Keys ==> FieldsAt(f, id) == FieldsAt(g, id)
    ensures f == g
  {
  }

  lemma {:induction false} FirstsIncrease(m: Scores, ids: set<string>, limit: nat)
    requires ids <= m.Keys && forall id :: id in m ==> m[id] == 0.0
    ensures Increasing(Firsts(m, ids, limit))
    decreases limit
  {
    if limit > 0 && ids != {} {
      var x, rest := First(m, ids), Firsts(m, ids - {First(m, ids)}, limit - 1);
      FirstsWithin(m, ids - {x}, limit - 1);
      FirstsIncrease(m, ids - {x}, limit - 1);
      assert Firsts(m, ids, limit) == [x] + rest && ([x] + rest)[1..] == rest;
      forall y | y in rest ensures Text.Less(x, y) { assert y in Elements(rest); }
    }
  }

  lemma SortedIncreases(ids: set<string>)
    ensures Increasing(Sorted(ids))
  {
    FirstsIncrease(Zeros(ids), ids, |ids|);
  }

  /** Without ambiguous ids the signature is as good as the fields a sync would write. */
  lemma SignatureIff(f: map<string, Fields>, g: map<string, Fields>)
    requires (forall id :: id in f ==> !Ambiguous(id)) && (forall id :: id in g ==> !Ambiguous(id))
    ensures Signature(f) == Signature(g) <==> f == g
  {
    hide Ambiguous, Sorted, Joined, FieldsAt, Increasing;
    if Signature(f) == Signature(g) {
      SortedCovers(f.Keys);
      SortedCovers(g.Keys);
      SortedIncreases(f.Keys);
      SortedIncreases(g.Keys);
      JoinedInjective(Sorted(f.Keys), f, Sorted(g.Keys), g);
      assert f.Keys == g.Keys;
      SameFields(f, g);
    }
  }

  lemma FirstsStep(m: Scores, ids: set<string>, limit: nat)
    requires ids <= m.Keys && ids != {} && limit > 0
    ensures First(m, ids) in ids && Firsts(m, ids, limit) == [First(m, ids)] + Firsts(m, ids - {First(m, ids)}, limit - 1)
  {
  }

  lemma Shift(a: seq<string>, x: string, b: seq<string>)
    ensures a + ([x] + b) == (a + [x]) + b
  {
  }

  lemma SortedNext(ids: set<string>, left: set<string>, sorted: seq<string>)
    requires left <= ids && left != {}
    ensures var x := First(Zeros(ids), left);
            x in left && sorted + Firsts(Zeros(ids), left, |left|) == (sorted + [x]) + Firsts(Zeros(ids), left - {x}, |left - {x}|)
  {
    var m := Zeros(ids);
    FirstsStep(m, left, |left|);
    hide *;
    var x := First(m, left);
    assert |left - {x}| == |left| - 1;
    Shift(sorted, x, Firsts(m, left - {x}, |left| - 1));
  }

  lemma NothingJoined(ids: seq<string>, writes: map<string, Fields>)
    requires ids == []
    ensures Joined(ids, writes) == ""
  {
  }

  lemma {:induction false} JoinedMore(ids: seq<string>, id: string, writes: map<string, Fields>)
    ensures Joined(ids + [id], writes) == Joined(ids, writes) + (Entry(id, FieldsAt(writes, id)) + ";")
  {
    hide Entry, FieldsAt;
    if ids == [] {
      assert [] + [id] == [id] && [id][1..] == [];
    } else {
      JoinedMore(ids[1..], id, writes);
      assert (ids + [id])[1..] == ids[1..] + [id];
    }
  }

  function Line(id: string, p: Proxy, defaultLatencyMs: nat): string { Entry(id, FieldsOf(p, defaultLatencyMs)) + ";" }

  lemma JoinedNext(ids: seq<string>, i: nat, candidates: Candidates, defaultLatencyMs: nat)
    requires ids == Sorted(candidates.Keys) && i < |ids|
    ensures ids[i] in candidates
    ensures var writes := Writes(candidates, defaultLatencyMs);
            Joined(ids[..i + 1], writes) == Joined(ids[..i], writes) + Line(ids[i], candidates[ids[i]], defaultLatencyMs)
  {
    WrittenAt(ids, i, candidates, defaultLatencyMs);
    hide Entry, FieldsAt, FieldsOf, Sorted, Writes, Joined;
    assert ids[..i + 1] == ids[..i] + [ids[i]];
    JoinedMore(ids[..i], ids[i], Writes(candidates, defaultLatencyMs));
  }

  lemma SignatureOf(ids: seq<string>, candidates: Candidates, defaultLatencyMs: nat)
    requires ids == Sorted(candidates.Keys)
    ensures Signature(Writes(candidates, defaultLatencyMs)) == Joined(ids, Writes(candidates, defaultLatencyMs))
  {
    assert Writes(candidates, defaultLatencyMs).Keys == candidates.Keys;
    hide Sorted, Joined;
  }

  lemma WrittenAt(ids: seq<string>, i: nat, candidates: Candidates, defaultLatencyMs: nat)
    requires ids == Sorted(candidates.Keys) && i < |ids|
    ensures ids[i] in candidates && FieldsAt(Writes(candidates, defaultLatencyMs), ids[i]) == FieldsOf(candidates[ids[i]], defaultLatencyMs)
  {
    assert ids[i] in Elements(ids);
    hide Sorted, FieldsOf;
  }

  lemma SortedDone(ids: set<string>, sorted: seq<string>)
    ensures sorted + Firsts(Zeros(ids), {}, 0) == sorted
  {
  }

  lemma OneSorted(x: string)
    ensures Sorted({x}) == [x]
  {
    FirstUnique(Zeros({x}), {x}, x);
    assert {x} - {x} == {} && |{x}| == 1;
  }

  lemma TwoSorted(x: string, y: string)
    requires Text.Less(x, y)
    ensures Sorted({x, y}) == [x, y]
  {
    Text.LessAsymmetric(x, y);
    var ids := {x, y};
    FirstUnique(Zeros(ids), ids, x);
    FirstUnique(Zeros(ids), {y}, y);
    assert ids - {x} == {y} && {y} - {y} == {};
    assert |ids| == 2;
  }

  /** An ambiguous id prints like the two ids it reads as, whatever the fields of the second. */
  lemma SeparatorInIdCollides(x: string, y: string, w: Fields, v: Fields)
    requires Text.Less(x, y)
    ensures var f, g := map[x := w, y := v], map[Entry(x, w) + ";" + y := v];
            Signature(f) == Signature(g) && f.Keys != g.Keys
  {
    Text.LessAsymmetric(x, y);
    var id := Entry(x, w) + ";" + y;
    var f, g := map[x := w, y := v], map[id := v];
    TwoSorted(x, y);
    OneSorted(id);
    hide Sorted;
    assert f.Keys == {x, y} && g.Keys == {id};
    assert FieldsAt(f, x) == w && FieldsAt(f, y) == v && FieldsAt(g, id) == v;
    hide FieldsAt, Tail;
    TwoJoined(x, y, f);
    assert Joined([id], g) == id + Tail(v) + ";" by { assert [id][1..] == []; }
    assert x in f.Keys && y in f.Keys;
  }

  lemma TwoJoined(x: string, y: string, f: map<string, Fields>)
    ensures Joined([x, y], f) == Entry(x, FieldsAt(f, x)) + ";" + y + Tail(FieldsAt(f, y)) + ";"
  {
    hide FieldsAt, Tail;
    assert [x, y][1..] == [y] && [y][1..] == [];
    assert Joined([y], f) == Entry(y, FieldsAt(f, y)) + ";";
  }

  ghost predicate Over(f: map<string, Fields>, ids: string -> bool) { forall id :: id in f ==> ids(id) }

  /** Where a printed entry followed by more may be an id, so may the two ids it reads as. */
  ghost predicate ClosedUnderReading(ids: string -> bool) {
    forall p: string, w: Fields, y: string :: ids(Entry(p, w) + ";" + y) ==> ids(p) && ids(y)
  }

  ghost predicate Faithful(ids: string -> bool) {
    forall f: map<string, Fields>, g: map<string, Fields> :: Over(f, ids) && Over(g, ids) && Signature(f) == Signature(g) ==> f == g
  }

  lemma CollisionIsUnfaithful(ids: string -> bool, f: map<string, Fields>, g: map<string, Fields>)
    requires Over(f, ids) && Over(g, ids) && Signature(f) == Signature(g) && f.Keys != g.Keys
    ensures !Faithful(ids)
  {
    hide Signature, Over;
  }

  lemma OverTwo(ids: string -> bool, x: string, y: string, id: string, w: Fields, v: Fields)
    requires ids(x) && ids(y) && ids(id)
    ensures Over(map[x := w, y := v], ids) && Over(map[id := v], ids)
  {
  }

  lemma AmbiguousIsUnfaithful(ids: string -> bool, id: string)
    requires ClosedUnderReading(ids) && ids(id) && Ambiguous(id)
    ensures !Faithful(ids)
  {
    hide Entry, Signature, Over, Faithful;
    var p: string, w: Fields, y: string :| id == Entry(p, w) + ";" + y && Text.Less(p, y);
    assert ids(p) && ids(y);
    OverTwo(ids, p, y, id, w, w);
    SeparatorInIdCollides(p, y, w, w);
    CollisionIsUnfaithful(ids, map[p := w, y := w], map[id := w]);
  }

  lemma ClearIsFaithful(ids: string -> bool)
    requires forall id :: ids(id) ==> !Ambiguous(id)
    ensures Faithful(ids)
  {
    hide Ambiguous, Signature;
    forall f: map<string, Fields>, g: map<string, Fields> | Over(f, ids) && Over(g, ids) && Signature(f) == Signature(g) ensures f == g {
      SignatureIff(f, g);
    }
  }

  /** The exact condition: a naming scheme for proxies keeps signatures faithful if and only if it has no ambiguous id. */
  lemma SignatureFaithfulIff(ids: string -> bool)
    requires ClosedUnderReading(ids)
    ensures Faithful(ids) <==> forall id :: ids(id) ==> !Ambiguous(id)
  {
    hide Ambiguous, ClosedUnderReading, Faithful;
    if Faithful(ids) {
      forall id | ids(id) ensures !Ambiguous(id) {
        if Ambiguous(id) { AmbiguousIsUnfaithful(ids, id); }
      }
    }
    if forall id :: ids(id) ==> !Ambiguous(id) { ClearIsFaithful(ids); }
  }

  // ---------- the candidates of one call ----------

  /** The eligible candidates by id; a repeated id keeps its last record. */
  function EligibleById(candidates: seq<Proxy>, now: Instant): Candidates {
    if candidates == [] then map[]
    else
      var rest, p := EligibleById(candidates[..|candidates| - 1], now), candidates[|candidates| - 1];
      if Eligible(p, now) then rest[p.id := p] else rest
  }

  lemma {:induction false} EligibleByIdMeaning(candidates: seq<Proxy>, now: Instant)
    ensures forall id :: id in EligibleById(candidates, now) ==>
              var p := EligibleById(candidates, now)[id]; p in candidates && p.id == id && Eligible(p, now)
    ensures forall p :: p in candidates && Eligible(p, now) ==> p.id in EligibleById(candidates, now)
  {
    if candidates != [] {
      EligibleByIdMeaning(candidates[..|candidates| - 1], now);
      assert candidates == candidates[..|candidates| - 1] + [candidates[|candidates| - 1]];
      hide Eligible;
    }
  }

  // ---------- the syncing process ----------

  /** What one process remembers of its last successful sync, beside the queue it owns. */
  datatype Process = Process(queue: Queue, lastAt: Option<Instant>, lastSig: string)

  datatype Settings = Settings(defaultLatencyMs: nat, ttl: Instant)

  predicate Fresh(lastAt: Option<Instant>, ttl: Instant, now: Instant) { ttl > 0 && lastAt.Some? && lastAt.value + ttl > now }

  ghost predicate Skips(p: Process, writes: map<string, Fields>, g: Settings, now: Instant) {
    Fresh(p.lastAt, g.ttl, now) && Signature(writes) == p.lastSig
  }

  function WriteAll(q: Queue, writes: map<string, Fields>, ids: set<string>): Queue
    requires ids <= writes.Keys
  {
    q.(nodes := q.nodes + WrittenNodes(q.nodes, writes, ids))
  }

  function Written(nodes: Nodes, id: string, f: Fields): Node {
    var n := if id in nodes then nodes[id] else Node(0, 0, None, 0, 0, 0.0);
    n.(weight := f.weight, health := f.health, latencyMs := Some(f.latencyMs), circuitUntil := f.circuitUntil)
  }

  function WrittenNodes(nodes: Nodes, writes: map<string, Fields>, ids: set<string>): Nodes
    requires ids <= writes.Keys
  {
    map id | id in ids :: Written(nodes, id, writes[id])
  }

  lemma WrittenNodesNext(nodes: Nodes, writes: map<string, Fields>, ids: set<string>, id: string)
    requires ids + {id} <= writes.Keys && id !in ids
    ensures WrittenNodes(nodes, writes, ids + {id}) == WrittenNodes(nodes, writes, ids)[id := Written(nodes, id, writes[id])]
  {
    hide Written;
  }

  lemma MergeNodes(m: Nodes, n: Nodes, id: string, v: Node)
    ensures m + n[id := v] == (m + n)[id := v]
    ensures id !in n ==> (id in m + n <==> id in m) && (id in m ==> (m + n)[id] == m[id])
  {
  }

  lemma WriteNext(q: Queue, writes: map<string, Fields>, ids: set<string>, id: string)
    requires ids + {id} <= writes.Keys && id !in ids
    ensures WriteAll(q, writes, ids + {id}) == WriteOne(WriteAll(q, writes, ids), id, writes[id])
  {
    WrittenNodesNext(q.nodes, writes, ids, id);
    assert id !in WrittenNodes(q.nodes, writes, ids);
    hide WrittenNodes;
    MergeNodes(q.nodes, WrittenNodes(q.nodes, writes, ids), id, Written(q.nodes, id, writes[id]));
  }

  /** One sync: skipped, or the pipeline runs. The pipeline may fail after Redis has executed it for some ids only. */
  ghost function Synced(p: Process, writes: map<string, Fields>, g: Settings, now: Instant, executed: set<string>, failed: bool): Process
    requires executed <= writes.Keys && (!failed ==> executed == writes.Keys)
  {
    if Skips(p, writes, g, now) then p
    else if failed then p.(queue := WriteAll(p.queue, writes, executed))
    else Process(WriteAll(p.queue, writes, executed), Some(now), Signature(writes))
  }

  class Syncer {
    const queue: SharedQueue
    const settings: Settings
    var lastAt: Option<Instant>
    var lastSig: string

    ghost function View(): Process reads this, queue { Process(queue.View(), lastAt, lastSig) }

    constructor (queue: SharedQueue, settings: Settings)
      ensures View() == Process(queue.View(), None, "") && this.settings == settings && this.queue == queue
    {
      this.queue, this.settings, lastAt, lastSig := queue, settings, None, "";
    }

    method BuildRequest(candidates: seq<Proxy>, now: Instant) returns (eligible: Candidates)
      ensures eligible == EligibleById(candidates, now)
    {
      eligible := map[];
      for i := 0 to |candidates|
        invariant eligible == EligibleById(candidates[..i], now)
      {
        assert candidates[..i + 1][..i] == candidates[..i];
        if Eligible(candidates[i], now) {
          eligible := eligible[candidates[i].id := candidates[i]];
        }
      }
      assert candidates[..|candidates|] == candidates;
    }

    method CandidateSyncSignature(candidates: Candidates) returns (sig: string)
      ensures sig == Signature(Writes(candidates, settings.defaultLatencyMs))
    {
      var ids := SortIds(candidates.Keys);
      SignatureOf(ids, candidates, settings.defaultLatencyMs);
      sig := "";
      NothingJoined(ids[..0], Writes(candidates, settings.defaultLatencyMs));
      hide *;
      for i := 0 to |ids|
        invariant sig == Joined(ids[..i], Writes(candidates, settings.defaultLatencyMs))
      {
        JoinedNext(ids, i, candidates, settings.defaultLatencyMs);
        sig := sig + Line(ids[i], candidates[ids[i]], settings.defaultLatencyMs);
      }
      assert ids[..|ids|] == ids;
    }

    method SortIds(ids: set<string>) returns (sorted: seq<string>)
      ensures sorted == Sorted(ids)
    {
      sorted := [];
      var left := ids;
      assert [] + Sorted(ids) == Sorted(ids);
      hide First, Firsts, IsFirst;
      while left != {}
        invariant left <= ids
        invariant sorted + Firsts(Zeros(ids), left, |left|) == Sorted(ids)
      {
        SortedNext(ids, left, sorted);
        var x := Head(Zeros(ids), left);
        sorted, left := sorted + [x], left - {x};
      }
      SortedDone(ids, sorted);
    }

    /** The write pipeline as far as Redis executes it. */
    method WriteCandidateNodes(candidates: Candidates, executed: set<string>)
      requires executed <= candidates.Keys
      modifies queue
      ensures queue.View() == WriteAll(old(queue.View()), Writes(candidates, settings.defaultLatencyMs), executed)
    {
      ghost var q, writes := queue.View(), Writes(candidates, settings.defaultLatencyMs);
      var pending := executed;
      assert executed - pending == {} && WriteAll(q, writes, {}) == q;
      hide WriteAll;
      while pending != {}
        invariant pending <= executed && writes == Writes(candidates, settings.defaultLatencyMs)
        invariant queue.View() == WriteAll(q, writes, executed - pending)
      {
        var id :| id in pending;
        WriteNext(q, writes, executed - pending, id);
        assert executed - pending + {id} == executed - (pending - {id});
        queue.WriteNode(id, FieldsOf(candidates[id], settings.defaultLatencyMs));
        pending := pending - {id};
      }
      assert executed - pending == executed;
    }

    method SyncCandidates(candidates: Candidates, now: Instant, executed: set<string>, failed: bool) returns (ok: bool)
      requires executed <= candidates.Keys && (!failed ==> executed == candidates.Keys)
      modifies this, queue
      ensures View() == Synced(old(View()), Writes(candidates, settings.defaultLatencyMs), settings, now, executed, failed)
      ensures ok <==> old(Skips(View(), Writes(candidates, settings.defaultLatencyMs), settings, now)) || !failed
    {
      var sig := CandidateSyncSignature(candidates);
      hide WriteAll, Writes, Signature;
      if settings.ttl > 0 && sig == lastSig && lastAt.Some? && lastAt.value + settings.ttl > now {
        return true;
      }
      WriteCandidateNodes(candidates, executed);
      if failed {
        return false;
      }
      lastAt, lastSig := Some(now), sig;
      ok := true;
    }
  }
}
