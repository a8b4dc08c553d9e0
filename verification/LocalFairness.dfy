/** Fairness of runs of the local selector while the set of eligible proxies stays the same. */
module LocalFairness {
  import opened Domain
  import opened LocalSelector
  import Arith

  /** The arguments of one Select call. Candidates may come in any order, mixed with ineligible ones. */
  datatype Call = Call(candidates: seq<Proxy>, now: Instant)

  datatype Run = Run(counters: Counters, picks: seq<string>)

  /** Every call has the proxies es, by id and weight, as its eligible candidates. Their scores, latencies,
      failures and times may be others at every call. */
  predicate Rotation(es: seq<Proxy>, calls: seq<Call>) {
    && Roster(es)
    && forall i :: 0 <= i < |calls| ==>
         var fs := EligibleOf(calls[i].candidates, calls[i].now); Roster(fs) && Weights(fs) == Weights(es)
  }

  /** The state of a fresh selector after the calls, and the ids it picked. */
  function After(calls: seq<Call>): Run {
    if calls == [] then Run(map[], [])
    else
      var r, c := After(calls[..|calls| - 1]), calls[|calls| - 1];
      var es := EligibleOf(c.candidates, c.now);
      if es == [] then r
      else var o := Step(r.counters, es); Run(o.counters, r.picks + [o.selected.id])
  }

  function Count(picks: seq<string>, id: string): nat {
    if picks == [] then 0 else Count(picks[..|picks| - 1], id) + (if picks[|picks| - 1] == id then 1 else 0)
  }

  // ---------- only ids and weights matter, in any order ----------

  lemma TotalWeightRemove(a: seq<Proxy>, x: Proxy, b: seq<Proxy>)
    ensures TotalWeight(a + [x] + b) == TotalWeight(a + b) + x.weight
  {
    if b == [] {
      assert (a + [x] + b)[..|a|] == a && a + b == a;
    } else {
      var b', y := b[..|b| - 1], b[|b| - 1];
      TotalWeightRemove(a, x, b');
      assert (a + [x] + b)[..|a + [x] + b| - 1] == a + [x] + b';
      assert (a + b)[..|a + b| - 1] == a + b';
    }
  }

  lemma WithoutOne(a: seq<Proxy>, x: Proxy, b: seq<Proxy>)
    requires DistinctlyNamed(a + [x] + b)
    ensures DistinctlyNamed(a + b) && Weights(a + b) == Weights(a + [x] + b) - {(x.id, x.weight)}
  {
    var es := a + [x] + b;
    assert es[|a|] == x;
    forall i | 0 <= i < |a + b| ensures (a + b)[i].id != x.id && (a + b)[i] in es {
      assert (a + b)[i] == es[if i < |a| then i else i + 1];
    }
    forall i, j | 0 <= i < j < |a + b| ensures (a + b)[i].id != (a + b)[j].id {
      assert es[if i < |a| then i else i + 1].id != es[if j < |a| then j else j + 1].id;
    }
    forall e | e in es && e != x ensures e in a + b {
    }
  }

  lemma {:induction false} TotalWeightOrderFree(es: seq<Proxy>, fs: seq<Proxy>)
    requires DistinctlyNamed(es) && DistinctlyNamed(fs) && Weights(es) == Weights(fs)
    ensures TotalWeight(es) == TotalWeight(fs)
    decreases |fs|
  {
    if fs == [] {
      if es != [] { var f := TwinOf(es, fs, es[0]); }
    } else {
      var front, x := fs[..|fs| - 1], fs[|fs| - 1];
      var e := TwinOf(fs, es, x);
      var k :| 0 <= k < |es| && es[k] == e;
      var a, b := es[..k], es[k + 1..];
      assert es == a + [e] + b && fs == front + [x] + [] && front + [] == front;
      WithoutOne(a, e, b);
      WithoutOne(front, x, []);
      TotalWeightOrderFree(a + b, front);
      TotalWeightRemove(a, e, b);
    }
  }

  lemma CountersUnique(es: seq<Proxy>, fs: seq<Proxy>, a: Counters, b: Counters)
    requires Weights(es) == Weights(fs) && a.Keys == Ids(es) && b.Keys == Ids(fs)
    requires forall e, f :: e in es && f in fs && e.id == f.id ==> a[e.id] == b[f.id]
    ensures a == b
  {
    forall id | id in a ensures id in b && a[id] == b[id] {
      var e :| e in es && e.id == id;
      var f := TwinOf(es, fs, e);
    }
    forall id | id in b ensures id in a {
      var f :| f in fs && f.id == id;
      var e := TwinOf(fs, es, f);
    }
  }

  lemma SameWeight(es: seq<Proxy>, fs: seq<Proxy>, e: Proxy, f: Proxy)
    requires DistinctlyNamed(es) && Weights(es) == Weights(fs) && e in es && f in fs && e.id == f.id
    ensures e.weight == f.weight
  {
    var e' := TwinOf(fs, es, f);
    SameName(es, e, e');
  }

  /** Two selections that mean the same thing pick the same id and leave the same counters. */
  lemma SelectionUnique(m: Counters, es: seq<Proxy>, o: Pick, m': Counters, fs: seq<Proxy>, o': Pick)
    requires Roster(es) && Weights(es) == Weights(fs) && TotalWeight(es) == TotalWeight(fs)
    requires forall e :: e in es ==> Get(m, e.id) == Get(m', e.id)
    requires Selects(m, es, o) && Selects(m', fs, o')
    ensures o.counters == o'.counters && o.selected.id == o'.selected.id
  {
    WinnerUnique(m, es, m', fs, o.selected, o'.selected);
    hide Wins, Weights, TotalWeight;
    forall e, f | e in es && f in fs && e.id == f.id ensures o.counters[e.id] == o'.counters[f.id] {
      SameWeight(es, fs, e, f);
      assert Score(m, e) == Score(m', f);
    }
    CountersUnique(es, fs, o.counters, o'.counters);
  }

  /** The id picked and every counter after it depend on the counters and on the candidates' ids and
      weights only, not on their order or on anything else about them. */
  lemma PickOrderFree(m: Counters, es: seq<Proxy>, m': Counters, fs: seq<Proxy>)
    requires Roster(es) && Roster(fs) && Weights(es) == Weights(fs)
    requires forall e :: e in es ==> Get(m, e.id) == Get(m', e.id)
    ensures Step(m, es).counters == Step(m', fs).counters && Step(m, es).selected.id == Step(m', fs).selected.id
  {
    StepMeaning(m, es);
    StepMeaning(m', fs);
    hide Step, Selects, Weights;
    TotalWeightOrderFree(es, fs);
    SelectionUnique(m, es, Step(m, es), m', fs, Step(m', fs));
  }

  lemma AfterOne(es: seq<Proxy>, calls: seq<Call>)
    requires Rotation(es, calls) && calls != []
    ensures var r := After(calls[..|calls| - 1]);
            After(calls) == Run(Step(r.counters, es).counters, r.picks + [Step(r.counters, es).selected.id])
  {
    var c := calls[|calls| - 1];
    PickOrderFree(After(calls[..|calls| - 1]).counters, es,
                  After(calls[..|calls| - 1]).counters, EligibleOf(c.candidates, c.now));
  }

  // ---------- counters are balanced and bounded ----------

  function Sum(m: Counters, es: seq<Proxy>): int {
    if es == [] then 0 else Sum(m, es[..|es| - 1]) + Get(m, es[|es| - 1].id)
  }

  /** The counters sum to zero and none has fallen to minus the total weight. */
  predicate Balanced(m: Counters, es: seq<Proxy>) {
    Sum(m, es) == 0 && forall p :: p in es ==> Get(m, p.id) > -TotalWeight(es)
  }

  lemma TotalWeightPositive(es: seq<Proxy>)
    requires forall p :: p in es ==> p.weight > 0
    ensures TotalWeight(es) >= |es|
  {
    if es != [] { TotalWeightPositive(es[..|es| - 1]); }
  }

  lemma {:induction false} SumShift(m: Counters, m': Counters, es: seq<Proxy>, sel: string, w: int)
    requires forall i, j :: 0 <= i < j < |es| ==> es[i].id != es[j].id
    requires forall p :: p in es ==> Get(m', p.id) == Score(m, p) - (if p.id == sel then w else 0)
    ensures Sum(m', es) == Sum(m, es) + TotalWeight(es) - (if sel in Ids(es) then w else 0)
  {
    if es != [] {
      var front, p := es[..|es| - 1], es[|es| - 1];
      assert es == front + [p] && Ids(es) == Ids(front) + {p.id};
      assert p.id !in Ids(front);
      SumShift(m, m', front, sel, w);
    }
  }

  lemma ScoresNotPositive(m: Counters, es: seq<Proxy>)
    requires forall p :: p in es ==> Score(m, p) <= 0
    ensures Sum(m, es) + TotalWeight(es) <= 0
  {
    if es != [] {
      ScoresNotPositive(m, es[..|es| - 1]);
      assert Score(m, es[|es| - 1]) <= 0;
    }
  }

  lemma StepBalanced(m: Counters, es: seq<Proxy>)
    requires Roster(es) && Balanced(m, es)
    ensures Balanced(Step(m, es).counters, es)
  {
    var o := Step(m, es);
    StepMeaning(m, es);
    SumShift(m, o.counters, es, o.selected.id, TotalWeight(es));
    TotalWeightPositive(es);
    if Score(m, o.selected) <= 0 {
      forall q | q in es ensures Score(m, q) <= 0 {
        if q.id != o.selected.id { assert Loses(m, q, o.selected); } else { DistinctIds(es, q, o.selected); }
      }
      ScoresNotPositive(m, es);
    }
  }

  lemma FreshBalanced(es: seq<Proxy>)
    ensures Sum(map[], es) == 0
  {
    if es != [] { FreshBalanced(es[..|es| - 1]); }
  }

  lemma {:induction false} RunBalanced(es: seq<Proxy>, calls: seq<Call>)
    requires Rotation(es, calls)
    ensures Balanced(After(calls).counters, es)
  {
    if calls == [] {
      FreshBalanced(es);
      TotalWeightPositive(es);
    } else {
      RunBalanced(es, calls[..|calls| - 1]);
      AfterOne(es, calls);
      StepBalanced(After(calls[..|calls| - 1]).counters, es);
    }
  }

  /** How far n counters can be below zero together when none has fallen to -w. */
  function Depth(n: int, w: int): int { n * (w - 1) }

  lemma DepthNext(n: int, w: int)
    ensures Depth(n + 1, w) == Depth(n, w) + (w - 1) && Depth(0, w) == 0
  {
    Arith.Distribute(n, 1, w - 1);
  }

  lemma {:induction false} OthersBelow(m: Counters, es: seq<Proxy>, p: Proxy, w: int)
    requires forall i, j :: 0 <= i < j < |es| ==> es[i].id != es[j].id
    requires w > 0 && forall q :: q in es ==> Get(m, q.id) > -w
    ensures Sum(m, es) >= (if p.id in Ids(es) then Get(m, p.id) + (w - 1) else 0) - Depth(|es|, w)
  {
    hide Depth;
    if es == [] {
      DepthNext(0, w);
    } else {
      var front, q := es[..|es| - 1], es[|es| - 1];
      assert es == front + [q] && Ids(es) == Ids(front) + {q.id};
      assert q in es;
      OthersBelow(m, front, p, w);
      DepthNext(|front|, w);
      hide Ids;
    }
  }

  lemma AtMostOthers(n: int, w: int, c: int, sum: int)
    requires sum == 0 && sum >= c + (w - 1) - Depth(n, w)
    ensures c <= (n - 1) * (w - 1)
  {
    DepthNext(n - 1, w);
  }

  lemma BalancedBounds(m: Counters, es: seq<Proxy>, p: Proxy)
    requires Roster(es) && Balanced(m, es) && p in es
    ensures Sum(m, es) == 0
    ensures -(TotalWeight(es) - 1) <= Get(m, p.id) <= (|es| - 1) * (TotalWeight(es) - 1)
  {
    var w := TotalWeight(es);
    RosterFacts(es, p);
    BalancedFacts(m, es);
    hide *;
    OthersBelow(m, es, p, w);
    AtMostOthers(|es|, w, Get(m, p.id), Sum(m, es));
  }

  lemma RosterFacts(es: seq<Proxy>, p: Proxy)
    requires Roster(es) && p in es
    ensures TotalWeight(es) > 0 && p.id in Ids(es) && forall i, j :: 0 <= i < j < |es| ==> es[i].id != es[j].id
  {
    TotalWeightPositive(es);
    hide TotalWeight;
  }

  lemma BalancedFacts(m: Counters, es: seq<Proxy>)
    requires Balanced(m, es)
    ensures Sum(m, es) == 0 && forall q :: q in es ==> Get(m, q.id) > -TotalWeight(es)
  {
  }

  /** In every run the counters sum to zero and lie in [-(W-1), (n-1)(W-1)]. */
  lemma CounterBounds(es: seq<Proxy>, calls: seq<Call>, p: Proxy)
    requires Rotation(es, calls) && p in es
    ensures Sum(After(calls).counters, es) == 0
    ensures -(TotalWeight(es) - 1) <= Get(After(calls).counters, p.id) <= (|es| - 1) * (TotalWeight(es) - 1)
  {
    RunBalanced(es, calls);
    assert Roster(es);
    hide *;
    BalancedBounds(After(calls).counters, es, p);
  }

  // ---------- exact shares ----------

  /** What a proxy of weight w is still owed after t picks of which it received n. */
  function Owed(t: int, w: int, n: int, total: int): int { t * w - n * total }

  lemma OwedNext(t: int, w: int, n: int, total: int)
    ensures Owed(t + 1, w, n, total) == Owed(t, w, n, total) + w
    ensures Owed(t + 1, w, n + 1, total) == Owed(t, w, n, total) + w - total
  {
    Arith.Distribute(t, 1, w);
    Arith.Distribute(n, 1, total);
  }

  lemma DebtAfterPick(es: seq<Proxy>, r: Run, o: Pick, t: nat, p: Proxy)
    requires Roster(es) && p in es && Selects(r.counters, es, o)
    requires Get(r.counters, p.id) == Owed(t, p.weight, Count(r.picks, p.id), TotalWeight(es))
    ensures Get(o.counters, p.id) ==
            Owed(t + 1, p.weight, Count(r.picks + [o.selected.id], p.id), TotalWeight(es))
  {
    assert (r.picks + [o.selected.id])[..|r.picks|] == r.picks;
    OwedNext(t, p.weight, Count(r.picks, p.id), TotalWeight(es));
  }

  /** A counter is the share owed so far minus what was paid for the picks received. */
  lemma {:induction false} CounterIsDebt(es: seq<Proxy>, calls: seq<Call>, p: Proxy)
    requires Rotation(es, calls) && p in es
    ensures Get(After(calls).counters, p.id) ==
            Owed(|calls|, p.weight, Count(After(calls).picks, p.id), TotalWeight(es))
    ensures |After(calls).picks| == |calls|
  {
    if calls != [] {
      var front := calls[..|calls| - 1];
      var r := After(front);
      CounterIsDebt(es, front, p);
      AfterOne(es, calls);
      StepMeaning(r.counters, es);
      DebtAfterPick(es, r, Step(r.counters, es), |front|, p);
    }
  }

  lemma NonNegativeSumZero(m: Counters, es: seq<Proxy>)
    requires forall p :: p in es ==> Get(m, p.id) >= 0
    ensures Sum(m, es) >= 0 && (Sum(m, es) == 0 ==> forall p :: p in es ==> Get(m, p.id) == 0)
  {
    if es != [] {
      assert es == es[..|es| - 1] + [es[|es| - 1]];
      NonNegativeSumZero(m, es[..|es| - 1]);
    }
  }

  /** After T picks with W dividing every T*w, each proxy has received exactly T*w/W of them and
      every counter is back to zero. */
  lemma ExactShares(es: seq<Proxy>, calls: seq<Call>)
    requires Rotation(es, calls) && TotalWeight(es) > 0
    requires forall p :: p in es ==> (|calls| * p.weight) % TotalWeight(es) == 0
    ensures forall p :: p in es ==> Get(After(calls).counters, p.id) == 0
    ensures forall p :: p in es ==> Count(After(calls).picks, p.id) * TotalWeight(es) == |calls| * p.weight
  {
    var m := After(calls).counters;
    RunBalanced(es, calls);
    forall p | p in es ensures Get(m, p.id) >= 0 {
      CounterIsDebt(es, calls, p);
      Arith.MultipleAbove(|calls| * p.weight, Count(After(calls).picks, p.id), TotalWeight(es));
    }
    NonNegativeSumZero(m, es);
    forall p | p in es ensures Count(After(calls).picks, p.id) * TotalWeight(es) == |calls| * p.weight {
      CounterIsDebt(es, calls, p);
    }
  }

  lemma {:induction false} PicksArePrefixes(es: seq<Proxy>, calls: seq<Call>, k: nat)
    requires Rotation(es, calls) && k <= |calls|
    ensures |After(calls).picks| == |calls| && After(calls[..k]).picks == After(calls).picks[..k]
  {
    hide After, Step;
    CounterIsDebt(es, calls, es[0]);
    if k == |calls| {
      assert calls[..k] == calls;
    } else {
      var front := calls[..|calls| - 1];
      PicksArePrefixes(es, front, k);
      assert front[..k] == calls[..k];
      AfterOne(es, calls);
    }
  }

  lemma PrefixRotates(es: seq<Proxy>, calls: seq<Call>, k: nat)
    requires Rotation(es, calls) && k <= |calls|
    ensures Rotation(es, calls[..k]) && es != []
  {
    hide EligibleOf, Weights;
  }

  lemma FirstPeriod(es: seq<Proxy>, calls: seq<Call>)
    requires Rotation(es, calls) && TotalWeight(es) > 0 && TotalWeight(es) == |calls|
    ensures forall p :: p in es ==> Get(After(calls).counters, p.id) == 0
  {
    hide After, Rotation, Get;
    forall p | p in es ensures (|calls| * p.weight) % TotalWeight(es) == 0 {
      Arith.MultipleRemainder(p.weight, TotalWeight(es));
    }
    ExactShares(es, calls);
  }

  predicate SameCounters(es: seq<Proxy>, a: Counters, b: Counters) { forall p :: p in es ==> Get(a, p.id) == Get(b, p.id) }

  lemma NextInStep(es: seq<Proxy>, calls: seq<Call>, more: seq<Call>)
    requires Rotation(es, calls) && Rotation(es, more) && calls != [] && more != []
    requires SameCounters(es, After(calls[..|calls| - 1]).counters, After(more[..|more| - 1]).counters)
    ensures SameCounters(es, After(calls).counters, After(more).counters)
  {
    hide After, Step, Weights, EligibleOf;
    AfterOne(es, calls);
    AfterOne(es, more);
    PickOrderFree(After(calls[..|calls| - 1]).counters, es, After(more[..|more| - 1]).counters, es);
  }

  lemma FrontOfPrefix(calls: seq<Call>, s: nat)
    requires 0 < s <= |calls|
    ensures calls[..|calls| - 1][..s - 1] == calls[..s][..|calls[..s]| - 1]
  {
  }

  /** After W further picks the counters are back where they were. */
  lemma {:induction false} Period(es: seq<Proxy>, calls: seq<Call>, s: nat)
    requires Rotation(es, calls) && TotalWeight(es) > 0 && s + TotalWeight(es) == |calls|
    ensures SameCounters(es, After(calls).counters, After(calls[..s]).counters)
  {
    if s == 0 {
      FirstPeriod(es, calls);
      assert calls[..s] == [];
    } else {
      hide *;
      var front := calls[..|calls| - 1];
      PrefixRotates(es, calls, |calls| - 1);
      PrefixRotates(es, calls, s);
      Period(es, front, s - 1);
      FrontOfPrefix(calls, s);
      NextInStep(es, calls, calls[..s]);
    }
  }

  lemma {:induction false} CountSplit(a: seq<string>, b: seq<string>, id: string)
    ensures Count(a + b, id) == Count(a, id) + Count(b, id)
  {
    if b == [] {
      assert a + b == a;
    } else {
      CountSplit(a, b[..|b| - 1], id);
      assert (a + b)[..|a + b| - 1] == a + b[..|b| - 1];
    }
  }

  lemma OwedDifference(s: int, k: int, w: int, n: int, n': int, total: int)
    ensures Owed(s + k, w, n + n', total) - Owed(s, w, n, total) == Owed(k, w, n', total)
  {
    Arith.Distribute(s, k, w);
    Arith.Distribute(n, n', total);
  }

  lemma CounterAt(es: seq<Proxy>, calls: seq<Call>, k: nat, p: Proxy)
    requires Rotation(es, calls) && k <= |calls| && p in es
    ensures |After(calls).picks| == |calls|
    ensures Get(After(calls[..k]).counters, p.id) ==
            Owed(k, p.weight, Count(After(calls).picks[..k], p.id), TotalWeight(es))
  {
    PicksArePrefixes(es, calls, k);
    CounterIsDebt(es, calls[..k], p);
  }

  lemma CountStretch(picks: seq<string>, s: nat, k: nat, id: string)
    requires s + k <= |picks|
    ensures Count(picks[..s + k], id) == Count(picks[..s], id) + Count(picks[s..s + k], id)
  {
    assert picks[..s + k] == picks[..s] + picks[s..s + k];
    CountSplit(picks[..s], picks[s..s + k], id);
  }

  /** Debt over a stretch of a run. */
  lemma StretchDebt(es: seq<Proxy>, calls: seq<Call>, s: nat, k: nat, p: Proxy)
    requires Rotation(es, calls) && s + k <= |calls| && p in es
    ensures |After(calls).picks| == |calls|
    ensures Get(After(calls[..s + k]).counters, p.id) - Get(After(calls[..s]).counters, p.id)
            == Owed(k, p.weight, Count(After(calls).picks[s..s + k], p.id), TotalWeight(es))
  {
    hide After;
    CounterAt(es, calls, s, p);
    CounterAt(es, calls, s + k, p);
    var picks := After(calls).picks;
    CountStretch(picks, s, k, p.id);
    OwedDifference(s, k, p.weight, Count(picks[..s], p.id), Count(picks[s..s + k], p.id), TotalWeight(es));
  }

  /** Any W successive picks, wherever they start, contain a proxy exactly as often as its weight. */
  lemma AnyWindowIsExact(es: seq<Proxy>, calls: seq<Call>, s: nat, p: Proxy)
    requires Rotation(es, calls) && TotalWeight(es) >= 0 && s + TotalWeight(es) <= |calls| && p in es
    ensures |After(calls).picks| == |calls|
    ensures Count(After(calls).picks[s..s + TotalWeight(es)], p.id) == p.weight
  {
    hide After;
    var W := TotalWeight(es);
    TotalWeightPositive(es);
    var upTo := calls[..s + W];
    assert upTo[..s] == calls[..s];
    Period(es, upTo, s);
    StretchDebt(es, calls, s, W, p);
    Arith.SameProduct(p.weight, Count(After(calls).picks[s..s + W], p.id), W);
  }

  lemma NotPicked(picks: seq<string>, id: string)
    requires id !in picks
    ensures Count(picks, id) == 0
  {
    if picks != [] { NotPicked(picks[..|picks| - 1], id); }
  }

  lemma StarvationArithmetic(n: int, w: int, c: int, c': int, owed: int)
    requires -(w - 1) <= c && c' <= (n - 1) * (w - 1) && c' - c == owed && n > 0
    ensures owed < n * w
  {
    Arith.Distribute(n - 1, 1, w - 1);
    Arith.Distribute(w - 1, 1, n);
  }

  lemma DebtWhilePassedOver(es: seq<Proxy>, calls: seq<Call>, s: nat, k: nat, p: Proxy)
    requires Rotation(es, calls) && s + k <= |calls| && p in es && |After(calls).picks| == |calls|
    requires p.id !in After(calls).picks[s..s + k]
    ensures Get(After(calls[..s + k]).counters, p.id) - Get(After(calls[..s]).counters, p.id) == k * p.weight
  {
    hide After, Rotation;
    StretchDebt(es, calls, s, k, p);
    NotPicked(After(calls).picks[s..s + k], p.id);
  }

  /** No starvation: a proxy of weight w is never passed over n*W/w times in a row. */
  lemma NeverStarved(es: seq<Proxy>, calls: seq<Call>, s: nat, k: nat, p: Proxy)
    requires Rotation(es, calls) && s + k <= |calls| && p in es
    requires |After(calls).picks| == |calls| ==> p.id !in After(calls).picks[s..s + k]
    ensures k * p.weight < |es| * TotalWeight(es)
  {
    hide *;
    CounterIsDebt(es, calls, p);
    PrefixRotates(es, calls, s);
    PrefixRotates(es, calls, s + k);
    var c, c' := Get(After(calls[..s]).counters, p.id), Get(After(calls[..s + k]).counters, p.id);
    DebtWhilePassedOver(es, calls, s, k, p);
    CounterBounds(es, calls[..s], p);
    CounterBounds(es, calls[..s + k], p);
    StarvationArithmetic(|es|, TotalWeight(es), c, c', k * p.weight);
  }
}
