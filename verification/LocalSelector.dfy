/** Smooth weighted round-robin over a counter per proxy. */
module LocalSelector {
  import opened Domain
  import Text

  type Counters = map<string, int>

  function Get(m: Counters, id: string): int { if id in m then m[id] else 0 }

  function EligibleOf(cs: seq<Proxy>, now: Instant): seq<Proxy> {
    if cs == [] then []
    else
      var front, c := EligibleOf(cs[..|cs| - 1], now), cs[|cs| - 1];
      if Eligible(c, now) then front + [c] else front
  }

  function TotalWeight(es: seq<Proxy>): int {
    if es == [] then 0 else TotalWeight(es[..|es| - 1]) + es[|es| - 1].weight
  }

  function Ids(es: seq<Proxy>): set<string> { set e | e in es :: e.id }

  function Pruned(m: Counters, ids: set<string>): Counters { map id | id in m && id in ids :: m[id] }

  /** The visiting loop: counters so far, the proxy selected so far, and its score. */
  datatype Scan = Scan(counters: Counters, selected: Option<Proxy>, score: int)

  predicate Replaces(selected: Option<Proxy>, selectedScore: int, c: Proxy, score: int) {
    selected.None? || selected.value.id == "" || score > selectedScore ||
    (score == selectedScore && Text.Less(c.id, selected.value.id))
  }

  function Visit(s: Scan, c: Proxy): Scan {
    var score := Get(s.counters, c.id) + c.weight;
    var counters := s.counters[c.id := score];
    if Replaces(s.selected, s.score, c, score) then Scan(counters, Some(c), score) else Scan(counters, s.selected, s.score)
  }

  function ScanOf(m: Counters, es: seq<Proxy>): (s: Scan)
    ensures es != [] ==> s.selected.Some? && s.selected.value.id in s.counters
  {
    if es == [] then Scan(m, None, 0) else Visit(ScanOf(m, es[..|es| - 1]), es[|es| - 1])
  }

  datatype Pick = Pick(counters: Counters, selected: Proxy)

  /** One selection among eligible candidates. */
  function Step(m: Counters, es: seq<Proxy>): Pick
    requires es != []
  {
    var s := ScanOf(Pruned(m, Ids(es)), es);
    var p := s.selected.value;
    Pick(s.counters[p.id := s.counters[p.id] - TotalWeight(es)], p)
  }

  lemma FilterNothing()
    ensures TotalWeight([]) == 0 && Ids([]) == {}
  {
  }

  lemma FilterNext(es: seq<Proxy>, c: Proxy)
    ensures TotalWeight(es + [c]) == TotalWeight(es) + c.weight && Ids(es + [c]) == Ids(es) + {c.id}
  {
    assert (es + [c])[..|es|] == es;
  }

  class Local {
    var current: Counters

    constructor ()
      ensures current == map[]
    {
      current := map[];
    }

    /** Prunes counters of absent proxies, raises every eligible counter by its weight, takes the
        highest (ties to the smallest id) and charges it the total weight. */
    method Select(candidates: seq<Proxy>, now: Instant) returns (r: Result<Proxy>)
      modifies this
      ensures var es := EligibleOf(candidates, now);
              if es == [] then r == Err(NoEligible) && current == old(current)
              else r == Ok(Step(old(current), es).selected) && current == Step(old(current), es).counters
    {
      var es, total, seen := Filter(candidates, now);
      if es == [] {
        return Err(NoEligible);
      }
      Prune(seen);
      var selected := Raise(es);
      current := current[selected.id := current[selected.id] - total];
      r := Ok(selected);
    }

    static method Filter(candidates: seq<Proxy>, now: Instant) returns (es: seq<Proxy>, total: int, seen: set<string>)
      ensures es == EligibleOf(candidates, now) && total == TotalWeight(es) && seen == Ids(es)
    {
      es, total, seen := [], 0, {};
      hide Eligible, TotalWeight, Ids;
      FilterNothing();
      for i := 0 to |candidates|
        invariant es == EligibleOf(candidates[..i], now)
        invariant total == TotalWeight(es) && seen == Ids(es)
      {
        assert candidates[..i + 1][..i] == candidates[..i];
        if Eligible(candidates[i], now) {
          FilterNext(es, candidates[i]);
          es := es + [candidates[i]];
          total := total + candidates[i].weight;
          seen := seen + {candidates[i].id};
        }
      }
      assert candidates[..|candidates|] == candidates;
    }

    /** Deletes the counters of proxies that are not among the candidates. */
    method Prune(seen: set<string>)
      modifies this
      ensures current == Pruned(old(current), seen)
    {
      var pending := current.Keys;
      while pending != {}
        invariant pending <= old(current).Keys
        invariant current == map id | id in old(current) && (id in pending || id in seen) :: old(current)[id]
      {
        var id :| id in pending;
        if id !in seen {
          current := current - {id};
        }
        pending := pending - {id};
      }
    }

    /** Raises every candidate's counter and keeps the best one met so far. */
    method Raise(es: seq<Proxy>) returns (p: Proxy)
      requires es != []
      modifies this
      ensures current == ScanOf(old(current), es).counters && Some(p) == ScanOf(old(current), es).selected
    {
      var selected: Option<Proxy>, selectedScore := None, 0;
      ghost var m := current;
      hide ScanOf, Replaces;
      assert ScanOf(m, es[..0]) == Scan(m, None, 0) by { ScanNothing(m, es[..0]); }
      for i := 0 to |es|
        invariant Scan(current, selected, selectedScore) == ScanOf(m, es[..i])
      {
        ScanNext(m, es, i);
        var c := es[i];
        current := current[c.id := Get(current, c.id) + c.weight];
        var score := current[c.id];
        if Replaces(selected, selectedScore, c, score) {
          selected, selectedScore := Some(c), score;
        }
      }
      assert es[..|es|] == es;
      p := selected.value;
    }
  }

  /** A candidate without an id gives way to whichever is visited next, whatever the scores. */
  lemma NamelessGivesWay(m: Counters, es: seq<Proxy>, c: Proxy)
    requires es != [] && ScanOf(m, es).selected.value.id == ""
    ensures ScanOf(m, es + [c]).selected == Some(c)
  {
    assert (es + [c])[..|es|] == es;
  }

  lemma ScanNothing(m: Counters, es: seq<Proxy>)
    requires es == []
    ensures ScanOf(m, es) == Scan(m, None, 0)
  {
  }

  lemma ScanNext(m: Counters, es: seq<Proxy>, i: nat)
    requires i < |es|
    ensures ScanOf(m, es[..i + 1]) == Visit(ScanOf(m, es[..i]), es[i])
  {
    assert es[..i + 1][..i] == es[..i];
  }

  /** Exactly the candidates that are healthy, of positive weight and score, and without an open circuit are eligible. */
  lemma {:induction false} FilterMeaning(cs: seq<Proxy>, now: Instant, p: Proxy)
    ensures p in EligibleOf(cs, now) <==>
              && p in cs && p.healthy && p.weight > 0 && p.healthScore > 0
              && (p.circuitOpenUntil == None || p.circuitOpenUntil.value <= now)
  {
    if cs != [] {
      FilterMeaning(cs[..|cs| - 1], now, p);
      assert cs == cs[..|cs| - 1] + [cs[|cs| - 1]];
    }
  }

  lemma {:induction false} SelectedIsListed(m: Counters, es: seq<Proxy>)
    requires es != []
    ensures ScanOf(m, es).selected.value in es
  {
    var front, c := es[..|es| - 1], es[|es| - 1];
    assert es == front + [c];
    if front != [] { SelectedIsListed(m, front); }
  }

  /** A call fails exactly when none of its candidates may carry traffic, and never picks one that may not. */
  lemma PickIsHealthy(m: Counters, cs: seq<Proxy>, now: Instant)
    ensures EligibleOf(cs, now) == [] <==>
              forall p :: p in cs ==> !(p.healthy && p.weight > 0 && p.healthScore > 0
                                        && (p.circuitOpenUntil == None || p.circuitOpenUntil.value <= now))
    ensures EligibleOf(cs, now) != [] ==>
              var p := Step(m, EligibleOf(cs, now)).selected;
              && p in cs && p.healthy && p.weight > 0 && p.healthScore > 0
              && (p.circuitOpenUntil == None || p.circuitOpenUntil.value <= now)
  {
    var es := EligibleOf(cs, now);
    forall p ensures p in es <==> p in cs && p.healthy && p.weight > 0 && p.healthScore > 0
                                  && (p.circuitOpenUntil == None || p.circuitOpenUntil.value <= now)
    {
      FilterMeaning(cs, now, p);
    }
    if es != [] {
      assert es[0] in es;
      SelectedIsListed(Pruned(m, Ids(es)), es);
    }
  }

  // ---------- what one selection means ----------

  predicate DistinctlyNamed(es: seq<Proxy>) { forall i, j :: 0 <= i < j < |es| ==> es[i].id != es[j].id }

  /** Candidates a cycle is made of: at least one, distinct non-empty ids, positive weights. */
  predicate Roster(es: seq<Proxy>) {
    es != [] && (forall i :: 0 <= i < |es| ==> es[i].id != "" && es[i].weight > 0) && DistinctlyNamed(es)
  }

  /** The ids with their weights: all that a selection looks at. */
  function Weights(es: seq<Proxy>): set<(string, int)> { set e | e in es :: (e.id, e.weight) }

  function Score(m: Counters, p: Proxy): int { Get(m, p.id) + p.weight }

  /** q loses to p: a lower score, or an equal score and a larger id. */
  predicate Loses(m: Counters, q: Proxy, p: Proxy) {
    Score(m, q) < Score(m, p) || (Score(m, q) == Score(m, p) && Text.Less(p.id, q.id))
  }

  predicate Wins(m: Counters, es: seq<Proxy>, p: Proxy) {
    p in es && forall q :: q in es && q.id != p.id ==> Loses(m, q, p)
  }

  lemma LosesTransitive(m: Counters, a: Proxy, b: Proxy, c: Proxy)
    requires Loses(m, a, b) && Loses(m, b, c)
    ensures Loses(m, a, c)
  {
    if Score(m, a) == Score(m, c) {
      Text.LessTransitive(c.id, b.id, a.id);
    }
  }

  /** What the loop knows after visiting the candidates es. */
  ghost predicate Scanned(m: Counters, es: seq<Proxy>, s: Scan) {
    && s.selected.Some? && Wins(m, es, s.selected.value) && s.score == Score(m, s.selected.value)
    && s.counters.Keys == m.Keys + Ids(es)
    && (forall p :: p in es ==> s.counters[p.id] == Score(m, p))
    && (forall id :: id !in Ids(es) ==> Get(s.counters, id) == Get(m, id))
  }

  lemma VisitMeaning(m: Counters, front: seq<Proxy>, c: Proxy, s: Scan)
    requires Roster(front) && Roster(front + [c]) && Scanned(m, front, s)
    ensures Scanned(m, front + [c], Visit(s, c))
  {
    hide Wins, Visit, Ids;
    LastIsNew(front, c);
    WinnerListed(m, front, s.selected.value);
    VisitRaises(c, s);
    VisitWinner(m, front, c, s);
  }

  lemma VisitRaises(c: Proxy, s: Scan)
    ensures Visit(s, c).counters == s.counters[c.id := Get(s.counters, c.id) + c.weight]
  {
  }

  lemma LastIsNew(front: seq<Proxy>, c: Proxy)
    requires Roster(front + [c])
    ensures c.id !in Ids(front) && Ids(front + [c]) == Ids(front) + {c.id}
    ensures forall q :: q in front ==> q.id != c.id && q.id != ""
  {
    forall q | q in front ensures q.id != c.id && q.id != "" {
      var i :| 0 <= i < |front| && front[i] == q;
      assert (front + [c])[i] == q && (front + [c])[|front|] == c;
    }
  }

  lemma WinnerListed(m: Counters, es: seq<Proxy>, p: Proxy)
    requires Wins(m, es, p)
    ensures p in es
  {
  }

  lemma VisitWinner(m: Counters, front: seq<Proxy>, c: Proxy, s: Scan)
    requires Roster(front)
    requires s.selected.Some? && Wins(m, front, s.selected.value) && s.score == Score(m, s.selected.value)
    requires s.selected.value.id != c.id && Get(s.counters, c.id) == Get(m, c.id)
    ensures var t := Visit(s, c); t.selected.Some? && Wins(m, front + [c], t.selected.value)
                                  && t.score == Score(m, t.selected.value)
  {
    var p := s.selected.value;
    Text.LessTotal(c.id, p.id);
    if Visit(s, c).selected == Some(c) {
      forall q | q in front && q.id != c.id ensures Loses(m, q, c) {
        if q.id == p.id { DistinctIds(front, q, p); } else { LosesTransitive(m, q, p, c); }
      }
    }
  }

  lemma FirstVisit(m: Counters, c: Proxy)
    ensures Scanned(m, [c], Visit(Scan(m, None, 0), c))
  {
  }

  lemma {:induction false} ScanMeaning(m: Counters, es: seq<Proxy>)
    requires Roster(es)
    ensures Scanned(m, es, ScanOf(m, es))
  {
    hide Visit, Scanned;
    var front, c := es[..|es| - 1], es[|es| - 1];
    assert front + [c] == es;
    assert ScanOf(m, es) == Visit(ScanOf(m, front), c);
    if |es| == 1 {
      assert ScanOf(m, front) == Scan(m, None, 0);
      FirstVisit(m, c);
    } else {
      ScanMeaning(m, front);
      VisitMeaning(m, front, c, ScanOf(m, front));
    }
  }

  /** What one selection means, whatever computes it: the pick is the winner, every candidate's
      counter rises by its weight, the winner pays the total weight, and no other counter is kept. */
  ghost predicate Selects(m: Counters, es: seq<Proxy>, o: Pick) {
    && Wins(m, es, o.selected)
    && o.counters.Keys == Ids(es)
    && forall p :: p in es ==>
         o.counters[p.id] == Score(m, p) - (if p.id == o.selected.id then TotalWeight(es) else 0)
  }

  lemma SameName(es: seq<Proxy>, p: Proxy, q: Proxy)
    requires DistinctlyNamed(es) && p in es && q in es && p.id == q.id
    ensures p == q
  {
    var i :| 0 <= i < |es| && es[i] == p;
    var j :| 0 <= j < |es| && es[j] == q;
  }

  lemma DistinctIds(es: seq<Proxy>, p: Proxy, q: Proxy)
    requires Roster(es) && p in es && q in es && p.id == q.id
    ensures p == q
  {
    SameName(es, p, q);
  }

  lemma ChargeMeaning(m: Counters, es: seq<Proxy>, s: Scan)
    requires Roster(es) && Scanned(Pruned(m, Ids(es)), es, s)
    ensures s.selected.value.id in s.counters
    ensures var p := s.selected.value;
            Selects(m, es, Pick(s.counters[p.id := s.counters[p.id] - TotalWeight(es)], p))
  {
    hide Wins, Ids;
    PrunedScores(m, es);
    WinnerListed(Pruned(m, Ids(es)), es, s.selected.value);
    WinsSameScores(Pruned(m, Ids(es)), m, es, s.selected.value);
  }

  lemma PrunedScores(m: Counters, es: seq<Proxy>)
    ensures Pruned(m, Ids(es)).Keys <= Ids(es)
    ensures forall q :: q in es ==> q.id in Ids(es) && Score(Pruned(m, Ids(es)), q) == Score(m, q)
  {
  }

  lemma WinsSameScores(m: Counters, m': Counters, es: seq<Proxy>, p: Proxy)
    requires Wins(m, es, p) && forall q :: q in es ==> Score(m, q) == Score(m', q)
    ensures Wins(m', es, p)
  {
  }

  lemma StepMeaning(m: Counters, es: seq<Proxy>)
    requires Roster(es)
    ensures Selects(m, es, Step(m, es))
  {
    hide ScanOf, Selects, Scanned;
    ScanMeaning(Pruned(m, Ids(es)), es);
    ChargeMeaning(m, es, ScanOf(Pruned(m, Ids(es)), es));
  }

  /** The same on the counters and ids themselves: the pick has the highest raised counter, ties to the lesser id; it
      pays the total weight, the others rise by their weights, and nobody else has a counter. */
  lemma PickMeaning(m: Counters, es: seq<Proxy>, q: Proxy)
    requires Roster(es) && q in es
    ensures var o := Step(m, es); var p := o.selected;
            var mine, its := (if q.id in m then m[q.id] else 0) + q.weight, (if p.id in m then m[p.id] else 0) + p.weight;
            && p in es && q.id in o.counters
            && (q.id == p.id ==> q == p && o.counters[q.id] == mine - TotalWeight(es))
            && (q.id != p.id ==> o.counters[q.id] == mine && (mine < its || (mine == its && Text.Less(p.id, q.id))))
    ensures forall id :: id in Step(m, es).counters ==> exists e :: e in es && e.id == id
  {
    StepMeaning(m, es);
    var p := Step(m, es).selected;
    hide Step;
    assert q.id != p.id ==> Loses(m, q, p);
    if q.id == p.id { DistinctIds(es, q, p); }
  }

  /** The candidate of fs with the id and weight of e. */
  lemma TwinOf(es: seq<Proxy>, fs: seq<Proxy>, e: Proxy) returns (f: Proxy)
    requires Weights(es) == Weights(fs) && e in es
    ensures f in fs && f.id == e.id && f.weight == e.weight
  {
    assert (e.id, e.weight) in Weights(es);
    f :| f in fs && (f.id, f.weight) == (e.id, e.weight);
  }

  lemma WinnerUnique(m: Counters, es: seq<Proxy>, m': Counters, fs: seq<Proxy>, p: Proxy, p': Proxy)
    requires Wins(m, es, p) && Wins(m', fs, p') && Weights(es) == Weights(fs)
    requires forall e :: e in es ==> Get(m, e.id) == Get(m', e.id)
    ensures p.id == p'.id
  {
    if p.id != p'.id {
      var q := TwinOf(es, fs, p);
      var q' := TwinOf(fs, es, p');
      assert Loses(m, q', p) && Loses(m', q, p');
      assert Loses(m, p, q');
      LosesTransitive(m, p, q', p);
      Text.LessAsymmetric(p.id, p.id);
    }
  }
}
