/** Scoring candidates against a policy: early exit, gates, adjustments, rounding and the final order. */
module ScoringEngine {
  import opened Collections
  import opened Documents
  import opened ScoringEvaluators
  import opened ScoringPolicy

  type Observations = map<string, Observation>

  /** One listing with everything its score depends on besides the policy. */
  datatype Case = Case(fold: string -> string, profile: Profile, listing: Listing, observations: Observations)

  datatype Evaluation = Evaluation(key: string, score: real, confidence: real, state: Verdict, contribution: real)

  datatype Scored = Scored(id: int, score: real, confidence: real, evaluations: seq<Evaluation>)

  // ---- the score, without the order in which it is computed ----

  function Fit(x: Case, c: Criterion): Result {
    if IsFixed(c.key) then FixedFit(x.fold, c.key, x.profile, x.listing)
    else if c.concept !in x.observations then NoData()
    else ObservedFit(c.matcher, c.params, x.observations[c.concept])
  }

  function EvaluationOf(x: Case, c: Criterion): Evaluation {
    var r := Fit(x, c);
    Evaluation(c.key, r.score, r.confidence, r.state, Contribution(c.weight, r.score))
  }

  function Contribution(weight: real, score: real): real { RoundTo(weight * score, 6) }

  function Evaluator(x: Case): Criterion -> Evaluation {
    (c: Criterion) => EvaluationOf(x, c)
  }

  predicate Excludes(ev: Criterion -> Evaluation, c: Criterion) {
    c.gate.ExcludeOnMismatch? && ev(c).state.Mismatch?
  }

  predicate Excluded(ev: Criterion -> Evaluation, cs: seq<Criterion>) {
    exists k :: 0 <= k < |cs| && Excludes(ev, cs[k])
  }

  function Evaluations(ev: Criterion -> Evaluation, cs: seq<Criterion>): (es: seq<Evaluation>)
    ensures |es| == |cs|
    ensures forall k :: 0 <= k < |cs| ==> es[k] == ev(cs[k])
  {
    if cs == [] then [] else Evaluations(ev, cs[..|cs| - 1]) + [ev(cs[|cs| - 1])]
  }

  function Contributions(es: seq<Evaluation>): real {
    if es == [] then 0.0 else Contributions(es[..|es| - 1]) + es[|es| - 1].contribution
  }

  function Confidences(es: seq<Evaluation>): real {
    if es == [] then 0.0 else Confidences(es[..|es| - 1]) + es[|es| - 1].confidence
  }

  function Unknowns(es: seq<Evaluation>): nat {
    if es == [] then 0 else Unknowns(es[..|es| - 1]) + (if es[|es| - 1].state.Unknown? then 1 else 0)
  }

  /** The evaluation of a key, as a dictionary filled in order keeps it. */
  function ByKey(es: seq<Evaluation>, key: string): Option<Evaluation> {
    if es == [] then None
    else if es[|es| - 1].key == key then Some(es[|es| - 1])
    else ByKey(es[..|es| - 1], key)
  }

  /** The first evaluation of a key. */
  function ResultFor(es: seq<Evaluation>, key: string): Option<Evaluation> {
    if es == [] then None else if es[0].key == key then Some(es[0]) else ResultFor(es[1..], key)
  }

  function Adjusted(es: seq<Evaluation>, ds: seq<Adjustment>, base: real): real {
    if ds == [] then base
    else
      var d, before := ds[|ds| - 1], Adjusted(es, ds[..|ds| - 1], base);
      var e := ByKey(es, d.criterion);
      if e.Some? && e.value.state == d.state then before + d.delta else before
  }

  predicate Gated(es: seq<Evaluation>, cs: seq<Criterion>, gate: Gate, state: Verdict) {
    exists k :: 0 <= k < |cs| && cs[k].gate == gate &&
                var e := ResultFor(es, cs[k].key); e.Some? && e.value.state == state
  }

  predicate Capped(es: seq<Evaluation>, cs: seq<Criterion>) {
    Gated(es, cs, CapOnMismatch, Mismatch) || Gated(es, cs, CapOnUnknown, Unknown)
  }

  function Min(a: real, b: real): real { if a <= b then a else b }

  function Max(a: real, b: real): real { if a >= b then a else b }

  /** The mean less the penalty for what is unknown, before it is cut at zero and rounded. */
  function Raw(sum: real, count: real, penalty: real, unknowns: real): real
    requires count > 0.0
  {
    sum / count - penalty * unknowns
  }

  function Penalized(sum: real, count: nat, unknowns: nat, penalty: real): real {
    if count == 0 then 0.0 else RoundTo(Max(0.0, Raw(sum, count as real, penalty, unknowns as real)), 3)
  }

  function RunConfidence(es: seq<Evaluation>, penalty: real): real {
    Penalized(Confidences(es), |es|, Unknowns(es), penalty)
  }

  function Settled(total: real, capped: bool, digits: int): real {
    RoundTo(Clamp(if capped then Min(total, 0.6) else total), digits)
  }

  function FinalScore(es: seq<Evaluation>, p: Policy): real {
    Settled(Adjusted(es, p.bonuses + p.penalties, Contributions(es)), Capped(es, p.criteria), p.digits)
  }

  function ScoreOf(x: Case, p: Policy): Option<Scored> {
    if Excluded(Evaluator(x), p.criteria) then None
    else
      var es := Evaluations(Evaluator(x), p.criteria);
      Some(Scored(x.listing.id, FinalScore(es, p), RunConfidence(es, p.unknownPenalty), es))
  }

  // ---- the computation ----

  method ApplyDeltas(base: real, p: Policy, es: seq<Evaluation>) returns (total: real)
    ensures total == Adjusted(es, p.bonuses + p.penalties, base)
  {
    var ds := p.bonuses + p.penalties;
    total := base;
    var i := 0;
    while i < |ds|
      invariant 0 <= i <= |ds|
      invariant total == Adjusted(es, ds[..i], base)
    {
      assert ds[..i + 1][..i] == ds[..i];
      var e := ByKey(es, ds[i].criterion);
      if e.Some? && e.value.state == ds[i].state { total := total + ds[i].delta; }
      i := i + 1;
    }
    assert ds[..|ds|] == ds;
  }

  /** No criterion excludes, and these are the evaluations and their sum. */
  predicate Evaluated(ev: Criterion -> Evaluation, cs: seq<Criterion>, es: seq<Evaluation>, sum: real) {
    !Excluded(ev, cs) && es == Evaluations(ev, cs) && sum == Contributions(es)
  }

  lemma EvaluatedGrows(ev: Criterion -> Evaluation, cs: seq<Criterion>, c: Criterion, es: seq<Evaluation>, sum: real)
    requires Evaluated(ev, cs, es, sum) && !Excludes(ev, c)
    ensures Evaluated(ev, cs + [c], es + [ev(c)], sum + ev(c).contribution)
  {
    assert (cs + [c])[..|cs|] == cs;
    assert (es + [ev(c)])[..|es|] == es;
  }

  /** The evaluations and their weighted sum, unless some criterion excludes the listing. */
  method Evaluate(ev: Criterion -> Evaluation, cs: seq<Criterion>)
    returns (excluded: bool, es: seq<Evaluation>, sum: real)
    ensures excluded == Excluded(ev, cs)
    ensures !excluded ==> es == Evaluations(ev, cs) && sum == Contributions(es)
  {
    excluded, es, sum := false, [], 0.0;
    var i := 0;
    while i < |cs|
      invariant 0 <= i <= |cs|
      invariant Evaluated(ev, cs[..i], es, sum)
    {
      if Excludes(ev, cs[i]) { return true, es, sum; }
      var e := ev(cs[i]);
      EvaluatedGrows(ev, cs[..i], cs[i], es, sum);
      assert cs[..i + 1] == cs[..i] + [cs[i]];
      sum := sum + e.contribution;
      es := es + [e];
      i := i + 1;
    }
    assert cs[..|cs|] == cs;
  }

  method CapAndRound(total: real, p: Policy, es: seq<Evaluation>) returns (score: real)
    ensures score == Settled(total, Capped(es, p.criteria), p.digits)
  {
    var capped := total;
    if Gated(es, p.criteria, CapOnMismatch, Mismatch) { capped := Min(capped, 0.6); }
    if Gated(es, p.criteria, CapOnUnknown, Unknown) { capped := Min(capped, 0.6); }
    score := RoundTo(Max(0.0, Min(1.0, capped)), p.digits);
  }

  /** Stopping at the first excluding mismatch gives the same answer as evaluating everything. */
  method ScoreCandidate(x: Case, p: Policy) returns (r: Option<Scored>)
    ensures r == ScoreOf(x, p)
  {
    var excluded, es, sum := Evaluate(Evaluator(x), p.criteria);
    if excluded { return None; }
    var total := ApplyDeltas(sum, p, es);
    var score := CapAndRound(total, p, es);
    r := Some(Scored(x.listing.id, score, RunConfidence(es, p.unknownPenalty), es));
  }

  // ---- bounds ----

  predicate UnitScores(x: Case) {
    forall k :: k in x.observations ==> UnitScore(x.observations[k])
  }

  lemma FitInUnit(x: Case, c: Criterion)
    requires UnitScores(x)
    ensures InUnit(Fit(x, c).score)
  {
    if IsFixed(c.key) {
      FixedFitInUnit(x.fold, c.key, x.profile, x.listing);
    } else if c.concept in x.observations {
      ObservedFitInUnit(c.matcher, c.params, x.observations[c.concept]);
    }
  }

  lemma ProductOfUnits(w: real, s: real)
    requires InUnit(w) && InUnit(s)
    ensures 0.0 <= w * s <= w
  {
    assert w * (1.0 - s) >= 0.0;
  }

  lemma ContributionBounds(x: Case, c: Criterion)
    requires UnitScores(x) && InUnit(c.weight)
    ensures 0.0 <= EvaluationOf(x, c).contribution <= c.weight + 0.0000005
  {
    FitInUnit(x, c);
    ContributionOfUnits(c.weight, Fit(x, c).score);
  }

  lemma ContributionOfUnits(w: real, s: real)
    requires InUnit(w) && InUnit(s)
    ensures 0.0 <= Contribution(w, s) <= w + 0.0000005
  {
    ProductOfUnits(w, s);
    SixDigits(w * s, w);
  }

  lemma SixDigits(v: real, w: real)
    requires 0.0 <= v <= w && InUnit(w)
    ensures 0.0 <= RoundTo(v, 6) <= w + 0.0000005
  {
    RoundToIsNear(v, 6);
    RoundToStays(v, 1.0, 6);
    assert (RoundTo(v, 6) - v) * 1000000.0 <= 0.5;
  }

  lemma {:induction false} SumBounds(x: Case, cs: seq<Criterion>)
    requires UnitScores(x) && forall k :: 0 <= k < |cs| ==> InUnit(cs[k].weight)
    ensures 0.0 <= Contributions(Evaluations(Evaluator(x), cs)) <= TotalWeight(cs) + |cs| as real * 0.0000005
  {
    if cs == [] {
    } else {
      var rest, c := cs[..|cs| - 1], cs[|cs| - 1];
      SumBounds(x, rest);
      ContributionBounds(x, c);
      assert Evaluations(Evaluator(x), cs)[..|cs| - 1] == Evaluations(Evaluator(x), rest);
    }
  }

  /** For an accepted policy and scores in the unit interval, the weighted sum is bounded. */
  lemma WeightedSumBounds(x: Case, p: Policy)
    requires PolicyOk(p) && UnitScores(x)
    ensures var sum := Contributions(Evaluations(Evaluator(x), p.criteria));
            0.0 <= sum <= 1.0 + EPSILON + |p.criteria| as real * 0.0000005
  {
    SumBounds(x, p.criteria);
  }

  ghost predicate Keyed(ev: Criterion -> Evaluation) {
    forall c :: ev(c).key == c.key
  }

  lemma {:induction false} ResultForFound(ev: Criterion -> Evaluation, cs: seq<Criterion>, k: nat)
    requires Keyed(ev)
    requires k < |cs| && forall i, j :: 0 <= i < j < |cs| ==> cs[i].key != cs[j].key
    ensures ResultFor(Evaluations(ev, cs), cs[k].key) == Some(ev(cs[k]))
  {
    var es := Evaluations(ev, cs);
    if k == 0 {
    } else {
      ResultForFound(ev, cs[1..], k - 1);
      assert es[1..] == Evaluations(ev, cs[1..]);
      assert es[0].key != cs[k].key;
    }
  }

  /** A cap gate whose criterion is in its state. */
  predicate CapTriggered(x: Case, c: Criterion) {
    (c.gate.CapOnMismatch? && Fit(x, c).state.Mismatch?) || (c.gate.CapOnUnknown? && Fit(x, c).state.Unknown?)
  }

  /** Whatever bonuses and penalties do, a score is in the unit interval, and a triggered cap survives rounding. */
  lemma ScoreBounds(x: Case, p: Policy)
    requires PolicyOk(p)
    ensures ScoreOf(x, p).Some? ==> InUnit(ScoreOf(x, p).value.score)
    ensures ScoreOf(x, p).Some? && (exists k :: 0 <= k < |p.criteria| && CapTriggered(x, p.criteria[k])) ==>
              ScoreOf(x, p).value.score <= 0.6
  {
    var es := Evaluations(Evaluator(x), p.criteria);
    var total := Adjusted(es, p.bonuses + p.penalties, Contributions(es));
    RoundToStays(Clamp(if Capped(es, p.criteria) then Min(total, 0.6) else total), 1.0, p.digits);
    if k :| 0 <= k < |p.criteria| && CapTriggered(x, p.criteria[k]) {
      ResultForFound(Evaluator(x), p.criteria, k);
      RoundToStays(Clamp(Min(total, 0.6)), 0.6, p.digits);
    }
  }

  // ---- the order of the criteria ----

  lemma {:induction false} SumsSplit(a: seq<Evaluation>, b: seq<Evaluation>)
    ensures Contributions(a + b) == Contributions(a) + Contributions(b)
    ensures Confidences(a + b) == Confidences(a) + Confidences(b)
    ensures Unknowns(a + b) == Unknowns(a) + Unknowns(b)
    decreases |b|
  {
    if b == [] {
      assert a + b == a;
    } else {
      SumsSplit(a, b[..|b| - 1]);
      assert (a + b)[..|a + b| - 1] == a + b[..|b| - 1];
    }
  }

  lemma {:induction false} SumsIgnoreOrder(a: seq<Evaluation>, b: seq<Evaluation>)
    requires multiset(a) == multiset(b)
    ensures Contributions(a) == Contributions(b) && Confidences(a) == Confidences(b) && Unknowns(a) == Unknowns(b)
    decreases |a|
  {
    assert |a| == |multiset(a)| == |b|;
    if a == [] {
    } else {
      var x, rest := a[|a| - 1], a[..|a| - 1];
      var i := TakeOut(a, b);
      assert b == b[..i] + [x] + b[i + 1..];
      SumsIgnoreOrder(rest, b[..i] + b[i + 1..]);
      SumsSplit(b[..i], b[i + 1..]);
      SumsSplit(b[..i] + [x], b[i + 1..]);
    }
  }

  lemma EvaluationsSplit(ev: Criterion -> Evaluation, a: seq<Criterion>, b: seq<Criterion>)
    ensures Evaluations(ev, a + b) == Evaluations(ev, a) + Evaluations(ev, b)
  {
  }

  lemma EvaluationsPutIn(ev: Criterion -> Evaluation, a: seq<Criterion>, c: Criterion, b: seq<Criterion>)
    ensures multiset(Evaluations(ev, a + [c] + b)) == multiset(Evaluations(ev, a + b)) + multiset{ev(c)}
  {
    EvaluationsSplit(ev, a + [c], b);
    EvaluationsSplit(ev, a, [c]);
    EvaluationsSplit(ev, a, b);
    assert Evaluations(ev, [c]) == [ev(c)];
    PutIn(Evaluations(ev, a), ev(c), Evaluations(ev, b));
  }

  lemma {:induction false} EvaluationsMultiset(ev: Criterion -> Evaluation, cs: seq<Criterion>, ds: seq<Criterion>)
    requires multiset(cs) == multiset(ds)
    ensures multiset(Evaluations(ev, cs)) == multiset(Evaluations(ev, ds))
    decreases |cs|
  {
    assert |cs| == |multiset(cs)| == |ds|;
    if cs == [] {
    } else {
      var i := TakeOut(cs, ds);
      EvaluationsMultiset(ev, cs[..|cs| - 1], ds[..i] + ds[i + 1..]);
      EvaluationsBack(ev, cs[..|cs| - 1], ds[i], ds[..i], ds[i + 1..]);
    }
  }

  lemma EvaluationsBack(ev: Criterion -> Evaluation, rest: seq<Criterion>, c: Criterion, a: seq<Criterion>,
                        b: seq<Criterion>)
    requires multiset(Evaluations(ev, rest)) == multiset(Evaluations(ev, a + b))
    ensures multiset(Evaluations(ev, rest + [c])) == multiset(Evaluations(ev, a + [c] + b))
  {
    EvaluationsSplit(ev, rest, [c]);
    assert Evaluations(ev, [c]) == [ev(c)];
    EvaluationsPutIn(ev, a, c, b);
  }

  predicate DistinctKeys(cs: seq<Criterion>) {
    forall i, j :: 0 <= i < j < |cs| ==> cs[i].key != cs[j].key
  }

  lemma DistinctEitherWay(cs: seq<Criterion>, ds: seq<Criterion>)
    requires multiset(cs) == multiset(ds) && DistinctKeys(cs)
    ensures DistinctKeys(ds)
  {
    assert Distinct(cs);
    StaysDistinct(cs, ds);
    forall i, j | 0 <= i < j < |ds| ensures ds[i].key != ds[j].key {
      var a := SameMembers(ds, cs, i);
      var b := SameMembers(ds, cs, j);
      assert ds[i] != ds[j];
    }
  }

  lemma {:induction false} ByKeyFound(ev: Criterion -> Evaluation, cs: seq<Criterion>, k: nat)
    requires Keyed(ev)
    requires k < |cs| && DistinctKeys(cs)
    ensures ByKey(Evaluations(ev, cs), cs[k].key) == Some(ev(cs[k]))
  {
    var es, n := Evaluations(ev, cs), |cs| - 1;
    if k < n {
      ByKeyFound(ev, cs[..n], k);
      assert es[..n] == Evaluations(ev, cs[..n]);
      assert es[n].key != cs[k].key;
    }
  }

  lemma {:induction false} ByKeyMissing(es: seq<Evaluation>, key: string)
    requires forall k :: 0 <= k < |es| ==> es[k].key != key
    ensures ByKey(es, key).None?
  {
    if es == [] {
    } else {
      ByKeyMissing(es[..|es| - 1], key);
    }
  }

  lemma ByKeyIgnoresOrder(ev: Criterion -> Evaluation, cs: seq<Criterion>, ds: seq<Criterion>, key: string)
    requires Keyed(ev)
    requires multiset(cs) == multiset(ds) && DistinctKeys(cs) && DistinctKeys(ds)
    ensures ByKey(Evaluations(ev, cs), key) == ByKey(Evaluations(ev, ds), key)
  {
    if k :| 0 <= k < |cs| && cs[k].key == key {
      assert cs[k] in multiset(ds);
      var j :| 0 <= j < |ds| && ds[j] == cs[k];
      ByKeyFound(ev, cs, k);
      ByKeyFound(ev, ds, j);
    } else {
      forall j | 0 <= j < |ds| ensures ds[j].key != key { assert ds[j] in multiset(cs); }
      ByKeyMissing(Evaluations(ev, cs), key);
      ByKeyMissing(Evaluations(ev, ds), key);
    }
  }

  lemma {:induction false} AdjustedIgnoresOrder(ev: Criterion -> Evaluation, cs: seq<Criterion>, ds: seq<Criterion>,
                                                adjustments: seq<Adjustment>, base: real)
    requires Keyed(ev)
    requires multiset(cs) == multiset(ds) && DistinctKeys(cs) && DistinctKeys(ds)
    ensures Adjusted(Evaluations(ev, cs), adjustments, base) == Adjusted(Evaluations(ev, ds), adjustments, base)
  {
    if adjustments == [] {
    } else {
      var n := |adjustments| - 1;
      AdjustedIgnoresOrder(ev, cs, ds, adjustments[..n], base);
      ByKeyIgnoresOrder(ev, cs, ds, adjustments[n].criterion);
    }
  }

  lemma GatedIgnoresOrder(ev: Criterion -> Evaluation, cs: seq<Criterion>, ds: seq<Criterion>, gate: Gate,
                          state: Verdict)
    requires Keyed(ev)
    requires multiset(cs) == multiset(ds) && DistinctKeys(cs) && DistinctKeys(ds)
    requires Gated(Evaluations(ev, cs), cs, gate, state)
    ensures Gated(Evaluations(ev, ds), ds, gate, state)
  {
    var es := Evaluations(ev, cs);
    var k :| && 0 <= k < |cs| && cs[k].gate == gate
             && ResultFor(es, cs[k].key).Some? && ResultFor(es, cs[k].key).value.state == state;
    assert cs[k] in multiset(ds);
    var j :| 0 <= j < |ds| && ds[j] == cs[k];
    ResultForFound(ev, cs, k);
    ResultForFound(ev, ds, j);
  }

  lemma ExcludedIgnoresOrder(ev: Criterion -> Evaluation, cs: seq<Criterion>, ds: seq<Criterion>)
    requires multiset(cs) == multiset(ds) && Excluded(ev, cs)
    ensures Excluded(ev, ds)
  {
    var k :| 0 <= k < |cs| && Excludes(ev, cs[k]);
    assert cs[k] in multiset(ds);
    var j :| 0 <= j < |ds| && ds[j] == cs[k];
  }

  lemma CappedIgnoresOrder(ev: Criterion -> Evaluation, cs: seq<Criterion>, ds: seq<Criterion>)
    requires Keyed(ev)
    requires multiset(cs) == multiset(ds) && DistinctKeys(cs) && DistinctKeys(ds)
    requires Capped(Evaluations(ev, cs), cs)
    ensures Capped(Evaluations(ev, ds), ds)
  {
    if Gated(Evaluations(ev, cs), cs, CapOnMismatch, Mismatch) {
      GatedIgnoresOrder(ev, cs, ds, CapOnMismatch, Mismatch);
    } else {
      GatedIgnoresOrder(ev, cs, ds, CapOnUnknown, Unknown);
    }
  }

  lemma FinalScoreIgnoresOrder(ev: Criterion -> Evaluation, p: Policy, q: Policy)
    requires Keyed(ev)
    requires q == p.(criteria := q.criteria) && multiset(p.criteria) == multiset(q.criteria)
    requires DistinctKeys(p.criteria) && DistinctKeys(q.criteria)
    ensures FinalScore(Evaluations(ev, p.criteria), p) == FinalScore(Evaluations(ev, q.criteria), q)
  {
    var cs, ds := p.criteria, q.criteria;
    var es, fs := Evaluations(ev, cs), Evaluations(ev, ds);
    EvaluationsMultiset(ev, cs, ds);
    SumsIgnoreOrder(es, fs);
    AdjustedIgnoresOrder(ev, cs, ds, p.bonuses + p.penalties, Contributions(es));
    if Capped(es, cs) { CappedIgnoresOrder(ev, cs, ds); }
    if Capped(fs, ds) { CappedIgnoresOrder(ev, ds, cs); }
  }

  lemma ConfidenceIgnoresOrder(ev: Criterion -> Evaluation, cs: seq<Criterion>, ds: seq<Criterion>, penalty: real)
    requires multiset(cs) == multiset(ds)
    ensures RunConfidence(Evaluations(ev, cs), penalty) == RunConfidence(Evaluations(ev, ds), penalty)
  {
    EvaluationsMultiset(ev, cs, ds);
    SumsIgnoreOrder(Evaluations(ev, cs), Evaluations(ev, ds));
    assert |cs| == |multiset(cs)| == |ds|;
  }

  /** Listing the criteria in another order changes neither who is excluded nor any score or confidence. */
  lemma CriteriaOrderIsIrrelevant(x: Case, p: Policy, q: Policy)
    requires PolicyOk(p) && q == p.(criteria := q.criteria) && multiset(p.criteria) == multiset(q.criteria)
    ensures ScoreOf(x, p).Some? == ScoreOf(x, q).Some?
    ensures ScoreOf(x, p).Some? ==>
              ScoreOf(x, p).value.score == ScoreOf(x, q).value.score &&
              ScoreOf(x, p).value.confidence == ScoreOf(x, q).value.confidence
  {
    if Excluded(Evaluator(x), p.criteria) { ExcludedIgnoresOrder(Evaluator(x), p.criteria, q.criteria); }
    if Excluded(Evaluator(x), q.criteria) { ExcludedIgnoresOrder(Evaluator(x), q.criteria, p.criteria); }
    assert DistinctKeys(p.criteria);
    DistinctEitherWay(p.criteria, q.criteria);
    FinalScoreIgnoresOrder(Evaluator(x), p, q);
    ConfidenceIgnoresOrder(Evaluator(x), p.criteria, q.criteria, p.unknownPenalty);
  }
}
