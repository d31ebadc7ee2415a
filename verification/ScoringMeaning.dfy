/** What the numbers of a scored candidate mean, stated over the policy, the profile and the listing alone. */
module ScoringMeaning {
  import opened Collections
  import opened Documents
  import opened ScoringEvaluators
  import opened ScoringPolicy
  import opened ScoringEngine

  // ---- rounding ----

  /** Rounding gives a whole number of units, and of two equally near ones the even one. */
  lemma RoundEvenIsNearestEven(y: real)
    ensures -0.5 <= RoundEven(y) as real - y <= 0.5
    ensures forall n: int {:trigger n as real} :: n != RoundEven(y) && -0.5 <= n as real - y <= 0.5 ==>
              RoundEven(y) % 2 == 0
  {
    RoundEvenIsNear(y);
    var f := y.Floor;
    assert (f + 1) as real == f as real + 1.0;
    forall n: int {:trigger n as real} | n != RoundEven(y) && -0.5 <= n as real - y <= 0.5
      ensures RoundEven(y) % 2 == 0
    {
      assert n == f || n == f + 1;
    }
  }

  // ---- single criteria ----

  /** A budget is missed exactly by a known cost above it; otherwise the score is the share of the budget left, to four
      digits, and a cheaper listing never scores lower. */
  lemma BudgetMeans(p: Profile, l: Listing, dearer: Listing)
    ensures BudgetFit(p, l).state.Unknown? <==> l.totalCost.None?
    ensures BudgetFit(p, l).state.Mismatch? <==> l.totalCost.Some? && 0.0 < p.budgetMax < l.totalCost.value
    ensures l.totalCost.Some? && p.budgetMax <= 0.0 ==> BudgetFit(p, l).score == 1.0
    ensures l.totalCost.Some? && 0.0 <= l.totalCost.value <= p.budgetMax && p.budgetMax > 0.0 ==>
              -0.00005 <= BudgetFit(p, l).score - (p.budgetMax - l.totalCost.value) / p.budgetMax <= 0.00005
    ensures l.totalCost.Some? && dearer.totalCost.Some? && l.totalCost.value <= dearer.totalCost.value ==>
              BudgetFit(p, dearer).score <= BudgetFit(p, l).score
    ensures BudgetFit(p, l).confidence == if l.totalCost.None? then 0.0 else 1.0
  {
    if l.totalCost.Some? && p.budgetMax > 0.0 {
      var share := (p.budgetMax - l.totalCost.value) / p.budgetMax;
      RoundToStays(Clamp(share), 1.0, 4);
      RoundToIsNear(Clamp(share), 4);
      if 0.0 <= l.totalCost.value <= p.budgetMax { ShareInUnit(p.budgetMax, l.totalCost.value); }
      if dearer.totalCost.Some? && l.totalCost.value <= dearer.totalCost.value {
        OverKeepsOrder(p.budgetMax - dearer.totalCost.value, p.budgetMax - l.totalCost.value, p.budgetMax);
        RoundToKeepsOrder(Clamp((p.budgetMax - dearer.totalCost.value) / p.budgetMax), Clamp(share), 4);
      }
    }
  }

  lemma ShareInUnit(budget: real, cost: real)
    requires budget > 0.0 && 0.0 <= cost <= budget
    ensures 0.0 <= (budget - cost) / budget <= 1.0
  {
    OverKeepsOrder(0.0, budget - cost, budget);
    OverKeepsOrder(budget - cost, budget, budget);
  }

  /** Rooms never mismatch; only the exact number, or no wish, scores in full. */
  lemma RoomsMean(p: Profile, l: Listing)
    ensures !RoomsFit(p, l).state.Mismatch?
    ensures RoomsFit(p, l).state.Unknown? <==> p.minRooms != 0 && l.rooms.None?
    ensures RoomsFit(p, l).score == 1.0 <==> p.minRooms == 0 || l.rooms == Some(p.minRooms)
    ensures p.minRooms != 0 && l.rooms.Some? && l.rooms.value != p.minRooms ==> RoomsFit(p, l).score == 0.85
    ensures RoomsFit(p, l).state.Unknown? ==> RoomsFit(p, l) == Result(0.5, 0.0, Unknown)
    ensures !RoomsFit(p, l).state.Unknown? ==> RoomsFit(p, l).confidence == 1.0
  {
  }

  /** A surface is missed exactly below the minimum; above the maximum it only scores less, and less again beyond half
      as much more. */
  lemma SurfaceMeans(p: Profile, l: Listing)
    ensures var r := SurfaceFit(p, l);
            var wanted := p.surfaceMin.Some? || p.surfaceMax.Some?;
            && (r.state.Unknown? <==> wanted && l.surface.None?)
            && (r.state.Mismatch? <==>
                  p.surfaceMin.Some? && l.surface.Some? && l.surface.value < p.surfaceMin.value)
            && (!wanted ==> r.score == 1.0)
            && (r.state.Unknown? ==> r.score == 0.5 && r.confidence == 0.0)
            && (!r.state.Unknown? ==> r.confidence == 1.0)
            && (r.state.Mismatch? ==> r.score == 0.5)
            && (r.state.Match? && l.surface.Some? && p.surfaceMax.Some? ==>
                  (r.score == 1.0 <==> l.surface.value <= p.surfaceMax.value) &&
                  (r.score == 0.6 <==>
                     p.surfaceMax.value < l.surface.value && p.surfaceMax.value * 1.5 < l.surface.value) &&
                  (r.score == 1.0 || r.score == 0.8 || r.score == 0.6))
            && (r.state.Match? && p.surfaceMax.None? ==> r.score == 1.0)
  {
  }

  /** A location matches exactly when some wished zone is the neighborhood, up to letter case. */
  lemma ZoneMeans(fold: string -> string, p: Profile, l: Listing)
    ensures var r := ZoneFit(fold, p, l);
            var near := l.neighborhood.Some? && exists z :: z in p.zones && fold(z) == fold(l.neighborhood.value);
            && r.state == (if near then Match else Mismatch) && r.score == (if near then 1.0 else 0.3)
            && (l.precision == "exact" <==> r.confidence == 1.0)
            && (l.precision == "block" <==> r.confidence == 0.95)
            && (l.precision == "neighborhood" <==> r.confidence == 0.9)
            && (l.precision == "approximate" <==> r.confidence == 0.7)
            && r.confidence >= 0.5
  {
    if l.neighborhood.Some? {
      if z :| z in p.zones && fold(z) == fold(l.neighborhood.value) {
        var k :| 0 <= k < |p.zones| && p.zones[k] == z;
        assert fold(p.zones[k]) == fold(l.neighborhood.value);
      }
    }
  }

  /** A range is missed exactly below its minimum; above its maximum the score drops to 0.7. */
  lemma RangeMeans(value: Json, params: map<string, Json>)
    ensures var r, x := NumericRangeFit(value, params), AsFloat(value);
            var low, high := AsFloat(Get(params, "min")), AsFloat(Get(params, "max"));
            && (r.state.Unknown? <==> x.None?)
            && (r.state.Mismatch? <==> x.Some? && low.Some? && x.value < low.value)
            && (r.state.Match? ==>
                  r.confidence == 1.0 && r.score == if high.Some? && high.value < x.value then 0.7 else 1.0)
            && (r.state.Mismatch? ==> r.score == 0.0 && r.confidence == 1.0)
            && (r.state.Unknown? ==> r.score == 0.0 && r.confidence == 0.0)
  {
  }

  /** An observed feature matches from its threshold on, which is one half unless another one but zero is given. */
  lemma FeatureMeans(score: Json, confidence: Json, params: map<string, Json>)
    ensures var r, x, t := SemanticFit(score, confidence, params), AsFloat(score), AsFloat(Get(params, "threshold"));
            && (r.state.Unknown? <==> x.None?)
            && (x.Some? ==>
                  && (r.state.Match? <==> (if t.Some? && t.value != 0.0 then t.value else 0.5) <= x.value)
                  && -0.00005 <= r.score - x.value <= 0.00005
                  && r.confidence == (if AsFloat(confidence).Some? then AsFloat(confidence).value else x.value))
            && (x.None? ==> r.score == 0.0 && r.confidence == 0.0)
  {
    if AsFloat(score).Some? { RoundToIsNear(AsFloat(score).value, 4); }
  }

  // ---- sums ----

  function Sum(xs: seq<real>): real {
    if xs == [] then 0.0 else Sum(xs[..|xs| - 1]) + xs[|xs| - 1]
  }

  /** How a listing fits each criterion. */
  type Fitting = Criterion -> Result

  function FittingOf(x: Case): Fitting { (c: Criterion) => Fit(x, c) }

  /** An evaluation says how the listing fits, and contributes that much. */
  ghost predicate Says(ev: Criterion -> Evaluation, fit: Fitting) {
    forall c :: ev(c) == Evaluation(c.key, fit(c).score, fit(c).confidence, fit(c).state, Part(c.weight, fit(c).score))
  }

  function Part(weight: real, score: real): real { RoundTo(weight * score, 6) }

  lemma PartIsContribution(weight: real, score: real)
    ensures Part(weight, score) == Contribution(weight, score)
  {
  }

  lemma EvaluatorSays(x: Case)
    ensures Says(Evaluator(x), FittingOf(x))
  {
    forall c
      ensures Evaluator(x)(c) == Evaluation(c.key, FittingOf(x)(c).score, FittingOf(x)(c).confidence,
                FittingOf(x)(c).state, Part(c.weight, FittingOf(x)(c).score))
    {
      PartIsContribution(c.weight, Fit(x, c).score);
    }
  }

  /** The contribution of each criterion: weight times score, to six digits. */
  function Parts(fit: Fitting, cs: seq<Criterion>): seq<real> {
    seq(|cs|, k requires 0 <= k < |cs| => Part(cs[k].weight, fit(cs[k]).score))
  }

  function Trusts(fit: Fitting, cs: seq<Criterion>): seq<real> {
    seq(|cs|, k requires 0 <= k < |cs| => fit(cs[k]).confidence)
  }

  /** One for each criterion nothing is known about. */
  function Gaps(fit: Fitting, cs: seq<Criterion>): seq<real> {
    seq(|cs|, k requires 0 <= k < |cs| => if fit(cs[k]).state.Unknown? then 1.0 else 0.0)
  }

  lemma {:induction false} PartsSum(ev: Criterion -> Evaluation, fit: Fitting, cs: seq<Criterion>)
    requires Says(ev, fit)
    ensures Contributions(Evaluations(ev, cs)) == Sum(Parts(fit, cs))
  {
    if cs == [] {
    } else {
      var n := |cs| - 1;
      PartsSum(ev, fit, cs[..n]);
      assert Evaluations(ev, cs)[..n] == Evaluations(ev, cs[..n]);
      assert Parts(fit, cs)[..n] == Parts(fit, cs[..n]);
    }
  }

  lemma {:induction false} TrustsSum(ev: Criterion -> Evaluation, fit: Fitting, cs: seq<Criterion>)
    requires Says(ev, fit)
    ensures Confidences(Evaluations(ev, cs)) == Sum(Trusts(fit, cs))
    ensures Unknowns(Evaluations(ev, cs)) as real == Sum(Gaps(fit, cs))
  {
    if cs == [] {
    } else {
      var n := |cs| - 1;
      TrustsSum(ev, fit, cs[..n]);
      assert Evaluations(ev, cs)[..n] == Evaluations(ev, cs[..n]);
      assert Trusts(fit, cs)[..n] == Trusts(fit, cs[..n]) && Gaps(fit, cs)[..n] == Gaps(fit, cs[..n]);
    }
  }

  // ---- bonuses and penalties ----

  /** The criterion an adjustment names is in the state it names. */
  predicate Applies(fit: Fitting, cs: seq<Criterion>, d: Adjustment) {
    exists k :: 0 <= k < |cs| && cs[k].key == d.criterion && fit(cs[k]).state == d.state
  }

  function Changes(fit: Fitting, cs: seq<Criterion>, ds: seq<Adjustment>): seq<real> {
    seq(|ds|, k requires 0 <= k < |ds| => if Applies(fit, cs, ds[k]) then ds[k].delta else 0.0)
  }

  predicate KeysApart(cs: seq<Criterion>) {
    forall i, j :: 0 <= i < j < |cs| ==> cs[i].key != cs[j].key
  }

  lemma {:induction false} ByKeyFinds(es: seq<Evaluation>, key: string)
    requires forall i, j :: 0 <= i < j < |es| ==> es[i].key != es[j].key
    ensures ByKey(es, key).None? <==> forall k :: 0 <= k < |es| ==> es[k].key != key
    ensures forall k :: 0 <= k < |es| && es[k].key == key ==> ByKey(es, key) == Some(es[k])
  {
    if es == [] {
    } else {
      ByKeyFinds(es[..|es| - 1], key);
    }
  }

  lemma ByKeyApplies(ev: Criterion -> Evaluation, fit: Fitting, cs: seq<Criterion>, d: Adjustment)
    requires Says(ev, fit) && KeysApart(cs)
    ensures var e := ByKey(Evaluations(ev, cs), d.criterion);
            e.Some? && e.value.state == d.state <==> Applies(fit, cs, d)
  {
    var es := Evaluations(ev, cs);
    assert forall k :: 0 <= k < |cs| ==> es[k].key == cs[k].key && es[k].state == fit(cs[k]).state;
    ByKeyFinds(es, d.criterion);
  }

  lemma {:induction false} AdjustedSum(ev: Criterion -> Evaluation, fit: Fitting, cs: seq<Criterion>,
                                       ds: seq<Adjustment>, base: real)
    requires Says(ev, fit) && KeysApart(cs)
    ensures Adjusted(Evaluations(ev, cs), ds, base) == base + Sum(Changes(fit, cs, ds))
  {
    if ds == [] {
    } else {
      var n := |ds| - 1;
      AdjustedSum(ev, fit, cs, ds[..n], base);
      ByKeyApplies(ev, fit, cs, ds[n]);
      assert Changes(fit, cs, ds)[..n] == Changes(fit, cs, ds[..n]);
    }
  }

  lemma {:induction false} SumJoin(a: seq<real>, b: seq<real>)
    ensures Sum(a + b) == Sum(a) + Sum(b)
    decreases |b|
  {
    if b == [] {
      assert a + b == a;
    } else {
      SumJoin(a, b[..|b| - 1]);
      assert (a + b)[..|a + b| - 1] == a + b[..|b| - 1];
    }
  }

  /** Bonuses and penalties alike are added when they apply. */
  lemma AdjustmentsSum(ev: Criterion -> Evaluation, fit: Fitting, p: Policy, base: real)
    requires Says(ev, fit) && KeysApart(p.criteria)
    ensures Adjusted(Evaluations(ev, p.criteria), p.bonuses + p.penalties, base) ==
            base + Sum(Changes(fit, p.criteria, p.bonuses)) + Sum(Changes(fit, p.criteria, p.penalties))
  {
    AdjustedSum(ev, fit, p.criteria, p.bonuses + p.penalties, base);
    assert Changes(fit, p.criteria, p.bonuses + p.penalties) ==
           Changes(fit, p.criteria, p.bonuses) + Changes(fit, p.criteria, p.penalties);
    SumJoin(Changes(fit, p.criteria, p.bonuses), Changes(fit, p.criteria, p.penalties));
  }

  // ---- gates ----

  predicate CapHolds(fit: Fitting, cs: seq<Criterion>) {
    exists k :: 0 <= k < |cs| && Cuts(fit, cs[k])
  }

  predicate Cuts(fit: Fitting, c: Criterion) {
    (c.gate.CapOnMismatch? && fit(c).state.Mismatch?) || (c.gate.CapOnUnknown? && fit(c).state.Unknown?)
  }

  predicate Bars(fit: Fitting, c: Criterion) { c.gate.ExcludeOnMismatch? && fit(c).state.Mismatch? }

  lemma CapsAgree(ev: Criterion -> Evaluation, fit: Fitting, cs: seq<Criterion>)
    requires Says(ev, fit) && KeysApart(cs)
    ensures Capped(Evaluations(ev, cs), cs) <==> CapHolds(fit, cs)
  {
    var es := Evaluations(ev, cs);
    forall k | 0 <= k < |cs| ensures ResultFor(es, cs[k].key) == Some(ev(cs[k])) {
      ResultForFound(ev, cs, k);
    }
    if k :| 0 <= k < |cs| && Cuts(fit, cs[k]) {
      assert Gated(es, cs, CapOnMismatch, Mismatch) || Gated(es, cs, CapOnUnknown, Unknown);
    }
    if k :| 0 <= k < |cs| && cs[k].gate == CapOnMismatch && ev(cs[k]).state == Mismatch {
      assert Cuts(fit, cs[k]);
    }
    if k :| 0 <= k < |cs| && cs[k].gate == CapOnUnknown && ev(cs[k]).state == Unknown {
      assert Cuts(fit, cs[k]);
    }
  }

  lemma BarsAgree(ev: Criterion -> Evaluation, fit: Fitting, cs: seq<Criterion>)
    requires Says(ev, fit)
    ensures Excluded(ev, cs) <==> exists k :: 0 <= k < |cs| && Bars(fit, cs[k])
  {
    if k :| 0 <= k < |cs| && Bars(fit, cs[k]) { assert Excludes(ev, cs[k]); }
    if k :| 0 <= k < |cs| && Excludes(ev, cs[k]) { assert Bars(fit, cs[k]); }
  }

  // ---- the score and the confidence ----

  /** The weighted sum, plus every bonus and penalty whose criterion is in its state. */
  function Points(fit: Fitting, p: Policy): real {
    Sum(Parts(fit, p.criteria)) + Sum(Changes(fit, p.criteria, p.bonuses)) + Sum(Changes(fit, p.criteria, p.penalties))
  }

  /** Not below zero and not above the top, and rounded once. */
  function Within(points: real, top: real, digits: int): real {
    RoundTo(if points < 0.0 then 0.0 else if points > top then top else points, digits)
  }

  lemma FinalScoreIs(ev: Criterion -> Evaluation, fit: Fitting, p: Policy)
    requires Says(ev, fit) && KeysApart(p.criteria)
    ensures FinalScore(Evaluations(ev, p.criteria), p) ==
            Within(Points(fit, p), if CapHolds(fit, p.criteria) then 0.6 else 1.0, p.digits)
  {
    var es := Evaluations(ev, p.criteria);
    PartsSum(ev, fit, p.criteria);
    AdjustmentsSum(ev, fit, p, Contributions(es));
    CapsAgree(ev, fit, p.criteria);
  }

  /** A listing is scored exactly when no criterion bars it; its score is the points it earns, cut to 0.6 exactly when a
      cap holds and otherwise to 1. */
  lemma ScoreWrittenOut(x: Case, p: Policy)
    requires PolicyOk(p)
    ensures var fit := FittingOf(x);
            && (ScoreOf(x, p).None? <==> exists k :: 0 <= k < |p.criteria| && Bars(fit, p.criteria[k]))
            && (ScoreOf(x, p).Some? ==>
                  ScoreOf(x, p).value.id == x.listing.id &&
                  ScoreOf(x, p).value.score ==
                    Within(Points(fit, p), if CapHolds(fit, p.criteria) then 0.6 else 1.0, p.digits))
  {
    EvaluatorSays(x);
    BarsAgree(Evaluator(x), FittingOf(x), p.criteria);
    FinalScoreIs(Evaluator(x), FittingOf(x), p);
  }

  /** The mean less the penalty once for each gap, not below zero, to three digits. */
  function Trusted(sum: real, count: real, penalty: real, gaps: real): real
    requires count > 0.0
  {
    var left := sum / count - penalty * gaps;
    RoundTo(if left < 0.0 then 0.0 else left, 3)
  }

  lemma PenalizedIsTrusted(sum: real, count: nat, gaps: nat, penalty: real)
    requires count > 0
    ensures Penalized(sum, count, gaps, penalty) == Trusted(sum, count as real, penalty, gaps as real)
  {
  }

  /** The confidence is the mean over the criteria, less the penalty once for each unknown one. */
  lemma ConfidenceWrittenOut(x: Case, p: Policy)
    requires PolicyOk(p) && ScoreOf(x, p).Some?
    ensures ScoreOf(x, p).value.confidence ==
            Trusted(Sum(Trusts(FittingOf(x), p.criteria)), |p.criteria| as real, p.unknownPenalty,
                    Sum(Gaps(FittingOf(x), p.criteria)))
  {
    var es := Evaluations(Evaluator(x), p.criteria);
    EvaluatorSays(x);
    TrustsSum(Evaluator(x), FittingOf(x), p.criteria);
    PenalizedIsTrusted(Confidences(es), |es|, Unknowns(es), p.unknownPenalty);
  }
}
