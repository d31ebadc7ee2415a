/** When the confidence of a scored candidate stays within the unit interval. */
module ScoringConfidence {
  import opened Collections
  import opened Documents
  import opened ScoringEvaluators
  import opened ScoringPolicy
  import opened ScoringEngine

  // ---- rounding at one ----

  lemma RoundEvenAtMost(y: real)
    ensures RoundEven(y) <= 1000 <==> y <= 1000.5
  {
    var f := y.Floor;
    assert f as real <= y < f as real + 1.0;
    if f < 1000 {
      assert f as real <= 999.0;
    } else if f > 1000 {
      assert f as real >= 1001.0;
    }
  }

  lemma OverThousand(a: real)
    ensures a / 1000.0 <= 1.0 <==> a <= 1000.0
  {
  }

  /** Three digits leave half a thousandth of slack above one. */
  lemma RoundsToAtMostOne(v: real)
    ensures RoundTo(v, 3) <= 1.0 <==> v <= 1.0005
  {
    RoundEvenAtMost(v * 1000.0);
    OverThousand(RoundEven(v * 1000.0) as real);
    assert RoundTo(v, 3) == RoundEven(v * 1000.0) as real / 1000.0;
    assert v * 1000.0 <= 1000.5 <==> v <= 1.0005;
  }

  // ---- how far evaluations are trusted ----

  /** Observations whose confidence, or score where they give none, lies in the unit interval. */
  predicate UnitTrust(x: Case) {
    forall k :: k in x.observations ==>
      var c, s := AsFloat(x.observations[k].confidence), AsFloat(x.observations[k].score);
      if c.Some? then InUnit(c.value) else s.Some? ==> InUnit(s.value)
  }

  /** Confidences in the unit interval, and none in what is unknown. */
  predicate Trusting(es: seq<Evaluation>) {
    forall k :: 0 <= k < |es| ==> InUnit(es[k].confidence) && (es[k].state.Unknown? ==> es[k].confidence == 0.0)
  }

  /** The evaluators trust an unknown not at all, and the location is never unknown. */
  lemma FitTrust(x: Case, c: Criterion)
    requires UnitTrust(x)
    ensures InUnit(Fit(x, c).confidence)
    ensures Fit(x, c).state.Unknown? ==> Fit(x, c).confidence == 0.0 && c.key != "ubicacion"
  {
    if IsFixed(c.key) { FixedFitInUnit(x.fold, c.key, x.profile, x.listing); }
  }

  lemma EvaluationsTrust(x: Case, cs: seq<Criterion>)
    requires UnitTrust(x)
    ensures Trusting(Evaluations(Evaluator(x), cs))
  {
    forall k | 0 <= k < |cs| ensures InUnit(Evaluations(Evaluator(x), cs)[k].confidence) { FitTrust(x, cs[k]); }
    forall k | 0 <= k < |cs| && Evaluations(Evaluator(x), cs)[k].state.Unknown?
      ensures Evaluations(Evaluator(x), cs)[k].confidence == 0.0
    {
      FitTrust(x, cs[k]);
    }
  }

  lemma {:induction false} ConfidencesAtMost(es: seq<Evaluation>)
    requires Trusting(es)
    ensures 0.0 <= Confidences(es) <= |es| as real - Unknowns(es) as real
  {
    if es == [] {
    } else {
      ConfidencesAtMost(es[..|es| - 1]);
    }
  }

  // ---- the bound ----

  lemma MeanAtMost(sum: real, count: real, rest: real)
    requires count > 0.0 && sum <= count - rest
    ensures sum / count <= 1.0 - rest * (1.0 / count)
  {
    OverKeepsOrder(sum, count - rest, count);
    assert (count - rest) / count == 1.0 - rest * (1.0 / count);
  }

  /** Each unknown moves the result by the same amount, so the worst is none of them or all of them. */
  lemma WorstIsAnEnd(sum: real, count: real, u: real, m: real, penalty: real)
    requires count > 0.0 && 0.0 <= u <= m && sum <= count - u
    ensures Raw(sum, count, penalty, u) <= 1.0 || Raw(sum, count, penalty, u) <= Raw(count - m, count, penalty, m)
  {
    var d := -penalty - 1.0 / count;
    MeanAtMost(sum, count, u);
    Slope(count, u, penalty);
    Slope(count, m, penalty);
    if d <= 0.0 {
      TimesNonPositive(u, d);
    } else {
      TimesKeepsOrder(u, m, d);
    }
  }

  lemma TimesNonPositive(u: real, d: real)
    requires 0.0 <= u && d <= 0.0
    ensures u * d <= 0.0
  {
  }

  lemma Slope(count: real, u: real, penalty: real)
    requires count > 0.0
    ensures 1.0 - u * (1.0 / count) - penalty * u == 1.0 + u * (-penalty - 1.0 / count)
    ensures Raw(count - u, count, penalty, u) == 1.0 + u * (-penalty - 1.0 / count)
  {
    assert (count - u) / count == 1.0 - u * (1.0 / count);
    assert u * (-penalty - 1.0 / count) == -(penalty * u) - u * (1.0 / count);
  }

  lemma AtMostOneIff(es: seq<Evaluation>, penalty: real)
    requires es != []
    ensures RunConfidence(es, penalty) <= 1.0 <==>
            Raw(Confidences(es), |es| as real, penalty, Unknowns(es) as real) <= 1.0005
    ensures 0.0 <= RunConfidence(es, penalty)
  {
    var raw := Raw(Confidences(es), |es| as real, penalty, Unknowns(es) as real);
    RoundsToAtMostOne(Max(0.0, raw));
    RoundToKeepsOrder(0.0, Max(0.0, raw), 3);
    RoundToFixes(3);
  }

  /** At most m unknowns, and the end with m of them within the slack: the confidence is at most one. */
  lemma BoundedConfidence(es: seq<Evaluation>, m: nat, penalty: real)
    requires es != [] && Trusting(es) && Unknowns(es) <= m
    requires Raw(|es| as real - m as real, |es| as real, penalty, m as real) <= 1.0005
    ensures RunConfidence(es, penalty) <= 1.0
  {
    ConfidencesAtMost(es);
    WorstIsAnEnd(Confidences(es), |es| as real, Unknowns(es) as real, m as real, penalty);
    AtMostOneIff(es, penalty);
  }

  // ---- all evaluation lists of one length ----

  const DOUBT: Evaluation := Evaluation("", 0.0, 0.0, Unknown, 0.0)

  function Doubts(n: nat): (es: seq<Evaluation>)
    ensures |es| == n
    ensures forall k :: 0 <= k < n ==> es[k] == DOUBT
  {
    if n == 0 then [] else Doubts(n - 1) + [DOUBT]
  }

  lemma {:induction false} DoubtsAreUnknown(n: nat)
    ensures Unknowns(Doubts(n)) == n && Confidences(Doubts(n)) == 0.0
  {
    if n == 0 {
    } else {
      DoubtsAreUnknown(n - 1);
      assert Doubts(n)[..n - 1] == Doubts(n - 1);
    }
  }

  lemma {:induction false} UnknownsAtMost(es: seq<Evaluation>)
    ensures Unknowns(es) <= |es|
  {
    if es == [] {
    } else {
      UnknownsAtMost(es[..|es| - 1]);
    }
  }

  lemma RawOfDoubts(n: nat, penalty: real)
    requires n > 0
    ensures Raw(0.0, n as real, penalty, n as real) == -penalty * n as real
  {
  }

  /** For n criteria the confidence is at most one, whatever the evaluations, exactly when -penalty * n <= 1.0005. */
  lemma ConfidenceAtMostOneIff(n: nat, penalty: real)
    requires n > 0
    ensures (forall es :: |es| == n && Trusting(es) ==> RunConfidence(es, penalty) <= 1.0) <==>
            -penalty * n as real <= 1.0005
  {
    RawOfDoubts(n, penalty);
    if -penalty * n as real <= 1.0005 {
      forall es | |es| == n && Trusting(es) ensures RunConfidence(es, penalty) <= 1.0 {
        UnknownsAtMost(es);
        BoundedConfidence(es, n, penalty);
      }
    } else {
      DoubtsAreUnknown(n);
      AtMostOneIff(Doubts(n), penalty);
      assert !(RunConfidence(Doubts(n), penalty) <= 1.0);
    }
  }

  // ---- all listings scored by one policy ----

  /** The criteria that can be unknown: all but the location. */
  function Doubtable(cs: seq<Criterion>): (m: nat)
    ensures m <= |cs|
  {
    if cs == [] then 0
    else Doubtable(cs[..|cs| - 1]) + (if cs[|cs| - 1].key == "ubicacion" then 0 else 1)
  }

  lemma {:induction false} UnknownsAreDoubtable(x: Case, cs: seq<Criterion>)
    requires UnitTrust(x)
    ensures Unknowns(Evaluations(Evaluator(x), cs)) <= Doubtable(cs)
  {
    if cs == [] {
    } else {
      var n := |cs| - 1;
      UnknownsAreDoubtable(x, cs[..n]);
      FitTrust(x, cs[n]);
      assert Evaluations(Evaluator(x), cs)[..n] == Evaluations(Evaluator(x), cs[..n]);
    }
  }

  /** The confidence before rounding of a listing about which nothing but an exact, wanted location is known. */
  function WorstCase(p: Policy): real
    requires p.criteria != []
  {
    var n, m := |p.criteria| as real, Doubtable(p.criteria) as real;
    Raw(n - m, n, p.unknownPenalty, m)
  }

  function BareListing(): Case {
    Case((s: string) => s, Profile(1.0, 1, Some(1.0), None, ["z"]), Listing(0, None, None, None, Some("z"), "exact"),
         map[])
  }

  lemma BareFit(c: Criterion)
    ensures Fit(BareListing(), c).state.Unknown? <==> c.key != "ubicacion"
    ensures Fit(BareListing(), c).confidence == if c.key == "ubicacion" then 1.0 else 0.0
    ensures !Fit(BareListing(), c).state.Mismatch?
  {
    var x := BareListing();
    assert x.profile.zones[0] == "z" && x.fold(x.profile.zones[0]) == x.fold(x.listing.neighborhood.value);
  }

  lemma {:induction false} BareEvaluations(cs: seq<Criterion>)
    ensures var es := Evaluations(Evaluator(BareListing()), cs);
            && Unknowns(es) == Doubtable(cs) && Confidences(es) == |cs| as real - Doubtable(cs) as real
            && !Excluded(Evaluator(BareListing()), cs)
  {
    forall k | 0 <= k < |cs| ensures !Excludes(Evaluator(BareListing()), cs[k]) { BareFit(cs[k]); }
    if cs == [] {
    } else {
      var n := |cs| - 1;
      BareEvaluations(cs[..n]);
      BareFit(cs[n]);
      assert Evaluations(Evaluator(BareListing()), cs)[..n] == Evaluations(Evaluator(BareListing()), cs[..n]);
    }
  }

  ghost predicate ConfidenceFits(x: Case, p: Policy) {
    UnitTrust(x) && ScoreOf(x, p).Some? ==> InUnit(ScoreOf(x, p).value.confidence)
  }

  lemma WorstCaseBounds(x: Case, p: Policy)
    requires p.criteria != [] && WorstCase(p) <= 1.0005
    ensures ConfidenceFits(x, p)
  {
    if UnitTrust(x) {
      var es := Evaluations(Evaluator(x), p.criteria);
      EvaluationsTrust(x, p.criteria);
      UnknownsAreDoubtable(x, p.criteria);
      BoundedConfidence(es, Doubtable(p.criteria), p.unknownPenalty);
      AtMostOneIff(es, p.unknownPenalty);
    }
  }

  lemma WorstCaseIsReached(p: Policy)
    requires p.criteria != [] && WorstCase(p) > 1.0005
    ensures !ConfidenceFits(BareListing(), p)
  {
    BareEvaluations(p.criteria);
    AtMostOneIff(Evaluations(Evaluator(BareListing()), p.criteria), p.unknownPenalty);
  }

  /** Every listing with observations trusted within the unit interval is scored with such a confidence exactly when
      the worst case of the policy is within the rounding slack. */
  lemma ConfidenceInUnitIff(p: Policy)
    requires p.criteria != []
    ensures (forall x :: ConfidenceFits(x, p)) <==> WorstCase(p) <= 1.0005
  {
    if WorstCase(p) <= 1.0005 {
      forall x ensures ConfidenceFits(x, p) { WorstCaseBounds(x, p); }
    } else {
      WorstCaseIsReached(p);
    }
  }

  lemma NonNegativeStaysBelowOne(n: real, m: real, penalty: real)
    requires n > 0.0 && m >= 0.0 && penalty >= 0.0
    ensures Raw(n - m, n, penalty, m) <= 1.0
  {
    Slope(n, m, penalty);
    assert 1.0 / n > 0.0;
    TimesNonPositive(m, -penalty - 1.0 / n);
  }

  /** In particular for every accepted policy whose penalty is not negative. */
  lemma ConfidenceInUnit(x: Case, p: Policy)
    requires PolicyOk(p) && p.unknownPenalty >= 0.0
    ensures ConfidenceFits(x, p)
  {
    NonNegativeStaysBelowOne(|p.criteria| as real, Doubtable(p.criteria) as real, p.unknownPenalty);
    WorstCaseBounds(x, p);
  }

  // ---- a policy that escapes the bound ----

  const REGISTRY: Registry := map["semantic_feature" := Spec(SemanticFeature, {})]

  const CRITERION: Json := JMap(map["key" := JText("a"), "concept" := JText("a"), "weight" := JInt(1),
                                    "matcher_type" := JText("semantic_feature"), "params" := JMap(map[])])

  const DOCUMENT: map<string, Json> :=
    map["contract_version" := JText("1"), "score_policy_version" := JText("v"),
        "confidence" := JMap(map["unknown_penalty" := JInt(-2)]),
        "criteria" := JList([CRITERION]), "tie_break" := JList([JText("score")])]

  lemma OneEntry(reg: Registry, raw: Json)
    requires EntryOk(reg, raw) && AsFloat(Get(raw.fields, "weight")) == Some(1.0)
    ensures CriteriaOk(reg, JList([raw])) && CriteriaOf(reg, [raw]) == [CriterionOf(reg, raw)]
  {
    var c := CriterionOf(reg, raw);
    assert Clean(reg, [raw]);
    assert CriteriaOf(reg, [raw]) == [c];
    assert [c][..0] == [] && TotalWeight([c]) == 1.0;
  }

  lemma EntryIsRead()
    ensures EntryOk(REGISTRY, CRITERION) && AsFloat(Get(CRITERION.fields, "weight")) == Some(1.0)
    ensures CriterionOf(REGISTRY, CRITERION).key == "a"
  {
    assert Get(CRITERION.fields, "params").fields.Keys == {};
  }

  lemma HeadersAreRead()
    ensures HeaderOk(DOCUMENT) && TieBreakOk(Get(DOCUMENT, "tie_break"))
    ensures Get(DOCUMENT, "criteria") == JList([CRITERION])
    ensures Get(DOCUMENT, "bonuses") == JNull && Get(DOCUMENT, "penalties") == JNull
    ensures UnknownPenalty(Get(DOCUMENT, "confidence")) == -2.0
  {
  }

  lemma ConfidenceTwo(p: Policy, c: Criterion)
    requires p.criteria == [c] && p.unknownPenalty == -2.0 && c.key != "ubicacion"
    ensures ScoreOf(BareListing(), p).Some? && ScoreOf(BareListing(), p).value.confidence == 2.0
  {
    BareEvaluations([c]);
    assert [c][..0] == [] && Doubtable([c]) == 1;
    assert Raw(0.0, 1.0, -2.0, 1.0) == 2.0;
    RoundEvenFixesIntegers(2000);
    assert 2.0 * Grid(3) == 2000.0 && RoundTo(2.0, 3) == 2.0;
  }

  /** A document the parser accepts, under which a listing without observations has confidence 2. */
  lemma NegativePenaltyEscapes()
    ensures Acceptable(REGISTRY, DOCUMENT)
    ensures var p := PolicyOf(REGISTRY, DOCUMENT);
            ScoreOf(BareListing(), p).Some? && ScoreOf(BareListing(), p).value.confidence == 2.0
  {
    HeadersAreRead();
    EntryIsRead();
    OneEntry(REGISTRY, CRITERION);
    ConfidenceTwo(PolicyOf(REGISTRY, DOCUMENT), CriterionOf(REGISTRY, CRITERION));
  }
}
