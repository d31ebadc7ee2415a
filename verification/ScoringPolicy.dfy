/** Parsing a policy document: what is refused, and what an accepted policy guarantees. */
module ScoringPolicy {
  import opened Collections
  import opened Documents
  import opened ScoringEvaluators

  datatype Gate = NoGate | CapOnMismatch | CapOnUnknown | ExcludeOnMismatch

  datatype Criterion = Criterion(
    key: string, concept: string, matcher: Matcher, weight: real, params: map<string, Json>, gate: Gate)

  datatype Adjustment = Adjustment(criterion: string, state: Verdict, delta: real)

  datatype Policy = Policy(
    version: string, digits: int, unknownPenalty: real, criteria: seq<Criterion>,
    bonuses: seq<Adjustment>, penalties: seq<Adjustment>, tieBreak: seq<string>)

  datatype Spec = Spec(matcher: Matcher, allowed: set<string>)

  type Registry = map<string, Spec>

  datatype Parsed = Accepted(policy: Policy) | Rejected(errors: seq<string>)

  const EPSILON: real := 0.000001

  // ---- the shape of an acceptable document, entry by entry ----

  predicate Named(j: Json) { j.JText? && j.text != "" }

  function GateOf(j: Json): Option<Gate> {
    if j == JNull then Some(NoGate)
    else if j == JText("cap_0.6_on_mismatch") then Some(CapOnMismatch)
    else if j == JText("cap_0.6_on_unknown") then Some(CapOnUnknown)
    else if j == JText("exclude_on_mismatch") then Some(ExcludeOnMismatch)
    else None
  }

  predicate WeightOk(j: Json) {
    AsFloat(j).Some? && 0.0 <= AsFloat(j).value <= 1.0
  }

  /** What makes one criterion entry readable at all. */
  predicate Readable(reg: Registry, raw: Json) {
    && raw.JMap? && Named(Get(raw.fields, "key")) && Named(Get(raw.fields, "concept"))
    && Get(raw.fields, "matcher_type").JText? && Get(raw.fields, "matcher_type").text in reg
  }

  predicate EntryOk(reg: Registry, raw: Json) {
    && Readable(reg, raw)
    && Get(raw.fields, "params").JMap?
    && Get(raw.fields, "params").fields.Keys <= reg[Get(raw.fields, "matcher_type").text].allowed
    && WeightOk(Get(raw.fields, "weight"))
    && GateOf(Get(raw.fields, "gate")).Some?
  }

  function CriterionOf(reg: Registry, raw: Json): Criterion
    requires Readable(reg, raw)
  {
    var f := raw.fields;
    var params, weight, gate := Get(f, "params"), AsFloat(Get(f, "weight")), GateOf(Get(f, "gate"));
    Criterion(f["key"].text, f["concept"].text, reg[f["matcher_type"].text].matcher,
              if weight.Some? then weight.value else 0.0,
              if params.JMap? then params.fields else map[],
              if gate.Some? then gate.value else NoGate)
  }

  function KeyOf(raw: Json): string {
    if raw.JMap? && Get(raw.fields, "key").JText? then Get(raw.fields, "key").text else ""
  }

  predicate KeysDiffer(raws: seq<Json>) {
    forall i, j :: 0 <= i < j < |raws| ==> KeyOf(raws[i]) != KeyOf(raws[j])
  }

  function StateOf(j: Json): Option<Verdict> {
    if j == JText("match") then Some(Match)
    else if j == JText("mismatch") then Some(Mismatch)
    else if j == JText("unknown") then Some(Unknown)
    else None
  }

  predicate DeltaOk(known: set<string>, raw: Json) {
    && raw.JMap?
    && Get(raw.fields, "criterion").JText? && Get(raw.fields, "criterion").text in known
    && StateOf(Get(raw.fields, "state")).Some?
    && AsFloat(Get(raw.fields, "delta")).Some? && -0.2 <= AsFloat(Get(raw.fields, "delta")).value <= 0.2
  }

  function DeltaOf(known: set<string>, raw: Json): Adjustment
    requires DeltaOk(known, raw)
  {
    Adjustment(Get(raw.fields, "criterion").text, StateOf(Get(raw.fields, "state")).value,
        AsFloat(Get(raw.fields, "delta")).value)
  }

  predicate DeltasOk(known: set<string>, raw: Json) {
    raw.JNull? || (raw.JList? && forall k :: 0 <= k < |raw.items| ==> DeltaOk(known, raw.items[k]))
  }

  function DeltasOf(known: set<string>, raws: seq<Json>): (ds: seq<Adjustment>)
    requires forall k :: 0 <= k < |raws| ==> DeltaOk(known, raws[k])
    ensures |ds| == |raws|
    ensures forall k :: 0 <= k < |ds| ==> ds[k] == DeltaOf(known, raws[k])
  {
    if raws == [] then [] else DeltasOf(known, raws[..|raws| - 1]) + [DeltaOf(known, raws[|raws| - 1])]
  }

  function EntriesOf(raw: Json): seq<Json> { if raw.JList? then raw.items else [] }

  predicate TieKey(j: Json) {
    j == JText("score") || j == JText("total_cost_asc") || j == JText("listing_id_asc")
  }

  predicate TieBreakOk(raw: Json) {
    raw.JList? && raw.items != [] && raw.items[0] == JText("score") &&
    forall k :: 0 <= k < |raw.items| ==> TieKey(raw.items[k])
  }

  function TieBreakOf(raws: seq<Json>): (ts: seq<string>)
    requires forall k :: 0 <= k < |raws| ==> TieKey(raws[k])
    ensures |ts| == |raws|
    ensures forall k :: 0 <= k < |ts| ==> raws[k] == JText(ts[k])
  {
    if raws == [] then []
    else
      assert TieKey(raws[|raws| - 1]);
      TieBreakOf(raws[..|raws| - 1]) + [raws[|raws| - 1].text]
  }

  function Digits(raw: Json): int { if raw.JInt? then raw.number else 4 }

  /** A penalty that is absent, not a number, or zero means 0.2. */
  function UnknownPenalty(raw: Json): real {
    if !raw.JMap? then 0.2
    else
      var x := AsFloat(Get(raw.fields, "unknown_penalty"));
      if x.None? || x.value == 0.0 then 0.2 else x.value
  }

  function TotalWeight(criteria: seq<Criterion>): real {
    if criteria == [] then 0.0 else TotalWeight(criteria[..|criteria| - 1]) + criteria[|criteria| - 1].weight
  }

  function Keys(criteria: seq<Criterion>): set<string> {
    set k | 0 <= k < |criteria| :: criteria[k].key
  }

  /** Every entry is in order and no key is used twice. */
  predicate Clean(reg: Registry, raws: seq<Json>) {
    (forall k :: 0 <= k < |raws| ==> EntryOk(reg, raws[k])) && KeysDiffer(raws)
  }

  function CriteriaOf(reg: Registry, raws: seq<Json>): (cs: seq<Criterion>)
    requires Clean(reg, raws)
    ensures |cs| == |raws|
    ensures forall k :: 0 <= k < |cs| ==> cs[k] == CriterionOf(reg, raws[k])
  {
    if raws == [] then []
    else
      CleanPrefix(reg, raws, |raws| - 1);
      CriteriaOf(reg, raws[..|raws| - 1]) + [CriterionOf(reg, raws[|raws| - 1])]
  }

  function KeySet(raws: seq<Json>): set<string> {
    set k | 0 <= k < |raws| :: KeyOf(raws[k])
  }

  lemma CleanPrefix(reg: Registry, raws: seq<Json>, i: nat)
    requires Clean(reg, raws) && i <= |raws|
    ensures Clean(reg, raws[..i])
  {
    forall a, b | 0 <= a < b < i ensures KeyOf(raws[..i][a]) != KeyOf(raws[..i][b]) {
      assert KeyOf(raws[a]) != KeyOf(raws[b]);
    }
  }

  /** One more entry keeps a list clean exactly when it is in order and its key is new. */
  lemma CleanGrows(reg: Registry, raws: seq<Json>, raw: Json)
    ensures Clean(reg, raws + [raw]) <==> Clean(reg, raws) && EntryOk(reg, raw) && KeyOf(raw) !in KeySet(raws)
    ensures KeySet(raws + [raw]) == KeySet(raws) + {KeyOf(raw)}
  {
    var all := raws + [raw];
    assert all[..|raws|] == raws && all[|raws|] == raw;
    if Clean(reg, all) {
      CleanPrefix(reg, all, |raws|);
      assert EntryOk(reg, all[|raws|]);
      forall k | 0 <= k < |raws| ensures KeyOf(raws[k]) != KeyOf(raw) {
        assert KeyOf(all[k]) != KeyOf(all[|raws|]);
      }
    }
    forall x ensures x in KeySet(all) <==> x in KeySet(raws) + {KeyOf(raw)} {
      if x in KeySet(raws) {
        var k :| 0 <= k < |raws| && KeyOf(raws[k]) == x;
        assert KeyOf(all[k]) == x;
      }
    }
  }

  predicate HeaderOk(data: map<string, Json>) {
    && Get(data, "contract_version") == JText("1")
    && Named(Get(data, "score_policy_version"))
    && ("normalization" in data ==> data["normalization"] == JText("weighted_sum"))
    && 2 <= Digits(Get(data, "score_round")) <= 6
  }

  predicate CriteriaOk(reg: Registry, raw: Json) {
    && raw.JList? && raw.items != []
    && Clean(reg, raw.items)
    && -EPSILON <= TotalWeight(CriteriaOf(reg, raw.items)) - 1.0 <= EPSILON
  }

  /** The documents the parser accepts. */
  predicate Acceptable(reg: Registry, data: map<string, Json>) {
    && HeaderOk(data)
    && CriteriaOk(reg, Get(data, "criteria"))
    && DeltasOk(Keys(CriteriaOf(reg, Get(data, "criteria").items)), Get(data, "bonuses"))
    && DeltasOk(Keys(CriteriaOf(reg, Get(data, "criteria").items)), Get(data, "penalties"))
    && TieBreakOk(Get(data, "tie_break"))
  }

  /** The policy an accepted document stands for. */
  function PolicyOf(reg: Registry, data: map<string, Json>): Policy
    requires Acceptable(reg, data)
  {
    var criteria := CriteriaOf(reg, Get(data, "criteria").items);
    Policy(Get(data, "score_policy_version").text, Digits(Get(data, "score_round")),
           UnknownPenalty(Get(data, "confidence")), criteria,
           DeltasOf(Keys(criteria), EntriesOf(Get(data, "bonuses"))),
           DeltasOf(Keys(criteria), EntriesOf(Get(data, "penalties"))),
           TieBreakOf(Get(data, "tie_break").items))
  }

  // ---- what an accepted policy guarantees ----

  predicate AdjustmentsOk(known: set<string>, ds: seq<Adjustment>) {
    forall k :: 0 <= k < |ds| ==> ds[k].criterion in known && -0.2 <= ds[k].delta <= 0.2
  }

  predicate PolicyOk(p: Policy) {
    && p.criteria != [] && 2 <= p.digits <= 6
    && (forall i, j :: 0 <= i < j < |p.criteria| ==> p.criteria[i].key != p.criteria[j].key)
    && (forall k :: 0 <= k < |p.criteria| ==> 0.0 <= p.criteria[k].weight <= 1.0)
    && -EPSILON <= TotalWeight(p.criteria) - 1.0 <= EPSILON
    && AdjustmentsOk(Keys(p.criteria), p.bonuses) && AdjustmentsOk(Keys(p.criteria), p.penalties)
    && p.tieBreak != [] && p.tieBreak[0] == "score"
  }

  // ---- the parser ----

  method ParseCriterion(reg: Registry, raw: Json, keys: set<string>)
    returns (parsed: Option<Criterion>, keys': set<string>, errors: seq<string>)
    ensures errors == [] <==> EntryOk(reg, raw) && KeyOf(raw) !in keys
    ensures errors == [] ==> parsed == Some(CriterionOf(reg, raw)) && keys' == keys + {KeyOf(raw)}
    ensures parsed.Some? ==> Readable(reg, raw) && parsed.value == CriterionOf(reg, raw)
  {
    parsed, keys', errors := None, keys, [];
    if !raw.JMap? { return None, keys, ["policy.criterion_invalid_shape"]; }
    var key := Get(raw.fields, "key");
    if !Named(key) { return None, keys, ["policy.criterion_key_required"]; }
    if key.text in keys { return None, keys, ["policy.duplicate_criterion:" + key.text]; }
    keys' := keys + {key.text};
    if !Named(Get(raw.fields, "concept")) { return None, keys', ["policy.criterion_concept_required:" + key.text]; }
    var matcher := Get(raw.fields, "matcher_type");
    if !matcher.JText? { return None, keys', ["policy.unsupported_matcher_type:" + key.text]; }
    if matcher.text !in reg { return None, keys', ["policy.unsupported_matcher_type"]; }
    var params := Get(raw.fields, "params");
    if !params.JMap? {
      errors := errors + ["policy.params_invalid:" + key.text];
    } else if !(params.fields.Keys <= reg[matcher.text].allowed) {
      errors := errors + ["policy.invalid_param"];
    }
    if !WeightOk(Get(raw.fields, "weight")) { errors := errors + ["policy.invalid_weight:" + key.text]; }
    if GateOf(Get(raw.fields, "gate")).None? { errors := errors + ["policy.unsupported_gate"]; }
    parsed := Some(CriterionOf(reg, raw));
  }

  lemma CriteriaOfGrows(reg: Registry, raws: seq<Json>, raw: Json)
    requires Clean(reg, raws) && Clean(reg, raws + [raw]) && EntryOk(reg, raw)
    ensures CriteriaOf(reg, raws + [raw]) == CriteriaOf(reg, raws) + [CriterionOf(reg, raw)]
  {
    assert (raws + [raw])[..|raws|] == raws && (raws + [raw])[|raws|] == raw;
  }

  method CollectCriteria(reg: Registry, raws: seq<Json>) returns (criteria: seq<Criterion>, errors: seq<string>)
    ensures errors == [] <==> Clean(reg, raws)
    ensures errors == [] ==> criteria == CriteriaOf(reg, raws)
  {
    criteria, errors := [], [];
    var keys: set<string> := {};
    var i := 0;
    while i < |raws|
      invariant 0 <= i <= |raws|
      invariant errors == [] <==> Clean(reg, raws[..i])
      invariant errors == [] ==> criteria == CriteriaOf(reg, raws[..i]) && keys == KeySet(raws[..i])
    {
      var parsed, keys', more := ParseCriterion(reg, raws[i], keys);
      ghost var before := raws[..i];
      assert raws[..i + 1] == before + [raws[i]];
      CleanGrows(reg, before, raws[i]);
      if errors == [] && more == [] { CriteriaOfGrows(reg, before, raws[i]); }
      keys := keys';
      if parsed.Some? { criteria := criteria + [parsed.value]; }
      errors := errors + more;
      i := i + 1;
    }
    assert raws[..|raws|] == raws;
  }

  method SumWeights(criteria: seq<Criterion>) returns (total: real)
    ensures total == TotalWeight(criteria)
  {
    total := 0.0;
    var i := 0;
    while i < |criteria|
      invariant 0 <= i <= |criteria|
      invariant total == TotalWeight(criteria[..i])
    {
      assert criteria[..i + 1][..i] == criteria[..i];
      total := total + criteria[i].weight;
      i := i + 1;
    }
    assert criteria[..|criteria|] == criteria;
  }

  method ParseCriteria(reg: Registry, raw: Json) returns (criteria: seq<Criterion>, errors: seq<string>)
    ensures errors == [] <==> CriteriaOk(reg, raw)
    ensures errors == [] ==> criteria == CriteriaOf(reg, raw.items)
  {
    if !raw.JList? || raw.items == [] { return [], ["policy.criteria_required"]; }
    criteria, errors := CollectCriteria(reg, raw.items);
    var total := SumWeights(criteria);
    if total - 1.0 > EPSILON || total - 1.0 < -EPSILON { errors := errors + ["policy.weights_not_normalizing"]; }
  }

  method ParseDeltas(raw: Json, criteria: seq<Criterion>) returns (deltas: seq<Adjustment>, errors: seq<string>)
    ensures errors == [] <==> DeltasOk(Keys(criteria), raw)
    ensures errors == [] ==> AdjustmentsOk(Keys(criteria), deltas)
    ensures errors == [] ==> deltas == DeltasOf(Keys(criteria), EntriesOf(raw))
  {
    deltas, errors := [], [];
    if raw.JNull? { return; }
    if !raw.JList? { return [], ["policy.unknown_criterion_reference"]; }
    var known := Keys(criteria);
    var i := 0;
    while i < |raw.items|
      invariant 0 <= i <= |raw.items|
      invariant errors == [] <==> forall k :: 0 <= k < i ==> DeltaOk(known, raw.items[k])
      invariant errors == [] ==> |deltas| == i && forall k :: 0 <= k < i ==> deltas[k] == DeltaOf(known, raw.items[k])
    {
      var entry := raw.items[i];
      i := i + 1;
      if !entry.JMap? { errors := errors + ["policy.unknown_criterion_reference"]; continue; }
      var criterion := Get(entry.fields, "criterion");
      if !criterion.JText? || criterion.text !in known || StateOf(Get(entry.fields, "state")).None? {
        errors := errors + ["policy.unknown_criterion_reference"];
        continue;
      }
      var delta := AsFloat(Get(entry.fields, "delta"));
      if delta.None? || !(-0.2 <= delta.value <= 0.2) {
        errors := errors + ["policy.invalid_delta:" + criterion.text];
        continue;
      }
      deltas := deltas + [Adjustment(criterion.text, StateOf(Get(entry.fields, "state")).value, delta.value)];
    }
  }

  method ParseTieBreak(raw: Json) returns (tieBreak: seq<string>, errors: seq<string>)
    ensures errors == [] <==> TieBreakOk(raw)
    ensures errors == [] ==> tieBreak == TieBreakOf(raw.items)
  {
    if !raw.JList? || raw.items == [] || raw.items[0] != JText("score") { return [], ["policy.invalid_tie_break"]; }
    tieBreak, errors := [], [];
    var i := 0;
    while i < |raw.items|
      invariant 0 <= i <= |raw.items|
      invariant errors == [] <==> forall k :: 0 <= k < i ==> TieKey(raw.items[k])
      invariant errors == [] ==> |tieBreak| == i && forall k :: 0 <= k < i ==> raw.items[k] == JText(tieBreak[k])
    {
      if TieKey(raw.items[i]) { tieBreak := tieBreak + [raw.items[i].text]; }
      else { errors := errors + ["policy.invalid_tie_break"]; }
      i := i + 1;
    }
  }

  /** A document is accepted exactly when it is acceptable, and then the policy keeps its promises. */
  method ParsePolicy(reg: Registry, data: map<string, Json>) returns (r: Parsed)
    ensures r.Accepted? <==> Acceptable(reg, data)
    ensures r.Accepted? ==> r.policy == PolicyOf(reg, data) && PolicyOk(r.policy)
    ensures r.Rejected? ==> r.errors != []
  {
    var errors: seq<string> := [];
    if Get(data, "contract_version") != JText("1") { errors := errors + ["policy.unsupported_contract_version"]; }
    var version := Get(data, "score_policy_version");
    if !Named(version) { errors := errors + ["policy.score_policy_version_required"]; }
    if "normalization" in data && data["normalization"] != JText("weighted_sum") {
      errors := errors + ["policy.unsupported_normalization"];
    }
    var digits := Digits(Get(data, "score_round"));
    if !(2 <= digits <= 6) { errors := errors + ["policy.invalid_score_round"]; }
    assert errors == [] <==> HeaderOk(data);
    var criteria, criteriaErrors := ParseCriteria(reg, Get(data, "criteria"));
    var bonuses, bonusErrors := ParseDeltas(Get(data, "bonuses"), criteria);
    var penalties, penaltyErrors := ParseDeltas(Get(data, "penalties"), criteria);
    var tieBreak, tieErrors := ParseTieBreak(Get(data, "tie_break"));
    errors := errors + criteriaErrors + bonusErrors + penaltyErrors + tieErrors;
    if errors != [] { return Rejected(errors); }
    AcceptedCriteria(reg, Get(data, "criteria").items);
    r := Accepted(Policy(version.text, digits, UnknownPenalty(Get(data, "confidence")), criteria, bonuses,
        penalties, tieBreak));
  }

  lemma AcceptedCriteria(reg: Registry, raws: seq<Json>)
    requires Clean(reg, raws)
    ensures var cs := CriteriaOf(reg, raws);
            && (forall i, j :: 0 <= i < j < |cs| ==> cs[i].key != cs[j].key)
            && (forall k :: 0 <= k < |cs| ==> 0.0 <= cs[k].weight <= 1.0)
  {
    var cs := CriteriaOf(reg, raws);
    forall i, j | 0 <= i < j < |cs| ensures cs[i].key != cs[j].key {
      assert EntryOk(reg, raws[i]) && EntryOk(reg, raws[j]) && KeyOf(raws[i]) != KeyOf(raws[j]);
    }
    forall k | 0 <= k < |cs| ensures 0.0 <= cs[k].weight <= 1.0 {
      assert EntryOk(reg, raws[k]);
    }
  }
}
