/** Writing a policy down as a document and reading it back: which policies have a document. */
module ScoringDocuments {
  import opened Collections
  import opened Documents
  import opened ScoringEvaluators
  import opened ScoringPolicy

  function GateText(g: Gate): Json {
    match g
    case NoGate => JNull
    case CapOnMismatch => JText("cap_0.6_on_mismatch")
    case CapOnUnknown => JText("cap_0.6_on_unknown")
    case ExcludeOnMismatch => JText("exclude_on_mismatch")
  }

  function StateText(v: Verdict): Json {
    match v
    case Match => JText("match")
    case Mismatch => JText("mismatch")
    case Unknown => JText("unknown")
  }

  /** The name the registry has for the matcher of a criterion. */
  type Naming = Criterion -> string

  function Entry(name: Naming, c: Criterion): Json {
    JMap(map["key" := JText(c.key), "concept" := JText(c.concept), "matcher_type" := JText(name(c)),
             "weight" := JReal(c.weight), "params" := JMap(c.params), "gate" := GateText(c.gate)])
  }

  function DeltaEntry(d: Adjustment): Json {
    JMap(map["criterion" := JText(d.criterion), "state" := StateText(d.state), "delta" := JReal(d.delta)])
  }

  function Entries(name: Naming, cs: seq<Criterion>): seq<Json> {
    seq(|cs|, k requires 0 <= k < |cs| => Entry(name, cs[k]))
  }

  function DeltaEntries(ds: seq<Adjustment>): seq<Json> {
    seq(|ds|, k requires 0 <= k < |ds| => DeltaEntry(ds[k]))
  }

  function Texts(ts: seq<string>): seq<Json> {
    seq(|ts|, k requires 0 <= k < |ts| => JText(ts[k]))
  }

  function DocumentOf(name: Naming, p: Policy): map<string, Json> {
    map["contract_version" := JText("1"), "score_policy_version" := JText(p.version),
        "normalization" := JText("weighted_sum"), "score_round" := JInt(p.digits),
        "confidence" := JMap(map["unknown_penalty" := JReal(p.unknownPenalty)]),
        "criteria" := JList(Entries(name, p.criteria)),
        "bonuses" := JList(DeltaEntries(p.bonuses)), "penalties" := JList(DeltaEntries(p.penalties)),
        "tie_break" := JList(Texts(p.tieBreak))]
  }

  /** The criterion is named, and the registry knows its matcher by that name, with these parameters. */
  predicate Spelled(reg: Registry, name: string, c: Criterion) {
    && c.key != "" && c.concept != ""
    && name in reg && reg[name].matcher == c.matcher && c.params.Keys <= reg[name].allowed
  }

  /** A policy that keeps every bound and refers to nothing unknown. */
  ghost predicate Writable(reg: Registry, name: Naming, p: Policy) {
    && PolicyOk(p) && p.version != "" && p.unknownPenalty != 0.0
    && (forall k :: 0 <= k < |p.criteria| ==> Spelled(reg, name(p.criteria[k]), p.criteria[k]))
    && (forall k :: 0 <= k < |p.tieBreak| ==>
          p.tieBreak[k] == "score" || p.tieBreak[k] == "total_cost_asc" || p.tieBreak[k] == "listing_id_asc")
  }

  lemma EntryReads(reg: Registry, name: Naming, c: Criterion)
    requires Spelled(reg, name(c), c) && 0.0 <= c.weight <= 1.0
    ensures EntryOk(reg, Entry(name, c)) && CriterionOf(reg, Entry(name, c)) == c && KeyOf(Entry(name, c)) == c.key
  {
    var f := Entry(name, c).fields;
    assert Get(f, "key") == JText(c.key) && Get(f, "concept") == JText(c.concept);
    assert Get(f, "matcher_type") == JText(name(c)) && Get(f, "params") == JMap(c.params);
    assert Get(f, "weight") == JReal(c.weight) && Get(f, "gate") == GateText(c.gate);
  }

  lemma EntriesRead(reg: Registry, name: Naming, cs: seq<Criterion>)
    requires forall k :: 0 <= k < |cs| ==> Spelled(reg, name(cs[k]), cs[k]) && 0.0 <= cs[k].weight <= 1.0
    requires forall i, j :: 0 <= i < j < |cs| ==> cs[i].key != cs[j].key
    ensures Clean(reg, Entries(name, cs)) && CriteriaOf(reg, Entries(name, cs)) == cs
  {
    var raws := Entries(name, cs);
    forall k | 0 <= k < |cs|
      ensures EntryOk(reg, raws[k]) && CriterionOf(reg, raws[k]) == cs[k] && KeyOf(raws[k]) == cs[k].key
    {
      EntryReads(reg, name, cs[k]);
    }
    assert CriteriaOf(reg, raws) == cs;
  }

  lemma DeltaReads(known: set<string>, d: Adjustment)
    requires d.criterion in known && -0.2 <= d.delta <= 0.2
    ensures DeltaOk(known, DeltaEntry(d)) && DeltaOf(known, DeltaEntry(d)) == d
  {
    var f := DeltaEntry(d).fields;
    assert Get(f, "criterion") == JText(d.criterion) && Get(f, "state") == StateText(d.state);
    assert Get(f, "delta") == JReal(d.delta);
  }

  lemma DeltasRead(known: set<string>, ds: seq<Adjustment>)
    requires AdjustmentsOk(known, ds)
    ensures DeltasOk(known, JList(DeltaEntries(ds))) && DeltasOf(known, DeltaEntries(ds)) == ds
  {
    forall k | 0 <= k < |ds|
      ensures DeltaOk(known, DeltaEntries(ds)[k]) && DeltaOf(known, DeltaEntries(ds)[k]) == ds[k]
    {
      DeltaReads(known, ds[k]);
    }
    assert DeltasOf(known, DeltaEntries(ds)) == ds;
  }

  lemma TieBreakReads(ts: seq<string>)
    requires ts != [] && ts[0] == "score"
    requires forall k :: 0 <= k < |ts| ==> ts[k] == "score" || ts[k] == "total_cost_asc" || ts[k] == "listing_id_asc"
    ensures TieBreakOk(JList(Texts(ts))) && TieBreakOf(Texts(ts)) == ts
  {
    forall k | 0 <= k < |ts| ensures TieKey(Texts(ts)[k]) && Texts(ts)[k] == JText(ts[k]) {}
    assert TieBreakOf(Texts(ts)) == ts;
  }

  lemma FieldsRead(name: Naming, p: Policy)
    ensures var d := DocumentOf(name, p);
            && Get(d, "criteria") == JList(Entries(name, p.criteria))
            && Get(d, "bonuses") == JList(DeltaEntries(p.bonuses))
            && Get(d, "penalties") == JList(DeltaEntries(p.penalties))
            && Get(d, "tie_break") == JList(Texts(p.tieBreak))
  {
  }

  lemma CriteriaRead(reg: Registry, name: Naming, p: Policy)
    requires Writable(reg, name, p)
    ensures CriteriaOk(reg, JList(Entries(name, p.criteria)))
    ensures CriteriaOf(reg, Entries(name, p.criteria)) == p.criteria
  {
    EntriesRead(reg, name, p.criteria);
  }

  /** A document whose parts are read back is read back. */
  lemma PartsRead(reg: Registry, data: map<string, Json>, p: Policy, raws: seq<Json>, more: seq<Json>, less: seq<Json>,
                  ties: seq<Json>)
    requires HeaderOk(data) && Get(data, "score_policy_version") == JText(p.version)
    requires Digits(Get(data, "score_round")) == p.digits && UnknownPenalty(Get(data, "confidence")) == p.unknownPenalty
    requires Get(data, "criteria") == JList(raws) && CriteriaOk(reg, JList(raws)) && CriteriaOf(reg, raws) == p.criteria
    requires Get(data, "bonuses") == JList(more) && DeltasOk(Keys(p.criteria), JList(more))
    requires Get(data, "penalties") == JList(less) && DeltasOk(Keys(p.criteria), JList(less))
    requires DeltasOf(Keys(p.criteria), more) == p.bonuses && DeltasOf(Keys(p.criteria), less) == p.penalties
    requires Get(data, "tie_break") == JList(ties) && TieBreakOk(JList(ties)) && TieBreakOf(ties) == p.tieBreak
    ensures Acceptable(reg, data) && PolicyOf(reg, data) == p
  {
  }

  /** Every writable policy has a document that is accepted and read back as that policy. */
  lemma ReadsBack(reg: Registry, name: Naming, p: Policy)
    requires Writable(reg, name, p)
    ensures Acceptable(reg, DocumentOf(name, p)) && PolicyOf(reg, DocumentOf(name, p)) == p
  {
    FieldsRead(name, p);
    HeaderReads(name, p);
    CriteriaRead(reg, name, p);
    DeltasRead(Keys(p.criteria), p.bonuses);
    DeltasRead(Keys(p.criteria), p.penalties);
    TieBreakReads(p.tieBreak);
    PartsRead(reg, DocumentOf(name, p), p, Entries(name, p.criteria), DeltaEntries(p.bonuses),
      DeltaEntries(p.penalties), Texts(p.tieBreak));
  }

  lemma HeaderReads(name: Naming, p: Policy)
    requires p.version != "" && 2 <= p.digits <= 6 && p.unknownPenalty != 0.0
    ensures var d := DocumentOf(name, p);
            && HeaderOk(d) && Get(d, "score_policy_version") == JText(p.version)
            && Digits(Get(d, "score_round")) == p.digits && UnknownPenalty(Get(d, "confidence")) == p.unknownPenalty
  {
    var d := DocumentOf(name, p);
    assert Get(d, "contract_version") == JText("1") && Get(d, "score_policy_version") == JText(p.version);
    assert Get(d, "score_round") == JInt(p.digits);
    assert Get(d, "confidence") == JMap(map["unknown_penalty" := JReal(p.unknownPenalty)]);
    assert Get(map["unknown_penalty" := JReal(p.unknownPenalty)], "unknown_penalty") == JReal(p.unknownPenalty);
  }

  /** The naming finds a name for every criterion that has one. */
  ghost predicate Complete(reg: Registry, name: Naming) {
    forall c :: Known(reg, c) ==> Spelled(reg, name(c), c)
  }

  ghost predicate Known(reg: Registry, c: Criterion) { exists t :: Spelled(reg, t, c) }

  lemma EntriesAreSpelled(reg: Registry, raws: seq<Json>, name: Naming, k: nat)
    requires Clean(reg, raws) && k < |raws| && Complete(reg, name)
    ensures var c := CriteriaOf(reg, raws)[k]; Spelled(reg, name(c), c)
  {
    assert EntryOk(reg, raws[k]);
    assert Spelled(reg, Get(raws[k].fields, "matcher_type").text, CriteriaOf(reg, raws)[k]);
    assert Known(reg, CriteriaOf(reg, raws)[k]);
  }

  lemma TiesAreSupported(raws: seq<Json>, k: nat)
    requires TieBreakOk(JList(raws)) && k < |raws|
    ensures var t := TieBreakOf(raws)[k]; t == "score" || t == "total_cost_asc" || t == "listing_id_asc"
  {
    assert TieKey(raws[k]) && raws[k] == JText(TieBreakOf(raws)[k]);
  }

  lemma DeltasAreBounded(known: set<string>, raw: Json)
    requires DeltasOk(known, raw)
    ensures AdjustmentsOk(known, DeltasOf(known, EntriesOf(raw)))
  {
    forall k | 0 <= k < |EntriesOf(raw)| ensures DeltaOk(known, EntriesOf(raw)[k]) {}
  }

  lemma TiesStartWithTheScore(raw: Json)
    requires TieBreakOk(raw)
    ensures TieBreakOf(raw.items) != [] && TieBreakOf(raw.items)[0] == "score"
  {
    assert raw.items[0] == JText(TieBreakOf(raw.items)[0]);
  }

  lemma CriteriaAreOk(reg: Registry, raw: Json)
    requires CriteriaOk(reg, raw)
    ensures var cs := CriteriaOf(reg, raw.items);
            && cs != [] && (forall i, j :: 0 <= i < j < |cs| ==> cs[i].key != cs[j].key)
            && (forall k :: 0 <= k < |cs| ==> 0.0 <= cs[k].weight <= 1.0)
            && -EPSILON <= TotalWeight(cs) - 1.0 <= EPSILON
  {
    AcceptedCriteria(reg, raw.items);
  }

  lemma AcceptedIsOk(reg: Registry, data: map<string, Json>)
    requires Acceptable(reg, data)
    ensures PolicyOk(PolicyOf(reg, data))
  {
    var known := Keys(CriteriaOf(reg, Get(data, "criteria").items));
    CriteriaAreOk(reg, Get(data, "criteria"));
    DeltasAreBounded(known, Get(data, "bonuses"));
    DeltasAreBounded(known, Get(data, "penalties"));
    TiesStartWithTheScore(Get(data, "tie_break"));
  }

  /** Conversely every document that is accepted is read as a writable policy. */
  lemma AcceptedIsWritable(reg: Registry, data: map<string, Json>, name: Naming)
    requires Acceptable(reg, data) && Complete(reg, name)
    ensures Writable(reg, name, PolicyOf(reg, data))
  {
    var p := PolicyOf(reg, data);
    AcceptedIsOk(reg, data);
    forall k | 0 <= k < |p.criteria| ensures Spelled(reg, name(p.criteria[k]), p.criteria[k]) {
      EntriesAreSpelled(reg, Get(data, "criteria").items, name, k);
    }
    forall k | 0 <= k < |p.tieBreak|
      ensures p.tieBreak[k] == "score" || p.tieBreak[k] == "total_cost_asc" || p.tieBreak[k] == "listing_id_asc"
    {
      TiesAreSupported(Get(data, "tie_break").items, k);
    }
  }

  /** What a document says nothing about: four digits, and a penalty of 0.2, which a penalty of zero also means. */
  lemma SilenceMeans(data: map<string, Json>)
    ensures "score_round" !in data ==> Digits(Get(data, "score_round")) == 4
    ensures "confidence" !in data ==> UnknownPenalty(Get(data, "confidence")) == 0.2
    ensures "confidence" in data && data["confidence"].JMap? &&
            (var c := data["confidence"].fields;
             "unknown_penalty" in c && AsFloat(c["unknown_penalty"]) == Some(0.0)) ==>
              UnknownPenalty(Get(data, "confidence")) == 0.2
  {
  }
}
