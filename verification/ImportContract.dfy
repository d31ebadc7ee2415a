/** The published import contract: validating one record, and counting what is missing field by field. */
module ImportContract {
  import opened Collections
  import opened Documents

  datatype FieldType = StringField | NumberField | IntegerField | EnumField | TextList | UrlList | UrlField | DateField

  datatype FieldSpec = FieldSpec(
    name: string, required: bool, valueType: FieldType, values: seq<string>,
    minLength: Option<int>, maxLength: Option<int>, gt: Option<real>, ge: Option<real>, max: Option<real>,
    maxItems: Option<int>, itemMaxLength: Option<int>)

  /** The URL pattern, the date parser and the number parser are given. */
  datatype Rules = Rules(isUrl: string -> bool, isDate: string -> bool, numberOf: string -> Option<real>)

  type Payload = map<string, Json>

  datatype Issue = Issue(code: string, field: string)

  datatype Validation = Validation(valid: bool, issues: seq<Issue>, missing: nat)

  predicate IsList(f: FieldSpec) { f.valueType.TextList? || f.valueType.UrlList? }

  /** Absent, or blank text where a list is not expected; an empty list is a value. */
  predicate Absent(f: FieldSpec, j: Json) {
    j.JNull? || (j.JText? && Strip(j.text) == "" && !IsList(f))
  }

  function NumberOf(rules: Rules, j: Json): Option<real> {
    match j
    case JText(t) => if Strip(t) == "" then None else (rules.numberOf)(Strip(t))
    case _ => AsFloat(j)
  }

  predicate Whole(x: real) { x == x.Floor as real }

  const TYPE: string := "contract.type_invalid"
  const RANGE: string := "contract.range_invalid"
  const URL: string := "contract.url_invalid"

  function StringIssue(f: FieldSpec, j: Json): Option<string> {
    if !j.JText? then Some(TYPE)
    else if f.minLength.Some? && |j.text| < f.minLength.value then Some(RANGE)
    else if f.maxLength.Some? && |j.text| > f.maxLength.value then Some(RANGE)
    else None
  }

  function NumberIssue(rules: Rules, f: FieldSpec, j: Json): Option<string> {
    var x := NumberOf(rules, j);
    if x.None? || (f.valueType.IntegerField? && !Whole(x.value)) then Some(TYPE)
    else if f.gt.Some? && !(x.value > f.gt.value) then Some(RANGE)
    else if f.ge.Some? && !(x.value >= f.ge.value) then Some(RANGE)
    else if f.max.Some? && !(x.value <= f.max.value) then Some(RANGE)
    else None
  }

  function ItemIssue(rules: Rules, f: FieldSpec, j: Json): Option<string> {
    if !j.JText? then Some(TYPE)
    else if f.valueType.UrlList? && !(rules.isUrl)(Strip(j.text)) then Some(URL)
    else if f.itemMaxLength.Some? && |j.text| > f.itemMaxLength.value then Some(RANGE)
    else None
  }

  function FirstItemIssue(rules: Rules, f: FieldSpec, items: seq<Json>): Option<string> {
    if items == [] then None
    else if ItemIssue(rules, f, items[0]).Some? then ItemIssue(rules, f, items[0])
    else FirstItemIssue(rules, f, items[1..])
  }

  function Pieces(parts: seq<string>): seq<Json> {
    if parts == [] then []
    else (if Strip(parts[0]) == "" then [] else [JText(Strip(parts[0]))]) + Pieces(parts[1..])
  }

  /** A list, or text whose non-blank pieces are separated by bars. */
  function Items(j: Json): Option<seq<Json>> {
    match j
    case JList(items) => Some(items)
    case JText(t) => Some(Pieces(Split(t, '|')))
    case _ => None
  }

  function ListIssue(rules: Rules, f: FieldSpec, j: Json): Option<string> {
    var items := Items(j);
    if items.None? then Some(TYPE)
    else if f.maxItems.Some? && |items.value| > f.maxItems.value then Some(RANGE)
    else FirstItemIssue(rules, f, items.value)
  }

  function ValueIssue(rules: Rules, f: FieldSpec, j: Json): Option<string> {
    match f.valueType
    case StringField => StringIssue(f, j)
    case NumberField => NumberIssue(rules, f, j)
    case IntegerField => NumberIssue(rules, f, j)
    case EnumField => if j.JText? && j.text in f.values then None else Some("contract.enum_invalid")
    case UrlField => if j.JText? && (rules.isUrl)(Strip(j.text)) then None else Some(URL)
    case DateField => if j.JText? && (rules.isDate)(Strip(j.text)) then None else Some(TYPE)
    case TextList => ListIssue(rules, f, j)
    case UrlList => ListIssue(rules, f, j)
  }

  // ---- what an accepted value satisfies ----

  predicate WithinLength(n: nat, low: Option<int>, high: Option<int>) {
    (low.Some? ==> low.value <= n) && (high.Some? ==> n <= high.value)
  }

  predicate InRange(f: FieldSpec, x: real) {
    && (f.gt.Some? ==> f.gt.value < x)
    && (f.ge.Some? ==> f.ge.value <= x)
    && (f.max.Some? ==> x <= f.max.value)
  }

  ghost predicate IsInteger(x: real) { exists n: int {:trigger n as real} :: n as real == x }

  predicate ItemFits(rules: Rules, f: FieldSpec, item: Json) {
    && item.JText?
    && (f.valueType == UrlList ==> (rules.isUrl)(Strip(item.text)))
    && WithinLength(|item.text|, None, f.itemMaxLength)
  }

  /** The contract of each type, bound by bound. */
  ghost predicate Fits(rules: Rules, f: FieldSpec, j: Json) {
    match f.valueType
    case StringField => j.JText? && WithinLength(|j.text|, f.minLength, f.maxLength)
    case NumberField => NumberOf(rules, j).Some? && InRange(f, NumberOf(rules, j).value)
    case IntegerField =>
      NumberOf(rules, j).Some? && IsInteger(NumberOf(rules, j).value) && InRange(f, NumberOf(rules, j).value)
    case EnumField => exists k :: 0 <= k < |f.values| && j == JText(f.values[k])
    case UrlField => j.JText? && (rules.isUrl)(Strip(j.text))
    case DateField => j.JText? && (rules.isDate)(Strip(j.text))
    case _ =>
      Items(j).Some? && WithinLength(|Items(j).value|, None, f.maxItems) &&
      forall k :: 0 <= k < |Items(j).value| ==> ItemFits(rules, f, Items(j).value[k])
  }

  /** A list has no faulty item exactly when each item fits. */
  lemma {:induction false} NoItemIssueIff(rules: Rules, f: FieldSpec, items: seq<Json>)
    ensures FirstItemIssue(rules, f, items).None? <==> forall k :: 0 <= k < |items| ==> ItemFits(rules, f, items[k])
  {
    if items == [] {
    } else {
      NoItemIssueIff(rules, f, items[1..]);
      assert forall k :: 0 < k < |items| ==> items[k] == items[1..][k - 1];
      assert ItemIssue(rules, f, items[0]).None? <==> ItemFits(rules, f, items[0]);
    }
  }

  /** A value that is there is in order if and only if it keeps every bound its type has. */
  lemma ValueInOrderIff(rules: Rules, f: FieldSpec, j: Json)
    ensures ValueIssue(rules, f, j).None? <==> Fits(rules, f, j)
  {
    match f.valueType
    case StringField =>
    case NumberField => NumberInOrderIff(rules, f, j);
    case IntegerField => NumberInOrderIff(rules, f, j);
    case EnumField => EnumInOrderIff(rules, f, j);
    case UrlField =>
    case DateField =>
    case TextList => ListInOrderIff(rules, f, j);
    case UrlList => ListInOrderIff(rules, f, j);
  }

  lemma NumberInOrderIff(rules: Rules, f: FieldSpec, j: Json)
    requires f.valueType == NumberField || f.valueType == IntegerField
    ensures NumberIssue(rules, f, j).None? <==> Fits(rules, f, j)
  {
    if NumberOf(rules, j).Some? { WholeIff(NumberOf(rules, j).value); }
  }

  lemma EnumInOrderIff(rules: Rules, f: FieldSpec, j: Json)
    requires f.valueType == EnumField
    ensures ValueIssue(rules, f, j).None? <==> Fits(rules, f, j)
  {
    if j.JText? && j.text in f.values {
      var k :| 0 <= k < |f.values| && f.values[k] == j.text;
      assert j == JText(f.values[k]);
    }
  }

  lemma ListInOrderIff(rules: Rules, f: FieldSpec, j: Json)
    requires IsList(f)
    ensures ListIssue(rules, f, j).None? <==> Fits(rules, f, j)
  {
    if Items(j).Some? { NoItemIssueIff(rules, f, Items(j).value); }
  }

  lemma WholeIff(x: real)
    ensures Whole(x) <==> IsInteger(x)
  {
    if Whole(x) { assert x.Floor as real == x; }
    if n: int {:trigger n as real} :| n as real == x { assert (n as real).Floor == n; }
  }

  /** The code of a single value: a wrong type before a bound that is broken. */
  lemma ValueIssueCode(rules: Rules, f: FieldSpec, j: Json)
    requires !IsList(f) && !Fits(rules, f, j)
    ensures ValueIssue(rules, f, j) ==
            match f.valueType {
              case StringField => Some(if j.JText? then "contract.range_invalid" else "contract.type_invalid")
              case NumberField => Some(if NumberOf(rules, j).Some? then "contract.range_invalid"
                                       else "contract.type_invalid")
              case IntegerField =>
                Some(if NumberOf(rules, j).Some? && IsInteger(NumberOf(rules, j).value) then "contract.range_invalid"
                     else "contract.type_invalid")
              case EnumField => Some("contract.enum_invalid")
              case UrlField => Some("contract.url_invalid")
              case _ => Some("contract.type_invalid")
            }
  {
    ValueInOrderIff(rules, f, j);
    if NumberOf(rules, j).Some? { WholeIff(NumberOf(rules, j).value); }
  }

  // ---- validation ----

  /** What a field of a record must satisfy. */
  predicate FieldOk(rules: Rules, f: FieldSpec, p: Payload) {
    if Absent(f, Get(p, f.name)) then !f.required else ValueIssue(rules, f, Get(p, f.name)).None?
  }

  /** The value of a field: absent only where that is allowed, and otherwise in order. */
  ghost predicate Keeps(rules: Rules, f: FieldSpec, j: Json) {
    if j.JNull? then !f.required
    else if j.JText? && Strip(j.text) == "" && f.valueType != TextList && f.valueType != UrlList then !f.required
    else Fits(rules, f, j)
  }

  lemma FieldOkIff(rules: Rules, f: FieldSpec, p: Payload)
    ensures FieldOk(rules, f, p) <==> Keeps(rules, f, Get(p, f.name))
  {
    ValueInOrderIff(rules, f, Get(p, f.name));
  }

  /** The first thing wrong with a field, if any. */
  function FieldIssue(rules: Rules, f: FieldSpec, p: Payload): Option<Issue> {
    if Absent(f, Get(p, f.name)) then (if f.required then Some(Issue("contract.required_field", f.name)) else None)
    else
      var e := ValueIssue(rules, f, Get(p, f.name));
      if e.Some? then Some(Issue(e.value, f.name)) else None
  }

  function FirstIssue(rules: Rules, fields: seq<FieldSpec>, p: Payload): (r: Option<Issue>)
    ensures r.None? <==> forall k :: 0 <= k < |fields| ==> FieldOk(rules, fields[k], p)
  {
    if fields == [] then None
    else
      var earlier := FirstIssue(rules, fields[..|fields| - 1], p);
      if earlier.Some? then earlier else FieldIssue(rules, fields[|fields| - 1], p)
  }

  /** What is reported of an invalid record is its first field that is not in order: missing, or with a bad value. */
  lemma {:induction false} FirstIssueIs(rules: Rules, fields: seq<FieldSpec>, p: Payload, k: nat)
    requires k < |fields| && !Keeps(rules, fields[k], Get(p, fields[k].name))
    requires forall j :: 0 <= j < k ==> Keeps(rules, fields[j], Get(p, fields[j].name))
    ensures var first, value := FirstIssue(rules, fields, p), Get(p, fields[k].name);
            && first.Some? && first.value.field == fields[k].name
            && (if value.JNull? || (value.JText? && Strip(value.text) == "" && !IsList(fields[k]))
                then first.value.code == "contract.required_field"
                else ValueIssue(rules, fields[k], value) == Some(first.value.code))
  {
    var n := |fields| - 1;
    if k < n {
      FirstIssueIs(rules, fields[..n], p, k);
    } else {
      forall j | 0 <= j < n ensures FieldOk(rules, fields[..n][j], p) { FieldOkIff(rules, fields[j], p); }
      FieldOkIff(rules, fields[k], p);
    }
  }

  predicate Lacks(f: FieldSpec, p: Payload) {
    !f.required && Absent(f, Get(p, f.name))
  }

  /** The optional fields a record lacks. */
  function Missing(fields: seq<FieldSpec>, p: Payload): nat {
    if fields == [] then 0
    else Missing(fields[..|fields| - 1], p) + (if Lacks(fields[|fields| - 1], p) then 1 else 0)
  }

  /** A record is valid exactly when every field is in order, and the count is of the optional fields it lacks. */
  method ValidateRecord(rules: Rules, p: Payload, fields: seq<FieldSpec>) returns (r: Validation)
    ensures r.valid <==> forall k :: 0 <= k < |fields| ==> Keeps(rules, fields[k], Get(p, fields[k].name))
    ensures r.valid <==> FirstIssue(rules, fields, p).None?
    ensures r.valid <==> r.issues == []
    ensures !r.valid ==> FirstIssue(rules, fields, p) == Some(r.issues[0])
    ensures r.missing == Missing(fields, p)
  {
    var issues: seq<Issue> := [];
    var missing := 0;
    var i := 0;
    while i < |fields|
      invariant 0 <= i <= |fields|
      invariant FirstIssue(rules, fields[..i], p) == if issues == [] then None else Some(issues[0])
      invariant missing == Missing(fields[..i], p)
    {
      var f := fields[i];
      var value := Get(p, f.name);
      assert fields[..i + 1][..i] == fields[..i];
      i := i + 1;
      if Absent(f, value) {
        if f.required { issues := issues + [Issue("contract.required_field", f.name)]; }
        else { missing := missing + 1; }
        continue;
      }
      var error := ValueIssue(rules, f, value);
      if error.Some? { issues := issues + [Issue(error.value, f.name)]; }
    }
    assert fields[..|fields|] == fields;
    forall k | 0 <= k < |fields|
      ensures FieldOk(rules, fields[k], p) <==> Keeps(rules, fields[k], Get(p, fields[k].name))
    {
      FieldOkIff(rules, fields[k], p);
    }
    r := Validation(issues == [], issues, missing);
  }

  // ---- the quality report ----

  /** The payloads that lack one field. */
  function Lacking(f: FieldSpec, payloads: seq<Payload>): nat {
    if payloads == [] then 0
    else Lacking(f, payloads[..|payloads| - 1]) + (if Lacks(f, payloads[|payloads| - 1]) then 1 else 0)
  }

  predicate DistinctNames(fields: seq<FieldSpec>) {
    forall i, j :: 0 <= i < j < |fields| ==> fields[i].name != fields[j].name
  }

  /** The report names exactly the optional fields that some payload lacks, with how many do. */
  predicate Reports(fields: seq<FieldSpec>, payloads: seq<Payload>, counts: map<string, nat>) {
    && (forall k :: 0 <= k < |fields| ==> CountOf(counts, fields[k].name) == Lacking(fields[k], payloads))
    && (forall name :: name in counts ==>
          counts[name] > 0 && exists k :: 0 <= k < |fields| && fields[k].name == name)
  }

  function CountOf(counts: map<string, nat>, name: string): nat {
    if name in counts then counts[name] else 0
  }

  lemma {:induction false} RequiredLackNothing(f: FieldSpec, payloads: seq<Payload>)
    requires f.required
    ensures Lacking(f, payloads) == 0
  {
    if payloads == [] {
    } else {
      RequiredLackNothing(f, payloads[..|payloads| - 1]);
    }
  }

  /** The counts of one field, added to those of the fields before it. */
  method CountField(f: FieldSpec, payloads: seq<Payload>, counts: map<string, nat>) returns (r: map<string, nat>)
    requires f.name !in counts && !f.required
    ensures CountOf(r, f.name) == Lacking(f, payloads)
    ensures forall name :: name in r <==> name in counts || (name == f.name && Lacking(f, payloads) > 0)
    ensures forall name :: name in counts ==> r[name] == counts[name]
  {
    r := counts;
    var i := 0;
    while i < |payloads|
      invariant 0 <= i <= |payloads|
      invariant CountOf(r, f.name) == Lacking(f, payloads[..i])
      invariant forall name :: name in r <==> name in counts || (name == f.name && Lacking(f, payloads[..i]) > 0)
      invariant forall name :: name in counts ==> r[name] == counts[name]
    {
      assert payloads[..i + 1][..i] == payloads[..i];
      if Absent(f, Get(payloads[i], f.name)) { r := r[f.name := CountOf(r, f.name) + 1]; }
      i := i + 1;
    }
    assert payloads[..|payloads|] == payloads;
  }

  method CountMissingByName(payloads: seq<Payload>, fields: seq<FieldSpec>) returns (counts: map<string, nat>)
    requires DistinctNames(fields)
    ensures Reports(fields, payloads, counts)
  {
    counts := map[];
    var i := 0;
    while i < |fields|
      invariant 0 <= i <= |fields|
      invariant forall k :: 0 <= k < i ==> CountOf(counts, fields[k].name) == Lacking(fields[k], payloads)
      invariant forall name :: name in counts ==> counts[name] > 0 && exists k :: 0 <= k < i && fields[k].name == name
    {
      var f := fields[i];
      if f.required {
        RequiredLackNothing(f, payloads);
      } else {
        counts := CountField(f, payloads, counts);
      }
      i := i + 1;
    }
  }

  // ---- the two ways of counting agree ----

  /** The sum of the report over the contract's fields. */
  function Reported(fields: seq<FieldSpec>, counts: map<string, nat>): nat {
    if fields == [] then 0
    else Reported(fields[..|fields| - 1], counts) + CountOf(counts, fields[|fields| - 1].name)
  }

  /** The optional fields lacking over all payloads. */
  function MissingInAll(fields: seq<FieldSpec>, payloads: seq<Payload>): nat {
    if payloads == [] then 0
    else MissingInAll(fields, payloads[..|payloads| - 1]) + Missing(fields, payloads[|payloads| - 1])
  }

  function LackingOfAll(fields: seq<FieldSpec>, payloads: seq<Payload>): nat {
    if fields == [] then 0
    else LackingOfAll(fields[..|fields| - 1], payloads) + Lacking(fields[|fields| - 1], payloads)
  }

  lemma {:induction false} ReportedIsLacking(fields: seq<FieldSpec>, payloads: seq<Payload>, counts: map<string, nat>)
    requires forall k :: 0 <= k < |fields| ==> CountOf(counts, fields[k].name) == Lacking(fields[k], payloads)
    ensures Reported(fields, counts) == LackingOfAll(fields, payloads)
  {
    if fields == [] {
    } else {
      ReportedIsLacking(fields[..|fields| - 1], payloads, counts);
    }
  }

  lemma {:induction false} NothingLacksInNothing(fields: seq<FieldSpec>)
    ensures LackingOfAll(fields, []) == 0
  {
    if fields == [] {
    } else {
      NothingLacksInNothing(fields[..|fields| - 1]);
    }
  }

  lemma {:induction false} OneMorePayload(fields: seq<FieldSpec>, payloads: seq<Payload>, p: Payload)
    ensures LackingOfAll(fields, payloads + [p]) == LackingOfAll(fields, payloads) + Missing(fields, p)
  {
    if fields == [] {
    } else {
      OneMorePayload(fields[..|fields| - 1], payloads, p);
      assert (payloads + [p])[..|payloads|] == payloads;
    }
  }

  lemma {:induction false} CountingEitherWay(fields: seq<FieldSpec>, payloads: seq<Payload>)
    ensures LackingOfAll(fields, payloads) == MissingInAll(fields, payloads)
    decreases |payloads|
  {
    if payloads == [] {
      NothingLacksInNothing(fields);
    } else {
      var n := |payloads| - 1;
      CountingEitherWay(fields, payloads[..n]);
      OneMorePayload(fields, payloads[..n], payloads[n]);
      assert payloads == payloads[..n] + [payloads[n]];
    }
  }

  /** Field by field or record by record, the missing fields add up to the same number. */
  lemma ReportAddsUp(fields: seq<FieldSpec>, payloads: seq<Payload>, counts: map<string, nat>)
    requires Reports(fields, payloads, counts)
    ensures Reported(fields, counts) == MissingInAll(fields, payloads)
  {
    ReportedIsLacking(fields, payloads, counts);
    CountingEitherWay(fields, payloads);
  }
}
