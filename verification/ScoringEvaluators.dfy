/** Decimal rounding and the evaluators that turn listing data into scores. */
module ScoringEvaluators {
  import opened Collections
  import opened Documents

  // ---- rounding to a decimal grid, ties to even ----

  function RoundEven(y: real): int {
    var f := y.Floor;
    var part := y - f as real;
    if part < 0.5 || (part == 0.5 && f % 2 == 0) then f else f + 1
  }

  /** Ten to the number of digits, for the precisions in use: 2 to 6. */
  function Grid(digits: int): real {
    if digits <= 2 then 100.0
    else if digits == 3 then 1000.0
    else if digits == 4 then 10000.0
    else if digits == 5 then 100000.0
    else 1000000.0
  }

  function RoundOn(x: real, g: real): real
    requires g > 0.0
  {
    RoundEven(x * g) as real / g
  }

  function RoundTo(x: real, digits: int): real {
    RoundOn(x, Grid(digits))
  }

  lemma RoundEvenKeepsOrder(x: real, y: real)
    requires x <= y
    ensures RoundEven(x) <= RoundEven(y)
  {
    assert x.Floor <= y.Floor;
  }

  lemma RoundEvenIsNear(y: real)
    ensures -0.5 <= RoundEven(y) as real - y <= 0.5
  {
    assert (y.Floor + 1) as real == y.Floor as real + 1.0;
  }

  lemma RoundEvenFixesIntegers(n: int)
    ensures RoundEven(n as real) == n
  {
    assert (n as real).Floor == n;
  }

  /** Rounding is within half a unit of the last digit. */
  lemma RoundToIsNear(x: real, digits: int)
    ensures -0.5 <= (RoundTo(x, digits) - x) * Grid(digits) <= 0.5
  {
    RoundIsNearOn(x, Grid(digits));
  }

  lemma RoundIsNearOn(x: real, g: real)
    requires g > 0.0
    ensures -0.5 <= (RoundOn(x, g) - x) * g <= 0.5
  {
    RoundEvenIsNear(x * g);
    OverThenTimes(RoundEven(x * g) as real, x, g);
  }

  lemma RoundToKeepsOrder(x: real, y: real, digits: int)
    requires x <= y
    ensures RoundTo(x, digits) <= RoundTo(y, digits)
  {
    RoundKeepsOrderOn(x, y, Grid(digits));
  }

  lemma RoundKeepsOrderOn(x: real, y: real, g: real)
    requires x <= y && g > 0.0
    ensures RoundOn(x, g) <= RoundOn(y, g)
  {
    TimesKeepsOrder(x, y, g);
    RoundEvenKeepsOrder(x * g, y * g);
    OverKeepsOrder(RoundEven(x * g) as real, RoundEven(y * g) as real, g);
  }

  lemma TimesKeepsOrder(x: real, y: real, g: real)
    requires x <= y && g > 0.0
    ensures x * g <= y * g
  {
    assert (y - x) * g >= 0.0;
  }

  lemma OverKeepsOrder(a: real, b: real, g: real)
    requires a <= b && g > 0.0
    ensures a / g <= b / g
  {
    assert (b - a) / g >= 0.0;
    assert b / g - a / g == (b - a) / g;
  }

  lemma OverThenTimes(a: real, x: real, g: real)
    requires g > 0.0
    ensures (a / g - x) * g == a - x * g
  {
    var p := a / g;
    assert p * g == a;
    assert (p - x) * g == p * g - x * g;
  }

  lemma RoundToFixes(digits: int)
    ensures RoundTo(0.0, digits) == 0.0 && RoundTo(1.0, digits) == 1.0 && RoundTo(0.6, digits) == 0.6
  {
    var g := Grid(digits);
    var sixty := if digits <= 2 then 60 else if digits == 3 then 600 else if digits == 4 then 6000
                 else if digits == 5 then 60000 else 600000;
    var one := if digits <= 2 then 100 else if digits == 3 then 1000 else if digits == 4 then 10000
               else if digits == 5 then 100000 else 1000000;
    RoundEvenFixesIntegers(0);
    RoundEvenFixesIntegers(one);
    RoundEvenFixesIntegers(sixty);
    assert 0.6 * g == sixty as real && 1.0 * g == one as real;
  }

  /** A number in the unit interval, or below 0.6, stays there when rounded. */
  lemma RoundToStays(x: real, top: real, digits: int)
    requires 0.0 <= x <= top && (top == 1.0 || top == 0.6)
    ensures 0.0 <= RoundTo(x, digits) <= top
  {
    RoundToFixes(digits);
    RoundToKeepsOrder(0.0, x, digits);
    RoundToKeepsOrder(x, top, digits);
  }

  // ---- comparing values ----

  /** Numbers compare by value, and truth values as 0 and 1. */
  function Magnitude(j: Json): Option<real> {
    match j
    case JBool(b) => Some(if b then 1.0 else 0.0)
    case _ => AsFloat(j)
  }

  predicate Alike(a: Json, b: Json) {
    if Magnitude(a).Some? && Magnitude(b).Some? then Magnitude(a) == Magnitude(b) else a == b
  }

  // ---- evaluators ----

  datatype Verdict = Match | Mismatch | Unknown

  datatype Result = Result(score: real, confidence: real, state: Verdict)

  datatype Profile = Profile(
    budgetMax: real, minRooms: int, surfaceMin: Option<real>, surfaceMax: Option<real>, zones: seq<string>)

  datatype Listing = Listing(
    id: int, totalCost: Option<real>, rooms: Option<int>, surface: Option<real>,
    neighborhood: Option<string>, precision: string)

  datatype Observation = Observation(value: Json, score: Json, confidence: Json)

  datatype Matcher = NumericRange | Categorical | SemanticFeature | GeoProximity

  function NoData(): Result { Result(0.0, 0.0, Unknown) }

  function Clamp(x: real): real { if x < 0.0 then 0.0 else if x > 1.0 then 1.0 else x }

  function NumericRangeFit(value: Json, params: map<string, Json>): Result {
    var low, high := AsFloat(Get(params, "min")), AsFloat(Get(params, "max"));
    match AsFloat(value)
    case None => NoData()
    case Some(x) =>
      if low.Some? && x < low.value then Result(0.0, 1.0, Mismatch)
      else if high.Some? && x > high.value then Result(0.7, 1.0, Match)
      else Result(1.0, 1.0, Match)
  }

  function CategoricalFit(value: Json, params: map<string, Json>): Result {
    if value.JNull? then NoData()
    else
      var allowed := Get(params, "allowed_values");
      var items := if allowed.JList? then allowed.items else [];
      if exists k :: 0 <= k < |items| && Alike(value, items[k]) then Result(1.0, 1.0, Match)
      else Result(0.0, 1.0, Mismatch)
  }

  /** An absent or zero threshold means one half. */
  function Threshold(params: map<string, Json>): real {
    match AsFloat(Get(params, "threshold"))
    case None => 0.5
    case Some(t) => if t == 0.0 then 0.5 else t
  }

  function SemanticFit(score: Json, confidence: Json, params: map<string, Json>): Result {
    match AsFloat(score)
    case None => NoData()
    case Some(x) =>
      var c := AsFloat(confidence);
      Result(RoundTo(x, 4), if c.Some? then c.value else x, if x >= Threshold(params) then Match else Mismatch)
  }

  function PrecisionConfidence(precision: string): real {
    if precision == "exact" then 1.0
    else if precision == "block" then 0.95
    else if precision == "neighborhood" then 0.9
    else if precision == "approximate" then 0.7
    else 0.5
  }

  function GeoFit(inZone: bool, precision: string): Result {
    if inZone then Result(1.0, PrecisionConfidence(precision), Match)
    else Result(0.3, PrecisionConfidence(precision), Mismatch)
  }

  predicate IsFixed(key: string) {
    key == "presupuesto" || key == "ambientes" || key == "superficie" || key == "ubicacion"
  }

  function BudgetFit(p: Profile, l: Listing): Result {
    if l.totalCost.None? then NoData()
    else if p.budgetMax <= 0.0 then Result(1.0, 1.0, Match)
    else if l.totalCost.value > p.budgetMax then Result(0.0, 1.0, Mismatch)
    else Result(RoundTo(Clamp((p.budgetMax - l.totalCost.value) / p.budgetMax), 4), 1.0, Match)
  }

  function RoomsFit(p: Profile, l: Listing): Result {
    if p.minRooms == 0 then Result(1.0, 1.0, Match)
    else if l.rooms.None? then Result(0.5, 0.0, Unknown)
    else Result(if l.rooms.value == p.minRooms then 1.0 else 0.85, 1.0, Match)
  }

  function SurfaceFit(p: Profile, l: Listing): Result {
    if p.surfaceMin.None? && p.surfaceMax.None? then Result(1.0, 1.0, Match)
    else if l.surface.None? then Result(0.5, 0.0, Unknown)
    else if p.surfaceMin.Some? && l.surface.value < p.surfaceMin.value then Result(0.5, 1.0, Mismatch)
    else if p.surfaceMax.None? || l.surface.value <= p.surfaceMax.value then Result(1.0, 1.0, Match)
    else if l.surface.value <= p.surfaceMax.value * 1.5 then Result(0.8, 1.0, Match)
    else Result(0.6, 1.0, Match)
  }

  /** `fold` stands for Unicode case folding. */
  function ZoneFit(fold: string -> string, p: Profile, l: Listing): Result {
    GeoFit(l.neighborhood.Some? &&
           exists k :: 0 <= k < |p.zones| && fold(p.zones[k]) == fold(l.neighborhood.value), l.precision)
  }

  function FixedFit(fold: string -> string, key: string, p: Profile, l: Listing): Result {
    if key == "presupuesto" then BudgetFit(p, l)
    else if key == "ambientes" then RoomsFit(p, l)
    else if key == "superficie" then SurfaceFit(p, l)
    else if key == "ubicacion" then ZoneFit(fold, p, l)
    else NoData()
  }

  function ObservedFit(m: Matcher, params: map<string, Json>, o: Observation): Result {
    match m
    case NumericRange => NumericRangeFit(o.value, params)
    case Categorical => CategoricalFit(o.value, params)
    case SemanticFeature => SemanticFit(o.score, o.confidence, params)
    case GeoProximity => GeoFit(false, "unknown")
  }

  predicate UnitScore(o: Observation) {
    AsFloat(o.score).Some? ==> 0.0 <= AsFloat(o.score).value <= 1.0
  }

  predicate InUnit(x: real) { 0.0 <= x <= 1.0 }

  lemma FixedFitInUnit(fold: string -> string, key: string, p: Profile, l: Listing)
    ensures InUnit(FixedFit(fold, key, p, l).score) && InUnit(FixedFit(fold, key, p, l).confidence)
  {
    if l.totalCost.Some? && p.budgetMax > 0.0 {
      RoundToStays(Clamp((p.budgetMax - l.totalCost.value) / p.budgetMax), 1.0, 4);
    }
  }

  lemma ObservedFitInUnit(m: Matcher, params: map<string, Json>, o: Observation)
    requires UnitScore(o)
    ensures InUnit(ObservedFit(m, params, o).score)
  {
    if AsFloat(o.score).Some? { RoundToStays(AsFloat(o.score).value, 1.0, 4); }
  }
}
