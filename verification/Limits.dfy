/** Bounds on user parameters, and the JSON schema published for them
    (internal/definition/limits.go). */
module Limits {
  import opened Wrappers
  import opened Json
  import opened Definition
  import opened Quantity

  /** How a check ends. `Panic` is resource.MustParse on a bound that cannot be read. */
  datatype Verdict = Accept | Reject | Panic

  /** How Go prints a float64 with FormatFloat(v, 'f', -1, 64). */
  type FloatFormat = real -> string

  /** scalarString: None for values that have no comparable text. */
  function ScalarText(raw: Value, fmt: FloatFormat): Option<string> {
    match raw
    case Str(s) => Some(s)
    case Int(n) => Some(Itoa(n))
    case Float(r) => Some(fmt(r))
    case Bool(b) => Some(if b then "true" else "false")
    case _ => None
  }

  /** ParameterLimit.check, branch by branch. */
  function CheckLimit(limit: ParameterLimit, raw: Value, fmt: FloatFormat): Verdict {
    match ScalarText(raw, fmt)
    case None => Reject
    case Some(value) =>
      if |limit.oneOf| > 0 then
        if value in limit.oneOf then Accept else Reject
      else
        match ParseQuantity(value)
        case None => Reject
        case Some(got) =>
          if limit.max != "" && ParseQuantity(limit.max).None? then Panic
          else if limit.max != "" && got > ParseQuantity(limit.max).value then Reject
          else if limit.min != "" && ParseQuantity(limit.min).None? then Panic
          else if limit.min != "" && got < ParseQuantity(limit.min).value then Reject
          else Accept
  }

  predicate ReadableBound(text: string) {
    text == "" || ParseQuantity(text).Some?
  }

  /** What validateLimits demands of one limit. */
  predicate ReadableLimit(limit: ParameterLimit) {
    && ReadableBound(limit.max) && ReadableBound(limit.min)
    && !(|limit.oneOf| > 0 && (limit.max != "" || limit.min != ""))
  }

  predicate ReadableLimits(plan: Plan) {
    forall key | key in plan.parameterLimits ::
      key in plan.allowedParameters && ReadableLimit(plan.parameterLimits[key])
  }

  /** validateLimits, over the map in whatever order Go ranges over it. */
  method ValidateLimits(plan: Plan) returns (ok: bool)
    ensures ok <==> ReadableLimits(plan)
  {
    if |plan.parameterLimits| == 0 {
      return true;
    }
    var allowed: set<string> := {};
    for n := 0 to |plan.allowedParameters|
      invariant allowed == set i | 0 <= i < n :: plan.allowedParameters[i]
    {
      allowed := allowed + {plan.allowedParameters[n]};
    }
    var keys := plan.parameterLimits.Keys;
    while keys != {}
      invariant keys <= plan.parameterLimits.Keys
      invariant forall key | key in plan.parameterLimits && key !in keys ::
        key in plan.allowedParameters && ReadableLimit(plan.parameterLimits[key])
      decreases |keys|
    {
      var key :| key in keys;
      keys := keys - {key};
      var limit := plan.parameterLimits[key];
      if key !in allowed {
        return false;
      }
      if limit.max != "" && ParseQuantity(limit.max).None? {
        return false;
      }
      if limit.min != "" && ParseQuantity(limit.min).None? {
        return false;
      }
      if |limit.oneOf| > 0 && (limit.max != "" || limit.min != "") {
        return false;
      }
    }
    ok := true;
  }

  /** What a limit means for a value: one of the listed texts, or an exact quantity
      between the bounds. */
  ghost predicate WithinLimit(limit: ParameterLimit, raw: Value, fmt: FloatFormat) {
    limit.HasBounds() ==>
      && ScalarText(raw, fmt).Some?
      && (|limit.oneOf| > 0 ==> ScalarText(raw, fmt).value in limit.oneOf)
      && (|limit.oneOf| == 0 ==> exists q ::
            && ParseQuantity(ScalarText(raw, fmt).value) == Some(q)
            && (forall hi | limit.max != "" && ParseQuantity(limit.max) == Some(hi) :: q <= hi)
            && (forall lo | limit.min != "" && ParseQuantity(limit.min) == Some(lo) :: lo <= q))
  }

  ghost predicate WithinLimits(plan: Plan, parameters: Params, fmt: FloatFormat) {
    forall key | key in parameters && key in plan.parameterLimits ::
      WithinLimit(plan.parameterLimits[key], parameters[key], fmt)
  }

  /** A readable limit never panics and decides exactly what it means. */
  lemma CheckLimitDecides(limit: ParameterLimit, raw: Value, fmt: FloatFormat)
    requires ReadableLimit(limit) && limit.HasBounds()
    ensures CheckLimit(limit, raw, fmt) == if WithinLimit(limit, raw, fmt) then Accept else Reject
  {
  }

  /** checkLimits: the map is ranged over in an arbitrary order, yet for limits that
      passed validation the verdict is the same in every order. */
  method CheckLimits(plan: Plan, parameters: Params, fmt: FloatFormat) returns (v: Verdict)
    requires ReadableLimits(plan)
    ensures v == if WithinLimits(plan, parameters, fmt) then Accept else Reject
  {
    var keys := parameters.Keys;
    while keys != {}
      invariant keys <= parameters.Keys
      invariant forall key | key in parameters && key !in keys && key in plan.parameterLimits ::
        WithinLimit(plan.parameterLimits[key], parameters[key], fmt)
      decreases |keys|
    {
      var key :| key in keys;
      keys := keys - {key};
      if key !in plan.parameterLimits || !plan.parameterLimits[key].HasBounds() {
        continue;
      }
      CheckLimitDecides(plan.parameterLimits[key], parameters[key], fmt);
      var one := CheckLimit(plan.parameterLimits[key], parameters[key], fmt);
      if one != Accept {
        return one;
      }
    }
    v := Accept;
  }

  /** Without validation the bound parse does panic, so ReadableLimits is needed. */
  lemma UnreadableBoundPanics(fmt: FloatFormat)
    ensures CheckLimit(ParameterLimit("ten", "", []), Int(1), fmt) == Panic
  {
    IntegerTextsReadBack(1);
    assert DigitsEnd("ten", 0) == 0;
    assert "ten"[0..] == "ten";
    assert SuffixFactor("ten").None? by {
      assert "ten"[0] == 't';
    }
  }

  // --- the published schema ---

  datatype PropertySchema = PropertySchema(
    choices: Option<seq<string>>, maximum: Option<real>, minimum: Option<real>, notes: seq<string>)

  /** `additionalProperties` is false, so only the keys of the map are accepted. */
  type ParameterSchema = map<string, PropertySchema>

  function NumericBound(text: string): Option<real> {
    if text == "" then None else ParseFloat(text)
  }

  function BoundNote(word: string, text: string): seq<string> {
    if text == "" || ParseFloat(text).Some? then [] else [word + " " + text]
  }

  const UNCONSTRAINED := PropertySchema(None, None, None, [])

  function PropertySchemaOf(plan: Plan, key: string): PropertySchema {
    if key !in plan.parameterLimits || !plan.parameterLimits[key].HasBounds() then UNCONSTRAINED
    else
      var limit := plan.parameterLimits[key];
      if |limit.oneOf| > 0 then UNCONSTRAINED.(choices := Some(limit.oneOf))
      else PropertySchema(None, NumericBound(limit.max), NumericBound(limit.min),
                          BoundNote("at most", limit.max) + BoundNote("at least", limit.min))
  }

  /** Plan.ParameterSchema. */
  method BuildParameterSchema(plan: Plan) returns (schema: ParameterSchema)
    ensures schema == map key | key in plan.allowedParameters :: PropertySchemaOf(plan, key)
  {
    schema := map[];
    for n := 0 to |plan.allowedParameters|
      invariant schema == map key | key in plan.allowedParameters[..n] :: PropertySchemaOf(plan, key)
    {
      var key := plan.allowedParameters[n];
      assert plan.allowedParameters[..n + 1] == plan.allowedParameters[..n] + [key];
      schema := schema[key := PropertySchemaOf(plan, key)];
    }
    assert plan.allowedParameters[..|plan.allowedParameters|] == plan.allowedParameters;
  }

  function NumberOf(v: Value): Option<real> {
    match v
    case Int(n) => Some(n as real)
    case Float(r) => Some(r)
    case _ => None
  }

  /** JSON Schema draft 4 on one property: `enum` compares JSON values, `maximum` and
      `minimum` say nothing about a value that is not a number. */
  predicate PropertyAccepts(p: PropertySchema, v: Value) {
    && (p.choices.Some? ==> v.Str? && v.s in p.choices.value)
    && (p.maximum.Some? && NumberOf(v).Some? ==> NumberOf(v).value <= p.maximum.value)
    && (p.minimum.Some? && NumberOf(v).Some? ==> p.minimum.value <= NumberOf(v).value)
  }

  predicate SchemaAccepts(schema: ParameterSchema, parameters: Params) {
    forall key | key in parameters :: key in schema && PropertyAccepts(schema[key], parameters[key])
  }

  /** FormatFloat prints a whole number below 2^53 with its decimal digits. */
  ghost predicate PrintsWholeNumbers(fmt: FloatFormat) {
    forall n: int :: -0x20_0000_0000_0000 <= n <= 0x20_0000_0000_0000 ==> fmt(n as real) == Itoa(n)
  }

  predicate WholeNumber(v: Value) {
    v.Int? || (v.Float? && v.r == v.r.Floor as real
               && -0x20_0000_0000_0000 <= v.r.Floor <= 0x20_0000_0000_0000)
  }

  ghost predicate IntegerBound(text: string) {
    text == "" || exists n: int :: text == Itoa(n)
  }

  /** Whole numbers against integer bounds, texts against an enumeration, anything without a
      limit. */
  ghost predicate Comparable(limit: ParameterLimit, v: Value) {
    limit.HasBounds() ==>
      if |limit.oneOf| > 0 then v.Str?
      else WholeNumber(v) && IntegerBound(limit.max) && IntegerBound(limit.min)
  }

  /** The decimal text of a float is the float. */
  predicate ReadsBack(v: Value, fmt: FloatFormat) {
    v.Float? ==> ParseQuantity(fmt(v.r)) == Some(v.r)
  }

  predicate NeedsNumbers(limit: ParameterLimit) {
    limit.HasBounds() && |limit.oneOf| == 0
  }

  predicate Above(bound: string, q: real) {
    bound != "" && ParseQuantity(bound).Some? && q > ParseQuantity(bound).value
  }

  predicate Below(bound: string, q: real) {
    bound != "" && ParseQuantity(bound).Some? && q < ParseQuantity(bound).value
  }

  /** The number breaks a bound; it breaks one the schema publishes as a number. */
  predicate Breaks(limit: ParameterLimit, q: real) {
    Above(limit.max, q) || Below(limit.min, q)
  }

  predicate BreaksPublished(limit: ParameterLimit, q: real) {
    (Above(limit.max, q) && ParseFloat(limit.max).Some?) || (Below(limit.min, q) && ParseFloat(limit.min).Some?)
  }

  /** When schema and broker give the same verdict. Enumeration: the value is a text, or not
      one of the listed texts in any form. Bounds and a number: if it breaks any bound it
      breaks a published one. Bounds and anything else, on which the schema is silent: it is
      a text that reads as a quantity within the bounds. */
  predicate SameVerdict(limit: ParameterLimit, v: Value, fmt: FloatFormat) {
    if !limit.HasBounds() then true
    else if |limit.oneOf| > 0 then v.Str? || ScalarText(v, fmt).None? || ScalarText(v, fmt).value !in limit.oneOf
    else
      match NumberOf(v)
      case Some(q) => Breaks(limit, q) ==> BreaksPublished(limit, q)
      case None => v.Str? && ParseQuantity(v.s).Some? && !Breaks(limit, ParseQuantity(v.s).value)
  }

  lemma BoundsMean(limit: ParameterLimit, raw: Value, fmt: FloatFormat)
    requires ReadableLimit(limit) && limit.HasBounds() && |limit.oneOf| == 0
    ensures WithinLimit(limit, raw, fmt) <==>
      && ScalarText(raw, fmt).Some? && ParseQuantity(ScalarText(raw, fmt).value).Some?
      && !Breaks(limit, ParseQuantity(ScalarText(raw, fmt).value).value)
  {
    hide ParseQuantity, ScalarText;
  }

  lemma PublishedMeans(plan: Plan, key: string, v: Value)
    requires ReadableLimits(plan) && key in plan.parameterLimits
    requires plan.parameterLimits[key].HasBounds() && |plan.parameterLimits[key].oneOf| == 0
    ensures PropertyAccepts(PropertySchemaOf(plan, key), v) <==>
      (NumberOf(v).Some? ==> !BreaksPublished(plan.parameterLimits[key], NumberOf(v).value))
  {
    var limit := plan.parameterLimits[key];
    FloatIsQuantity(limit.max);
    FloatIsQuantity(limit.min);
    hide ParseQuantity, ParseFloat, NumberOf;
    assert ReadableLimit(limit);
  }

  lemma FloatIsQuantity(text: string)
    ensures ParseFloat(text).Some? ==> ParseFloat(text) == ParseQuantity(text)
  {
  }

  lemma BooleansAreNoQuantities()
    ensures ParseQuantity("true").None? && ParseQuantity("false").None?
  {
    assert "true"[0] == 't' && "false"[0] == 'f';
    assert "true"[0..] == "true" && "false"[0..] == "false";
  }

  lemma NumbersReadBack(v: Value, fmt: FloatFormat)
    requires NumberOf(v).Some? && ReadsBack(v, fmt)
    ensures ScalarText(v, fmt).Some? && ParseQuantity(ScalarText(v, fmt).value) == NumberOf(v)
  {
    if v.Int? { IntegerTextsReadBack(v.n); }
  }

  /** Limit by limit, schema and broker agree exactly on the values of SameVerdict. */
  lemma PropertySchemaAgreesIff(plan: Plan, key: string, v: Value, fmt: FloatFormat)
    requires ReadableLimits(plan) && key in plan.parameterLimits
    requires NeedsNumbers(plan.parameterLimits[key]) ==> ReadsBack(v, fmt)
    ensures (PropertyAccepts(PropertySchemaOf(plan, key), v) <==> WithinLimit(plan.parameterLimits[key], v, fmt))
      <==> SameVerdict(plan.parameterLimits[key], v, fmt)
  {
    hide ParseQuantity, ParseFloat, Breaks, BreaksPublished;
    var limit := plan.parameterLimits[key];
    assert ReadableLimit(limit);
    if limit.HasBounds() && |limit.oneOf| == 0 {
      BoundsMean(limit, v, fmt);
      PublishedMeans(plan, key, v);
      if NumberOf(v).Some? {
        NumbersReadBack(v, fmt);
        PublishedBoundsAreBounds(limit, NumberOf(v).value);
      }
      BooleansAreNoQuantities();
      hide PropertySchemaOf, PropertyAccepts, WithinLimit;
    }
  }

  lemma PublishedBoundsAreBounds(limit: ParameterLimit, q: real)
    ensures BreaksPublished(limit, q) ==> Breaks(limit, q)
  {
  }

  lemma IntegerBoundsReadAlike(text: string)
    requires IntegerBound(text) && text != ""
    ensures ParseQuantity(text).Some? && ParseFloat(text) == ParseQuantity(text)
  {
    var n: int :| text == Itoa(n);
    IntegerTextsReadBack(n);
  }

  lemma WholeNumbersReadAlike(v: Value, fmt: FloatFormat)
    requires WholeNumber(v) && PrintsWholeNumbers(fmt)
    ensures ScalarText(v, fmt).Some? && ParseQuantity(ScalarText(v, fmt).value) == NumberOf(v) && NumberOf(v).Some?
  {
    var n := if v.Int? then v.n else v.r.Floor;
    assert ScalarText(v, fmt) == Some(Itoa(n));
    IntegerTextsReadBack(n);
  }

  /** Whole numbers against integer bounds are among them. */
  lemma ComparableValuesAgree(limit: ParameterLimit, v: Value, fmt: FloatFormat)
    requires ReadableLimit(limit) && PrintsWholeNumbers(fmt) && Comparable(limit, v)
    ensures SameVerdict(limit, v, fmt)
    ensures NeedsNumbers(limit) ==> ReadsBack(v, fmt)
  {
    hide ParseQuantity, ParseFloat;
    if limit.HasBounds() && |limit.oneOf| == 0 {
      WholeNumbersReadAlike(v, fmt);
      if limit.max != "" { IntegerBoundsReadAlike(limit.max); }
      if limit.min != "" { IntegerBoundsReadAlike(limit.min); }
    }
  }

  /** What the catalogue publishes is what the broker enforces, for all parameters on which
      the two are not at odds limit by limit. */
  lemma PublishedSchemaAgrees(plan: Plan, parameters: Params, schema: ParameterSchema, fmt: FloatFormat)
    requires ReadableLimits(plan)
    requires schema == map key | key in plan.allowedParameters :: PropertySchemaOf(plan, key)
    requires forall key | key in parameters && key in plan.parameterLimits ::
      && (NeedsNumbers(plan.parameterLimits[key]) ==> ReadsBack(parameters[key], fmt))
      && SameVerdict(plan.parameterLimits[key], parameters[key], fmt)
    ensures SchemaAccepts(schema, parameters) <==>
      (forall key | key in parameters :: key in plan.allowedParameters) && WithinLimits(plan, parameters, fmt)
  {
    hide PropertyAccepts, WithinLimit, SameVerdict, ReadsBack;
    forall key | key in parameters && key in plan.parameterLimits
      ensures PropertyAccepts(PropertySchemaOf(plan, key), parameters[key]) <==>
        WithinLimit(plan.parameterLimits[key], parameters[key], fmt)
    {
      PropertySchemaAgreesIff(plan, key, parameters[key], fmt);
    }
    forall key | key in parameters && key !in plan.parameterLimits ensures PropertyAccepts(PropertySchemaOf(plan, key), parameters[key]) {
      UnlimitedIsAccepted(plan, key, parameters[key]);
    }
  }

  /** In particular on whole numbers against integer bounds and texts against enumerations. */
  lemma IntegerLimitsAgree(plan: Plan, parameters: Params, schema: ParameterSchema, fmt: FloatFormat)
    requires ReadableLimits(plan) && PrintsWholeNumbers(fmt)
    requires schema == map key | key in plan.allowedParameters :: PropertySchemaOf(plan, key)
    requires forall key | key in parameters && key in plan.parameterLimits ::
      Comparable(plan.parameterLimits[key], parameters[key])
    ensures SchemaAccepts(schema, parameters) <==>
      (forall key | key in parameters :: key in plan.allowedParameters) && WithinLimits(plan, parameters, fmt)
  {
    hide SchemaAccepts, WithinLimits, Comparable, SameVerdict, ReadsBack;
    forall key | key in parameters && key in plan.parameterLimits
      ensures NeedsNumbers(plan.parameterLimits[key]) ==> ReadsBack(parameters[key], fmt)
      ensures SameVerdict(plan.parameterLimits[key], parameters[key], fmt)
    {
      ComparableValuesAgree(plan.parameterLimits[key], parameters[key], fmt);
    }
    PublishedSchemaAgrees(plan, parameters, schema, fmt);
  }

  lemma UnlimitedIsAccepted(plan: Plan, key: string, v: Value)
    requires key !in plan.parameterLimits
    ensures PropertyAccepts(PropertySchemaOf(plan, key), v)
  {
  }

  /** And on a single allowed parameter they agree only then. */
  lemma OneParameterAgreesIff(plan: Plan, key: string, v: Value, schema: ParameterSchema, fmt: FloatFormat)
    requires ReadableLimits(plan) && key in plan.parameterLimits
    requires NeedsNumbers(plan.parameterLimits[key]) ==> ReadsBack(v, fmt)
    requires schema == map k | k in plan.allowedParameters :: PropertySchemaOf(plan, k)
    ensures (SchemaAccepts(schema, map[key := v]) <==> WithinLimits(plan, map[key := v], fmt))
      <==> SameVerdict(plan.parameterLimits[key], v, fmt)
  {
    hide PropertyAccepts, WithinLimit, SameVerdict, ReadsBack;
    PropertySchemaAgreesIff(plan, key, v, fmt);
    var one := map[key := v];
    assert one.Keys == {key} && one[key] == v && key in schema;
  }

  /** Two values on which they part: the number 2 satisfies oneOf ["2"] for the broker and
      not for the schema, and the text "11" exceeds max 10 only for the broker. */
  lemma SchemaAndBrokerDisagreeOutside(fmt: FloatFormat, plan: Plan)
    requires plan.parameterLimits == map["size" := ParameterLimit("", "", [Itoa(2)]), "disk" := ParameterLimit(Itoa(10), "", [])]
    ensures WithinLimit(plan.parameterLimits["size"], Int(2), fmt)
    ensures !PropertyAccepts(PropertySchemaOf(plan, "size"), Int(2))
    ensures !WithinLimit(plan.parameterLimits["disk"], Str(Itoa(11)), fmt)
    ensures PropertyAccepts(PropertySchemaOf(plan, "disk"), Str(Itoa(11)))
  {
    IntegerTextsReadBack(10);
    IntegerTextsReadBack(11);
  }
}
