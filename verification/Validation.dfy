/** Loading-time validation and the parameter check of a request
    (internal/definition/definition.go). */
module Validation {
  import opened Wrappers
  import opened Json
  import opened Names
  import opened Definition
  import opened Limits
  import opened Quantity

  /** The semver.org pattern and the parser of Go templates, not looked into here. */
  datatype Syntax = Syntax(semver: string -> bool, template: string -> bool)

  predicate ValidMaintenance(m: Option<string>, syntax: Syntax) {
    m.Some? ==> m.value != "" && (syntax.semver)(m.value)
  }

  ghost predicate ValidPlans(plans: seq<Plan>, syntax: Syntax) {
    && DistinctPlanIds(plans)
    && forall p | p in plans ::
         p.id != "" && p.name != "" && ReadableLimits(p) && ValidMaintenance(p.maintenanceInfo, syntax)
  }

  /** wellKnownTypePattern: lower-case letters and digits, with dashes inside. */
  predicate IsServiceType(s: string) {
    s != "" && IsAlnum(s[0]) && IsAlnum(s[|s| - 1]) && forall i | 0 <= i < |s| :: IsLabelChar(s[i])
  }

  /** No two have the same name. */
  ghost predicate DistinctNames(names: seq<string>) {
    forall i, j | 0 <= i < j < |names| :: names[i] != names[j]
  }

  function MappingNames(mapping: seq<CredentialMapping>): (names: seq<string>)
    ensures |names| == |mapping| && forall i | 0 <= i < |mapping| :: names[i] == mapping[i].name
  {
    seq(|mapping|, i requires 0 <= i < |mapping| => mapping[i].name)
  }

  function SourceNames(sources: seq<StatusSource>): (names: seq<string>)
    ensures |names| == |sources| && forall i | 0 <= i < |sources| :: names[i] == sources[i].name
  {
    seq(|sources|, i requires 0 <= i < |sources| => sources[i].name)
  }

  /** A target key comes from exactly one place, and its template can be parsed. */
  predicate ValidMapping(m: CredentialMapping, syntax: Syntax) {
    m.name != "" && (m.from != "" <==> m.value == "") && (m.value != "" ==> (syntax.template)(m.value))
  }

  predicate ValidSource(q: StatusSource) {
    q.name != "" && q.apiVersion != "" && q.kind != "" && q.jsonPath != ""
  }

  /** The credentials have a source, a projected Secret has a type, every target key is
      named once. */
  ghost predicate ValidBind(b: Bind, syntax: Syntax) {
    && (b.credentialsFromSecret != "" || b.provisionedService)
    && (b.serviceType != "" ==> IsServiceType(b.serviceType))
    && (b.projectSecret ==> b.serviceType != "")
    && DistinctNames(MappingNames(b.mapping))
    && forall m | m in b.mapping :: ValidMapping(m, syntax)
  }

  /** Values taken from a status are complete, named once, and have a mapping to go to. */
  ghost predicate ValidSources(b: Bind) {
    && (b.fromStatus != [] ==> b.mapping != [])
    && DistinctNames(SourceNames(b.fromStatus))
    && forall q | q in b.fromStatus :: ValidSource(q)
  }

  /** Bind.validate. */
  method ValidateBind(b: Bind, syntax: Syntax) returns (ok: bool)
    ensures ok <==> ValidBind(b, syntax)
  {
    if b.credentialsFromSecret == "" && !b.provisionedService {
      return false;
    }
    if b.serviceType != "" && !IsServiceType(b.serviceType) {
      return false;
    }
    if b.projectSecret && b.serviceType == "" {
      return false;
    }
    var seen: set<string> := {};
    for i := 0 to |b.mapping|
      invariant seen == set j | 0 <= j < i :: b.mapping[j].name
      invariant DistinctNames(MappingNames(b.mapping)[..i])
      invariant forall j | 0 <= j < i :: ValidMapping(b.mapping[j], syntax)
    {
      var m := b.mapping[i];
      assert m in b.mapping;
      if m.name == "" {
        return false;
      }
      if m.name in seen {
        return false;
      }
      seen := seen + {m.name};
      if (m.from != "") == (m.value != "") {
        return false;
      }
      if m.value != "" && !(syntax.template)(m.value) {
        return false;
      }
    }
    assert MappingNames(b.mapping)[..|b.mapping|] == MappingNames(b.mapping);
    ok := true;
  }

  /** Bind.validateFromStatus. */
  method ValidateFromStatus(b: Bind) returns (ok: bool)
    ensures ok <==> ValidSources(b)
  {
    if |b.fromStatus| == 0 {
      return true;
    }
    if |b.mapping| == 0 {
      return false;
    }
    var seen: set<string> := {};
    for i := 0 to |b.fromStatus|
      invariant seen == set j | 0 <= j < i :: b.fromStatus[j].name
      invariant DistinctNames(SourceNames(b.fromStatus)[..i])
      invariant forall j | 0 <= j < i :: ValidSource(b.fromStatus[j])
    {
      var q := b.fromStatus[i];
      assert q in b.fromStatus;
      if !ValidSource(q) {
        return false;
      }
      if q.name in seen {
        return false;
      }
      seen := seen + {q.name};
    }
    assert SourceNames(b.fromStatus)[..|b.fromStatus|] == SourceNames(b.fromStatus);
    ok := true;
  }

  ghost predicate ValidDefinition(sd: ServiceDefinition, syntax: Syntax) {
    && sd.apiVersion == "broker.osb.io/v1alpha1" && sd.kind == "ServiceDefinition"
    && sd.name != "" && sd.offeringId != "" && sd.offeringName != ""
    && |sd.plans| > 0 && ValidPlans(sd.plans, syntax)
    && sd.provisionApiVersion != "" && sd.provisionKind != "" && sd.provisionTemplate != ""
    && sd.statusJsonPath != ""
    && ValidSources(sd.bind) && ValidBind(sd.bind, syntax)
  }

  /** Validate. */
  method Validate(sd: ServiceDefinition, syntax: Syntax) returns (ok: bool)
    ensures ok <==> ValidDefinition(sd, syntax)
  {
    if sd.apiVersion != "broker.osb.io/v1alpha1" || sd.kind != "ServiceDefinition" || sd.name == "" {
      return false;
    }
    if sd.offeringId == "" || sd.offeringName == "" || |sd.plans| == 0 {
      return false;
    }
    var plansOk := ValidatePlans(sd.plans, syntax);
    if !plansOk {
      return false;
    }
    if sd.provisionApiVersion == "" || sd.provisionKind == "" || sd.provisionTemplate == "" || sd.statusJsonPath == "" {
      return false;
    }
    var sourcesOk := ValidateFromStatus(sd.bind);
    if !sourcesOk {
      return false;
    }
    ok := ValidateBind(sd.bind, syntax);
  }

  method ValidatePlans(plans: seq<Plan>, syntax: Syntax) returns (ok: bool)
    ensures ok <==> ValidPlans(plans, syntax)
  {
    var seen: set<string> := {};
    for i := 0 to |plans|
      invariant seen == set j | 0 <= j < i :: plans[j].id
      invariant ValidPlans(plans[..i], syntax)
    {
      var p := plans[i];
      assert plans[..i + 1] == plans[..i] + [p];
      if p.id == "" || p.name == "" {
        return false;
      }
      if p.id in seen {
        return false;
      }
      seen := seen + {p.id};
      var limitsOk := ValidateLimits(p);
      if !limitsOk {
        return false;
      }
      if !ValidMaintenance(p.maintenanceInfo, syntax) {
        return false;
      }
    }
    assert plans[..|plans|] == plans;
    ok := true;
  }

  /** The parameters a plan takes: listed keys, values within their limits. */
  ghost predicate AllowedIn(plan: Plan, parameters: Params, fmt: FloatFormat) {
    (forall key | key in parameters :: key in plan.allowedParameters) && WithinLimits(plan, parameters, fmt)
  }

  /** ValidatePlanParams. Both maps are ranged over in arbitrary order; on a plan that
      passed validation the answer depends on the contents alone and no bound parse panics. */
  method ValidatePlanParams(plan: Plan, parameters: Params, fmt: FloatFormat) returns (v: Verdict)
    requires ReadableLimits(plan)
    ensures v == if AllowedIn(plan, parameters, fmt) then Accept else Reject
  {
    if |parameters| == 0 {
      return Accept;
    }
    var allowed: set<string> := {};
    for n := 0 to |plan.allowedParameters|
      invariant allowed == set i | 0 <= i < n :: plan.allowedParameters[i]
    {
      allowed := allowed + {plan.allowedParameters[n]};
    }
    var keys := parameters.Keys;
    while keys != {}
      invariant keys <= parameters.Keys
      invariant forall key | key in parameters && key !in keys :: key in plan.allowedParameters
      decreases |keys|
    {
      var key :| key in keys;
      keys := keys - {key};
      if key !in allowed {
        return Reject;
      }
    }
    v := CheckLimits(plan, parameters, fmt);
  }

  /** Every plan a request can resolve in a validated definition may be checked safely. */
  lemma ResolvedPlansAreReadable(sd: ServiceDefinition, syntax: Syntax, id: string)
    requires ValidDefinition(sd, syntax)
    ensures PlanById(sd, id).Some? ==> ReadableLimits(PlanById(sd, id).value)
  {
  }

  /** A limit of a validated plan can apply: its parameter may be set, it is an enumeration or
      a range and not both, and every bound of a range can be read. */
  lemma ValidatedLimitsApply(sd: ServiceDefinition, syntax: Syntax, p: Plan, key: string)
    requires ValidDefinition(sd, syntax) && p in sd.plans && key in p.parameterLimits
    ensures key in p.allowedParameters
    ensures var limit := p.parameterLimits[key];
      && (limit.oneOf == [] || (limit.max == "" && limit.min == ""))
      && (limit.max != "" ==> ParseQuantity(limit.max).Some?) && (limit.min != "" ==> ParseQuantity(limit.min).Some?)
  {
  }

  /** What the rest of the broker may rely on in a definition that was loaded: it is named, has
      plans with ids of their own, something to provision and somewhere to read the state, and a
      bind that has a source for its credentials. */
  lemma LoadedDefinitionIsUsable(sd: ServiceDefinition, syntax: Syntax)
    requires ValidDefinition(sd, syntax)
    ensures sd.apiVersion == "broker.osb.io/v1alpha1" && sd.kind == "ServiceDefinition"
    ensures sd.name != "" && sd.offeringId != "" && sd.offeringName != "" && sd.plans != []
    ensures forall i | 0 <= i < |sd.plans| :: sd.plans[i].id != "" && sd.plans[i].name != "" && PlanById(sd, sd.plans[i].id) == Some(sd.plans[i])
    ensures forall p | p in sd.plans && p.maintenanceInfo.Some? :: p.maintenanceInfo.value != "" && (syntax.semver)(p.maintenanceInfo.value)
    ensures sd.provisionApiVersion != "" && sd.provisionKind != "" && sd.provisionTemplate != "" && sd.statusJsonPath != ""
    ensures sd.bind.provisionedService || sd.bind.credentialsFromSecret != ""
    ensures sd.bind.projectSecret ==> IsServiceType(sd.bind.serviceType)
    ensures forall i, j | 0 <= i < j < |sd.bind.mapping| :: sd.bind.mapping[i].name != sd.bind.mapping[j].name
    ensures forall m | m in sd.bind.mapping ::
      m.name != "" && ((m.from != "" && m.value == "") || (m.from == "" && m.value != "" && (syntax.template)(m.value)))
    ensures sd.bind.fromStatus != [] ==> sd.bind.mapping != []
    ensures forall i, j | 0 <= i < j < |sd.bind.fromStatus| :: sd.bind.fromStatus[i].name != sd.bind.fromStatus[j].name
    ensures forall q | q in sd.bind.fromStatus :: q.name != "" && q.apiVersion != "" && q.kind != "" && q.jsonPath != ""
  {
    hide ReadableLimits, IsAlnum, IsLabelChar;
    assert forall i | 0 <= i < |sd.bind.mapping| :: MappingNames(sd.bind.mapping)[i] == sd.bind.mapping[i].name;
    assert forall i | 0 <= i < |sd.bind.fromStatus| :: SourceNames(sd.bind.fromStatus)[i] == sd.bind.fromStatus[i].name;
    forall i | 0 <= i < |sd.plans| ensures PlanById(sd, sd.plans[i].id) == Some(sd.plans[i]) {
      var k := PlanIndex(sd.plans, sd.plans[i].id);
      assert k <= i;
    }
  }

  /** And nothing more is asked: a definition with just these parts is loaded. */
  lemma PlainDefinitionIsLoaded(sd: ServiceDefinition, syntax: Syntax, plan: Plan)
    requires sd.apiVersion == "broker.osb.io/v1alpha1" && sd.kind == "ServiceDefinition"
    requires sd.name != "" && sd.offeringId != "" && sd.offeringName != "" && sd.plans == [plan]
    requires plan.id != "" && plan.name != "" && plan.parameterLimits == map[] && plan.maintenanceInfo == None
    requires sd.provisionApiVersion != "" && sd.provisionKind != "" && sd.provisionTemplate != "" && sd.statusJsonPath != ""
    requires sd.bind.provisionedService || sd.bind.credentialsFromSecret != ""
    requires sd.bind.serviceType == "" && !sd.bind.projectSecret && sd.bind.mapping == [] && sd.bind.fromStatus == []
    ensures ValidDefinition(sd, syntax)
  {
  }
}
