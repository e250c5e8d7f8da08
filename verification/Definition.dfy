/** Service definitions as loaded from YAML (internal/definition/definition.go). */
module Definition {
  import opened Wrappers
  import opened Json

  /** `max`, `min` and `oneOf` of one user parameter; an empty text means "not set". */
  datatype ParameterLimit = ParameterLimit(max: string, min: string, oneOf: seq<string>) {
    predicate HasBounds() {
      max != "" || min != "" || |oneOf| > 0
    }
  }

  datatype Plan = Plan(
    id: string,
    name: string,
    params: Params,
    allowedParameters: seq<string>,
    parameterLimits: map<string, ParameterLimit>,
    retainOnDeprovision: bool,
    planUpdateable: Option<bool>,
    maintenanceInfo: Option<string>)

  /** Renames a key of the operator's Secret, or fills one from a template. */
  datatype CredentialMapping = CredentialMapping(name: string, from: string, value: string)

  /** A value taken from the status of some object. */
  datatype StatusSource = StatusSource(name: string, apiVersion: string, kind: string, objectName: string, jsonPath: string)

  datatype Bind = Bind(
    credentialsFromSecret: string,
    provisionedService: bool,
    serviceType: string,
    mapping: seq<CredentialMapping>,
    projectSecret: bool,
    fromStatus: seq<StatusSource>)

  datatype ServiceDefinition = ServiceDefinition(
    apiVersion: string,
    kind: string,
    name: string,
    offeringId: string,
    offeringName: string,
    planUpdateable: Option<bool>,
    plans: seq<Plan>,
    provisionApiVersion: string,
    provisionKind: string,
    provisionTemplate: string,
    statusJsonPath: string,
    bind: Bind)

  /** The index of the first plan with this id, or |plans|. */
  function PlanIndex(plans: seq<Plan>, id: string): (i: nat)
    ensures i <= |plans|
    ensures i < |plans| ==> plans[i].id == id
    ensures forall j | 0 <= j < i :: plans[j].id != id
  {
    if plans == [] || plans[0].id == id then 0
    else
      var r := PlanIndex(plans[1..], id);
      assert forall j | 0 < j <= r :: plans[j] == plans[1..][j - 1] || j == |plans|;
      r + 1
  }

  /** PlanByID. */
  function PlanById(sd: ServiceDefinition, id: string): (p: Option<Plan>)
    ensures p.Some? ==> p.value in sd.plans && p.value.id == id
    ensures p.None? <==> forall q | q in sd.plans :: q.id != id
  {
    var i := PlanIndex(sd.plans, id);
    if i < |sd.plans| then Some(sd.plans[i]) else None
  }

  /** MaintenanceVersion: the version of the first plan with this id that states one. */
  function MaintenanceOf(plans: seq<Plan>, id: string): string {
    if plans == [] then ""
    else if plans[0].id == id && plans[0].maintenanceInfo.Some? then plans[0].maintenanceInfo.value
    else MaintenanceOf(plans[1..], id)
  }

  function MaintenanceVersion(sd: ServiceDefinition, id: string): string {
    MaintenanceOf(sd.plans, id)
  }

  /** PlanChangeAllowed: the plan decides, the offering is the fallback, and a plan that
      is gone promises nothing. */
  function PlanChangeAllowed(sd: ServiceDefinition, id: string): bool {
    match PlanById(sd, id)
    case None => false
    case Some(p) =>
      if p.planUpdateable.Some? then p.planUpdateable.value
      else sd.planUpdateable == Some(true)
  }

  predicate DistinctPlanIds(plans: seq<Plan>) {
    forall i, j | 0 <= i < j < |plans| :: plans[i].id != plans[j].id
  }

  lemma {:induction false} MaintenanceOfPlan(plans: seq<Plan>, i: nat)
    requires DistinctPlanIds(plans) && i < |plans|
    ensures MaintenanceOf(plans, plans[i].id) ==
      match plans[i].maintenanceInfo { case Some(v) => v case None => "" }
  {
    if i == 0 {
      OtherPlansStateNothing(plans[1..], plans[0].id);
    } else {
      assert plans[1..][i - 1] == plans[i];
      MaintenanceOfPlan(plans[1..], i - 1);
    }
  }

  lemma {:induction false} OtherPlansStateNothing(plans: seq<Plan>, id: string)
    requires forall p | p in plans :: p.id != id
    ensures MaintenanceOf(plans, id) == ""
  {
    if plans != [] { OtherPlansStateNothing(plans[1..], id); }
  }

  /** The two lookups agree on definitions whose plan ids are distinct: the version
      recorded for a plan is the one that plan states. */
  lemma MaintenanceVersionIsThePlans(sd: ServiceDefinition, id: string)
    requires DistinctPlanIds(sd.plans)
    ensures PlanById(sd, id).Some? && PlanById(sd, id).value.maintenanceInfo.Some? ==>
      MaintenanceVersion(sd, id) == PlanById(sd, id).value.maintenanceInfo.value
    ensures PlanById(sd, id).None? || PlanById(sd, id).value.maintenanceInfo.None? ==>
      MaintenanceVersion(sd, id) == ""
  {
    var i := PlanIndex(sd.plans, id);
    if i < |sd.plans| {
      MaintenanceOfPlan(sd.plans, i);
    } else {
      OtherPlansStateNothing(sd.plans, id);
    }
  }
}
