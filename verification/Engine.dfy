/** The generic lifecycle: provision, update, deprovision and reconcile
    (internal/definition/engine.go, update.go, retain.go, reconcile.go).

    Every operation appears twice: as a function from the state of the cluster and the
    registry to their next state, and as the method of class Engine that makes the same
    calls one by one. The properties are proved about the functions. */
module Engine {
  import opened Wrappers
  import opened Json
  import opened Names
  import opened Manifests
  import opened Definition
  import opened Limits
  import opened Validation
  import opened Render
  import opened Api
  import opened Operator
  import opened Registry

  /** The parts this model does not look into: template execution, YAML decoding, float
      printing and SHA-256. */
  datatype Codec = Codec(
    render: (string, TemplateData) -> Option<string>,
    yaml: Yaml,
    fmt: FloatFormat,
    hash: string -> Hex8)

  datatype World = World(api: State, reg: RegState)

  datatype WorldEnv = WorldEnv(api: Env, reg: RegEnv)

  datatype EngineError =
    | ServiceUnknown
    | PlanUnknown
    | ParameterNotAllowed
    | RenderFailed
    | DecodeFailed
    | ApplyFailed(api: ApiError)
    | DeleteFailed(api: ApiError)
    | RecordFailed
    | LabelFailed(refs: seq<Key>)
    | CleanupIncomplete(cause: EngineError)

  /** How an operation leaves the world, and what it reports. */
  datatype Outcome = Outcome(world: World, error: Option<EngineError>)

  // --- rendering ---

  function DataFor(codec: Codec, id: string, planParams: Params, userParams: Params): TemplateData {
    TemplateData(id, Sanitize(id, codec.hash), Overlay(planParams, userParams), userParams)
  }

  /** The objects a definition wants for an instance: render, split, decode. */
  function Desired(codec: Codec, sd: ServiceDefinition, id: string, ns: string, plan: Plan, userParams: Params)
    : Result<seq<Doc>, EngineError>
  {
    match codec.render(sd.provisionTemplate, DataFor(codec, id, plan.params, userParams))
    case None => Err(RenderFailed)
    case Some(text) =>
      match DecodeAll(codec.yaml, Documents(text), sd.provisionApiVersion, sd.provisionKind, ns)
      case None => Err(DecodeFailed)
      case Some(docs) => Ok(docs)
  }

  // --- provision ---

  function RefNames(refs: seq<Key>): (names: seq<string>)
    ensures |names| == |refs| && forall i | 0 <= i < |refs| :: names[i] == refs[i].name
  {
    seq(|refs|, i requires 0 <= i < |refs| => refs[i].name)
  }

  /** rollbackPartialProvision: the cause wins over what goes wrong while cleaning up. */
  function Rollback(env: WorldEnv, w: World, ns: string, refs: seq<Key>, cause: EngineError): Outcome {
    if |refs| == 0 then Outcome(w, Some(cause))
    else
      var d := DeleteAll(env.api, w.api, ns, refs);
      Outcome(w.(api := d.state), Some(if d.error.Some? then CleanupIncomplete(cause) else cause))
  }

  function NewRecord(sd: ServiceDefinition, id: string, ns: string, planId: string, params: Params, refs: seq<Key>): InstanceRecord {
    InstanceRecord(id, sd.offeringId, planId, ns, RefNames(refs), refs, params, MaintenanceVersion(sd, planId))
  }

  function ProvisionDocs(env: WorldEnv, w: World, ns: string, docs: seq<Doc>, rec: InstanceRecord): Outcome {
    var a := ApplyAll(env.api, w.api, docs);
    if a.error.Some? then Rollback(env, w.(api := a.state), ns, a.refs, ApplyFailed(a.error.value))
    else
      var (reg, ok) := RegPut(env.reg, w.reg, rec.(appliedObjects := RefNames(a.refs), appliedRefs := a.refs));
      if ok then Outcome(World(a.state, reg), None)
      else Rollback(env, World(a.state, reg), ns, a.refs, RecordFailed)
  }

  ghost function Provision(codec: Codec, env: WorldEnv, w: World, sd: ServiceDefinition,
                           id: string, ns: string, planId: string, params: Params): Outcome
  {
    match PlanById(sd, planId)
    case None => Outcome(w, Some(PlanUnknown))
    case Some(plan) =>
      if !AllowedIn(plan, params, codec.fmt) then Outcome(w, Some(ParameterNotAllowed))
      else
        match Desired(codec, sd, id, ns, plan, params)
        case Err(e) => Outcome(w, Some(e))
        case Ok(docs) => ProvisionDocs(env, w, ns, docs, NewRecord(sd, id, ns, planId, params, []))
  }

  // --- update ---

  /** The record after an update; references are replaced only when something was applied. */
  function UpdatedRecord(rec: InstanceRecord, sd: ServiceDefinition, planId: string, params: Params, refs: seq<Key>): InstanceRecord {
    var r := rec.(planId := planId, parameters := params, maintenanceVersion := MaintenanceVersion(sd, planId));
    if refs == [] then r else r.(appliedObjects := RefNames(refs), appliedRefs := refs)
  }

  /** The no-op check followed, where needed, by the writes. */
  function Converge(env: Env, s: State, docs: seq<Doc>): Applied {
    var (t, same) := ManifestsUpToDateSpec(env, s, docs);
    if same then Applied(t, [], None) else ApplyAll(env, t, docs)
  }

  function UpdateDocs(env: WorldEnv, w: World, sd: ServiceDefinition, docs: seq<Doc>,
                      rec: Option<InstanceRecord>, planId: string, params: Params): Outcome
  {
    var a := Converge(env.api, w.api, docs);
    if a.error.Some? then Outcome(w.(api := a.state), Some(ApplyFailed(a.error.value)))
    else if rec.None? then Outcome(w.(api := a.state), None)
    else
      var (reg, ok) := RegPut(env.reg, w.reg, UpdatedRecord(rec.value, sd, planId, params, a.refs));
      Outcome(World(a.state, reg), if ok then None else Some(RecordFailed))
  }

  /** updateDefinition, from the record that was read (or None). */
  ghost function UpdateFrom(codec: Codec, env: WorldEnv, w: World, rec: Option<InstanceRecord>, sd: ServiceDefinition,
                            id: string, ns: string, sentPlan: string, sent: Params): Outcome
  {
    var planId := if sentPlan == "" && rec.Some? then rec.value.planId else sentPlan;
    match PlanById(sd, planId)
    case None => Outcome(w, Some(PlanUnknown))
    case Some(plan) =>
      var merged := if rec.Some? then Overlay(rec.value.parameters, sent) else sent;
      if !AllowedIn(plan, merged, codec.fmt) then Outcome(w, Some(ParameterNotAllowed))
      else
        match Desired(codec, sd, id, ns, plan, merged)
        case Err(e) => Outcome(w, Some(e))
        case Ok(docs) => UpdateDocs(env, w, sd, docs, rec, planId, merged)
  }

  ghost function Update(codec: Codec, env: WorldEnv, w: World, sd: ServiceDefinition,
                        id: string, ns: string, sentPlan: string, sent: Params): Outcome
  {
    var (reg, rec) := RegGet(env.reg, w.reg, id);
    UpdateFrom(codec, env, w.(reg := reg), rec, sd, id, ns, sentPlan, sent)
  }

  // --- deprovision ---

  const LABEL_RETAINED_INSTANCE := "osb.io/retained-instance"
  const LABEL_RETAINED_AT := "osb.io/retained-at"

  function RetainedLabels(id: string, stamp: string): map<string, string> {
    map[LABEL_RETAINED_INSTANCE := id, LABEL_RETAINED_AT := stamp]
  }

  /** planRetains: without a record, or with a plan that is gone, nothing is kept. */
  predicate PlanRetains(sd: ServiceDefinition, rec: Option<InstanceRecord>) {
    && rec.Some? && rec.value.planId != ""
    && PlanById(sd, rec.value.planId).Some?
    && PlanById(sd, rec.value.planId).value.retainOnDeprovision
  }

  function NamedRefs(sd: ServiceDefinition, ns: string, names: seq<string>): (refs: seq<Key>)
    ensures |refs| == |names|
    ensures forall i | 0 <= i < |names| :: refs[i] == Key(sd.provisionApiVersion, sd.provisionKind, ns, names[i])
  {
    seq(|names|, i requires 0 <= i < |names| => Key(sd.provisionApiVersion, sd.provisionKind, ns, names[i]))
  }

  /** The objects of an instance: recorded references, else recorded names, else the one
      object named after the instance. */
  function RefsOf(codec: Codec, sd: ServiceDefinition, rec: Option<InstanceRecord>, id: string, ns: string): seq<Key> {
    if rec.Some? && |rec.value.appliedRefs| > 0 then rec.value.appliedRefs
    else if rec.Some? && |rec.value.appliedObjects| > 0 then NamedRefs(sd, ns, rec.value.appliedObjects)
    else NamedRefs(sd, ns, [Sanitize(id, codec.hash)])
  }

  function Forget(env: WorldEnv, w: World, id: string, earlier: Option<EngineError>): Outcome {
    var (reg, ok) := RegDelete(env.reg, w.reg, id);
    Outcome(w.(reg := reg), if ok then earlier else Some(RecordFailed))
  }

  function DeprovisionFrom(codec: Codec, env: WorldEnv, w: World, rec: Option<InstanceRecord>, sd: ServiceDefinition,
                           ns: string, id: string, stamp: string): Outcome
  {
    var refs := RefsOf(codec, sd, rec, id, ns);
    if PlanRetains(sd, rec) then
      var (api, failed) := LabelAll(env.api, w.api, ns, refs, RetainedLabels(id, stamp));
      Forget(env, w.(api := api), id, if failed == [] then None else Some(LabelFailed(failed)))
    else
      var d := DeleteAll(env.api, w.api, ns, refs);
      if d.error.Some? then Outcome(w.(api := d.state), Some(DeleteFailed(d.error.value)))
      else Forget(env, w.(api := d.state), id, None)
  }

  /** DeprovisionInstance. */
  function Deprovision(codec: Codec, env: WorldEnv, w: World, sd: ServiceDefinition,
                       ns: string, id: string, stamp: string): Outcome
  {
    var (reg, rec) := RegGet(env.reg, w.reg, id);
    DeprovisionFrom(codec, env, w.(reg := reg), rec, sd, ns, id, stamp)
  }

  // --- reconcile ---

  datatype ReconcileResult = RUpToDate | RApplied | RUnresolvable | RObjectsMissing | RFailed

  /** objectsPresent: stop at the first object found or the first read that fails. */
  function Present(env: Env, s: State, refs: seq<Key>): Ret<bool> {
    if refs == [] then Ret(s, Ok(false))
    else
      var before := Present(env, s, refs[..|refs| - 1]);
      if before.result != Ok(false) then before
      else
        var got := GetCall(env, before.state, refs[|refs| - 1]);
        Ret(got.state, if got.result.Ok? then Ok(true)
                       else if got.result.error == NotFound then Ok(false)
                       else Err(got.result.error))
  }

  lemma {:induction false} PresentStops(env: Env, s: State, refs: seq<Key>, n: nat)
    requires n <= |refs| && Present(env, s, refs[..n]).result != Ok(false)
    ensures Present(env, s, refs) == Present(env, s, refs[..n])
    decreases |refs| - n
  {
    if n == |refs| {
      assert refs[..n] == refs;
    } else {
      assert refs[..n + 1][..n] == refs[..n];
      PresentStops(env, s, refs, n + 1);
    }
  }

  ghost function ReconcilePresent(codec: Codec, env: WorldEnv, w: World, sd: ServiceDefinition, plan: Plan, rec: InstanceRecord)
    : (World, ReconcileResult)
  {
    match Desired(codec, sd, rec.id, rec.ns, plan, rec.parameters)
    case Err(_) => (w, RFailed)
    case Ok(docs) =>
      var (api, same) := ManifestsUpToDateSpec(env.api, w.api, docs);
      if same then (w.(api := api), RUpToDate)
      else
        var u := Update(codec, env, w.(api := api), sd, rec.id, rec.ns, rec.planId, map[]);
        (u.world, if u.error.Some? then RFailed else RApplied)
  }

  /** ReconcileInstance. */
  ghost function Reconcile(codec: Codec, env: WorldEnv, w: World, defs: map<string, ServiceDefinition>, rec: InstanceRecord)
    : (World, ReconcileResult)
  {
    if rec.id == "" || rec.ns == "" || rec.serviceId !in defs then (w, RUnresolvable)
    else
      var sd := defs[rec.serviceId];
      match PlanById(sd, rec.planId)
      case None => (w, RUnresolvable)
      case Some(plan) =>
        var present := Present(env.api, w.api, RefsOf(codec, sd, Some(rec), rec.id, rec.ns));
        var w1 := w.(api := present.state);
        match present.result
        case Err(_) => (w1, RFailed)
        case Ok(found) => if !found then (w1, RObjectsMissing) else ReconcilePresent(codec, env, w1, sd, plan, rec)
  }

  // --- the engine object ---

  /** The definitions by offering id; of two with the same id the later one counts. */
  function ByServiceId(defs: seq<ServiceDefinition>): map<string, ServiceDefinition> {
    if defs == [] then map[]
    else ByServiceId(defs[..|defs| - 1])[defs[|defs| - 1].offeringId := defs[|defs| - 1]]
  }

  ghost predicate ValidDefinitions(defs: map<string, ServiceDefinition>, syntax: Syntax) {
    forall id | id in defs :: ValidDefinition(defs[id], syntax) && defs[id].offeringId == id
  }

  class Engine {
    const op: OperatorClient
    const server: Server
    const registry: InstanceRegistry
    const codec: Codec
    ghost const syntax: Syntax
    var byServiceId: map<string, ServiceDefinition>

    ghost predicate Valid()
      reads this
    {
      op.server == server && Alone(server.env) && ValidDefinitions(byServiceId, syntax)
    }

    ghost function W(): World
      reads server, registry
    {
      World(server.state, registry.state)
    }

    ghost function Env(): WorldEnv
      requires Alone(server.env)
    {
      WorldEnv(server.env, registry.env)
    }

    /** NewEngine: the definitions have been validated when they were parsed. */
    constructor (op: OperatorClient, registry: InstanceRegistry, codec: Codec, ghost syntax: Syntax, defs: seq<ServiceDefinition>)
      requires Alone(op.server.env) && forall d | d in defs :: ValidDefinition(d, syntax)
      ensures Valid() && this.op == op && this.registry == registry && this.codec == codec && this.syntax == syntax
      ensures byServiceId == ByServiceId(defs)
    {
      this.op, this.server, this.registry, this.codec, this.syntax := op, op.server, registry, codec, syntax;
      byServiceId := map[];
      new;
      for n := 0 to |defs|
        invariant this.byServiceId == ByServiceId(defs[..n])
        invariant ValidDefinitions(this.byServiceId, syntax)
      {
        assert defs[..n + 1][..n] == defs[..n];
        this.byServiceId := this.byServiceId[defs[n].offeringId := defs[n]];
      }
      assert defs[..|defs|] == defs;
    }

    method RenderDocs(sd: ServiceDefinition, id: string, ns: string, plan: Plan, userParams: Params)
      returns (r: Result<seq<Doc>, EngineError>)
      ensures r == Desired(codec, sd, id, ns, plan, userParams)
    {
      var safeName, _ := SanitizeInstanceName(id, codec.hash);
      var text := codec.render(sd.provisionTemplate,
        TemplateData(id, safeName, Overlay(plan.params, userParams), userParams));
      if text.None? {
        return Err(RenderFailed);
      }
      var docs := DecodeManifests(codec.yaml, sd.provisionApiVersion, sd.provisionKind, ns, text.value);
      r := if docs.None? then Err(DecodeFailed) else Ok(docs.value);
    }

    method CheckParams(sd: ServiceDefinition, plan: Plan, params: Params) returns (ok: bool)
      requires ValidDefinition(sd, syntax) && plan in sd.plans
      ensures ok <==> AllowedIn(plan, params, codec.fmt)
    {
      var v := ValidatePlanParams(plan, params, codec.fmt);
      ok := v == Accept;
    }

    method RollbackPartialProvision(ns: string, refs: seq<Key>, cause: EngineError) returns (error: EngineError)
      requires Valid()
      modifies server
      ensures Outcome(W(), Some(error)) == Rollback(Env(), old(W()), ns, refs, cause)
    {
      if |refs| == 0 {
        return cause;
      }
      var _, failed := op.DeleteManifestRefs(ns, refs);
      error := if failed.Some? then CleanupIncomplete(cause) else cause;
    }

    /** provisionDefinition. */
    method ProvisionDefinition(sd: ServiceDefinition, id: string, ns: string, planId: string, params: Params)
      returns (error: Option<EngineError>)
      requires Valid() && ValidDefinition(sd, syntax)
      modifies server, registry
      ensures Outcome(W(), error) == Provision(codec, Env(), old(W()), sd, id, ns, planId, params)
    {
      var plan := PlanById(sd, planId);
      if plan.None? {
        return Some(PlanUnknown);
      }
      var allowed := CheckParams(sd, plan.value, params);
      if !allowed {
        return Some(ParameterNotAllowed);
      }
      var docs := RenderDocs(sd, id, ns, plan.value, params);
      if docs.Err? {
        return Some(docs.error);
      }
      var applied, failed := op.ApplyManifestRefs(docs.value);
      if failed.Some? {
        var e := RollbackPartialProvision(ns, applied, ApplyFailed(failed.value));
        return Some(e);
      }
      var ok := registry.PutInstance(NewRecord(sd, id, ns, planId, params, applied));
      if !ok {
        var e := RollbackPartialProvision(ns, applied, RecordFailed);
        return Some(e);
      }
      error := None;
    }

    /** updateDefinition. */
    method UpdateDefinition(sd: ServiceDefinition, id: string, ns: string, sentPlan: string, sent: Params)
      returns (error: Option<EngineError>)
      requires Valid() && ValidDefinition(sd, syntax)
      modifies server, registry
      ensures Outcome(W(), error) == Update(codec, Env(), old(W()), sd, id, ns, sentPlan, sent)
    {
      hide ApplyAll, UpToDate, Desired, AllowedIn, Alone, PlanById, ValidDefinitions, Overlay, MaintenanceVersion;
      var rec := registry.GetInstance(id);
      var planId := sentPlan;
      if planId == "" && rec.Some? {
        planId := rec.value.planId;
      }
      var plan := PlanById(sd, planId);
      if plan.None? {
        return Some(PlanUnknown);
      }
      var merged := sent;
      if rec.Some? {
        merged := Overlay(rec.value.parameters, sent);
      }
      var allowed := CheckParams(sd, plan.value, merged);
      if !allowed {
        return Some(ParameterNotAllowed);
      }
      var docs := RenderDocs(sd, id, ns, plan.value, merged);
      if docs.Err? {
        return Some(docs.error);
      }
      var same := op.ManifestsUpToDate(docs.value);
      var applied: seq<Key> := [];
      if !same {
        var failed;
        applied, failed := op.ApplyManifestRefs(docs.value);
        if failed.Some? {
          return Some(ApplyFailed(failed.value));
        }
      }
      error := None;
      if rec.Some? {
        var r := rec.value.(planId := planId, parameters := merged, maintenanceVersion := MaintenanceVersion(sd, planId));
        if applied != [] {
          r := r.(appliedObjects := RefNames(applied), appliedRefs := applied);
        }
        var ok := registry.PutInstance(r);
        if !ok {
          error := Some(RecordFailed);
        }
      }
    }

    method ForgetInstance(id: string) returns (ok: bool)
      modifies registry
      ensures (registry.state, ok) == RegDelete(registry.env, old(registry.state), id)
    {
      ok := registry.DeleteInstance(id);
    }

    /** DeprovisionInstance. */
    method DeprovisionInstance(sd: ServiceDefinition, ns: string, id: string, stamp: string)
      returns (error: Option<EngineError>)
      requires Valid()
      modifies server, registry
      ensures Outcome(W(), error) == Deprovision(codec, Env(), old(W()), sd, ns, id, stamp)
    {
      var rec := registry.GetInstance(id);
      var refs := RetainableRefs(sd, rec, id, ns);
      if PlanRetains(sd, rec) {
        var failed := op.MarkRetained(ns, refs, RetainedLabels(id, stamp));
        var ok := ForgetInstance(id);
        if !ok {
          return Some(RecordFailed);
        }
        return if failed == [] then None else Some(LabelFailed(failed));
      }
      var _, failed := op.DeleteManifestRefs(ns, refs);
      if failed.Some? {
        return Some(DeleteFailed(failed.value));
      }
      var ok := ForgetInstance(id);
      error := if ok then None else Some(RecordFailed);
    }

    /** retainableRefs, and with it the three ways in which DeprovisionInstance finds what
        to delete. */
    method RetainableRefs(sd: ServiceDefinition, rec: Option<InstanceRecord>, id: string, ns: string) returns (refs: seq<Key>)
      ensures refs == RefsOf(codec, sd, rec, id, ns)
    {
      if rec.Some? && |rec.value.appliedRefs| > 0 {
        return rec.value.appliedRefs;
      }
      var safeName, _ := SanitizeInstanceName(id, codec.hash);
      var names := [safeName];
      if rec.Some? && |rec.value.appliedObjects| > 0 {
        names := rec.value.appliedObjects;
      }
      refs := [];
      for n := 0 to |names|
        invariant refs == NamedRefs(sd, ns, names)[..n]
      {
        refs := refs + [Key(sd.provisionApiVersion, sd.provisionKind, ns, names[n])];
      }
    }

    method ObjectsPresent(refs: seq<Key>) returns (r: Result<bool, ApiError>)
      requires Valid()
      modifies server
      ensures Ret(server.state, r) == Present(server.env, old(server.state), refs)
    {
      for n := 0 to |refs|
        invariant Ret(server.state, Ok(false)) == Present(server.env, old(server.state), refs[..n])
      {
        assert refs[..n + 1][..n] == refs[..n];
        var got := server.Get(refs[n]);
        if got.Ok? {
          PresentStops(server.env, old(server.state), refs, n + 1);
          return Ok(true);
        }
        if got.error != NotFound {
          PresentStops(server.env, old(server.state), refs, n + 1);
          return Err(got.error);
        }
      }
      assert refs[..|refs|] == refs;
      r := Ok(false);
    }

    /** ReconcileInstance. */
    method ReconcileInstance(rec: InstanceRecord) returns (r: ReconcileResult)
      requires Valid()
      modifies server, registry
      ensures (W(), r) == Reconcile(codec, Env(), old(W()), old(byServiceId), rec)
    {
      if rec.id == "" || rec.ns == "" || rec.serviceId !in byServiceId {
        return RUnresolvable;
      }
      var sd := byServiceId[rec.serviceId];
      var plan := PlanById(sd, rec.planId);
      if plan.None? {
        return RUnresolvable;
      }
      var refs := RetainableRefs(sd, Some(rec), rec.id, rec.ns);
      var present := ObjectsPresent(refs);
      if present.Err? {
        return RFailed;
      }
      if !present.value {
        return RObjectsMissing;
      }
      var docs := RenderDocs(sd, rec.id, rec.ns, plan.value, rec.parameters);
      if docs.Err? {
        return RFailed;
      }
      var same := op.ManifestsUpToDate(docs.value);
      if same {
        return RUpToDate;
      }
      var failed := UpdateDefinition(sd, rec.id, rec.ns, rec.planId, map[]);
      r := if failed.Some? then RFailed else RApplied;
    }
  }
}
