/** The OSB request handlers (internal/handlers/service_instances.go, service_bindings.go,
    definition_instances.go): one function from broker state to broker state per request,
    and class Handlers, which makes the same calls in the same order. */
module Broker {
  import opened Wrappers
  import opened Json
  import opened Names
  import opened Definition
  import opened Validation
  import opened Api
  import opened Registry
  import opened Bindings
  import opened Engine

  /** Everything the broker's requests can change or depend on. */
  datatype BrokerState = BrokerState(
    world: World,
    binds: BindState,
    secrets: SecretState,
    defs: map<string, ServiceDefinition>)

  /** `offered` is what reading and shaping the operator's Secret yields at the moment of
      the call; operators rotate it. */
  datatype BrokerEnv = BrokerEnv(
    world: WorldEnv,
    binds: BindEnv,
    secretFails: SecretEnv,
    offered: nat -> Option<Params>)

  datatype Status =
    | Ok200 | Created201 | Accepted202
    | BadRequest400 | NotFound404 | Conflict409 | Gone410
    | AsyncRequired422 | MaintenanceConflict422 | PlanChangeNotSupported422
    | NamespaceError500 | StoreError500
    | EngineError(error: EngineError)
    /** No request's answer, but what a pass of the reconciler reports. */
    | Reconciled(result: ReconcileResult)

  datatype Response = Response(status: Status, credentials: Params)

  function Plain(status: Status): Response {
    Response(status, map[])
  }

  /** `nsText` is what the namespace template made of the request context (None when it
      could not be executed), `nsReady` whether ensureNamespace let it pass. */
  datatype ProvisionRequest = ProvisionRequest(
    serviceId: string, planId: string, parameters: Params, maintenance: Option<string>,
    acceptsIncomplete: bool, nsText: Option<string>, nsReady: bool)

  datatype UpdateRequest = UpdateRequest(serviceId: string, planId: string, parameters: Params, maintenance: Option<string>)

  datatype BindRequest = BindRequest(serviceId: string, planId: string, appGuid: string)

  const DEFAULT_NAMESPACE := "default"

  function FirstNamespace(refs: seq<Key>): string {
    if refs == [] then DEFAULT_NAMESPACE
    else if refs[0].ns != "" then refs[0].ns
    else FirstNamespace(refs[1..])
  }

  /** namespaceOf: the recorded namespace, else that of a recorded object, else "default". */
  function NamespaceOf(rec: InstanceRecord): string {
    if rec.ns != "" then rec.ns else FirstNamespace(rec.appliedRefs)
  }

  /** NamespaceStrategy.Resolve: an empty or invalid result is refused. */
  function ResolvedNamespace(nsText: Option<string>): Option<string> {
    if nsText.None? || !IsDns1123Label(nsText.value) then None else nsText
  }

  /** maintenanceInfoMatches: what the platform does not send is not checked. */
  predicate MaintenanceMatches(sd: ServiceDefinition, planId: string, requested: Option<string>) {
    requested.None? || requested.value == MaintenanceVersion(sd, planId)
  }

  function ReadInstance(env: BrokerEnv, b: BrokerState, id: string): (BrokerState, Option<InstanceRecord>) {
    var (reg, rec) := RegGet(env.world.reg, b.world.reg, id);
    (b.(world := b.world.(reg := reg)), rec)
  }

  /** instanceNamespace. */
  function InstanceNamespace(env: BrokerEnv, b: BrokerState, id: string): (BrokerState, string) {
    var (b1, rec) := ReadInstance(env, b, id);
    (b1, if rec.Some? then NamespaceOf(rec.value) else DEFAULT_NAMESPACE)
  }

  function ReadBinding(env: BrokerEnv, b: BrokerState, bid: string): (BrokerState, Option<Binding>) {
    var (binds, r) := BindGet(env.binds, b.binds, bid);
    (b.(binds := binds), r)
  }

  // --- PUT /v2/service_instances/:id ---

  /** A repeated PUT: 200 when it asks for what is there, 409 otherwise. */
  function AnswerKnown(known: InstanceRecord, req: ProvisionRequest): Response {
    Plain(if known.serviceId != req.serviceId || known.planId != req.planId || !ParamsEqual(known.parameters, req.parameters)
          then Conflict409 else Ok200)
  }

  ghost function ProvisionUnknown(codec: Codec, env: BrokerEnv, b: BrokerState, sd: ServiceDefinition, plan: Plan,
                                  id: string, req: ProvisionRequest): (BrokerState, Response)
  {
    if !req.acceptsIncomplete then (b, Plain(AsyncRequired422))
    else if !AllowedIn(plan, req.parameters, codec.fmt) then (b, Plain(EngineError(ParameterNotAllowed)))
    else
      match ResolvedNamespace(req.nsText)
      case None => (b, Plain(NamespaceError500))
      case Some(ns) =>
        if !req.nsReady then (b, Plain(NamespaceError500))
        else
          var o := Provision(codec, env.world, b.world, sd, id, ns, req.planId, req.parameters);
          (b.(world := o.world), Plain(if o.error.Some? then EngineError(o.error.value) else Accepted202))
  }

  ghost function HandleProvision(codec: Codec, env: BrokerEnv, b: BrokerState, id: string, req: ProvisionRequest): (BrokerState, Response) {
    if req.serviceId == "" || req.planId == "" then (b, Plain(BadRequest400))
    else if req.serviceId !in b.defs then (b, Plain(EngineError(ServiceUnknown)))
    else
      var sd := b.defs[req.serviceId];
      match PlanById(sd, req.planId)
      case None => (b, Plain(EngineError(PlanUnknown)))
      case Some(plan) =>
        if !MaintenanceMatches(sd, req.planId, req.maintenance) then (b, Plain(MaintenanceConflict422))
        else
          var (b1, known) := ReadInstance(env, b, id);
          if known.Some? then (b1, AnswerKnown(known.value, req))
          else ProvisionUnknown(codec, env, b1, sd, plan, id, req)
  }

  // --- DELETE /v2/service_instances/:id ---

  /** The service a request speaks of: the one it names, or the one on record. */
  function RequestedService(sent: string, rec: Option<InstanceRecord>): string {
    if sent == "" && rec.Some? then rec.value.serviceId else sent
  }

  function HandleDeprovisionOf(codec: Codec, env: BrokerEnv, b: BrokerState, sd: ServiceDefinition, id: string, stamp: string): (BrokerState, Response) {
    var (binds, listed) := BindList(env.binds, b.binds, id);
    var b1 := b.(binds := binds);
    if listed.Some? && exists x | x in listed.value :: x.ready then (b1, Plain(Conflict409))
    else
      var (b2, ns) := InstanceNamespace(env, b1, id);
      var o := Deprovision(codec, env.world, b2.world, sd, ns, id, stamp);
      (b2.(world := o.world), Plain(if o.error.Some? then EngineError(o.error.value) else Ok200))
  }

  function HandleDeprovision(codec: Codec, env: BrokerEnv, b: BrokerState, id: string, sentService: string, stamp: string): (BrokerState, Response) {
    var (b0, first) := if sentService == "" then ReadInstance(env, b, id) else (b, None);
    var serviceId := RequestedService(sentService, first);
    var (b1, rec) := ReadInstance(env, b0, id);
    if rec.None? then (b1, Plain(Gone410))
    else if serviceId == "" || serviceId !in b1.defs then (b1, Plain(EngineError(ServiceUnknown)))
    else HandleDeprovisionOf(codec, env, b1, b1.defs[serviceId], id, stamp)
  }

  // --- PATCH /v2/service_instances/:id ---

  ghost function HandleUpdateOf(codec: Codec, env: BrokerEnv, b: BrokerState, rec: InstanceRecord, sd: ServiceDefinition,
                                id: string, req: UpdateRequest): (BrokerState, Response)
  {
    var planId := if req.planId == "" then rec.planId else req.planId;
    if planId != rec.planId && !PlanChangeAllowed(sd, rec.planId) then (b, Plain(PlanChangeNotSupported422))
    else if !MaintenanceMatches(sd, planId, req.maintenance) then (b, Plain(MaintenanceConflict422))
    else if |req.parameters| > 0 && PlanById(sd, planId).None? then (b, Plain(EngineError(PlanUnknown)))
    else if |req.parameters| > 0 && !AllowedIn(PlanById(sd, planId).value, req.parameters, codec.fmt) then
      (b, Plain(EngineError(ParameterNotAllowed)))
    else
      var o := Update(codec, env.world, b.world, sd, id, NamespaceOf(rec), planId, req.parameters);
      (b.(world := o.world), Plain(if o.error.Some? then EngineError(o.error.value) else Ok200))
  }

  ghost function HandleUpdate(codec: Codec, env: BrokerEnv, b: BrokerState, id: string, req: UpdateRequest): (BrokerState, Response) {
    var (b1, rec) := ReadInstance(env, b, id);
    if rec.None? then (b1, Plain(NotFound404))
    else
      var serviceId := RequestedService(req.serviceId, rec);
      if serviceId == "" || serviceId !in b1.defs then (b1, Plain(EngineError(ServiceUnknown)))
      else HandleUpdateOf(codec, env, b1, rec.value, b1.defs[serviceId], id, req)
  }

  // --- PUT and DELETE .../service_bindings/:bid ---

  /** A bind of an unknown id: credentials, projected Secret, record, in that order. */
  function BindUnknown(env: BrokerEnv, b: BrokerState, sd: ServiceDefinition, id: string, bid: string, req: BindRequest): (BrokerState, Response) {
    var (b1, ns) := InstanceNamespace(env, b, id);
    match env.offered(b1.binds.clock)
    case None => (b1, Plain(EngineError(DecodeFailed)))
    case Some(creds) =>
      var (secrets, written) := if sd.bind.projectSecret then SecretWrite(env.secretFails, b1.secrets, ns, bid, creds) else (b1.secrets, true);
      var b2 := b1.(secrets := secrets);
      if !written then (b2, Plain(StoreError500))
      else
        var (binds, ok) := BindPut(env.binds, b2.binds, Binding(bid, id, req.serviceId, req.planId, req.appGuid, creds, true));
        (b2.(binds := binds), if ok then Response(Created201, creds) else Plain(StoreError500))
  }

  function HandleBind(env: BrokerEnv, b: BrokerState, id: string, bid: string, req: BindRequest): (BrokerState, Response) {
    if req.serviceId == "" || req.planId == "" then (b, Plain(BadRequest400))
    else if req.serviceId !in b.defs then (b, Plain(EngineError(ServiceUnknown)))
    else
      var (b1, known) := ReadBinding(env, b, bid);
      if known.Some? then
        (b1, if known.value.serviceId != req.serviceId || known.value.instanceId != id then Plain(Conflict409)
             else Response(Ok200, known.value.credentials))
      else BindUnknown(env, b1, b1.defs[req.serviceId], id, bid, req)
  }

  function HandleUnbind(env: BrokerEnv, b: BrokerState, id: string, bid: string, sentService: string): (BrokerState, Response) {
    var (b1, known) := ReadBinding(env, b, bid);
    if known.None? then (b1, Plain(Gone410))
    else
      var serviceId := if sentService == "" then known.value.serviceId else sentService;
      if serviceId == "" || serviceId !in b1.defs then (b1, Plain(EngineError(ServiceUnknown)))
      else
        var (b2, ns) := InstanceNamespace(env, b1, id);
        var (secrets, gone) := if b1.defs[serviceId].bind.projectSecret then SecretDelete(env.secretFails, b2.secrets, ns, bid) else (b2.secrets, true);
        var b3 := b2.(secrets := secrets);
        if !gone then (b3, Plain(StoreError500))
        else
          var (binds, ok) := BindDelete(env.binds, b3.binds, bid);
          (b3.(binds := binds), Plain(if ok then Ok200 else StoreError500))
  }

  class Handlers {
    const engine: Engine
    const bindings: BindingStore
    const secrets: SecretStore
    const offered: nat -> Option<Params>

    ghost predicate Valid()
      reads engine
    {
      engine.Valid()
    }

    ghost function B(): BrokerState
      reads engine, engine.server, engine.registry, bindings, secrets
    {
      BrokerState(engine.W(), bindings.state, secrets.state, engine.byServiceId)
    }

    ghost function Env(): BrokerEnv
      requires Alone(engine.server.env)
    {
      BrokerEnv(engine.Env(), bindings.env, secrets.fails, offered)
    }

    constructor (engine: Engine, bindings: BindingStore, secrets: SecretStore, offered: nat -> Option<Params>)
      ensures this.engine == engine && this.bindings == bindings && this.secrets == secrets && this.offered == offered
    {
      this.engine, this.bindings, this.secrets, this.offered := engine, bindings, secrets, offered;
    }

    method ProvisionServiceInstance(id: string, req: ProvisionRequest) returns (r: Response)
      requires Valid()
      modifies engine.server, engine.registry
      ensures (B(), r) == HandleProvision(engine.codec, Env(), old(B()), id, req)
    {
      hide Provision;
      if req.serviceId == "" {
        return Plain(BadRequest400);
      }
      if req.planId == "" {
        return Plain(BadRequest400);
      }
      if req.serviceId !in engine.byServiceId {
        return Plain(EngineError(ServiceUnknown));
      }
      var sd := engine.byServiceId[req.serviceId];
      var plan := PlanById(sd, req.planId);
      if plan.None? {
        return Plain(EngineError(PlanUnknown));
      }
      if !MaintenanceMatches(sd, req.planId, req.maintenance) {
        return Plain(MaintenanceConflict422);
      }
      var known := engine.registry.GetInstance(id);
      if known.Some? {
        return AnswerKnown(known.value, req);
      }
      if !req.acceptsIncomplete {
        return Plain(AsyncRequired422);
      }
      var allowed := engine.CheckParams(sd, plan.value, req.parameters);
      if !allowed {
        return Plain(EngineError(ParameterNotAllowed));
      }
      var ns := ResolvedNamespace(req.nsText);
      if ns.None? || !req.nsReady {
        return Plain(NamespaceError500);
      }
      var failed := engine.ProvisionDefinition(sd, id, ns.value, req.planId, req.parameters);
      r := Plain(if failed.Some? then EngineError(failed.value) else Accepted202);
    }

    method DeprovisionServiceInstance(id: string, sentService: string, stamp: string) returns (r: Response)
      requires Valid()
      modifies engine.server, engine.registry, bindings
      ensures (B(), r) == HandleDeprovision(engine.codec, Env(), old(B()), id, sentService, stamp)
    {
      hide HandleDeprovisionOf;
      var serviceId := sentService;
      if serviceId == "" {
        var first := engine.registry.GetInstance(id);
        if first.Some? {
          serviceId := first.value.serviceId;
        }
      }
      var inst := engine.registry.GetInstance(id);
      if inst.None? {
        return Plain(Gone410);
      }
      if serviceId == "" || serviceId !in engine.byServiceId {
        return Plain(EngineError(ServiceUnknown));
      }
      r := DeprovisionKnown(engine.byServiceId[serviceId], id, stamp);
    }

    /** The part of the DELETE handler after record and definition are found. */
    method DeprovisionKnown(sd: ServiceDefinition, id: string, stamp: string) returns (r: Response)
      requires Valid()
      modifies engine.server, engine.registry, bindings
      ensures (B(), r) == HandleDeprovisionOf(engine.codec, Env(), old(B()), sd, id, stamp)
    {
      hide Deprovision;
      var listed := bindings.List(id);
      if listed.Some? && exists x | x in listed.value :: x.ready {
        return Plain(Conflict409);
      }
      var rec := engine.registry.GetInstance(id);
      var ns := if rec.Some? then NamespaceOf(rec.value) else DEFAULT_NAMESPACE;
      var failed := engine.DeprovisionInstance(sd, ns, id, stamp);
      r := Plain(if failed.Some? then EngineError(failed.value) else Ok200);
    }

    method UpdateServiceInstance(id: string, req: UpdateRequest) returns (r: Response)
      requires Valid()
      modifies engine.server, engine.registry
      ensures (B(), r) == HandleUpdate(engine.codec, Env(), old(B()), id, req)
    {
      hide HandleUpdateOf;
      var inst := engine.registry.GetInstance(id);
      if inst.None? {
        return Plain(NotFound404);
      }
      var serviceId := req.serviceId;
      if serviceId == "" {
        serviceId := inst.value.serviceId;
      }
      if serviceId == "" || serviceId !in engine.byServiceId {
        return Plain(EngineError(ServiceUnknown));
      }
      r := UpdateKnown(inst.value, engine.byServiceId[serviceId], id, req);
    }

    /** The part of the PATCH handler after record and definition are found. */
    method UpdateKnown(inst: InstanceRecord, sd: ServiceDefinition, id: string, req: UpdateRequest) returns (r: Response)
      requires Valid() && ValidDefinition(sd, engine.syntax)
      modifies engine.server, engine.registry
      ensures (B(), r) == HandleUpdateOf(engine.codec, Env(), old(B()), inst, sd, id, req)
    {
      hide Update;
      var planId := req.planId;
      if planId == "" {
        planId := inst.planId;
      }
      if planId != inst.planId && !PlanChangeAllowed(sd, inst.planId) {
        return Plain(PlanChangeNotSupported422);
      }
      if !MaintenanceMatches(sd, planId, req.maintenance) {
        return Plain(MaintenanceConflict422);
      }
      if |req.parameters| > 0 {
        var plan := PlanById(sd, planId);
        if plan.None? {
          return Plain(EngineError(PlanUnknown));
        }
        var allowed := engine.CheckParams(sd, plan.value, req.parameters);
        if !allowed {
          return Plain(EngineError(ParameterNotAllowed));
        }
      }
      var failed := engine.UpdateDefinition(sd, id, NamespaceOf(inst), planId, req.parameters);
      r := Plain(if failed.Some? then EngineError(failed.value) else Ok200);
    }

    method BindServiceInstance(id: string, bid: string, req: BindRequest) returns (r: Response)
      requires Valid()
      modifies engine.registry, bindings, secrets
      ensures (B(), r) == HandleBind(Env(), old(B()), id, bid, req)
    {
      if req.serviceId == "" || req.planId == "" {
        return Plain(BadRequest400);
      }
      if req.serviceId !in engine.byServiceId {
        return Plain(EngineError(ServiceUnknown));
      }
      var sd := engine.byServiceId[req.serviceId];
      var known := bindings.Get(bid);
      if known.Some? {
        if known.value.serviceId != req.serviceId || known.value.instanceId != id {
          return Plain(Conflict409);
        }
        return Response(Ok200, known.value.credentials);
      }
      var rec := engine.registry.GetInstance(id);
      var ns := if rec.Some? then NamespaceOf(rec.value) else DEFAULT_NAMESPACE;
      var creds := offered(bindings.state.clock);
      if creds.None? {
        return Plain(EngineError(DecodeFailed));
      }
      if sd.bind.projectSecret {
        var written := secrets.Write(ns, bid, creds.value);
        if !written {
          return Plain(StoreError500);
        }
      }
      var ok := bindings.Put(Binding(bid, id, req.serviceId, req.planId, req.appGuid, creds.value, true));
      r := if ok then Response(Created201, creds.value) else Plain(StoreError500);
    }

    method UnbindServiceInstance(id: string, bid: string, sentService: string) returns (r: Response)
      requires Valid()
      modifies engine.registry, bindings, secrets
      ensures (B(), r) == HandleUnbind(Env(), old(B()), id, bid, sentService)
    {
      var known := bindings.Get(bid);
      if known.None? {
        return Plain(Gone410);
      }
      var serviceId := sentService;
      if serviceId == "" {
        serviceId := known.value.serviceId;
      }
      if serviceId == "" || serviceId !in engine.byServiceId {
        return Plain(EngineError(ServiceUnknown));
      }
      var rec := engine.registry.GetInstance(id);
      var ns := if rec.Some? then NamespaceOf(rec.value) else DEFAULT_NAMESPACE;
      if engine.byServiceId[serviceId].bind.projectSecret {
        var gone := secrets.Delete(ns, bid);
        if !gone {
          return Plain(StoreError500);
        }
      }
      var ok := bindings.Delete(bid);
      r := Plain(if ok then Ok200 else StoreError500);
    }
  }
}
