/** The PATCH handler reads the record for its checks and the engine reads it again
    (internal/handlers/service_instances.go, internal/definition/update.go). What an accepted
    PATCH means when the second read fails. */
module PatchProofs {
  import opened Wrappers
  import opened Json
  import opened Definition
  import opened Validation
  import opened Api
  import opened Operator
  import opened OperatorProofs
  import opened Registry
  import opened Engine
  import opened UpdateProofs
  import opened ReconcileProofs
  import opened Broker
  import opened Protocol

  /** The checks of the PATCH handler in front of the engine. */
  ghost predicate PassesChecks(codec: Codec, sd: ServiceDefinition, rec: InstanceRecord, req: UpdateRequest) {
    var planId := TargetPlan(rec, req.planId);
    && (planId != rec.planId ==> PlanChangeAllowed(sd, rec.planId))
    && MaintenanceMatches(sd, planId, req.maintenance)
    && (|req.parameters| > 0 ==> PlanById(sd, planId).Some? && AllowedIn(PlanById(sd, planId).value, req.parameters, codec.fmt))
  }

  lemma HandleUpdateUnfolds(codec: Codec, env: BrokerEnv, b: BrokerState, id: string, req: UpdateRequest)
    requires !env.world.reg.readFails(b.world.reg.clock) && id in b.world.reg.records
    requires var service := RequestedService(req.serviceId, Some(b.world.reg.records[id])); service != "" && service in b.defs
    ensures var (c, r) := HandleUpdate(codec, env, b, id, req);
      var rec := b.world.reg.records[id];
      var sd := b.defs[RequestedService(req.serviceId, Some(rec))];
      var read := b.world.(reg := b.world.reg.(clock := b.world.reg.clock + 1));
      if PassesChecks(codec, sd, rec, req) then
        var o := Update(codec, env.world, read, sd, id, NamespaceOf(rec), TargetPlan(rec, req.planId), req.parameters);
        c == b.(world := o.world) && r == Plain(StatusOf(o, Ok200))
      else r.status != Ok200 && r.status != EngineError(RecordFailed) && !(r.status.EngineError? && r.status.error.ApplyFailed?)
  {
    hide Update, PlanChangeAllowed, MaintenanceMatches, AllowedIn, PlanById, NamespaceOf;
  }

  // --- the engine without the record ---

  /** Without the record the sent parameters alone are rendered, and nothing is recorded. */
  lemma UnreadUpdate(codec: Codec, env: WorldEnv, w: World, sd: ServiceDefinition, id: string, ns: string, planId: string, sent: Params)
    requires env.reg.readFails(w.reg.clock)
    ensures Update(codec, env, w, sd, id, ns, planId, sent).world.reg.records == w.reg.records
    ensures forall bare | PlanById(sd, planId).Some? && AllowedIn(PlanById(sd, planId).value, sent, codec.fmt)
                          && Desired(codec, sd, id, ns, PlanById(sd, planId).value, sent) == Ok(bare) ::
      var a := Converge(env.api, w.api, bare);
      var o := Update(codec, env, w, sd, id, ns, planId, sent);
      o.world.api == a.state && o.error == if a.error.Some? then Some(ApplyFailed(a.error.value)) else None
  {
    hide AllowedIn, Desired, Converge, PlanById;
  }

  /** A PATCH whose second read fails never changes a record, whatever it answers. */
  lemma UnreadPatchRecordsNothing(codec: Codec, env: BrokerEnv, b: BrokerState, id: string, req: UpdateRequest)
    requires env.world.reg.readFails(b.world.reg.clock + 1)
    ensures HandleUpdate(codec, env, b, id, req).0.world.reg.records == b.world.reg.records
  {
    hide Update, PlanChangeAllowed, MaintenanceMatches, AllowedIn, PlanById, NamespaceOf;
    if id in b.world.reg.records && RequestedService(req.serviceId, Some(b.world.reg.records[id])) in b.defs {
      var rec := b.world.reg.records[id];
      var sd := b.defs[RequestedService(req.serviceId, Some(rec))];
      var read := b.world.(reg := b.world.reg.(clock := b.world.reg.clock + 1));
      UnreadUpdate(codec, env.world, read, sd, id, NamespaceOf(rec), TargetPlan(rec, req.planId), req.parameters);
    }
  }

  /** The record says what the PATCH asked for. */
  predicate SaysSo(sd: ServiceDefinition, rec: InstanceRecord, req: UpdateRequest, after: InstanceRecord) {
    && after.planId == TargetPlan(rec, req.planId) && after.parameters == TargetParams(rec, req.parameters)
    && after.maintenanceVersion == MaintenanceVersion(sd, after.planId)
  }

  /** When an accepted PATCH is on record: the second read worked, or it was there before. */
  lemma AcceptedPatchIsRecordedIff(codec: Codec, env: BrokerEnv, b: BrokerState, id: string, req: UpdateRequest)
    requires id in b.world.reg.records && b.world.reg.records[id].id == id && !env.world.reg.readFails(b.world.reg.clock)
    requires HandleUpdate(codec, env, b, id, req).1 == Plain(Ok200)
    ensures var rec := b.world.reg.records[id];
      var service := RequestedService(req.serviceId, Some(rec));
      var c := HandleUpdate(codec, env, b, id, req).0;
      && service in b.defs && id in c.world.reg.records
      && (SaysSo(b.defs[service], rec, req, c.world.reg.records[id]) <==>
            !env.world.reg.readFails(b.world.reg.clock + 1) || SaysSo(b.defs[service], rec, req, rec))
  {
    hide HandleUpdate, Update, PassesChecks, NamespaceOf;
    AcceptedIsServed(codec, env, b, id, req);
    HandleUpdateUnfolds(codec, env, b, id, req);
    var rec := b.world.reg.records[id];
    var sd := b.defs[RequestedService(req.serviceId, Some(rec))];
    var read := b.world.(reg := b.world.reg.(clock := b.world.reg.clock + 1));
    var planId := TargetPlan(rec, req.planId);
    if env.world.reg.readFails(read.reg.clock) {
      UnreadUpdate(codec, env.world, read, sd, id, NamespaceOf(rec), planId, req.parameters);
    } else {
      var _, _ := UpdateEffect(codec, env.world, read, sd, id, NamespaceOf(rec), planId, req.parameters, rec);
      assert TargetPlan(rec, planId) == planId;
    }
  }

  lemma AcceptedIsServed(codec: Codec, env: BrokerEnv, b: BrokerState, id: string, req: UpdateRequest)
    requires id in b.world.reg.records && !env.world.reg.readFails(b.world.reg.clock)
    requires HandleUpdate(codec, env, b, id, req).1 == Plain(Ok200)
    ensures var service := RequestedService(req.serviceId, Some(b.world.reg.records[id])); service != "" && service in b.defs
  {
    hide HandleUpdateOf;
  }

  /** The definition renders the merged parameters as `wanted` and the sent ones alone as
      `bare`, naming the same objects. */
  ghost predicate RendersBoth(codec: Codec, sd: ServiceDefinition, rec: InstanceRecord, req: UpdateRequest, plan: Plan,
                              wanted: seq<Doc>, bare: seq<Doc>) {
    && PlanById(sd, TargetPlan(rec, req.planId)) == Some(plan)
    && AllowedIn(plan, req.parameters, codec.fmt) && AllowedIn(plan, TargetParams(rec, req.parameters), codec.fmt)
    && Desired(codec, sd, rec.id, NamespaceOf(rec), plan, TargetParams(rec, req.parameters)) == Ok(wanted)
    && Desired(codec, sd, rec.id, NamespaceOf(rec), plan, req.parameters) == Ok(bare)
    && bare != [] && Keys(bare) == Keys(wanted) && Distinct(Keys(bare)) && Reachable(wanted) && Reachable(bare)
  }

  /** When the objects carry what an accepted PATCH asked for, in a calm cluster: the second
      read worked, or the sent parameters alone come to the same, at the objects as they stood
      or as they had to be written. */
  lemma AcceptedPatchIsAppliedIff(codec: Codec, env: BrokerEnv, b: BrokerState, id: string, req: UpdateRequest,
                                  plan: Plan, wanted: seq<Doc>, bare: seq<Doc>)
    requires id in b.world.reg.records && b.world.reg.records[id].id == id && !env.world.reg.readFails(b.world.reg.clock)
    requires Calm(env.world.api, b.world.api.clock)
    requires HandleUpdate(codec, env, b, id, req).1 == Plain(Ok200)
    requires var rec := b.world.reg.records[id];
      var service := RequestedService(req.serviceId, Some(rec));
      service in b.defs && RendersBoth(codec, b.defs[service], rec, req, plan, wanted, bare)
    ensures CarriesAll(HandleUpdate(codec, env, b, id, req).0.world.api, wanted) <==>
      || !env.world.reg.readFails(b.world.reg.clock + 1)
      || (if CarriesAll(b.world.api, bare) then CarriesAll(b.world.api, wanted) else CarriedAlong(bare, wanted))
  {
    hide HandleUpdate, Update, PassesChecks, NamespaceOf, CarriesAll, CarriedAlong, Reachable, Converge, Desired, PlanById, AllowedIn;
    AcceptedIsServed(codec, env, b, id, req);
    HandleUpdateUnfolds(codec, env, b, id, req);
    var rec := b.world.reg.records[id];
    var sd := b.defs[RequestedService(req.serviceId, Some(rec))];
    var read := b.world.(reg := b.world.reg.(clock := b.world.reg.clock + 1));
    var planId := TargetPlan(rec, req.planId);
    assert TargetPlan(rec, planId) == planId;
    if env.world.reg.readFails(read.reg.clock) {
      UnreadUpdate(codec, env.world, read, sd, id, NamespaceOf(rec), planId, req.parameters);
      ConvergedCarries(env.world.api, b.world.api, bare, wanted);
    } else {
      var docs, _ := UpdateEffect(codec, env.world, read, sd, id, NamespaceOf(rec), planId, req.parameters, rec);
      assert docs == wanted;
    }
  }

  /** So a failed second read can lose the stored parameters behind an accepted PATCH: the
      objects are rewritten without them, and the record knows nothing of the PATCH. */
  lemma UnreadPatchDropsStoredParameters(codec: Codec, env: BrokerEnv, b: BrokerState, id: string, req: UpdateRequest,
                                         plan: Plan, wanted: seq<Doc>, bare: seq<Doc>, i: nat)
    requires id in b.world.reg.records && b.world.reg.records[id].id == id
    requires !env.world.reg.readFails(b.world.reg.clock) && env.world.reg.readFails(b.world.reg.clock + 1)
    requires Calm(env.world.api, b.world.api.clock)
    requires var rec := b.world.reg.records[id];
      var service := RequestedService(req.serviceId, Some(rec));
      && service != "" && service in b.defs && PassesChecks(codec, b.defs[service], rec, req)
      && RendersBoth(codec, b.defs[service], rec, req, plan, wanted, bare)
    requires !CarriesAll(b.world.api, bare) && i < |bare| && !Carries(Stored(bare[i].content), wanted[i].content)
    ensures var (c, r) := HandleUpdate(codec, env, b, id, req);
      && r == Plain(Ok200) && c.world.reg.records == b.world.reg.records
      && CarriesAll(c.world.api, bare) && !CarriesAll(c.world.api, wanted)
  {
    hide HandleUpdate, Update, PassesChecks, NamespaceOf, CarriesAll, Carries, Stored, Reachable, Converge, Desired, PlanById, AllowedIn;
    HandleUpdateUnfolds(codec, env, b, id, req);
    var rec := b.world.reg.records[id];
    var sd := b.defs[RequestedService(req.serviceId, Some(rec))];
    var read := b.world.(reg := b.world.reg.(clock := b.world.reg.clock + 1));
    UnreadUpdate(codec, env.world, read, sd, id, NamespaceOf(rec), TargetPlan(rec, req.planId), req.parameters);
    ConvergedCarries(env.world.api, b.world.api, bare, wanted);
  }
}
