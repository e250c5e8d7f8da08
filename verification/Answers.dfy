/** Which answer a request gets, from what is stored, what the definitions say and which
    calls fail (internal/handlers/service_instances.go). */
module Answers {
  import opened Wrappers
  import opened Json
  import opened Definition
  import opened Validation
  import opened Api
  import opened Operator
  import opened OperatorProofs
  import opened Registry
  import opened Bindings
  import opened Engine
  import opened ProvisionProofs
  import opened DeprovisionProofs
  import opened ReconcileOutcomes
  import opened Broker
  import opened Protocol
  import Names

  // --- what a definition says about a plan ---

  /** The version a plan states, empty when it states none. */
  function Stated(plan: Plan): string {
    if plan.maintenanceInfo.Some? then plan.maintenanceInfo.value else ""
  }

  /** The version of the plan of that id, empty when there is no such plan. */
  ghost predicate VersionIs(sd: ServiceDefinition, planId: string, version: string) {
    || (exists p | p in sd.plans :: p.id == planId && version == Stated(p))
    || (version == "" && forall p | p in sd.plans :: p.id != planId)
  }

  lemma MaintenanceVersionIs(sd: ServiceDefinition, planId: string)
    requires DistinctPlanIds(sd.plans)
    ensures forall v :: VersionIs(sd, planId, v) <==> v == MaintenanceVersion(sd, planId)
  {
    MaintenanceVersionIsThePlans(sd, planId);
    if p :| p in sd.plans && p.id == planId {
      ServedPlan(sd, p);
      forall q | q in sd.plans && q.id == planId ensures q == p {
        ServedPlan(sd, q);
      }
    }
  }

  /** The plan may be left: it says so, or it says nothing and the offering does. */
  predicate MayBeLeft(sd: ServiceDefinition, planId: string) {
    exists p | p in sd.plans ::
      p.id == planId && (p.planUpdateable == Some(true) || (p.planUpdateable == None && sd.planUpdateable == Some(true)))
  }

  lemma PlanChangeMeans(sd: ServiceDefinition, planId: string)
    requires DistinctPlanIds(sd.plans)
    ensures PlanChangeAllowed(sd, planId) <==> MayBeLeft(sd, planId)
  {
    forall p | p in sd.plans && p.id == planId ensures PlanById(sd, planId) == Some(p) {
      ServedPlan(sd, p);
    }
  }

  // --- DELETE ---

  /** The instance is on record and its service, named or not, is in the catalogue. */
  predicate KnownInstance(b: BrokerState, id: string, service: string) {
    && id in b.world.reg.records
    && RequestedService(service, Some(b.world.reg.records[id])) != ""
    && RequestedService(service, Some(b.world.reg.records[id])) in b.defs
  }

  /** A DELETE is refused exactly when the bindings can be listed and a ready one is the
      instance's. Any other is the engine's deprovision, and answered by it. */
  lemma DeleteAnswer(codec: Codec, env: BrokerEnv, b: BrokerState, id: string, service: string, stamp: string)
    returns (w: World)
    requires ReadsSucceed(env.world.reg) && KnownInstance(b, id, service)
    ensures var (c, r) := HandleDeprovision(codec, env, b, id, service, stamp);
      && (r.status == Conflict409 <==>
            && !env.binds.listFails(b.binds.clock)
            && exists bid | bid in b.binds.bindings :: b.binds.bindings[bid].instanceId == id && b.binds.bindings[bid].ready)
      && (r.status == Conflict409 ==> Unmoved(b, c))
      && (r.status != Conflict409 ==>
            && ReadOnly(b.world, w) && w.reg.clock >= b.world.reg.clock
            && var rec := b.world.reg.records[id];
               var o := Deprovision(codec, env.world, w, b.defs[RequestedService(service, Some(rec))], NamespaceOf(rec), id, stamp);
               && c == b.(world := o.world, binds := c.binds) && c.binds.bindings == b.binds.bindings
               && r == Plain(if o.error.Some? then EngineError(o.error.value) else Ok200))
  {
    hide Deprovision, NamespaceOf;
    var clock := b.world.reg.clock + if service == "" then 3 else 2;
    w := b.world.(reg := b.world.reg.(clock := clock));
    var listed := BindList(env.binds, b.binds, id).1;
    if listed.Some? {
      forall bid | bid in b.binds.bindings && b.binds.bindings[bid].instanceId == id ensures b.binds.bindings[bid] in listed.value {
      }
    }
  }

  /** Nothing stands in the way of deleting the instance. */
  ghost predicate Unbound(env: BrokerEnv, b: BrokerState, id: string) {
    env.binds.listFails(b.binds.clock) ||
      forall bid | bid in b.binds.bindings :: b.binds.bindings[bid].instanceId == id ==> !b.binds.bindings[bid].ready
  }

  /** An undisturbed DELETE of an instance without ready bindings, of a plan that does not
      keep its objects, is answered 200 and leaves neither record nor objects. */
  lemma UnboundInstanceIsDeleted(codec: Codec, env: BrokerEnv, b: BrokerState, id: string, service: string, stamp: string)
    requires ReadsSucceed(env.world.reg) && KnownInstance(b, id, service) && Unbound(env, b, id)
    requires Calm(env.world.api, b.world.api.clock) && RegCalm(env.world.reg, b.world.reg.clock)
    requires var rec := b.world.reg.records[id];
      var sd := b.defs[RequestedService(service, Some(rec))];
      && GivesUp(sd, rec)
      && forall k | k in RefsOf(codec, sd, Some(rec), id, NamespaceOf(rec)) :: ValidApiVersion(k.apiVersion)
    ensures var (c, r) := HandleDeprovision(codec, env, b, id, service, stamp);
      var rec := b.world.reg.records[id];
      var sd := b.defs[RequestedService(service, Some(rec))];
      && r == Plain(Ok200) && c.world.reg.records == b.world.reg.records - {id}
      && forall k | k in Objects(Request(codec, sd, NamespaceOf(rec), id, stamp), rec) :: k !in c.world.api.objects
  {
    hide HandleDeprovision, Deprovision, NamespaceOf, RequestedService, GivesUp, RefsOf, Objects;
    var w := DeleteAnswer(codec, env, b, id, service, stamp);
    var rec := b.world.reg.records[id];
    var sd := b.defs[RequestedService(service, Some(rec))];
    UnkeptInstanceIsDeleted(Request(codec, sd, NamespaceOf(rec), id, stamp), env.world, w, rec);
  }

  /** And of a plan that keeps them: the record goes and every object stays; the answer is
      200 when all of them are there to be marked. */
  lemma UnboundInstanceIsRetained(codec: Codec, env: BrokerEnv, b: BrokerState, id: string, service: string, stamp: string)
    requires ReadsSucceed(env.world.reg) && KnownInstance(b, id, service) && Unbound(env, b, id) && Settled(b.world.api)
    requires Calm(env.world.api, b.world.api.clock) && RegCalm(env.world.reg, b.world.reg.clock)
    requires var rec := b.world.reg.records[id];
      var sd := b.defs[RequestedService(service, Some(rec))];
      DistinctPlanIds(sd.plans) && Keeps(sd, rec)
    ensures var (c, r) := HandleDeprovision(codec, env, b, id, service, stamp);
      var rec := b.world.reg.records[id];
      var sd := b.defs[RequestedService(service, Some(rec))];
      && id !in c.world.reg.records && KeptObjects(b.world.api, c.world.api)
      && ((forall k | k in RefsOf(codec, sd, Some(rec), id, NamespaceOf(rec)) ::
             ValidApiVersion(k.apiVersion) && Markable(b.world.api, Resolve(k, NamespaceOf(rec)))) ==> r == Plain(Ok200))
  {
    hide HandleDeprovision, Deprovision, NamespaceOf, RequestedService, Keeps, KeptObjects, Settled, OnlyLabelled, RefsOf, Markable;
    var w := DeleteAnswer(codec, env, b, id, service, stamp);
    var rec := b.world.reg.records[id];
    var sd := b.defs[RequestedService(service, Some(rec))];
    var req := Request(codec, sd, NamespaceOf(rec), id, stamp);
    PlanDecides(sd, rec);
    CalmRetention(req, env.world, w, rec);
    KeptInstanceIsMarked(req, env.world, w, rec);
  }

  /** There is an object that can be written back. */
  predicate Markable(s: State, k: Key) {
    k in s.objects && Encodable(Dict(s.objects[k].content.fields))
  }

  lemma CalmRetention(r: Request, env: WorldEnv, w: World, rec: InstanceRecord)
    requires Recorded(r, w, rec) && PlanRetains(r.sd, Some(rec)) && Settled(w.api)
    requires Calm(env.api, w.api.clock) && RegCalm(env.reg, w.reg.clock)
    ensures var o := Attempt(r, env, w);
      && r.id !in o.world.reg.records
      && ((forall k | k in RefsOf(r.codec, r.sd, Some(rec), r.id, r.ns) :: ValidApiVersion(k.apiVersion) && Markable(w.api, Resolve(k, r.ns))) ==>
            o.error == None)
  {
    hide PlanRetains, Settled, RefsOf, LabelAll;
    var refs := RefsOf(r.codec, r.sd, Some(rec), r.id, r.ns);
    if forall k | k in refs :: ValidApiVersion(k.apiVersion) && Markable(w.api, Resolve(k, r.ns)) {
      CalmLabelAllSucceeds(env.api, w.api, r.ns, refs, RetainedLabels(r.id, r.stamp));
    }
  }

  lemma CalmLabelOneSucceeds(env: Env, s: State, k: Key, labels: map<string, string>)
    requires Calm(env, s.clock) && ValidApiVersion(k.apiVersion) && Markable(s, k)
    ensures var r := LabelOne(env, s, k, labels, RETRIES);
      && r.result.Ok? && r.state.clock >= s.clock
      && forall x | Markable(s, x) :: Markable(r.state, x)
  {
    hide ValidApiVersion, Stored;
    var got := GetCall(env, s, k);
    assert env(s.clock).Quiet? && env(got.state.clock).Quiet?;
    var o := s.objects[k];
    StoredStaysEncodable(o.content.(labels := o.content.labels + labels));
  }

  lemma StoredStaysEncodable(c: Content)
    requires Encodable(Dict(c.fields))
    ensures Encodable(Dict(Stored(c).fields))
  {
    forall f | f in c.fields ensures Encodable(Served(c.fields[f])) {
      ServedKeepsEncodable(c.fields[f]);
    }
  }

  lemma {:induction false} CalmLabelAllSucceeds(env: Env, s: State, ns: string, refs: seq<Key>, labels: map<string, string>)
    requires Calm(env, s.clock)
    requires forall k | k in refs :: ValidApiVersion(k.apiVersion) && Markable(s, Resolve(k, ns))
    ensures var (t, failed) := LabelAll(env, s, ns, refs, labels);
      && failed == [] && t.clock >= s.clock && forall x | Markable(s, x) :: Markable(t, x)
  {
    hide Markable, LabelOne, ValidApiVersion;
    if refs != [] {
      var init, last := refs[..|refs| - 1], refs[|refs| - 1];
      CalmLabelAllSucceeds(env, s, ns, init, labels);
      var t := LabelAll(env, s, ns, init, labels).0;
      assert last in refs && Resolve(last, ns).apiVersion == last.apiVersion;
      CalmLabelOneSucceeds(env, t, Resolve(last, ns), labels);
    }
  }

  /** A DELETE or PATCH of a recorded instance whose service is not in the catalogue is told so
      and changes nothing. */
  lemma ServiceNotInTheCatalogue(codec: Codec, env: BrokerEnv, b: BrokerState, id: string, service: string, stamp: string, req: UpdateRequest)
    requires ReadsSucceed(env.world.reg) && id in b.world.reg.records
    ensures !KnownInstance(b, id, service) ==>
      var (c, r) := HandleDeprovision(codec, env, b, id, service, stamp); Unmoved(b, c) && r == Plain(EngineError(ServiceUnknown))
    ensures !KnownInstance(b, id, req.serviceId) ==>
      var (c, r) := HandleUpdate(codec, env, b, id, req); Unmoved(b, c) && r == Plain(EngineError(ServiceUnknown))
  {
    hide HandleDeprovisionOf, HandleUpdateOf;
  }

  // --- PUT ---

  /** The request is complete, its service is in the catalogue, and the plan is one of it. */
  predicate WellFormed(b: BrokerState, req: ProvisionRequest, plan: Plan) {
    && req.serviceId != "" && req.planId != "" && req.serviceId in b.defs
    && DistinctPlanIds(b.defs[req.serviceId].plans) && plan in b.defs[req.serviceId].plans && plan.id == req.planId
  }

  predicate Current(plan: Plan, requested: Option<string>) {
    requested.Some? ==> requested.value == Stated(plan)
  }

  /** The record is what the request asks for. */
  predicate AsRequested(rec: InstanceRecord, req: ProvisionRequest) {
    && rec.serviceId == req.serviceId && rec.planId == req.planId
    && SameJson(Dict(rec.parameters), Dict(req.parameters))
  }

  /** How a complete PUT is answered, check by check: 422 for an outdated plan; 200 or 409 on
      an instance that is on record, as it is what is asked for or not; 422 to a caller that
      cannot wait, 500 without a usable namespace. */
  lemma PutAnswer(codec: Codec, env: BrokerEnv, b: BrokerState, id: string, req: ProvisionRequest, plan: Plan)
    requires ReadsSucceed(env.world.reg) && WellFormed(b, req, plan)
    ensures var r := HandleProvision(codec, env, b, id, req).1;
      && (r.status == MaintenanceConflict422 <==> !Current(plan, req.maintenance))
      && (Current(plan, req.maintenance) && id in b.world.reg.records ==>
            r.status == if AsRequested(b.world.reg.records[id], req) then Ok200 else Conflict409)
      && (r.status in {Ok200, Conflict409} ==> id in b.world.reg.records)
      && (r.status == AsyncRequired422 <==>
            Current(plan, req.maintenance) && id !in b.world.reg.records && !req.acceptsIncomplete)
      && (r.status == Accepted202 ==> req.acceptsIncomplete && req.nsReady && req.nsText.Some? && Names.IsDns1123Label(req.nsText.value))
      && (r.status == NamespaceError500 <==>
            && Current(plan, req.maintenance) && id !in b.world.reg.records && req.acceptsIncomplete
            && AllowedIn(plan, req.parameters, codec.fmt)
            && !(req.nsReady && req.nsText.Some? && Names.IsDns1123Label(req.nsText.value)))
  {
    hide Provision, AllowedIn, ValuesEqual, Names.IsDns1123Label;
    var sd := b.defs[req.serviceId];
    ServedPlan(sd, plan);
    MaintenanceVersionIs(sd, req.planId);
    assert VersionIs(sd, req.planId, Stated(plan));
    if id in b.world.reg.records {
      SameParameters(b.world.reg.records[id].parameters, req.parameters);
    }
  }

  lemma SameParameters(a: Params, b: Params)
    ensures ParamsEqual(a, b) <==> SameJson(Dict(a), Dict(b))
  {
    ValuesEqualDecidesSameJson(Dict(a), Dict(b));
  }

  predicate NoSuchPlan(sd: ServiceDefinition, planId: string) {
    forall p | p in sd.plans :: p.id != planId
  }

  /** And before that: 400 when service or plan are not named, and no other PUT. */
  lemma IncompletePutIsRefused(codec: Codec, env: BrokerEnv, b: BrokerState, id: string, req: ProvisionRequest)
    ensures var (c, r) := HandleProvision(codec, env, b, id, req);
      && (r.status == BadRequest400 <==> req.serviceId == "" || req.planId == "")
      && (r.status == BadRequest400 ==> c == b)
      && (req.serviceId != "" && req.planId != "" && req.serviceId !in b.defs ==> c == b && r.status == EngineError(ServiceUnknown))
      && (r.status != BadRequest400 && req.serviceId in b.defs && NoSuchPlan(b.defs[req.serviceId], req.planId) ==>
            c == b && r.status == EngineError(PlanUnknown))
  {
    hide Provision, AllowedIn, MaintenanceMatches, ParamsEqual;
  }

  /** An undisturbed PUT of a new instance that passes these checks, with parameters the plan
      allows and objects that can be applied, is accepted, and puts the instance on record as
      it was asked for. */
  lemma CalmPutIsAccepted(codec: Codec, env: BrokerEnv, b: BrokerState, id: string, req: ProvisionRequest, plan: Plan, docs: seq<Doc>)
    requires ReadsSucceed(env.world.reg) && WellFormed(b, req, plan) && Current(plan, req.maintenance) && id !in b.world.reg.records
    requires req.acceptsIncomplete && req.nsReady && req.nsText.Some? && Names.IsDns1123Label(req.nsText.value)
    requires b.defs[req.serviceId].offeringId == req.serviceId && AllowedIn(plan, req.parameters, codec.fmt)
    requires Desired(codec, b.defs[req.serviceId], id, req.nsText.value, plan, req.parameters) == Ok(docs) && Reachable(docs)
    requires Calm(env.world.api, b.world.api.clock) && RegCalm(env.world.reg, b.world.reg.clock)
    ensures var (c, r) := HandleProvision(codec, env, b, id, req);
      && r == Plain(Accepted202) && id in c.world.reg.records
      && c.world.reg.records == b.world.reg.records[id := c.world.reg.records[id]]
      && (Distinct(Keys(docs)) ==> CarriesAll(c.world.api, docs))
      && var rec := c.world.reg.records[id];
         && rec.id == id && rec.serviceId == req.serviceId && rec.planId == req.planId && rec.parameters == req.parameters
         && rec.ns == req.nsText.value && rec.appliedRefs == Keys(docs) && rec.maintenanceVersion == Stated(plan)
  {
    hide AllowedIn, Desired, Reachable, CarriesAll, Provision, Names.IsDns1123Label;
    var sd := b.defs[req.serviceId];
    ServedPlan(sd, plan);
    MaintenanceVersionIs(sd, req.planId);
    assert VersionIs(sd, req.planId, Stated(plan));
    var w := b.world.(reg := b.world.reg.(clock := b.world.reg.clock + 1));
    CalmProvisionSucceeds(codec, env.world, w, sd, id, req.nsText.value, plan, req.parameters, docs);
    var d := ProvisionSucceeds(codec, env.world, w, sd, id, req.nsText.value, req.planId, req.parameters);
  }

  lemma CalmProvisionSucceeds(codec: Codec, env: WorldEnv, w: World, sd: ServiceDefinition, id: string, ns: string, plan: Plan, params: Params, docs: seq<Doc>)
    requires PlanById(sd, plan.id) == Some(plan) && AllowedIn(plan, params, codec.fmt)
    requires Desired(codec, sd, id, ns, plan, params) == Ok(docs) && Reachable(docs)
    requires Calm(env.api, w.api.clock) && RegCalm(env.reg, w.reg.clock)
    ensures Provision(codec, env, w, sd, id, ns, plan.id, params).error.None?
  {
    hide AllowedIn, Desired, Reachable, PlanById;
    CalmApplySucceeds(env.api, w.api, docs);
  }

  // --- PATCH ---

  /** How a PATCH of a recorded instance is answered before the engine is asked: 422 when it
      leaves a plan that may not be left, and when it asks for another version than the plan
      it ends up on states. Then it is the engine's update and answered by it. */
  lemma PatchAnswer(codec: Codec, env: BrokerEnv, b: BrokerState, id: string, req: UpdateRequest)
    requires ReadsSucceed(env.world.reg) && KnownInstance(b, id, req.serviceId)
    requires DistinctPlanIds(b.defs[RequestedService(req.serviceId, Some(b.world.reg.records[id]))].plans)
    ensures var (c, r) := HandleUpdate(codec, env, b, id, req);
      var rec := b.world.reg.records[id];
      var sd := b.defs[RequestedService(req.serviceId, Some(rec))];
      var target := if req.planId == "" then rec.planId else req.planId;
      && (r.status == PlanChangeNotSupported422 <==> target != rec.planId && !MayBeLeft(sd, rec.planId))
      && (r.status == MaintenanceConflict422 <==>
            && (target == rec.planId || MayBeLeft(sd, rec.planId))
            && req.maintenance.Some? && !VersionIs(sd, target, req.maintenance.value))
      && (r.status in {PlanChangeNotSupported422, MaintenanceConflict422} ==> Unmoved(b, c))
      && (r.status in {Ok200, PlanChangeNotSupported422, MaintenanceConflict422} || r.status.EngineError?)
  {
    hide Update, AllowedIn, PlanChangeAllowed, MayBeLeft, VersionIs, NamespaceOf;
    var rec := b.world.reg.records[id];
    var sd := b.defs[RequestedService(req.serviceId, Some(rec))];
    PlanChangeMeans(sd, rec.planId);
    MaintenanceVersionIs(sd, if req.planId == "" then rec.planId else req.planId);
  }

  /** A PATCH of an instance that is not on record is 404, and no other. */
  lemma UnknownPatchIsNotFound(codec: Codec, env: BrokerEnv, b: BrokerState, id: string, req: UpdateRequest)
    requires ReadsSucceed(env.world.reg)
    ensures var (c, r) := HandleUpdate(codec, env, b, id, req);
      && (r.status == NotFound404 <==> id !in b.world.reg.records)
      && (r.status == NotFound404 ==> Unmoved(b, c))
  {
    hide Update, AllowedIn, PlanChangeAllowed, NamespaceOf;
  }
}
