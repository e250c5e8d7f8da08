/** The request protocol over whole runs of the broker. */
module Protocol {
  import opened Wrappers
  import opened Json
  import opened Definition
  import opened Api
  import opened Registry
  import opened Bindings
  import opened Engine
  import opened ProvisionProofs
  import opened UpdateProofs
  import opened ReconcileProofs
  import opened DeprovisionProofs
  import opened Broker

  /** One step of a run: a request, a pass of the reconciler over one stored record, or a
      restart with other definitions. Each step brings its own failures. */
  datatype Step =
    | SProvision(env: BrokerEnv, id: string, put: ProvisionRequest)
    | SUpdate(env: BrokerEnv, id: string, patch: UpdateRequest)
    | SDeprovision(env: BrokerEnv, id: string, service: string, stamp: string)
    | SBind(env: BrokerEnv, id: string, bid: string, bind: BindRequest)
    | SUnbind(env: BrokerEnv, id: string, bid: string, service: string)
    | SReconcile(env: BrokerEnv, id: string)
    | SReload(defs: map<string, ServiceDefinition>)

  ghost function Do(codec: Codec, b: BrokerState, step: Step): (BrokerState, Response) {
    match step
    case SProvision(env, id, req) => HandleProvision(codec, env, b, id, req)
    case SUpdate(env, id, req) => HandleUpdate(codec, env, b, id, req)
    case SDeprovision(env, id, service, stamp) => HandleDeprovision(codec, env, b, id, service, stamp)
    case SBind(env, id, bid, req) => HandleBind(env, b, id, bid, req)
    case SUnbind(env, id, bid, service) => HandleUnbind(env, b, id, bid, service)
    case SReconcile(env, id) =>
      if id !in b.world.reg.records then (b, Plain(NotFound404))
      else
        var (w, result) := Reconcile(codec, env.world, b.world, b.defs, b.world.reg.records[id]);
        (b.(world := w), Plain(Reconciled(result)))
    case SReload(defs) => (b.(defs := defs), Plain(Ok200))
  }

  ghost function Run(codec: Codec, b: BrokerState, steps: seq<Step>): BrokerState {
    if steps == [] then b
    else Do(codec, Run(codec, b, steps[..|steps| - 1]), steps[|steps| - 1]).0
  }

  /** The registry can be read whenever it is asked; writes may fail. */
  ghost predicate Readable(step: Step) {
    !step.SReload? ==> ReadsSucceed(step.env.world.reg) && forall n: nat :: !step.env.binds.readFails(n)
  }

  ghost predicate Listable(step: Step) {
    step.SDeprovision? ==> forall n: nat :: !step.env.binds.listFails(n)
  }

  /** Records are stored under their own id. */
  ghost predicate WellKept(b: BrokerState) {
    && (forall id | id in b.world.reg.records :: b.world.reg.records[id].id == id)
    && (forall bid | bid in b.binds.bindings :: b.binds.bindings[bid].id == bid)
  }

  /** Instances carry a namespace; those migrated from before the field existed do not. */
  ghost predicate Placed(b: BrokerState) {
    forall id | id in b.world.reg.records :: b.world.reg.records[id].ns != ""
  }

  // --- what one request comes down to ---

  /** Nothing but call counters and binding-side bookkeeping of the request moved. */
  ghost predicate Unmoved(b: BrokerState, c: BrokerState) {
    && c.world.api == b.world.api && c.world.reg.records == b.world.reg.records
    && c.binds.bindings == b.binds.bindings && c.secrets == b.secrets && c.defs == b.defs
  }

  /** The same stores, some reads later. */
  ghost predicate ReadOnly(v: World, w: World) {
    w.api == v.api && w.reg.records == v.reg.records
  }

  function StatusOf(o: Outcome, success: Status): Status {
    if o.error.Some? then EngineError(o.error.value) else success
  }

  /** A PUT on an id that is on record changes no state, and answers 200 only to the same
      service, plan and parameters. */
  lemma KnownPutChangesNothing(codec: Codec, env: BrokerEnv, b: BrokerState, id: string, req: ProvisionRequest)
    requires id in b.world.reg.records && ReadsSucceed(env.world.reg)
    ensures var (c, r) := HandleProvision(codec, env, b, id, req);
      && Unmoved(b, c) && r.status != Accepted202
      && (r.status == Ok200 ==>
            && b.world.reg.records[id].serviceId == req.serviceId && b.world.reg.records[id].planId == req.planId
            && ParamsEqual(b.world.reg.records[id].parameters, req.parameters))
  {
  }

  /** Every PUT changes nothing, or provisions an unknown id in the namespace resolved for it. */
  lemma ProvisionCase(codec: Codec, env: BrokerEnv, b: BrokerState, id: string, req: ProvisionRequest)
    returns (w: World, ns: string)
    requires ReadsSucceed(env.world.reg)
    ensures var (c, r) := HandleProvision(codec, env, b, id, req);
      || (Unmoved(b, c) && r.status != Accepted202)
      || (&& id !in b.world.reg.records && req.serviceId in b.defs
          && ResolvedNamespace(req.nsText) == Some(ns) && ReadOnly(b.world, w)
          && var o := Provision(codec, env.world, w, b.defs[req.serviceId], id, ns, req.planId, req.parameters);
             c == b.(world := o.world) && r == Plain(StatusOf(o, Accepted202)))
  {
    hide Provision;
    var (b1, _) := ReadInstance(env, b, id);
    w := b1.world;
    ns := if ResolvedNamespace(req.nsText).Some? then ResolvedNamespace(req.nsText).value else "";
  }

  /** A ready binding of the instance is stored and the listing works. */
  ghost predicate Guarded(env: BrokerEnv, b: BrokerState, id: string) {
    && (forall n: nat :: !env.binds.listFails(n))
    && exists bid :: bid in b.binds.bindings && b.binds.bindings[bid].instanceId == id && b.binds.bindings[bid].ready
  }

  /** Every DELETE changes nothing, or deprovisions a recorded instance that no ready
      binding guards, in the namespace on record. */
  lemma DeprovisionCase(codec: Codec, env: BrokerEnv, b: BrokerState, id: string, service: string, stamp: string)
    returns (w: World)
    requires ReadsSucceed(env.world.reg)
    ensures var (c, r) := HandleDeprovision(codec, env, b, id, service, stamp);
      || (Unmoved(b, c) && r.status != Ok200)
      || (&& id in b.world.reg.records && !Guarded(env, b, id) && ReadOnly(b.world, w)
          && RequestedService(service, Some(b.world.reg.records[id])) in b.defs
          && var o := Deprovision(codec, env.world, w, b.defs[RequestedService(service, Some(b.world.reg.records[id]))],
                                  NamespaceOf(b.world.reg.records[id]), id, stamp);
             c == b.(world := o.world, binds := c.binds) && c.binds.bindings == b.binds.bindings
             && r == Plain(StatusOf(o, Ok200)))
  {
    hide Deprovision, HandleDeprovisionOf;
    var (b0, first) := if service == "" then ReadInstance(env, b, id) else (b, None);
    var (b1, rec) := ReadInstance(env, b0, id);
    w := b1.world;
    var serviceId := RequestedService(service, first);
    if rec.Some? && serviceId != "" && serviceId in b1.defs {
      w := DeprovisionOfCase(codec, env, b1, b1.defs[serviceId], id, stamp);
    }
  }

  lemma DeprovisionOfCase(codec: Codec, env: BrokerEnv, b: BrokerState, sd: ServiceDefinition, id: string, stamp: string)
    returns (w: World)
    requires ReadsSucceed(env.world.reg) && id in b.world.reg.records
    ensures var (c, r) := HandleDeprovisionOf(codec, env, b, sd, id, stamp);
      || (Unmoved(b, c) && r.status != Ok200)
      || (&& !Guarded(env, b, id) && ReadOnly(b.world, w)
          && var o := Deprovision(codec, env.world, w, sd, NamespaceOf(b.world.reg.records[id]), id, stamp);
             c == b.(world := o.world, binds := c.binds) && c.binds.bindings == b.binds.bindings
             && r == Plain(StatusOf(o, Ok200)))
  {
    hide Deprovision;
    var (binds, listed) := BindList(env.binds, b.binds, id);
    if Guarded(env, b, id) {
      var bid :| bid in b.binds.bindings && b.binds.bindings[bid].instanceId == id && b.binds.bindings[bid].ready;
      assert b.binds.bindings[bid] in listed.value;
    }
    var (b2, ns) := InstanceNamespace(env, b.(binds := binds), id);
    w := b2.world;
  }

  /** The PATCH reached the engine, which found the world `w`. */
  ghost predicate Updated(codec: Codec, env: BrokerEnv, b: BrokerState, id: string, req: UpdateRequest,
                          w: World, c: BrokerState, r: Response)
    requires id in b.world.reg.records
  {
    var rec := b.world.reg.records[id];
    var service := RequestedService(req.serviceId, Some(rec));
    service in b.defs &&
    var o := Update(codec, env.world, w, b.defs[service], id, NamespaceOf(rec), TargetPlan(rec, req.planId), req.parameters);
    && (TargetPlan(rec, req.planId) != rec.planId ==> PlanChangeAllowed(b.defs[service], rec.planId))
    && c == b.(world := o.world)
    && r == Plain(StatusOf(o, Ok200))
  }

  /** Every PATCH changes nothing, or updates a recorded instance in the namespace on
      record, staying on its plan unless that plan may be left. */
  lemma UpdateCase(codec: Codec, env: BrokerEnv, b: BrokerState, id: string, req: UpdateRequest)
    returns (w: World)
    requires ReadsSucceed(env.world.reg)
    ensures var (c, r) := HandleUpdate(codec, env, b, id, req);
      || (Unmoved(b, c) && r.status != Ok200)
      || (id in b.world.reg.records && ReadOnly(b.world, w) && Updated(codec, env, b, id, req, w, c, r))
  {
    hide Update;
    var (b1, _) := ReadInstance(env, b, id);
    w := b1.world;
  }

  /** A pass of the reconciler over a stored record. */
  lemma ReconcileCase(codec: Codec, env: BrokerEnv, b: BrokerState, id: string)
    ensures var (c, r) := Do(codec, b, SReconcile(env, id));
      if id !in b.world.reg.records then c == b && !r.status.Reconciled?
      else
        var (w, result) := Reconcile(codec, env.world, b.world, b.defs, b.world.reg.records[id]);
        c == b.(world := w) && r.status == Reconciled(result)
  {
  }

  /** A bind stores at most the one binding it answers 201 for, under an id that was free. */
  lemma BindCase(env: BrokerEnv, b: BrokerState, id: string, bid: string, req: BindRequest)
    requires forall n: nat :: !env.binds.readFails(n)
    ensures var (c, r) := HandleBind(env, b, id, bid, req);
      && ReadOnly(b.world, c.world) && c.defs == b.defs
      && (if r.status == Created201
          then && bid !in b.binds.bindings
               && c.binds.bindings == b.binds.bindings[bid := Binding(bid, id, req.serviceId, req.planId, req.appGuid, r.credentials, true)]
          else c.binds.bindings == b.binds.bindings)
      && (bid in b.binds.bindings && r.status == Ok200 ==> r.credentials == b.binds.bindings[bid].credentials)
  {
  }

  lemma UnbindCase(env: BrokerEnv, b: BrokerState, id: string, bid: string, service: string)
    ensures var (c, r) := HandleUnbind(env, b, id, bid, service);
      && ReadOnly(b.world, c.world) && c.defs == b.defs
      && (if r.status == Ok200 then c.binds.bindings == b.binds.bindings - {bid} else c.binds.bindings == b.binds.bindings)
  {
  }

  // --- one step, seen from one binding and one instance ---

  /** No step but its own unbind touches a stored binding. */
  lemma StoredBindingStays(codec: Codec, b: BrokerState, step: Step, bid: string)
    requires WellKept(b) && Readable(step) && bid in b.binds.bindings
    requires !(step.SUnbind? && step.bid == bid)
    ensures var c := Do(codec, b, step).0; bid in c.binds.bindings && c.binds.bindings[bid] == b.binds.bindings[bid]
  {
    hide HandleProvision, HandleUpdate, HandleDeprovision, HandleBind, HandleUnbind, Provision, Update, Deprovision, Reconcile;
    match step
    case SProvision(env, id, req) => var _, _ := ProvisionCase(codec, env, b, id, req);
    case SUpdate(env, id, req) => var _ := UpdateCase(codec, env, b, id, req);
    case SDeprovision(env, id, service, stamp) => var _ := DeprovisionCase(codec, env, b, id, service, stamp);
    case SBind(env, id, x, req) => BindCase(env, b, id, x, req);
    case SUnbind(env, id, x, service) => UnbindCase(env, b, id, x, service);
    case _ =>
  }

  /** What a deprovision does to the records: nothing, or forget the one it names. */
  lemma DeprovisionForgetsOne(codec: Codec, env: WorldEnv, w: World, sd: ServiceDefinition, ns: string, id: string, stamp: string)
    ensures var o := Deprovision(codec, env, w, sd, ns, id, stamp);
      o.world.reg.records == w.reg.records || o.world.reg.records == w.reg.records - {id}
  {
  }

  /** Identity, offering and namespace of a recorded instance are the same after any step
      that does not remove it; only its own deprovision can, and not while a ready binding
      is stored and listable. */
  lemma InstanceStays(codec: Codec, b: BrokerState, step: Step, id: string)
    requires WellKept(b) && Readable(step) && id in b.world.reg.records
    ensures var c := Do(codec, b, step).0;
      && (id in c.world.reg.records ==>
            && c.world.reg.records[id].ns == b.world.reg.records[id].ns
            && c.world.reg.records[id].serviceId == b.world.reg.records[id].serviceId)
      && (id !in c.world.reg.records ==> step.SDeprovision? && step.id == id && !Guarded(step.env, b, id))
  {
    hide HandleProvision, HandleUpdate, HandleDeprovision, HandleBind, HandleUnbind, Provision, Update, Deprovision, Reconcile;
    match step
    case SProvision(env, x, req) =>
      var w, ns := ProvisionCase(codec, env, b, x, req);
      if x !in b.world.reg.records && req.serviceId in b.defs {
        ProvisionRecords(codec, env.world, w, b.defs[req.serviceId], x, ns, req.planId, req.parameters);
      }
    case SUpdate(env, x, req) =>
      var w := UpdateCase(codec, env, b, x, req);
      if x in b.world.reg.records && ReadOnly(b.world, w) && RequestedService(req.serviceId, Some(b.world.reg.records[x])) in b.defs {
        var rec := b.world.reg.records[x];
        var _, _ := UpdateEffect(codec, env.world, w, b.defs[RequestedService(req.serviceId, Some(rec))], x, NamespaceOf(rec),
                                 TargetPlan(rec, req.planId), req.parameters, rec);
      }
    case SDeprovision(env, x, service, stamp) =>
      var w := DeprovisionCase(codec, env, b, x, service, stamp);
      if x in b.world.reg.records && RequestedService(service, Some(b.world.reg.records[x])) in b.defs {
        DeprovisionForgetsOne(codec, env.world, w, b.defs[RequestedService(service, Some(b.world.reg.records[x]))],
                              NamespaceOf(b.world.reg.records[x]), x, stamp);
      }
    case SBind(env, x, bid, req) => BindCase(env, b, x, bid, req);
    case SUnbind(env, x, bid, service) => UnbindCase(env, b, x, bid, service);
    case SReconcile(env, x) =>
      if x in b.world.reg.records {
        var _ := ReconcileKeepsTheConfiguration(codec, env.world, b.world, b.defs, b.world.reg.records[x]);
      }
    case SReload(_) =>
  }

  /** A provision adds its own record, in its own namespace, or none. */
  lemma ProvisionRecords(codec: Codec, env: WorldEnv, w: World, sd: ServiceDefinition, id: string, ns: string, planId: string, params: Params)
    ensures var o := Provision(codec, env, w, sd, id, ns, planId, params);
      if o.error.Some? then o.world.reg.records == w.reg.records
      else exists refs :: o.world.reg.records == w.reg.records[id := NewRecord(sd, id, ns, planId, params, refs)]
  {
    if Provision(codec, env, w, sd, id, ns, planId, params).error.Some? {
      var _, _, _ := ProvisionIsFailureAtomic(codec, env, w, sd, id, ns, planId, params);
    } else {
      var _ := ProvisionSucceeds(codec, env, w, sd, id, ns, planId, params);
    }
  }

  /** Records stay under their own id. */
  lemma StepKeepsWell(codec: Codec, b: BrokerState, step: Step)
    requires WellKept(b) && Readable(step)
    ensures WellKept(Do(codec, b, step).0)
  {
    hide HandleProvision, HandleUpdate, HandleDeprovision, HandleBind, HandleUnbind, Provision, Update, Deprovision, Reconcile;
    var c := Do(codec, b, step).0;
    forall id | id in c.world.reg.records ensures c.world.reg.records[id].id == id {
      StepKeepsRecordWell(codec, b, step, id);
    }
    match step
    case SProvision(env, x, req) => var _, _ := ProvisionCase(codec, env, b, x, req);
    case SUpdate(env, x, req) => var _ := UpdateCase(codec, env, b, x, req);
    case SDeprovision(env, x, service, stamp) => var _ := DeprovisionCase(codec, env, b, x, service, stamp);
    case SBind(env, x, bid, req) => BindCase(env, b, x, bid, req);
    case SUnbind(env, x, bid, service) => UnbindCase(env, b, x, bid, service);
    case _ =>
  }

  lemma StepKeepsRecordWell(codec: Codec, b: BrokerState, step: Step, id: string)
    requires WellKept(b) && Readable(step) && id in Do(codec, b, step).0.world.reg.records
    ensures var rec := Do(codec, b, step).0.world.reg.records[id];
      rec.id == id && (id !in b.world.reg.records ==> rec.ns != "")
  {
    hide HandleProvision, HandleUpdate, HandleDeprovision, HandleBind, HandleUnbind, Provision, Update, Deprovision, Reconcile;
    match step
    case SProvision(env, x, req) =>
      var w, ns := ProvisionCase(codec, env, b, x, req);
      if x !in b.world.reg.records && req.serviceId in b.defs {
        ProvisionRecords(codec, env.world, w, b.defs[req.serviceId], x, ns, req.planId, req.parameters);
      }
    case SUpdate(env, x, req) =>
      var w := UpdateCase(codec, env, b, x, req);
      if x in b.world.reg.records && ReadOnly(b.world, w) && RequestedService(req.serviceId, Some(b.world.reg.records[x])) in b.defs {
        var rec := b.world.reg.records[x];
        var _, _ := UpdateEffect(codec, env.world, w, b.defs[RequestedService(req.serviceId, Some(rec))], x, NamespaceOf(rec),
                                 TargetPlan(rec, req.planId), req.parameters, rec);
      }
    case SDeprovision(env, x, service, stamp) =>
      var w := DeprovisionCase(codec, env, b, x, service, stamp);
      if x in b.world.reg.records && RequestedService(service, Some(b.world.reg.records[x])) in b.defs {
        DeprovisionForgetsOne(codec, env.world, w, b.defs[RequestedService(service, Some(b.world.reg.records[x]))],
                              NamespaceOf(b.world.reg.records[x]), x, stamp);
      }
    case SBind(env, x, bid, req) => BindCase(env, b, x, bid, req);
    case SUnbind(env, x, bid, service) => UnbindCase(env, b, x, bid, service);
    case SReconcile(env, x) =>
      if x in b.world.reg.records {
        var _ := ReconcileKeepsTheConfiguration(codec, env.world, b.world, b.defs, b.world.reg.records[x]);
      }
    case SReload(_) =>
  }

  /** And once every instance has a namespace, so have all that come after. */
  lemma StepKeepsPlaced(codec: Codec, b: BrokerState, step: Step)
    requires WellKept(b) && Placed(b) && Readable(step)
    ensures Placed(Do(codec, b, step).0)
  {
    hide Do;
    var c := Do(codec, b, step).0;
    forall id | id in c.world.reg.records ensures c.world.reg.records[id].ns != "" {
      StepKeepsRecordWell(codec, b, step, id);
      if id in b.world.reg.records {
        InstanceStays(codec, b, step, id);
      }
    }
  }

  // --- whole runs ---

  ghost predicate AllReadable(steps: seq<Step>) {
    forall i | 0 <= i < |steps| :: Readable(steps[i])
  }

  lemma {:induction false} RunKeepsWell(codec: Codec, b: BrokerState, steps: seq<Step>)
    requires WellKept(b) && AllReadable(steps)
    ensures WellKept(Run(codec, b, steps))
  {
    if steps != [] {
      assert AllReadable(steps[..|steps| - 1]);
      RunKeepsWell(codec, b, steps[..|steps| - 1]);
      StepKeepsWell(codec, Run(codec, b, steps[..|steps| - 1]), steps[|steps| - 1]);
    }
  }

  predicate NoUnbindOf(steps: seq<Step>, bid: string) {
    forall i | 0 <= i < |steps| :: steps[i].SUnbind? ==> steps[i].bid != bid
  }

  /** Through any run without its own unbind a binding stays as it was first stored, and
      every later bind of that id by the same service and instance is answered with the
      credentials of the first one, whatever the operator offers by then. */
  lemma {:induction false} RepeatedBindsReturnTheFirstCredentials(codec: Codec, b: BrokerState, steps: seq<Step>, bid: string,
                                                                  env: BrokerEnv, req: BindRequest)
    requires WellKept(b) && AllReadable(steps) && NoUnbindOf(steps, bid) && bid in b.binds.bindings
    requires forall n: nat :: !env.binds.readFails(n)
    requires req.serviceId == b.binds.bindings[bid].serviceId != "" && req.planId != ""
    requires req.serviceId in Run(codec, b, steps).defs
    ensures var c := Run(codec, b, steps);
      && bid in c.binds.bindings && c.binds.bindings[bid] == b.binds.bindings[bid]
      && var (d, r) := HandleBind(env, c, b.binds.bindings[bid].instanceId, bid, req);
         r == Response(Ok200, b.binds.bindings[bid].credentials) && Unmoved(c, d)
  {
    RunKeepsBinding(codec, b, steps, bid);
  }

  lemma {:induction false} RunKeepsBinding(codec: Codec, b: BrokerState, steps: seq<Step>, bid: string)
    requires WellKept(b) && AllReadable(steps) && NoUnbindOf(steps, bid) && bid in b.binds.bindings
    ensures var c := Run(codec, b, steps); bid in c.binds.bindings && c.binds.bindings[bid] == b.binds.bindings[bid]
  {
    if steps != [] {
      var init := steps[..|steps| - 1];
      assert AllReadable(init) && NoUnbindOf(init, bid);
      RunKeepsBinding(codec, b, init, bid);
      RunKeepsWell(codec, b, init);
      StoredBindingStays(codec, Run(codec, b, init), steps[|steps| - 1], bid);
    }
  }

  /** While a ready binding of a recorded instance is stored and can be listed, no run of
      requests, failures and restarts removes that instance or moves it to another
      namespace. */
  lemma {:induction false} BoundInstanceStays(codec: Codec, b: BrokerState, steps: seq<Step>, id: string, bid: string)
    requires WellKept(b) && AllReadable(steps) && NoUnbindOf(steps, bid)
    requires forall i | 0 <= i < |steps| :: Listable(steps[i])
    requires id in b.world.reg.records && bid in b.binds.bindings
    requires b.binds.bindings[bid].instanceId == id && b.binds.bindings[bid].ready
    ensures var c := Run(codec, b, steps);
      && id in c.world.reg.records
      && c.world.reg.records[id].ns == b.world.reg.records[id].ns
      && c.world.reg.records[id].serviceId == b.world.reg.records[id].serviceId
  {
    if steps != [] {
      var init := steps[..|steps| - 1];
      assert AllReadable(init) && NoUnbindOf(init, bid);
      assert forall i | 0 <= i < |init| :: Listable(init[i]);
      BoundInstanceStays(codec, b, init, id, bid);
      RunKeepsBinding(codec, b, init, bid);
      RunKeepsWell(codec, b, init);
      var c := Run(codec, b, init);
      assert c.binds.bindings[bid].ready;
      InstanceStays(codec, c, steps[|steps| - 1], id);
    }
  }

  /** A DELETE of an id that is not on record is answered 410 and asks nothing of the
      engine, whatever fails. */
  lemma UnrecordedInstanceIsGone(codec: Codec, env: BrokerEnv, b: BrokerState, id: string, service: string, stamp: string)
    requires id !in b.world.reg.records
    ensures var (c, r) := HandleDeprovision(codec, env, b, id, service, stamp);
      Unmoved(b, c) && r.status == Gone410
  {
    hide HandleDeprovisionOf;
  }

  /** A DELETE of an instance with a ready binding is refused if and only if the bindings
      could be listed. */
  lemma GuardHoldsIffListable(codec: Codec, env: BrokerEnv, b: BrokerState, id: string, service: string, stamp: string, bid: string)
    requires ReadsSucceed(env.world.reg) && id in b.world.reg.records
    requires var known := RequestedService(service, Some(b.world.reg.records[id])); known != "" && known in b.defs
    requires bid in b.binds.bindings && b.binds.bindings[bid].instanceId == id && b.binds.bindings[bid].ready
    ensures HandleDeprovision(codec, env, b, id, service, stamp).1.status == Conflict409 <==> !env.binds.listFails(b.binds.clock)
  {
    hide Deprovision, NamespaceOf;
    var listed := BindList(env.binds, b.binds, id).1;
    if listed.Some? {
      assert b.binds.bindings[bid] in listed.value;
    }
  }

  /** The guard needs the listing: when it fails, the handler goes on and removes an
      instance that has a ready binding. */
  lemma UnlistableBindingDoesNotGuard(codec: Codec, b: BrokerState, id: string, stamp: string)
    requires id in b.world.reg.records && b.world.reg.records[id].id == id
    requires b.world.reg.records[id].serviceId != "" && b.world.reg.records[id].serviceId in b.defs
    requires !PlanRetains(b.defs[b.world.reg.records[id].serviceId], Some(b.world.reg.records[id]))
    requires forall k | k in RefsOf(codec, b.defs[b.world.reg.records[id].serviceId], Some(b.world.reg.records[id]), id,
                                    NamespaceOf(b.world.reg.records[id])) :: ValidApiVersion(k.apiVersion)
    ensures var env := BrokerEnv(WorldEnv(n => Quiet, RegEnv(n => false, n => false)),
                                 BindEnv(n => false, n => false, n => true), n => false, n => None);
      var (c, r) := HandleDeprovision(codec, env, b, id, "", stamp);
      && r.status == Ok200 && id !in c.world.reg.records && c.binds.bindings == b.binds.bindings
  {
    var env := BrokerEnv(WorldEnv(n => Quiet, RegEnv(n => false, n => false)),
                         BindEnv(n => false, n => false, n => true), n => false, n => None);
    var rec := b.world.reg.records[id];
    var sd := b.defs[rec.serviceId];
    var w := b.world.(reg := b.world.reg.(clock := b.world.reg.clock + 3));
    var r := Request(codec, sd, NamespaceOf(rec), id, stamp);
    CalmAttemptSucceeds(r, env.world, w, rec);
    AttemptEffect(r, env.world, w, rec);
  }
}
