/** Moving the records of the abandoned state ConfigMap into custom resources
    (internal/migrate/migrate.go). */
module Migration {
  import opened Wrappers
  import opened Json
  import opened Api
  import opened StateStore
  import opened CrdStore
  import opened CrdProofs

  datatype LegacyContext = LegacyContext(
    platform: string, organizationGuid: string, spaceGuid: string, clusterId: string, ns: string, originatingIdentity: string)

  datatype LegacyInstance = LegacyInstance(
    id: string, serviceId: string, planId: string, context: LegacyContext, parameters: Params,
    dashboardUrl: string, ready: bool, appliedObjects: seq<string>, appliedRefs: seq<Key>)

  datatype LegacyBinding = LegacyBinding(
    id: string, instanceId: string, serviceId: string, planId: string, appGuid: string, context: LegacyContext,
    parameters: Params, credentials: Params, syslogDrainUrl: string, routeServiceUrl: string,
    volumeMounts: seq<Value>, ready: bool)

  /** The old document; a null entry is None. */
  datatype Legacy = Legacy(instances: map<string, Option<LegacyInstance>>, bindings: map<string, Option<LegacyBinding>>)

  /** What reading the ConfigMap gave. */
  datatype Source = Absent | Unreadable | Present(legacy: Legacy)

  datatype Report = Report(instances: nat, bindings: nat, sourceMissing: bool, dryRun: bool)

  function ToContext(c: LegacyContext): Context {
    Context(c.platform, c.organizationGuid, c.spaceGuid, "", "", c.clusterId, c.ns, c.originatingIdentity)
  }

  /** The map key stands in for an empty id. */
  function ResolvedId(key: string, id: string): string {
    if id == "" then key else id
  }

  function ToInstance(key: string, li: LegacyInstance): Instance {
    Instance(ResolvedId(key, li.id), li.serviceId, li.planId, ToContext(li.context), li.parameters,
             li.dashboardUrl, li.ready, "", li.appliedObjects, li.appliedRefs, "")
  }

  function ToBinding(key: string, lb: LegacyBinding): Binding {
    Binding(ResolvedId(key, lb.id), lb.instanceId, lb.serviceId, lb.planId, lb.appGuid, ToContext(lb.context), lb.parameters,
            lb.credentials, lb.syslogDrainUrl, lb.routeServiceUrl, lb.volumeMounts, lb.ready)
  }

  // --- the run ---

  function InstanceKeys(l: Legacy): set<string> {
    set k | k in l.instances && l.instances[k].Some?
  }

  function BindingEntries(l: Legacy): set<string> {
    set k | k in l.bindings && l.bindings[k].Some?
  }

  /** Writing one record of the old document. */
  ghost predicate WritesRecord(env: CrEnv, l: Legacy, op: StoreOp) {
    || (exists k | k in InstanceKeys(l) :: op == PutI(env, ToInstance(k, l.instances[k].value)))
    || (exists k | k in BindingEntries(l) :: op == PutB(env, ToBinding(k, l.bindings[k].value)))
  }

  /** Each of the operations in turn is answered Done. */
  predicate AllDone(sha: Sha, s: CrState, ops: seq<StoreOp>) {
    ops == [] || (AllDone(sha, s, ops[..|ops| - 1]) && CrdStep(sha, CrdRun(sha, s, ops[..|ops| - 1]), ops[|ops| - 1]).1 == Done)
  }

  /** Records only of the old document, in any order, the last write possibly failed. */
  ghost predicate Partial(env: CrEnv, l: Legacy, ops: seq<StoreOp>) {
    forall op | op in ops :: WritesRecord(env, l, op)
  }

  /** Every record of the old document was written. */
  ghost predicate Complete(env: CrEnv, sha: Sha, s: CrState, l: Legacy, ops: seq<StoreOp>) {
    && Partial(env, l, ops) && AllDone(sha, s, ops)
    && InstancesWritten(env, l, {}, ops) && BindingsWritten(env, l, {}, ops)
  }

  lemma RunExtends(sha: Sha, s: CrState, ops: seq<StoreOp>, op: StoreOp)
    ensures CrdRun(sha, s, ops + [op]) == CrdStep(sha, CrdRun(sha, s, ops), op).0
    ensures AllDone(sha, s, ops + [op]) <==> AllDone(sha, s, ops) && CrdStep(sha, CrdRun(sha, s, ops), op).1 == Done
  {
    assert (ops + [op])[..|ops|] == ops;
  }

  /** How many records there are outside `keys`. */
  ghost function InstancesDone(l: Legacy, keys: set<string>): nat {
    |InstanceKeys(l) - keys|
  }

  ghost function BindingsDone(l: Legacy, keys: set<string>): nat {
    |BindingEntries(l) - keys|
  }

  lemma NothingLeft(l: Legacy)
    ensures InstancesDone(l, {}) == |InstanceKeys(l)| && BindingsDone(l, {}) == |BindingEntries(l)|
  {
    assert InstanceKeys(l) - {} == InstanceKeys(l) && BindingEntries(l) - {} == BindingEntries(l);
  }

  /** All instances but those under `keys` have been written. */
  ghost predicate InstancesWritten(env: CrEnv, l: Legacy, keys: set<string>, ops: seq<StoreOp>) {
    forall k | k in InstanceKeys(l) - keys :: PutI(env, ToInstance(k, l.instances[k].value)) in ops
  }

  lemma InstanceRecorded(env: CrEnv, l: Legacy, keys: set<string>, k: string, ops: seq<StoreOp>)
    requires k in keys && k in InstanceKeys(l) && Partial(env, l, ops)
    ensures var op := PutI(env, ToInstance(k, l.instances[k].value));
      && Partial(env, l, ops + [op])
      && (InstancesWritten(env, l, keys, ops) ==> InstancesWritten(env, l, keys - {k}, ops + [op]))
    ensures InstancesDone(l, keys - {k}) == InstancesDone(l, keys) + 1
  {
    hide ToInstance;
    assert InstanceKeys(l) - (keys - {k}) == (InstanceKeys(l) - keys) + {k};
    assert WritesRecord(env, l, PutI(env, ToInstance(k, l.instances[k].value)));
  }

  lemma InstanceSkipped(env: CrEnv, l: Legacy, keys: set<string>, k: string, ops: seq<StoreOp>)
    requires k in keys && k !in InstanceKeys(l)
    ensures InstancesWritten(env, l, keys, ops) ==> InstancesWritten(env, l, keys - {k}, ops)
    ensures InstancesDone(l, keys - {k}) == InstancesDone(l, keys)
  {
    hide ToInstance;
    assert InstanceKeys(l) - (keys - {k}) == InstanceKeys(l) - keys;
  }

  /** All bindings but those under `keys` have been written. */
  ghost predicate BindingsWritten(env: CrEnv, l: Legacy, keys: set<string>, ops: seq<StoreOp>) {
    forall k | k in BindingEntries(l) - keys :: PutB(env, ToBinding(k, l.bindings[k].value)) in ops
  }

  lemma BindingRecorded(env: CrEnv, l: Legacy, keys: set<string>, k: string, ops: seq<StoreOp>)
    requires k in keys && k in BindingEntries(l) && Partial(env, l, ops)
    ensures var op := PutB(env, ToBinding(k, l.bindings[k].value));
      && Partial(env, l, ops + [op])
      && (BindingsWritten(env, l, keys, ops) ==> BindingsWritten(env, l, keys - {k}, ops + [op]))
      && (InstancesWritten(env, l, {}, ops) ==> InstancesWritten(env, l, {}, ops + [op]))
    ensures BindingsDone(l, keys - {k}) == BindingsDone(l, keys) + 1
  {
    hide ToBinding;
    assert BindingEntries(l) - (keys - {k}) == (BindingEntries(l) - keys) + {k};
    assert WritesRecord(env, l, PutB(env, ToBinding(k, l.bindings[k].value)));
  }

  lemma BindingSkipped(env: CrEnv, l: Legacy, keys: set<string>, k: string, ops: seq<StoreOp>)
    requires k in keys && k !in BindingEntries(l)
    ensures BindingsWritten(env, l, keys, ops) ==> BindingsWritten(env, l, keys - {k}, ops)
    ensures BindingsDone(l, keys - {k}) == BindingsDone(l, keys)
  {
    hide ToBinding;
    assert BindingEntries(l) - (keys - {k}) == BindingEntries(l) - keys;
  }

  /** The operations so far have all been answered Done and lead to `now`. */
  ghost predicate Migrating(env: CrEnv, sha: Sha, start: CrState, l: Legacy, ops: seq<StoreOp>, now: CrState) {
    now == CrdRun(sha, start, ops) && AllDone(sha, start, ops) && Partial(env, l, ops)
  }

  lemma MigratingMeans(env: CrEnv, sha: Sha, start: CrState, l: Legacy, ops: seq<StoreOp>, now: CrState)
    ensures Migrating(env, sha, start, l, ops, now) <==> now == CrdRun(sha, start, ops) && AllDone(sha, start, ops) && Partial(env, l, ops)
  {
  }

  lemma OneMore(env: CrEnv, sha: Sha, start: CrState, l: Legacy, ops: seq<StoreOp>, now: CrState, op: StoreOp)
    requires Migrating(env, sha, start, l, ops, now) && Partial(env, l, ops + [op])
    ensures var (next, a) := CrdStep(sha, now, op);
      && next == CrdRun(sha, start, ops + [op])
      && (ops + [op])[..|ops|] == ops && AllDone(sha, start, ops)
      && (a == Done ==> Migrating(env, sha, start, l, ops + [op], next))
      && (a != Done ==> !AllDone(sha, start, ops + [op]))
  {
    hide CrdStep, Partial;
    RunExtends(sha, start, ops, op);
  }

  lemma StepOfPut(sha: Sha, s: CrState, op: StoreOp)
    ensures op.PutI? ==> var r := PutInstanceSpec(op.env, sha, s, op.i); CrdStep(sha, s, op).0 == r.state && (CrdStep(sha, s, op).1 == Done <==> r.result.Ok?)
    ensures op.PutB? ==> var r := PutBindingSpec(op.env, sha, s, op.b); CrdStep(sha, s, op).0 == r.state && (CrdStep(sha, s, op).1 == Done <==> r.result.Ok?)
  {
    hide PutInstanceSpec, PutBindingSpec;
  }

  lemma NothingRun(env: CrEnv, sha: Sha, s: CrState, l: Legacy)
    ensures CrdRun(sha, s, []) == s && AllDone(sha, s, []) && Partial(env, l, [])
  {
  }

  lemma IsEntry(l: Legacy, k: string)
    ensures k in InstanceKeys(l) <==> k in l.instances && l.instances[k].Some?
    ensures k in BindingEntries(l) <==> k in l.bindings && l.bindings[k].Some?
  {
  }

  lemma AllStillToDo(env: CrEnv, l: Legacy, ops: seq<StoreOp>)
    ensures InstancesDone(l, l.instances.Keys) == 0 && InstancesWritten(env, l, l.instances.Keys, ops)
    ensures BindingsDone(l, l.bindings.Keys) == 0 && BindingsWritten(env, l, l.bindings.Keys, ops)
  {
    assert InstanceKeys(l) - l.instances.Keys == {} && BindingEntries(l) - l.bindings.Keys == {};
  }

  /** The first loop of Run: the instances. */
  method RunInstances(store: CRDStateStore, l: Legacy, dryRun: bool) returns (count: nat, failed: bool, ghost ops: seq<StoreOp>)
    modifies store.client
    ensures store.client.state == CrdRun(store.sha, old(store.client.state), ops)
    ensures Partial(store.client.env, l, ops)
    ensures dryRun ==> ops == [] && !failed
    ensures !failed ==> count == |InstanceKeys(l)| && AllDone(store.sha, old(store.client.state), ops)
    ensures !failed && !dryRun ==> InstancesWritten(store.client.env, l, {}, ops)
    ensures failed ==> |ops| > 0 && AllDone(store.sha, old(store.client.state), ops[..|ops| - 1]) && !AllDone(store.sha, old(store.client.state), ops)
    ensures !dryRun ==> |ops| == count
  {
    hide *;
    ghost var env, sha, start := store.client.env, store.sha, store.client.state;
    count, failed, ops := 0, false, [];
    NothingRun(env, sha, start, l);
    MigratingMeans(env, sha, start, l, ops, store.client.state);
    AllStillToDo(env, l, ops);
    var keys := l.instances.Keys;
    while keys != {}
      invariant keys <= l.instances.Keys
      invariant Migrating(env, sha, start, l, ops, store.client.state) && (if dryRun then ops == [] else |ops| == count)
      invariant count == InstancesDone(l, keys)
      invariant !dryRun ==> InstancesWritten(env, l, keys, ops)
      decreases |keys|
    {
      var k :| k in keys;
      IsEntry(l, k);
      if l.instances[k].None? {
        InstanceSkipped(env, l, keys, k, ops);
        keys := keys - {k};
        continue;
      }
      var inst := ToInstance(k, l.instances[k].value);
      MigratingMeans(env, sha, start, l, ops, store.client.state);
      InstanceRecorded(env, l, keys, k, ops);
      keys := keys - {k};
      count := count + 1;
      if dryRun {
        continue;
      }
      ghost var op, was := PutI(env, inst), store.client.state;
      var r := store.PutInstance(inst);
      StepOfPut(sha, was, op);
      OneMore(env, sha, start, l, ops, was, op);
      ops := ops + [op];
      if r.Err? {
        failed := true;
        return;
      }
    }
    MigratingMeans(env, sha, start, l, ops, store.client.state);
    NothingLeft(l);
  }

  /** The second loop: the bindings, after the operations `before`. */
  method RunBindings(store: CRDStateStore, l: Legacy, dryRun: bool, ghost start: CrState, ghost before: seq<StoreOp>)
    returns (count: nat, failed: bool, ghost ops: seq<StoreOp>)
    requires store.client.state == CrdRun(store.sha, start, before) && AllDone(store.sha, start, before)
    requires Partial(store.client.env, l, before) && (!dryRun ==> InstancesWritten(store.client.env, l, {}, before))
    modifies store.client
    ensures store.client.state == CrdRun(store.sha, start, ops)
    ensures Partial(store.client.env, l, ops)
    ensures dryRun ==> ops == before && !failed
    ensures !failed ==> count == |BindingEntries(l)| && AllDone(store.sha, start, ops)
    ensures !failed && !dryRun ==> InstancesWritten(store.client.env, l, {}, ops) && BindingsWritten(store.client.env, l, {}, ops)
    ensures failed ==> |ops| > 0 && AllDone(store.sha, start, ops[..|ops| - 1]) && !AllDone(store.sha, start, ops)
    ensures !dryRun ==> |ops| == |before| + count
  {
    hide *;
    ghost var env, sha := store.client.env, store.sha;
    count, failed, ops := 0, false, before;
    MigratingMeans(env, sha, start, l, ops, store.client.state);
    AllStillToDo(env, l, ops);
    var keys := l.bindings.Keys;
    while keys != {}
      invariant keys <= l.bindings.Keys
      invariant Migrating(env, sha, start, l, ops, store.client.state) && (if dryRun then ops == before else |ops| == |before| + count)
      invariant count == BindingsDone(l, keys)
      invariant !dryRun ==> InstancesWritten(env, l, {}, ops) && BindingsWritten(env, l, keys, ops)
      decreases |keys|
    {
      var k :| k in keys;
      IsEntry(l, k);
      if l.bindings[k].None? {
        BindingSkipped(env, l, keys, k, ops);
        keys := keys - {k};
        continue;
      }
      var bind := ToBinding(k, l.bindings[k].value);
      MigratingMeans(env, sha, start, l, ops, store.client.state);
      BindingRecorded(env, l, keys, k, ops);
      keys := keys - {k};
      count := count + 1;
      if dryRun {
        continue;
      }
      ghost var op, was := PutB(env, bind), store.client.state;
      var r := store.PutBinding(bind);
      StepOfPut(sha, was, op);
      OneMore(env, sha, start, l, ops, was, op);
      ops := ops + [op];
      if r.Err? {
        failed := true;
        return;
      }
    }
    MigratingMeans(env, sha, start, l, ops, store.client.state);
    NothingLeft(l);
  }

  /** Run. The maps are ranged over in an arbitrary order; `ops` is the order that was taken.
      A dry run, or a missing source, calls nothing and a dry run counts what a run would. */
  method Run(store: CRDStateStore, source: Source, dryRun: bool) returns (report: Report, failed: bool, ghost ops: seq<StoreOp>)
    modifies store.client
    ensures store.client.state == CrdRun(store.sha, old(store.client.state), ops)
    ensures report.dryRun == dryRun && (report.sourceMissing <==> source == Absent)
    ensures source.Unreadable? ==> failed
    ensures dryRun || !source.Present? ==> ops == []
    ensures !source.Present? ==> report.instances == 0 && report.bindings == 0
    ensures source.Present? && dryRun ==> !failed
    ensures source.Present? && !failed ==> report.instances == |InstanceKeys(source.legacy)| && report.bindings == |BindingEntries(source.legacy)|
    ensures source.Present? && !dryRun && !failed ==> Complete(store.client.env, store.sha, old(store.client.state), source.legacy, ops)
    ensures source.Present? && failed ==>
      && Partial(store.client.env, source.legacy, ops) && |ops| > 0
      && AllDone(store.sha, old(store.client.state), ops[..|ops| - 1]) && !AllDone(store.sha, old(store.client.state), ops)
    ensures !dryRun ==> report.instances + report.bindings == |ops|
  {
    hide AllDone, CrdRun, InstancesWritten, BindingsWritten, Partial;
    NothingRun(store.client.env, store.sha, store.client.state, if source.Present? then source.legacy else Legacy(map[], map[]));
    report := Report(0, 0, false, dryRun);
    failed := false;
    ops := [];
    match source
    case Absent =>
      report := report.(sourceMissing := true);
      return;
    case Unreadable =>
      failed := true;
      return;
    case Present(l) =>
      var n;
      n, failed, ops := RunInstances(store, l, dryRun);
      report := report.(instances := n);
      if failed {
        return;
      }
      n, failed, ops := RunBindings(store, l, dryRun, old(store.client.state), ops);
      report := report.(bindings := n);
  }
}
