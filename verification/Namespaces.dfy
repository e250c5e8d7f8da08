/** In which namespace the requests of an instance work (instanceNamespace and namespaceOf in
    internal/handlers/definition_instances.go): the one on record, else that of its objects,
    else "default". */
module Namespaces {
  import opened Wrappers
  import opened Json
  import opened Definition
  import opened Validation
  import opened Api
  import opened Operator
  import opened OperatorProofs
  import opened Registry
  import opened Engine
  import opened ProvisionProofs
  import opened UpdateProofs
  import opened ReconcileProofs
  import opened Broker
  import opened Protocol
  import opened PatchProofs
  import Bindings
  import Manifests
  import Limits
  import Names
  import Text

  lemma NamespaceIsNeverEmpty(rec: InstanceRecord)
    ensures NamespaceOf(rec) != ""
  {
    FirstIsNeverEmpty(rec.appliedRefs);
  }

  lemma {:induction false} FirstIsNeverEmpty(refs: seq<Key>)
    ensures FirstNamespace(refs) != ""
  {
    if refs != [] {
      FirstIsNeverEmpty(refs[1..]);
    }
  }

  // --- one step ---

  /** When a step that leaves an instance on record leaves it in its namespace: one is on
      record, or the references were not replaced, or the new ones begin in the same one. */
  lemma NamespaceSurvivesIff(codec: Codec, b: BrokerState, step: Step, id: string)
    requires WellKept(b) && Readable(step) && id in b.world.reg.records
    requires id in Do(codec, b, step).0.world.reg.records
    ensures var rec, after := b.world.reg.records[id], Do(codec, b, step).0.world.reg.records[id];
      NamespaceOf(after) == NamespaceOf(rec) <==>
        || rec.ns != ""
        || after.appliedRefs == rec.appliedRefs
        || FirstNamespace(after.appliedRefs) == NamespaceOf(rec)
  {
    hide Do;
    InstanceStays(codec, b, step, id);
  }

  /** Objects rendered for a namespace carry one, their own or that. */
  lemma RenderedNamespaces(codec: Codec, sd: ServiceDefinition, id: string, ns: string, plan: Plan, params: Params, docs: seq<Doc>)
    requires Desired(codec, sd, id, ns, plan, params) == Ok(docs) && docs != [] && ns != ""
    ensures FirstNamespace(Keys(docs)) == docs[0].key.ns
  {
    DesiredAreNamespaced(codec, sd, id, ns, plan, params);
    assert Keys(docs)[0] == docs[0].key && Keys(docs)[0] in Keys(docs);
  }

  /** The references of an instance without a stored namespace are replaced by an accepted
      PATCH that had to write, and by nothing else. */
  lemma RefsAreReplacedByAPatch(codec: Codec, b: BrokerState, step: Step, id: string) returns (docs: seq<Doc>)
    requires WellKept(b) && Readable(step) && id in b.world.reg.records && b.world.reg.records[id].ns == ""
    requires id in Do(codec, b, step).0.world.reg.records
    requires Do(codec, b, step).0.world.reg.records[id].appliedRefs != b.world.reg.records[id].appliedRefs
    ensures step.SUpdate? && step.id == id && Do(codec, b, step).1 == Plain(Ok200)
    ensures Rerenders(codec, b, step, docs)
    ensures Do(codec, b, step).0.world.reg.records[id].appliedRefs == Keys(docs)
    ensures NamespaceOf(Do(codec, b, step).0.world.reg.records[id]) == docs[0].key.ns
  {
    hide HandleProvision, HandleUpdate, HandleDeprovision, HandleBind, HandleUnbind, Provision, Update, Deprovision, FirstNamespace;
    docs := [];
    var rec := b.world.reg.records[id];
    match step
    case SProvision(env, x, req) =>
      var w, ns := ProvisionCase(codec, env, b, x, req);
      if x !in b.world.reg.records && req.serviceId in b.defs {
        ProvisionRecords(codec, env.world, w, b.defs[req.serviceId], x, ns, req.planId, req.parameters);
      }
    case SUpdate(env, x, req) =>
      docs := PatchReplaces(codec, env, b, x, req, id);
    case SDeprovision(env, x, service, stamp) =>
      var w := DeprovisionCase(codec, env, b, x, service, stamp);
      if x in b.world.reg.records && RequestedService(service, Some(b.world.reg.records[x])) in b.defs {
        DeprovisionForgetsOne(codec, env.world, w, b.defs[RequestedService(service, Some(b.world.reg.records[x]))],
                              NamespaceOf(b.world.reg.records[x]), x, stamp);
      }
    case SBind(env, x, bid, req) => BindCase(env, b, x, bid, req);
    case SUnbind(env, x, bid, service) => UnbindCase(env, b, x, bid, service);
    case SReconcile(env, x) =>
      if x in b.world.reg.records {
        var _ := ReconcileKeepsTheConfiguration(codec, env.world, b.world, b.defs, b.world.reg.records[x]);
      }
    case SReload(_) =>
  }

  lemma PatchReplaces(codec: Codec, env: BrokerEnv, b: BrokerState, x: string, req: UpdateRequest, id: string) returns (docs: seq<Doc>)
    requires WellKept(b) && ReadsSucceed(env.world.reg) && id in b.world.reg.records && b.world.reg.records[id].ns == ""
    ensures var (c, r) := HandleUpdate(codec, env, b, x, req);
      && id in c.world.reg.records
      && (c.world.reg.records[id].appliedRefs != b.world.reg.records[id].appliedRefs ==>
            && x == id && r == Plain(Ok200) && Rerenders(codec, b, SUpdate(env, x, req), docs)
            && c.world.reg.records[id].appliedRefs == Keys(docs) && c.world.reg.records[id].ns == ""
            && FirstNamespace(Keys(docs)) == docs[0].key.ns)
  {
    hide HandleUpdate, Update, FirstNamespace, CarriesAll, Desired, AllowedIn;
    docs := [];
    var w := UpdateCase(codec, env, b, x, req);
    if x in b.world.reg.records && ReadOnly(b.world, w) && RequestedService(req.serviceId, Some(b.world.reg.records[x])) in b.defs {
      var mine := b.world.reg.records[x];
      var sd := b.defs[RequestedService(req.serviceId, Some(mine))];
      var refs;
      docs, refs := UpdateEffect(codec, env.world, w, sd, x, NamespaceOf(mine), TargetPlan(mine, req.planId), req.parameters, mine);
      if x == id && docs != [] && Servable(codec, sd, mine, x, NamespaceOf(mine), TargetPlan(mine, req.planId), req.parameters, docs) {
        NamespaceIsNeverEmpty(mine);
        ServedNamespaces(codec, sd, mine, id, NamespaceOf(mine), TargetPlan(mine, req.planId), req.parameters, docs);
      }
    }
  }

  /** The PATCH can be served by rendering these objects, in the namespace as it is. */
  ghost predicate Rerenders(codec: Codec, b: BrokerState, step: Step, docs: seq<Doc>) {
    && step.SUpdate? && step.id in b.world.reg.records
    && var rec := b.world.reg.records[step.id];
       var service := RequestedService(step.patch.serviceId, Some(rec));
       && service in b.defs && docs != []
       && Servable(codec, b.defs[service], rec, step.id, NamespaceOf(rec), TargetPlan(rec, step.patch.planId), step.patch.parameters, docs)
  }

  /** A PATCH of an instance with no namespace on record whose first object is pinned to
      another one than the instance is in. */
  ghost predicate Repins(codec: Codec, b: BrokerState, step: Step, id: string) {
    && step.SUpdate? && step.id == id && id in b.world.reg.records && b.world.reg.records[id].ns == ""
    && exists docs: seq<Doc> :: Rerenders(codec, b, step, docs) && docs[0].key.ns != NamespaceOf(b.world.reg.records[id])
  }

  lemma OnlyRepinningMoves(codec: Codec, b: BrokerState, step: Step, id: string)
    requires WellKept(b) && Readable(step) && id in b.world.reg.records
    requires id in Do(codec, b, step).0.world.reg.records && !Repins(codec, b, step, id)
    ensures NamespaceOf(Do(codec, b, step).0.world.reg.records[id]) == NamespaceOf(b.world.reg.records[id])
  {
    hide Do, NamespaceOf, Rerenders;
    NamespaceSurvivesIff(codec, b, step, id);
    if b.world.reg.records[id].ns == "" && Do(codec, b, step).0.world.reg.records[id].appliedRefs != b.world.reg.records[id].appliedRefs {
      var docs := RefsAreReplacedByAPatch(codec, b, step, id);
    }
  }

  /** And where nothing interferes it does: a PATCH that can be served moves the instance
      exactly when its first object is pinned to another namespace and the objects have to be
      written. */
  lemma CalmPatchMovesIff(codec: Codec, env: BrokerEnv, b: BrokerState, id: string, req: UpdateRequest, docs: seq<Doc>)
    requires WellKept(b) && ReadsSucceed(env.world.reg) && id in b.world.reg.records && b.world.reg.records[id].ns == ""
    requires Calm(env.world.api, b.world.api.clock) && RegCalm(env.world.reg, b.world.reg.clock)
    requires Rerenders(codec, b, SUpdate(env, id, req), docs) && Reachable(docs)
    requires var rec := b.world.reg.records[id];
      var service := RequestedService(req.serviceId, Some(rec));
      service != "" && PassesChecks(codec, b.defs[service], rec, req)
    ensures var c := HandleUpdate(codec, env, b, id, req).0;
      && id in c.world.reg.records
      && (NamespaceOf(c.world.reg.records[id]) != NamespaceOf(b.world.reg.records[id]) <==>
            docs[0].key.ns != NamespaceOf(b.world.reg.records[id]) && !CarriesAll(b.world.api, docs))
  {
    hide HandleUpdate, Update, PassesChecks, FirstNamespace, Servable, Reachable, CarriesAll, ApplyAll;
    HandleUpdateUnfolds(codec, env, b, id, req);
    var rec := b.world.reg.records[id];
    var sd := b.defs[RequestedService(req.serviceId, Some(rec))];
    var read := b.world.(reg := b.world.reg.(clock := b.world.reg.clock + 1));
    var ns, planId := NamespaceOf(rec), TargetPlan(rec, req.planId);
    NamespaceIsNeverEmpty(rec);
    ServedNamespaces(codec, sd, rec, id, ns, planId, req.parameters, docs);
    ServableUpdateIs(codec, env.world, read, sd, id, ns, planId, req.parameters, rec, docs);
    var again := read.(reg := read.reg.(clock := read.reg.clock + 1));
    CalmUpdateReplaces(env.world, again, sd, docs, rec, TargetPlan(rec, planId), TargetParams(rec, req.parameters));
  }

  lemma ServedNamespaces(codec: Codec, sd: ServiceDefinition, rec: InstanceRecord, id: string, ns: string, planId: string, sent: Params, docs: seq<Doc>)
    requires Servable(codec, sd, rec, id, ns, planId, sent, docs) && docs != [] && ns != ""
    ensures FirstNamespace(Keys(docs)) == docs[0].key.ns
  {
    hide FirstNamespace;
    RenderedNamespaces(codec, sd, id, ns, PlanById(sd, TargetPlan(rec, planId)).value, TargetParams(rec, sent), docs);
  }

  /** An undisturbed update replaces the references exactly when it has to write. */
  lemma CalmUpdateReplaces(env: WorldEnv, w: World, sd: ServiceDefinition, docs: seq<Doc>, rec: InstanceRecord, planId: string, params: Params)
    requires Calm(env.api, w.api.clock) && !env.reg.writeFails(w.reg.clock) && Reachable(docs) && docs != []
    ensures var o := UpdateDocs(env, w, sd, docs, Some(rec), planId, params);
      && rec.id in o.world.reg.records && o.world.reg.records[rec.id].ns == rec.ns
      && o.world.reg.records[rec.id].appliedRefs == if CarriesAll(w.api, docs) then rec.appliedRefs else Keys(docs)
  {
    hide ApplyAll, UpToDate, CarriesAll, Reachable;
    UpToDateIsComplete(env.api, w.api, docs);
    var t := UpToDate(env.api, w.api, docs).0;
    CalmConvergeSucceeds(env.api, w.api, docs);
    ApplyAllEffect(env.api, t, docs);
  }

  // --- such a PATCH ---

  function PinnedDoc(): Doc {
    Doc(Key("v1", "ConfigMap", "b", "settings"), Content(map[], map[], map[]))
  }

  /** A template that renders one ConfigMap, pinned to namespace "b". */
  function PinningCodec(fmt: Limits.FloatFormat, hash: string -> Names.Hex8): Codec {
    Codec((text, data) => Some("x"),
          text => Some(Manifest("v1", "ConfigMap", "b", "settings", PinnedDoc().content)), fmt, hash)
  }

  /** A broker with one instance, migrated without a namespace, whose object is in "a". */
  function MigratedBroker(sd: ServiceDefinition, planId: string, id: string): BrokerState {
    var rec := InstanceRecord(id, sd.offeringId, planId, "", ["settings"], [Key("v1", "ConfigMap", "a", "settings")], map[], "");
    BrokerState(World(State(map[], 0, 0), RegState(map[id := rec], 0)), Bindings.BindState(map[], 0), Bindings.SecretState(map[], 0),
                map[sd.offeringId := sd])
  }

  function Undisturbed(): BrokerEnv {
    BrokerEnv(WorldEnv(n => Quiet, RegEnv(n => false, n => false)), Bindings.BindEnv(n => false, n => false, n => false), n => false, n => None)
  }

  lemma PinnedDocIsRendered(fmt: Limits.FloatFormat, hash: string -> Names.Hex8, sd: ServiceDefinition, id: string, plan: Plan, params: Params)
    ensures Desired(PinningCodec(fmt, hash), sd, id, "a", plan, params) == Ok([PinnedDoc()])
  {
    hide DataFor, Manifests.Documents;
    assert Manifests.Documents("x") == ["x"] by { OneDocument(); }
    var yaml := PinningCodec(fmt, hash).yaml;
    OneDocumentDecodes(PinningCodec(fmt, hash).yaml, "x", sd.provisionApiVersion, sd.provisionKind, "a");
  }

  lemma OneDocumentDecodes(yaml: Yaml, text: string, apiVersion: string, kind: string, ns: string)
    requires DecodeOne(yaml, text, apiVersion, kind, ns).Some?
    ensures DecodeAll(yaml, [text], apiVersion, kind, ns) == Some([DecodeOne(yaml, text, apiVersion, kind, ns).value])
  {
    hide DecodeOne;
    var texts := [text];
    assert texts[..|texts| - 1] == [] && DecodeAll(yaml, [], apiVersion, kind, ns) == Some([]);
    var none: seq<Doc> := [];
    var d := DecodeOne(yaml, texts[|texts| - 1], apiVersion, kind, ns).value;
    assert DecodeAll(yaml, texts, apiVersion, kind, ns) == Some(none + [d]);
    assert none + [d] == [d];
  }

  lemma OneDocument()
    ensures Manifests.Documents("x") == ["x"]
  {
    assert Manifests.Joinable("x") by {
      Text.TrimIsProjection("x", Text.Spaces);
    }
    Manifests.SplitInvertsJoin(["x"]);
    assert Manifests.Join(["x"]) == "x";
  }

  /** The broker accepts a PATCH that asks for nothing, and from then on works in "b". */
  lemma PinnedManifestMovesTheInstance(fmt: Limits.FloatFormat, hash: string -> Names.Hex8, sd: ServiceDefinition, planId: string, id: string)
    requires PlanById(sd, planId).Some? && sd.offeringId != "" && planId != ""
    ensures var b := MigratedBroker(sd, planId, id);
      var c := HandleUpdate(PinningCodec(fmt, hash), Undisturbed(), b, id, UpdateRequest("", "", map[], None)).0;
      && NamespaceOf(b.world.reg.records[id]) == "a"
      && id in c.world.reg.records && NamespaceOf(c.world.reg.records[id]) != "a"
  {
    hide HandleUpdate, Desired, PlanById, CarriesAll;
    var codec, b, req := PinningCodec(fmt, hash), MigratedBroker(sd, planId, id), UpdateRequest("", "", map[], None);
    var plan := PlanById(sd, planId).value;
    PinnedDocIsRendered(fmt, hash, sd, id, plan, map[]);
    assert AllowedIn(plan, map[], fmt);
    assert Rerenders(codec, b, SUpdate(Undisturbed(), id, req), [PinnedDoc()]);
    assert ValidApiVersion("v1") by { assert "v1"[0] == 'v' && "v1"[1..] == "1" && "1"[0] == '1' && "1"[1..] == ""; }
    assert Reachable([PinnedDoc()]);
    assert !CarriesAll(b.world.api, [PinnedDoc()]) by { NothingThere(b.world.api); }
    CalmPatchMovesIff(codec, Undisturbed(), b, id, req, [PinnedDoc()]);
  }

  lemma NothingThere(s: State)
    requires s.objects == map[]
    ensures !CarriesAll(s, [PinnedDoc()])
  {
    assert [PinnedDoc()][0].key !in s.objects;
  }

  // --- whole runs ---

  /** From provision to removal every step works in one namespace: as long as the instance is
      on record and no PATCH re-pins it, the namespace that every handler derives from its
      record stays the same. An instance provisioned with a namespace cannot be re-pinned. */
  lemma {:induction false} NamespaceIsFixed(codec: Codec, b: BrokerState, steps: seq<Step>, id: string)
    requires WellKept(b) && AllReadable(steps)
    requires forall n | 0 <= n <= |steps| :: id in Run(codec, b, steps[..n]).world.reg.records
    requires forall n | 0 <= n < |steps| :: !Repins(codec, Run(codec, b, steps[..n]), steps[n], id)
    ensures id in b.world.reg.records && id in Run(codec, b, steps).world.reg.records
    ensures NamespaceOf(Run(codec, b, steps).world.reg.records[id]) == NamespaceOf(b.world.reg.records[id])
  {
    hide Do, Repins, NamespaceOf, WellKept;
    assert steps[..0] == [] && steps[..|steps|] == steps;
    assert id in Run(codec, b, steps[..0]).world.reg.records && id in Run(codec, b, steps[..|steps|]).world.reg.records;
    if steps != [] {
      var m := |steps| - 1;
      var init := steps[..m];
      assert AllReadable(init);
      forall n | 0 <= n <= m ensures init[..n] == steps[..n] {
      }
      assert forall n | 0 <= n <= m :: id in Run(codec, b, init[..n]).world.reg.records;
      assert forall n | 0 <= n < m :: !Repins(codec, Run(codec, b, init[..n]), init[n], id);
      NamespaceIsFixed(codec, b, init, id);
      RunKeepsWell(codec, b, init);
      OnlyRepinningMoves(codec, Run(codec, b, init), steps[m], id);
    }
  }

  /** With a namespace on record there is nothing to assume of the PATCHes. */
  lemma {:induction false} NamespaceIsFixedAtProvision(codec: Codec, b: BrokerState, steps: seq<Step>, id: string)
    requires WellKept(b) && AllReadable(steps)
    requires forall n | 0 <= n <= |steps| :: id in Run(codec, b, steps[..n]).world.reg.records
    requires id in b.world.reg.records && b.world.reg.records[id].ns != ""
    ensures var c := Run(codec, b, steps);
      && id in c.world.reg.records
      && NamespaceOf(c.world.reg.records[id]) == c.world.reg.records[id].ns == b.world.reg.records[id].ns
  {
    hide Do, WellKept;
    if steps != [] {
      var m := |steps| - 1;
      var init := steps[..m];
      assert AllReadable(init);
      forall n | 0 <= n <= m ensures id in Run(codec, b, init[..n]).world.reg.records {
        assert init[..n] == steps[..n];
      }
      assert steps[..|steps|] == steps;
      NamespaceIsFixedAtProvision(codec, b, init, id);
      RunKeepsWell(codec, b, init);
      InstanceStays(codec, Run(codec, b, init), steps[m], id);
    }
  }
}
