/** What a template is given and what becomes of its text (RenderProvision and overlay in
    internal/definition/render.go, decodeManifests in internal/definition/operator.go). */
module Templates {
  import opened Wrappers
  import opened Json
  import opened Names
  import opened Manifests
  import opened Definition
  import opened Render
  import opened Api
  import opened Operator
  import opened OperatorProofs
  import opened Registry
  import opened Engine
  import opened ProvisionProofs
  import opened UpdateProofs
  import Limits

  /** `over` put on top of `base`, key by key. */
  ghost predicate OnTop(base: Params, over: Params, r: Params) {
    && (forall k | k in over :: k in r && r[k] == over[k])
    && (forall k | k in base && k !in over :: k in r && r[k] == base[k])
    && (forall k | k in r :: k in base || k in over)
  }

  /** The dot of the template: id and sanitized id, the user's parameters by themselves, and
      under `.plan` the user's value of every key they set, the plan's value of every other. */
  ghost predicate Sees(d: TemplateData, codec: Codec, id: string, plan: Plan, user: Params) {
    && d.instanceId == id && d.safeName == Sanitize(id, codec.hash)
    && d.parameters == user && OnTop(plan.params, user, d.plan)
  }

  /** One object from one document: what the document leaves open, the definition or the
      instance's namespace says. */
  predicate ObjectOf(m: Manifest, sd: ServiceDefinition, ns: string, d: Doc) {
    && m.name != "" && d.key.name == m.name && d.content == m.content
    && d.key.apiVersion == (if m.apiVersion != "" then m.apiVersion else sd.provisionApiVersion)
    && d.key.kind == (if m.kind != "" then m.kind else sd.provisionKind)
    && d.key.ns == (if m.ns != "" then m.ns else ns)
  }

  /** The objects come from the documents of the text, one each, in order. */
  ghost predicate ObjectsOf(yaml: Yaml, text: string, sd: ServiceDefinition, ns: string, docs: seq<Doc>) {
    && |docs| == |Documents(text)|
    && forall i | 0 <= i < |docs| :: yaml(Documents(text)[i]).Some? && ObjectOf(yaml(Documents(text)[i]).value, sd, ns, docs[i])
  }

  lemma {:induction false} DecodedObjects(yaml: Yaml, texts: seq<string>, sd: ServiceDefinition, ns: string)
    ensures var r := DecodeAll(yaml, texts, sd.provisionApiVersion, sd.provisionKind, ns);
      r.Some? ==> forall i | 0 <= i < |texts| :: yaml(texts[i]).Some? && ObjectOf(yaml(texts[i]).value, sd, ns, r.value[i])
  {
    if texts != [] {
      DecodedObjects(yaml, texts[..|texts| - 1], sd, ns);
    }
  }

  /** The objects of an instance are what the definition's template makes of that dot. */
  ghost predicate Renders(codec: Codec, sd: ServiceDefinition, id: string, ns: string, plan: Plan, user: Params, docs: seq<Doc>) {
    exists d, text {:trigger Sees(d, codec, id, plan, user), ObjectsOf(codec.yaml, text, sd, ns, docs)} ::
      && Sees(d, codec, id, plan, user)
      && codec.render(sd.provisionTemplate, d) == Some(text)
      && ObjectsOf(codec.yaml, text, sd, ns, docs)
  }

  lemma DesiredRenders(codec: Codec, sd: ServiceDefinition, id: string, ns: string, plan: Plan, user: Params, docs: seq<Doc>)
    requires Desired(codec, sd, id, ns, plan, user) == Ok(docs)
    ensures Renders(codec, sd, id, ns, plan, user, docs)
  {
    hide Documents, Sanitize;
    var d := DataFor(codec, id, plan.params, user);
    var text := codec.render(sd.provisionTemplate, d).value;
    DecodedObjects(codec.yaml, Documents(text), sd, ns);
    assert Sees(d, codec, id, plan, user) && ObjectsOf(codec.yaml, text, sd, ns, docs);
  }

  /** The record names the objects, in order, by reference and by name. */
  predicate RecordNames(rec: InstanceRecord, docs: seq<Doc>) {
    && |rec.appliedRefs| == |docs| && |rec.appliedObjects| == |docs|
    && forall i | 0 <= i < |docs| :: rec.appliedRefs[i] == docs[i].key && rec.appliedObjects[i] == docs[i].key.name
  }

  /** A provision that succeeds has rendered the template with the user's parameters over the
      plan's, and left these objects, recorded and in place. */
  lemma ProvisionedObjectsAreRendered(codec: Codec, env: WorldEnv, w: World, sd: ServiceDefinition,
                                      id: string, ns: string, planId: string, params: Params)
    returns (plan: Plan, docs: seq<Doc>)
    requires Provision(codec, env, w, sd, id, ns, planId, params).error.None?
    ensures plan in sd.plans && plan.id == planId && Renders(codec, sd, id, ns, plan, params, docs)
    ensures var o := Provision(codec, env, w, sd, id, ns, planId, params);
      && id in o.world.reg.records && RecordNames(o.world.reg.records[id], docs) && o.world.reg.records[id].parameters == params
      && (Distinct(Keys(docs)) ==> CarriesAll(o.world.api, docs))
  {
    hide Provision, Desired, Renders;
    docs := ProvisionSucceeds(codec, env, w, sd, id, ns, planId, params);
    plan := PlanById(sd, planId).value;
    DesiredRenders(codec, sd, id, ns, plan, params, docs);
  }

  /** An update that succeeds has put the sent parameters on top of the stored ones, and
      rendered the template with all of them over the plan's. */
  lemma UpdatedObjectsAreRendered(codec: Codec, env: WorldEnv, w: World, sd: ServiceDefinition,
                                  id: string, ns: string, sentPlan: string, sent: Params, rec: InstanceRecord)
    returns (plan: Plan, merged: Params, docs: seq<Doc>)
    requires Stores(w, id, rec) && !env.reg.readFails(w.reg.clock)
    requires Update(codec, env, w, sd, id, ns, sentPlan, sent).error.None?
    ensures OnTop(rec.parameters, sent, merged)
    ensures plan in sd.plans && plan.id == (if sentPlan != "" then sentPlan else rec.planId)
    ensures Renders(codec, sd, id, ns, plan, merged, docs)
    ensures var o := Update(codec, env, w, sd, id, ns, sentPlan, sent);
      && id in o.world.reg.records && o.world.reg.records[id].parameters == merged && o.world.reg.records[id].planId == plan.id
      && (RecordNames(o.world.reg.records[id], docs)
          || (o.world.reg.records[id].appliedRefs == rec.appliedRefs && o.world.reg.records[id].appliedObjects == rec.appliedObjects))
      && (Distinct(Keys(docs)) ==> CarriesAll(o.world.api, docs))
  {
    hide Update, Desired, Renders;
    var refs;
    docs, refs := UpdateEffect(codec, env, w, sd, id, ns, sentPlan, sent, rec);
    plan := PlanById(sd, TargetPlan(rec, sentPlan)).value;
    merged := TargetParams(rec, sent);
    DesiredRenders(codec, sd, id, ns, plan, merged, docs);
  }

  // --- a template that prints one key ---

  /** `{{ .plan.<key> }}`, put into the field "size" of one ConfigMap. */
  function PrintingCodec(key: string, fmt: Limits.FloatFormat, hash: string -> Hex8): Codec {
    Codec((template: string, d: TemplateData) => if key in d.plan && d.plan[key].Str? then Some(d.plan[key].s) else None,
          text => Some(Manifest("v1", "ConfigMap", "", "settings", Content(map[], map[], map["size" := Str(text)]))),
          fmt, hash)
  }

  lemma PrintedObject(key: string, fmt: Limits.FloatFormat, hash: string -> Hex8, sd: ServiceDefinition, id: string, ns: string, plan: Plan, user: Params, value: string, docs: seq<Doc>)
    requires key in user && user[key] == Str(value) && Joinable(value)
    requires Renders(PrintingCodec(key, fmt, hash), sd, id, ns, plan, user, docs)
    ensures docs == [Doc(Key("v1", "ConfigMap", ns, "settings"), Content(map[], map[], map["size" := Str(value)]))]
  {
    hide Joinable, Documents, Sanitize;
    var codec := PrintingCodec(key, fmt, hash);
    var d, text :| Sees(d, codec, id, plan, user) && codec.render(sd.provisionTemplate, d) == Some(text) && ObjectsOf(codec.yaml, text, sd, ns, docs);
    assert text == value;
    SplitInvertsJoin([value]);
    assert Join([value]) == value;
  }

  /** The value the user sends ends up on the object, whatever the plan says. */
  lemma SentValueEndsUpOnTheObject(key: string, fmt: Limits.FloatFormat, hash: string -> Hex8, env: WorldEnv, w: World, sd: ServiceDefinition,
                                   id: string, ns: string, planId: string, params: Params, value: string)
    requires key in params && params[key] == Str(value) && Joinable(value)
    requires Provision(PrintingCodec(key, fmt, hash), env, w, sd, id, ns, planId, params).error.None?
    ensures var k := Key("v1", "ConfigMap", ns, "settings");
      var objects := Provision(PrintingCodec(key, fmt, hash), env, w, sd, id, ns, planId, params).world.api.objects;
      && k in objects && "size" in objects[k].content.fields && objects[k].content.fields["size"] == Str(value)
  {
    hide Provision, Renders, Joinable;
    var plan, docs := ProvisionedObjectsAreRendered(PrintingCodec(key, fmt, hash), env, w, sd, id, ns, planId, params);
    PrintedObject(key, fmt, hash, sd, id, ns, plan, params, value, docs);
    OneObjectHolds(Provision(PrintingCodec(key, fmt, hash), env, w, sd, id, ns, planId, params).world.api, docs, value);
  }

  /** So does the value a PATCH sends, whatever was stored before. */
  lemma PatchedValueEndsUpOnTheObject(key: string, fmt: Limits.FloatFormat, hash: string -> Hex8, env: WorldEnv, w: World, sd: ServiceDefinition,
                                      id: string, ns: string, sentPlan: string, sent: Params, rec: InstanceRecord, value: string)
    requires key in sent && sent[key] == Str(value) && Joinable(value)
    requires Stores(w, id, rec) && !env.reg.readFails(w.reg.clock)
    requires Update(PrintingCodec(key, fmt, hash), env, w, sd, id, ns, sentPlan, sent).error.None?
    ensures var k := Key("v1", "ConfigMap", ns, "settings");
      var objects := Update(PrintingCodec(key, fmt, hash), env, w, sd, id, ns, sentPlan, sent).world.api.objects;
      && k in objects && "size" in objects[k].content.fields && objects[k].content.fields["size"] == Str(value)
  {
    hide Update, Renders, Joinable;
    var plan, merged, docs := UpdatedObjectsAreRendered(PrintingCodec(key, fmt, hash), env, w, sd, id, ns, sentPlan, sent, rec);
    PrintedObject(key, fmt, hash, sd, id, ns, plan, merged, value, docs);
    OneObjectHolds(Update(PrintingCodec(key, fmt, hash), env, w, sd, id, ns, sentPlan, sent).world.api, docs, value);
  }

  lemma OneObjectHolds(s: State, docs: seq<Doc>, value: string)
    requires |docs| == 1 && docs[0].content.fields == map["size" := Str(value)]
    requires Distinct(Keys(docs)) ==> CarriesAll(s, docs)
    ensures docs[0].key in s.objects
    ensures "size" in s.objects[docs[0].key].content.fields && s.objects[docs[0].key].content.fields["size"] == Str(value)
  {
    var o := s.objects[docs[0].key].content;
    ValuesEqualDecidesSameJson(Lookup(o.fields, "size"), Str(value));
  }
}
