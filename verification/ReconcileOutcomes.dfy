/** What a reconcile comes to, outcome by outcome (ReconcileInstance in
    internal/definition/reconcile.go). */
module ReconcileOutcomes {
  import opened Wrappers
  import opened Json
  import opened Definition
  import opened Validation
  import opened Render
  import opened Api
  import opened Operator
  import opened OperatorProofs
  import opened Registry
  import opened Engine
  import opened UpdateProofs
  import opened ReconcileProofs

  /** What drift is: a label that differs, or a field the document names that is missing or
      has another value. */
  lemma CarriesMeans(live: Content, want: Content)
    ensures Carries(live, want) <==>
      && live.labels == want.labels
      && forall f | f in want.fields ::
           if f in live.fields then SameJson(live.fields[f], want.fields[f]) else want.fields[f] == Null
  {
    forall f | f in want.fields
      ensures ValuesEqual(Lookup(live.fields, f), want.fields[f]) <==>
        if f in live.fields then SameJson(live.fields[f], want.fields[f]) else want.fields[f] == Null
    {
      ValuesEqualDecidesSameJson(Lookup(live.fields, f), want.fields[f]);
    }
  }

  /** A record is unresolvable exactly when it lacks id or namespace, or its service or plan is
      not in the definitions in force. */
  lemma UnresolvableIff(codec: Codec, env: WorldEnv, w: World, defs: map<string, ServiceDefinition>, rec: InstanceRecord)
    ensures Reconcile(codec, env, w, defs, rec).1 == RUnresolvable <==>
      || rec.id == "" || rec.ns == "" || rec.serviceId !in defs
      || forall p | p in defs[rec.serviceId].plans :: p.id != rec.planId
  {
    hide Present, ManifestsUpToDateSpec, Update, Desired;
  }

  /** Whatever fails, "up-to-date" is said only of objects that carry what the definition in
      force renders of the stored parameters. */
  lemma UpToDateMeansCarried(codec: Codec, env: WorldEnv, w: World, defs: map<string, ServiceDefinition>, rec: InstanceRecord)
    returns (plan: Plan, docs: seq<Doc>)
    requires Reconcile(codec, env, w, defs, rec).1 == RUpToDate
    ensures rec.serviceId in defs && plan in defs[rec.serviceId].plans && plan.id == rec.planId
    ensures Desired(codec, defs[rec.serviceId], rec.id, rec.ns, plan, rec.parameters) == Ok(docs)
    ensures docs != [] && CarriesAll(w.api, docs)
  {
    hide Desired, Update, CarriesAll;
    var sd := defs[rec.serviceId];
    plan := PlanById(sd, rec.planId).value;
    docs := Desired(codec, sd, rec.id, rec.ns, plan, rec.parameters).value;
    var refs := RefsOf(codec, sd, Some(rec), rec.id, rec.ns);
    var present := Present(env.api, w.api, refs);
    PresentEffect(env.api, w.api, refs);
    UpToDateIsReadOnlyAndSound(env.api, present.state, docs);
    CarriedBefore(w.api, present.state, docs);
  }

  lemma CarriedBefore(s: State, t: State, docs: seq<Doc>)
    requires SameOutside(s, t, {})
    ensures CarriesAll(s, docs) <==> CarriesAll(t, docs)
  {
    forall i | 0 <= i < |docs|
      ensures docs[i].key in s.objects <==> docs[i].key in t.objects
      ensures docs[i].key in s.objects ==> s.objects[docs[i].key].content == t.objects[docs[i].key].content
    {
      assert SameAt(s, t, docs[i].key);
    }
  }

  /** Undisturbed, looking for the objects finds out whether any is there. */
  lemma {:induction false} CalmPresent(env: Env, s: State, refs: seq<Key>)
    requires Calm(env, s.clock) && forall k | k in refs :: ValidApiVersion(k.apiVersion)
    ensures var p := Present(env, s, refs);
      && p.state.objects == s.objects && p.state.clock >= s.clock
      && p.result == Ok(exists k :: k in refs && k in s.objects)
  {
    if refs != [] {
      var init, last := refs[..|refs| - 1], refs[|refs| - 1];
      CalmPresent(env, s, init);
      assert forall k :: k in refs <==> k in init || k == last;
      assert env(Present(env, s, init).state.clock).Quiet?;
    }
  }

  /** The definition in force can serve the stored configuration, and renders it as `docs`. */
  ghost predicate Serves(codec: Codec, defs: map<string, ServiceDefinition>, rec: InstanceRecord, plan: Plan, docs: seq<Doc>) {
    && rec.id != "" && rec.ns != "" && rec.serviceId in defs
    && var sd := defs[rec.serviceId];
       && DistinctPlanIds(sd.plans) && plan in sd.plans && plan.id == rec.planId
       && AllowedIn(plan, rec.parameters, codec.fmt)
       && Desired(codec, sd, rec.id, rec.ns, plan, rec.parameters) == Ok(docs)
       && docs != [] && Distinct(Keys(docs)) && Reachable(docs)
       && forall k | k in RefsOf(codec, sd, Some(rec), rec.id, rec.ns) :: ValidApiVersion(k.apiVersion)
  }

  lemma ServedPlan(sd: ServiceDefinition, plan: Plan)
    requires DistinctPlanIds(sd.plans) && plan in sd.plans
    ensures PlanById(sd, plan.id) == Some(plan)
  {
    var q := PlanById(sd, plan.id).value;
    var i, j :| 0 <= i < |sd.plans| && 0 <= j < |sd.plans| && sd.plans[i] == plan && sd.plans[j] == q;
    assert i == j;
  }

  /** What an undisturbed reconcile does: nothing when no object is left, nothing when the
      objects carry the rendering, and otherwise it repairs them. */
  lemma CalmReconcileRepairs(codec: Codec, env: WorldEnv, w: World, defs: map<string, ServiceDefinition>, rec: InstanceRecord,
                             plan: Plan, docs: seq<Doc>)
    requires Serves(codec, defs, rec, plan, docs) && Stores(w, rec.id, rec)
    requires Calm(env.api, w.api.clock) && RegCalm(env.reg, w.reg.clock)
    ensures var (v, result) := Reconcile(codec, env, w, defs, rec);
      if forall k | k in RefsOf(codec, defs[rec.serviceId], Some(rec), rec.id, rec.ns) :: k !in w.api.objects
      then result == RObjectsMissing && v.api.objects == w.api.objects
      else if CarriesAll(w.api, docs) then result == RUpToDate && v.api.objects == w.api.objects
      else result == RApplied && CarriesAll(v.api, docs)
  {
    hide Desired, Update, ManifestsUpToDateSpec, Present, RefsOf, CarriesAll, Reachable;
    var sd := defs[rec.serviceId];
    ServedPlan(sd, plan);
    var refs := RefsOf(codec, sd, Some(rec), rec.id, rec.ns);
    CalmPresent(env.api, w.api, refs);
    var w1 := w.(api := Present(env.api, w.api, refs).state);
    CarriedThere(w.api, w1.api, docs);
    CalmPresentRepairs(codec, env, w1, sd, plan, rec, docs);
  }

  lemma CarriedThere(s: State, t: State, docs: seq<Doc>)
    requires s.objects == t.objects
    ensures CarriesAll(s, docs) <==> CarriesAll(t, docs)
  {
  }

  lemma CalmPresentRepairs(codec: Codec, env: WorldEnv, w: World, sd: ServiceDefinition, plan: Plan, rec: InstanceRecord, docs: seq<Doc>)
    requires PlanById(sd, rec.planId) == Some(plan) && AllowedIn(plan, rec.parameters, codec.fmt)
    requires Desired(codec, sd, rec.id, rec.ns, plan, rec.parameters) == Ok(docs)
    requires docs != [] && Distinct(Keys(docs)) && Reachable(docs) && Stores(w, rec.id, rec)
    requires Calm(env.api, w.api.clock) && RegCalm(env.reg, w.reg.clock)
    ensures var (v, result) := ReconcilePresent(codec, env, w, sd, plan, rec);
      if CarriesAll(w.api, docs) then result == RUpToDate && v.api.objects == w.api.objects
      else result == RApplied && CarriesAll(v.api, docs)
  {
    hide Desired, Update, CarriesAll, Reachable, AllowedIn;
    UpToDateIsComplete(env.api, w.api, docs);
    var (api, same) := ManifestsUpToDateSpec(env.api, w.api, docs);
    if !same {
      var w1 := w.(api := api);
      OverlayLaws(rec.parameters, map[], map[]);
      assert Servable(codec, sd, rec, rec.id, rec.ns, rec.planId, map[], docs);
      CalmUpdateSucceeds(codec, env, w1, sd, rec.id, rec.ns, rec.planId, map[], rec, docs);
      var d, _ := UpdateEffect(codec, env, w1, sd, rec.id, rec.ns, rec.planId, map[], rec);
      assert d == docs;
    }
  }
}
