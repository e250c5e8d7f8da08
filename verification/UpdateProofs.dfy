/** Update leaves objects, record and parameters in step, can be repeated for free, and
    heals by repetition. */
module UpdateProofs {
  import opened Wrappers
  import opened Json
  import opened Definition
  import opened Validation
  import opened Render
  import opened Api
  import opened Operator
  import opened OperatorProofs
  import opened Registry
  import opened Engine

  /** The checked-then-applied manifest: nothing outside it changes, and afterwards every
      object carries its document, whether it was written or found that way. */
  lemma ConvergeEffect(env: Env, s: State, docs: seq<Doc>)
    ensures var a := Converge(env, s, docs);
      && SameOutside(s, a.state, KeySet(Keys(docs)))
      && (a.refs == [] || a.refs == Keys(docs) || a.error.Some?)
      && (a.error.None? && Distinct(Keys(docs)) ==> CarriesAll(a.state, docs))
  {
    var (t, same) := ManifestsUpToDateSpec(env, s, docs);
    UpToDateIsReadOnlyAndSound(env, s, docs);
    assert SameOutside(s, t, {});
    if same {
      CarriesAllIsStable(s, t, docs, {});
    } else {
      var a := ApplyAll(env, t, docs);
      ApplyAllEffect(env, t, docs);
      SameOutsideChains(s, t, a.state, {}, KeySet(a.refs));
      assert KeySet(a.refs) <= KeySet(Keys(docs));
      assert forall k | k !in KeySet(Keys(docs)) :: k !in {} + KeySet(a.refs);
      if a.error.None? { assert docs[..|a.refs|] == docs; }
    }
  }

  /** An undisturbed convergence succeeds. */
  lemma CalmConvergeSucceeds(env: Env, s: State, docs: seq<Doc>)
    requires Calm(env, s.clock) && Reachable(docs)
    ensures Converge(env, s, docs).error.None?
    ensures CarriesAll(s, docs) && docs != [] ==> Converge(env, s, docs).refs == [] && Converge(env, s, docs).state.objects == s.objects
  {
    UpToDateIsComplete(env, s, docs);
    var (t, same) := ManifestsUpToDateSpec(env, s, docs);
    if !same {
      CalmApplySucceeds(env, t, docs);
    }
  }

  /** The plan a PATCH ends up on and the parameters it ends up with. */
  function TargetPlan(rec: InstanceRecord, sentPlan: string): string {
    if sentPlan == "" then rec.planId else sentPlan
  }

  function TargetParams(rec: InstanceRecord, sent: Params): Params {
    Overlay(rec.parameters, sent)
  }

  /** The request is one the definition can serve: plan known, merged parameters allowed,
      manifest rendered. */
  ghost predicate Servable(codec: Codec, sd: ServiceDefinition, rec: InstanceRecord, id: string, ns: string,
                           sentPlan: string, sent: Params, docs: seq<Doc>)
  {
    var plan := PlanById(sd, TargetPlan(rec, sentPlan));
    && plan.Some?
    && AllowedIn(plan.value, TargetParams(rec, sent), codec.fmt)
    && Desired(codec, sd, id, ns, plan.value, TargetParams(rec, sent)) == Ok(docs)
  }

  ghost predicate Stores(w: World, id: string, rec: InstanceRecord) {
    id in w.reg.records && w.reg.records[id] == rec && rec.id == id
  }

  lemma RenderingErrors(codec: Codec, sd: ServiceDefinition, id: string, ns: string, plan: Plan, params: Params)
    ensures var d := Desired(codec, sd, id, ns, plan, params);
      d.Err? ==> !d.error.ApplyFailed? && d.error != RecordFailed
  {
  }

  /** An update of a recorded instance is either refused by the checks, which touches
      nothing, or comes down to writing the rendered documents and the record. */
  lemma UpdateUnfolds(codec: Codec, env: WorldEnv, w: World, sd: ServiceDefinition,
                      id: string, ns: string, sentPlan: string, sent: Params, rec: InstanceRecord)
    returns (docs: seq<Doc>)
    requires Stores(w, id, rec) && !env.reg.readFails(w.reg.clock)
    ensures var o := Update(codec, env, w, sd, id, ns, sentPlan, sent);
      var read := w.(reg := w.reg.(clock := w.reg.clock + 1));
      if Servable(codec, sd, rec, id, ns, sentPlan, sent, docs)
      then o == UpdateDocs(env, read, sd, docs, Some(rec), TargetPlan(rec, sentPlan), TargetParams(rec, sent))
      else o.error.Some? && !o.error.value.ApplyFailed? && o.error.value != RecordFailed && o.world == read
  {
    hide UpdateDocs, AllowedIn, Desired, PlanById;
    docs := [];
    var plan := PlanById(sd, TargetPlan(rec, sentPlan));
    if plan.Some? && AllowedIn(plan.value, TargetParams(rec, sent), codec.fmt) {
      var d := Desired(codec, sd, id, ns, plan.value, TargetParams(rec, sent));
      RenderingErrors(codec, sd, id, ns, plan.value, TargetParams(rec, sent));
      if d.Ok? {
        docs := d.value;
      }
    }
  }

  lemma ServableUpdateIs(codec: Codec, env: WorldEnv, w: World, sd: ServiceDefinition,
                         id: string, ns: string, sentPlan: string, sent: Params, rec: InstanceRecord, docs: seq<Doc>)
    requires Stores(w, id, rec) && !env.reg.readFails(w.reg.clock)
    requires Servable(codec, sd, rec, id, ns, sentPlan, sent, docs)
    ensures Update(codec, env, w, sd, id, ns, sentPlan, sent) ==
      UpdateDocs(env, w.(reg := w.reg.(clock := w.reg.clock + 1)), sd, docs, Some(rec), TargetPlan(rec, sentPlan), TargetParams(rec, sent))
  {
    hide UpdateDocs, Desired;
  }

  lemma UpdateDocsEffect(env: WorldEnv, w: World, sd: ServiceDefinition, docs: seq<Doc>,
                         rec: InstanceRecord, planId: string, params: Params)
    returns (refs: seq<Key>)
    ensures var o := UpdateDocs(env, w, sd, docs, Some(rec), planId, params);
      && SameOutside(w.api, o.world.api, KeySet(Keys(docs)))
      && (refs == [] || refs == Keys(docs))
      && (o.error.None? ==>
            && o.world.reg.records == w.reg.records[rec.id := UpdatedRecord(rec, sd, planId, params, refs)]
            && (Distinct(Keys(docs)) ==> CarriesAll(o.world.api, docs)))
      && (o.error.Some? ==> o.world.reg.records == w.reg.records)
  {
    ConvergeEffect(env.api, w.api, docs);
    var a := Converge(env.api, w.api, docs);
    refs := if a.error.None? then a.refs else [];
  }

  /** An update of a recorded instance either refuses without touching anything, or serves
      the request: it changes only objects of the manifest, and reports success only when
      the record and every object are on the new state. A failure leaves the record alone. */
  lemma UpdateEffect(codec: Codec, env: WorldEnv, w: World, sd: ServiceDefinition,
                     id: string, ns: string, sentPlan: string, sent: Params, rec: InstanceRecord)
    returns (docs: seq<Doc>, refs: seq<Key>)
    requires Stores(w, id, rec) && !env.reg.readFails(w.reg.clock)
    ensures var o := Update(codec, env, w, sd, id, ns, sentPlan, sent);
      && (o.error.None? ==>
            && Servable(codec, sd, rec, id, ns, sentPlan, sent, docs)
            && (refs == [] || refs == Keys(docs))
            && o.world.reg.records == w.reg.records[id := UpdatedRecord(rec, sd, TargetPlan(rec, sentPlan), TargetParams(rec, sent), refs)]
            && (Distinct(Keys(docs)) ==> CarriesAll(o.world.api, docs)))
      && (o.error.Some? ==> o.world.reg.records == w.reg.records)
      && (if Servable(codec, sd, rec, id, ns, sentPlan, sent, docs)
          then SameOutside(w.api, o.world.api, KeySet(Keys(docs)))
          else o.error.Some? && o.world.api == w.api)
  {
    refs := [];
    docs := UpdateUnfolds(codec, env, w, sd, id, ns, sentPlan, sent, rec);
    if Servable(codec, sd, rec, id, ns, sentPlan, sent, docs) {
      refs := UpdateDocsEffect(env, w.(reg := w.reg.(clock := w.reg.clock + 1)), sd, docs, rec,
                               TargetPlan(rec, sentPlan), TargetParams(rec, sent));
    }
  }

  /** An undisturbed PATCH that can be served succeeds. */
  lemma CalmUpdateSucceeds(codec: Codec, env: WorldEnv, w: World, sd: ServiceDefinition,
                           id: string, ns: string, sentPlan: string, sent: Params, rec: InstanceRecord, docs: seq<Doc>)
    requires Stores(w, id, rec) && Servable(codec, sd, rec, id, ns, sentPlan, sent, docs) && Reachable(docs)
    requires Calm(env.api, w.api.clock) && RegCalm(env.reg, w.reg.clock)
    ensures Update(codec, env, w, sd, id, ns, sentPlan, sent).error.None?
  {
    CalmConvergeSucceeds(env.api, w.api, docs);
  }

  /** A failed PATCH is repaired by sending it again: after any failure beyond the checks,
      one undisturbed repetition succeeds, leaves the record the first attempt would have
      left, and every object carries the rendering of that record. */
  lemma RetryRepairsFailedUpdate(codec: Codec, first: WorldEnv, again: WorldEnv, w: World, sd: ServiceDefinition,
                                 id: string, ns: string, sentPlan: string, sent: Params, rec: InstanceRecord, docs: seq<Doc>)
    returns (refs: seq<Key>)
    requires Stores(w, id, rec) && Servable(codec, sd, rec, id, ns, sentPlan, sent, docs)
    requires Reachable(docs) && Distinct(Keys(docs))
    requires !first.reg.readFails(w.reg.clock)
    requires Update(codec, first, w, sd, id, ns, sentPlan, sent).error.Some?
    requires var v := Update(codec, first, w, sd, id, ns, sentPlan, sent).world;
      Calm(again.api, v.api.clock) && RegCalm(again.reg, v.reg.clock)
    ensures var v := Update(codec, first, w, sd, id, ns, sentPlan, sent).world;
      var o := Update(codec, again, v, sd, id, ns, sentPlan, sent);
      && o.error.None?
      && (refs == [] || refs == Keys(docs))
      && o.world.reg.records == w.reg.records[id := UpdatedRecord(rec, sd, TargetPlan(rec, sentPlan), TargetParams(rec, sent), refs)]
      && CarriesAll(o.world.api, docs)
      && SameOutside(w.api, o.world.api, KeySet(Keys(docs)))
  {
    var v := Update(codec, first, w, sd, id, ns, sentPlan, sent).world;
    var d0, _ := UpdateEffect(codec, first, w, sd, id, ns, sentPlan, sent, rec);
    assert d0 == docs || !Servable(codec, sd, rec, id, ns, sentPlan, sent, d0);
    assert SameOutside(w.api, v.api, KeySet(Keys(docs))) by {
      ConvergeEffect(first.api, w.api, docs);
    }
    CalmUpdateSucceeds(codec, again, v, sd, id, ns, sentPlan, sent, rec, docs);
    var d1, r1 := UpdateEffect(codec, again, v, sd, id, ns, sentPlan, sent, rec);
    assert d1 == docs;
    refs := r1;
    var o := Update(codec, again, v, sd, id, ns, sentPlan, sent);
    var ks := KeySet(Keys(docs));
    SameOutsideChains(w.api, v.api, o.world.api, ks, ks);
    assert ks + ks == ks;
  }

  /** Update is idempotent: after a successful PATCH, and whatever status the operators
      have written since, the same PATCH writes no object at all and leaves the record
      exactly as it was. */
  lemma RepeatedUpdateIsFree(codec: Codec, first: WorldEnv, again: WorldEnv, w: World, v: World, sd: ServiceDefinition,
                             id: string, ns: string, sentPlan: string, sent: Params, rec: InstanceRecord, docs: seq<Doc>)
    requires Stores(w, id, rec) && !first.reg.readFails(w.reg.clock)
    requires Servable(codec, sd, rec, id, ns, sentPlan, sent, docs)
    requires docs != [] && Reachable(docs) && Distinct(Keys(docs))
    requires var o := Update(codec, first, w, sd, id, ns, sentPlan, sent);
      o.error.None? && SameOutside(o.world.api, v.api, {}) && v.reg.records == o.world.reg.records
    requires Calm(again.api, v.api.clock) && RegCalm(again.reg, v.reg.clock)
    ensures var o := Update(codec, again, v, sd, id, ns, sentPlan, sent);
      && o.error.None?
      && o.world.api.objects == v.api.objects
      && o.world.reg.records == v.reg.records
  {
    hide Update, UpdateDocs, Desired;
    var o := Update(codec, first, w, sd, id, ns, sentPlan, sent);
    var d, refs := UpdateEffect(codec, first, w, sd, id, ns, sentPlan, sent, rec);
    assert d == docs;
    var rec' := UpdatedRecord(rec, sd, TargetPlan(rec, sentPlan), TargetParams(rec, sent), refs);
    assert Stores(v, id, rec');
    CarriesAllIsStable(o.world.api, v.api, docs, {});
    RepeatedRecordIsTheSame(rec, sd, sentPlan, sent, refs);
    assert Servable(codec, sd, rec', id, ns, sentPlan, sent, docs);
    ServableUpdateIs(codec, again, v, sd, id, ns, sentPlan, sent, rec', docs);
    CalmRepetitionIsFree(again, v.(reg := v.reg.(clock := v.reg.clock + 1)), sd, docs, rec',
                         TargetPlan(rec', sentPlan), TargetParams(rec', sent));
  }

  lemma CalmRepetitionIsFree(env: WorldEnv, w: World, sd: ServiceDefinition, docs: seq<Doc>, rec: InstanceRecord, planId: string, params: Params)
    requires docs != [] && Reachable(docs) && CarriesAll(w.api, docs)
    requires Calm(env.api, w.api.clock) && !env.reg.writeFails(w.reg.clock)
    requires rec.id in w.reg.records && w.reg.records[rec.id] == rec && UpdatedRecord(rec, sd, planId, params, []) == rec
    ensures var o := UpdateDocs(env, w, sd, docs, Some(rec), planId, params);
      o.error.None? && o.world.api.objects == w.api.objects && o.world.reg.records == w.reg.records
  {
    CalmConvergeSucceeds(env.api, w.api, docs);
  }

  lemma RepeatedRecordIsTheSame(rec: InstanceRecord, sd: ServiceDefinition, sentPlan: string, sent: Params, refs: seq<Key>)
    ensures var rec' := UpdatedRecord(rec, sd, TargetPlan(rec, sentPlan), TargetParams(rec, sent), refs);
      && TargetPlan(rec', sentPlan) == TargetPlan(rec, sentPlan)
      && TargetParams(rec', sent) == TargetParams(rec, sent)
      && UpdatedRecord(rec', sd, TargetPlan(rec', sentPlan), TargetParams(rec', sent), []) == rec'
  {
    OverlayLaws(rec.parameters, sent, sent);
  }

  /** After an applied, non-empty manifest the comparison says "up to date". */
  lemma AppliedIsUpToDate(env: Env, s: State, docs: seq<Doc>, later: Env, t: State)
    requires docs != [] && Reachable(docs) && Distinct(Keys(docs))
    requires ApplyAll(env, s, docs).error.None? && SameOutside(ApplyAll(env, s, docs).state, t, {})
    requires Calm(later, t.clock)
    ensures ManifestsUpToDateSpec(later, t, docs).1
    ensures ManifestsUpToDateSpec(later, t, docs).0.objects == t.objects
  {
    var a := ApplyAll(env, s, docs);
    ApplyAllEffect(env, s, docs);
    assert docs[..|a.refs|] == docs;
    CarriesAllIsStable(a.state, t, docs, {});
    UpToDateIsComplete(later, t, docs);
  }
}
