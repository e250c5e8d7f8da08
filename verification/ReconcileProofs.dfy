/** The reconciler is careful: it never deletes, never resurrects, and keeps what the user
    asked for, as long as the registry can be read. */
module ReconcileProofs {
  import opened Wrappers
  import opened Json
  import opened Definition
  import opened Validation
  import opened Render
  import opened Api
  import opened Operator
  import opened OperatorProofs
  import opened Registry
  import opened Engine
  import opened UpdateProofs

  lemma {:induction false} PresentEffect(env: Env, s: State, refs: seq<Key>)
    ensures var p := Present(env, s, refs);
      && SameOutside(s, p.state, {})
      && (p.result == Ok(true) ==> exists k | k in refs :: k in s.objects)
      && (p.result == Ok(false) ==> forall k | k in refs :: k !in s.objects)
  {
    if refs != [] {
      var init, k := refs[..|refs| - 1], refs[|refs| - 1];
      var before := Present(env, s, init);
      PresentEffect(env, s, init);
      if before.result == Ok(false) {
        var got := GetCall(env, before.state, k);
        SameOutsideChains(s, before.state, got.state, {}, {});
        assert SameAt(s, got.state, k);
        assert forall x | x in refs :: x in init || x == k;
      }
    }
  }

  /** Nothing that existed is gone or has been replaced by another object. */
  ghost predicate NothingLost(s: State, t: State) {
    forall k | k in s.objects :: k in t.objects && t.objects[k].uid == s.objects[k].uid
  }

  lemma CallsLoseNothing(env: Env, s: State, d: Doc, version: nat)
    ensures NothingLost(s, GetCall(env, s, d.key).state)
    ensures NothingLost(s, CreateCall(env, s, d).state)
    ensures NothingLost(s, UpdateCall(env, s, d, version).state)
  {
  }

  lemma {:induction false} ApplyOneLosesNothing(env: Env, s: State, d: Doc, attempts: nat)
    ensures NothingLost(s, ApplyOne(env, s, d, attempts).state)
    decreases attempts
  {
    if attempts > 0 {
      var got := GetCall(env, s, d.key);
      var version := if got.result.Ok? then got.result.value.version else 0;
      CallsLoseNothing(env, s, d, version);
      CallsLoseNothing(env, got.state, d, version);
      if got.result.Ok? {
        ApplyOneLosesNothing(env, UpdateCall(env, got.state, d, version).state, d, attempts - 1);
      }
    }
  }

  lemma {:induction false} ApplyAllLosesNothing(env: Env, s: State, docs: seq<Doc>)
    ensures NothingLost(s, ApplyAll(env, s, docs).state)
  {
    if docs != [] {
      var before := ApplyAll(env, s, docs[..|docs| - 1]);
      ApplyAllLosesNothing(env, s, docs[..|docs| - 1]);
      if before.error.None? {
        ApplyOneLosesNothing(env, before.state, docs[|docs| - 1], RETRIES);
      }
    }
  }

  lemma ReadingLosesNothing(s: State, t: State)
    requires SameOutside(s, t, {})
    ensures NothingLost(s, t)
  {
    forall k | k in s.objects ensures k in t.objects && t.objects[k].uid == s.objects[k].uid {
      assert SameAt(s, t, k);
    }
  }

  lemma ConvergeLosesNothing(env: Env, s: State, docs: seq<Doc>)
    ensures NothingLost(s, Converge(env, s, docs).state)
  {
    var (t, same) := ManifestsUpToDateSpec(env, s, docs);
    UpToDateIsReadOnlyAndSound(env, s, docs);
    ReadingLosesNothing(s, t);
    if !same {
      ApplyAllLosesNothing(env, t, docs);
    }
  }

  /** No update, successful or failed, with or without a record, deletes an object. */
  lemma UpdateLosesNothing(codec: Codec, env: WorldEnv, w: World, sd: ServiceDefinition,
                           id: string, ns: string, sentPlan: string, sent: Params)
    ensures NothingLost(w.api, Update(codec, env, w, sd, id, ns, sentPlan, sent).world.api)
  {
    var (reg, rec) := RegGet(env.reg, w.reg, id);
    var planId := if sentPlan == "" && rec.Some? then rec.value.planId else sentPlan;
    var plan := PlanById(sd, planId);
    var merged := if rec.Some? then Overlay(rec.value.parameters, sent) else sent;
    if plan.Some? && AllowedIn(plan.value, merged, codec.fmt) {
      var d := Desired(codec, sd, id, ns, plan.value, merged);
      if d.Ok? {
        ConvergeLosesNothing(env.api, w.api, d.value);
      }
    }
  }

  /** Reconcile never deletes; it creates only beside an object of the instance that is
      still there; and it writes nothing at all when it reports up-to-date, unresolvable or
      objects-missing. All of this holds for any record it is handed, stale or not, and
      whatever fails. */
  lemma ReconcileIsCareful(codec: Codec, env: WorldEnv, w: World, defs: map<string, ServiceDefinition>, rec: InstanceRecord)
    ensures var (v, result) := Reconcile(codec, env, w, defs, rec);
      && NothingLost(w.api, v.api)
      && ((exists k :: k in v.api.objects && k !in w.api.objects) ==>
            rec.serviceId in defs
            && exists k | k in RefsOf(codec, defs[rec.serviceId], Some(rec), rec.id, rec.ns) :: k in w.api.objects)
      && (result in {RUpToDate, RUnresolvable, RObjectsMissing} ==>
            SameOutside(w.api, v.api, {}) && v.reg == w.reg)
      && (result == RObjectsMissing ==>
            forall k | k in RefsOf(codec, defs[rec.serviceId], Some(rec), rec.id, rec.ns) :: k !in w.api.objects)
  {
    if rec.id != "" && rec.ns != "" && rec.serviceId in defs {
      var sd := defs[rec.serviceId];
      var plan := PlanById(sd, rec.planId);
      if plan.Some? {
        var refs := RefsOf(codec, sd, Some(rec), rec.id, rec.ns);
        var p := Present(env.api, w.api, refs);
        PresentEffect(env.api, w.api, refs);
        ReadingLosesNothing(w.api, p.state);
        if p.result == Ok(true) {
          ReconcilePresentLosesNothing(codec, env, w.(api := p.state), sd, plan.value, rec);
          var (v, result) := ReconcilePresent(codec, env, w.(api := p.state), sd, plan.value, rec);
          if result == RUpToDate {
            SameOutsideChains(w.api, p.state, v.api, {}, {});
          }
        } else {
          forall k ensures k in p.state.objects ==> k in w.api.objects {
            assert SameAt(w.api, p.state, k);
          }
        }
      }
    }
  }

  lemma ReconcilePresentLosesNothing(codec: Codec, env: WorldEnv, w: World, sd: ServiceDefinition, plan: Plan, rec: InstanceRecord)
    ensures var (v, result) := ReconcilePresent(codec, env, w, sd, plan, rec);
      && NothingLost(w.api, v.api)
      && (result == RUpToDate ==> SameOutside(w.api, v.api, {}) && v.reg == w.reg)
      && result !in {RUnresolvable, RObjectsMissing}
  {
    var d := Desired(codec, sd, rec.id, rec.ns, plan, rec.parameters);
    if d.Ok? {
      var (api, same) := ManifestsUpToDateSpec(env.api, w.api, d.value);
      UpToDateIsReadOnlyAndSound(env.api, w.api, d.value);
      ReadingLosesNothing(w.api, api);
      if !same {
        UpdateLosesNothing(codec, env, w.(api := api), sd, rec.id, rec.ns, rec.planId, map[]);
      }
    }
  }

  /** Plan, parameters, namespace and offering of every record are what they were, and only
      this instance's record may differ at all. */
  ghost predicate ConfigurationKept(w: World, v: World, rec: InstanceRecord) {
    && v.reg.records.Keys == w.reg.records.Keys
    && (forall id | id in w.reg.records && id != rec.id :: v.reg.records[id] == w.reg.records[id])
    && rec.id in v.reg.records
    && var now := v.reg.records[rec.id];
       && now.id == rec.id && now.planId == rec.planId && now.parameters == rec.parameters
       && now.ns == rec.ns && now.serviceId == rec.serviceId
  }

  /** The stored configuration, rendered by the definition in force now, is `docs`. */
  ghost predicate RendersAs(codec: Codec, sd: ServiceDefinition, rec: InstanceRecord, docs: seq<Doc>) {
    Servable(codec, sd, rec, rec.id, rec.ns, rec.planId, map[], docs)
  }

  /** What "applied" means: the record states the version of the definition in force, its
      references are the old ones or those just applied, and every object carries the
      rendering of the stored configuration. */
  ghost predicate Brought(codec: Codec, v: World, sd: ServiceDefinition, rec: InstanceRecord, docs: seq<Doc>) {
    && RendersAs(codec, sd, rec, docs)
    && rec.id in v.reg.records
    && v.reg.records[rec.id].maintenanceVersion == MaintenanceVersion(sd, rec.planId)
    && v.reg.records[rec.id].appliedRefs in {rec.appliedRefs, Keys(docs)}
    && (Distinct(Keys(docs)) ==> CarriesAll(v.api, docs))
  }

  lemma ReconcilePresentKeeps(codec: Codec, env: WorldEnv, w: World, sd: ServiceDefinition, plan: Plan, rec: InstanceRecord)
    returns (docs: seq<Doc>)
    requires Stores(w, rec.id, rec) && ReadsSucceed(env.reg) && PlanById(sd, rec.planId) == Some(plan)
    ensures var (v, result) := ReconcilePresent(codec, env, w, sd, plan, rec);
      && ConfigurationKept(w, v, rec)
      && (result != RApplied ==> v.reg.records == w.reg.records)
      && (result == RApplied ==> Brought(codec, v, sd, rec, docs))
      && SameOutside(w.api, v.api, KeySet(Keys(docs)))
      && (docs != [] ==> RendersAs(codec, sd, rec, docs))
  {
    docs := [];
    var d := Desired(codec, sd, rec.id, rec.ns, plan, rec.parameters);
    if d.Ok? {
      var (api, same) := ManifestsUpToDateSpec(env.api, w.api, d.value);
      UpToDateIsReadOnlyAndSound(env.api, w.api, d.value);
      OverlayLaws(rec.parameters, map[], map[]);
      if !same {
        var w1 := w.(api := api);
        var d1, refs := UpdateEffect(codec, env, w1, sd, rec.id, rec.ns, rec.planId, map[], rec);
        var o := Update(codec, env, w1, sd, rec.id, rec.ns, rec.planId, map[]);
        if RendersAs(codec, sd, rec, d1) {
          docs := d1;
        }
        assert SameOutside(api, o.world.api, KeySet(Keys(docs)));
        SameOutsideChains(w.api, api, o.world.api, {}, KeySet(Keys(docs)));
        assert {} + KeySet(Keys(docs)) == KeySet(Keys(docs));
        assert TargetPlan(rec, rec.planId) == rec.planId;
      }
    }
  }

  /** Reconciling a stored record, with the registry readable: plan and user parameters stay
      as they are, no other record changes, only objects of this instance's rendering are
      written, and "applied" means brought to the definition in force. */
  lemma ReconcileKeepsTheConfiguration(codec: Codec, env: WorldEnv, w: World, defs: map<string, ServiceDefinition>, rec: InstanceRecord)
    returns (docs: seq<Doc>)
    requires Stores(w, rec.id, rec) && ReadsSucceed(env.reg)
    ensures var (v, result) := Reconcile(codec, env, w, defs, rec);
      && ConfigurationKept(w, v, rec)
      && (result != RApplied ==> v.reg.records == w.reg.records)
      && (result == RApplied ==> rec.serviceId in defs && Brought(codec, v, defs[rec.serviceId], rec, docs))
      && SameOutside(w.api, v.api, KeySet(Keys(docs)))
      && (docs != [] ==> rec.serviceId in defs && RendersAs(codec, defs[rec.serviceId], rec, docs))
  {
    docs := [];
    if rec.id != "" && rec.ns != "" && rec.serviceId in defs && PlanById(defs[rec.serviceId], rec.planId).Some? {
      var sd := defs[rec.serviceId];
      var refs := RefsOf(codec, sd, Some(rec), rec.id, rec.ns);
      var p := Present(env.api, w.api, refs);
      PresentEffect(env.api, w.api, refs);
      if p.result == Ok(true) {
        var w1 := w.(api := p.state);
        docs := ReconcilePresentKeeps(codec, env, w1, sd, PlanById(sd, rec.planId).value, rec);
        var (v, result) := ReconcilePresent(codec, env, w1, sd, PlanById(sd, rec.planId).value, rec);
        assert Reconcile(codec, env, w, defs, rec) == (v, result);
        SameOutsideChains(w.api, p.state, v.api, {}, KeySet(Keys(docs)));
        assert {} + KeySet(Keys(docs)) == KeySet(Keys(docs));
      }
    }
  }

  // --- when the registry cannot be read ---

  /** What applying `bare` leaves behind carries `wanted` as well. */
  ghost predicate CarriedAlong(bare: seq<Doc>, wanted: seq<Doc>)
    requires |bare| == |wanted|
  {
    forall i | 0 <= i < |bare| :: Carries(Stored(bare[i].content), wanted[i].content)
  }

  /** The definition renders the stored configuration as `wanted` and the plan alone as
      `bare`, naming the same objects. */
  ghost predicate Renders(codec: Codec, sd: ServiceDefinition, rec: InstanceRecord, plan: Plan, wanted: seq<Doc>, bare: seq<Doc>) {
    && PlanById(sd, rec.planId) == Some(plan) && AllowedIn(plan, map[], codec.fmt)
    && Desired(codec, sd, rec.id, rec.ns, plan, rec.parameters) == Ok(wanted)
    && Desired(codec, sd, rec.id, rec.ns, plan, map[]) == Ok(bare)
    && wanted != [] && Keys(bare) == Keys(wanted) && Distinct(Keys(bare)) && Reachable(wanted) && Reachable(bare)
  }

  lemma UnreadReconcile(codec: Codec, env: WorldEnv, w: World, sd: ServiceDefinition, rec: InstanceRecord, plan: Plan, wanted: seq<Doc>, bare: seq<Doc>)
    requires Renders(codec, sd, rec, plan, wanted, bare) && env.reg.readFails(w.reg.clock)
    ensures var (api, same) := ManifestsUpToDateSpec(env.api, w.api, wanted);
      var (v, result) := ReconcilePresent(codec, env, w, sd, plan, rec);
      if same then result == RUpToDate
      else
        var a := Converge(env.api, api, bare);
        v.api == a.state && v.reg.records == w.reg.records && result == if a.error.Some? then RFailed else RApplied
  {
    hide ManifestsUpToDateSpec, Converge, Desired, AllowedIn, PlanById;
  }

  /** What stands after converging on `bare` in a calm cluster. */
  lemma ConvergedCarries(env: Env, s: State, bare: seq<Doc>, wanted: seq<Doc>)
    requires Calm(env, s.clock) && Reachable(bare) && Keys(bare) == Keys(wanted) && Distinct(Keys(bare)) && bare != []
    ensures var a := Converge(env, s, bare);
      && a.error.None? && CarriesAll(a.state, bare)
      && (CarriesAll(a.state, wanted) <==> if CarriesAll(s, bare) then CarriesAll(s, wanted) else CarriedAlong(bare, wanted))
  {
    hide Carries, Stored;
    CalmConvergeSucceeds(env, s, bare);
    ConvergeEffect(env, s, bare);
    UpToDateIsComplete(env, s, bare);
    var (t, same) := ManifestsUpToDateSpec(env, s, bare);
    if !same {
      var a := ApplyAll(env, t, bare);
      ApplyAllStores(env, t, bare);
      forall i | 0 <= i < |bare|
        ensures wanted[i].key in a.state.objects && a.state.objects[wanted[i].key].content == Stored(bare[i].content)
      {
        assert Keys(bare)[i] == Keys(wanted)[i];
      }
    }
  }

  /** Exactly when a reported "applied" means the user's configuration: in a calm cluster the
      objects carry the rendering of the stored parameters if and only if the registry read
      worked, or the plan's own rendering had to be written and carries the user's along. */
  lemma AppliedMeansConfiguredIff(codec: Codec, env: WorldEnv, w: World, sd: ServiceDefinition, rec: InstanceRecord, plan: Plan,
                                  wanted: seq<Doc>, bare: seq<Doc>)
    requires Renders(codec, sd, rec, plan, wanted, bare) && Stores(w, rec.id, rec) && Calm(env.api, w.api.clock)
    requires ReconcilePresent(codec, env, w, sd, plan, rec).1 == RApplied
    ensures CarriesAll(ReconcilePresent(codec, env, w, sd, plan, rec).0.api, wanted) <==>
      !env.reg.readFails(w.reg.clock) || (!CarriesAll(w.api, bare) && CarriedAlong(bare, wanted))
  {
    hide CarriesAll, CarriedAlong, Reachable, Converge, Update;
    var (api, same) := ManifestsUpToDateSpec(env.api, w.api, wanted);
    UpToDateIsComplete(env.api, w.api, wanted);
    SameObjectsCarryTheSame(w.api, api, wanted);
    SameObjectsCarryTheSame(w.api, api, bare);
    if env.reg.readFails(w.reg.clock) {
      UnreadReconcile(codec, env, w, sd, rec, plan, wanted, bare);
      ConvergedCarries(env.api, api, bare, wanted);
    } else {
      OverlayLaws(rec.parameters, map[], map[]);
      var docs, refs := UpdateEffect(codec, env, w.(api := api), sd, rec.id, rec.ns, rec.planId, map[], rec);
      ServedDocs(codec, sd, rec, plan, wanted, docs);
    }
  }

  lemma SameObjectsCarryTheSame(s: State, t: State, docs: seq<Doc>)
    requires s.objects == t.objects
    ensures CarriesAll(s, docs) <==> CarriesAll(t, docs)
  {
  }

  lemma ServedDocs(codec: Codec, sd: ServiceDefinition, rec: InstanceRecord, plan: Plan, wanted: seq<Doc>, docs: seq<Doc>)
    requires PlanById(sd, rec.planId) == Some(plan) && Desired(codec, sd, rec.id, rec.ns, plan, rec.parameters) == Ok(wanted)
    requires Servable(codec, sd, rec, rec.id, rec.ns, rec.planId, map[], docs)
    ensures docs == wanted
  {
    OverlayLaws(rec.parameters, map[], map[]);
    assert TargetPlan(rec, rec.planId) == rec.planId;
  }

  /** Nothing interferes, but the registry read number `at` fails. */
  function OneFailedRead(at: nat): WorldEnv {
    WorldEnv(n => Quiet, RegEnv(n => n == at, n => false))
  }

  /** So a failed read loses the user's values, and says "applied", whenever the plan alone
      renders some label or field differently. */
  lemma FailedReadDropsUserParameters(codec: Codec, w: World, sd: ServiceDefinition, rec: InstanceRecord, plan: Plan,
                                      wanted: seq<Doc>, bare: seq<Doc>, i: nat)
    requires i < |bare| == |wanted|
    requires Renders(codec, sd, rec, plan, wanted, bare) && Stores(w, rec.id, rec) && !CarriesAll(w.api, wanted)
    requires !Carries(Stored(bare[i].content), wanted[i].content)
    ensures var env := OneFailedRead(w.reg.clock);
      var (v, result) := ReconcilePresent(codec, env, w, sd, plan, rec);
      && result == RApplied && CarriesAll(v.api, bare) && !CarriesAll(v.api, wanted)
      && v.reg.records == w.reg.records
  {
    hide CarriesAll, Carries, Stored, Reachable, Converge;
    var env := OneFailedRead(w.reg.clock);
    var (api, same) := ManifestsUpToDateSpec(env.api, w.api, wanted);
    UpToDateIsComplete(env.api, w.api, wanted);
    SameObjectsCarryTheSame(w.api, api, wanted);
    SameObjectsCarryTheSame(w.api, api, bare);
    UnreadReconcile(codec, env, w, sd, rec, plan, wanted, bare);
    ConvergedCarries(env.api, api, bare, wanted);
  }
}
