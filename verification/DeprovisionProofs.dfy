/** Deprovision converges under retries, and a retaining plan never loses an object. */
module DeprovisionProofs {
  import opened Wrappers
  import opened Names
  import opened Definition
  import opened Api
  import opened Operator
  import opened OperatorProofs
  import opened Registry
  import opened Engine

  /** The request all attempts repeat. */
  datatype Request = Request(codec: Codec, sd: ServiceDefinition, ns: string, id: string, stamp: string)

  function Attempt(r: Request, env: WorldEnv, w: World): Outcome {
    Deprovision(r.codec, env, w, r.sd, r.ns, r.id, r.stamp)
  }

  /** The instance's plan asks for its objects to be kept. */
  predicate Keeps(sd: ServiceDefinition, rec: InstanceRecord) {
    exists p | p in sd.plans :: p.id == rec.planId != "" && p.retainOnDeprovision
  }

  /** It does not, or there is no such plan any more. */
  predicate GivesUp(sd: ServiceDefinition, rec: InstanceRecord) {
    forall p | p in sd.plans && p.id == rec.planId :: !p.retainOnDeprovision
  }

  /** What the definition says is what the engine goes by. */
  lemma PlanDecides(sd: ServiceDefinition, rec: InstanceRecord)
    ensures DistinctPlanIds(sd.plans) && Keeps(sd, rec) ==> PlanRetains(sd, Some(rec))
    ensures GivesUp(sd, rec) || rec.planId == "" ==> !PlanRetains(sd, Some(rec))
  {
    if Keeps(sd, rec) && DistinctPlanIds(sd.plans) {
      var p :| p in sd.plans && p.id == rec.planId != "" && p.retainOnDeprovision;
      var q := PlanById(sd, rec.planId).value;
      var i, j :| 0 <= i < |sd.plans| && 0 <= j < |sd.plans| && sd.plans[i] == p && sd.plans[j] == q;
      assert i == j;
    }
  }

  /** The objects an instance with this record consists of. */
  function Objects(r: Request, rec: InstanceRecord): seq<Key> {
    Resolved(RefsOf(r.codec, r.sd, Some(rec), r.id, r.ns), r.ns)
  }

  ghost predicate Recorded(r: Request, w: World, rec: InstanceRecord) {
    r.id in w.reg.records && w.reg.records[r.id] == rec
  }

  /** One attempt on a recorded instance of a plan that keeps nothing: it reports success
      only when every object and the record are gone, a failure only when the record still
      names what is left, and of the record alone only when no object is left. */
  lemma AttemptEffect(r: Request, env: WorldEnv, w: World, rec: InstanceRecord)
    requires Recorded(r, w, rec) && !env.reg.readFails(w.reg.clock) && !PlanRetains(r.sd, Some(rec))
    ensures var o := Attempt(r, env, w);
      && SameOutside(w.api, o.world.api, KeySet(Objects(r, rec)))
      && (forall k | k in Objects(r, rec) && k in o.world.api.objects :: k in w.api.objects)
      && (o.error.Some? ==> o.world.reg.records == w.reg.records && (o.error.value == RecordFailed || o.error.value.DeleteFailed?))
      && (o.error.None? ==> o.world.reg.records == w.reg.records - {r.id})
      && (o.error.None? || o.error.value == RecordFailed ==> forall k | k in Objects(r, rec) :: k !in o.world.api.objects)
  {
    var refs := RefsOf(r.codec, r.sd, Some(rec), r.id, r.ns);
    var d := DeleteAll(env.api, w.api, r.ns, refs);
    DeleteAllEffect(env.api, w.api, r.ns, refs);
    var ks := Resolved(refs, r.ns);
    assert ks[..|refs|] == ks;
    forall k ensures k !in KeySet(ks) ==> SameAt(w.api, d.state, k) {
      if k !in KeySet(ks) { assert k !in KeySet(ks[..d.count]); }
    }
    forall k | k in ks && k in d.state.objects ensures k in w.api.objects {
      assert k !in ks[..d.count];
      assert SameAt(w.api, d.state, k);
    }
  }

  /** The world after a series of attempts. */
  function After(r: Request, envs: seq<WorldEnv>, w: World): World {
    if envs == [] then w
    else
      var v := After(r, envs[..|envs| - 1], w);
      Attempt(r, envs[|envs| - 1], v).world
  }

  ghost predicate AllFail(r: Request, envs: seq<WorldEnv>, w: World) {
    envs != [] ==>
      && AllFail(r, envs[..|envs| - 1], w)
      && ReadsSucceed(envs[|envs| - 1].reg)
      && Attempt(r, envs[|envs| - 1], After(r, envs[..|envs| - 1], w)).error.Some?
  }

  lemma {:induction false} FailedAttemptsKeepTheRecord(r: Request, envs: seq<WorldEnv>, w: World, rec: InstanceRecord)
    requires Recorded(r, w, rec) && !PlanRetains(r.sd, Some(rec)) && AllFail(r, envs, w)
    ensures After(r, envs, w).reg.records == w.reg.records
    ensures SameOutside(w.api, After(r, envs, w).api, KeySet(Objects(r, rec)))
  {
    if envs != [] {
      var init := envs[..|envs| - 1];
      var v := After(r, init, w);
      FailedAttemptsKeepTheRecord(r, init, w, rec);
      AttemptEffect(r, envs[|envs| - 1], v, rec);
      var ks := KeySet(Objects(r, rec));
      SameOutsideChains(w.api, v.api, After(r, envs, w).api, ks, ks);
      assert ks + ks == ks;
    }
  }

  lemma CalmAttemptSucceeds(r: Request, env: WorldEnv, w: World, rec: InstanceRecord)
    requires Recorded(r, w, rec) && !PlanRetains(r.sd, Some(rec))
    requires Calm(env.api, w.api.clock) && RegCalm(env.reg, w.reg.clock)
    requires forall k | k in RefsOf(r.codec, r.sd, Some(rec), r.id, r.ns) :: ValidApiVersion(k.apiVersion)
    ensures Attempt(r, env, w).error.None?
  {
    CalmDeleteSucceeds(env.api, w.api, r.ns, RefsOf(r.codec, r.sd, Some(rec), r.id, r.ns));
  }

  /** Deprovision converges: however often it fails, and at whichever call, one undisturbed
      attempt afterwards ends where a single undisturbed attempt would have ended: no
      recorded object, no record, everything else as it was. */
  lemma DeprovisionConverges(r: Request, envs: seq<WorldEnv>, calm: WorldEnv, single: WorldEnv, w: World, rec: InstanceRecord)
    requires Recorded(r, w, rec) && GivesUp(r.sd, rec) && AllFail(r, envs, w)
    requires ReadsSucceed(calm.reg) && Calm(calm.api, After(r, envs, w).api.clock) && RegCalm(calm.reg, After(r, envs, w).reg.clock)
    requires ReadsSucceed(single.reg) && Calm(single.api, w.api.clock) && RegCalm(single.reg, w.reg.clock)
    requires forall k | k in RefsOf(r.codec, r.sd, Some(rec), r.id, r.ns) :: ValidApiVersion(k.apiVersion)
    ensures var retried, once := Attempt(r, calm, After(r, envs, w)), Attempt(r, single, w);
      && retried.error.None? && once.error.None?
      && retried.world.reg.records == once.world.reg.records == w.reg.records - {r.id}
      && SameOutside(retried.world.api, once.world.api, {})
      && forall k | k in Objects(r, rec) :: k !in retried.world.api.objects
  {
    var v := After(r, envs, w);
    PlanDecides(r.sd, rec);
    FailedAttemptsKeepTheRecord(r, envs, w, rec);
    CalmAttemptSucceeds(r, calm, v, rec);
    CalmAttemptSucceeds(r, single, w, rec);
    AttemptEffect(r, calm, v, rec);
    AttemptEffect(r, single, w, rec);
    var s, t := Attempt(r, calm, v).world.api, Attempt(r, single, w).world.api;
    forall k ensures SameAt(s, t, k) {
      if k !in KeySet(Objects(r, rec)) {
        assert SameAt(w.api, v.api, k) && SameAt(v.api, s, k) && SameAt(w.api, t, k);
      }
    }
  }

  /** Without a record in hand the fallback deletes one conventionally named object and
      reports success, so a failed registry read at the wrong moment leaks the others: the
      record is forgotten while a recorded object stays. */
  lemma FailedReadLeaks(r: Request, w: World, rec: InstanceRecord, leaked: Key)
    requires Recorded(r, w, rec) && leaked in w.api.objects && leaked in Objects(r, rec)
    requires leaked != Key(r.sd.provisionApiVersion, r.sd.provisionKind, OrElse(r.ns, r.ns), Sanitize(r.id, r.codec.hash))
    requires ValidApiVersion(r.sd.provisionApiVersion)
    ensures var env := WorldEnv(n => Quiet, RegEnv(n => n == w.reg.clock, n => false));
      var o := Attempt(r, env, w);
      o.error.None? && r.id !in o.world.reg.records && leaked in o.world.api.objects
  {
    var env := WorldEnv(n => Quiet, RegEnv(n => n == w.reg.clock, n => false));
    var refs := RefsOf(r.codec, r.sd, None, r.id, r.ns);
    var k := Key(r.sd.provisionApiVersion, r.sd.provisionKind, r.ns, Sanitize(r.id, r.codec.hash));
    assert refs == [k] && Resolve(k, r.ns) == k;
    assert refs[..0] == [];
    assert DeleteAll(env.api, w.api, r.ns, []) == Deleted(w.api, 0, None);
    CalmDeleteSucceeds(env.api, w.api, r.ns, refs);
    DeleteAllEffect(env.api, w.api, r.ns, refs);
    assert Resolved(refs, r.ns) == [k];
    assert [k][..1] == [k];
    assert SameAt(w.api, DeleteAll(env.api, w.api, r.ns, refs).state, leaked);
  }

  /** The one object deprovisioning looks for when it has no record. */
  function Fallback(r: Request): Key {
    Key(r.sd.provisionApiVersion, r.sd.provisionKind, r.ns, Sanitize(r.id, r.codec.hash))
  }

  lemma UnreadAttemptEffect(r: Request, env: WorldEnv, w: World)
    requires env.reg.readFails(w.reg.clock) && Attempt(r, env, w).error.None?
    ensures var o := Attempt(r, env, w);
      SameOutside(w.api, o.world.api, {Fallback(r)}) && Fallback(r) !in o.world.api.objects
  {
    var refs := RefsOf(r.codec, r.sd, None, r.id, r.ns);
    var k := Fallback(r);
    assert refs == [k] && Resolve(k, r.ns) == k;
    DeleteAllEffect(env.api, w.api, r.ns, refs);
    assert Resolved(refs, r.ns) == [k] && [k][..1] == [k];
  }

  /** Exactly when a success can be believed: an attempt that reports success has removed
      every object of the instance if and only if its registry read did not fail, or the
      conventionally named object was the only one there. */
  lemma SuccessRemovesEverythingIff(r: Request, env: WorldEnv, w: World, rec: InstanceRecord)
    requires Recorded(r, w, rec) && !PlanRetains(r.sd, Some(rec)) && Attempt(r, env, w).error.None?
    ensures (forall k | k in Objects(r, rec) :: k !in Attempt(r, env, w).world.api.objects) <==>
      !env.reg.readFails(w.reg.clock) || forall k | k in Objects(r, rec) && k != Fallback(r) :: k !in w.api.objects
  {
    var o := Attempt(r, env, w);
    if env.reg.readFails(w.reg.clock) {
      UnreadAttemptEffect(r, env, w);
      hide Attempt, Objects, Fallback;
      forall k | k in Objects(r, rec) ensures k !in o.world.api.objects <==> k == Fallback(r) || k !in w.api.objects {
        if k != Fallback(r) { assert SameAt(w.api, o.world.api, k); }
      }
    } else {
      AttemptEffect(r, env, w, rec);
    }
  }

  /** From the definition alone: an undisturbed deprovision of an instance whose plan does
      not ask for its objects to be kept, or is gone, leaves none of them and no record. */
  lemma UnkeptInstanceIsDeleted(r: Request, env: WorldEnv, w: World, rec: InstanceRecord)
    requires Recorded(r, w, rec) && GivesUp(r.sd, rec)
    requires Calm(env.api, w.api.clock) && RegCalm(env.reg, w.reg.clock)
    requires forall k | k in RefsOf(r.codec, r.sd, Some(rec), r.id, r.ns) :: ValidApiVersion(k.apiVersion)
    ensures var o := Attempt(r, env, w);
      && o.error.None? && o.world.reg.records == w.reg.records - {r.id}
      && forall k | k in Objects(r, rec) :: k !in o.world.api.objects
  {
    PlanDecides(r.sd, rec);
    CalmAttemptSucceeds(r, env, w, rec);
    AttemptEffect(r, env, w, rec);
  }

  /** Where the objects of an instance are: at its references, each in its own namespace or
      else the instance's; of an old record at its names, else at the one conventional name,
      in the kind the definition provisions. */
  lemma ObjectsAre(r: Request, rec: InstanceRecord)
    ensures rec.appliedRefs != [] ==>
      && |Objects(r, rec)| == |rec.appliedRefs|
      && forall i | 0 <= i < |rec.appliedRefs| ::
           var ref := rec.appliedRefs[i];
           Objects(r, rec)[i] == Key(ref.apiVersion, ref.kind, if ref.ns == "" then r.ns else ref.ns, ref.name)
    ensures rec.appliedRefs == [] && rec.appliedObjects != [] ==>
      && |Objects(r, rec)| == |rec.appliedObjects|
      && forall i | 0 <= i < |rec.appliedObjects| ::
           Objects(r, rec)[i] == Key(r.sd.provisionApiVersion, r.sd.provisionKind, r.ns, rec.appliedObjects[i])
    ensures rec.appliedRefs == [] && rec.appliedObjects == [] ==>
      Objects(r, rec) == [Key(r.sd.provisionApiVersion, r.sd.provisionKind, r.ns, Sanitize(r.id, r.codec.hash))]
  {
    hide Sanitize;
  }

  // --- retaining plans ---

  /** One attempt on an instance whose plan retains: no object goes, none is created, at
      most the two labels are merged in, and the record goes whenever the registry lets
      it, labelled or not. */
  lemma RetainingAttemptEffect(r: Request, env: WorldEnv, w: World, rec: InstanceRecord)
    requires Recorded(r, w, rec) && ReadsSucceed(env.reg) && PlanRetains(r.sd, Some(rec))
    requires Settled(w.api)
    ensures var o := Attempt(r, env, w);
      && Settled(o.world.api)
      && OnlyLabelled(w.api, o.world.api, RetainedLabels(r.id, r.stamp))
      && (if o.error == Some(RecordFailed) then o.world.reg.records == w.reg.records
          else o.world.reg.records == w.reg.records - {r.id})
      && (o.error.None? ==>
            forall k | k in Objects(r, rec) :: Labelled(o.world.api, k, RetainedLabels(r.id, r.stamp)))
  {
    var refs := RefsOf(r.codec, r.sd, Some(rec), r.id, r.ns);
    LabelAllEffect(env.api, w.api, r.ns, refs, RetainedLabels(r.id, r.stamp));
    assert Resolved([], r.ns) == [];
  }

  lemma UpdateCallFrame(env: Env, s: State, d: Doc, version: nat)
    ensures var u := UpdateCall(env, s, d, version).state;
      SameOutside(s, u, {d.key}) && u.objects.Keys == s.objects.Keys
  {
  }

  lemma GetCallFrame(env: Env, s: State, k: Key)
    ensures var u := GetCall(env, s, k).state;
      SameOutside(s, u, {k}) && u.objects.Keys == s.objects.Keys
  {
  }

  lemma {:induction false} LabelOneFrame(env: Env, s: State, k: Key, labels: map<string, string>, attempts: nat)
    ensures var u := LabelOne(env, s, k, labels, attempts).state;
      SameOutside(s, u, {k}) && u.objects.Keys == s.objects.Keys
    decreases attempts
  {
    if attempts > 0 {
      var got := GetCall(env, s, k);
      GetCallFrame(env, s, k);
      if got.result.Ok? {
        var o := got.result.value;
        var d := Doc(k, o.content.(labels := o.content.labels + labels));
        var put := UpdateCall(env, got.state, d, o.version);
        UpdateCallFrame(env, got.state, d, o.version);
        SameOutsideChains(s, got.state, put.state, {k}, {k});
        assert {k} + {k} == {k};
        if put.result == Err(Conflict) {
          LabelOneFrame(env, put.state, k, labels, attempts - 1);
          SameOutsideChains(s, put.state, LabelOne(env, put.state, k, labels, attempts - 1).state, {k}, {k});
        }
      }
    }
  }

  /** Labelling stays within the listed objects and neither creates nor deletes. */
  lemma {:induction false} LabelAllFrame(env: Env, s: State, ns: string, refs: seq<Key>, labels: map<string, string>)
    ensures var u := LabelAll(env, s, ns, refs, labels).0;
      SameOutside(s, u, KeySet(Resolved(refs, ns))) && u.objects.Keys == s.objects.Keys
  {
    if refs != [] {
      var init, ref := refs[..|refs| - 1], refs[|refs| - 1];
      var t := LabelAll(env, s, ns, init, labels).0;
      LabelAllFrame(env, s, ns, init, labels);
      assert SameOutside(s, t, KeySet(Resolved(init, ns)));
      LabelOneFrame(env, t, Resolve(ref, ns), labels, RETRIES);
      var u := LabelAll(env, s, ns, refs, labels).0;
      assert SameOutside(t, u, {Resolve(ref, ns)});
      SameOutsideChains(s, t, u, KeySet(Resolved(init, ns)), {Resolve(ref, ns)});
      assert Resolved(refs, ns) == Resolved(init, ns) + [Resolve(ref, ns)];
      assert KeySet(Resolved(refs, ns)) == KeySet(Resolved(init, ns)) + {Resolve(ref, ns)};
    }
  }

  /** What a whole run of attempts may do to an object: both labels may have been set,
      every other label and every field is as it was. */
  predicate KeptObject(before: Obj, after: Obj) {
    && after.uid == before.uid
    && after.content.fields == before.content.fields && after.content.annotations == before.content.annotations
    && forall l | l in before.content.labels ::
         l in after.content.labels
         && (l != LABEL_RETAINED_INSTANCE && l != LABEL_RETAINED_AT ==> after.content.labels[l] == before.content.labels[l])
  }

  ghost predicate KeptObjects(s: State, t: State) {
    s.objects.Keys == t.objects.Keys && forall k | k in s.objects :: KeptObject(s.objects[k], t.objects[k])
  }

  /** The platform repeats a deprovision as long as the broker still knows the instance;
      afterwards the handler answers 410 before the engine is asked. */
  function AfterRetaining(r: Request, envs: seq<(WorldEnv, string)>, w: World): World {
    if envs == [] then w
    else
      var v := AfterRetaining(r, envs[..|envs| - 1], w);
      var (env, stamp) := envs[|envs| - 1];
      if r.id !in v.reg.records then v else Attempt(r.(stamp := stamp), env, v).world
  }

  ghost predicate AllReadsSucceed(envs: seq<(WorldEnv, string)>) {
    forall i | 0 <= i < |envs| :: ReadsSucceed(envs[i].0.reg)
  }

  /** No run of deprovision attempts on a retaining plan deletes anything, loses a foreign
      label or changes a field, whatever fails on the way and whenever each attempt is
      made. */
  lemma {:induction false} RetainingRunKeepsEverything(r: Request, envs: seq<(WorldEnv, string)>, w: World, rec: InstanceRecord)
    requires Recorded(r, w, rec) && DistinctPlanIds(r.sd.plans) && Keeps(r.sd, rec) && Settled(w.api) && AllReadsSucceed(envs)
    ensures var v := AfterRetaining(r, envs, w);
      && Settled(v.api) && KeptObjects(w.api, v.api)
      && (r.id in v.reg.records ==> Recorded(r, v, rec))
  {
    if envs != [] {
      var init := envs[..|envs| - 1];
      var v := AfterRetaining(r, init, w);
      assert AllReadsSucceed(init);
      RetainingRunKeepsEverything(r, init, w, rec);
      PlanDecides(r.sd, rec);
      var (env, stamp) := envs[|envs| - 1];
      if r.id in v.reg.records {
        RetainingAttemptEffect(r.(stamp := stamp), env, v, rec);
        var u := AfterRetaining(r, envs, w);
        forall k | k in w.api.objects ensures KeptObject(w.api.objects[k], u.api.objects[k]) {
          LabelledIsKept(w.api.objects[k], v.api.objects[k], u.api.objects[k], r.id, stamp);
        }
      }
    }
  }

  lemma LabelledIsKept(a: Obj, b: Obj, c: Obj, id: string, stamp: string)
    requires KeptObject(a, b) && AtMostLabelled(b, c, RetainedLabels(id, stamp))
    ensures KeptObject(a, c)
  {
  }

  /** One attempt, from the definition alone: an instance whose plan asks for it keeps every
      object, and once the deprovision is reported done each carries the instance's id and
      the time. */
  lemma KeptInstanceIsMarked(r: Request, env: WorldEnv, w: World, rec: InstanceRecord)
    requires Recorded(r, w, rec) && DistinctPlanIds(r.sd.plans) && Keeps(r.sd, rec)
    requires ReadsSucceed(env.reg) && Settled(w.api)
    ensures var o := Attempt(r, env, w);
      && KeptObjects(w.api, o.world.api)
      && (o.error.None? ==>
            && r.id !in o.world.reg.records
            && forall k | k in Objects(r, rec) ::
                 && k in o.world.api.objects
                 && var labels := o.world.api.objects[k].content.labels;
                    && "osb.io/retained-instance" in labels && labels["osb.io/retained-instance"] == r.id
                    && "osb.io/retained-at" in labels && labels["osb.io/retained-at"] == r.stamp)
  {
    hide Objects;
    PlanDecides(r.sd, rec);
    RetainingAttemptEffect(r, env, w, rec);
    var o := Attempt(r, env, w);
    assert |LABEL_RETAINED_INSTANCE| != |LABEL_RETAINED_AT|;
    forall k | k in w.api.objects ensures KeptObject(w.api.objects[k], o.world.api.objects[k]) {
      LabelledIsKept(w.api.objects[k], w.api.objects[k], o.world.api.objects[k], r.id, r.stamp);
    }
  }

  /** What an attempt with no record in hand does to the objects there: it deletes the
      conventionally named one, if its version can be parsed and the call goes through, and
      nothing else. The broker's own handler never gets here for an id that is not on
      record (Protocol.UnrecordedInstanceIsGone), and for one that is only through a failed
      read. */
  lemma UnrecordedAttemptDeletesIff(r: Request, env: WorldEnv, w: World, k: Key)
    requires r.id !in w.reg.records || env.reg.readFails(w.reg.clock)
    requires k in w.api.objects
    ensures k !in Attempt(r, env, w).world.api.objects <==>
      k == Fallback(r) && ValidApiVersion(r.sd.provisionApiVersion) && !env.api(w.api.clock).Fault?
  {
    hide ValidApiVersion, Sanitize;
    var refs := RefsOf(r.codec, r.sd, None, r.id, r.ns);
    var f := Fallback(r);
    assert refs == [f] && Resolve(f, r.ns) == f;
    assert refs[..0] == [];
    assert DeleteAll(env.api, w.api, r.ns, []) == Deleted(w.api, 0, None);
  }

  /** The engine relies on that 410: asked once more after it has forgotten a retaining
      instance, it no longer knows the plan and deletes the conventionally named object. */
  lemma AskedAgainTheEngineDeletes(r: Request, w: World)
    requires r.id !in w.reg.records && ValidApiVersion(r.sd.provisionApiVersion)
    requires Key(r.sd.provisionApiVersion, r.sd.provisionKind, r.ns, Sanitize(r.id, r.codec.hash)) in w.api.objects
    ensures var env := WorldEnv(n => Quiet, RegEnv(n => false, n => false));
      Key(r.sd.provisionApiVersion, r.sd.provisionKind, r.ns, Sanitize(r.id, r.codec.hash)) !in Attempt(r, env, w).world.api.objects
  {
    var env := WorldEnv(n => Quiet, RegEnv(n => false, n => false));
    var refs := RefsOf(r.codec, r.sd, None, r.id, r.ns);
    var k := Key(r.sd.provisionApiVersion, r.sd.provisionKind, r.ns, Sanitize(r.id, r.codec.hash));
    assert refs == [k] && Resolved(refs, r.ns) == [k];
    CalmDeleteSucceeds(env.api, w.api, r.ns, refs);
    DeleteAllEffect(env.api, w.api, r.ns, refs);
    assert [k][..1] == [k];
  }
}
