/** Provision either leaves a recorded instance whose objects carry the rendering, or it
    leaves no record and takes back what it applied. */
module ProvisionProofs {
  import opened Wrappers
  import opened Json
  import opened Definition
  import opened Validation
  import opened Api
  import opened Operator
  import opened OperatorProofs
  import opened Registry
  import opened Engine

  /** The failure a report is about, whatever went wrong while cleaning up after it. */
  function Cause(e: EngineError): EngineError {
    match e
    case CleanupIncomplete(c) => c
    case _ => e
  }

  /** Why the attempt stopped, reported word for word: all documents before the next one
      were applied and that one failed with this error, or everything was applied and the
      record could not be written. */
  ghost predicate StoppedBecause(env: WorldEnv, w: World, cause: EngineError, docs: seq<Doc>, applied: seq<Key>) {
    || FailedAt(env.api, w.api, cause, docs, applied)
    || (cause == RecordFailed && applied == Keys(docs) && ApplyAll(env.api, w.api, docs).error.None? && env.reg.writeFails(w.reg.clock))
  }

  ghost predicate FailedAt(env: Env, s: State, cause: EngineError, docs: seq<Doc>, applied: seq<Key>) {
    var n := |applied|;
    && n < |docs|
    && var before := ApplyAll(env, s, docs[..n]);
       && before.error.None? && before.refs == applied
       && var next := ApplyOne(env, before.state, docs[n], RETRIES);
          next.result.Err? && cause == ApplyFailed(next.result.error)
  }

  lemma {:induction false} ApplyStopsAtTheFirstFailure(env: Env, s: State, docs: seq<Doc>)
    requires ApplyAll(env, s, docs).error.Some?
    ensures var a := ApplyAll(env, s, docs); FailedAt(env, s, ApplyFailed(a.error.value), docs, a.refs)
  {
    hide ApplyOne;
    var n := |docs| - 1;
    var before := ApplyAll(env, s, docs[..n]);
    ApplyAllEffect(env, s, docs[..n]);
    if before.error.Some? {
      ApplyStopsAtTheFirstFailure(env, s, docs[..n]);
      assert docs[..n][..|before.refs|] == docs[..|before.refs|];
    }
  }

  /** The state after a failed attempt that had applied `applied` and then deleted the
      first `removed` of them again. */
  ghost predicate TakenBack(before: State, after: State, applied: seq<Key>, removed: nat) {
    && removed <= |applied|
    && SameOutside(before, after, KeySet(applied))
    && (forall k | k in applied[..removed] :: k !in after.objects)
    && (forall k | k in applied && k !in applied[..removed] :: k in after.objects)
  }

  /** The references that an apply records are already resolved. */
  predicate Namespaced(ks: seq<Key>, ns: string) {
    forall k | k in ks :: Resolve(k, ns) == k
  }

  lemma {:induction false} DecodedAreNamespaced(yaml: Yaml, texts: seq<string>, apiVersion: string, kind: string, ns: string)
    ensures var r := DecodeAll(yaml, texts, apiVersion, kind, ns);
      r.Some? ==> Namespaced(Keys(r.value), ns)
  {
    if texts != [] {
      DecodedAreNamespaced(yaml, texts[..|texts| - 1], apiVersion, kind, ns);
      var r := DecodeAll(yaml, texts, apiVersion, kind, ns);
      if r.Some? {
        var init := DecodeAll(yaml, texts[..|texts| - 1], apiVersion, kind, ns).value;
        assert Keys(r.value) == Keys(init) + [r.value[|init|].key];
      }
    }
  }

  lemma DesiredAreNamespaced(codec: Codec, sd: ServiceDefinition, id: string, ns: string, plan: Plan, params: Params)
    ensures var r := Desired(codec, sd, id, ns, plan, params);
      r.Ok? ==> Namespaced(Keys(r.value), ns)
  {
    var text := codec.render(sd.provisionTemplate, DataFor(codec, id, plan.params, params));
    if text.Some? {
      DecodedAreNamespaced(codec.yaml, Manifests.Documents(text.value), sd.provisionApiVersion, sd.provisionKind, ns);
    }
  }

  lemma ResolvedNamespaced(ks: seq<Key>, ns: string)
    requires Namespaced(ks, ns)
    ensures Resolved(ks, ns) == ks
  {
    forall i | 0 <= i < |ks| ensures Resolved(ks, ns)[i] == ks[i] {
      assert ks[i] in ks;
    }
  }

  /** Rolling back deletes a prefix of what was applied, all of it unless it says
      otherwise, and never changes which failure is reported. */
  lemma RollbackTakesBack(env: WorldEnv, before: State, w: World, ns: string, refs: seq<Key>, cause: EngineError)
    returns (removed: nat)
    requires Namespaced(refs, ns) && !cause.CleanupIncomplete?
    requires SameOutside(before, w.api, KeySet(refs)) && forall k | k in refs :: k in w.api.objects
    ensures var o := Rollback(env, w, ns, refs, cause);
      && o.error.Some? && Cause(o.error.value) == cause
      && o.world.reg == w.reg
      && TakenBack(before, o.world.api, refs, removed)
      && (!o.error.value.CleanupIncomplete? ==> removed == |refs|)
  {
    ResolvedNamespaced(refs, ns);
    if |refs| == 0 {
      removed := 0;
    } else {
      var d := DeleteAll(env.api, w.api, ns, refs);
      DeleteAllEffect(env.api, w.api, ns, refs);
      removed := d.count;
      SameOutsideChains(before, w.api, d.state, KeySet(refs), KeySet(refs[..removed]));
      assert KeySet(refs) + KeySet(refs[..removed]) == KeySet(refs);
      forall k | k in refs && k !in refs[..removed] ensures k in d.state.objects {
        assert SameAt(w.api, d.state, k);
      }
    }
  }

  /** Provisioning the decoded documents: recorded and carried, or taken back. */
  lemma ProvisionDocsOutcome(env: WorldEnv, w: World, ns: string, docs: seq<Doc>, rec: InstanceRecord)
    returns (applied: seq<Key>, removed: nat)
    requires Namespaced(Keys(docs), ns)
    ensures var o := ProvisionDocs(env, w, ns, docs, rec);
      && applied <= Keys(docs)
      && (o.error.None? ==>
            && o.world.reg.records == w.reg.records[rec.id := rec.(appliedObjects := RefNames(Keys(docs)), appliedRefs := Keys(docs))]
            && SameOutside(w.api, o.world.api, KeySet(Keys(docs)))
            && (Distinct(Keys(docs)) ==> CarriesAll(o.world.api, docs)))
      && (o.error.Some? ==>
            && o.world.reg.records == w.reg.records
            && TakenBack(w.api, o.world.api, applied, removed)
            && StoppedBecause(env, w, Cause(o.error.value), docs, applied)
            && (!o.error.value.CleanupIncomplete? ==> removed == |applied|))
  {
    var a := ApplyAll(env.api, w.api, docs);
    ApplyAllEffect(env.api, w.api, docs);
    applied, removed := a.refs, 0;
    assert Namespaced(applied, ns);
    if a.error.Some? {
      ApplyStopsAtTheFirstFailure(env.api, w.api, docs);
      removed := RollbackTakesBack(env, w.api, w.(api := a.state), ns, a.refs, ApplyFailed(a.error.value));
    } else {
      assert a.refs == Keys(docs) && docs[..|a.refs|] == docs;
      var (reg, ok) := RegPut(env.reg, w.reg, rec.(appliedObjects := RefNames(a.refs), appliedRefs := a.refs));
      if !ok {
        removed := RollbackTakesBack(env, w.api, World(a.state, reg), ns, a.refs, RecordFailed);
      }
    }
  }

  /** Provision is failure-atomic. Whatever call fails, a failed attempt writes no record
      and the cluster differs from before only in objects of the applied prefix: all of
      them are gone if the cleanup worked, otherwise a suffix of them remains, and the
      first failure is the one reported. */
  lemma ProvisionIsFailureAtomic(codec: Codec, env: WorldEnv, w: World, sd: ServiceDefinition,
                                 id: string, ns: string, planId: string, params: Params)
    returns (docs: seq<Doc>, applied: seq<Key>, removed: nat)
    ensures var o := Provision(codec, env, w, sd, id, ns, planId, params);
      o.error.Some? ==>
        && o.world.reg.records == w.reg.records
        && (docs != [] ==> PlanById(sd, planId).Some? && Desired(codec, sd, id, ns, PlanById(sd, planId).value, params) == Ok(docs))
        && applied <= Keys(docs)
        && TakenBack(w.api, o.world.api, applied, removed)
        && (!o.error.value.CleanupIncomplete? ==> removed == |applied|)
        && (if Cause(o.error.value).ApplyFailed? || Cause(o.error.value) == RecordFailed
            then StoppedBecause(env, w, Cause(o.error.value), docs, applied) else o.world == w)
  {
    docs, applied, removed := [], [], 0;
    var plan := PlanById(sd, planId);
    if plan.Some? && AllowedIn(plan.value, params, codec.fmt) {
      var d := Desired(codec, sd, id, ns, plan.value, params);
      if d.Ok? {
        docs := d.value;
        DesiredAreNamespaced(codec, sd, id, ns, plan.value, params);
        applied, removed := ProvisionDocsOutcome(env, w, ns, docs, NewRecord(sd, id, ns, planId, params, []));
      }
    }
  }

  /** A cleaned-up failure restores the cluster exactly when nothing of the applied prefix
      existed before: the rollback deletes by name and cannot tell its own objects from
      those it had overwritten. */
  lemma RollbackRestoresIffNothingWasThere(before: State, after: State, applied: seq<Key>)
    requires TakenBack(before, after, applied, |applied|)
    ensures SameOutside(before, after, {}) <==> forall k | k in applied :: k !in before.objects
  {
    assert applied[..|applied|] == applied;
    if SameOutside(before, after, {}) {
      forall k | k in applied ensures k !in before.objects {
        assert SameAt(before, after, k);
      }
    }
    if forall k | k in applied :: k !in before.objects {
      forall k ensures SameAt(before, after, k) {
      }
    }
  }

  /** And it does destroy: in an undisturbed cluster a failing record write alone makes the
      provision delete an object of its manifest that was there before. */
  lemma FailedRecordDestroysWhatWasThere(codec: Codec, env: WorldEnv, w: World, sd: ServiceDefinition,
                                         id: string, ns: string, planId: string, params: Params, docs: seq<Doc>, k: Key)
    requires PlanById(sd, planId).Some? && AllowedIn(PlanById(sd, planId).value, params, codec.fmt)
    requires Desired(codec, sd, id, ns, PlanById(sd, planId).value, params) == Ok(docs) && Reachable(docs)
    requires Calm(env.api, w.api.clock) && env.reg.writeFails(w.reg.clock)
    requires k in Keys(docs) && k in w.api.objects
    ensures var o := Provision(codec, env, w, sd, id, ns, planId, params);
      o.error == Some(RecordFailed) && o.world.reg.records == w.reg.records && k !in o.world.api.objects
  {
    hide AllowedIn, Desired, PlanById, ApplyAll, DeleteAll;
    var a := ApplyAll(env.api, w.api, docs);
    CalmApplySucceeds(env.api, w.api, docs);
    ApplyAllEffect(env.api, w.api, docs);
    DesiredAreNamespaced(codec, sd, id, ns, PlanById(sd, planId).value, params);
    ResolvedNamespaced(Keys(docs), ns);
    assert a.refs == Keys(docs);
    forall x | x in Keys(docs) ensures ValidApiVersion(x.apiVersion) {
      var i :| 0 <= i < |docs| && Keys(docs)[i] == x;
      assert docs[i].key == x;
    }
    CalmDeleteSucceeds(env.api, a.state, ns, Keys(docs));
    DeleteAllEffect(env.api, a.state, ns, Keys(docs));
    assert Keys(docs)[..|Keys(docs)|] == Keys(docs);
  }

  /** A successful provision: the plan was known, the parameters allowed, the record is the
      only one that changed, and every object carries the rendering it records. */
  lemma ProvisionSucceeds(codec: Codec, env: WorldEnv, w: World, sd: ServiceDefinition,
                          id: string, ns: string, planId: string, params: Params)
    returns (docs: seq<Doc>)
    requires Provision(codec, env, w, sd, id, ns, planId, params).error.None?
    ensures var o := Provision(codec, env, w, sd, id, ns, planId, params);
      && PlanById(sd, planId).Some? && AllowedIn(PlanById(sd, planId).value, params, codec.fmt)
      && Desired(codec, sd, id, ns, PlanById(sd, planId).value, params) == Ok(docs)
      && o.world.reg.records == w.reg.records[id := NewRecord(sd, id, ns, planId, params, Keys(docs))]
      && SameOutside(w.api, o.world.api, KeySet(Keys(docs)))
      && (Distinct(Keys(docs)) ==> CarriesAll(o.world.api, docs))
  {
    var plan := PlanById(sd, planId).value;
    docs := Desired(codec, sd, id, ns, plan, params).value;
    DesiredAreNamespaced(codec, sd, id, ns, plan, params);
    var _, _ := ProvisionDocsOutcome(env, w, ns, docs, NewRecord(sd, id, ns, planId, params, []));
  }
}
