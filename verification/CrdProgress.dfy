/** When nothing fails the custom-resource store answers, and what it holds is determined
    by the records alone. */
module CrdProgress {
  import opened Json
  import opened Names
  import opened Api
  import opened StateStore
  import opened CrdStore
  import opened CrdProofs

  ghost predicate Unhindered(env: CrEnv, from: nat) {
    forall n: nat | n >= from :: env(n).Still?
  }

  lemma UnhinderedPutCr(env: CrEnv, s: CrState, k: CrKey, initial: map<string, string>, merged: map<string, string>, body: Body, attempts: nat)
    requires Unhindered(env, s.clock) && attempts > 0
    ensures PutCr(env, s, k, initial, merged, body, attempts).result.Ok?
    ensures PutCr(env, s, k, initial, merged, body, attempts).state.clock == s.clock + 2
  {
    assert env(s.clock).Still? && env(s.clock + 1).Still?;
  }

  lemma UnhinderedDropCr(env: CrEnv, s: CrState, k: CrKey)
    requires Unhindered(env, s.clock)
    ensures DropCr(env, s, k).result.Ok? && DropCr(env, s, k).state.clock == s.clock + 1
  {
    assert env(s.clock).Still?;
  }

  /** Everything the operation has to store can be expressed in JSON. */
  predicate Writable(sha: Sha, op: StoreOp) {
    match op
    case PutI(_, i) => InstanceToSpec(i).Ok?
    case PutB(_, b) => BindingToSpec(b, SecretNameFor(sha, b)).Ok? && (|b.credentials| > 0 ==> Encodable(Dict(b.credentials)))
    case _ => true
  }

  lemma UnhinderedPutBinding(env: CrEnv, sha: Sha, s: CrState, b: Binding)
    requires Gentle(env) && Unhindered(env, s.clock) && Writable(sha, PutB(env, b))
    ensures PutBindingSpec(env, sha, s, b).result.Ok?
  {
    hide BindingToSpec, ResourceName, SecretNameFor, PutCr, DropCr, Gentle, Normal, Encodable, KeptOutside, SecretKey;
    var k := BindingKey(sha, b.id);
    var spec := BindingToSpec(b, SecretNameFor(sha, b)).value;
    var lbl := InstanceLabel(sha, b.instanceId);
    UnhinderedPutCr(env, s, k, Managed(lbl), lbl, BindingBody(spec), CR_RETRIES);
    PutCrEffect(env, s, k, Managed(lbl), lbl, BindingBody(spec), CR_RETRIES);
    var u := PutCr(env, s, k, Managed(lbl), lbl, BindingBody(spec), CR_RETRIES).state;
    if |b.credentials| == 0 {
      UnhinderedDropCr(env, u, SecretKey(sha, b.id));
    } else {
      assert env(u.clock).Still?;
      var owner := CrGet(env, u, k);
      UnhinderedPutCr(env, owner.state, SecretKey(sha, b.id), Managed(map[]), map[],
                      SecretBody(ResourceName(b.id, sha), owner.result.value.uid, Normal(Dict(b.credentials))), CR_RETRIES);
    }
  }

  /** With no call failing, every operation is answered exactly by what the resources stand
      for. */
  lemma UnhinderedStepAnswers(sha: Sha, ids: set<string>, s: CrState, m: Mirror, op: StoreOp)
    requires InjectiveOn(sha, ids) && Represents(sha, ids, s, m) && Admissible(ids, op)
    requires Unhindered(op.env, s.clock) && Writable(sha, op)
    ensures CrdStep(sha, s, op).1 == NormalAnswer(MirrorStep(m, op).1)
  {
    hide Represents, PutBindingSpec, NormalInstance, NormalBinding, PutCr, InstanceToSpec, BindingToSpec, InjectiveOn, DropCr, GetInstanceSpec,
      GetBindingSpec, ResourceName, Follows, Seen, WithCredentials;
    StepRefines(sha, ids, s, m, op);
    match op
    case PutI(env, i) => UnhinderedPutCr(env, s, InstanceKey(sha, i.id), Managed(map[]), map[], InstanceBody(InstanceToSpec(i).value), CR_RETRIES);
    case GetI(env, id) => UnhinderedGetInstance(env, sha, ids, s, m, id);
    case DelI(env, id) => UnhinderedDropCr(env, s, InstanceKey(sha, id));
    case PutB(env, b) => UnhinderedPutBinding(env, sha, s, b);
    case GetB(env, id) => UnhinderedGetBinding(env, sha, ids, s, m, id);
    case DelB(env, id) =>
      UnhinderedDropCr(env, s, BindingKey(sha, id));
      UnhinderedDropCr(env, DropCr(env, s, BindingKey(sha, id)).state, SecretKey(sha, id));
  }

  lemma UnhinderedGetInstance(env: CrEnv, sha: Sha, ids: set<string>, s: CrState, m: Mirror, id: string)
    requires Gentle(env) && InjectiveOn(sha, ids) && Represents(sha, ids, s, m) && id in ids && Unhindered(env, s.clock)
    ensures GetInstanceSpec(env, sha, s, id).result.Err? ==> GetInstanceSpec(env, sha, s, id).result.error == NotFound
  {
    hide Represents, InjectiveOn, ResourceName, InstanceToSpec, Gentle, Marked;
    assert env(s.clock).Still?;
    InstanceLookup(sha, ids, s, m, id);
    if id in m.instances {
      InstanceRoundTrip(m.instances[id]);
    }
  }

  lemma UnhinderedGetBinding(env: CrEnv, sha: Sha, ids: set<string>, s: CrState, m: Mirror, id: string)
    requires Gentle(env) && InjectiveOn(sha, ids) && Represents(sha, ids, s, m) && id in ids && Unhindered(env, s.clock)
    ensures GetBindingSpec(env, sha, s, id).result.Err? ==> GetBindingSpec(env, sha, s, id).result.error == NotFound
  {
    hide Represents, InjectiveOn, ResourceName, BindingToSpec, Gentle, LoadBinding, KeptOutside, NormalBinding, SecretNameFor, Marked, Seen;
    assert env(s.clock).Still?;
    var u := CrTick(env, s);
    assert u == s.(clock := s.clock + 1);
    TickKeeps(env, s);
    RepresentsIsStable(sha, ids, s, u, m);
    BindingLookup(sha, ids, u, m, id);
    if id in m.bindings {
      LoadRefines(env, sha, ids, u, m, m.bindings[id]);
      SpecOfBinding(sha, m.bindings[id], map[]);
    }
  }

  // --- the records determine the resources ---

  /** Two bodies say the same, whichever uid the owner happens to have. */
  predicate SameBody(a: Body, b: Body) {
    match (a, b)
    case (SecretBody(x, _, p), SecretBody(y, _, q)) => x == y && p == q
    case _ => a == b
  }

  /** The same record under the same labels of the broker's own. */
  predicate SameResource(a: Cr, b: Cr) {
    && SameBody(a.body, b.body) && Marked(a.labels) && Marked(b.labels)
    && (a.body.BindingBody? ==>
          LABEL_INSTANCE in a.labels && LABEL_INSTANCE in b.labels && a.labels[LABEL_INSTANCE] == b.labels[LABEL_INSTANCE])
  }

  ghost predicate SameResources(s: CrState, t: CrState) {
    s.objects.Keys == t.objects.Keys && forall k | k in s.objects :: SameResource(s.objects[k], t.objects[k])
  }

  /** Two clusters that represent the same records hold the same resources. */
  lemma SameRecordsSameResources(sha: Sha, ids: set<string>, s: CrState, t: CrState, m: Mirror)
    requires Represents(sha, ids, s, m) && Represents(sha, ids, t, m)
    ensures SameResources(s, t)
  {
    hide Represents, SameResource;
    forall k | k in s.objects ensures k in t.objects && SameResource(s.objects[k], t.objects[k]) {
      ResourceOfRecord(sha, ids, s, t, m, k);
    }
    forall k | k in t.objects ensures k in s.objects {
      ResourceOfRecord(sha, ids, t, s, m, k);
    }
  }

  lemma ResourceOfRecord(sha: Sha, ids: set<string>, s: CrState, t: CrState, m: Mirror, k: CrKey)
    requires Represents(sha, ids, s, m) && Represents(sha, ids, t, m) && k in s.objects
    ensures k in t.objects && SameResource(s.objects[k], t.objects[k])
  {
    hide HoldsInstances, HoldsBindings, HoldsSecrets;
    match k.kind
    case KInstance => InstanceOfRecord(sha, s, t, m.instances, k);
    case KBinding => BindingOfRecord(sha, s, t, m.bindings, k);
    case KSecret => SecretOfRecord(sha, s, t, m.secrets, k);
  }

  lemma InstanceOfRecord(sha: Sha, s: CrState, t: CrState, instances: map<string, Instance>, k: CrKey)
    requires HoldsInstances(sha, s, instances) && HoldsInstances(sha, t, instances) && k in s.objects && k.kind == KInstance
    ensures k in t.objects && SameResource(s.objects[k], t.objects[k])
  {
    hide ResourceName, InstanceToSpec;
    var id :| id in instances && InstanceKey(sha, id) == k;
    assert InstanceStored(sha, s, instances[id]) && InstanceStored(sha, t, instances[id]);
  }

  lemma BindingOfRecord(sha: Sha, s: CrState, t: CrState, bindings: map<string, Binding>, k: CrKey)
    requires HoldsBindings(sha, s, bindings) && HoldsBindings(sha, t, bindings) && k in s.objects && k.kind == KBinding
    ensures k in t.objects && SameResource(s.objects[k], t.objects[k])
  {
    hide ResourceName, BindingToSpec, SecretNameFor;
    var id :| id in bindings && BindingKey(sha, id) == k;
    assert BindingStored(sha, s, bindings[id]) && BindingStored(sha, t, bindings[id]);
  }

  lemma SecretOfRecord(sha: Sha, s: CrState, t: CrState, secrets: map<string, Params>, k: CrKey)
    requires HoldsSecrets(sha, s, secrets) && HoldsSecrets(sha, t, secrets) && k in s.objects && k.kind == KSecret
    ensures k in t.objects && SameResource(s.objects[k], t.objects[k])
  {
    hide ResourceName, Normal;
    var id :| id in secrets && SecretKey(sha, id) == k;
    assert SecretStored(sha, s, id, secrets[id]) && SecretStored(sha, t, id, secrets[id]);
  }

  /** Where the resources of a record are and what they are labelled with. */
  lemma ResourcesAre(sha: Sha, ids: set<string>, s: CrState, m: Mirror, id: string)
    requires Represents(sha, ids, s, m)
    ensures id in m.instances ==>
      var k := CrKey(KInstance, ResourceName(id, sha));
      k in s.objects && "app.kubernetes.io/managed-by" in s.objects[k].labels && s.objects[k].labels["app.kubernetes.io/managed-by"] == "osb-broker-go"
    ensures id in m.bindings ==>
      var k := CrKey(KBinding, ResourceName(id, sha));
      && k in s.objects && "app.kubernetes.io/managed-by" in s.objects[k].labels && s.objects[k].labels["app.kubernetes.io/managed-by"] == "osb-broker-go"
      && "broker.osb.io/instance" in s.objects[k].labels
      && s.objects[k].labels["broker.osb.io/instance"] == ResourceName(m.bindings[id].instanceId, sha)
    ensures id in m.secrets ==> CrKey(KSecret, ResourceName(id, sha) + "-credentials") in s.objects
  {
    hide ResourceName, InstanceToSpec, BindingToSpec, Normal;
  }
}
