/** The custom-resource store agrees with the plain map. */
module CrdProofs {
  import opened Wrappers
  import opened Json
  import opened Names
  import opened Api
  import opened StateStore
  import opened CrdStore

  // --- what a round trip through the store does to a record ---

  function NormalParams(p: Params): Params {
    map k | k in p :: Normal(p[k])
  }

  function NormalList(l: seq<Value>): seq<Value> {
    seq(|l|, i requires 0 <= i < |l| => Normal(l[i]))
  }

  function NormalInstance(i: Instance): Instance {
    i.(parameters := NormalParams(i.parameters))
  }

  function NormalBinding(b: Binding): Binding {
    b.(parameters := NormalParams(b.parameters), credentials := NormalParams(b.credentials), volumeMounts := NormalList(b.volumeMounts))
  }

  lemma NormalDict(p: Params)
    ensures Normal(Dict(p)) == Dict(NormalParams(p))
    ensures |p| == 0 ==> NormalParams(p) == map[]
  {
    assert Normal(Dict(p)).fields == NormalParams(p);
  }

  lemma NormalListValue(l: seq<Value>)
    ensures Normal(List(l)) == List(NormalList(l))
    ensures |l| == 0 ==> NormalList(l) == []
  {
    assert Normal(List(l)).elems == NormalList(l);
  }

  /** Encoding a record and decoding it again gives the record in JSON normal form. */
  lemma InstanceRoundTrip(i: Instance)
    requires InstanceToSpec(i).Ok?
    ensures SpecToInstance(InstanceToSpec(i).value) == Ok(NormalInstance(i))
  {
    NormalDict(i.parameters);
  }

  lemma BindingRoundTrip(b: Binding, secret: string)
    requires BindingToSpec(b, secret).Ok?
    ensures SpecToBinding(BindingToSpec(b, secret).value, NormalParams(b.credentials)) == Ok(NormalBinding(b))
  {
    NormalDict(b.parameters);
    NormalListValue(b.volumeMounts);
  }

  // --- what the environment and single calls leave alone ---

  /** Calls may fail and anybody may annotate; nothing is removed behind the store's back. */
  ghost predicate Gentle(env: CrEnv) {
    forall n: nat :: !env(n).Collect? && !env(n).Remove?
  }

  /** Labels, body and identity of an object are the same, no annotation is lost. */
  predicate SameCr(a: Cr, b: Cr) {
    && a.labels == b.labels && a.body == b.body && a.uid == b.uid
    && forall k | k in a.annotations :: k in b.annotations
  }

  predicate KeptAt(s: CrState, t: CrState, k: CrKey) {
    (k in s.objects <==> k in t.objects) && (k in s.objects ==> SameCr(s.objects[k], t.objects[k]))
  }

  ghost predicate KeptOutside(s: CrState, t: CrState, ks: set<CrKey>) {
    forall k | k !in ks :: KeptAt(s, t, k)
  }

  lemma KeptChains(s: CrState, t: CrState, u: CrState, ks: set<CrKey>, ls: set<CrKey>)
    requires KeptOutside(s, t, ks) && KeptOutside(t, u, ls)
    ensures KeptOutside(s, u, ks + ls)
  {
    forall k | k !in ks + ls ensures KeptAt(s, u, k) {
      assert KeptAt(s, t, k) && KeptAt(t, u, k);
    }
  }

  lemma TickKeeps(env: CrEnv, s: CrState)
    requires Gentle(env)
    ensures KeptOutside(s, CrTick(env, s), {})
  {
    assert !env(s.clock).Collect? && !env(s.clock).Remove?;
  }

  /** What a completed write has made of the object. */
  ghost predicate Written(s: CrState, t: CrState, k: CrKey, initial: map<string, string>, merged: map<string, string>, body: Body) {
    && k in t.objects && t.objects[k].body == body
    && (if k in s.objects
        then && t.objects[k].labels == s.objects[k].labels + merged && t.objects[k].uid == s.objects[k].uid
             && forall a | a in s.objects[k].annotations :: a in t.objects[k].annotations
        else t.objects[k].labels == initial)
  }

  lemma CrCreateEffect(env: CrEnv, s: CrState, k: CrKey, initial: map<string, string>, merged: map<string, string>, body: Body)
    requires Gentle(env)
    ensures var r := CrCreate(env, s, k, initial, body);
      && KeptOutside(s, r.state, if r.result.Ok? then {k} else {})
      && (r.result.Ok? ==> Written(s, r.state, k, initial, merged, body))
  {
    TickKeeps(env, s);
    assert KeptAt(s, CrTick(env, s), k);
  }

  /** A read followed by a write that either happened on top of what was read, or not at all. */
  lemma WriteAfterRead(s: CrState, t: CrState, u: CrState, k: CrKey, initial: map<string, string>, merged: map<string, string>, body: Body, done: bool)
    requires KeptOutside(s, t, {}) && KeptOutside(t, u, if done then {k} else {})
    requires done ==> Written(t, u, k, initial, merged, body)
    ensures KeptOutside(s, u, if done then {k} else {})
    ensures done ==> Written(s, u, k, initial, merged, body)
  {
    KeptChains(s, t, u, {}, if done then {k} else {});
    assert {} + {k} == {k};
    assert KeptAt(s, t, k);
  }

  /** The get-then-write loop: a success has written exactly this object, on top of whatever
      others had put on it; a failure has written nothing. */
  lemma {:induction false} PutCrEffect(env: CrEnv, s: CrState, k: CrKey, initial: map<string, string>, merged: map<string, string>, body: Body, attempts: nat)
    requires Gentle(env)
    ensures var r := PutCr(env, s, k, initial, merged, body, attempts);
      && KeptOutside(s, r.state, if r.result.Ok? then {k} else {})
      && (r.result.Ok? ==> Written(s, r.state, k, initial, merged, body))
    decreases attempts
  {
    hide Written, KeptOutside, CrCreate, CrUpdate;
    NothingKept(s);
    if attempts > 0 {
      var got := CrGet(env, s, k);
      TickKeeps(env, s);
      if got.result == Err(NotFound) {
        CrCreateEffect(env, got.state, k, initial, merged, body);
        var made := CrCreate(env, got.state, k, initial, body);
        WriteAfterRead(s, got.state, made.state, k, initial, merged, body, made.result.Ok?);
      } else if got.result.Ok? {
        var cr := got.result.value;
        CrReplaceEffect(env, got.state, k, initial, merged, body);
        var put := CrUpdate(env, got.state, k, cr.(body := body, labels := cr.labels + merged));
        WriteAfterRead(s, got.state, put.state, k, initial, merged, body, put.result.Ok?);
        if put.result == Err(Conflict) {
          PutCrEffect(env, put.state, k, initial, merged, body, attempts - 1);
          var r := PutCr(env, put.state, k, initial, merged, body, attempts - 1);
          WriteAfterRead(s, put.state, r.state, k, initial, merged, body, r.result.Ok?);
        }
      }
    }
  }

  lemma NothingKept(s: CrState)
    ensures KeptOutside(s, s, {})
  {
  }

  lemma CrReplaceEffect(env: CrEnv, s: CrState, k: CrKey, initial: map<string, string>, merged: map<string, string>, body: Body)
    requires Gentle(env) && k in s.objects
    ensures var cr := s.objects[k];
      var r := CrUpdate(env, s, k, cr.(body := body, labels := cr.labels + merged));
      && KeptOutside(s, r.state, if r.result.Ok? then {k} else {})
      && (r.result.Ok? ==> Written(s, r.state, k, initial, merged, body))
  {
    var cr := s.objects[k];
    CrUpdateEffect(env, s, k, cr.(body := body, labels := cr.labels + merged), cr);
  }

  lemma CrUpdateEffect(env: CrEnv, s: CrState, k: CrKey, cr: Cr, read: Cr)
    requires Gentle(env) && k in s.objects && s.objects[k] == read
    requires cr.version == read.version && cr.annotations == read.annotations
    ensures var r := CrUpdate(env, s, k, cr);
      && KeptOutside(s, r.state, if r.result.Ok? then {k} else {})
      && (r.result.Ok? ==> k in r.state.objects && r.state.objects[k] == cr.(uid := read.uid, version := r.state.objects[k].version))
  {
    TickKeeps(env, s);
    var t := CrTick(env, s);
    assert KeptAt(s, t, k);
  }

  lemma DropCrEffect(env: CrEnv, s: CrState, k: CrKey)
    requires Gentle(env)
    ensures var r := DropCr(env, s, k);
      && (r.result.Ok? ==> KeptOutside(s, r.state, {k}) && k !in r.state.objects)
      && (r.result.Err? ==> KeptOutside(s, r.state, {}))
  {
    TickKeeps(env, s);
  }

  // --- the loop is one write on top of whatever others have done ---

  /** What the environment does in the course of `n` calls when the store writes nothing. */
  function Ticks(env: CrEnv, s: CrState, n: nat): CrState {
    if n == 0 then s else CrTick(env, Ticks(env, s, n - 1))
  }

  lemma {:induction false} TicksFirst(env: CrEnv, s: CrState, n: nat)
    ensures Ticks(env, CrTick(env, s), n) == Ticks(env, s, n + 1)
  {
    hide CrTick;
    if n > 0 {
      TicksFirst(env, s, n - 1);
    }
  }

  /** Every resourceVersion was handed out. */
  ghost predicate Versioned(s: CrState) {
    forall k | k in s.objects :: s.objects[k].version < s.next
  }

  /** The object as the write leaves it, from what stands there when it happens. */
  function Rewritten(u: CrState, k: CrKey, initial: map<string, string>, merged: map<string, string>, body: Body): Cr {
    if k in u.objects then u.objects[k].(body := body, labels := u.objects[k].labels + merged, version := u.next)
    else Cr(initial, map[], body, u.next, u.next)
  }

  /** `t` is `u` with the one write. */
  predicate WroteOnce(u: CrState, t: CrState, k: CrKey, initial: map<string, string>, merged: map<string, string>, body: Body) {
    t == CrState(u.objects[k := Rewritten(u, k, initial, merged, body)], u.clock, u.next + 1)
  }

  lemma CreateWritesOnce(env: CrEnv, s: CrState, k: CrKey, initial: map<string, string>, merged: map<string, string>, body: Body)
    ensures var r, u := CrCreate(env, s, k, initial, body), CrTick(env, s);
      if r.result.Ok? then WroteOnce(u, r.state, k, initial, merged, body) else r.state == u
  {
    hide CrTick;
  }

  lemma UpdateWritesOnce(env: CrEnv, s: CrState, k: CrKey, initial: map<string, string>, merged: map<string, string>, body: Body)
    requires Versioned(s) && k in s.objects
    ensures var cr, u := s.objects[k], CrTick(env, s);
      var r := CrUpdate(env, s, k, cr.(body := body, labels := cr.labels + merged));
      if r.result.Ok? then WroteOnce(u, r.state, k, initial, merged, body) else r.state == u
  {
    hide CrTick;
    VersionsTell(env, s, k);
  }

  /** In any environment, the get-then-write loop is exactly one write, made at its last call
      on top of all that others have done by then, annotations and their values included, or,
      when it fails, none at all. */
  lemma {:induction false} PutCrIsOneWrite(env: CrEnv, s: CrState, k: CrKey, initial: map<string, string>, merged: map<string, string>, body: Body, attempts: nat)
    returns (n: nat)
    requires Versioned(s)
    ensures var r := PutCr(env, s, k, initial, merged, body, attempts);
      var u := Ticks(env, s, n);
      if r.result.Ok? then WroteOnce(u, r.state, k, initial, merged, body) else r.state == u
    ensures n <= 2 * attempts
    decreases attempts
  {
    hide CrTick, Ticks, CrCreate, CrUpdate, WroteOnce, Versioned;
    n := 0;
    TicksAreIterated(env, s);
    if attempts > 0 {
      var t := CrTick(env, s);
      TicksAreIterated(env, t);
      TicksFirst(env, s, 0);
      TicksFirst(env, s, 1);
      n := 1;
      TickKeepsVersions(env, s);
      TickKeepsVersions(env, t);
      var got := CrGet(env, s, k);
      if got.result == Err(NotFound) {
        n := 2;
        CreateWritesOnce(env, t, k, initial, merged, body);
      } else if got.result.Ok? {
        n := 2;
        UpdateWritesOnce(env, t, k, initial, merged, body);
        var cr := got.result.value;
        var put := CrUpdate(env, t, k, cr.(body := body, labels := cr.labels + merged));
        if put.result == Err(Conflict) {
          var rest := PutCrIsOneWrite(env, put.state, k, initial, merged, body, attempts - 1);
          n := 2 + rest;
          TicksFirst(env, t, rest);
          TicksFirst(env, s, rest + 1);
        }
      }
    }
  }

  lemma TicksAreIterated(env: CrEnv, s: CrState)
    ensures Ticks(env, s, 0) == s && Ticks(env, s, 1) == CrTick(env, s)
  {
    hide CrTick;
    assert Ticks(env, s, 1) == CrTick(env, Ticks(env, s, 0));
  }

  lemma TickKeepsVersions(env: CrEnv, s: CrState)
    requires Versioned(s)
    ensures Versioned(CrTick(env, s))
  {
  }

  /** An object whose version has not changed has not changed. */
  lemma VersionsTell(env: CrEnv, s: CrState, k: CrKey)
    requires Versioned(s) && k in s.objects
    ensures var t := CrTick(env, s);
      k in t.objects && t.objects[k].version == s.objects[k].version ==> t.objects[k] == s.objects[k]
  {
  }

  // --- the relation between the two stores ---

  ghost predicate InjectiveOn(sha: Sha, ids: set<string>) {
    forall a, b | a in ids && b in ids && ResourceName(a, sha) == ResourceName(b, sha) :: a == b
  }

  /** The label by which the broker marks what is its own. */
  predicate Marked(labels: map<string, string>) {
    MANAGED_BY in labels && labels[MANAGED_BY] == MANAGED_BY_VALUE
  }

  predicate InstanceStored(sha: Sha, s: CrState, i: Instance) {
    var k := InstanceKey(sha, i.id);
    && InstanceToSpec(i).Ok? && k in s.objects && s.objects[k].body == InstanceBody(InstanceToSpec(i).value)
    && Marked(s.objects[k].labels)
  }

  predicate BindingStored(sha: Sha, s: CrState, b: Binding) {
    var k := BindingKey(sha, b.id);
    && BindingToSpec(b, SecretNameFor(sha, b)).Ok?
    && k in s.objects && s.objects[k].body == BindingBody(BindingToSpec(b, SecretNameFor(sha, b)).value)
    && Marked(s.objects[k].labels)
    && LABEL_INSTANCE in s.objects[k].labels && s.objects[k].labels[LABEL_INSTANCE] == ResourceName(b.instanceId, sha)
  }

  predicate SecretStored(sha: Sha, s: CrState, id: string, creds: Params) {
    var c := SecretKey(sha, id);
    && c in s.objects && Marked(s.objects[c].labels)
    && s.objects[c].body.SecretBody? && s.objects[c].body.ownerName == ResourceName(id, sha)
    && s.objects[c].body.payload == Normal(Dict(creds))
  }

  /** What the resources stand for: instances, bindings as their resources were last written,
      and the credentials in the Secrets, by binding id. */
  datatype Mirror = Mirror(instances: map<string, Instance>, bindings: map<string, Binding>, secrets: map<string, Params>)

  /** A kind of resource holds exactly these records. */
  ghost predicate HoldsInstances(sha: Sha, s: CrState, instances: map<string, Instance>) {
    && (forall id | id in instances :: instances[id].id == id && InstanceStored(sha, s, instances[id]))
    && (forall k | k in s.objects && k.kind == KInstance :: exists id :: id in instances && InstanceKey(sha, id) == k)
  }

  ghost predicate HoldsBindings(sha: Sha, s: CrState, bindings: map<string, Binding>) {
    && (forall id | id in bindings :: bindings[id].id == id && BindingStored(sha, s, bindings[id]))
    && (forall k | k in s.objects && k.kind == KBinding :: exists id :: id in bindings && BindingKey(sha, id) == k)
  }

  ghost predicate HoldsSecrets(sha: Sha, s: CrState, secrets: map<string, Params>) {
    && (forall id | id in secrets :: SecretStored(sha, s, id, secrets[id]))
    && (forall k | k in s.objects && k.kind == KSecret :: exists id :: id in secrets && SecretKey(sha, id) == k)
  }

  /** The custom resources represent `m`, whose ids are among `ids`. */
  ghost predicate Represents(sha: Sha, ids: set<string>, s: CrState, m: Mirror) {
    && m.instances.Keys <= ids && m.bindings.Keys <= ids && m.secrets.Keys <= ids
    && HoldsInstances(sha, s, m.instances) && HoldsBindings(sha, s, m.bindings) && HoldsSecrets(sha, s, m.secrets)
  }

  lemma SecretKeysAreInjective(sha: Sha, ids: set<string>, a: string, b: string)
    requires InjectiveOn(sha, ids) && a in ids && b in ids && SecretKey(sha, a) == SecretKey(sha, b)
    ensures a == b
  {
    hide ResourceName;
    var x, y := ResourceName(a, sha), ResourceName(b, sha);
    assert (x + SUFFIX)[..|x|] == x && (y + SUFFIX)[..|y|] == y && |x| == |y|;
  }

  // A change outside a kind leaves it alone; one write or deletion within it is one update.

  lemma InstancesStay(sha: Sha, s: CrState, t: CrState, instances: map<string, Instance>, ks: set<CrKey>)
    requires KeptOutside(s, t, ks) && HoldsInstances(sha, s, instances) && forall k | k in ks :: k.kind != KInstance
    ensures HoldsInstances(sha, t, instances)
  {
    hide InstanceToSpec, ResourceName;
    forall id | id in instances ensures InstanceStored(sha, t, instances[id]) {
      assert KeptAt(s, t, InstanceKey(sha, id));
    }
    forall k | k in t.objects && k.kind == KInstance ensures k in s.objects {
      assert KeptAt(s, t, k);
    }
  }

  lemma BindingsStay(sha: Sha, s: CrState, t: CrState, bindings: map<string, Binding>, ks: set<CrKey>)
    requires KeptOutside(s, t, ks) && HoldsBindings(sha, s, bindings) && forall k | k in ks :: k.kind != KBinding
    ensures HoldsBindings(sha, t, bindings)
  {
    hide BindingToSpec, ResourceName, SecretNameFor;
    forall id | id in bindings ensures BindingStored(sha, t, bindings[id]) {
      assert KeptAt(s, t, BindingKey(sha, id));
    }
    forall k | k in t.objects && k.kind == KBinding ensures k in s.objects {
      assert KeptAt(s, t, k);
    }
  }

  lemma SecretsStay(sha: Sha, s: CrState, t: CrState, secrets: map<string, Params>, ks: set<CrKey>)
    requires KeptOutside(s, t, ks) && HoldsSecrets(sha, s, secrets) && forall k | k in ks :: k.kind != KSecret
    ensures HoldsSecrets(sha, t, secrets)
  {
    hide ResourceName, Normal;
    forall id | id in secrets ensures SecretStored(sha, t, id, secrets[id]) {
      assert KeptAt(s, t, SecretKey(sha, id));
    }
    forall k | k in t.objects && k.kind == KSecret ensures k in s.objects {
      assert KeptAt(s, t, k);
    }
  }

  lemma InstanceWritten(sha: Sha, ids: set<string>, s: CrState, t: CrState, instances: map<string, Instance>, i: Instance)
    requires InjectiveOn(sha, ids) && i.id in ids && instances.Keys <= ids && HoldsInstances(sha, s, instances)
    requires KeptOutside(s, t, {InstanceKey(sha, i.id)}) && InstanceStored(sha, t, i)
    ensures HoldsInstances(sha, t, instances[i.id := i])
  {
    hide InstanceToSpec, ResourceName;
    var now := instances[i.id := i];
    forall id | id in now ensures now[id].id == id && InstanceStored(sha, t, now[id]) {
      if id != i.id { assert KeptAt(s, t, InstanceKey(sha, id)); }
    }
    forall k | k in t.objects && k.kind == KInstance ensures exists id :: id in now && InstanceKey(sha, id) == k {
      if k == InstanceKey(sha, i.id) {
        assert i.id in now;
      } else {
        assert KeptAt(s, t, k);
        var id :| id in instances && InstanceKey(sha, id) == k;
        assert id in now;
      }
    }
  }

  lemma InstanceKeysTell(sha: Sha, ids: set<string>, id: string)
    requires InjectiveOn(sha, ids) && id in ids
    ensures forall x | x in ids && x != id :: InstanceKey(sha, x) != InstanceKey(sha, id)
  {
    hide ResourceName;
  }

  lemma InstanceGone(sha: Sha, ids: set<string>, s: CrState, t: CrState, instances: map<string, Instance>, gone: string)
    requires InjectiveOn(sha, ids) && gone in ids && instances.Keys <= ids && HoldsInstances(sha, s, instances)
    requires KeptOutside(s, t, {InstanceKey(sha, gone)}) && InstanceKey(sha, gone) !in t.objects
    ensures HoldsInstances(sha, t, instances - {gone})
  {
    hide InstanceToSpec, ResourceName, InstanceKey, InjectiveOn, Marked;
    InstanceKeysTell(sha, ids, gone);
    forall id | id in instances - {gone} ensures InstanceStored(sha, t, instances[id]) {
      assert KeptAt(s, t, InstanceKey(sha, id));
    }
    forall k | k in t.objects && k.kind == KInstance ensures exists id :: id in instances - {gone} && InstanceKey(sha, id) == k {
      assert k != InstanceKey(sha, gone) && KeptAt(s, t, k);
      var id :| id in instances && InstanceKey(sha, id) == k;
      assert id in instances - {gone} && InstanceKey(sha, id) == k;
    }
  }

  lemma BindingWritten(sha: Sha, ids: set<string>, s: CrState, t: CrState, bindings: map<string, Binding>, b: Binding)
    requires InjectiveOn(sha, ids) && b.id in ids && bindings.Keys <= ids && HoldsBindings(sha, s, bindings)
    requires KeptOutside(s, t, {BindingKey(sha, b.id)}) && BindingStored(sha, t, b)
    ensures HoldsBindings(sha, t, bindings[b.id := b])
  {
    hide BindingToSpec, ResourceName, SecretNameFor;
    var now := bindings[b.id := b];
    forall id | id in now ensures now[id].id == id && BindingStored(sha, t, now[id]) {
      if id != b.id { assert KeptAt(s, t, BindingKey(sha, id)); }
    }
    forall k | k in t.objects && k.kind == KBinding ensures exists id :: id in now && BindingKey(sha, id) == k {
      if k == BindingKey(sha, b.id) {
        assert b.id in now;
      } else {
        assert KeptAt(s, t, k);
        var id :| id in bindings && BindingKey(sha, id) == k;
        assert id in now;
      }
    }
  }

  lemma BindingKeysTell(sha: Sha, ids: set<string>, id: string)
    requires InjectiveOn(sha, ids) && id in ids
    ensures forall x | x in ids && x != id :: BindingKey(sha, x) != BindingKey(sha, id)
  {
    hide ResourceName;
  }

  lemma BindingGone(sha: Sha, ids: set<string>, s: CrState, t: CrState, bindings: map<string, Binding>, gone: string)
    requires InjectiveOn(sha, ids) && gone in ids && bindings.Keys <= ids && HoldsBindings(sha, s, bindings)
    requires KeptOutside(s, t, {BindingKey(sha, gone)}) && BindingKey(sha, gone) !in t.objects
    ensures HoldsBindings(sha, t, bindings - {gone})
  {
    hide BindingToSpec, ResourceName, SecretNameFor, BindingKey, InjectiveOn, Marked;
    BindingKeysTell(sha, ids, gone);
    forall id | id in bindings - {gone} ensures BindingStored(sha, t, bindings[id]) {
      assert KeptAt(s, t, BindingKey(sha, id));
    }
    forall k | k in t.objects && k.kind == KBinding ensures exists id :: id in bindings - {gone} && BindingKey(sha, id) == k {
      assert k != BindingKey(sha, gone) && KeptAt(s, t, k);
      var id :| id in bindings && BindingKey(sha, id) == k;
      assert id in bindings - {gone} && BindingKey(sha, id) == k;
    }
  }

  lemma SecretWritten(sha: Sha, ids: set<string>, s: CrState, t: CrState, secrets: map<string, Params>, id: string, creds: Params)
    requires InjectiveOn(sha, ids) && id in ids && secrets.Keys <= ids && HoldsSecrets(sha, s, secrets)
    requires KeptOutside(s, t, {SecretKey(sha, id)}) && SecretStored(sha, t, id, creds)
    ensures HoldsSecrets(sha, t, secrets[id := creds])
  {
    hide ResourceName, Normal, SecretKey, InjectiveOn;
    var now := secrets[id := creds];
    SecretKeysTell(sha, ids, secrets.Keys, id);
    forall x | x in now ensures SecretStored(sha, t, x, now[x]) {
      if x != id { assert KeptAt(s, t, SecretKey(sha, x)); }
    }
    forall k | k in t.objects && k.kind == KSecret ensures exists x :: x in now && SecretKey(sha, x) == k {
      if k == SecretKey(sha, id) {
        assert id in now;
      } else {
        assert KeptAt(s, t, k);
        var x :| x in secrets && SecretKey(sha, x) == k;
        assert x in now;
      }
    }
  }

  lemma SecretGone(sha: Sha, ids: set<string>, s: CrState, t: CrState, secrets: map<string, Params>, gone: string)
    requires InjectiveOn(sha, ids) && gone in ids && secrets.Keys <= ids && HoldsSecrets(sha, s, secrets)
    requires KeptOutside(s, t, {SecretKey(sha, gone)}) && SecretKey(sha, gone) !in t.objects
    ensures HoldsSecrets(sha, t, secrets - {gone})
  {
    hide ResourceName, Normal, SecretKey, InjectiveOn;
    SecretKeysTell(sha, ids, secrets.Keys, gone);
    forall x | x in secrets - {gone} ensures SecretStored(sha, t, x, secrets[x]) {
      assert KeptAt(s, t, SecretKey(sha, x));
    }
    forall k | k in t.objects && k.kind == KSecret ensures exists x :: x in secrets - {gone} && SecretKey(sha, x) == k {
      assert KeptAt(s, t, k);
      var x :| x in secrets && SecretKey(sha, x) == k;
      assert x in secrets - {gone};
    }
  }

  lemma SecretKeysTell(sha: Sha, ids: set<string>, others: set<string>, id: string)
    requires InjectiveOn(sha, ids) && id in ids && others <= ids
    ensures forall x | x in others && x != id :: SecretKey(sha, x) != SecretKey(sha, id)
    ensures SecretKey(sha, id).kind == KSecret
  {
    hide ResourceName;
    forall x | x in others && x != id ensures SecretKey(sha, x) != SecretKey(sha, id) {
      if SecretKey(sha, x) == SecretKey(sha, id) {
        SecretKeysAreInjective(sha, ids, x, id);
      }
    }
  }

  /** Reading calls, failed writes and foreign annotations do not disturb the relation. */
  lemma RepresentsIsStable(sha: Sha, ids: set<string>, s: CrState, t: CrState, m: Mirror)
    requires Represents(sha, ids, s, m) && KeptOutside(s, t, {})
    ensures Represents(sha, ids, t, m)
  {
    hide HoldsInstances, HoldsBindings, HoldsSecrets, KeptOutside;
    InstancesStay(sha, s, t, m.instances, {});
    BindingsStay(sha, s, t, m.bindings, {});
    SecretsStay(sha, s, t, m.secrets, {});
  }

  // --- instances ---

  /** Looking an instance up by its key finds its own record or nothing. */
  lemma InstanceLookup(sha: Sha, ids: set<string>, s: CrState, m: Mirror, id: string)
    requires InjectiveOn(sha, ids) && id in ids && Represents(sha, ids, s, m)
    ensures InstanceKey(sha, id) in s.objects <==> id in m.instances
    ensures id in m.instances ==> InstanceStored(sha, s, m.instances[id]) && m.instances[id].id == id
  {
    hide InstanceToSpec, ResourceName, HoldsBindings, HoldsSecrets;
    var k := InstanceKey(sha, id);
    if k in s.objects {
      var owner :| owner in m.instances && InstanceKey(sha, owner) == k;
      assert owner == id;
    }
  }

  /** A write keeps the broker's mark, or sets it. */
  lemma StaysMarked(s: CrState, t: CrState, k: CrKey, initial: map<string, string>, merged: map<string, string>, body: Body)
    requires Written(s, t, k, initial, merged, body) && Marked(initial) && MANAGED_BY !in merged
    requires k in s.objects ==> Marked(s.objects[k].labels)
    ensures Marked(t.objects[k].labels)
  {
  }

  /** PutInstance: a success is an update of the map, a failure is nothing. */
  lemma PutInstanceRefines(env: CrEnv, sha: Sha, ids: set<string>, s: CrState, m: Mirror, i: Instance)
    requires Gentle(env) && InjectiveOn(sha, ids) && i.id in ids && Represents(sha, ids, s, m)
    ensures var r := PutInstanceSpec(env, sha, s, i);
      Represents(sha, ids, r.state, if r.result.Ok? then m.(instances := m.instances[i.id := i]) else m)
  {
    hide InstanceToSpec, ResourceName, HoldsInstances, HoldsBindings, HoldsSecrets, PutCr, InjectiveOn, KeptOutside, Written;
    if InstanceToSpec(i).Ok? {
      var k := InstanceKey(sha, i.id);
      var body := InstanceBody(InstanceToSpec(i).value);
      PutCrEffect(env, s, k, Managed(map[]), map[], body, CR_RETRIES);
      var r := PutInstanceSpec(env, sha, s, i);
      if r.result.Err? {
        RepresentsIsStable(sha, ids, s, r.state, m);
      } else {
        InstanceLookup(sha, ids, s, m, i.id);
        StaysMarked(s, r.state, k, Managed(map[]), map[], body);
        WrittenBody(s, r.state, k, Managed(map[]), map[], body);
        InstanceWritten(sha, ids, s, r.state, m.instances, i);
        BindingsStay(sha, s, r.state, m.bindings, {k});
        SecretsStay(sha, s, r.state, m.secrets, {k});
      }
    } else {
      NothingKept(s);
      RepresentsIsStable(sha, ids, s, s, m);
    }
  }

  lemma WrittenBody(s: CrState, t: CrState, k: CrKey, initial: map<string, string>, merged: map<string, string>, body: Body)
    requires Written(s, t, k, initial, merged, body)
    ensures k in t.objects && t.objects[k].body == body
    ensures t.objects[k].labels == if k in s.objects then s.objects[k].labels + merged else initial
  {
  }

  /** GetInstance: whatever it finds is the record of the map in JSON normal form, and it
      says "not found" only of ids the map does not have. */
  lemma GetInstanceRefines(env: CrEnv, sha: Sha, ids: set<string>, s: CrState, m: Mirror, id: string)
    requires Gentle(env) && InjectiveOn(sha, ids) && id in ids && Represents(sha, ids, s, m)
    ensures var r := GetInstanceSpec(env, sha, s, id);
      && Represents(sha, ids, r.state, m)
      && (r.result.Ok? ==> id in m.instances && r.result.value == NormalInstance(m.instances[id]))
      && (r.result == Err(NotFound) ==> id !in m.instances)
  {
    hide Represents, InjectiveOn, ResourceName, Marked;
    var got := CrGet(env, s, InstanceKey(sha, id));
    TickKeeps(env, s);
    RepresentsIsStable(sha, ids, s, got.state, m);
    InstanceLookup(sha, ids, got.state, m, id);
    if id in m.instances {
      InstanceRoundTrip(m.instances[id]);
    }
  }

  /** DeleteInstance, which does not mind a missing record. */
  lemma DeleteInstanceRefines(env: CrEnv, sha: Sha, ids: set<string>, s: CrState, m: Mirror, id: string)
    requires Gentle(env) && InjectiveOn(sha, ids) && id in ids && Represents(sha, ids, s, m)
    ensures var r := DeleteInstanceSpec(env, sha, s, id);
      Represents(sha, ids, r.state, if r.result.Ok? then m.(instances := m.instances - {id}) else m)
  {
    hide ResourceName, HoldsInstances, HoldsBindings, HoldsSecrets, DropCr, InjectiveOn, KeptOutside;
    var k := InstanceKey(sha, id);
    DropCrEffect(env, s, k);
    var t := DeleteInstanceSpec(env, sha, s, id).state;
    if DeleteInstanceSpec(env, sha, s, id).result.Err? {
      RepresentsIsStable(sha, ids, s, t, m);
    } else {
      InstanceGone(sha, ids, s, t, m.instances, id);
      BindingsStay(sha, s, t, m.bindings, {k});
      SecretsStay(sha, s, t, m.secrets, {k});
    }
  }

  // --- bindings, one half at a time ---

  /** The objects of one binding. */
  function BindingKeys(sha: Sha, id: string): set<CrKey> {
    {BindingKey(sha, id), SecretKey(sha, id)}
  }

  /** Looking a binding up by its key finds its own resource or nothing. */
  lemma BindingLookup(sha: Sha, ids: set<string>, s: CrState, m: Mirror, id: string)
    requires InjectiveOn(sha, ids) && id in ids && Represents(sha, ids, s, m)
    ensures BindingKey(sha, id) in s.objects <==> id in m.bindings
    ensures id in m.bindings ==> BindingStored(sha, s, m.bindings[id]) && m.bindings[id].id == id
  {
    hide BindingToSpec, SecretNameFor, ResourceName, HoldsInstances, HoldsSecrets;
    var k := BindingKey(sha, id);
    if k in s.objects {
      var owner :| owner in m.bindings && BindingKey(sha, owner) == k;
      assert owner == id;
    }
  }

  lemma SecretLookup(sha: Sha, ids: set<string>, s: CrState, m: Mirror, id: string)
    requires InjectiveOn(sha, ids) && id in ids && Represents(sha, ids, s, m)
    ensures SecretKey(sha, id) in s.objects <==> id in m.secrets
    ensures id in m.secrets ==> SecretStored(sha, s, id, m.secrets[id])
  {
    hide Normal, ResourceName, HoldsInstances, HoldsBindings, SecretKey, InjectiveOn;
    SecretKeysTell(sha, ids, m.secrets.Keys, id);
    var k := SecretKey(sha, id);
    if k in s.objects {
      var owner :| owner in m.secrets && SecretKey(sha, owner) == k;
      assert owner == id;
    }
  }

  /** The first half of PutBinding: the resource. */
  function PutResource(env: CrEnv, sha: Sha, s: CrState, b: Binding): CrRet<Unit> {
    match BindingToSpec(b, SecretNameFor(sha, b))
    case Err(_) => CrRet(s, Err(Failed))
    case Ok(spec) =>
      var lbl := InstanceLabel(sha, b.instanceId);
      PutCr(env, s, BindingKey(sha, b.id), Managed(lbl), lbl, BindingBody(spec), CR_RETRIES)
  }

  lemma PutBindingInTwoHalves(env: CrEnv, sha: Sha, s: CrState, b: Binding)
    ensures var put := PutResource(env, sha, s, b);
      PutBindingSpec(env, sha, s, b) == if put.result.Err? then put else PutCredentials(env, sha, put.state, b)
  {
    hide BindingToSpec, ResourceName, SecretNameFor, PutCr, PutCredentials;
  }

  ghost predicate ResourceIsWritten(sha: Sha, s: CrState, t: CrState, b: Binding)
    requires BindingToSpec(b, SecretNameFor(sha, b)).Ok?
  {
    var lbl := InstanceLabel(sha, b.instanceId);
    Written(s, t, BindingKey(sha, b.id), Managed(lbl), lbl, BindingBody(BindingToSpec(b, SecretNameFor(sha, b)).value))
  }

  lemma PutResourceEffect(env: CrEnv, sha: Sha, s: CrState, b: Binding)
    requires Gentle(env)
    ensures var r := PutResource(env, sha, s, b);
      && KeptOutside(s, r.state, if r.result.Ok? then {BindingKey(sha, b.id)} else {})
      && (r.result.Ok? ==> BindingToSpec(b, SecretNameFor(sha, b)).Ok? && ResourceIsWritten(sha, s, r.state, b))
  {
    hide BindingToSpec, ResourceName, SecretNameFor, PutCr, KeptOutside, Written;
    NothingKept(s);
    var spec := BindingToSpec(b, SecretNameFor(sha, b));
    if spec.Ok? {
      var lbl := InstanceLabel(sha, b.instanceId);
      PutCrEffect(env, s, BindingKey(sha, b.id), Managed(lbl), lbl, BindingBody(spec.value), CR_RETRIES);
    }
  }

  lemma PutResourceRefines(env: CrEnv, sha: Sha, ids: set<string>, s: CrState, m: Mirror, b: Binding)
    requires Gentle(env) && InjectiveOn(sha, ids) && b.id in ids && Represents(sha, ids, s, m)
    ensures var r := PutResource(env, sha, s, b);
      Represents(sha, ids, r.state, if r.result.Ok? then m.(bindings := m.bindings[b.id := b]) else m)
  {
    hide BindingToSpec, ResourceName, SecretNameFor, PutResource, HoldsInstances, HoldsBindings, HoldsSecrets, InjectiveOn, KeptOutside, Written;
    var k := BindingKey(sha, b.id);
    PutResourceEffect(env, sha, s, b);
    var r := PutResource(env, sha, s, b);
    if r.result.Err? {
      RepresentsIsStable(sha, ids, s, r.state, m);
    } else {
      var lbl := InstanceLabel(sha, b.instanceId);
      var body := BindingBody(BindingToSpec(b, SecretNameFor(sha, b)).value);
      BindingLookup(sha, ids, s, m, b.id);
      StaysMarked(s, r.state, k, Managed(lbl), lbl, body);
      WrittenBody(s, r.state, k, Managed(lbl), lbl, body);
      BindingWritten(sha, ids, s, r.state, m.bindings, b);
      InstancesStay(sha, s, r.state, m.instances, {k});
      SecretsStay(sha, s, r.state, m.secrets, {k});
    }
  }

  /** Writing the credentials of a binding whose resource is in place. */
  lemma WriteCredentialsEffect(env: CrEnv, sha: Sha, s: CrState, b: Binding)
    requires Gentle(env)
    ensures var r, c := WriteCredentials(env, sha, s, b), SecretKey(sha, b.id);
      && KeptOutside(s, r.state, if r.result.Ok? then {c} else {})
      && (r.result.Ok? ==>
            && Encodable(Dict(b.credentials)) && BindingKey(sha, b.id) in s.objects
            && Written(s, r.state, c, Managed(map[]), map[],
                       SecretBody(ResourceName(b.id, sha), s.objects[BindingKey(sha, b.id)].uid, Normal(Dict(b.credentials)))))
  {
    hide PutCr, Written, KeptOutside, Normal, Encodable, ResourceName;
    NothingKept(s);
    if Encodable(Dict(b.credentials)) {
      var owner := CrGet(env, s, BindingKey(sha, b.id));
      TickKeeps(env, s);
      assert KeptAt(s, owner.state, BindingKey(sha, b.id)) by { KeptMeans(s, owner.state, BindingKey(sha, b.id)); }
      if owner.result.Ok? {
        var k := SecretKey(sha, b.id);
        var body := SecretBody(ResourceName(b.id, sha), owner.result.value.uid, Normal(Dict(b.credentials)));
        PutCrEffect(env, owner.state, k, Managed(map[]), map[], body, CR_RETRIES);
        var put := PutCr(env, owner.state, k, Managed(map[]), map[], body, CR_RETRIES);
        WriteAfterRead(s, owner.state, put.state, k, Managed(map[]), map[], body, put.result.Ok?);
      }
    }
  }

  lemma KeptMeans(s: CrState, t: CrState, k: CrKey)
    requires KeptOutside(s, t, {})
    ensures KeptAt(s, t, k)
  {
  }

  /** The credentials after the second half: those given, or none. */
  function WithCredentials(m: Mirror, b: Binding): Mirror {
    m.(secrets := if |b.credentials| > 0 then m.secrets[b.id := b.credentials] else m.secrets - {b.id})
  }

  lemma PutCredentialsRefines(env: CrEnv, sha: Sha, ids: set<string>, s: CrState, m: Mirror, b: Binding)
    requires Gentle(env) && InjectiveOn(sha, ids) && b.id in ids && Represents(sha, ids, s, m)
    ensures var r := PutCredentials(env, sha, s, b);
      Represents(sha, ids, r.state, if r.result.Ok? then WithCredentials(m, b) else m)
  {
    hide ResourceName, HoldsInstances, HoldsBindings, HoldsSecrets, InjectiveOn, KeptOutside, Written, Normal, WriteCredentials, DropCr, SecretKey;
    var c := SecretKey(sha, b.id);
    SecretKeysTell(sha, ids, {}, b.id);
    var r := PutCredentials(env, sha, s, b);
    if |b.credentials| == 0 {
      DropCrEffect(env, s, c);
    } else {
      WriteCredentialsEffect(env, sha, s, b);
    }
    if r.result.Err? {
      RepresentsIsStable(sha, ids, s, r.state, m);
    } else {
      InstancesStay(sha, s, r.state, m.instances, {c});
      BindingsStay(sha, s, r.state, m.bindings, {c});
      if |b.credentials| == 0 {
        SecretGone(sha, ids, s, r.state, m.secrets, b.id);
      } else {
        var body := SecretBody(ResourceName(b.id, sha), s.objects[BindingKey(sha, b.id)].uid, Normal(Dict(b.credentials)));
        SecretLookup(sha, ids, s, m, b.id);
        StaysMarked(s, r.state, c, Managed(map[]), map[], body);
        WrittenBody(s, r.state, c, Managed(map[]), map[], body);
        SecretWritten(sha, ids, s, r.state, m.secrets, b.id, b.credentials);
      }
    }
  }

  /** PutBinding: a success is an update; one broken off between its halves has written the
      resource and left the Secret; any other failure is nothing. */
  lemma PutBindingRefines(env: CrEnv, sha: Sha, ids: set<string>, s: CrState, m: Mirror, b: Binding)
    requires Gentle(env) && InjectiveOn(sha, ids) && b.id in ids && Represents(sha, ids, s, m)
    ensures var r := PutBindingSpec(env, sha, s, b);
      var resource := m.(bindings := m.bindings[b.id := b]);
      Represents(sha, ids, r.state,
        if PutResource(env, sha, s, b).result.Err? then m else if r.result.Err? then resource else WithCredentials(resource, b))
    ensures PutResource(env, sha, s, b).result.Err? ==> PutBindingSpec(env, sha, s, b).result.Err?
  {
    hide Represents, PutResource, PutCredentials, PutBindingSpec;
    PutBindingInTwoHalves(env, sha, s, b);
    PutResourceRefines(env, sha, ids, s, m, b);
    var put := PutResource(env, sha, s, b);
    if put.result.Ok? {
      PutCredentialsRefines(env, sha, ids, put.state, m.(bindings := m.bindings[b.id := b]), b);
    }
  }

  lemma DropResourceRefines(env: CrEnv, sha: Sha, ids: set<string>, s: CrState, m: Mirror, id: string)
    requires Gentle(env) && InjectiveOn(sha, ids) && id in ids && Represents(sha, ids, s, m)
    ensures var r := DropCr(env, s, BindingKey(sha, id));
      Represents(sha, ids, r.state, if r.result.Ok? then m.(bindings := m.bindings - {id}) else m)
  {
    hide ResourceName, HoldsInstances, HoldsBindings, HoldsSecrets, DropCr, InjectiveOn, KeptOutside;
    var k := BindingKey(sha, id);
    DropCrEffect(env, s, k);
    var r := DropCr(env, s, k);
    if r.result.Err? {
      RepresentsIsStable(sha, ids, s, r.state, m);
    } else {
      BindingGone(sha, ids, s, r.state, m.bindings, id);
      InstancesStay(sha, s, r.state, m.instances, {k});
      SecretsStay(sha, s, r.state, m.secrets, {k});
    }
  }

  lemma DropSecretRefines(env: CrEnv, sha: Sha, ids: set<string>, s: CrState, m: Mirror, id: string)
    requires Gentle(env) && InjectiveOn(sha, ids) && id in ids && Represents(sha, ids, s, m)
    ensures var r := DropCr(env, s, SecretKey(sha, id));
      Represents(sha, ids, r.state, if r.result.Ok? then m.(secrets := m.secrets - {id}) else m)
  {
    hide ResourceName, HoldsInstances, HoldsBindings, HoldsSecrets, DropCr, InjectiveOn, KeptOutside, SecretKey;
    var k := SecretKey(sha, id);
    SecretKeysTell(sha, ids, {}, id);
    DropCrEffect(env, s, k);
    var r := DropCr(env, s, k);
    if r.result.Err? {
      RepresentsIsStable(sha, ids, s, r.state, m);
    } else {
      SecretGone(sha, ids, s, r.state, m.secrets, id);
      InstancesStay(sha, s, r.state, m.instances, {k});
      BindingsStay(sha, s, r.state, m.bindings, {k});
    }
  }

  /** DeleteBinding, likewise in two halves. */
  lemma DeleteBindingRefines(env: CrEnv, sha: Sha, ids: set<string>, s: CrState, m: Mirror, id: string)
    requires Gentle(env) && InjectiveOn(sha, ids) && id in ids && Represents(sha, ids, s, m)
    ensures var r := DeleteBindingSpec(env, sha, s, id);
      var gone := m.(bindings := m.bindings - {id});
      Represents(sha, ids, r.state,
        if DropCr(env, s, BindingKey(sha, id)).result.Err? then m
        else if r.result.Err? then gone else gone.(secrets := m.secrets - {id}))
    ensures DropCr(env, s, BindingKey(sha, id)).result.Err? ==> DeleteBindingSpec(env, sha, s, id).result.Err?
  {
    hide Represents, DropCr;
    DropResourceRefines(env, sha, ids, s, m, id);
    var gone := DropCr(env, s, BindingKey(sha, id));
    if gone.result.Ok? {
      DropSecretRefines(env, sha, ids, gone.state, m.(bindings := m.bindings - {id}), id);
    }
  }

  // --- reading bindings ---

  /** One of the calls with these numbers was failed by the environment. */
  predicate CallFailed(env: CrEnv, from: nat, to: nat) {
    exists n: nat | from <= n < to :: env(n).CrFault?
  }

  lemma NoCallsYet(env: CrEnv, from: nat)
    ensures !CallFailed(env, from, from)
  {
  }

  lemma CallsChain(env: CrEnv, a: nat, b: nat, c: nat)
    requires a <= b <= c
    ensures CallFailed(env, a, c) <==> CallFailed(env, a, b) || CallFailed(env, b, c)
  {
  }

  /** What loading makes of a spec that was made from `b`, with the credentials it finds. */
  lemma SpecOfBinding(sha: Sha, b: Binding, creds: Params)
    requires BindingToSpec(b, SecretNameFor(sha, b)).Ok?
    ensures var spec := BindingToSpec(b, SecretNameFor(sha, b)).value;
      && spec.id == b.id && spec.instanceId == b.instanceId && spec.credentialsSecret == SecretNameFor(sha, b)
      && RawToMap(spec.parameters).Ok? && RawToSlice(spec.volumeMounts).Ok?
      && SpecToBinding(spec, NormalParams(creds)) == Ok(NormalBinding(b.(credentials := creds)))
  {
    hide ResourceName, SecretNameFor;
    NormalDict(b.parameters);
    NormalListValue(b.volumeMounts);
  }

  lemma SecretNameIsNotEmpty(name: string)
    ensures name + SUFFIX != ""
  {
    assert |name + SUFFIX| >= |SUFFIX|;
  }

  /** The credentials that can be read for a binding: those in its Secret, if it refers to
      one and there is one. */
  function Readable(m: Mirror, b: Binding): Params {
    if |b.credentials| > 0 && b.id in m.secrets then m.secrets[b.id] else map[]
  }

  /** A binding as it is read. */
  function Seen(m: Mirror, b: Binding): Binding {
    b.(credentials := Readable(m, b))
  }

  lemma NormalOfNothing()
    ensures NormalParams(map[]) == map[]
  {
  }

  lemma ReadCredentialsRefines(env: CrEnv, sha: Sha, ids: set<string>, s: CrState, m: Mirror, b: Binding)
    requires Gentle(env) && InjectiveOn(sha, ids) && b.id in ids && Represents(sha, ids, s, m)
    ensures var r := ReadCredentials(env, s, SecretNameFor(sha, b));
      && KeptOutside(s, r.state, {})
      && (r.result.Ok? ==> r.result.value == NormalParams(Readable(m, b)))
      && r.result != Err(NotFound)
      && (r.result.Err? <==> CallFailed(env, s.clock, r.state.clock)) && r.state.clock >= s.clock
  {
    hide ResourceName, NormalParams, Normal, Represents, KeptOutside, InjectiveOn, SecretKey;
    NormalOfNothing();
    NothingKept(s);
    NoCallsYet(env, s.clock);
    if |b.credentials| > 0 {
      var t := CrTick(env, s);
      TickKeeps(env, s);
      RepresentsIsStable(sha, ids, s, t, m);
      SecretLookup(sha, ids, t, m, b.id);
      SecretNameOfKey(sha, b);
      if b.id in m.secrets { NormalDict(m.secrets[b.id]); }
      assert env(s.clock).CrFault? <==> CallFailed(env, s.clock, s.clock + 1);
    }
  }

  lemma SecretNameOfKey(sha: Sha, b: Binding)
    requires |b.credentials| > 0
    ensures SecretNameFor(sha, b) != "" && CrKey(KSecret, SecretNameFor(sha, b)) == SecretKey(sha, b.id)
  {
    hide ResourceName;
    SecretNameIsNotEmpty(ResourceName(b.id, sha));
  }

  /** Loading a stored binding gives it in JSON normal form, with the credentials that are in
      its Secret, and fails only when a call failed. */
  lemma LoadRefines(env: CrEnv, sha: Sha, ids: set<string>, s: CrState, m: Mirror, b: Binding)
    requires Gentle(env) && InjectiveOn(sha, ids) && b.id in ids && Represents(sha, ids, s, m)
    requires BindingToSpec(b, SecretNameFor(sha, b)).Ok?
    ensures var r := LoadBinding(env, s, BindingToSpec(b, SecretNameFor(sha, b)).value);
      && KeptOutside(s, r.state, {})
      && (r.result.Ok? ==> r.result.value == NormalBinding(Seen(m, b)))
      && r.result != Err(NotFound)
      && (r.result.Err? <==> CallFailed(env, s.clock, r.state.clock)) && r.state.clock >= s.clock
  {
    SpecOfBinding(sha, b, Readable(m, b));
    ReadCredentialsRefines(env, sha, ids, s, m, b);
    hide BindingToSpec, SpecToBinding, ReadCredentials, NormalBinding, NormalParams, SecretNameFor, KeptOutside, CallFailed, RawToMap, RawToSlice, Represents, Readable;
  }

  lemma GetBindingRefines(env: CrEnv, sha: Sha, ids: set<string>, s: CrState, m: Mirror, id: string)
    requires Gentle(env) && InjectiveOn(sha, ids) && id in ids && Represents(sha, ids, s, m)
    ensures var r := GetBindingSpec(env, sha, s, id);
      && Represents(sha, ids, r.state, m)
      && (r.result.Ok? ==> id in m.bindings && r.result.value == NormalBinding(Seen(m, m.bindings[id])))
      && (r.result == Err(NotFound) ==> id !in m.bindings)
  {
    hide LoadBinding, Represents, NormalBinding, BindingToSpec, KeptOutside, SecretNameFor, ResourceName, Marked, Seen, InjectiveOn;
    var u := CrTick(env, s);
    TickKeeps(env, s);
    RepresentsIsStable(sha, ids, s, u, m);
    BindingLookup(sha, ids, u, m, id);
    if id in m.bindings {
      var b := m.bindings[id];
      LoadRefines(env, sha, ids, u, m, b);
      SpecOfBinding(sha, b, map[]);
      var r := LoadBinding(env, u, BindingToSpec(b, SecretNameFor(sha, b)).value);
      RepresentsIsStable(sha, ids, u, r.state, m);
    }
  }

  /** With no assumption on names at all: what Get returns is the record of the id asked for. */
  lemma GetNeverReturnsAnotherRecord(env: CrEnv, sha: Sha, s: CrState, id: string)
    ensures GetInstanceSpec(env, sha, s, id).result.Ok? ==> GetInstanceSpec(env, sha, s, id).result.value.id == id
    ensures GetBindingSpec(env, sha, s, id).result.Ok? ==> GetBindingSpec(env, sha, s, id).result.value.id == id
  {
  }

  // --- whole runs ---

  datatype StoreOp =
    | PutI(env: CrEnv, i: Instance) | GetI(env: CrEnv, id: string) | DelI(env: CrEnv, id: string)
    | PutB(env: CrEnv, b: Binding) | GetB(env: CrEnv, id: string) | DelB(env: CrEnv, id: string)

  datatype Answer = Done | AnInstance(i: Instance) | ABinding(b: Binding) | Missing | Failing

  function OpId(op: StoreOp): string {
    match op
    case PutI(_, i) => i.id
    case PutB(_, b) => b.id
    case _ => op.id
  }

  function DoneOr(r: Result<Unit, ApiError>): Answer {
    if r.Ok? then Done else Failing
  }

  /** One operation on the custom resources, and what its caller sees. */
  function CrdStep(sha: Sha, s: CrState, op: StoreOp): (CrState, Answer) {
    match op
    case PutI(env, i) => var r := PutInstanceSpec(env, sha, s, i); (r.state, DoneOr(r.result))
    case DelI(env, id) => var r := DeleteInstanceSpec(env, sha, s, id); (r.state, DoneOr(r.result))
    case PutB(env, b) => var r := PutBindingSpec(env, sha, s, b); (r.state, DoneOr(r.result))
    case DelB(env, id) => var r := DeleteBindingSpec(env, sha, s, id); (r.state, DoneOr(r.result))
    case GetI(env, id) =>
      var r := GetInstanceSpec(env, sha, s, id);
      (r.state, if r.result.Ok? then AnInstance(r.result.value) else if r.result.error == NotFound then Missing else Failing)
    case GetB(env, id) =>
      var r := GetBindingSpec(env, sha, s, id);
      (r.state, if r.result.Ok? then ABinding(r.result.value) else if r.result.error == NotFound then Missing else Failing)
  }

  /** The same operation on what the resources stand for. */
  function MirrorStep(m: Mirror, op: StoreOp): (Mirror, Answer) {
    match op
    case PutI(_, i) => (m.(instances := m.instances[i.id := i]), Done)
    case DelI(_, id) => (m.(instances := m.instances - {id}), Done)
    case PutB(_, b) => (WithCredentials(m.(bindings := m.bindings[b.id := b]), b), Done)
    case DelB(_, id) => (m.(bindings := m.bindings - {id}, secrets := m.secrets - {id}), Done)
    case GetI(_, id) => (m, if id in m.instances then AnInstance(m.instances[id]) else Missing)
    case GetB(_, id) => (m, if id in m.bindings then ABinding(Seen(m, m.bindings[id])) else Missing)
  }

  /** And its first half alone: the binding's resource is written or deleted, its Secret is
      not touched. */
  function HalfStep(m: Mirror, op: StoreOp): Mirror {
    match op
    case PutB(_, b) => m.(bindings := m.bindings[b.id := b])
    case DelB(_, id) => m.(bindings := m.bindings - {id})
    case _ => m
  }

  /** The first half of a write or deletion of a binding went through. */
  function HalfDone(sha: Sha, s: CrState, op: StoreOp): bool {
    match op
    case PutB(env, b) => PutResource(env, sha, s, b).result.Ok?
    case DelB(env, id) => DropCr(env, s, BindingKey(sha, id)).result.Ok?
    case _ => false
  }

  function NormalAnswer(a: Answer): Answer {
    match a
    case AnInstance(i) => AnInstance(NormalInstance(i))
    case ABinding(b) => ABinding(NormalBinding(b))
    case _ => a
  }

  /** What the resources stand for afterwards. */
  function Follows(sha: Sha, s: CrState, m: Mirror, op: StoreOp): Mirror {
    if CrdStep(sha, s, op).1 != Failing then MirrorStep(m, op).0
    else if HalfDone(sha, s, op) then HalfStep(m, op)
    else m
  }

  /** The ids are among those on which names are injective, and nothing is removed from
      outside. Any call may fail. */
  ghost predicate Admissible(ids: set<string>, op: StoreOp) {
    OpId(op) in ids && Gentle(op.env)
  }

  /** Step by step: an operation is answered by what the resources stand for, in JSON normal
      form, or fails; a failure has done nothing, or exactly the first half. */
  lemma StepRefines(sha: Sha, ids: set<string>, s: CrState, m: Mirror, op: StoreOp)
    requires InjectiveOn(sha, ids) && Represents(sha, ids, s, m) && Admissible(ids, op)
    ensures var (t, a) := CrdStep(sha, s, op);
      && Represents(sha, ids, t, Follows(sha, s, m, op))
      && (a == Failing || a == NormalAnswer(MirrorStep(m, op).1))
  {
    hide Represents, NormalInstance, NormalBinding, PutInstanceSpec, GetInstanceSpec, DeleteInstanceSpec,
      PutBindingSpec, GetBindingSpec, DeleteBindingSpec, PutResource, DropCr, InjectiveOn, WithCredentials, Seen;
    match op
    case PutI(env, i) => PutInstanceRefines(env, sha, ids, s, m, i);
    case GetI(env, id) => GetInstanceRefines(env, sha, ids, s, m, id);
    case DelI(env, id) => DeleteInstanceRefines(env, sha, ids, s, m, id);
    case PutB(env, b) => PutBindingRefines(env, sha, ids, s, m, b);
    case GetB(env, id) => GetBindingRefines(env, sha, ids, s, m, id);
    case DelB(env, id) => DeleteBindingRefines(env, sha, ids, s, m, id);
  }

  function CrdRun(sha: Sha, s: CrState, ops: seq<StoreOp>): CrState {
    if ops == [] then s else CrdStep(sha, CrdRun(sha, s, ops[..|ops| - 1]), ops[|ops| - 1]).0
  }

  function MirrorRun(sha: Sha, s: CrState, m: Mirror, ops: seq<StoreOp>): Mirror {
    if ops == [] then m
    else
      var init := ops[..|ops| - 1];
      Follows(sha, CrdRun(sha, s, init), MirrorRun(sha, s, m, init), ops[|ops| - 1])
  }

  /** After every sequence of operations, with any calls failing, the resources represent
      what was written, half-written bindings included, and the next operation is answered
      accordingly. */
  lemma {:induction false} CrdStoreIsExact(sha: Sha, ids: set<string>, s: CrState, m: Mirror, ops: seq<StoreOp>, next: StoreOp)
    requires InjectiveOn(sha, ids) && Represents(sha, ids, s, m)
    requires Admissible(ids, next) && forall op | op in ops :: Admissible(ids, op)
    ensures var t, v := CrdRun(sha, s, ops), MirrorRun(sha, s, m, ops);
      && Represents(sha, ids, t, v)
      && (CrdStep(sha, t, next).1 == Failing || CrdStep(sha, t, next).1 == NormalAnswer(MirrorStep(v, next).1))
  {
    hide CrdStep, MirrorStep, Represents, Follows, Admissible, InjectiveOn;
    RunRepresents(sha, ids, s, m, ops);
    StepRefines(sha, ids, CrdRun(sha, s, ops), MirrorRun(sha, s, m, ops), next);
  }

  lemma {:induction false} RunRepresents(sha: Sha, ids: set<string>, s: CrState, m: Mirror, ops: seq<StoreOp>)
    requires InjectiveOn(sha, ids) && Represents(sha, ids, s, m) && forall op | op in ops :: Admissible(ids, op)
    ensures Represents(sha, ids, CrdRun(sha, s, ops), MirrorRun(sha, s, m, ops))
  {
    hide CrdStep, MirrorStep, Represents, Follows, Admissible, InjectiveOn;
    if ops != [] {
      var init := ops[..|ops| - 1];
      RunRepresents(sha, ids, s, m, init);
      StepRefines(sha, ids, CrdRun(sha, s, init), MirrorRun(sha, s, m, init), ops[|ops| - 1]);
    }
  }

  lemma EmptyRepresentsEmpty(sha: Sha, ids: set<string>, clock: nat, next: nat)
    ensures Represents(sha, ids, CrState(map[], clock, next), Mirror(map[], map[], map[]))
  {
  }

  // --- the plain map ---

  /** One operation on the plain map. */
  function MemStep(m: Mem, op: StoreOp): (Mem, Answer) {
    match op
    case PutI(_, i) => (m.(instances := m.instances[i.id := i]), Done)
    case DelI(_, id) => (m.(instances := m.instances - {id}), Done)
    case PutB(_, b) => (m.(bindings := m.bindings[b.id := b]), Done)
    case DelB(_, id) => (m.(bindings := m.bindings - {id}), Done)
    case GetI(_, id) => (m, if id in m.instances then AnInstance(m.instances[id]) else Missing)
    case GetB(_, id) => (m, if id in m.bindings then ABinding(m.bindings[id]) else Missing)
  }

  /** A failed operation leaves the map alone. */
  function MemRun(sha: Sha, s: CrState, m: Mem, ops: seq<StoreOp>): Mem {
    if ops == [] then m
    else
      var init := ops[..|ops| - 1];
      var v := MemRun(sha, s, m, init);
      if CrdStep(sha, CrdRun(sha, s, init), ops[|ops| - 1]).1 == Failing then v else MemStep(v, ops[|ops| - 1]).0
  }

  /** The resources stand for the map as far as the binding `id` goes: its Secret holds its
      credentials. */
  predicate Settled(v: Mirror, m: Mem, id: string) {
    && (id in v.bindings <==> id in m.bindings)
    && (id in m.bindings ==> v.bindings[id] == m.bindings[id] && m.bindings[id].id == id && Readable(v, m.bindings[id]) == m.bindings[id].credentials)
  }

  predicate Concerns(op: StoreOp, id: string) {
    (op.PutB? || op.DelB?) && OpId(op) == id
  }

  /** No operation on this binding since the last completed one was broken off half way. */
  ghost predicate Unbroken(sha: Sha, s: CrState, ops: seq<StoreOp>, id: string) {
    ops == [] ||
      var init, last := ops[..|ops| - 1], ops[|ops| - 1];
      var t := CrdRun(sha, s, init);
      if Concerns(last, id)
      then CrdStep(sha, t, last).1 == Done || (!HalfDone(sha, t, last) && Unbroken(sha, s, init, id))
      else Unbroken(sha, s, init, id)
  }

  /** A completed write or deletion settles its binding. */
  lemma CompletedWriteSettles(v: Mirror, m: Mem, op: StoreOp, id: string)
    requires Concerns(op, id)
    ensures Settled(MirrorStep(v, op).0, MemStep(m, op).0, id)
  {
  }

  lemma OtherStepsLeaveSettled(v: Mirror, m: Mem, op: StoreOp, id: string)
    requires !Concerns(op, id) && Settled(v, m, id)
    ensures Settled(MirrorStep(v, op).0, MemStep(m, op).0, id) && Settled(HalfStep(v, op), m, id)
  {
  }

  lemma InstancesInStep(v: Mirror, m: Mem, op: StoreOp)
    requires v.instances == m.instances
    ensures MirrorStep(v, op).0.instances == MemStep(m, op).0.instances && HalfStep(v, op).instances == m.instances
  {
    hide Readable;
  }

  /** The custom-resource store refines the plain map: after every sequence of operations with
      any calls failing, the next operation fails or is answered as the map answers it, up to
      JSON normal form. The one exception is reading a binding whose last write or deletion
      was broken off half way, until the next one that completes. */
  lemma {:induction false} CrdStoreRefinesTheMap(sha: Sha, ids: set<string>, s: CrState, v: Mirror, m: Mem, ops: seq<StoreOp>, next: StoreOp)
    requires InjectiveOn(sha, ids) && Represents(sha, ids, s, v) && v.instances == m.instances && forall id :: Settled(v, m, id)
    requires Admissible(ids, next) && forall op | op in ops :: Admissible(ids, op)
    requires next.GetB? ==> Unbroken(sha, s, ops, next.id)
    ensures var a := CrdStep(sha, CrdRun(sha, s, ops), next).1;
      a == Failing || a == NormalAnswer(MemStep(MemRun(sha, s, m, ops), next).1)
  {
    hide CrdStep, Represents, Follows, Admissible, InjectiveOn, Unbroken, Settled;
    CrdStoreIsExact(sha, ids, s, v, ops, next);
    RunStaysSettled(sha, s, v, m, ops, OpId(next));
    var w, n := MirrorRun(sha, s, v, ops), MemRun(sha, s, m, ops);
    SettledAnswers(w, n, next);
  }

  lemma SettledAnswers(v: Mirror, m: Mem, op: StoreOp)
    requires v.instances == m.instances && (op.GetB? ==> Settled(v, m, op.id))
    ensures MirrorStep(v, op).1 == MemStep(m, op).1
  {
    hide Readable;
  }

  lemma {:induction false} RunStaysSettled(sha: Sha, s: CrState, v: Mirror, m: Mem, ops: seq<StoreOp>, id: string)
    requires v.instances == m.instances && Settled(v, m, id)
    ensures MirrorRun(sha, s, v, ops).instances == MemRun(sha, s, m, ops).instances
    ensures Unbroken(sha, s, ops, id) ==> Settled(MirrorRun(sha, s, v, ops), MemRun(sha, s, m, ops), id)
  {
    hide CrdStep, Settled, MemStep, MirrorStep, HalfStep, HalfDone;
    if ops != [] {
      var init, last := ops[..|ops| - 1], ops[|ops| - 1];
      RunStaysSettled(sha, s, v, m, init, id);
      var w, n := MirrorRun(sha, s, v, init), MemRun(sha, s, m, init);
      InstancesInStep(w, n, last);
      if Concerns(last, id) {
        CompletedWriteSettles(w, n, last, id);
      } else if Settled(w, n, id) {
        OtherStepsLeaveSettled(w, n, last, id);
      }
      if last.PutB? || last.DelB? { AnswersOfWrites(sha, CrdRun(sha, s, init), last); }
    }
  }

  lemma AnswersOfWrites(sha: Sha, s: CrState, op: StoreOp)
    requires op.PutB? || op.DelB?
    ensures CrdStep(sha, s, op).1 in {Done, Failing}
  {
    hide PutBindingSpec, DeleteBindingSpec;
  }
}
