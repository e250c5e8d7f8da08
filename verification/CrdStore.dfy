/** The state store that keeps every record in its own custom resource and the credentials
    of a binding in a Secret beside it (internal/broker/crdstate.go). */
module CrdStore {
  import opened Wrappers
  import opened Json
  import opened Names
  import opened Api
  import opened StateStore

  // --- the objects ---

  datatype Kind = KInstance | KBinding | KSecret

  datatype CrKey = CrKey(kind: Kind, name: string)

  /** A RawExtension: absent, or JSON as it was written. */
  type Raw = Option<Value>

  datatype InstanceSpec = InstanceSpec(
    id: string, serviceId: string, planId: string, context: Context, ns: string, dashboardUrl: string,
    ready: bool, parameters: Raw, appliedObjects: seq<string>, appliedRefs: seq<Key>, maintenanceVersion: string)

  datatype BindingSpec = BindingSpec(
    id: string, instanceId: string, serviceId: string, planId: string, appGuid: string, context: Context,
    ready: bool, parameters: Raw, volumeMounts: Raw, syslogDrainUrl: string, routeServiceUrl: string,
    credentialsSecret: string)

  /** The owner reference of a credentials Secret and the JSON under "credentials.json". */
  datatype Body =
    | InstanceBody(instance: InstanceSpec)
    | BindingBody(binding: BindingSpec)
    | SecretBody(ownerName: string, ownerUid: nat, payload: Value)

  datatype Cr = Cr(labels: map<string, string>, annotations: map<string, string>, body: Body, uid: nat, version: nat)

  datatype CrState = CrState(objects: map<CrKey, Cr>, clock: nat, next: nat)

  /** What happens just before the store's n-th call, or to it. A Fault is also how a crash
      between two calls looks: the rest of the operation does not happen. `Annotate` is
      anyone adding an annotation, `Collect` the garbage collector, `Remove` somebody
      deleting a binding resource by hand. */
  datatype CrAct = Still | CrFault | Annotate(key: CrKey, k: string, v: string) | Collect(secret: string) | Remove(binding: string)

  type CrEnv = nat -> CrAct

  datatype CrRet<T> = CrRet(state: CrState, result: Result<T, ApiError>)

  /** Kubernetes collects a Secret when the object its owner reference names is gone, that
      is, when no resource of that name has that uid. */
  predicate Collectable(s: CrState, secret: string) {
    var k := CrKey(KSecret, secret);
    k in s.objects && s.objects[k].body.SecretBody?
    && var o := CrKey(KBinding, s.objects[k].body.ownerName);
       !(o in s.objects && s.objects[o].uid == s.objects[k].body.ownerUid)
  }

  function Act(a: CrAct, s: CrState): CrState {
    match a
    case Annotate(key, k, v) =>
      if key in s.objects then
        var cr := s.objects[key].(annotations := s.objects[key].annotations[k := v], version := s.next);
        s.(objects := s.objects[key := cr], next := s.next + 1)
      else s
    case Collect(secret) => if Collectable(s, secret) then s.(objects := s.objects - {CrKey(KSecret, secret)}) else s
    case Remove(binding) => s.(objects := s.objects - {CrKey(KBinding, binding)})
    case _ => s
  }

  function CrTick(env: CrEnv, s: CrState): CrState {
    Act(env(s.clock), s).(clock := s.clock + 1)
  }

  function CrGet(env: CrEnv, s: CrState, k: CrKey): CrRet<Cr> {
    var t := CrTick(env, s);
    CrRet(t, if env(s.clock).CrFault? then Err(Failed) else if k in t.objects then Ok(t.objects[k]) else Err(NotFound))
  }

  function CrCreate(env: CrEnv, s: CrState, k: CrKey, labels: map<string, string>, body: Body): CrRet<Unit> {
    var t := CrTick(env, s);
    if env(s.clock).CrFault? then CrRet(t, Err(Failed))
    else if k in t.objects then CrRet(t, Err(AlreadyExists))
    else CrRet(CrState(t.objects[k := Cr(labels, map[], body, t.next, t.next)], t.clock, t.next + 1), Ok(Unit))
  }

  function CrUpdate(env: CrEnv, s: CrState, k: CrKey, cr: Cr): CrRet<Unit> {
    var t := CrTick(env, s);
    if env(s.clock).CrFault? then CrRet(t, Err(Failed))
    else if k !in t.objects then CrRet(t, Err(NotFound))
    else if t.objects[k].version != cr.version then CrRet(t, Err(Conflict))
    else CrRet(CrState(t.objects[k := cr.(uid := t.objects[k].uid, version := t.next)], t.clock, t.next + 1), Ok(Unit))
  }

  function CrDelete(env: CrEnv, s: CrState, k: CrKey): CrRet<Unit> {
    var t := CrTick(env, s);
    if env(s.clock).CrFault? then CrRet(t, Err(Failed))
    else if k !in t.objects then CrRet(t, Err(NotFound))
    else CrRet(t.(objects := t.objects - {k}), Ok(Unit))
  }

  /** The server's selection of binding resources by label. */
  function Labelled(objects: map<CrKey, Cr>, l: string, v: string): map<CrKey, Cr> {
    map k | k in objects && k.kind == KBinding && l in objects[k].labels && objects[k].labels[l] == v :: objects[k]
  }

  function CrList(env: CrEnv, s: CrState, l: string, v: string): CrRet<map<CrKey, Cr>> {
    var t := CrTick(env, s);
    CrRet(t, if env(s.clock).CrFault? then Err(Failed) else Ok(Labelled(t.objects, l, v)))
  }

  class CrClient {
    const env: CrEnv
    var state: CrState

    constructor (env: CrEnv, state: CrState)
      ensures this.env == env && this.state == state
    {
      this.env, this.state := env, state;
    }

    method Get(k: CrKey) returns (r: Result<Cr, ApiError>)
      modifies this
      ensures CrRet(state, r) == CrGet(env, old(state), k)
    {
      var ret := CrGet(env, state, k);
      state, r := ret.state, ret.result;
    }

    method List(l: string, v: string) returns (r: Result<map<CrKey, Cr>, ApiError>)
      modifies this
      ensures CrRet(state, r) == CrList(env, old(state), l, v)
    {
      var ret := CrList(env, state, l, v);
      state, r := ret.state, ret.result;
    }

    method Create(k: CrKey, labels: map<string, string>, body: Body) returns (r: Result<Unit, ApiError>)
      modifies this
      ensures CrRet(state, r) == CrCreate(env, old(state), k, labels, body)
    {
      var ret := CrCreate(env, state, k, labels, body);
      state, r := ret.state, ret.result;
    }

    method Update(k: CrKey, cr: Cr) returns (r: Result<Unit, ApiError>)
      modifies this
      ensures CrRet(state, r) == CrUpdate(env, old(state), k, cr)
    {
      var ret := CrUpdate(env, state, k, cr);
      state, r := ret.state, ret.result;
    }

    method Delete(k: CrKey) returns (r: Result<Unit, ApiError>)
      modifies this
      ensures CrRet(state, r) == CrDelete(env, old(state), k)
    {
      var ret := CrDelete(env, state, k);
      state, r := ret.state, ret.result;
    }
  }

  // --- conversions ---

  const MANAGED_BY := "app.kubernetes.io/managed-by"
  const MANAGED_BY_VALUE := "osb-broker-go"
  const LABEL_INSTANCE := "broker.osb.io/instance"
  const SUFFIX := "-credentials"

  /** toRaw: nothing and empty are not stored; what JSON cannot express is an error. */
  function ToRaw(v: Value): Result<Raw, Unit> {
    if v.Null? || (v.Dict? && |v.fields| == 0) || (v.List? && |v.elems| == 0) then Ok(None)
    else if !Encodable(v) then Err(Unit)
    else Ok(Some(Normal(v)))
  }

  /** rawToMap. */
  function RawToMap(r: Raw): Result<Params, Unit> {
    match r
    case None => Ok(map[])
    case Some(Dict(fs)) => Ok(fs)
    case Some(Null) => Ok(map[])
    case _ => Err(Unit)
  }

  /** rawToSlice. */
  function RawToSlice(r: Raw): Result<seq<Value>, Unit> {
    match r
    case None => Ok([])
    case Some(List(es)) => Ok(es)
    case Some(Null) => Ok([])
    case _ => Err(Unit)
  }

  function InstanceToSpec(i: Instance): Result<InstanceSpec, Unit> {
    match ToRaw(Dict(i.parameters))
    case Err(_) => Err(Unit)
    case Ok(params) =>
      Ok(InstanceSpec(i.id, i.serviceId, i.planId, i.context, i.ns, i.dashboardUrl, i.ready, params,
                      i.appliedObjects, i.appliedRefs, i.maintenanceVersion))
  }

  function SpecToInstance(s: InstanceSpec): Result<Instance, Unit> {
    match RawToMap(s.parameters)
    case Err(_) => Err(Unit)
    case Ok(params) =>
      Ok(Instance(s.id, s.serviceId, s.planId, s.context, params, s.dashboardUrl, s.ready, s.ns,
                  s.appliedObjects, s.appliedRefs, s.maintenanceVersion))
  }

  function BindingToSpec(b: Binding, secret: string): Result<BindingSpec, Unit> {
    match (ToRaw(Dict(b.parameters)), ToRaw(List(b.volumeMounts)))
    case (Ok(params), Ok(mounts)) =>
      Ok(BindingSpec(b.id, b.instanceId, b.serviceId, b.planId, b.appGuid, b.context, b.ready, params, mounts,
                     b.syslogDrainUrl, b.routeServiceUrl, secret))
    case _ => Err(Unit)
  }

  function SpecToBinding(s: BindingSpec, credentials: Params): Result<Binding, Unit> {
    match (RawToMap(s.parameters), RawToSlice(s.volumeMounts))
    case (Ok(params), Ok(mounts)) =>
      Ok(Binding(s.id, s.instanceId, s.serviceId, s.planId, s.appGuid, s.context, params, credentials,
                 s.syslogDrainUrl, s.routeServiceUrl, mounts, s.ready))
    case _ => Err(Unit)
  }

  // --- operations ---

  type Sha = string -> Hex48

  function InstanceKey(sha: Sha, id: string): CrKey {
    CrKey(KInstance, ResourceName(id, sha))
  }

  function BindingKey(sha: Sha, id: string): CrKey {
    CrKey(KBinding, ResourceName(id, sha))
  }

  function SecretKey(sha: Sha, id: string): CrKey {
    CrKey(KSecret, ResourceName(id, sha) + SUFFIX)
  }

  function Managed(labels: map<string, string>): map<string, string> {
    map[MANAGED_BY := MANAGED_BY_VALUE] + labels
  }

  const CR_RETRIES: nat := 5

  /** The get-then-write loop that all three writers share: create what is missing with
      `initial` labels, otherwise replace the body, merge `merged` into the labels, and leave
      everything else on the object alone. */
  function PutCr(env: CrEnv, s: CrState, k: CrKey, initial: map<string, string>, merged: map<string, string>, body: Body, attempts: nat): CrRet<Unit>
    decreases attempts
  {
    if attempts == 0 then CrRet(s, Err(Conflict))
    else
      var got := CrGet(env, s, k);
      match got.result
      case Err(NotFound) => CrCreate(env, got.state, k, initial, body)
      case Err(e) => CrRet(got.state, Err(e))
      case Ok(cr) =>
        var put := CrUpdate(env, got.state, k, cr.(body := body, labels := cr.labels + merged));
        if put.result == Err(Conflict) then PutCr(env, put.state, k, initial, merged, body, attempts - 1) else put
  }

  /** Deleting something that is gone already is fine. */
  function DropCr(env: CrEnv, s: CrState, k: CrKey): CrRet<Unit> {
    var r := CrDelete(env, s, k);
    if r.result == Err(NotFound) then CrRet(r.state, Ok(Unit)) else r
  }

  function PutInstanceSpec(env: CrEnv, sha: Sha, s: CrState, i: Instance): CrRet<Unit> {
    match InstanceToSpec(i)
    case Err(_) => CrRet(s, Err(Failed))
    case Ok(spec) => PutCr(env, s, InstanceKey(sha, i.id), Managed(map[]), map[], InstanceBody(spec), CR_RETRIES)
  }

  function GetInstanceSpec(env: CrEnv, sha: Sha, s: CrState, id: string): CrRet<Instance> {
    var got := CrGet(env, s, InstanceKey(sha, id));
    match got.result
    case Err(e) => CrRet(got.state, Err(e))
    case Ok(cr) =>
      if !cr.body.InstanceBody? || cr.body.instance.id != id then CrRet(got.state, Err(NotFound))
      else
        match SpecToInstance(cr.body.instance)
        case Err(_) => CrRet(got.state, Err(Failed))
        case Ok(i) => CrRet(got.state, Ok(i))
  }

  function DeleteInstanceSpec(env: CrEnv, sha: Sha, s: CrState, id: string): CrRet<Unit> {
    DropCr(env, s, InstanceKey(sha, id))
  }

  /** writeCredentialsSecret: read the owner's uid, then write the Secret. */
  function WriteCredentials(env: CrEnv, sha: Sha, s: CrState, b: Binding): CrRet<Unit> {
    if !Encodable(Dict(b.credentials)) then CrRet(s, Err(Failed))
    else
      var owner := CrGet(env, s, BindingKey(sha, b.id));
      match owner.result
      case Err(e) => CrRet(owner.state, Err(e))
      case Ok(cr) =>
        PutCr(env, owner.state, SecretKey(sha, b.id), Managed(map[]), map[],
              SecretBody(ResourceName(b.id, sha), cr.uid, Normal(Dict(b.credentials))), CR_RETRIES)
  }

  function SecretNameFor(sha: Sha, b: Binding): string {
    if |b.credentials| > 0 then ResourceName(b.id, sha) + SUFFIX else ""
  }

  function InstanceLabel(sha: Sha, instanceId: string): map<string, string> {
    map[LABEL_INSTANCE := ResourceName(instanceId, sha)]
  }

  /** The second half of PutBinding: the credentials of a binding whose resource is there. */
  function PutCredentials(env: CrEnv, sha: Sha, s: CrState, b: Binding): CrRet<Unit> {
    if |b.credentials| == 0 then DropCr(env, s, SecretKey(sha, b.id)) else WriteCredentials(env, sha, s, b)
  }

  function PutBindingSpec(env: CrEnv, sha: Sha, s: CrState, b: Binding): CrRet<Unit> {
    match BindingToSpec(b, SecretNameFor(sha, b))
    case Err(_) => CrRet(s, Err(Failed))
    case Ok(spec) =>
      var lbl := InstanceLabel(sha, b.instanceId);
      var put := PutCr(env, s, BindingKey(sha, b.id), Managed(lbl), lbl, BindingBody(spec), CR_RETRIES);
      if put.result.Err? then put else PutCredentials(env, sha, put.state, b)
  }

  /** readCredentials: a missing Secret reads as no credentials. */
  function ReadCredentials(env: CrEnv, s: CrState, secret: string): CrRet<Params> {
    if secret == "" then CrRet(s, Ok(map[]))
    else
      var got := CrGet(env, s, CrKey(KSecret, secret));
      match got.result
      case Err(NotFound) => CrRet(got.state, Ok(map[]))
      case Err(e) => CrRet(got.state, Err(e))
      case Ok(cr) =>
        if !cr.body.SecretBody? then CrRet(got.state, Ok(map[]))
        else
          match RawToMap(Some(cr.body.payload))
          case Err(_) => CrRet(got.state, Err(Failed))
          case Ok(c) => CrRet(got.state, Ok(c))
  }

  function LoadBinding(env: CrEnv, s: CrState, spec: BindingSpec): CrRet<Binding> {
    if RawToMap(spec.parameters).Err? || RawToSlice(spec.volumeMounts).Err? then CrRet(s, Err(Failed))
    else
      var creds := ReadCredentials(env, s, spec.credentialsSecret);
      match creds.result
      case Err(e) => CrRet(creds.state, Err(e))
      case Ok(c) =>
        match SpecToBinding(spec, c)
        case Err(_) => CrRet(creds.state, Err(Failed))
        case Ok(b) => CrRet(creds.state, Ok(b))
  }

  function GetBindingSpec(env: CrEnv, sha: Sha, s: CrState, id: string): CrRet<Binding> {
    var got := CrGet(env, s, BindingKey(sha, id));
    match got.result
    case Err(e) => CrRet(got.state, Err(e))
    case Ok(cr) =>
      if !cr.body.BindingBody? || cr.body.binding.id != id then CrRet(got.state, Err(NotFound))
      else LoadBinding(env, got.state, cr.body.binding)
  }

  function DeleteBindingSpec(env: CrEnv, sha: Sha, s: CrState, id: string): CrRet<Unit> {
    var gone := DropCr(env, s, BindingKey(sha, id));
    if gone.result.Err? then gone else DropCr(env, gone.state, SecretKey(sha, id))
  }

  /** The hits of a listing that really belong to the instance. */
  function Selected(items: map<CrKey, Cr>, instanceId: string): set<CrKey> {
    set k | k in items && items[k].body.BindingBody? && items[k].body.binding.instanceId == instanceId
  }

  predicate SpecsOf(items: map<CrKey, Cr>, order: seq<CrKey>, specs: seq<BindingSpec>) {
    |specs| == |order| && forall i | 0 <= i < |order| :: order[i] in items && items[order[i]].body == BindingBody(specs[i])
  }

  /** Loading bindings one after the other until one fails. */
  function LoadAll(env: CrEnv, s: CrState, specs: seq<BindingSpec>): CrRet<seq<Binding>> {
    if specs == [] then CrRet(s, Ok([]))
    else
      var before := LoadAll(env, s, specs[..|specs| - 1]);
      if before.result.Err? then before
      else
        var one := LoadBinding(env, before.state, specs[|specs| - 1]);
        CrRet(one.state, if one.result.Ok? then Ok(before.result.value + [one.result.value]) else Err(one.result.error))
  }

  lemma {:induction false} LoadAllStops(env: CrEnv, s: CrState, specs: seq<BindingSpec>, n: nat)
    requires n <= |specs| && LoadAll(env, s, specs[..n]).result.Err?
    ensures LoadAll(env, s, specs) == LoadAll(env, s, specs[..n])
    decreases |specs| - n
  {
    hide LoadBinding;
    if n == |specs| {
      assert specs[..n] == specs;
    } else {
      assert specs[..n + 1][..n] == specs[..n];
      LoadAllStops(env, s, specs, n + 1);
    }
  }

  class CRDStateStore {
    const client: CrClient
    const sha: Sha

    constructor (client: CrClient, sha: Sha)
      ensures this.client == client && this.sha == sha
    {
      this.client, this.sha := client, sha;
    }

    method PutObject(k: CrKey, initial: map<string, string>, merged: map<string, string>, body: Body) returns (r: Result<Unit, ApiError>)
      modifies client
      ensures CrRet(client.state, r) == PutCr(client.env, old(client.state), k, initial, merged, body, CR_RETRIES)
    {
      var attempts := CR_RETRIES;
      while attempts > 0
        invariant PutCr(client.env, client.state, k, initial, merged, body, attempts)
               == PutCr(client.env, old(client.state), k, initial, merged, body, CR_RETRIES)
      {
        var got := client.Get(k);
        if got == Err(NotFound) {
          r := client.Create(k, initial, body);
          return;
        }
        if got.Err? {
          return Err(got.error);
        }
        var cr := got.value;
        r := client.Update(k, cr.(body := body, labels := cr.labels + merged));
        if r != Err(Conflict) {
          return;
        }
        attempts := attempts - 1;
      }
      r := Err(Conflict);
    }

    method DeleteObject(k: CrKey) returns (r: Result<Unit, ApiError>)
      modifies client
      ensures CrRet(client.state, r) == DropCr(client.env, old(client.state), k)
    {
      r := client.Delete(k);
      if r == Err(NotFound) {
        r := Ok(Unit);
      }
    }

    method PutInstance(i: Instance) returns (r: Result<Unit, ApiError>)
      modifies client
      ensures CrRet(client.state, r) == PutInstanceSpec(client.env, sha, old(client.state), i)
    {
      var spec := InstanceToSpec(i);
      if spec.Err? {
        return Err(Failed);
      }
      r := PutObject(InstanceKey(sha, i.id), Managed(map[]), map[], InstanceBody(spec.value));
    }

    method GetInstance(id: string) returns (r: Result<Instance, ApiError>)
      modifies client
      ensures CrRet(client.state, r) == GetInstanceSpec(client.env, sha, old(client.state), id)
    {
      var got := client.Get(InstanceKey(sha, id));
      if got.Err? {
        return Err(got.error);
      }
      if !got.value.body.InstanceBody? || got.value.body.instance.id != id {
        return Err(NotFound);
      }
      var i := SpecToInstance(got.value.body.instance);
      r := if i.Err? then Err(Failed) else Ok(i.value);
    }

    method DeleteInstance(id: string) returns (r: Result<Unit, ApiError>)
      modifies client
      ensures CrRet(client.state, r) == DeleteInstanceSpec(client.env, sha, old(client.state), id)
    {
      r := DeleteObject(InstanceKey(sha, id));
    }

    method PutBinding(b: Binding) returns (r: Result<Unit, ApiError>)
      modifies client
      ensures CrRet(client.state, r) == PutBindingSpec(client.env, sha, old(client.state), b)
    {
      var spec := BindingToSpec(b, SecretNameFor(sha, b));
      if spec.Err? {
        return Err(Failed);
      }
      var lbl := InstanceLabel(sha, b.instanceId);
      r := PutObject(BindingKey(sha, b.id), Managed(lbl), lbl, BindingBody(spec.value));
      if r.Err? {
        return;
      }
      if |b.credentials| == 0 {
        r := DeleteObject(SecretKey(sha, b.id));
      } else {
        r := WriteCredentialsSecret(b);
      }
    }

    method WriteCredentialsSecret(b: Binding) returns (r: Result<Unit, ApiError>)
      modifies client
      ensures CrRet(client.state, r) == WriteCredentials(client.env, sha, old(client.state), b)
    {
      if !Encodable(Dict(b.credentials)) {
        return Err(Failed);
      }
      var owner := client.Get(BindingKey(sha, b.id));
      if owner.Err? {
        return Err(owner.error);
      }
      r := PutObject(SecretKey(sha, b.id), Managed(map[]), map[],
                     SecretBody(ResourceName(b.id, sha), owner.value.uid, Normal(Dict(b.credentials))));
    }

    method BindingFromSpec(spec: BindingSpec) returns (r: Result<Binding, ApiError>)
      modifies client
      ensures CrRet(client.state, r) == LoadBinding(client.env, old(client.state), spec)
    {
      if RawToMap(spec.parameters).Err? || RawToSlice(spec.volumeMounts).Err? {
        return Err(Failed);
      }
      var creds: Params := map[];
      if spec.credentialsSecret != "" {
        var sec := client.Get(CrKey(KSecret, spec.credentialsSecret));
        if sec.Err? && sec.error != NotFound {
          return Err(sec.error);
        }
        if sec.Ok? && sec.value.body.SecretBody? {
          var decoded := RawToMap(Some(sec.value.body.payload));
          if decoded.Err? {
            return Err(Failed);
          }
          creds := decoded.value;
        }
      }
      r := Ok(SpecToBinding(spec, creds).value);
    }

    method GetBinding(id: string) returns (r: Result<Binding, ApiError>)
      modifies client
      ensures CrRet(client.state, r) == GetBindingSpec(client.env, sha, old(client.state), id)
    {
      var got := client.Get(BindingKey(sha, id));
      if got.Err? {
        return Err(got.error);
      }
      if !got.value.body.BindingBody? || got.value.body.binding.id != id {
        return Err(NotFound);
      }
      r := BindingFromSpec(got.value.body.binding);
    }

    method DeleteBinding(id: string) returns (r: Result<Unit, ApiError>)
      modifies client
      ensures CrRet(client.state, r) == DeleteBindingSpec(client.env, sha, old(client.state), id)
    {
      r := DeleteObject(BindingKey(sha, id));
      if r.Err? {
        return;
      }
      r := DeleteObject(SecretKey(sha, id));
    }

    /** The hits of a listing are loaded in whatever order they came, `order`. */
    method ListBindingsByInstance(instanceId: string)
      returns (r: Result<seq<Binding>, ApiError>, ghost items: map<CrKey, Cr>, ghost order: seq<CrKey>, ghost specs: seq<BindingSpec>)
      modifies client
      ensures var listed := CrList(client.env, old(client.state), LABEL_INSTANCE, ResourceName(instanceId, sha));
        match listed.result
        case Err(e) => CrRet(client.state, r) == CrRet(listed.state, Err(e))
        case Ok(found) =>
          && items == found && NoDuplicates(order) && SpecsOf(items, order, specs) && (set k | k in order) == Selected(items, instanceId)
          && CrRet(client.state, r) == LoadAll(client.env, listed.state, specs)
    {
      hide LoadBinding, LoadAll, Selected, Labelled, Reached, SpecsOf, NoDuplicates, ResourceName;
      items, order, specs := map[], [], [];
      var listed := client.List(LABEL_INSTANCE, ResourceName(instanceId, sha));
      if listed.Err? {
        return Err(listed.error), items, order, specs;
      }
      ghost var start := client.state;
      items := listed.value;
      var hits := listed.value;
      var keys := hits.Keys;
      var out: seq<Binding> := [];
      NothingReached(client.env, start, items, instanceId);
      while keys != {}
        invariant keys <= hits.Keys
        invariant Reached(items, instanceId, keys, order, specs)
        invariant LoadAll(client.env, start, specs) == CrRet(client.state, Ok(out))
        decreases |keys|
      {
        var k :| k in keys;
        OneMoreReached(items, instanceId, keys, order, specs, k);
        keys := keys - {k};
        if !hits[k].body.BindingBody? || hits[k].body.binding.instanceId != instanceId {
          continue;
        }
        var spec := hits[k].body.binding;
        OneMoreLoaded(client.env, start, specs, client.state, out, spec);
        var b := BindingFromSpec(spec);
        order, specs := order + [k], specs + [spec];
        if b.Err? {
          ghost var n := |specs|;
          assert specs[..n] == specs;
          order, specs := Completed(items, instanceId, keys, order, specs);
          LoadAllStops(client.env, start, specs, n);
          return Err(b.error), items, order, specs;
        }
        out := out + [b.value];
      }
      AllReached(items, instanceId, order, specs);
      r := Ok(out);
    }
  }

  /** The hits of the instance outside `keys` are those in `order`, each once. */
  ghost predicate Reached(items: map<CrKey, Cr>, instanceId: string, keys: set<CrKey>, order: seq<CrKey>, specs: seq<BindingSpec>) {
    && NoDuplicates(order) && SpecsOf(items, order, specs)
    && forall k :: k in order <==> k in Selected(items, instanceId) && k !in keys
  }

  lemma NothingReached(env: CrEnv, s: CrState, items: map<CrKey, Cr>, instanceId: string)
    ensures Reached(items, instanceId, items.Keys, [], []) && LoadAll(env, s, []) == CrRet(s, Ok([]))
  {
  }

  lemma OneMoreReached(items: map<CrKey, Cr>, instanceId: string, keys: set<CrKey>, order: seq<CrKey>, specs: seq<BindingSpec>, k: CrKey)
    requires Reached(items, instanceId, keys, order, specs) && k in keys && k in items
    ensures if items[k].body.BindingBody? && items[k].body.binding.instanceId == instanceId
            then Reached(items, instanceId, keys - {k}, order + [k], specs + [items[k].body.binding])
            else Reached(items, instanceId, keys - {k}, order, specs)
  {
  }

  lemma AllReached(items: map<CrKey, Cr>, instanceId: string, order: seq<CrKey>, specs: seq<BindingSpec>)
    requires Reached(items, instanceId, {}, order, specs)
    ensures NoDuplicates(order) && SpecsOf(items, order, specs) && (set k | k in order) == Selected(items, instanceId)
  {
  }

  lemma OneMoreLoaded(env: CrEnv, s: CrState, specs: seq<BindingSpec>, t: CrState, out: seq<Binding>, spec: BindingSpec)
    requires LoadAll(env, s, specs) == CrRet(t, Ok(out))
    ensures var one := LoadBinding(env, t, spec);
      LoadAll(env, s, specs + [spec]) == CrRet(one.state, if one.result.Ok? then Ok(out + [one.result.value]) else Err(one.result.error))
  {
    hide LoadBinding;
    assert (specs + [spec])[..|specs|] == specs;
  }

  /** The hits that were not reached, in some order, behind those that were. */
  lemma Completed(items: map<CrKey, Cr>, instanceId: string, keys: set<CrKey>, order: seq<CrKey>, specs: seq<BindingSpec>)
    returns (all: seq<CrKey>, more: seq<BindingSpec>)
    requires Reached(items, instanceId, keys, order, specs)
    ensures NoDuplicates(all) && SpecsOf(items, all, more) && (set k | k in all) == Selected(items, instanceId)
    ensures |specs| <= |more| && more[..|specs|] == specs
    decreases keys
  {
    if k :| k in keys {
      if k in items && items[k].body.BindingBody? && items[k].body.binding.instanceId == instanceId {
        all, more := Completed(items, instanceId, keys - {k}, order + [k], specs + [items[k].body.binding]);
      } else {
        all, more := Completed(items, instanceId, keys - {k}, order, specs);
      }
    } else {
      all, more := order, specs;
    }
  }
}
