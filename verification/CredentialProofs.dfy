/** Credentials across crashes, retries, garbage collection and manual deletion: in this
    module the environment of the custom-resource store does anything it can. */
module CredentialProofs {
  import opened Wrappers
  import opened Json
  import opened Names
  import opened Api
  import opened StateStore
  import opened CrdStore
  import opened CrdProofs

  // --- every Secret has its owner ---

  /** The object may be written under `k` when the next uid is `next`. */
  predicate Fits(k: CrKey, body: Body, next: nat) {
    k.kind == KSecret ==> body.SecretBody? && k.name == body.ownerName + SUFFIX && body.ownerUid < next
  }

  /** Every uid was handed out, and every credentials Secret names as its owner a binding
      resource after which the Secret itself is named. */
  ghost predicate SecretsOwned(s: CrState) {
    forall k | k in s.objects :: s.objects[k].uid < s.next && Fits(k, s.objects[k].body, s.next)
  }

  lemma TickKeepsOwners(env: CrEnv, s: CrState)
    requires SecretsOwned(s)
    ensures SecretsOwned(CrTick(env, s)) && CrTick(env, s).next >= s.next
    ensures CrTick(env, s).objects.Keys <= s.objects.Keys
  {
  }

  lemma CallsKeepOwners(env: CrEnv, s: CrState, k: CrKey, labels: map<string, string>, cr: Cr)
    requires SecretsOwned(s) && Fits(k, cr.body, s.next)
    ensures SecretsOwned(CrCreate(env, s, k, labels, cr.body).state)
    ensures SecretsOwned(CrUpdate(env, s, k, cr).state) && CrUpdate(env, s, k, cr).state.next >= s.next
    ensures SecretsOwned(DropCr(env, s, k).state)
  {
    TickKeepsOwners(env, s);
  }

  lemma {:induction false} PutCrKeepsOwners(env: CrEnv, s: CrState, k: CrKey, initial: map<string, string>, merged: map<string, string>, body: Body, attempts: nat)
    requires SecretsOwned(s) && Fits(k, body, s.next)
    ensures SecretsOwned(PutCr(env, s, k, initial, merged, body, attempts).state)
    decreases attempts
  {
    hide SecretsOwned, CrTick, CrCreate, CrUpdate;
    if attempts > 0 {
      TickKeepsOwners(env, s);
      var got := CrGet(env, s, k);
      CallsKeepOwners(env, got.state, k, initial, Cr(initial, map[], body, 0, 0));
      if got.result.Ok? {
        var cr := got.result.value.(body := body, labels := got.result.value.labels + merged);
        CallsKeepOwners(env, got.state, k, initial, cr);
        var put := CrUpdate(env, got.state, k, cr);
        PutCrKeepsOwners(env, put.state, k, initial, merged, body, attempts - 1);
      }
    }
  }

  lemma DropKeepsOwners(env: CrEnv, s: CrState, k: CrKey)
    requires SecretsOwned(s)
    ensures SecretsOwned(DropCr(env, s, k).state)
  {
    TickKeepsOwners(env, s);
  }

  lemma WriteCredentialsKeepsOwners(env: CrEnv, sha: Sha, s: CrState, b: Binding)
    requires SecretsOwned(s)
    ensures SecretsOwned(WriteCredentials(env, sha, s, b).state)
  {
    hide PutCr, ResourceName, Normal, Encodable;
    if Encodable(Dict(b.credentials)) {
      TickKeepsOwners(env, s);
      var owner := CrGet(env, s, BindingKey(sha, b.id));
      if owner.result.Ok? {
        PutCrKeepsOwners(env, owner.state, SecretKey(sha, b.id), Managed(map[]), map[],
                         SecretBody(ResourceName(b.id, sha), owner.result.value.uid, Normal(Dict(b.credentials))), CR_RETRIES);
      }
    }
  }

  lemma PutBindingKeepsOwners(env: CrEnv, sha: Sha, s: CrState, b: Binding)
    requires SecretsOwned(s)
    ensures SecretsOwned(PutBindingSpec(env, sha, s, b).state)
  {
    hide SecretsOwned, PutCr, DropCr, WriteCredentials, BindingToSpec, SecretNameFor, ResourceName;
    var spec := BindingToSpec(b, SecretNameFor(sha, b));
    if spec.Ok? {
      var lbl := InstanceLabel(sha, b.instanceId);
      PutCrKeepsOwners(env, s, BindingKey(sha, b.id), Managed(lbl), lbl, BindingBody(spec.value), CR_RETRIES);
      var u := PutCr(env, s, BindingKey(sha, b.id), Managed(lbl), lbl, BindingBody(spec.value), CR_RETRIES).state;
      DropKeepsOwners(env, u, SecretKey(sha, b.id));
      WriteCredentialsKeepsOwners(env, sha, u, b);
    }
  }

  lemma ReadsKeepOwners(env: CrEnv, sha: Sha, s: CrState, id: string)
    requires SecretsOwned(s)
    ensures SecretsOwned(GetInstanceSpec(env, sha, s, id).state) && SecretsOwned(GetBindingSpec(env, sha, s, id).state)
  {
    hide SecretsOwned, CrTick, ResourceName, SpecToBinding, SpecToInstance, RawToMap, RawToSlice;
    TickKeepsOwners(env, s);
    TickKeepsOwners(env, CrTick(env, s));
  }

  lemma StepKeepsOwners(sha: Sha, s: CrState, op: StoreOp)
    requires SecretsOwned(s)
    ensures SecretsOwned(CrdStep(sha, s, op).0)
  {
    hide SecretsOwned, PutCr, DropCr, PutBindingSpec, GetBindingSpec, GetInstanceSpec, InstanceToSpec, ResourceName;
    match op
    case PutI(env, i) =>
      if InstanceToSpec(i).Ok? {
        PutCrKeepsOwners(env, s, InstanceKey(sha, i.id), Managed(map[]), map[], InstanceBody(InstanceToSpec(i).value), CR_RETRIES);
      }
    case DelI(env, id) => DropKeepsOwners(env, s, InstanceKey(sha, id));
    case PutB(env, b) => PutBindingKeepsOwners(env, sha, s, b);
    case DelB(env, id) =>
      DropKeepsOwners(env, s, BindingKey(sha, id));
      DropKeepsOwners(env, DropCr(env, s, BindingKey(sha, id)).state, SecretKey(sha, id));
    case GetI(env, id) => ReadsKeepOwners(env, sha, s, id);
    case GetB(env, id) => ReadsKeepOwners(env, sha, s, id);
  }

  /** After any sequence of operations, each broken off at any call or not, every Secret is
      owned by the binding resource it is named after. */
  lemma {:induction false} EverySecretIsOwned(sha: Sha, s: CrState, ops: seq<StoreOp>)
    requires SecretsOwned(s)
    ensures SecretsOwned(CrdRun(sha, s, ops))
  {
    hide SecretsOwned, CrdStep;
    if ops != [] {
      var init := ops[..|ops| - 1];
      EverySecretIsOwned(sha, s, init);
      StepKeepsOwners(sha, CrdRun(sha, s, init), ops[|ops| - 1]);
    }
  }

  /** So the garbage collector may take the Secret as soon as the resource is gone, however
      it went. */
  lemma OrphanIsCollectable(sha: Sha, s: CrState, ops: seq<StoreOp>, binding: string)
    requires SecretsOwned(s)
    ensures var t := CrdRun(sha, s, ops);
      CrKey(KSecret, binding + SUFFIX) in t.objects && CrKey(KBinding, binding) !in t.objects ==> Collectable(t, binding + SUFFIX)
  {
    hide CrdRun;
    EverySecretIsOwned(sha, s, ops);
    var t := CrdRun(sha, s, ops);
    var k := CrKey(KSecret, binding + SUFFIX);
    if k in t.objects {
      SuffixCancels(binding, t.objects[k].body.ownerName);
    }
  }

  lemma SuffixCancels(a: string, b: string)
    requires a + SUFFIX == b + SUFFIX
    ensures a == b
  {
    assert |a| == |b| && (a + SUFFIX)[..|a|] == a && (b + SUFFIX)[..|b|] == b;
  }

  // --- an orphan is not adopted ---

  /** The Secret is gone or the garbage collector may take it. */
  predicate Dead(s: CrState, secret: string) {
    CrKey(KSecret, secret) in s.objects ==> Collectable(s, secret)
  }

  lemma TickKeepsDead(env: CrEnv, s: CrState, secret: string)
    requires Dead(s, secret)
    ensures Dead(CrTick(env, s), secret)
  {
  }

  /** A new binding resource of the old name has a new uid, so it does not adopt the Secret. */
  lemma CallsKeepDead(env: CrEnv, s: CrState, k: CrKey, labels: map<string, string>, cr: Cr, secret: string)
    requires SecretsOwned(s) && Dead(s, secret) && k != CrKey(KSecret, secret)
    ensures Dead(CrCreate(env, s, k, labels, cr.body).state, secret)
    ensures Dead(CrUpdate(env, s, k, cr).state, secret)
  {
    TickKeepsDead(env, s, secret);
    TickKeepsOwners(env, s);
    var t := CrTick(env, s);
    var sk := CrKey(KSecret, secret);
    if sk in t.objects {
      assert Fits(sk, t.objects[sk].body, t.next);
    }
  }

  lemma DropKeepsDead(env: CrEnv, s: CrState, k: CrKey, secret: string)
    requires Dead(s, secret)
    ensures Dead(DropCr(env, s, k).state, secret)
  {
    TickKeepsDead(env, s, secret);
  }

  lemma {:induction false} PutCrKeepsDead(env: CrEnv, s: CrState, k: CrKey, initial: map<string, string>, merged: map<string, string>, body: Body, attempts: nat, secret: string)
    requires SecretsOwned(s) && Fits(k, body, s.next) && Dead(s, secret) && k != CrKey(KSecret, secret)
    ensures Dead(PutCr(env, s, k, initial, merged, body, attempts).state, secret)
    decreases attempts
  {
    hide SecretsOwned, Dead, CrTick, CrCreate, CrUpdate;
    if attempts > 0 {
      TickKeepsOwners(env, s);
      TickKeepsDead(env, s, secret);
      var got := CrGet(env, s, k);
      CallsKeepDead(env, got.state, k, initial, Cr(initial, map[], body, 0, 0), secret);
      if got.result.Ok? {
        var cr := got.result.value.(body := body, labels := got.result.value.labels + merged);
        CallsKeepDead(env, got.state, k, initial, cr, secret);
        CallsKeepOwners(env, got.state, k, initial, cr);
        var put := CrUpdate(env, got.state, k, cr);
        PutCrKeepsDead(env, put.state, k, initial, merged, body, attempts - 1, secret);
      }
    }
  }

  lemma PutBindingKeepsDead(env: CrEnv, sha: Sha, s: CrState, b: Binding, secret: string)
    requires SecretsOwned(s) && Dead(s, secret) && SecretKey(sha, b.id).name != secret
    ensures Dead(PutBindingSpec(env, sha, s, b).state, secret)
  {
    hide SecretsOwned, Dead, PutCr, DropCr, CrTick, BindingToSpec, SecretNameFor, ResourceName, Encodable, Normal;
    var spec := BindingToSpec(b, SecretNameFor(sha, b));
    if spec.Ok? {
      var lbl := InstanceLabel(sha, b.instanceId);
      var k := BindingKey(sha, b.id);
      PutCrKeepsOwners(env, s, k, Managed(lbl), lbl, BindingBody(spec.value), CR_RETRIES);
      PutCrKeepsDead(env, s, k, Managed(lbl), lbl, BindingBody(spec.value), CR_RETRIES, secret);
      var u := PutCr(env, s, k, Managed(lbl), lbl, BindingBody(spec.value), CR_RETRIES).state;
      DropKeepsDead(env, u, SecretKey(sha, b.id), secret);
      TickKeepsOwners(env, u);
      TickKeepsDead(env, u, secret);
      var owner := CrGet(env, u, k);
      if owner.result.Ok? {
        var body := SecretBody(ResourceName(b.id, sha), owner.result.value.uid, Normal(Dict(b.credentials)));
        UidWasHandedOut(owner.state, k);
        PutCrKeepsDead(env, owner.state, SecretKey(sha, b.id), Managed(map[]), map[], body, CR_RETRIES, secret);
      }
    }
  }

  lemma UidWasHandedOut(s: CrState, k: CrKey)
    requires SecretsOwned(s)
    ensures k in s.objects ==> s.objects[k].uid < s.next
  {
  }

  /** Whether an operation writes the Secret of this name. */
  predicate WritesSecret(sha: Sha, op: StoreOp, secret: string) {
    op.PutB? && SecretKey(sha, op.b.id).name == secret
  }

  lemma StepKeepsDead(sha: Sha, s: CrState, op: StoreOp, secret: string)
    requires SecretsOwned(s) && Dead(s, secret) && !WritesSecret(sha, op, secret)
    ensures Dead(CrdStep(sha, s, op).0, secret)
  {
    hide SecretsOwned, Dead, PutCr, DropCr, CrTick, PutBindingSpec, InstanceToSpec, ResourceName, SpecToBinding, SpecToInstance, RawToMap, RawToSlice;
    TickKeepsDead(op.env, s, secret);
    TickKeepsDead(op.env, CrTick(op.env, s), secret);
    match op
    case PutI(env, i) =>
      if InstanceToSpec(i).Ok? {
        PutCrKeepsDead(env, s, InstanceKey(sha, i.id), Managed(map[]), map[], InstanceBody(InstanceToSpec(i).value), CR_RETRIES, secret);
      }
    case DelI(env, id) => DropKeepsDead(env, s, InstanceKey(sha, id), secret);
    case PutB(env, b) => PutBindingKeepsDead(env, sha, s, b, secret);
    case DelB(env, id) =>
      DropKeepsDead(env, s, BindingKey(sha, id), secret);
      DropKeepsDead(env, DropCr(env, s, BindingKey(sha, id)).state, SecretKey(sha, id), secret);
    case GetI(env, id) =>
    case GetB(env, id) =>
  }

  /** Once its owner is gone a Secret stays collectable, even when a binding resource of the
      same name comes back, until somebody writes the credentials of that name anew. */
  lemma {:induction false} OrphanIsNotAdopted(sha: Sha, s: CrState, ops: seq<StoreOp>, secret: string)
    requires SecretsOwned(s) && Dead(s, secret)
    requires forall op | op in ops :: !WritesSecret(sha, op, secret)
    ensures Dead(CrdRun(sha, s, ops), secret)
  {
    hide SecretsOwned, Dead, CrdStep, WritesSecret;
    if ops != [] {
      var init := ops[..|ops| - 1];
      OrphanIsNotAdopted(sha, s, init, secret);
      EverySecretIsOwned(sha, s, init);
      StepKeepsDead(sha, CrdRun(sha, s, init), ops[|ops| - 1], secret);
    }
  }

  // --- what completed writes leave behind ---

  lemma {:induction false} CompletedPutCr(env: CrEnv, s: CrState, k: CrKey, initial: map<string, string>, merged: map<string, string>, body: Body, attempts: nat)
    ensures var r := PutCr(env, s, k, initial, merged, body, attempts);
      r.result.Ok? ==> k in r.state.objects && r.state.objects[k].body == body
    decreases attempts
  {
    hide CrTick;
    if attempts > 0 {
      var got := CrGet(env, s, k);
      if got.result.Ok? {
        var cr := got.result.value;
        var put := CrUpdate(env, got.state, k, cr.(body := body, labels := cr.labels + merged));
        CompletedPutCr(env, put.state, k, initial, merged, body, attempts - 1);
      }
    }
  }

  /** Whatever happens in between, a PutBinding that completes leaves in the Secret exactly
      the credentials it was given, or no Secret when it was given none. */
  lemma CompletedPutBindingLeavesItsCredentials(env: CrEnv, sha: Sha, s: CrState, b: Binding)
    ensures var r, c := PutBindingSpec(env, sha, s, b), SecretKey(sha, b.id);
      r.result.Ok? ==>
        if |b.credentials| == 0 then c !in r.state.objects
        else && c in r.state.objects && r.state.objects[c].body.SecretBody?
             && r.state.objects[c].body.payload == Dict(NormalParams(b.credentials))
  {
    hide PutCr, ResourceName, Encodable, BindingToSpec, Normal, SecretNameFor, CrTick, NormalParams;
    var spec := BindingToSpec(b, SecretNameFor(sha, b));
    NormalDict(b.credentials);
    if spec.Ok? && |b.credentials| > 0 {
      var lbl := InstanceLabel(sha, b.instanceId);
      var u := PutCr(env, s, BindingKey(sha, b.id), Managed(lbl), lbl, BindingBody(spec.value), CR_RETRIES).state;
      var owner := CrGet(env, u, BindingKey(sha, b.id));
      if owner.result.Ok? {
        var body := SecretBody(ResourceName(b.id, sha), owner.result.value.uid, Normal(Dict(b.credentials)));
        CompletedPutCr(env, owner.state, SecretKey(sha, b.id), Managed(map[]), map[], body, CR_RETRIES);
      }
    }
  }

  /** Whatever happens in between, a DeleteBinding that completes leaves neither object. */
  lemma CompletedDeleteBindingLeavesNothing(env: CrEnv, sha: Sha, s: CrState, id: string)
    ensures var r := DeleteBindingSpec(env, sha, s, id); r.result.Ok? ==> BindingKeys(sha, id) !! r.state.objects.Keys
  {
    hide ResourceName;
    var u := DropCr(env, s, BindingKey(sha, id)).state;
    TickCreatesNothing(env, u);
  }

  lemma TickCreatesNothing(env: CrEnv, s: CrState)
    ensures CrTick(env, s).objects.Keys <= s.objects.Keys
  {
  }

  // --- what an uncompleted write can leave behind ---

  /** Nothing happens, except that call number `at` fails. */
  function FaultAt(at: nat): CrEnv {
    (n: nat) => if n == at then CrFault else Still
  }

  function Undisturbed(): CrEnv {
    (n: nat) => Still
  }

  /** The credentials a Secret holds: none, if there is no Secret. */
  function CredentialsAt(s: CrState, c: CrKey): Result<Params, Unit> {
    if c !in s.objects || !s.objects[c].body.SecretBody? then Ok(map[]) else RawToMap(Some(s.objects[c].body.payload))
  }

  /** A write of a binding with credentials that was broken off after the resource: read
      undisturbed, the binding has whatever credentials the Secret of its name held before the
      write. So it is read with its own if and only if these stood there already; where no
      Secret stood, it is read with none rather than with somebody else's. */
  lemma BrokenOffPutIsRead(env: CrEnv, sha: Sha, s: CrState, b: Binding)
    requires Gentle(env) && |b.credentials| > 0
    requires PutResource(env, sha, s, b).result.Ok? && PutBindingSpec(env, sha, s, b).result.Err?
    ensures var got := GetBindingSpec(Undisturbed(), sha, PutBindingSpec(env, sha, s, b).state, b.id).result;
      var c := SecretKey(sha, b.id);
      && (match CredentialsAt(s, c)
          case Ok(creds) => got == Ok(NormalBinding(b).(credentials := creds))
          case Err(_) => got == Err(Failed))
      && (got == Ok(NormalBinding(b)) <==>
            c in s.objects && s.objects[c].body.SecretBody? && s.objects[c].body.payload == Normal(Dict(b.credentials)))
      && (c !in s.objects ==> got == Ok(NormalBinding(b.(credentials := map[]))))
  {
    hide PutResource, PutBindingSpec, GetBindingSpec, ResourceName, Normal, NormalParams, NormalBinding, SecretKey, KeptOutside;
    var t := PutBindingSpec(env, sha, s, b).state;
    BrokenOffPutLeaves(env, sha, s, b);
    UndisturbedGet(sha, t, b);
    OwnCredentialsIff(s, SecretKey(sha, b.id), b);
    NormalWithout(b);
  }

  /** The resource is the new one, the Secret the old one. */
  lemma BrokenOffPutLeaves(env: CrEnv, sha: Sha, s: CrState, b: Binding)
    requires Gentle(env) && |b.credentials| > 0
    requires PutResource(env, sha, s, b).result.Ok? && PutBindingSpec(env, sha, s, b).result.Err?
    ensures var t, k := PutBindingSpec(env, sha, s, b).state, BindingKey(sha, b.id);
      && BindingToSpec(b, SecretNameFor(sha, b)).Ok?
      && k in t.objects && t.objects[k].body == BindingBody(BindingToSpec(b, SecretNameFor(sha, b)).value)
      && CredentialsAt(t, SecretKey(sha, b.id)) == CredentialsAt(s, SecretKey(sha, b.id))
  {
    hide PutResource, PutBindingSpec, WriteCredentials, ResourceName, Normal, BindingToSpec, SecretNameFor, RawToMap, Written;
    var k, c := BindingKey(sha, b.id), SecretKey(sha, b.id);
    PutBindingInTwoHalves(env, sha, s, b);
    PutResourceEffect(env, sha, s, b);
    var u := PutResource(env, sha, s, b).state;
    WriteCredentialsEffect(env, sha, u, b);
    var t := PutBindingSpec(env, sha, s, b).state;
    var lbl := InstanceLabel(sha, b.instanceId);
    WrittenBody(s, u, k, Managed(lbl), lbl, BindingBody(BindingToSpec(b, SecretNameFor(sha, b)).value));
    assert KeptAt(u, t, k) && KeptAt(u, t, c) && KeptAt(s, u, c);
  }

  lemma UndisturbedGet(sha: Sha, t: CrState, b: Binding)
    requires |b.credentials| > 0 && BindingToSpec(b, SecretNameFor(sha, b)).Ok?
    requires var k := BindingKey(sha, b.id);
      k in t.objects && t.objects[k].body == BindingBody(BindingToSpec(b, SecretNameFor(sha, b)).value)
    ensures var got := GetBindingSpec(Undisturbed(), sha, t, b.id).result;
      match CredentialsAt(t, SecretKey(sha, b.id))
      case Ok(creds) => got == Ok(NormalBinding(b).(credentials := creds))
      case Err(_) => got == Err(Failed)
  {
    hide BindingToSpec, ResourceName, SecretNameFor, RawToMap, RawToSlice, NormalParams, NormalList;
    LoadedSpec(sha, b);
    SecretNameOfKey(sha, b);
  }

  lemma LoadedSpec(sha: Sha, b: Binding)
    requires BindingToSpec(b, SecretNameFor(sha, b)).Ok?
    ensures var spec := BindingToSpec(b, SecretNameFor(sha, b)).value;
      && spec.id == b.id && spec.credentialsSecret == SecretNameFor(sha, b)
      && RawToMap(spec.parameters).Ok? && RawToSlice(spec.volumeMounts).Ok?
      && forall creds :: SpecToBinding(spec, creds) == Ok(NormalBinding(b).(credentials := creds))
  {
    hide ResourceName, SecretNameFor;
    NormalDict(b.parameters);
    NormalListValue(b.volumeMounts);
  }

  lemma OwnCredentialsIff(s: CrState, c: CrKey, b: Binding)
    requires |b.credentials| > 0
    ensures CredentialsAt(s, c) == Ok(NormalParams(b.credentials)) <==>
      c in s.objects && s.objects[c].body.SecretBody? && s.objects[c].body.payload == Normal(Dict(b.credentials))
    ensures NormalBinding(b).credentials == NormalParams(b.credentials)
    ensures c !in s.objects ==> CredentialsAt(s, c) == Ok(map[])
  {
    hide Normal;
    NormalDict(b.credentials);
    assert NormalParams(b.credentials).Keys == b.credentials.Keys && |b.credentials.Keys| == |b.credentials|;
  }

  lemma NormalWithout(b: Binding)
    ensures NormalBinding(b.(credentials := map[])) == NormalBinding(b).(credentials := map[])
  {
    NormalOfNothing();
  }

  /** How an old Secret comes to stand there: a deletion broken off between its halves. The
      next binding of that id, if its own write is broken off too, is then read with the
      credentials of the deleted one. */
  lemma StaleCredentials(sha: Sha, s: CrState, gone: Binding, b: Binding)
    requires SecretStored(sha, s, gone.id, gone.credentials) && BindingKey(sha, gone.id) in s.objects
    requires b.id == gone.id && |b.credentials| > 0 && BindingToSpec(b, SecretNameFor(sha, b)).Ok? && Encodable(Dict(b.credentials))
    ensures var deleted := DeleteBindingSpec(FaultAt(s.clock + 1), sha, s, gone.id);
      var written := PutBindingSpec(FaultAt(s.clock + 4), sha, deleted.state, b);
      && deleted.result.Err? && written.result.Err?
      && GetBindingSpec(Undisturbed(), sha, written.state, b.id).result == Ok(NormalBinding(b.(credentials := gone.credentials)))
  {
    hide BindingToSpec, ResourceName, Normal, Encodable, NormalParams, NormalBinding, GetBindingSpec, DeleteBindingSpec, PutBindingSpec, PutResource,
      SecretNameFor, CredentialsAt, SecretKey, BindingKey;
    var u := HalfDeleted(sha, s, gone.id);
    var env := FaultAt(s.clock + 4);
    HalfWritten(sha, u, b);
    FaultsAreGentle(s.clock + 4);
    BrokenOffPutIsRead(env, sha, u, b);
    NormalWith(b, gone.credentials);
    StoredIsReadable(sha, s, u, gone);
  }

  /** A deletion that loses its second call has removed the resource alone. */
  lemma HalfDeleted(sha: Sha, s: CrState, id: string) returns (u: CrState)
    requires BindingKey(sha, id) in s.objects
    ensures u == CrState(s.objects - {BindingKey(sha, id)}, s.clock + 2, s.next)
    ensures var deleted := DeleteBindingSpec(FaultAt(s.clock + 1), sha, s, id); deleted.state == u && deleted.result.Err?
  {
    hide ResourceName;
    u := CrState(s.objects - {BindingKey(sha, id)}, s.clock + 2, s.next);
  }

  /** A write of a new binding that loses its third call has created the resource alone. */
  lemma HalfWritten(sha: Sha, u: CrState, b: Binding)
    requires BindingKey(sha, b.id) !in u.objects
    requires |b.credentials| > 0 && BindingToSpec(b, SecretNameFor(sha, b)).Ok? && Encodable(Dict(b.credentials))
    ensures PutResource(FaultAt(u.clock + 2), sha, u, b).result.Ok?
    ensures PutBindingSpec(FaultAt(u.clock + 2), sha, u, b).result.Err?
  {
    hide BindingToSpec, ResourceName, Normal, Encodable;
    var env, k, lbl := FaultAt(u.clock + 2), BindingKey(sha, b.id), InstanceLabel(sha, b.instanceId);
    var body := BindingBody(BindingToSpec(b, SecretNameFor(sha, b)).value);
    var made := PutCr(env, u, k, Managed(lbl), lbl, body, CR_RETRIES);
    assert made.result.Ok? && made.state.clock == u.clock + 2;
    assert PutResource(env, sha, u, b) == made;
    PutBindingInTwoHalves(env, sha, u, b);
  }

  lemma StoredIsReadable(sha: Sha, s: CrState, u: CrState, gone: Binding)
    requires SecretStored(sha, s, gone.id, gone.credentials)
    requires u.objects == s.objects - {BindingKey(sha, gone.id)}
    ensures CredentialsAt(u, SecretKey(sha, gone.id)) == Ok(NormalParams(gone.credentials))
  {
    hide ResourceName, Normal;
    NormalDict(gone.credentials);
  }

  lemma NormalWith(b: Binding, creds: Params)
    ensures NormalBinding(b.(credentials := creds)) == NormalBinding(b).(credentials := NormalParams(creds))
  {
  }

  lemma FaultsAreGentle(at: nat)
    ensures Gentle(FaultAt(at))
  {
  }
}
