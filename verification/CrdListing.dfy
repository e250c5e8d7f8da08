/** Listing the bindings of an instance through the label index. */
module CrdListing {
  import opened Wrappers
  import opened Json
  import opened Names
  import opened Api
  import opened StateStore
  import opened CrdStore
  import opened CrdProofs

  // --- the index fits in every reachable state ---

  predicate LabelFits(sha: Sha, labels: map<string, string>, body: Body) {
    && body.BindingBody?
    && LABEL_INSTANCE in labels && labels[LABEL_INSTANCE] == ResourceName(body.binding.instanceId, sha)
  }

  /** Every binding resource is labelled with the instance its record names. */
  ghost predicate LabelsFit(sha: Sha, s: CrState) {
    forall k | k in s.objects && k.kind == KBinding :: LabelFits(sha, s.objects[k].labels, s.objects[k].body)
  }

  /** A write of the loop that is either not about a binding or labels it rightly. */
  predicate FittingWrite(sha: Sha, k: CrKey, initial: map<string, string>, merged: map<string, string>, body: Body) {
    k.kind == KBinding ==> LabelFits(sha, initial, body) && LabelFits(sha, merged, body)
  }

  lemma TickKeepsLabels(env: CrEnv, sha: Sha, s: CrState)
    requires LabelsFit(sha, s)
    ensures LabelsFit(sha, CrTick(env, s))
  {
    hide ResourceName;
  }

  lemma DropKeepsLabels(env: CrEnv, sha: Sha, s: CrState, k: CrKey)
    requires LabelsFit(sha, s)
    ensures LabelsFit(sha, DropCr(env, s, k).state)
  {
    hide ResourceName, LabelFits;
    TickKeepsLabels(env, sha, s);
  }

  lemma CallsKeepLabels(env: CrEnv, sha: Sha, s: CrState, k: CrKey, initial: map<string, string>, merged: map<string, string>, body: Body, cr: Cr)
    requires LabelsFit(sha, s) && FittingWrite(sha, k, initial, merged, body)
    ensures LabelsFit(sha, CrCreate(env, s, k, initial, body).state)
    ensures LabelsFit(sha, CrUpdate(env, s, k, cr.(body := body, labels := cr.labels + merged)).state)
  {
    hide ResourceName;
    TickKeepsLabels(env, sha, s);
  }

  lemma {:induction false} PutCrKeepsLabels(env: CrEnv, sha: Sha, s: CrState, k: CrKey, initial: map<string, string>, merged: map<string, string>, body: Body, attempts: nat)
    requires LabelsFit(sha, s) && FittingWrite(sha, k, initial, merged, body)
    ensures LabelsFit(sha, PutCr(env, s, k, initial, merged, body, attempts).state)
    decreases attempts
  {
    hide LabelsFit, FittingWrite, CrTick, CrCreate, CrUpdate;
    if attempts > 0 {
      TickKeepsLabels(env, sha, s);
      var got := CrGet(env, s, k);
      var cr := if got.result.Ok? then got.result.value else Cr(initial, map[], body, 0, 0);
      CallsKeepLabels(env, sha, got.state, k, initial, merged, body, cr);
      if got.result.Ok? {
        var put := CrUpdate(env, got.state, k, cr.(body := body, labels := cr.labels + merged));
        PutCrKeepsLabels(env, sha, put.state, k, initial, merged, body, attempts - 1);
      }
    }
  }

  lemma SpecInstance(sha: Sha, b: Binding)
    requires BindingToSpec(b, SecretNameFor(sha, b)).Ok?
    ensures BindingToSpec(b, SecretNameFor(sha, b)).value.instanceId == b.instanceId
  {
    hide ResourceName, SecretNameFor;
  }

  lemma PutBindingKeepsLabels(env: CrEnv, sha: Sha, s: CrState, b: Binding)
    requires LabelsFit(sha, s)
    ensures LabelsFit(sha, PutBindingSpec(env, sha, s, b).state)
  {
    hide LabelsFit, PutCr, DropCr, CrTick, BindingToSpec, SecretNameFor, ResourceName, Normal, Encodable;
    var spec := BindingToSpec(b, SecretNameFor(sha, b));
    if spec.Ok? {
      SpecInstance(sha, b);
      var lbl := InstanceLabel(sha, b.instanceId);
      var k := BindingKey(sha, b.id);
      assert FittingWrite(sha, k, Managed(lbl), lbl, BindingBody(spec.value));
      PutCrKeepsLabels(env, sha, s, k, Managed(lbl), lbl, BindingBody(spec.value), CR_RETRIES);
      var u := PutCr(env, s, k, Managed(lbl), lbl, BindingBody(spec.value), CR_RETRIES).state;
      DropKeepsLabels(env, sha, u, SecretKey(sha, b.id));
      TickKeepsLabels(env, sha, u);
      var owner := CrGet(env, u, k);
      if owner.result.Ok? {
        PutCrKeepsLabels(env, sha, owner.state, SecretKey(sha, b.id), Managed(map[]), map[],
                         SecretBody(ResourceName(b.id, sha), owner.result.value.uid, Normal(Dict(b.credentials))), CR_RETRIES);
      }
    }
  }

  lemma StepKeepsLabels(sha: Sha, s: CrState, op: StoreOp)
    requires LabelsFit(sha, s)
    ensures LabelsFit(sha, CrdStep(sha, s, op).0)
  {
    hide LabelsFit, PutCr, DropCr, CrTick, PutBindingSpec, InstanceToSpec, ResourceName, SpecToBinding, SpecToInstance, RawToMap, RawToSlice;
    TickKeepsLabels(op.env, sha, s);
    TickKeepsLabels(op.env, sha, CrTick(op.env, s));
    match op
    case PutI(env, i) =>
      if InstanceToSpec(i).Ok? {
        PutCrKeepsLabels(env, sha, s, InstanceKey(sha, i.id), Managed(map[]), map[], InstanceBody(InstanceToSpec(i).value), CR_RETRIES);
      }
    case DelI(env, id) => DropKeepsLabels(env, sha, s, InstanceKey(sha, id));
    case PutB(env, b) => PutBindingKeepsLabels(env, sha, s, b);
    case DelB(env, id) =>
      DropKeepsLabels(env, sha, s, BindingKey(sha, id));
      DropKeepsLabels(env, sha, DropCr(env, s, BindingKey(sha, id)).state, SecretKey(sha, id));
    case GetI(env, id) =>
    case GetB(env, id) =>
  }

  lemma {:induction false} EveryLabelFits(sha: Sha, s: CrState, ops: seq<StoreOp>)
    requires LabelsFit(sha, s)
    ensures LabelsFit(sha, CrdRun(sha, s, ops))
  {
    hide LabelsFit, CrdStep;
    if ops != [] {
      var init := ops[..|ops| - 1];
      EveryLabelFits(sha, s, init);
      StepKeepsLabels(sha, CrdRun(sha, s, init), ops[|ops| - 1]);
    }
  }

  /** The full scan the index stands for. */
  function OfInstance(s: CrState, instanceId: string): set<CrKey> {
    set k | k in s.objects && k.kind == KBinding && s.objects[k].body.BindingBody? && s.objects[k].body.binding.instanceId == instanceId
  }

  /** After every sequence of operations, in any environment, broken off anywhere, and whether
      or not names are injective: selecting by label and then by instance id finds exactly
      what a full scan by instance id would. */
  lemma LabelIndexIsComplete(sha: Sha, s: CrState, ops: seq<StoreOp>, instanceId: string)
    requires LabelsFit(sha, s)
    ensures var t := CrdRun(sha, s, ops);
      Selected(Labelled(t.objects, LABEL_INSTANCE, ResourceName(instanceId, sha)), instanceId) == OfInstance(t, instanceId)
  {
    hide CrdRun, ResourceName;
    EveryLabelFits(sha, s, ops);
    SelectionIsScan(sha, CrdRun(sha, s, ops), instanceId);
  }

  lemma SelectionIsScan(sha: Sha, s: CrState, instanceId: string)
    requires LabelsFit(sha, s)
    ensures Selected(Labelled(s.objects, LABEL_INSTANCE, ResourceName(instanceId, sha)), instanceId) == OfInstance(s, instanceId)
  {
    hide ResourceName;
    forall k | k in OfInstance(s, instanceId) ensures k in Selected(Labelled(s.objects, LABEL_INSTANCE, ResourceName(instanceId, sha)), instanceId) {
      assert LabelFits(sha, s.objects[k].labels, s.objects[k].body);
    }
  }

  // --- the listing is the list of the records ---

  lemma RepresentedLabelsFit(sha: Sha, ids: set<string>, s: CrState, m: Mirror)
    requires Represents(sha, ids, s, m)
    ensures LabelsFit(sha, s)
  {
    hide HoldsInstances, HoldsSecrets, BindingToSpec, SecretNameFor, ResourceName;
    forall k | k in s.objects && k.kind == KBinding ensures LabelFits(sha, s.objects[k].labels, s.objects[k].body) {
      var id :| id in m.bindings && BindingKey(sha, id) == k;
      SpecInstance(sha, m.bindings[id]);
      assert BindingStored(sha, s, m.bindings[id]);
    }
  }

  /** The bindings behind a list of resources. */
  ghost predicate Behind(sha: Sha, s: CrState, m: Mirror, order: seq<CrKey>, specs: seq<BindingSpec>, bids: seq<string>) {
    && |bids| == |order| == |specs|
    && forall i | 0 <= i < |bids| ::
         && bids[i] in m.bindings && order[i] == BindingKey(sha, bids[i]) && m.bindings[bids[i]].id == bids[i]
         && BindingToSpec(m.bindings[bids[i]], SecretNameFor(sha, m.bindings[bids[i]])) == Ok(specs[i])
  }

  lemma BindingBehind(sha: Sha, ids: set<string>, s: CrState, m: Mirror, instanceId: string, k: CrKey, spec: BindingSpec) returns (id: string)
    requires Represents(sha, ids, s, m) && k in OfInstance(s, instanceId) && s.objects[k].body == BindingBody(spec)
    ensures id in m.bindings && k == BindingKey(sha, id) && m.bindings[id].id == id && m.bindings[id].instanceId == instanceId
    ensures BindingToSpec(m.bindings[id], SecretNameFor(sha, m.bindings[id])) == Ok(spec)
  {
    hide HoldsInstances, HoldsSecrets, BindingToSpec, SecretNameFor, ResourceName;
    id :| id in m.bindings && BindingKey(sha, id) == k;
    assert BindingStored(sha, s, m.bindings[id]);
    SpecInstance(sha, m.bindings[id]);
  }

  lemma {:induction false} BindingsBehind(sha: Sha, ids: set<string>, s: CrState, m: Mirror, instanceId: string, order: seq<CrKey>, specs: seq<BindingSpec>)
    returns (bids: seq<string>)
    requires Represents(sha, ids, s, m) && |specs| == |order|
    requires forall i | 0 <= i < |order| :: order[i] in OfInstance(s, instanceId) && s.objects[order[i]].body == BindingBody(specs[i])
    ensures Behind(sha, s, m, order, specs, bids)
    ensures forall i | 0 <= i < |bids| :: m.bindings[bids[i]].instanceId == instanceId
  {
    hide Represents, BindingToSpec, SecretNameFor, BindingKey, OfInstance;
    if order == [] {
      bids := [];
    } else {
      var n := |order| - 1;
      var init := BindingsBehind(sha, ids, s, m, instanceId, order[..n], specs[..n]);
      ScanMeans(s, instanceId, order[n]);
      var id := BindingBehind(sha, ids, s, m, instanceId, order[n], specs[n]);
      bids := init + [id];
    }
  }

  lemma ScanMeans(s: CrState, instanceId: string, k: CrKey)
    requires k in OfInstance(s, instanceId)
    ensures k in s.objects
  {
  }

  /** Loading the resources of bindings `bids` gives these bindings as they are read. */
  lemma {:induction false} LoadAllRefines(env: CrEnv, sha: Sha, ids: set<string>, s: CrState, m: Mirror, order: seq<CrKey>, specs: seq<BindingSpec>, bids: seq<string>)
    requires Gentle(env) && InjectiveOn(sha, ids) && Represents(sha, ids, s, m) && Behind(sha, s, m, order, specs, bids)
    ensures var r := LoadAll(env, s, specs);
      && Represents(sha, ids, r.state, m) && r.state.clock >= s.clock
      && (r.result.Err? <==> CallFailed(env, s.clock, r.state.clock))
      && (r.result.Ok? ==>
            |r.result.value| == |bids| && forall i | 0 <= i < |bids| :: r.result.value[i] == NormalBinding(Seen(m, m.bindings[bids[i]])))
  {
    hide Represents, LoadBinding, NormalBinding, Seen, BindingToSpec, SecretNameFor, InjectiveOn, KeptOutside, BindingKey, CallFailed, Gentle;
    NoCallsYet(env, s.clock);
    if specs != [] {
      var n := |specs| - 1;
      LoadAllRefines(env, sha, ids, s, m, order[..n], specs[..n], bids[..n]);
      var before := LoadAll(env, s, specs[..n]);
      if before.result.Ok? {
        var b := m.bindings[bids[n]];
        MirrorIds(sha, ids, before.state, m, bids[n]);
        LoadRefines(env, sha, ids, before.state, m, b);
        var one := LoadBinding(env, before.state, specs[n]);
        RepresentsIsStable(sha, ids, before.state, one.state, m);
        CallsChain(env, s.clock, before.state.clock, one.state.clock);
      }
    }
  }

  lemma MirrorIds(sha: Sha, ids: set<string>, s: CrState, m: Mirror, id: string)
    requires Represents(sha, ids, s, m) && id in m.bindings
    ensures id in ids && m.bindings[id].id == id
  {
  }

  /** CRDStateStore.ListBindingsByInstance: unless a call fails, the list holds each binding of
      the instance exactly once, as a Get of it would return it. */
  method ListBindings(store: CRDStateStore, instanceId: string, ghost ids: set<string>, ghost m: Mirror)
    returns (r: Result<seq<Binding>, ApiError>, ghost bids: seq<string>)
    requires Gentle(store.client.env) && InjectiveOn(store.sha, ids) && Represents(store.sha, ids, store.client.state, m)
    modifies store.client
    ensures Represents(store.sha, ids, store.client.state, m)
    ensures r.Err? <==> CallFailed(store.client.env, old(store.client.state.clock), store.client.state.clock)
    ensures NoDuplicates(bids)
    ensures r.Ok? ==> (set id | id in bids) == set id | id in m.bindings && m.bindings[id].instanceId == instanceId
    ensures r.Ok? ==> |r.value| == |bids|
    ensures r.Ok? ==> forall i | 0 <= i < |bids| :: bids[i] in m.bindings && r.value[i] == NormalBinding(Seen(m, m.bindings[bids[i]]))
  {
    hide *;
    bids := [];
    ghost var env, sha, s := store.client.env, store.sha, store.client.state;
    ListCall(env, sha, ids, s, m, instanceId);
    ghost var items, order, specs;
    r, items, order, specs := store.ListBindingsByInstance(instanceId);
    OneElementAtMost(bids);
    if CrList(env, s, LABEL_INSTANCE, ResourceName(instanceId, sha)).result.Ok? {
      ghost var t := CrList(env, s, LABEL_INSTANCE, ResourceName(instanceId, sha)).state;
      bids := ListedBindings(env, sha, ids, t, m, instanceId, order, specs);
      CallsChain(env, s.clock, t.clock, store.client.state.clock);
    }
  }

  lemma OneElementAtMost(bids: seq<string>)
    requires |bids| <= 1
    ensures NoDuplicates(bids)
  {
  }

  lemma ListCall(env: CrEnv, sha: Sha, ids: set<string>, s: CrState, m: Mirror, instanceId: string)
    requires Gentle(env) && Represents(sha, ids, s, m)
    ensures var listed := CrList(env, s, LABEL_INSTANCE, ResourceName(instanceId, sha));
      && Represents(sha, ids, listed.state, m) && listed.state.clock == s.clock + 1
      && (listed.result.Err? <==> CallFailed(env, s.clock, listed.state.clock))
      && (listed.result.Ok? ==> listed.result.value == Labelled(listed.state.objects, LABEL_INSTANCE, ResourceName(instanceId, sha)))
  {
    hide Represents, KeptOutside, ResourceName;
    TickKeeps(env, s);
    RepresentsIsStable(sha, ids, s, CrTick(env, s), m);
    assert env(s.clock).CrFault? <==> CallFailed(env, s.clock, s.clock + 1);
  }

  lemma ListedBindings(env: CrEnv, sha: Sha, ids: set<string>, t: CrState, m: Mirror, instanceId: string, order: seq<CrKey>, specs: seq<BindingSpec>)
    returns (bids: seq<string>)
    requires Gentle(env) && InjectiveOn(sha, ids) && Represents(sha, ids, t, m)
    requires var items := Labelled(t.objects, LABEL_INSTANCE, ResourceName(instanceId, sha));
      NoDuplicates(order) && SpecsOf(items, order, specs) && (set k | k in order) == Selected(items, instanceId)
    ensures NoDuplicates(bids) && (set id | id in bids) == set id | id in m.bindings && m.bindings[id].instanceId == instanceId
    ensures var r := LoadAll(env, t, specs);
      && Represents(sha, ids, r.state, m) && r.state.clock >= t.clock
      && (r.result.Err? <==> CallFailed(env, t.clock, r.state.clock))
      && (r.result.Ok? ==> |r.result.value| == |bids|)
      && (r.result.Ok? ==> forall i | 0 <= i < |bids| :: bids[i] in m.bindings && r.result.value[i] == NormalBinding(Seen(m, m.bindings[bids[i]])))
  {
    hide Represents, LoadAll, NormalBinding, Seen, ResourceName, InjectiveOn, Gentle, CallFailed, BindingToSpec, SecretNameFor;
    RepresentedLabelsFit(sha, ids, t, m);
    SelectionIsScan(sha, t, instanceId);
    forall i | 0 <= i < |order| ensures order[i] in OfInstance(t, instanceId) && t.objects[order[i]].body == BindingBody(specs[i]) {
      assert order[i] in set k | k in order;
    }
    bids := BindingsBehind(sha, ids, t, m, instanceId, order, specs);
    LoadAllRefines(env, sha, ids, t, m, order, specs, bids);
    forall i, j | 0 <= i < j < |bids| ensures bids[i] != bids[j] {
      assert order[i] != order[j];
    }
    forall id | id in m.bindings && m.bindings[id].instanceId == instanceId ensures id in bids {
      var k := ScannedBinding(sha, ids, t, m, instanceId, id);
      assert k in set x | x in order;
      var i :| 0 <= i < |order| && order[i] == k;
      SameKeySameBinding(sha, ids, t, m, id, bids[i]);
    }
  }

  lemma ScannedBinding(sha: Sha, ids: set<string>, t: CrState, m: Mirror, instanceId: string, id: string) returns (k: CrKey)
    requires Represents(sha, ids, t, m) && id in m.bindings && m.bindings[id].instanceId == instanceId
    ensures k == BindingKey(sha, id) && k in OfInstance(t, instanceId)
  {
    hide HoldsInstances, HoldsSecrets, BindingToSpec, SecretNameFor, ResourceName;
    k := BindingKey(sha, id);
    SpecInstance(sha, m.bindings[id]);
    assert BindingStored(sha, t, m.bindings[id]);
  }

  lemma SameKeySameBinding(sha: Sha, ids: set<string>, t: CrState, m: Mirror, a: string, b: string)
    requires InjectiveOn(sha, ids) && Represents(sha, ids, t, m) && a in m.bindings && b in m.bindings && BindingKey(sha, a) == BindingKey(sha, b)
    ensures a == b
  {
    hide HoldsInstances, HoldsSecrets, HoldsBindings, ResourceName;
  }
}
