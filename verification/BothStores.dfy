/** One suite of operations against both state stores, as in the repository's contract test
    (internal/broker/statestore_contract_test.go). */
module BothStores {
  import opened Wrappers
  import opened Api
  import opened StateStore
  import opened CrdStore
  import opened CrdProofs
  import opened CrdListing

  method RunOnMemory(store: MemoryStateStore, op: StoreOp) returns (a: Answer)
    modifies store
    ensures (store.M(), a) == MemStep(old(store.M()), op)
  {
    match op
    case PutI(_, i) =>
      store.PutInstance(i);
      a := Done;
    case DelI(_, id) =>
      store.DeleteInstance(id);
      a := Done;
    case PutB(_, b) =>
      store.PutBinding(b);
      a := Done;
    case DelB(_, id) =>
      store.DeleteBinding(id);
      a := Done;
    case GetI(_, id) =>
      var i := store.GetInstance(id);
      a := if i.Some? then AnInstance(i.value) else Missing;
    case GetB(_, id) =>
      var b := store.GetBinding(id);
      a := if b.Some? then ABinding(b.value) else Missing;
  }

  method RunOnResources(store: CRDStateStore, op: StoreOp) returns (a: Answer)
    requires op.env == store.client.env
    modifies store.client
    ensures (store.client.state, a) == CrdStep(store.sha, old(store.client.state), op)
  {
    hide PutInstanceSpec, DeleteInstanceSpec, GetInstanceSpec, PutBindingSpec, DeleteBindingSpec, GetBindingSpec;
    match op
    case PutI(_, i) =>
      var r := store.PutInstance(i);
      a := DoneOr(r);
    case DelI(_, id) =>
      var r := store.DeleteInstance(id);
      a := DoneOr(r);
    case PutB(_, b) =>
      var r := store.PutBinding(b);
      a := DoneOr(r);
    case DelB(_, id) =>
      var r := store.DeleteBinding(id);
      a := DoneOr(r);
    case GetI(_, id) =>
      var r := store.GetInstance(id);
      a := if r.Ok? then AnInstance(r.value) else if r.error == NotFound then Missing else Failing;
    case GetB(_, id) =>
      var r := store.GetBinding(id);
      a := if r.Ok? then ABinding(r.value) else if r.error == NotFound then Missing else Failing;
  }

  /** Both stores hold the same records. */
  ghost predicate InStep(sha: Sha, ids: set<string>, s: CrState, v: Mirror, m: Mem) {
    && InjectiveOn(sha, ids) && Represents(sha, ids, s, v)
    && v.instances == m.instances && forall id :: Settled(v, m, id)
  }

  /** The answers to one operation: the custom-resource store fails, or it answers what its
      resources stand for, and that is what the memory store answers, in JSON normal form,
      except for reading a binding whose last write was broken off half way. */
  ghost predicate Agree(sha: Sha, s: CrState, v: Mirror, ops: seq<StoreOp>, n: nat, crd: Answer, mem: Answer)
    requires n < |ops|
  {
    crd == Failing ||
      (&& crd == NormalAnswer(MirrorStep(MirrorRun(sha, s, v, ops[..n]), ops[n]).1)
       && (crd == NormalAnswer(mem) || (ops[n].GetB? && !Unbroken(sha, s, ops[..n], ops[n].id))))
  }

  /** Both stores, given the same operations, agree on every answer, whatever calls fail.
      What failed on the one is not asked of the other. */
  method RunOnBoth(crd: CRDStateStore, mem: MemoryStateStore, ops: seq<StoreOp>, ghost ids: set<string>, ghost v: Mirror)
    returns (answers: seq<(Answer, Answer)>)
    requires InStep(crd.sha, ids, crd.client.state, v, mem.M())
    requires forall op | op in ops :: Admissible(ids, op) && op.env == crd.client.env
    modifies crd.client, mem
    ensures |answers| == |ops|
    ensures forall n | 0 <= n < |ops| :: Agree(crd.sha, old(crd.client.state), v, ops, n, answers[n].0, answers[n].1)
    ensures crd.client.state == CrdRun(crd.sha, old(crd.client.state), ops)
    ensures mem.M() == MemRun(crd.sha, old(crd.client.state), old(mem.M()), ops)
  {
    hide *;
    answers := [];
    ghost var s, m := crd.client.state, mem.M();
    assert ops[..0] == [];
    RunsStart(crd.sha, s, m);
    for n := 0 to |ops|
      invariant |answers| == n
      invariant crd.client.state == CrdRun(crd.sha, s, ops[..n]) && mem.M() == MemRun(crd.sha, s, m, ops[..n])
      invariant forall i | 0 <= i < n :: Agree(crd.sha, s, v, ops, i, answers[i].0, answers[i].1)
    {
      var a := RunOnResources(crd, ops[n]);
      var b := Failing;
      RunsStep(crd.sha, s, m, ops, n);
      if a != Failing {
        b := RunOnMemory(mem, ops[n]);
      }
      assert Agree(crd.sha, s, v, ops, n, a, b) by { StepAgrees(crd.sha, ids, s, v, m, ops, n, a, b); }
      answers := answers + [(a, b)];
    }
    assert ops[..|ops|] == ops;
  }

  lemma RunsStart(sha: Sha, s: CrState, m: Mem)
    ensures CrdRun(sha, s, []) == s && MemRun(sha, s, m, []) == m
  {
  }

  lemma RunsStep(sha: Sha, s: CrState, m: Mem, ops: seq<StoreOp>, n: nat)
    requires n < |ops|
    ensures var (t, a) := CrdStep(sha, CrdRun(sha, s, ops[..n]), ops[n]);
      && CrdRun(sha, s, ops[..n + 1]) == t
      && MemRun(sha, s, m, ops[..n + 1]) ==
         if a == Failing then MemRun(sha, s, m, ops[..n]) else MemStep(MemRun(sha, s, m, ops[..n]), ops[n]).0
  {
    hide CrdStep, MemStep;
    assert ops[..n + 1][..n] == ops[..n];
  }

  lemma StepAgrees(sha: Sha, ids: set<string>, s: CrState, v: Mirror, m: Mem, ops: seq<StoreOp>, n: nat, a: Answer, b: Answer)
    requires InStep(sha, ids, s, v, m) && n < |ops| && forall op | op in ops :: Admissible(ids, op)
    requires a == CrdStep(sha, CrdRun(sha, s, ops[..n]), ops[n]).1
    requires a != Failing ==> b == MemStep(MemRun(sha, s, m, ops[..n]), ops[n]).1
    ensures Agree(sha, s, v, ops, n, a, b)
  {
    hide InjectiveOn, Represents, Settled, Admissible, CrdStep, MemStep, MirrorStep, CrdRun, MemRun, MirrorRun, Unbroken;
    CrdStoreIsExact(sha, ids, s, v, ops[..n], ops[n]);
    if !ops[n].GetB? || Unbroken(sha, s, ops[..n], ops[n].id) {
      CrdStoreRefinesTheMap(sha, ids, s, v, m, ops[..n], ops[n]);
    }
  }

  // --- listing ---

  /** The ids of the bindings of an instance. */
  function IdsOf(bindings: map<string, Binding>, instanceId: string): set<string> {
    set id | id in bindings && bindings[id].instanceId == instanceId
  }

  predicate DistinctIds(bs: seq<Binding>) {
    forall i, j | 0 <= i < j < |bs| :: bs[i].id != bs[j].id
  }

  /** Two listings of the same bindings, each once, the first in JSON normal form. */
  ghost predicate SameListing(crd: seq<Binding>, mem: seq<Binding>) {
    && DistinctIds(crd) && DistinctIds(mem)
    && (forall b | b in crd :: exists c :: c in mem && b == NormalBinding(c))
    && (forall c | c in mem :: NormalBinding(c) in crd)
  }

  /** No binding of the instance, on either side, was last written half way. */
  ghost predicate SettledFor(v: Mirror, m: Mem, instanceId: string) {
    forall id | id in IdsOf(v.bindings, instanceId) || id in IdsOf(m.bindings, instanceId) :: Settled(v, m, id)
  }

  /** The memory store's list, as `Holding` counts it, has each binding of the instance once. */
  lemma MemoryListing(v: Mirror, m: Mem, instanceId: string, out: seq<Binding>)
    requires SettledFor(v, m, instanceId)
    requires forall b :: multiset(out)[b] == if b.instanceId == instanceId then |Holding(m.bindings, m.bindings.Keys, b)| else 0
    ensures DistinctIds(out)
    ensures forall b :: b in out <==> b.id in IdsOf(m.bindings, instanceId) && m.bindings[b.id] == b
  {
    forall b ensures b in out <==> b.id in IdsOf(m.bindings, instanceId) && m.bindings[b.id] == b {
      HeldOnce(v, m, instanceId, b);
      assert b in out <==> multiset(out)[b] > 0;
    }
    forall i, j | 0 <= i < j < |out| ensures out[i].id != out[j].id {
      if out[i].id == out[j].id {
        assert out[i] in out && out[j] in out;
        assert out == out[..j] + out[j..] && out[i] in out[..j] && out[j] in out[j..];
        assert multiset(out)[out[i]] == multiset(out[..j])[out[i]] + multiset(out[j..])[out[i]] >= 2;
        HeldOnce(v, m, instanceId, out[i]);
      }
    }
  }

  lemma HeldOnce(v: Mirror, m: Mem, instanceId: string, b: Binding)
    requires SettledFor(v, m, instanceId)
    ensures b.instanceId == instanceId ==>
      |Holding(m.bindings, m.bindings.Keys, b)| == if b.id in m.bindings && m.bindings[b.id] == b then 1 else 0
  {
    if b.instanceId == instanceId {
      forall id | id in Holding(m.bindings, m.bindings.Keys, b) ensures id == b.id {
        assert id in IdsOf(m.bindings, instanceId);
      }
      if b.id in m.bindings && m.bindings[b.id] == b {
        assert Holding(m.bindings, m.bindings.Keys, b) == {b.id};
      } else {
        assert Holding(m.bindings, m.bindings.Keys, b) == {};
      }
    }
  }

  lemma ListingsAgree(v: Mirror, m: Mem, instanceId: string, crd: seq<Binding>, bids: seq<string>, mem: seq<Binding>)
    requires SettledFor(v, m, instanceId)
    requires NoDuplicates(bids) && (set id | id in bids) == IdsOf(v.bindings, instanceId) && |crd| == |bids|
    requires forall i | 0 <= i < |bids| :: bids[i] in v.bindings && crd[i] == NormalBinding(Seen(v, v.bindings[bids[i]]))
    requires DistinctIds(mem)
    requires forall b :: b in mem <==> b.id in IdsOf(m.bindings, instanceId) && m.bindings[b.id] == b
    ensures SameListing(crd, mem)
  {
    hide NormalParams, NormalList;
    forall i | 0 <= i < |bids|
      ensures bids[i] in m.bindings && crd[i] == NormalBinding(m.bindings[bids[i]]) && crd[i].id == bids[i]
      ensures m.bindings[bids[i]] in mem
    {
      assert bids[i] in (set id | id in bids);
      assert Settled(v, m, bids[i]);
    }
    forall c | c in mem ensures NormalBinding(c) in crd {
      assert c.id in IdsOf(m.bindings, instanceId) && Settled(v, m, c.id);
      assert c.id in IdsOf(v.bindings, instanceId);
      assert c.id in (set id | id in bids);
      var i :| 0 <= i < |bids| && bids[i] == c.id;
      assert crd[i] == NormalBinding(c);
    }
  }

  /** After any run, whatever calls fail, both stores list the same bindings of an instance,
      each once, unless a call of the listing fails or a binding of the instance was last
      written half way. */
  method RunAndListOnBoth(crd: CRDStateStore, mem: MemoryStateStore, ops: seq<StoreOp>, instanceId: string, ghost ids: set<string>, ghost v: Mirror)
    returns (r: Result<seq<Binding>, ApiError>, listed: seq<Binding>)
    requires InStep(crd.sha, ids, crd.client.state, v, mem.M()) && Gentle(crd.client.env)
    requires forall op | op in ops :: Admissible(ids, op) && op.env == crd.client.env
    modifies crd.client, mem
    ensures var s := old(crd.client.state);
      var w, m := MirrorRun(crd.sha, s, v, ops), MemRun(crd.sha, s, old(mem.M()), ops);
      || r.Err?
      || SameListing(r.value, listed)
      || exists id :: (id in IdsOf(w.bindings, instanceId) || id in IdsOf(m.bindings, instanceId)) && !Unbroken(crd.sha, s, ops, id)
    ensures r.Err? <==> CallFailed(crd.client.env, CrdRun(crd.sha, old(crd.client.state), ops).clock, crd.client.state.clock)
  {
    hide *;
    ghost var s, m0 := crd.client.state, mem.M();
    var answers := RunOnBoth(crd, mem, ops, ids, v);
    ghost var w, m := MirrorRun(crd.sha, s, v, ops), mem.M();
    RunLeaves(crd.sha, ids, s, v, m0, ops, instanceId);
    ghost var bids;
    r, bids := ListBindings(crd, instanceId, ids, w);
    listed := mem.ListBindingsByInstance(instanceId);
    if r.Ok? && SettledFor(w, m, instanceId) {
      assert (set id | id in bids) == IdsOf(w.bindings, instanceId) by { IdsAre(w.bindings, instanceId); }
      MemoryContents(mem);
      MemoryListing(w, m, instanceId, listed);
      ListingsAgree(w, m, instanceId, r.value, bids, listed);
    }
  }

  lemma IdsAre(bindings: map<string, Binding>, instanceId: string)
    ensures IdsOf(bindings, instanceId) == set id | id in bindings && bindings[id].instanceId == instanceId
  {
  }

  lemma MemoryContents(mem: MemoryStateStore)
    ensures mem.M().bindings == mem.bindings
  {
  }

  /** What is settled after a run. */
  lemma RunLeaves(sha: Sha, ids: set<string>, s: CrState, v: Mirror, m: Mem, ops: seq<StoreOp>, instanceId: string)
    requires InStep(sha, ids, s, v, m) && forall op | op in ops :: Admissible(ids, op)
    ensures var w, n := MirrorRun(sha, s, v, ops), MemRun(sha, s, m, ops);
      && InjectiveOn(sha, ids) && Represents(sha, ids, CrdRun(sha, s, ops), w)
      && (SettledFor(w, n, instanceId) ||
            exists id :: (id in IdsOf(w.bindings, instanceId) || id in IdsOf(n.bindings, instanceId)) && !Unbroken(sha, s, ops, id))
  {
    hide InjectiveOn, Represents, Settled, Admissible, CrdRun, MemRun, MirrorRun, Unbroken, IdsOf;
    RunRepresents(sha, ids, s, v, ops);
    forall id ensures Unbroken(sha, s, ops, id) ==> Settled(MirrorRun(sha, s, v, ops), MemRun(sha, s, m, ops), id) {
      RunStaysSettled(sha, s, v, m, ops, id);
    }
  }
}
