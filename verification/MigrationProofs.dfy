/** The order a migration happens to take, and how often it was broken off, do not matter. */
module MigrationProofs {
  import opened Json
  import opened StateStore
  import opened CrdStore
  import opened CrdProofs
  import opened CrdProgress
  import opened Migration

  function InstanceId(l: Legacy, k: string): string
    requires k in InstanceKeys(l)
  {
    ResolvedId(k, l.instances[k].value.id)
  }

  function BindingId(l: Legacy, k: string): string
    requires k in BindingEntries(l)
  {
    ResolvedId(k, l.bindings[k].value.id)
  }

  /** No two records of the old document claim the same id. */
  ghost predicate Distinct(l: Legacy) {
    && (forall j, k | j in InstanceKeys(l) && k in InstanceKeys(l) && InstanceId(l, j) == InstanceId(l, k) :: j == k)
    && (forall j, k | j in BindingEntries(l) && k in BindingEntries(l) && BindingId(l, j) == BindingId(l, k) :: j == k)
  }

  function GoalInstances(l: Legacy): map<string, Instance>
    requires Distinct(l)
  {
    map k | k in InstanceKeys(l) :: InstanceId(l, k) := ToInstance(k, l.instances[k].value)
  }

  function GoalBindings(l: Legacy): map<string, Binding>
    requires Distinct(l)
  {
    map k | k in BindingEntries(l) :: BindingId(l, k) := ToBinding(k, l.bindings[k].value)
  }

  function GoalSecrets(l: Legacy): map<string, Params>
    requires Distinct(l)
  {
    map id | id in GoalBindings(l) && |GoalBindings(l)[id].credentials| > 0 :: GoalBindings(l)[id].credentials
  }

  /** The map with every record of the old document put on top. */
  function Migrated(m: Mirror, l: Legacy): Mirror
    requires Distinct(l)
  {
    Mirror(m.instances + GoalInstances(l), m.bindings + GoalBindings(l), (m.secrets - GoalBindings(l).Keys) + GoalSecrets(l))
  }

  lemma WrittenRecordIsAGoal(env: CrEnv, l: Legacy, op: StoreOp)
    requires Distinct(l) && WritesRecord(env, l, op)
    ensures op.PutI? || op.PutB?
    ensures op.PutI? ==> op.i.id in GoalInstances(l) && GoalInstances(l)[op.i.id] == op.i
    ensures op.PutB? ==> op.b.id in GoalBindings(l) && GoalBindings(l)[op.b.id] == op.b
  {
    hide ToContext;
    if op.PutI? {
      var k :| k in InstanceKeys(l) && op == PutI(env, ToInstance(k, l.instances[k].value));
      assert InstanceId(l, k) == op.i.id;
    } else {
      var k :| k in BindingEntries(l) && op == PutB(env, ToBinding(k, l.bindings[k].value));
      assert BindingId(l, k) == op.b.id;
    }
  }

  /** Two maps that differ in records of the old document only have the same goal. */
  lemma SameGoal(v: Mirror, m: Mirror, l: Legacy)
    requires Distinct(l)
    requires v.instances - GoalInstances(l).Keys == m.instances - GoalInstances(l).Keys
    requires v.bindings - GoalBindings(l).Keys == m.bindings - GoalBindings(l).Keys
    requires v.secrets - GoalBindings(l).Keys == m.secrets - GoalBindings(l).Keys
    ensures Migrated(v, l) == Migrated(m, l)
  {
    hide GoalInstances, GoalBindings, GoalSecrets, Distinct;
    OnTopOf(v.instances, m.instances, GoalInstances(l));
    OnTopOf(v.bindings, m.bindings, GoalBindings(l));
  }

  lemma OnTopOf<T>(a: map<string, T>, b: map<string, T>, top: map<string, T>)
    requires a - top.Keys == b - top.Keys
    ensures a + top == b + top
  {
    assert a + top == (a - top.Keys) + top && b + top == (b - top.Keys) + top;
  }

  lemma ChangedAt<T>(a: map<string, T>, id: string, v: T, keys: set<string>)
    requires id in keys
    ensures a[id := v] - keys == a - keys && a - {id} - keys == a - keys
  {
  }

  lemma FollowsIs(sha: Sha, s: CrState, m: Mirror, op: StoreOp)
    ensures var v := Follows(sha, s, m, op);
      v == MirrorStep(m, op).0 || v == HalfStep(m, op) || v == m
  {
    hide CrdStep, HalfDone, MirrorStep, HalfStep;
  }

  lemma StepKeepsTheGoal(m: Mirror, env: CrEnv, l: Legacy, op: StoreOp)
    requires Distinct(l) && WritesRecord(env, l, op)
    ensures Migrated(MirrorStep(m, op).0, l) == Migrated(m, l) && Migrated(HalfStep(m, op), l) == Migrated(m, l)
  {
    hide GoalInstances, GoalBindings, GoalSecrets, WritesRecord, Distinct, Migrated;
    WrittenRecordIsAGoal(env, l, op);
    if op.PutI? {
      ChangedAt(m.instances, op.i.id, op.i, GoalInstances(l).Keys);
    } else {
      ChangedAt(m.bindings, op.b.id, op.b, GoalBindings(l).Keys);
      ChangedAt(m.secrets, op.b.id, op.b.credentials, GoalBindings(l).Keys);
    }
    SameGoal(MirrorStep(m, op).0, m, l);
    SameGoal(HalfStep(m, op), m, l);
  }

  /** One write of a record, whether it succeeds, fails or is broken off, leaves the goal
      where it is. */
  lemma WriteKeepsTheGoal(sha: Sha, s: CrState, m: Mirror, env: CrEnv, l: Legacy, op: StoreOp)
    requires Distinct(l) && WritesRecord(env, l, op)
    ensures Migrated(Follows(sha, s, m, op), l) == Migrated(m, l)
  {
    hide WritesRecord, Distinct, Migrated, Follows, MirrorStep, HalfStep;
    FollowsIs(sha, s, m, op);
    StepKeepsTheGoal(m, env, l, op);
  }

  lemma {:induction false} PartialKeepsTheGoal(sha: Sha, s: CrState, m: Mirror, env: CrEnv, l: Legacy, ops: seq<StoreOp>)
    requires Distinct(l) && Partial(env, l, ops)
    ensures Migrated(MirrorRun(sha, s, m, ops), l) == Migrated(m, l)
  {
    hide Follows, Migrated, WritesRecord, Distinct, CrdStep;
    if ops != [] {
      var init := ops[..|ops| - 1];
      PartialKeepsTheGoal(sha, s, m, env, l, init);
      WriteKeepsTheGoal(sha, CrdRun(sha, s, init), MirrorRun(sha, s, m, init), env, l, ops[|ops| - 1]);
    }
  }

  /** The record a write was about is in the map. */
  predicate Reflected(v: Mirror, op: StoreOp) {
    && (op.PutI? ==> op.i.id in v.instances && v.instances[op.i.id] == op.i)
    && (op.PutB? ==>
          && op.b.id in v.bindings && v.bindings[op.b.id] == op.b
          && (op.b.id in v.secrets <==> |op.b.credentials| > 0)
          && (op.b.id in v.secrets ==> v.secrets[op.b.id] == op.b.credentials))
  }

  /** After writes that were all answered Done the map holds each of their records. */
  lemma {:induction false} DoneWritesAreReflected(sha: Sha, s: CrState, m: Mirror, env: CrEnv, l: Legacy, ops: seq<StoreOp>)
    requires Distinct(l) && Partial(env, l, ops) && AllDone(sha, s, ops)
    ensures forall op | op in ops :: Reflected(MirrorRun(sha, s, m, ops), op)
  {
    hide WritesRecord, Distinct, CrdStep, GoalInstances, GoalBindings;
    if ops != [] {
      var init, last := ops[..|ops| - 1], ops[|ops| - 1];
      DoneWritesAreReflected(sha, s, m, env, l, init);
      WrittenRecordIsAGoal(env, l, last);
      var v := MirrorRun(sha, s, m, init);
      forall op | op in ops ensures Reflected(MirrorRun(sha, s, m, ops), op) {
        WrittenRecordIsAGoal(env, l, op);
        assert op == last || op in init;
      }
    }
  }

  lemma GoalIsWritten(env: CrEnv, l: Legacy, ops: seq<StoreOp>)
    requires Distinct(l) && InstancesWritten(env, l, {}, ops) && BindingsWritten(env, l, {}, ops)
    ensures forall id | id in GoalInstances(l) :: PutI(env, GoalInstances(l)[id]) in ops && GoalInstances(l)[id].id == id
    ensures forall id | id in GoalBindings(l) :: PutB(env, GoalBindings(l)[id]) in ops && GoalBindings(l)[id].id == id
  {
    hide ToContext;
    assert InstanceKeys(l) - {} == InstanceKeys(l) && BindingEntries(l) - {} == BindingEntries(l);
  }

  /** A complete migration arrives at the map with the old document put on top, in
      whatever order it went. */
  lemma CompleteReachesTheGoal(sha: Sha, s: CrState, m: Mirror, env: CrEnv, l: Legacy, ops: seq<StoreOp>)
    requires Distinct(l) && Complete(env, sha, s, l, ops)
    ensures MirrorRun(sha, s, m, ops) == Migrated(m, l)
  {
    hide WritesRecord, Distinct, CrdStep, GoalInstances, GoalBindings, AllDone, MirrorRun, CrdRun, InstancesWritten, BindingsWritten;
    PartialKeepsTheGoal(sha, s, m, env, l, ops);
    DoneWritesAreReflected(sha, s, m, env, l, ops);
    GoalIsWritten(env, l, ops);
    var v := MirrorRun(sha, s, m, ops);
    forall id | id in GoalInstances(l) ensures id in v.instances && v.instances[id] == GoalInstances(l)[id] {
      assert Reflected(v, PutI(env, GoalInstances(l)[id]));
    }
    forall id | id in GoalBindings(l)
      ensures id in v.bindings && v.bindings[id] == GoalBindings(l)[id]
      ensures id in v.secrets <==> id in GoalSecrets(l)
      ensures id in v.secrets ==> v.secrets[id] == GoalSecrets(l)[id]
    {
      assert Reflected(v, PutB(env, GoalBindings(l)[id]));
    }
    GoalIsAFixedPoint(v, l);
  }

  lemma GoalIsAFixedPoint(v: Mirror, l: Legacy)
    requires Distinct(l)
    requires forall id | id in GoalInstances(l) :: id in v.instances && v.instances[id] == GoalInstances(l)[id]
    requires forall id | id in GoalBindings(l) :: id in v.bindings && v.bindings[id] == GoalBindings(l)[id]
    requires forall id | id in GoalBindings(l) :: (id in v.secrets <==> id in GoalSecrets(l)) && (id in v.secrets ==> v.secrets[id] == GoalSecrets(l)[id])
    ensures Migrated(v, l) == v
  {
    SecretsOfBindings(l);
    hide Distinct, GoalInstances, GoalBindings, GoalSecrets;
    AlreadyThere(v.instances, GoalInstances(l));
    AlreadyThere(v.bindings, GoalBindings(l));
    Absorbed(v.secrets, GoalBindings(l).Keys, GoalSecrets(l));
  }

  lemma SecretsOfBindings(l: Legacy)
    requires Distinct(l)
    ensures GoalSecrets(l).Keys <= GoalBindings(l).Keys
  {
    hide Distinct, GoalBindings;
  }

  lemma AlreadyThere<T>(a: map<string, T>, top: map<string, T>)
    requires forall k | k in top :: k in a && a[k] == top[k]
    ensures a + top == a
  {
  }

  lemma Absorbed<T>(a: map<string, T>, keys: set<string>, top: map<string, T>)
    requires top.Keys <= keys
    requires forall k | k in keys :: (k in a <==> k in top) && (k in a ==> a[k] == top[k])
    ensures (a - keys) + top == a
  {
  }

  // --- the theorems ---

  /** The old document's ids are distinct and among `ids`, on which object names are
      injective, and the resources represent `m`, half-written bindings included. */
  ghost predicate Migratable(sha: Sha, ids: set<string>, s: CrState, m: Mirror, l: Legacy) {
    && InjectiveOn(sha, ids) && Represents(sha, ids, s, m) && Distinct(l)
    && GoalInstances(l).Keys <= ids && GoalBindings(l).Keys <= ids
  }

  lemma PartialRepresents(sha: Sha, ids: set<string>, s: CrState, m: Mirror, env: CrEnv, l: Legacy, ops: seq<StoreOp>)
    requires Migratable(sha, ids, s, m, l) && Gentle(env) && Partial(env, l, ops)
    ensures Represents(sha, ids, CrdRun(sha, s, ops), MirrorRun(sha, s, m, ops))
    ensures Migratable(sha, ids, CrdRun(sha, s, ops), MirrorRun(sha, s, m, ops), l)
  {
    hide Represents, InjectiveOn, Distinct, GoalInstances, GoalBindings, WritesRecord, CrdRun, MirrorRun, Gentle;
    forall op | op in ops ensures Admissible(ids, op) {
      WrittenRecordIsAGoal(env, l, op);
      WritesInItsEnv(env, l, op);
    }
    RunRepresents(sha, ids, s, m, ops);
    PartialKeepsTheGoal(sha, s, m, env, l, ops);
  }

  lemma WritesInItsEnv(env: CrEnv, l: Legacy, op: StoreOp)
    requires WritesRecord(env, l, op)
    ensures op.env == env
  {
  }

  lemma CompleteRepresents(sha: Sha, ids: set<string>, s: CrState, m: Mirror, env: CrEnv, l: Legacy, ops: seq<StoreOp>)
    requires Migratable(sha, ids, s, m, l) && Gentle(env) && Complete(env, sha, s, l, ops)
    ensures Represents(sha, ids, CrdRun(sha, s, ops), Migrated(m, l))
  {
    hide Represents, InjectiveOn, Distinct, GoalInstances, GoalBindings, WritesRecord, CrdRun, MirrorRun, Gentle, AllDone, InstancesWritten, BindingsWritten;
    PartialRepresents(sha, ids, s, m, env, l, ops);
    CompleteReachesTheGoal(sha, s, m, env, l, ops);
  }

  /** Two complete migrations of the same document end with the same resources, whatever
      the order and whichever calls failed and were repeated within the store. */
  lemma MigrationIsConfluent(sha: Sha, ids: set<string>, s: CrState, m: Mirror, l: Legacy, env1: CrEnv, ops1: seq<StoreOp>, env2: CrEnv, ops2: seq<StoreOp>)
    requires Migratable(sha, ids, s, m, l) && Gentle(env1) && Gentle(env2)
    requires Complete(env1, sha, s, l, ops1) && Complete(env2, sha, s, l, ops2)
    ensures SameResources(CrdRun(sha, s, ops1), CrdRun(sha, s, ops2))
  {
    hide Represents, InjectiveOn, Complete, Migrated, Gentle, CrdRun, SameResources, Distinct, GoalInstances, GoalBindings;
    CompleteRepresents(sha, ids, s, m, env1, l, ops1);
    CompleteRepresents(sha, ids, s, m, env2, l, ops2);
    SameRecordsSameResources(sha, ids, CrdRun(sha, s, ops1), CrdRun(sha, s, ops2), Migrated(m, l));
  }

  /** A migration broken off anywhere, even between the two halves of a binding, and then
      run to its end arrives where a single complete one does. */
  lemma AbortedMigrationResumes(sha: Sha, ids: set<string>, s: CrState, m: Mirror, l: Legacy,
                                env1: CrEnv, aborted: seq<StoreOp>, env2: CrEnv, resumed: seq<StoreOp>, env3: CrEnv, whole: seq<StoreOp>)
    requires Migratable(sha, ids, s, m, l) && Gentle(env1) && Gentle(env2) && Gentle(env3)
    requires Partial(env1, l, aborted) && Complete(env2, sha, CrdRun(sha, s, aborted), l, resumed) && Complete(env3, sha, s, l, whole)
    ensures SameResources(CrdRun(sha, CrdRun(sha, s, aborted), resumed), CrdRun(sha, s, whole))
  {
    hide Represents, InjectiveOn, Complete, Migrated, Gentle, CrdRun, SameResources, Partial, GoalInstances, GoalBindings, Distinct, MirrorRun;
    var t, v := CrdRun(sha, s, aborted), MirrorRun(sha, s, m, aborted);
    PartialRepresents(sha, ids, s, m, env1, l, aborted);
    PartialKeepsTheGoal(sha, s, m, env1, l, aborted);
    CompleteRepresents(sha, ids, t, v, env2, l, resumed);
    CompleteRepresents(sha, ids, s, m, env3, l, whole);
    SameRecordsSameResources(sha, ids, CrdRun(sha, t, resumed), CrdRun(sha, s, whole), Migrated(m, l));
  }

  /** Migrating a second time changes no record. */
  lemma MigratingTwiceIsMigratingOnce(sha: Sha, ids: set<string>, s: CrState, m: Mirror, l: Legacy, env1: CrEnv, first: seq<StoreOp>, env2: CrEnv, second: seq<StoreOp>)
    requires Migratable(sha, ids, s, m, l) && Gentle(env1) && Gentle(env2)
    requires Complete(env1, sha, s, l, first) && Complete(env2, sha, CrdRun(sha, s, first), l, second)
    ensures SameResources(CrdRun(sha, CrdRun(sha, s, first), second), CrdRun(sha, s, first))
  {
    assert Partial(env1, l, first);
    AbortedMigrationResumes(sha, ids, s, m, l, env1, first, env2, second, env1, first);
  }
}
