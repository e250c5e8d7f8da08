/** What is read of a record after the migration is what the old document said
    (toInstance, toBinding and toContext in internal/migrate/migrate.go). */
module MigratedRecords {
  import opened StateStore
  import opened CrdStore
  import opened CrdProofs
  import opened CrdProgress
  import opened Migration
  import opened MigrationProofs

  predicate SameContext(old_: LegacyContext, c: Context) {
    && c.platform == old_.platform && c.organizationGuid == old_.organizationGuid && c.spaceGuid == old_.spaceGuid
    && c.clusterId == old_.clusterId && c.ns == old_.ns && c.originatingIdentity == old_.originatingIdentity
    && c.organizationName == "" && c.spaceName == ""
  }

  /** Field by field the old instance, its parameters as JSON hands them back, and no
      namespace or maintenance version, which the old document did not have. */
  predicate SameInstance(li: LegacyInstance, i: Instance) {
    && i.serviceId == li.serviceId && i.planId == li.planId && SameContext(li.context, i.context)
    && i.parameters == NormalParams(li.parameters) && i.dashboardUrl == li.dashboardUrl && i.ready == li.ready
    && i.appliedObjects == li.appliedObjects && i.appliedRefs == li.appliedRefs
    && i.ns == "" && i.maintenanceVersion == ""
  }

  predicate SameBinding(lb: LegacyBinding, b: Binding) {
    && b.instanceId == lb.instanceId && b.serviceId == lb.serviceId && b.planId == lb.planId && b.appGuid == lb.appGuid
    && SameContext(lb.context, b.context)
    && b.parameters == NormalParams(lb.parameters) && b.credentials == NormalParams(lb.credentials)
    && b.syslogDrainUrl == lb.syslogDrainUrl && b.routeServiceUrl == lb.routeServiceUrl
    && b.volumeMounts == NormalList(lb.volumeMounts) && b.ready == lb.ready
  }

  /** The key of the map stands in for a missing id. */
  function IdOf(key: string, id: string): string {
    if id != "" then id else key
  }

  lemma InstanceGoal(l: Legacy, k: string)
    requires MigrationProofs.Distinct(l) && k in InstanceKeys(l)
    ensures var li := l.instances[k].value;
      var id := IdOf(k, li.id);
      && id in GoalInstances(l) && GoalInstances(l)[id].id == id && SameInstance(li, NormalInstance(GoalInstances(l)[id]))
  {
    hide NormalParams;
    var li := l.instances[k].value;
    assert InstanceId(l, k) == IdOf(k, li.id);
    assert GoalInstances(l)[IdOf(k, li.id)] == ToInstance(k, li);
  }

  lemma BindingGoal(l: Legacy, k: string)
    requires MigrationProofs.Distinct(l) && k in BindingEntries(l)
    ensures var lb := l.bindings[k].value;
      var id := IdOf(k, lb.id);
      && id in GoalBindings(l) && GoalBindings(l)[id].id == id && SameBinding(lb, NormalBinding(GoalBindings(l)[id]))
  {
    hide NormalParams, NormalList;
    var lb := l.bindings[k].value;
    assert BindingId(l, k) == IdOf(k, lb.id);
    assert GoalBindings(l)[IdOf(k, lb.id)] == ToBinding(k, lb);
  }

  /** After a complete migration, in whatever order it went, reading any instance of the old
      document gives it back. */
  lemma MigratedInstanceReadsBack(sha: Sha, ids: set<string>, s: CrState, m: Mirror, l: Legacy, env: CrEnv, ops: seq<StoreOp>, k: string, get: CrEnv)
    requires Migratable(sha, ids, s, m, l) && Gentle(env) && Complete(env, sha, s, l, ops) && k in InstanceKeys(l)
    requires Gentle(get) && Unhindered(get, CrdRun(sha, s, ops).clock)
    ensures var li := l.instances[k].value;
      var a := CrdStep(sha, CrdRun(sha, s, ops), GetI(get, IdOf(k, li.id))).1;
      a.AnInstance? && a.i.id == IdOf(k, li.id) && SameInstance(li, a.i)
  {
    hide Represents, InjectiveOn, Complete, Gentle, CrdRun, MigrationProofs.Distinct, GoalInstances, GoalBindings, CrdStep, SameInstance, NormalInstance, IdOf;
    var id := IdOf(k, l.instances[k].value.id);
    CompleteRepresents(sha, ids, s, m, env, l, ops);
    InstanceGoal(l, k);
    UnhinderedStepAnswers(sha, ids, CrdRun(sha, s, ops), Migrated(m, l), GetI(get, id));
    NormalKeepsIds(GoalInstances(l)[id]);
  }

  lemma NormalKeepsIds(i: Instance)
    ensures NormalInstance(i).id == i.id
  {
  }

  /** And reading any binding, credentials included. */
  lemma MigratedBindingReadsBack(sha: Sha, ids: set<string>, s: CrState, m: Mirror, l: Legacy, env: CrEnv, ops: seq<StoreOp>, k: string, get: CrEnv)
    requires Migratable(sha, ids, s, m, l) && Gentle(env) && Complete(env, sha, s, l, ops) && k in BindingEntries(l)
    requires Gentle(get) && Unhindered(get, CrdRun(sha, s, ops).clock)
    ensures var lb := l.bindings[k].value;
      var a := CrdStep(sha, CrdRun(sha, s, ops), GetB(get, IdOf(k, lb.id))).1;
      a.ABinding? && a.b.id == IdOf(k, lb.id) && SameBinding(lb, a.b)
  {
    hide Represents, InjectiveOn, Complete, Gentle, CrdRun, MigrationProofs.Distinct, GoalInstances, GoalBindings, CrdStep, SameBinding, NormalBinding, IdOf, Seen,
      Migrated, MirrorStep, NormalAnswer, Unhindered;
    var id := IdOf(k, l.bindings[k].value.id);
    CompleteRepresents(sha, ids, s, m, env, l, ops);
    BindingGoal(l, k);
    UnhinderedStepAnswers(sha, ids, CrdRun(sha, s, ops), Migrated(m, l), GetB(get, id));
    AnswerOfGoal(m, l, get, id);
    NormalKeepsBindingIds(GoalBindings(l)[id]);
  }

  lemma AnswerOfGoal(m: Mirror, l: Legacy, get: CrEnv, id: string)
    requires MigrationProofs.Distinct(l) && id in GoalBindings(l) && GoalBindings(l)[id].id == id
    ensures NormalAnswer(MirrorStep(Migrated(m, l), GetB(get, id)).1) == ABinding(NormalBinding(GoalBindings(l)[id]))
  {
    hide MigrationProofs.Distinct, GoalBindings, GoalInstances, GoalSecrets, Seen, NormalBinding;
    SeenAsWritten(m, l, id);
  }

  lemma NormalKeepsBindingIds(b: Binding)
    ensures NormalBinding(b).id == b.id
  {
  }

  lemma SeenAsWritten(m: Mirror, l: Legacy, id: string)
    requires MigrationProofs.Distinct(l) && id in GoalBindings(l) && GoalBindings(l)[id].id == id
    ensures Seen(Migrated(m, l), GoalBindings(l)[id]) == GoalBindings(l)[id]
  {
    hide MigrationProofs.Distinct, GoalBindings;
    var b := GoalBindings(l)[id];
    if |b.credentials| == 0 {
      assert b.credentials == map[];
    } else {
      assert id in GoalSecrets(l);
    }
  }
}
