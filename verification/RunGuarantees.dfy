/** What the run invariant means to somebody who sees only requests, answers and objects. */
module RunGuarantees {
  import opened Wrappers
  import opened Json
  import opened Definition
  import opened Validation
  import opened Render
  import opened Api
  import opened Operator
  import opened OperatorProofs
  import opened Registry
  import opened Engine
  import opened UpdateProofs
  import opened ReconcileProofs
  import opened DeprovisionProofs
  import opened Broker
  import opened Protocol
  import opened PatchProofs
  import opened RunInvariants

  /** A broker that starts with no records is sound, whatever objects the cluster already
      holds; until a record claims them, those under names of its own are nobody's. */
  lemma FreshBrokerIsSound(codec: Codec, n: Naming, ids: set<string>, b: BrokerState)
    requires b.world.reg.records == map[] && b.binds.bindings == map[] && StableKeys(codec, n, ids, b.defs)
    ensures Sound(codec, n, ids, Trace(b, map[], Standing(b, b.world.api.objects.Keys)))
  {
    hide StableKeys;
  }

  // --- ownership ---

  /** Nobody's objects: they stand, and no record names them. */
  ghost predicate Unclaimed(t: Trace) {
    t.kept == Standing(t.b, t.kept)
  }

  lemma {:induction false} EveryRunIsUnclaimed(codec: Codec, t: Trace, steps: seq<Step>)
    requires Unclaimed(t)
    ensures Unclaimed(AdvanceAll(codec, t, steps))
  {
    hide Booked;
  }

  /** After any run, an object under a broker name is either nobody's or named by exactly
      one record, that of the instance its name belongs to. */
  lemma EveryObjectHasOneOwner(codec: Codec, n: Naming, ids: set<string>, t: Trace, steps: seq<Step>, k: Key)
    requires Sound(codec, n, ids, t) && Unclaimed(t) && Disjoint(n, ids) && DisciplinedRun(codec, n, ids, t.b, steps)
    requires k in AdvanceAll(codec, t, steps).b.world.api.objects && n.ownerOf(k).Some?
    ensures var u := AdvanceAll(codec, t, steps);
      var records := u.b.world.reg.records;
      && (k in u.kept <==> forall id | id in records :: k !in records[id].appliedRefs)
      && (forall id | id in records && k in records[id].appliedRefs :: Some(id) == n.ownerOf(k))
  {
    hide Sound, Disjoint, DisciplinedRun, AdvanceAll;
    EveryRunIsSound(codec, n, ids, t, steps);
    EveryRunIsUnclaimed(codec, t, steps);
    var u := AdvanceAll(codec, t, steps);
    SoundAccounts(codec, n, ids, u, k);
    forall id | id in u.b.world.reg.records && k in u.b.world.reg.records[id].appliedRefs ensures Some(id) == n.ownerOf(k) {
      NamedByItsOwner(codec, n, ids, u, id, k);
    }
  }

  lemma SoundAccounts(codec: Codec, n: Naming, ids: set<string>, t: Trace, k: Key)
    requires Sound(codec, n, ids, t) && k in t.b.world.api.objects
    ensures AccountedFor(n, t.b, t.kept, k)
  {
    hide StableKeys, Faithful, InOrder, AccountedFor;
  }

  /** The step deprovisioned an instance whose plan keeps its objects and forgot its record, which
      named the object. */
  ghost predicate RetainedBy(codec: Codec, b: BrokerState, step: Step, k: Key) {
    && step.SDeprovision? && step.id in b.world.reg.records && step.id !in Do(codec, b, step).0.world.reg.records
    && k in b.world.reg.records[step.id].appliedRefs
    && ServiceOf(b, step.id, step.service) in b.defs
    && Keeps(b.defs[ServiceOf(b, step.id, step.service)], b.world.reg.records[step.id])
  }

  lemma OnlyRetentionAbandons(codec: Codec, t: Trace, step: Step, k: Key)
    requires k in Advance(codec, t, step).kept
    ensures k in t.kept || RetainedBy(codec, t.b, step, k)
  {
    if step.SDeprovision? && step.id in t.b.world.reg.records && ServiceOf(t.b, step.id, step.service) in t.b.defs {
      PlanDecides(t.b.defs[ServiceOf(t.b, step.id, step.service)], t.b.world.reg.records[step.id]);
    }
    hide Do, PlanRetains, NextLives;
  }

  /** An object becomes nobody's in one way only: a retaining deprovision of the instance
      whose record names it. In particular one that the broker claimed again, or deleted and
      created anew, is never excused for having been there before. */
  lemma {:induction false} NobodysObjectsWereRetained(codec: Codec, t: Trace, steps: seq<Step>, from: nat, k: Key)
    requires from <= |steps| && k !in AdvanceAll(codec, t, steps[..from]).kept
    requires k in AdvanceAll(codec, t, steps).kept
    ensures exists i | from <= i < |steps| :: RetainedBy(codec, Run(codec, t.b, steps[..i]), steps[i], k)
  {
    hide Advance, RetainedBy;
    var n := |steps| - 1;
    assert steps[..|steps|] == steps;
    var init := steps[..n];
    TraceFollowsRun(codec, t, init);
    OnlyRetentionAbandons(codec, AdvanceAll(codec, t, init), steps[n], k);
    if k in AdvanceAll(codec, t, init).kept {
      assert init[..from] == steps[..from];
      NobodysObjectsWereRetained(codec, t, init, from, k);
      var i :| from <= i < |init| && RetainedBy(codec, Run(codec, t.b, init[..i]), init[i], k);
      assert init[..i] == steps[..i] && init[i] == steps[i];
    }
  }

  /** In terms of objects and records alone: an object under a broker name that no record
      names at the end of a run, and that at some point of it was absent or named, was
      retained by a step in between. */
  lemma AbandonedObjectsWereRetained(codec: Codec, n: Naming, ids: set<string>, t: Trace, steps: seq<Step>, from: nat, k: Key)
    requires Sound(codec, n, ids, t) && Unclaimed(t) && Disjoint(n, ids) && DisciplinedRun(codec, n, ids, t.b, steps)
    requires from <= |steps| && n.ownerOf(k).Some?
    requires var mid := Run(codec, t.b, steps[..from]); k !in mid.world.api.objects || Named(mid, k)
    requires var end := Run(codec, t.b, steps); k in end.world.api.objects && !Named(end, k)
    ensures exists i | from <= i < |steps| :: RetainedBy(codec, Run(codec, t.b, steps[..i]), steps[i], k)
  {
    hide Sound, Disjoint, DisciplinedRun, AdvanceAll, Run, RetainedBy;
    TraceFollowsRun(codec, t, steps);
    TraceFollowsRun(codec, t, steps[..from]);
    EveryRunIsUnclaimed(codec, t, steps[..from]);
    EveryObjectHasOneOwner(codec, n, ids, t, steps, k);
    NobodysObjectsWereRetained(codec, t, steps, from, k);
  }

  // --- what the records say ---

  /** After any run, the stored parameters of an instance are the left-to-right overlay of
      its provision and every PATCH that succeeded, allowed in the plan as it was loaded at
      the last render; the stored maintenance version is that plan's; and as long as
      nothing has failed since that render, every object carries it. */
  lemma EveryRecordIsFaithful(codec: Codec, n: Naming, ids: set<string>, t: Trace, steps: seq<Step>, id: string)
    requires Sound(codec, n, ids, t) && Disjoint(n, ids) && DisciplinedRun(codec, n, ids, t.b, steps)
    requires id in Run(codec, t.b, steps).world.reg.records
    ensures var u := AdvanceAll(codec, t, steps);
      && u.b == Run(codec, t.b, steps) && id in u.lives && id in u.b.world.reg.records
      && Faithful(codec, n, u.b.world.api, u.b.world.reg.records[id], u.lives[id])
  {
    hide Sound, Disjoint, DisciplinedRun, AdvanceAll, Faithful;
    EveryRunIsSound(codec, n, ids, t, steps);
    TraceFollowsRun(codec, t, steps);
    RecordOfSoundTrace(codec, n, ids, AdvanceAll(codec, t, steps), id);
  }

  // --- one instance at a time ---

  /** A step on one instance touches no object of another and no other record; a step on
      none touches no object and no record. */
  lemma StepTouchesOnlyItsInstance(codec: Codec, n: Naming, ids: set<string>, t: Trace, step: Step)
    requires Sound(codec, n, ids, t) && Disjoint(n, ids) && Disciplined(codec, n, ids, t.b, step)
    ensures var c := Do(codec, t.b, step).0;
      if AboutInstance(step)
      then OnlyOwnedBy(n, step.id, t.b.world.api, c.world.api) && SameRecordsExcept(step.id, t.b.world.reg, c.world.reg)
      else ReadOnly(t.b.world, c.world)
  {
    hide Sound, Disjoint, Faithful, OnlyOwnedBy, StableKeys, Provision, Update, Deprovision, Reconcile,
      HandleProvision, HandleUpdate, HandleDeprovision, HandleBind, HandleUnbind, Rendered;
    var (c, r) := Do(codec, t.b, step);
    SameIsOnlyOwned(n, t.b.world.api);
    SoundParts(codec, n, ids, t);
    match step
    case SProvision(env, id, req) =>
      var w, ns := ProvisionCase(codec, env, t.b, id, req);
      if !(Unmoved(t.b, c) && r.status != Accepted202) {
        ProvisionedResult(codec, n, ids, env, t.b, id, req, w, ns, c, r);
      }
    case SUpdate(env, id, req) =>
      var w := UpdateCase(codec, env, t.b, id, req);
      if !(Unmoved(t.b, c) && r.status != Ok200) {
        RecordOfSoundTrace(codec, n, ids, t, id);
        UpdatedResult(codec, n, ids, env, t.b, id, req, w, c, r, t.b.world.reg.records[id], t.lives[id]);
      }
    case SDeprovision(env, id, service, stamp) =>
      var w := DeprovisionCase(codec, env, t.b, id, service, stamp);
      if !Unmoved(t.b, c) {
        RecordOfSoundTrace(codec, n, ids, t, id);
        DeprovisionedResult(codec, n, ids, step, t.b, c, w, t.b.world.reg.records[id], t.lives[id]);
      }
    case SReconcile(env, id) =>
      ReconcileCase(codec, env, t.b, id);
      if id in t.b.world.reg.records {
        RecordOfSoundTrace(codec, n, ids, t, id);
        ReconciledResult(codec, n, ids, env, t.b, t.b.world.reg.records[id], c, r, t.lives[id]);
      }
    case _ => OtherStepOnlyReads(codec, t.b, step);
  }

  lemma SameIsOnlyOwned(n: Naming, s: State)
    ensures forall id :: OnlyOwnedBy(n, id, s, s)
  {
  }

  lemma SoundParts(codec: Codec, n: Naming, ids: set<string>, t: Trace)
    requires Sound(codec, n, ids, t)
    ensures StableKeys(codec, n, ids, t.b.defs) && InOrder(t.b)
  {
    hide StableKeys, AllFaithful, AllAccountedFor, InOrder;
  }

  lemma AdvanceFollows(codec: Codec, t: Trace, step: Step)
    ensures Advance(codec, t, step).b == Do(codec, t.b, step).0
  {
    hide Do;
  }

  /** So every other instance stays as faithful as it was. */
  lemma OthersStayFaithfulThrough(codec: Codec, n: Naming, ids: set<string>, t: Trace, step: Step, other: string)
    requires Sound(codec, n, ids, t) && Disjoint(n, ids) && Disciplined(codec, n, ids, t.b, step)
    requires AboutInstance(step) && other != step.id && other in t.b.world.reg.records
    ensures var c := Do(codec, t.b, step).0;
      && other in c.world.reg.records && c.world.reg.records[other] == t.b.world.reg.records[other]
      && other in t.lives && Faithful(codec, n, c.world.api, c.world.reg.records[other], t.lives[other])
  {
    StepTouchesOnlyItsInstance(codec, n, ids, t, step);
    hide Disjoint, Faithful, StableKeys, Do, Disciplined, AllAccountedFor;
    RecordOfSoundTrace(codec, n, ids, t, other);
    OthersStayFaithful(codec, n, ids, step.id, t.b.world.api, Do(codec, t.b, step).0.world.api,
                       t.b.world.reg.records[other], t.lives[other]);
  }

  // --- what the answers say about the objects ---

  predicate Concerns(step: Step, id: string) {
    AboutInstance(step) && step.id == id
  }

  /** The engine's checks turned the request down before any write. */
  predicate Refusal(e: EngineError) {
    e.ServiceUnknown? || e.PlanUnknown? || e.ParameterNotAllowed? || e.RenderFailed? || e.DecodeFailed?
  }

  /** The answer reports that something was begun and broke off. */
  predicate Failed(r: Response) {
    (r.status.EngineError? && !Refusal(r.status.error)) || r.status == Reconciled(RFailed)
  }

  /** The instance, if it is on record, carries its last accepted render. */
  predicate IntactAt(t: Trace, id: string) {
    id in t.lives ==> t.lives[id].intact
  }

  /** The step was accepted and rendered the instance anew. */
  ghost predicate RenderedBy(codec: Codec, b: BrokerState, step: Step) {
    var r := Do(codec, b, step).1;
    || (step.SProvision? && r.status == Accepted202)
    || (step.SUpdate? && r.status == Ok200)
    || (step.SReconcile? && r.status == Reconciled(RApplied))
  }

  /** A refused operation has touched nothing. */
  lemma RefusalsTouchNothing(codec: Codec, env: WorldEnv, w: World, sd: ServiceDefinition, id: string, ns: string, planId: string, params: Params)
    ensures var o := Update(codec, env, w, sd, id, ns, planId, params);
      o.error.Some? && Refusal(o.error.value) ==> ReadOnly(w, o.world)
    ensures var o := Provision(codec, env, w, sd, id, ns, planId, params);
      o.error.Some? && Refusal(o.error.value) ==> ReadOnly(w, o.world)
  {
    hide AllowedIn, Desired, Converge, ApplyAll, DeleteAll, Overlay, PlanById, NewRecord, UpdatedRecord;
  }

  /** A step on the instance whose answer is no failure rendered it anew, removed its record,
      or left every object alone. */
  lemma AnswerOfStep(codec: Codec, n: Naming, ids: set<string>, t: Trace, step: Step)
    requires Sound(codec, n, ids, t) && Disjoint(n, ids) && Disciplined(codec, n, ids, t.b, step)
    requires AboutInstance(step)
    ensures var (c, r) := Do(codec, t.b, step);
      && (RenderedBy(codec, t.b, step) ==> NewLife(codec, t, step, c, r).Some? && NewLife(codec, t, step, c, r).value.intact)
      && (!RenderedBy(codec, t.b, step) ==> NewLife(codec, t, step, c, r).None?)
      && (!RenderedBy(codec, t.b, step) && !Failed(r) && !(step.SDeprovision? && r.status == Ok200) ==>
            SameOutside(t.b.world.api, c.world.api, {}))
      && (step.SDeprovision? && r.status == Ok200 ==> step.id !in c.world.reg.records)
  {
    hide Sound, Disjoint, Faithful, OnlyOwnedBy, StableKeys, Provision, Update, Deprovision, Reconcile, Desired,
      HandleProvision, HandleUpdate, HandleDeprovision, HandleBind, HandleUnbind;
    var (c, r) := Do(codec, t.b, step);
    SoundParts(codec, n, ids, t);
    match step
    case SProvision(env, id, req) =>
      var w, ns := ProvisionCase(codec, env, t.b, id, req);
      if !(Unmoved(t.b, c) && r.status != Accepted202) {
        ProvisionedResult(codec, n, ids, env, t.b, id, req, w, ns, c, r);
        NewLifeOfProvision(codec, t, step, c, r, ns);
        RefusalsTouchNothing(codec, env.world, w, t.b.defs[req.serviceId], id, ns, req.planId, req.parameters);
      }
    case SUpdate(env, id, req) =>
      var w := UpdateCase(codec, env, t.b, id, req);
      if !(Unmoved(t.b, c) && r.status != Ok200) {
        RecordOfSoundTrace(codec, n, ids, t, id);
        var rec := t.b.world.reg.records[id];
        UpdatedResult(codec, n, ids, env, t.b, id, req, w, c, r, rec, t.lives[id]);
        NewLifeOfUpdate(codec, t, step, c, r, rec);
        RefusalsTouchNothing(codec, env.world, w, t.b.defs[RequestedService(req.serviceId, Some(rec))], id, NamespaceOf(rec),
                             TargetPlan(rec, req.planId), req.parameters);
      }
    case SDeprovision(env, id, service, stamp) =>
      DeprovisionAnswer(codec, env, t.b, id, service, stamp);
    case SReconcile(env, id) =>
      ReconcileAnswer(codec, n, ids, t, step, env, id);
  }

  lemma DeprovisionAnswer(codec: Codec, env: BrokerEnv, b: BrokerState, id: string, service: string, stamp: string)
    requires ReadsSucceed(env.world.reg)
    ensures var (c, r) := HandleDeprovision(codec, env, b, id, service, stamp);
      && (!Failed(r) && r.status != Ok200 ==> SameOutside(b.world.api, c.world.api, {}))
      && (r.status == Ok200 ==> id !in c.world.reg.records)
  {
    hide HandleDeprovision;
    var w := DeprovisionCase(codec, env, b, id, service, stamp);
    var (c, r) := HandleDeprovision(codec, env, b, id, service, stamp);
    if !(Unmoved(b, c) && r.status != Ok200) {
      var sd := b.defs[RequestedService(service, Some(b.world.reg.records[id]))];
      SuccessForgets(codec, env.world, w, sd, NamespaceOf(b.world.reg.records[id]), id, stamp);
    }
  }

  lemma SuccessForgets(codec: Codec, env: WorldEnv, w: World, sd: ServiceDefinition, ns: string, id: string, stamp: string)
    ensures var o := Deprovision(codec, env, w, sd, ns, id, stamp);
      o.error.None? ==> id !in o.world.reg.records
  {
    hide DeleteAll, LabelAll, RefsOf, PlanRetains;
  }

  lemma ReconcileAnswer(codec: Codec, n: Naming, ids: set<string>, t: Trace, step: Step, env: BrokerEnv, id: string)
    requires Sound(codec, n, ids, t) && Disjoint(n, ids) && Disciplined(codec, n, ids, t.b, step) && step == SReconcile(env, id)
    ensures var (c, r) := Do(codec, t.b, step);
      && (r.status == Reconciled(RApplied) ==> NewLife(codec, t, step, c, r).Some? && NewLife(codec, t, step, c, r).value.intact)
      && (r.status != Reconciled(RApplied) && !Failed(r) ==> SameOutside(t.b.world.api, c.world.api, {}))
  {
    hide Sound, Disjoint, Faithful, OnlyOwnedBy, StableKeys, Reconcile, Desired;
    var (c, r) := Do(codec, t.b, step);
    SoundParts(codec, n, ids, t);
    ReconcileCase(codec, env, t.b, id);
    if id in t.b.world.reg.records {
      RecordOfSoundTrace(codec, n, ids, t, id);
      var rec := t.b.world.reg.records[id];
      ReconciledResult(codec, n, ids, env, t.b, rec, c, r, t.lives[id]);
      NewLifeOfReconcile(codec, t, step, c, r, rec);
      ReconcileIsCareful(codec, env.world, t.b.world, t.b.defs, rec);
    }
  }

  /** How one step moves the mark. */
  lemma StepMovesIntact(codec: Codec, n: Naming, ids: set<string>, t: Trace, step: Step, id: string)
    requires Sound(codec, n, ids, t) && Disjoint(n, ids) && Disciplined(codec, n, ids, t.b, step)
    ensures Concerns(step, id) && RenderedBy(codec, t.b, step) ==> IntactAt(Advance(codec, t, step), id)
    ensures IntactAt(t, id) && !(Concerns(step, id) && Failed(Do(codec, t.b, step).1)) ==>
      IntactAt(Advance(codec, t, step), id)
  {
    hide Sound, Disjoint, StableKeys, Faithful, Do, NewLife, SameOutside, NextKept;
    if AboutInstance(step) {
      AnswerOfStep(codec, n, ids, t, step);
      StepTouchesOnlyItsInstance(codec, n, ids, t, step);
    }
    LivesAreTheRecords(codec, n, ids, t);
  }

  lemma LivesAreTheRecords(codec: Codec, n: Naming, ids: set<string>, t: Trace)
    requires Sound(codec, n, ids, t)
    ensures t.lives.Keys == t.b.world.reg.records.Keys
  {
    hide StableKeys, Faithful, AccountedFor;
  }

  /** From the answers alone: when step `last` was accepted and rendered the instance, and no
      later step on it was answered with a failure, then as long as it is on record every
      object carries that record's rendering, on every label and field the manifest names. */
  lemma {:induction false} ObjectsCarryTheLastRender(codec: Codec, n: Naming, ids: set<string>, t: Trace, steps: seq<Step>, last: nat, id: string)
    requires Sound(codec, n, ids, t) && Disjoint(n, ids) && DisciplinedRun(codec, n, ids, t.b, steps)
    requires last < |steps| && Concerns(steps[last], id) && RenderedBy(codec, Run(codec, t.b, steps[..last]), steps[last])
    requires NoFailureAfter(codec, t.b, steps, last, id)
    ensures var u := AdvanceAll(codec, t, steps);
      && u.b == Run(codec, t.b, steps) && IntactAt(u, id)
      && (id in u.b.world.reg.records ==>
            && id in u.lives && Consistent(codec, n, u.b.world.reg.records[id], u.lives[id])
            && CarriesAll(u.b.world.api, u.lives[id].docs))
  {
    hide Sound, Disjoint, Do, RenderedBy, DisciplinedRun, NoFailureAfter, Advance, Concerns, CarriesAll, Consistent;
    StaysIntact(codec, n, ids, t, steps, last, id);
    EveryRunIsSound(codec, n, ids, t, steps);
    TraceFollowsRun(codec, t, steps);
    var u := AdvanceAll(codec, t, steps);
    if id in u.b.world.reg.records {
      RecordOfSoundTrace(codec, n, ids, u, id);
    }
  }

  ghost predicate NoFailureAfter(codec: Codec, b: BrokerState, steps: seq<Step>, last: nat, id: string) {
    forall i | last < i < |steps| && Concerns(steps[i], id) :: !Failed(Do(codec, Run(codec, b, steps[..i]), steps[i]).1)
  }

  lemma PrefixOfRun(codec: Codec, n: Naming, ids: set<string>, b: BrokerState, steps: seq<Step>, m: nat, last: nat, id: string)
    requires m <= |steps| && DisciplinedRun(codec, n, ids, b, steps) && NoFailureAfter(codec, b, steps, last, id)
    ensures DisciplinedRun(codec, n, ids, b, steps[..m]) && NoFailureAfter(codec, b, steps[..m], last, id)
  {
    hide Disciplined, Do, Run, Concerns, Failed;
    var init := steps[..m];
    forall i | 0 <= i < m ensures init[..i] == steps[..i] && init[i] == steps[i] {
    }
  }

  lemma {:induction false} StaysIntact(codec: Codec, n: Naming, ids: set<string>, t: Trace, steps: seq<Step>, last: nat, id: string)
    requires Sound(codec, n, ids, t) && Disjoint(n, ids) && DisciplinedRun(codec, n, ids, t.b, steps)
    requires last < |steps| && Concerns(steps[last], id) && RenderedBy(codec, Run(codec, t.b, steps[..last]), steps[last])
    requires NoFailureAfter(codec, t.b, steps, last, id)
    ensures IntactAt(AdvanceAll(codec, t, steps), id)
  {
    hide Sound, Disjoint, Do, Run, RenderedBy, Disciplined, DisciplinedRun, NoFailureAfter, Advance, AdvanceAll, Concerns, IntactAt, Failed;
    var m := |steps| - 1;
    var init := steps[..m];
    PrefixOfRun(codec, n, ids, t.b, steps, m, last, id);
    EveryRunIsSound(codec, n, ids, t, init);
    TraceFollowsRun(codec, t, init);
    LastStep(codec, n, ids, t, steps, last, id);
    StepMovesIntact(codec, n, ids, AdvanceAll(codec, t, init), steps[m], id);
    if last < m {
      assert init[..last] == steps[..last] && init[last] == steps[last];
      StaysIntact(codec, n, ids, t, init, last, id);
    }
  }

  lemma LastStep(codec: Codec, n: Naming, ids: set<string>, t: Trace, steps: seq<Step>, last: nat, id: string)
    requires steps != [] && DisciplinedRun(codec, n, ids, t.b, steps) && NoFailureAfter(codec, t.b, steps, last, id)
    ensures var m := |steps| - 1;
      var b := Run(codec, t.b, steps[..m]);
      && Disciplined(codec, n, ids, b, steps[m])
      && (last < m && Concerns(steps[m], id) ==> !Failed(Do(codec, b, steps[m]).1))
      && AdvanceAll(codec, t, steps) == Advance(codec, AdvanceAll(codec, t, steps[..m]), steps[m])
  {
    hide Disciplined, Do, Concerns, Failed, Advance;
  }

  // --- a failed PATCH is healed by sending it again ---

  lemma UnansweredUpdate(codec: Codec, env: BrokerEnv, b: BrokerState, id: string, req: UpdateRequest)
    ensures var r := HandleUpdate(codec, env, b, id, req).1;
      r.status == EngineError(RecordFailed) || (r.status.EngineError? && r.status.error.ApplyFailed?) ==>
        && id in b.world.reg.records
        && RequestedService(req.serviceId, Some(b.world.reg.records[id])) != ""
        && RequestedService(req.serviceId, Some(b.world.reg.records[id])) in b.defs
  {
    hide HandleUpdateOf;
  }

  /** Whatever call broke a PATCH off, sending the same PATCH again undisturbed is answered
      200 and leaves every object carrying the rendering of the record. */
  lemma RetriedPatchIsIntact(codec: Codec, n: Naming, ids: set<string>, t: Trace, first: BrokerEnv, again: BrokerEnv, id: string,
                              req: UpdateRequest, docs: seq<Doc>)
    requires Sound(codec, n, ids, t) && Disjoint(n, ids)
    requires Disciplined(codec, n, ids, t.b, SUpdate(first, id, req))
    requires var r := HandleUpdate(codec, first, t.b, id, req).1;
      r.status == EngineError(RecordFailed) || (r.status.EngineError? && r.status.error.ApplyFailed?)
    requires var t1 := Advance(codec, t, SUpdate(first, id, req));
      && Disciplined(codec, n, ids, t1.b, SUpdate(again, id, req))
      && Calm(again.world.api, t1.b.world.api.clock) && RegCalm(again.world.reg, t1.b.world.reg.clock)
    requires id in t.b.world.reg.records
    requires var rec := t.b.world.reg.records[id];
      var service := RequestedService(req.serviceId, Some(rec));
      service in t.b.defs && Servable(codec, t.b.defs[service], rec, id, rec.ns, TargetPlan(rec, req.planId), req.parameters, docs) && Reachable(docs)
    ensures var t1 := Advance(codec, t, SUpdate(first, id, req));
      var t2 := Advance(codec, t1, SUpdate(again, id, req));
      && Do(codec, t1.b, SUpdate(again, id, req)).1 == Plain(Ok200)
      && id in t2.b.world.reg.records && id in t2.lives && t2.lives[id].intact
      && CarriesAll(t2.b.world.api, t2.lives[id].docs)
  {
    hide Sound, Disjoint, HandleUpdate, Update, PassesChecks, RequestedService, NamespaceOf, CarriesAll, Servable, Booked, ReadsSucceed, RegCalm, Calm, TargetPlan, Consistent;
    var one, two := SUpdate(first, id, req), SUpdate(again, id, req);
    var t1 := Advance(codec, t, one);
    FailedPatchKeepsTheRecord(codec, n, ids, t, first, id, req);
    EveryStepIsSound(codec, n, ids, t, one);
    EveryStepIsSound(codec, n, ids, t1, two);
    RecordOfSoundTrace(codec, n, ids, t1, id);
    CalmPatchSucceeds(codec, again, t1.b, id, req, docs);
    StepMovesIntact(codec, n, ids, t1, two, id);
    var t2 := Advance(codec, t1, two);
    SoundParts(codec, n, ids, t1);
    RecordStaysOnRecord(codec, again, t1.b, id, req);
    AdvanceFollows(codec, t1, two);
    RecordOfSoundTrace(codec, n, ids, t2, id);
  }

  /** After the failure record and definition are what they were, and the checks passed. */
  lemma FailedPatchKeepsTheRecord(codec: Codec, n: Naming, ids: set<string>, t: Trace, env: BrokerEnv, id: string, req: UpdateRequest)
    requires Sound(codec, n, ids, t) && Disjoint(n, ids) && Disciplined(codec, n, ids, t.b, SUpdate(env, id, req))
    requires var r := HandleUpdate(codec, env, t.b, id, req).1;
      r.status == EngineError(RecordFailed) || (r.status.EngineError? && r.status.error.ApplyFailed?)
    ensures var b := Advance(codec, t, SUpdate(env, id, req)).b;
      && id in t.b.world.reg.records && b.world.reg.records == t.b.world.reg.records && b.defs == t.b.defs
      && var rec := t.b.world.reg.records[id];
         var service := RequestedService(req.serviceId, Some(rec));
         service != "" && service in b.defs && PassesChecks(codec, b.defs[service], rec, req) && NamespaceOf(rec) == rec.ns
  {
    hide Sound, Disjoint, HandleUpdate, PassesChecks, RequestedService, Faithful, NextLives, NextKept;
    UnansweredUpdate(codec, env, t.b, id, req);
    RecordOfSoundTrace(codec, n, ids, t, id);
    FailedPatchIn(codec, env, t.b, id, req);
  }

  lemma FailedPatchIn(codec: Codec, env: BrokerEnv, b: BrokerState, id: string, req: UpdateRequest)
    requires ReadsSucceed(env.world.reg) && id in b.world.reg.records && b.world.reg.records[id].id == id
    requires var r := HandleUpdate(codec, env, b, id, req).1;
      r.status == EngineError(RecordFailed) || (r.status.EngineError? && r.status.error.ApplyFailed?)
    ensures var c := HandleUpdate(codec, env, b, id, req).0;
      && c.world.reg.records == b.world.reg.records && c.defs == b.defs
      && var rec := b.world.reg.records[id];
         var service := RequestedService(req.serviceId, Some(rec));
         service != "" && service in b.defs && PassesChecks(codec, b.defs[service], rec, req)
  {
    hide HandleUpdate, Update, PassesChecks, TargetPlan, Servable, CarriesAll, SameOutside;
    UnansweredUpdate(codec, env, b, id, req);
    HandleUpdateUnfolds(codec, env, b, id, req);
    var rec := b.world.reg.records[id];
    var read := b.world.(reg := b.world.reg.(clock := b.world.reg.clock + 1));
    var _, _ := UpdateEffect(codec, env.world, read, b.defs[RequestedService(req.serviceId, Some(rec))], id, NamespaceOf(rec),
                             TargetPlan(rec, req.planId), req.parameters, rec);
  }

  lemma CalmPatchSucceeds(codec: Codec, env: BrokerEnv, b: BrokerState, id: string, req: UpdateRequest, docs: seq<Doc>)
    requires ReadsSucceed(env.world.reg) && id in b.world.reg.records && b.world.reg.records[id].id == id
    requires Calm(env.world.api, b.world.api.clock) && RegCalm(env.world.reg, b.world.reg.clock)
    requires var rec := b.world.reg.records[id];
      var service := RequestedService(req.serviceId, Some(rec));
      && service != "" && service in b.defs && PassesChecks(codec, b.defs[service], rec, req)
      && Servable(codec, b.defs[service], rec, id, NamespaceOf(rec), TargetPlan(rec, req.planId), req.parameters, docs) && Reachable(docs)
    ensures HandleUpdate(codec, env, b, id, req).1 == Plain(Ok200)
  {
    hide HandleUpdate, Update, PassesChecks, Servable, Reachable, RequestedService, NamespaceOf, TargetPlan;
    HandleUpdateUnfolds(codec, env, b, id, req);
    var rec := b.world.reg.records[id];
    var read := b.world.(reg := b.world.reg.(clock := b.world.reg.clock + 1));
    CalmUpdateSucceeds(codec, env.world, read, b.defs[RequestedService(req.serviceId, Some(rec))], id, NamespaceOf(rec),
                       TargetPlan(rec, req.planId), req.parameters, rec, docs);
  }

  lemma RecordStaysOnRecord(codec: Codec, env: BrokerEnv, b: BrokerState, id: string, req: UpdateRequest)
    requires InOrder(b) && Readable(SUpdate(env, id, req)) && id in b.world.reg.records
    ensures id in HandleUpdate(codec, env, b, id, req).0.world.reg.records
  {
    hide HandleUpdate;
    InstanceStays(codec, b, SUpdate(env, id, req), id);
  }
}
