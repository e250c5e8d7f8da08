/** What holds of every recorded instance after every run: who owns which object, what the
    objects carry, and where the stored configuration comes from. */
module RunInvariants {
  import opened Wrappers
  import opened Json
  import opened Definition
  import opened Validation
  import opened Render
  import opened Api
  import opened Operator
  import opened OperatorProofs
  import opened Registry
  import opened Engine
  import opened ProvisionProofs
  import opened UpdateProofs
  import opened ReconcileProofs
  import opened DeprovisionProofs
  import opened Broker
  import opened Protocol

  // --- assumptions on the definitions ---

  /** `keysOf` gives the objects of an instance from its service, id and namespace;
      `ownerOf` gives the instance an object name belongs to, None for everything the
      broker's instances never use. */
  datatype Naming = Naming(keysOf: (string, string, string) -> seq<Key>, ownerOf: Key -> Option<string>)

  /** The ids in use have disjoint, non-empty lists of distinct object names. */
  ghost predicate Disjoint(n: Naming, ids: set<string>) {
    forall service, id, ns {:trigger n.keysOf(service, id, ns)} | id in ids ::
      && n.keysOf(service, id, ns) != [] && Distinct(n.keysOf(service, id, ns))
      && forall k | k in n.keysOf(service, id, ns) :: n.ownerOf(k) == Some(id)
  }

  /** Which objects a template renders depends on the instance alone, not on plan or
      parameters, as in all shipped definitions. */
  ghost predicate StableKeys(codec: Codec, n: Naming, ids: set<string>, defs: map<string, ServiceDefinition>) {
    && (forall service | service in defs :: defs[service].offeringId == service && DistinctPlanIds(defs[service].plans))
    && forall service, id, ns, plan, params {:trigger Desired(codec, defs[service], id, ns, plan, params)} |
         service in defs && id in ids && Desired(codec, defs[service], id, ns, plan, params).Ok? ::
         Keys(Desired(codec, defs[service], id, ns, plan, params).value) == n.keysOf(service, id, ns)
  }

  // --- history ---

  /** What the run so far says about one recorded instance: the definition and plan in force
      when its record was last written by a render, the parameter sets sent for it in order,
      the manifest of that last render, and whether everything since has gone through. */
  datatype Life = Life(sd: ServiceDefinition, plan: Plan, sets: seq<Params>, docs: seq<Doc>, intact: bool)

  /** Broker state, the life of each recorded instance, and the objects left standing by
      deprovisions of retaining plans. */
  datatype Trace = Trace(b: BrokerState, lives: map<string, Life>, kept: set<Key>)

  function PlanOr(sd: ServiceDefinition, id: string, default: Plan): Plan {
    if PlanById(sd, id).Some? then PlanById(sd, id).value else default
  }

  function DocsOr(r: Result<seq<Doc>, EngineError>): seq<Doc> {
    if r.Ok? then r.value else []
  }

  const NO_PLAN := Plan("", "", map[], [], map[], false, None, None)

  function Rendered(codec: Codec, sd: ServiceDefinition, id: string, ns: string, planId: string, sets: seq<Params>): Life {
    var plan := PlanOr(sd, planId, NO_PLAN);
    Life(sd, plan, sets, DocsOr(Desired(codec, sd, id, ns, plan, OverlayList(sets))), true)
  }

  /** The service whose definition a request on a recorded instance uses. */
  function ServiceOf(b: BrokerState, id: string, sent: string): string {
    RequestedService(sent, if id in b.world.reg.records then Some(b.world.reg.records[id]) else None)
  }

  /** The life of the instance a step is about, if the step rendered it anew. */
  function NewLife(codec: Codec, t: Trace, step: Step, c: BrokerState, r: Response): Option<Life> {
    match step
    case SProvision(env, id, req) =>
      if r.status == Accepted202 && req.serviceId in t.b.defs && id in c.world.reg.records then
        Some(Rendered(codec, t.b.defs[req.serviceId], id, c.world.reg.records[id].ns, req.planId, [req.parameters]))
      else None
    case SUpdate(env, id, req) =>
      if r.status == Ok200 && id in t.lives && id in t.b.world.reg.records && ServiceOf(t.b, id, req.serviceId) in t.b.defs then
        Some(Rendered(codec, t.b.defs[ServiceOf(t.b, id, req.serviceId)], id, t.b.world.reg.records[id].ns,
                      TargetPlan(t.b.world.reg.records[id], req.planId), t.lives[id].sets + [req.parameters]))
      else None
    case SReconcile(env, id) =>
      if r.status == Reconciled(RApplied) && id in t.lives && id in t.b.world.reg.records && t.b.world.reg.records[id].serviceId in t.b.defs then
        Some(Rendered(codec, t.b.defs[t.b.world.reg.records[id].serviceId], id, t.b.world.reg.records[id].ns,
                      t.b.world.reg.records[id].planId, t.lives[id].sets))
      else None
    case _ => None
  }

  predicate AboutInstance(step: Step) {
    step.SProvision? || step.SUpdate? || step.SDeprovision? || step.SReconcile?
  }

  /** A step that rendered anew starts a fresh entry; any other step on the instance leaves
      the entry, but no longer vouches for the objects unless it left the cluster alone. */
  ghost function NextLives(codec: Codec, t: Trace, step: Step, c: BrokerState, r: Response): map<string, Life> {
    var anew := NewLife(codec, t, step, c, r);
    var lives :=
      if !AboutInstance(step) then t.lives
      else if anew.Some? then t.lives[step.id := anew.value]
      else if step.id in t.lives then
        t.lives[step.id := t.lives[step.id].(intact := t.lives[step.id].intact && SameOutside(t.b.world.api, c.world.api, {}))]
      else t.lives;
    map id | id in lives && id in c.world.reg.records :: lives[id]
  }

  /** A retaining deprovision leaves its recorded objects to the operator. */
  function NextKept(t: Trace, step: Step, c: BrokerState): set<Key> {
    if step.SDeprovision? && step.id in t.b.world.reg.records && step.id !in c.world.reg.records
       && ServiceOf(t.b, step.id, step.service) in t.b.defs
       && PlanRetains(t.b.defs[ServiceOf(t.b, step.id, step.service)], Some(t.b.world.reg.records[step.id]))
    then t.kept + KeySet(t.b.world.reg.records[step.id].appliedRefs)
    else t.kept
  }

  ghost function Next(codec: Codec, t: Trace, step: Step, c: BrokerState, r: Response): Trace {
    Trace(c, NextLives(codec, t, step, c, r), NextKept(t, step, c))
  }

  /** The record of the instance names the object. */
  predicate Named(b: BrokerState, k: Key) {
    exists id | id in b.world.reg.records :: k in b.world.reg.records[id].appliedRefs
  }

  /** Of the objects left standing, those that still stand and that no record has claimed
      since. */
  ghost function Standing(b: BrokerState, kept: set<Key>): set<Key> {
    set k | k in kept && k in b.world.api.objects && !Named(b, k)
  }

  ghost function Booked(codec: Codec, t: Trace, step: Step): Trace {
    var (c, r) := Do(codec, t.b, step);
    Next(codec, t, step, c, r)
  }

  ghost function Advance(codec: Codec, t: Trace, step: Step): Trace {
    var u := Booked(codec, t, step);
    u.(kept := Standing(u.b, u.kept))
  }

  ghost function AdvanceAll(codec: Codec, t: Trace, steps: seq<Step>): Trace {
    if steps == [] then t
    else Advance(codec, AdvanceAll(codec, t, steps[..|steps| - 1]), steps[|steps| - 1])
  }

  // --- discipline ---

  /** What is asked of a step: the registry is readable, the id is one of those considered,
      DELETE and PATCH name the instance's service or none, new definitions keep the object
      names, and a rollback that was needed worked. */
  ghost predicate Disciplined(codec: Codec, n: Naming, ids: set<string>, b: BrokerState, step: Step) {
    && Readable(step)
    && (AboutInstance(step) ==> step.id in ids)
    && (step.SUpdate? && step.id in b.world.reg.records ==> step.patch.serviceId in {"", b.world.reg.records[step.id].serviceId})
    && (step.SDeprovision? && step.id in b.world.reg.records ==> step.service in {"", b.world.reg.records[step.id].serviceId})
    && (step.SReload? ==> StableKeys(codec, n, ids, step.defs))
    && !(Do(codec, b, step).1.status.EngineError? && Do(codec, b, step).1.status.error.CleanupIncomplete?)
  }

  ghost predicate DisciplinedRun(codec: Codec, n: Naming, ids: set<string>, b: BrokerState, steps: seq<Step>) {
    forall i | 0 <= i < |steps| :: Disciplined(codec, n, ids, Run(codec, b, steps[..i]), steps[i])
  }

  // --- the invariant ---

  /** The record is what its history says: parameters overlaid in order, allowed in the plan
      as loaded at the last render, that plan's maintenance version, the names of the
      rendered objects. */
  ghost predicate Consistent(codec: Codec, n: Naming, rec: InstanceRecord, life: Life) {
    && rec.parameters == OverlayList(life.sets)
    && PlanById(life.sd, rec.planId) == Some(life.plan)
    && AllowedIn(life.plan, rec.parameters, codec.fmt)
    && rec.maintenanceVersion == MaintenanceVersion(life.sd, rec.planId)
    && life.sd.offeringId == rec.serviceId
    && Desired(codec, life.sd, rec.id, rec.ns, life.plan, rec.parameters) == Ok(life.docs)
    && Keys(life.docs) == rec.appliedRefs == n.keysOf(rec.serviceId, rec.id, rec.ns)
  }

  /** Record and history agree, and, as long as nothing has failed since the last render,
      every object carries that render. */
  ghost predicate Faithful(codec: Codec, n: Naming, api: State, rec: InstanceRecord, life: Life) {
    Consistent(codec, n, rec, life) && (life.intact ==> CarriesAll(api, life.docs))
  }

  /** An existing object is foreign, was left standing on purpose, or is named by the record
      of the instance that owns its name. */
  ghost predicate AccountedFor(n: Naming, b: BrokerState, kept: set<Key>, k: Key) {
    || n.ownerOf(k).None?
    || k in kept
    || (n.ownerOf(k).value in b.world.reg.records && k in b.world.reg.records[n.ownerOf(k).value].appliedRefs)
  }

  ghost predicate AllFaithful(codec: Codec, n: Naming, ids: set<string>, b: BrokerState, lives: map<string, Life>) {
    && lives.Keys == b.world.reg.records.Keys && lives.Keys <= ids
    && forall id | id in lives :: Faithful(codec, n, b.world.api, b.world.reg.records[id], lives[id])
  }

  ghost predicate AllAccountedFor(n: Naming, b: BrokerState, kept: set<Key>) {
    forall k | k in b.world.api.objects :: AccountedFor(n, b, kept, k)
  }

  /** Every record is stored under its own id and carries a namespace. */
  ghost predicate InOrder(b: BrokerState) {
    WellKept(b) && Placed(b)
  }

  ghost predicate Sound(codec: Codec, n: Naming, ids: set<string>, t: Trace) {
    && InOrder(t.b)
    && StableKeys(codec, n, ids, t.b.defs)
    && AllFaithful(codec, n, ids, t.b, t.lives)
    && AllAccountedFor(n, t.b, t.kept)
  }

  lemma StepKeepsOrder(codec: Codec, b: BrokerState, step: Step)
    requires InOrder(b) && Readable(step)
    ensures InOrder(Do(codec, b, step).0)
  {
    hide Do;
    StepKeepsWell(codec, b, step);
    StepKeepsPlaced(codec, b, step);
  }

  /** Only objects owned by `id` differ. */
  ghost predicate OnlyOwnedBy(n: Naming, id: string, s: State, u: State) {
    forall k | n.ownerOf(k) != Some(id) :: SameAt(s, u, k)
  }

  lemma ChangedKeysAreOwned(n: Naming, ids: set<string>, service: string, id: string, ns: string, s: State, u: State)
    requires Disjoint(n, ids) && id in ids
    requires SameOutside(s, u, KeySet(n.keysOf(service, id, ns)))
    ensures OnlyOwnedBy(n, id, s, u)
  {
    forall k | n.ownerOf(k) != Some(id) ensures SameAt(s, u, k) {
      assert k !in n.keysOf(service, id, ns);
    }
  }

  /** An instance that a step is not about stays faithful: no step on one instance changes
      an object of another. */
  lemma OthersStayFaithful(codec: Codec, n: Naming, ids: set<string>, id: string, s: State, u: State, rec: InstanceRecord, life: Life)
    requires Disjoint(n, ids) && rec.id in ids && rec.id != id
    requires OnlyOwnedBy(n, id, s, u) && Faithful(codec, n, s, rec, life)
    ensures Faithful(codec, n, u, rec, life)
  {
    assert forall k | k in n.keysOf(rec.serviceId, rec.id, rec.ns) :: n.ownerOf(k) == Some(rec.id);
    if life.intact {
      OwnedCarriesIsStable(n, rec.id, id, s, u, life.docs);
    }
  }

  lemma OwnedCarriesIsStable(n: Naming, mine: string, other: string, s: State, u: State, docs: seq<Doc>)
    requires mine != other && OnlyOwnedBy(n, other, s, u) && CarriesAll(s, docs)
    requires forall k | k in Keys(docs) :: n.ownerOf(k) == Some(mine)
    ensures CarriesAll(u, docs)
  {
    forall i | 0 <= i < |docs| ensures docs[i].key in u.objects && Carries(u.objects[docs[i].key].content, docs[i].content) {
      assert docs[i].key == Keys(docs)[i] && Keys(docs)[i] in Keys(docs);
      assert SameAt(s, u, docs[i].key);
    }
  }

  /** An entry that was not rendered anew vouches for the objects only if none changed. */
  lemma UntouchedStaysFaithful(codec: Codec, n: Naming, s: State, u: State, rec: InstanceRecord, life: Life)
    requires Faithful(codec, n, s, rec, life)
    ensures Faithful(codec, n, u, rec, life.(intact := life.intact && SameOutside(s, u, {})))
  {
    if life.intact && SameOutside(s, u, {}) {
      CarriesAllIsStable(s, u, life.docs, {});
    }
  }

  // --- putting a step together ---

  ghost predicate SameRecordsExcept(id: string, s: RegState, u: RegState) {
    forall x | x != id :: (x in u.records <==> x in s.records) && (x in u.records ==> u.records[x] == s.records[x])
  }

  lemma FaithfulFromParts(codec: Codec, n: Naming, ids: set<string>, t: Trace, u: Trace, id: string)
    requires AllFaithful(codec, n, ids, t.b, t.lives) && Disjoint(n, ids) && id in ids && InOrder(t.b)
    requires OnlyOwnedBy(n, id, t.b.world.api, u.b.world.api)
    requires SameRecordsExcept(id, t.b.world.reg, u.b.world.reg)
    requires u.lives.Keys == u.b.world.reg.records.Keys
    requires forall x | x != id && x in u.lives :: u.lives[x] == t.lives[x]
    requires id in u.lives ==> Faithful(codec, n, u.b.world.api, u.b.world.reg.records[id], u.lives[id])
    ensures AllFaithful(codec, n, ids, u.b, u.lives)
  {
    forall x | x in u.lives
      ensures x in ids && Faithful(codec, n, u.b.world.api, u.b.world.reg.records[x], u.lives[x])
    {
      if x != id {
        assert x in t.lives;
        OthersStayFaithful(codec, n, ids, id, t.b.world.api, u.b.world.api, t.b.world.reg.records[x], t.lives[x]);
      }
    }
  }

  lemma AccountedFromParts(n: Naming, t: Trace, u: Trace, id: string)
    requires AllAccountedFor(n, t.b, t.kept) && t.kept <= u.kept
    requires OnlyOwnedBy(n, id, t.b.world.api, u.b.world.api)
    requires SameRecordsExcept(id, t.b.world.reg, u.b.world.reg)
    requires forall k | k in u.b.world.api.objects && n.ownerOf(k) == Some(id) :: AccountedFor(n, u.b, u.kept, k)
    ensures AllAccountedFor(n, u.b, u.kept)
  {
    forall k | k in u.b.world.api.objects ensures AccountedFor(n, u.b, u.kept, k) {
      if n.ownerOf(k) != Some(id) {
        assert SameAt(t.b.world.api, u.b.world.api, k);
        assert AccountedFor(n, t.b, t.kept, k);
      }
    }
  }

  /** The invariant after a step, from what the step did to the one instance it is about. */
  lemma SoundFromParts(codec: Codec, n: Naming, ids: set<string>, t: Trace, u: Trace, id: string)
    requires Sound(codec, n, ids, t) && Disjoint(n, ids) && id in ids
    requires InOrder(u.b) && u.b.defs == t.b.defs && t.kept <= u.kept
    requires OnlyOwnedBy(n, id, t.b.world.api, u.b.world.api)
    requires SameRecordsExcept(id, t.b.world.reg, u.b.world.reg)
    requires u.lives.Keys == u.b.world.reg.records.Keys
    requires forall x | x != id && x in u.lives :: u.lives[x] == t.lives[x]
    requires id in u.lives ==> Faithful(codec, n, u.b.world.api, u.b.world.reg.records[id], u.lives[id])
    requires forall k | k in u.b.world.api.objects && n.ownerOf(k) == Some(id) :: AccountedFor(n, u.b, u.kept, k)
    ensures Sound(codec, n, ids, u)
  {
    hide Faithful, StableKeys;
    FaithfulFromParts(codec, n, ids, t, u, id);
    AccountedFromParts(n, t, u, id);
  }

  /** The shape of the next history: entries of other instances are untouched. */
  lemma NextLivesShape(codec: Codec, t: Trace, step: Step, c: BrokerState, r: Response)
    requires AboutInstance(step) && t.lives.Keys == t.b.world.reg.records.Keys
    requires SameRecordsExcept(step.id, t.b.world.reg, c.world.reg)
    requires step.id in c.world.reg.records ==> NewLife(codec, t, step, c, r).Some? || step.id in t.lives
    ensures var lives := NextLives(codec, t, step, c, r);
      && lives.Keys == c.world.reg.records.Keys
      && (forall x | x != step.id && x in lives :: lives[x] == t.lives[x])
      && (step.id in lives && NewLife(codec, t, step, c, r).Some? ==> lives[step.id] == NewLife(codec, t, step, c, r).value)
      && (step.id in lives && NewLife(codec, t, step, c, r).None? ==>
            lives[step.id] == t.lives[step.id].(intact := t.lives[step.id].intact && SameOutside(t.b.world.api, c.world.api, {})))
  {
  }

  /** Every object of the instance that exists afterwards existed before or is recorded. */
  ghost predicate NothingNew(n: Naming, id: string, b: BrokerState, c: BrokerState) {
    forall k | k in c.world.api.objects && n.ownerOf(k) == Some(id) ::
      k in b.world.api.objects || (id in b.world.reg.records && k in b.world.reg.records[id].appliedRefs)
  }

  /** A step that left the records alone and rendered nothing anew. */
  lemma RefusedStepIsSound(codec: Codec, n: Naming, ids: set<string>, t: Trace, step: Step, c: BrokerState, r: Response)
    requires Sound(codec, n, ids, t) && Disjoint(n, ids) && AboutInstance(step) && step.id in ids
    requires InOrder(c) && c.defs == t.b.defs && c.world.reg.records == t.b.world.reg.records
    requires OnlyOwnedBy(n, step.id, t.b.world.api, c.world.api) && NothingNew(n, step.id, t.b, c)
    requires NewLife(codec, t, step, c, r).None?
    ensures Sound(codec, n, ids, Next(codec, t, step, c, r))
  {
    hide NextLives, NewLife, Faithful, StableKeys;
    var u := Next(codec, t, step, c, r);
    RefusedLives(codec, n, ids, t, step, c, r);
    KeptOnlyGrows(t, step, c);
    StillAccountedFor(n, step.id, t.b, c, t.kept, u.kept);
    AccountedFromParts(n, t, u, step.id);
  }

  lemma KeptOnlyGrows(t: Trace, step: Step, c: BrokerState)
    ensures t.kept <= NextKept(t, step, c)
  {
  }

  lemma RefusedLives(codec: Codec, n: Naming, ids: set<string>, t: Trace, step: Step, c: BrokerState, r: Response)
    requires AllFaithful(codec, n, ids, t.b, t.lives) && Disjoint(n, ids) && AboutInstance(step) && step.id in ids && InOrder(t.b)
    requires c.world.reg.records == t.b.world.reg.records
    requires OnlyOwnedBy(n, step.id, t.b.world.api, c.world.api)
    requires NewLife(codec, t, step, c, r).None?
    ensures AllFaithful(codec, n, ids, c, NextLives(codec, t, step, c, r))
  {
    hide NextLives, NewLife, Faithful;
    NextLivesShape(codec, t, step, c, r);
    if step.id in t.lives {
      UntouchedStaysFaithful(codec, n, t.b.world.api, c.world.api, t.b.world.reg.records[step.id], t.lives[step.id]);
    }
    FaithfulFromParts(codec, n, ids, t, Next(codec, t, step, c, r), step.id);
  }

  lemma StillAccountedFor(n: Naming, id: string, b: BrokerState, c: BrokerState, kept: set<Key>, kept': set<Key>)
    requires AllAccountedFor(n, b, kept) && kept <= kept' && NothingNew(n, id, b, c)
    requires c.world.reg.records == b.world.reg.records
    ensures forall k | k in c.world.api.objects && n.ownerOf(k) == Some(id) :: AccountedFor(n, c, kept', k)
  {
    forall k | k in c.world.api.objects && n.ownerOf(k) == Some(id) ensures AccountedFor(n, c, kept', k) {
      if k in b.world.api.objects {
        assert AccountedFor(n, b, kept, k);
      }
    }
  }

  lemma UnmovedStepIsSound(codec: Codec, n: Naming, ids: set<string>, t: Trace, step: Step, c: BrokerState, r: Response)
    requires Sound(codec, n, ids, t) && Disjoint(n, ids) && AboutInstance(step) && step.id in ids
    requires InOrder(c) && Unmoved(t.b, c) && NewLife(codec, t, step, c, r).None?
    ensures Sound(codec, n, ids, Next(codec, t, step, c, r))
  {
    RefusedStepIsSound(codec, n, ids, t, step, c, r);
  }

  /** What a rendering step has to leave behind. */
  ghost predicate RenderedAs(codec: Codec, n: Naming, id: string, b: BrokerState, c: BrokerState, life: Life) {
    && SameRecordsExcept(id, b.world.reg, c.world.reg)
    && OnlyOwnedBy(n, id, b.world.api, c.world.api)
    && id in c.world.reg.records
    && Faithful(codec, n, c.world.api, c.world.reg.records[id], life)
    && (forall k | k in c.world.api.objects :: k in b.world.api.objects || k in c.world.reg.records[id].appliedRefs)
    && (id in b.world.reg.records ==> b.world.reg.records[id].appliedRefs == c.world.reg.records[id].appliedRefs)
  }

  /** A step that rendered its instance anew. */
  lemma RenderedStepIsSound(codec: Codec, n: Naming, ids: set<string>, t: Trace, step: Step, c: BrokerState, r: Response, life: Life)
    requires Sound(codec, n, ids, t) && Disjoint(n, ids) && AboutInstance(step) && step.id in ids
    requires InOrder(c) && c.defs == t.b.defs
    requires NewLife(codec, t, step, c, r) == Some(life) && RenderedAs(codec, n, step.id, t.b, c, life)
    ensures Sound(codec, n, ids, Next(codec, t, step, c, r))
  {
    hide NextLives, Desired, StableKeys;
    var u := Next(codec, t, step, c, r);
    NextLivesShape(codec, t, step, c, r);
    RenderedAccountedFor(n, step.id, t.b, c, t.kept, u.kept);
    SoundFromParts(codec, n, ids, t, u, step.id);
  }

  lemma RenderedAccountedFor(n: Naming, id: string, b: BrokerState, c: BrokerState, kept: set<Key>, kept': set<Key>)
    requires AllAccountedFor(n, b, kept) && kept <= kept' && id in c.world.reg.records
    requires forall k | k in c.world.api.objects :: k in b.world.api.objects || k in c.world.reg.records[id].appliedRefs
    requires id in b.world.reg.records ==> b.world.reg.records[id].appliedRefs == c.world.reg.records[id].appliedRefs
    ensures forall k | k in c.world.api.objects && n.ownerOf(k) == Some(id) :: AccountedFor(n, c, kept', k)
  {
    forall k | k in c.world.api.objects && n.ownerOf(k) == Some(id) ensures AccountedFor(n, c, kept', k) {
      if k in b.world.api.objects {
        assert AccountedFor(n, b, kept, k);
      }
    }
  }

  lemma OverlayOfOne(p: Params)
    ensures OverlayList([p]) == p
  {
    assert [p][..0] == [];
    OverlayLaws(p, p, p);
  }

  lemma OverlayOneMore(sets: seq<Params>, p: Params)
    ensures OverlayList(sets + [p]) == Overlay(OverlayList(sets), p)
  {
    assert (sets + [p])[..|sets|] == sets;
  }

  // --- provision ---

  /** What a provision of an unknown id does to the cluster and the records. */
  lemma ProvisionOfUnknown(codec: Codec, n: Naming, ids: set<string>, env: WorldEnv, w: World, defs: map<string, ServiceDefinition>,
                           service: string, id: string, ns: string, planId: string, params: Params)
    requires Disjoint(n, ids) && StableKeys(codec, n, ids, defs) && id in ids && service in defs
    ensures var o := Provision(codec, env, w, defs[service], id, ns, planId, params);
      && OnlyOwnedBy(n, id, w.api, o.world.api)
      && (o.error.Some? ==> o.world.reg.records == w.reg.records)
      && (o.error.Some? && !o.error.value.CleanupIncomplete? ==> forall k | k in o.world.api.objects :: k in w.api.objects)
      && (o.error.None? ==>
            && id in o.world.reg.records && o.world.reg.records == w.reg.records[id := o.world.reg.records[id]]
            && o.world.reg.records[id].ns == ns && o.world.reg.records[id].id == id
            && Faithful(codec, n, o.world.api, o.world.reg.records[id], Rendered(codec, defs[service], id, ns, planId, [params]))
            && forall k | k in o.world.api.objects :: k in w.api.objects || k in o.world.reg.records[id].appliedRefs)
  {
    var sd := defs[service];
    var o := Provision(codec, env, w, sd, id, ns, planId, params);
    if o.error.Some? {
      var docs, applied, removed := ProvisionIsFailureAtomic(codec, env, w, sd, id, ns, planId, params);
      assert applied[..|applied|] == applied;
      assert forall k | k in applied :: k in Keys(docs);
      if docs != [] {
        assert Keys(docs) == n.keysOf(service, id, ns);
      }
      assert forall k | k !in KeySet(n.keysOf(service, id, ns)) :: k !in KeySet(applied);
      ChangedKeysAreOwned(n, ids, service, id, ns, w.api, o.world.api);
      forall k | k in o.world.api.objects && removed == |applied| ensures k in w.api.objects {
        assert SameAt(w.api, o.world.api, k);
      }
    } else {
      var docs := ProvisionSucceeds(codec, env, w, sd, id, ns, planId, params);
      OverlayOfOne(params);
      assert Keys(docs) == n.keysOf(service, id, ns);
      ChangedKeysAreOwned(n, ids, service, id, ns, w.api, o.world.api);
      forall k | k in o.world.api.objects ensures k in w.api.objects || k in Keys(docs) {
        if k !in Keys(docs) { assert SameAt(w.api, o.world.api, k); }
      }
    }
  }

  lemma ProvisionStepIsSound(codec: Codec, n: Naming, ids: set<string>, t: Trace, step: Step)
    requires Sound(codec, n, ids, t) && Disjoint(n, ids) && Disciplined(codec, n, ids, t.b, step)
    requires step.SProvision?
    ensures Sound(codec, n, ids, Booked(codec, t, step))
  {
    var (c, r) := Do(codec, t.b, step);
    var w, ns := ProvisionCase(codec, step.env, t.b, step.id, step.put);
    StepKeepsOrder(codec, t.b, step);
    ProvisionResultIsSound(codec, n, ids, t, step, c, r, w, ns);
  }

  lemma ProvisionResultIsSound(codec: Codec, n: Naming, ids: set<string>, t: Trace, step: Step, c: BrokerState, r: Response, w: World, ns: string)
    requires Sound(codec, n, ids, t) && Disjoint(n, ids) && step.SProvision? && step.id in ids && InOrder(c)
    requires !(r.status.EngineError? && r.status.error.CleanupIncomplete?)
    requires
      || (Unmoved(t.b, c) && r.status != Accepted202)
      || (&& step.id !in t.b.world.reg.records && step.put.serviceId in t.b.defs && ReadOnly(t.b.world, w)
          && var o := Provision(codec, step.env.world, w, t.b.defs[step.put.serviceId], step.id, ns, step.put.planId, step.put.parameters);
             c == t.b.(world := o.world) && r == Plain(StatusOf(o, Accepted202)))
    ensures Sound(codec, n, ids, Next(codec, t, step, c, r))
  {
    var id, req := step.id, step.put;
    if Unmoved(t.b, c) && r.status != Accepted202 {
      UnmovedStepIsSound(codec, n, ids, t, step, c, r);
    } else {
      ProvisionedResult(codec, n, ids, step.env, t.b, id, req, w, ns, c, r);
      NewLifeOfProvision(codec, t, step, c, r, ns);
      if r.status == Accepted202 {
        RenderedStepIsSound(codec, n, ids, t, step, c, r, Rendered(codec, t.b.defs[req.serviceId], id, ns, req.planId, [req.parameters]));
      } else {
        RefusedStepIsSound(codec, n, ids, t, step, c, r);
      }
    }
  }

  lemma NewLifeOfProvision(codec: Codec, t: Trace, step: Step, c: BrokerState, r: Response, ns: string)
    requires step.SProvision? && step.put.serviceId in t.b.defs
    requires r.status == Accepted202 ==> step.id in c.world.reg.records && c.world.reg.records[step.id].ns == ns
    ensures NewLife(codec, t, step, c, r) ==
      if r.status == Accepted202 then
        Some(Rendered(codec, t.b.defs[step.put.serviceId], step.id, ns, step.put.planId, [step.put.parameters]))
      else None
  {
  }

  lemma ProvisionedResult(codec: Codec, n: Naming, ids: set<string>, env: BrokerEnv, b: BrokerState, id: string, req: ProvisionRequest,
                          w: World, ns: string, c: BrokerState, r: Response)
    requires Disjoint(n, ids) && StableKeys(codec, n, ids, b.defs) && id in ids
    requires id !in b.world.reg.records && req.serviceId in b.defs && ReadOnly(b.world, w)
    requires !(r.status.EngineError? && r.status.error.CleanupIncomplete?)
    requires var o := Provision(codec, env.world, w, b.defs[req.serviceId], id, ns, req.planId, req.parameters);
      c == b.(world := o.world) && r == Plain(StatusOf(o, Accepted202))
    ensures c.defs == b.defs && OnlyOwnedBy(n, id, b.world.api, c.world.api)
    ensures r.status == Accepted202 ==>
      RenderedAs(codec, n, id, b, c, Rendered(codec, b.defs[req.serviceId], id, ns, req.planId, [req.parameters]))
    ensures r.status == Accepted202 ==> c.world.reg.records[id].ns == ns
    ensures r.status != Accepted202 ==> c.world.reg.records == b.world.reg.records && NothingNew(n, id, b, c)
  {
    hide Provision, Rendered, Faithful, StableKeys;
    ProvisionOfUnknown(codec, n, ids, env.world, w, b.defs, req.serviceId, id, ns, req.planId, req.parameters);
  }

  // --- update ---

  /** What a PATCH of a faithful record does to the cluster and the records. */
  lemma UpdateOfFaithful(codec: Codec, n: Naming, ids: set<string>, env: WorldEnv, w: World, defs: map<string, ServiceDefinition>,
                         id: string, sentPlan: string, params: Params, rec: InstanceRecord, life: Life)
    requires Disjoint(n, ids) && StableKeys(codec, n, ids, defs) && id in ids && rec.serviceId in defs
    requires Stores(w, id, rec) && ReadsSucceed(env.reg) && Faithful(codec, n, w.api, rec, life)
    ensures var o := Update(codec, env, w, defs[rec.serviceId], id, rec.ns, sentPlan, params);
      && OnlyOwnedBy(n, id, w.api, o.world.api)
      && (forall k | k in o.world.api.objects :: k in w.api.objects || k in rec.appliedRefs)
      && (o.error.Some? ==> o.world.reg.records == w.reg.records)
      && (o.error.None? ==>
            && id in o.world.reg.records && o.world.reg.records == w.reg.records[id := o.world.reg.records[id]]
            && o.world.reg.records[id].appliedRefs == rec.appliedRefs
            && Faithful(codec, n, o.world.api, o.world.reg.records[id],
                        Rendered(codec, defs[rec.serviceId], id, rec.ns, TargetPlan(rec, sentPlan), life.sets + [params])))
  {
    var sd := defs[rec.serviceId];
    var docs, refs := UpdateEffect(codec, env, w, sd, id, rec.ns, sentPlan, params, rec);
    var o := Update(codec, env, w, sd, id, rec.ns, sentPlan, params);
    if Servable(codec, sd, rec, id, rec.ns, sentPlan, params, docs) {
      assert Keys(docs) == n.keysOf(rec.serviceId, id, rec.ns) == rec.appliedRefs;
      ChangedKeysAreOwned(n, ids, rec.serviceId, id, rec.ns, w.api, o.world.api);
      forall k | k in o.world.api.objects ensures k in w.api.objects || k in rec.appliedRefs {
        if k !in Keys(docs) { assert SameAt(w.api, o.world.api, k); }
      }
      OverlayOneMore(life.sets, params);
    }
  }

  lemma UpdateStepIsSound(codec: Codec, n: Naming, ids: set<string>, t: Trace, step: Step)
    requires Sound(codec, n, ids, t) && Disjoint(n, ids) && Disciplined(codec, n, ids, t.b, step)
    requires step.SUpdate?
    ensures Sound(codec, n, ids, Booked(codec, t, step))
  {
    var (c, r) := Do(codec, t.b, step);
    var w := UpdateCase(codec, step.env, t.b, step.id, step.patch);
    StepKeepsOrder(codec, t.b, step);
    UpdateResultIsSound(codec, n, ids, t, step, c, r, w);
  }

  lemma UpdateResultIsSound(codec: Codec, n: Naming, ids: set<string>, t: Trace, step: Step, c: BrokerState, r: Response, w: World)
    requires Sound(codec, n, ids, t) && Disjoint(n, ids) && step.SUpdate? && step.id in ids && InOrder(c)
    requires ReadsSucceed(step.env.world.reg)
    requires step.id in t.b.world.reg.records ==> step.patch.serviceId in {"", t.b.world.reg.records[step.id].serviceId}
    requires
      || (Unmoved(t.b, c) && r.status != Ok200)
      || (step.id in t.b.world.reg.records && ReadOnly(t.b.world, w) && Updated(codec, step.env, t.b, step.id, step.patch, w, c, r))
    ensures Sound(codec, n, ids, Next(codec, t, step, c, r))
  {
    var id, req := step.id, step.patch;
    if Unmoved(t.b, c) && r.status != Ok200 {
      UnmovedStepIsSound(codec, n, ids, t, step, c, r);
    } else {
      var rec := t.b.world.reg.records[id];
      var life := t.lives[id];
      assert Faithful(codec, n, t.b.world.api, rec, life);
      UpdatedResult(codec, n, ids, step.env, t.b, id, req, w, c, r, rec, life);
      NewLifeOfUpdate(codec, t, step, c, r, rec);
      if r.status == Ok200 {
        RenderedStepIsSound(codec, n, ids, t, step, c, r,
          Rendered(codec, t.b.defs[rec.serviceId], id, rec.ns, TargetPlan(rec, req.planId), t.lives[id].sets + [req.parameters]));
      } else {
        RefusedStepIsSound(codec, n, ids, t, step, c, r);
      }
    }
  }

  lemma NewLifeOfUpdate(codec: Codec, t: Trace, step: Step, c: BrokerState, r: Response, rec: InstanceRecord)
    requires step.SUpdate? && step.id in t.b.world.reg.records && rec == t.b.world.reg.records[step.id]
    requires step.id in t.lives && step.patch.serviceId in {"", rec.serviceId} && rec.serviceId in t.b.defs
    ensures NewLife(codec, t, step, c, r) ==
      if r.status == Ok200 then
        Some(Rendered(codec, t.b.defs[rec.serviceId], step.id, rec.ns, TargetPlan(rec, step.patch.planId), t.lives[step.id].sets + [step.patch.parameters]))
      else None
  {
  }

  lemma UpdatedResult(codec: Codec, n: Naming, ids: set<string>, env: BrokerEnv, b: BrokerState, id: string, req: UpdateRequest,
                      w: World, c: BrokerState, r: Response, rec: InstanceRecord, life: Life)
    requires Disjoint(n, ids) && StableKeys(codec, n, ids, b.defs) && id in ids && ReadsSucceed(env.world.reg)
    requires Stores(b.world, id, rec) && rec.ns != "" && Faithful(codec, n, b.world.api, rec, life)
    requires req.serviceId in {"", rec.serviceId}
    requires ReadOnly(b.world, w) && Updated(codec, env, b, id, req, w, c, r)
    ensures c.defs == b.defs && rec.serviceId in b.defs && OnlyOwnedBy(n, id, b.world.api, c.world.api)
    ensures r.status == Ok200 ==>
      RenderedAs(codec, n, id, b, c, Rendered(codec, b.defs[rec.serviceId], id, rec.ns, TargetPlan(rec, req.planId), life.sets + [req.parameters]))
    ensures r.status != Ok200 ==> c.world.reg.records == b.world.reg.records && NothingNew(n, id, b, c)
  {
    hide Update, Rendered, Faithful, StableKeys;
    assert RequestedService(req.serviceId, Some(rec)) == rec.serviceId;
    var target := TargetPlan(rec, req.planId);
    assert NamespaceOf(rec) == rec.ns && TargetPlan(rec, target) == target;
    UpdateOfFaithful(codec, n, ids, env.world, w, b.defs, id, target, req.parameters, rec, life);
  }

  // --- reconcile ---

  /** What reconciling a faithful record does to the cluster and the records. */
  lemma ReconcileOfFaithful(codec: Codec, n: Naming, ids: set<string>, env: WorldEnv, w: World, defs: map<string, ServiceDefinition>,
                            rec: InstanceRecord, life: Life)
    requires Disjoint(n, ids) && StableKeys(codec, n, ids, defs) && rec.id in ids
    requires Stores(w, rec.id, rec) && ReadsSucceed(env.reg) && Faithful(codec, n, w.api, rec, life)
    ensures var (v, result) := Reconcile(codec, env, w, defs, rec);
      && OnlyOwnedBy(n, rec.id, w.api, v.api)
      && (forall k | k in v.api.objects :: k in w.api.objects || k in rec.appliedRefs)
      && (result != RApplied ==> v.reg.records == w.reg.records)
      && (result == RApplied ==>
            && rec.serviceId in defs
            && rec.id in v.reg.records && v.reg.records == w.reg.records[rec.id := v.reg.records[rec.id]]
            && v.reg.records[rec.id].appliedRefs == rec.appliedRefs
            && Faithful(codec, n, v.api, v.reg.records[rec.id],
                        Rendered(codec, defs[rec.serviceId], rec.id, rec.ns, rec.planId, life.sets)))
  {
    var docs := ReconcileKeepsTheConfiguration(codec, env, w, defs, rec);
    var (v, result) := Reconcile(codec, env, w, defs, rec);
    assert Keys(docs) == if docs == [] then [] else n.keysOf(rec.serviceId, rec.id, rec.ns) by {
      if docs != [] { RenderedKeys(codec, n, ids, defs, rec, docs); }
    }
    ReconciledObjects(n, ids, w.api, v.api, rec, Keys(docs));
    if result == RApplied {
      BroughtIsFaithful(codec, n, ids, defs, w, v, rec, life, docs);
    }
  }

  lemma RenderedKeys(codec: Codec, n: Naming, ids: set<string>, defs: map<string, ServiceDefinition>, rec: InstanceRecord, docs: seq<Doc>)
    requires StableKeys(codec, n, ids, defs) && rec.id in ids && rec.serviceId in defs
    requires RendersAs(codec, defs[rec.serviceId], rec, docs)
    ensures Keys(docs) == n.keysOf(rec.serviceId, rec.id, rec.ns)
    ensures defs[rec.serviceId].offeringId == rec.serviceId && PlanById(defs[rec.serviceId], rec.planId).Some?
    ensures AllowedIn(PlanById(defs[rec.serviceId], rec.planId).value, rec.parameters, codec.fmt)
    ensures Desired(codec, defs[rec.serviceId], rec.id, rec.ns, PlanById(defs[rec.serviceId], rec.planId).value, rec.parameters) == Ok(docs)
  {
    OverlayLaws(rec.parameters, map[], map[]);
  }

  lemma ReconciledObjects(n: Naming, ids: set<string>, s: State, u: State, rec: InstanceRecord, ks: seq<Key>)
    requires Disjoint(n, ids) && rec.id in ids && rec.appliedRefs == n.keysOf(rec.serviceId, rec.id, rec.ns)
    requires SameOutside(s, u, KeySet(ks)) && (ks == [] || ks == rec.appliedRefs)
    ensures OnlyOwnedBy(n, rec.id, s, u)
    ensures forall k | k in u.objects :: k in s.objects || k in rec.appliedRefs
  {
    forall k | k !in rec.appliedRefs ensures SameAt(s, u, k) {
      assert k !in KeySet(ks);
    }
    ChangedKeysAreOwned(n, ids, rec.serviceId, rec.id, rec.ns, s, u);
    forall k | k in u.objects ensures k in s.objects || k in rec.appliedRefs {
      if k !in rec.appliedRefs { assert SameAt(s, u, k); }
    }
  }

  lemma BroughtIsFaithful(codec: Codec, n: Naming, ids: set<string>, defs: map<string, ServiceDefinition>, w: World, v: World,
                          rec: InstanceRecord, life: Life, docs: seq<Doc>)
    requires Disjoint(n, ids) && StableKeys(codec, n, ids, defs) && rec.id in ids && rec.serviceId in defs
    requires Consistent(codec, n, rec, life) && Stores(w, rec.id, rec)
    requires ConfigurationKept(w, v, rec) && Brought(codec, v, defs[rec.serviceId], rec, docs)
    ensures v.reg.records == w.reg.records[rec.id := v.reg.records[rec.id]]
    ensures v.reg.records[rec.id].appliedRefs == rec.appliedRefs
    ensures Faithful(codec, n, v.api, v.reg.records[rec.id], Rendered(codec, defs[rec.serviceId], rec.id, rec.ns, rec.planId, life.sets))
  {
    hide Desired, AllowedIn, StableKeys;
    RenderedKeys(codec, n, ids, defs, rec, docs);
    assert Distinct(n.keysOf(rec.serviceId, rec.id, rec.ns));
  }

  lemma ReconcileStepIsSound(codec: Codec, n: Naming, ids: set<string>, t: Trace, step: Step)
    requires Sound(codec, n, ids, t) && Disjoint(n, ids) && Disciplined(codec, n, ids, t.b, step)
    requires step.SReconcile?
    ensures Sound(codec, n, ids, Booked(codec, t, step))
  {
    var (c, r) := Do(codec, t.b, step);
    StepKeepsOrder(codec, t.b, step);
    ReconcileCase(codec, step.env, t.b, step.id);
    ReconcileResultIsSound(codec, n, ids, t, step, c, r);
  }

  lemma ReconcileResultIsSound(codec: Codec, n: Naming, ids: set<string>, t: Trace, step: Step, c: BrokerState, r: Response)
    requires Sound(codec, n, ids, t) && Disjoint(n, ids) && step.SReconcile? && step.id in ids && InOrder(c)
    requires ReadsSucceed(step.env.world.reg)
    requires
      if step.id !in t.b.world.reg.records then c == t.b && !r.status.Reconciled?
      else
        var (w, result) := Reconcile(codec, step.env.world, t.b.world, t.b.defs, t.b.world.reg.records[step.id]);
        c == t.b.(world := w) && r.status == Reconciled(result)
    ensures Sound(codec, n, ids, Next(codec, t, step, c, r))
  {
    var id := step.id;
    if id !in t.b.world.reg.records {
      UnmovedStepIsSound(codec, n, ids, t, step, c, r);
    } else {
      var rec := t.b.world.reg.records[id];
      var life := t.lives[id];
      assert Faithful(codec, n, t.b.world.api, rec, life);
      ReconciledResult(codec, n, ids, step.env, t.b, rec, c, r, life);
      NewLifeOfReconcile(codec, t, step, c, r, rec);
      if r.status == Reconciled(RApplied) {
        RenderedStepIsSound(codec, n, ids, t, step, c, r,
          Rendered(codec, t.b.defs[rec.serviceId], id, rec.ns, rec.planId, life.sets));
      } else {
        RefusedStepIsSound(codec, n, ids, t, step, c, r);
      }
    }
  }

  lemma NewLifeOfReconcile(codec: Codec, t: Trace, step: Step, c: BrokerState, r: Response, rec: InstanceRecord)
    requires step.SReconcile? && step.id in t.b.world.reg.records && rec == t.b.world.reg.records[step.id] && step.id in t.lives
    requires r.status == Reconciled(RApplied) ==> rec.serviceId in t.b.defs
    ensures NewLife(codec, t, step, c, r) ==
      if r.status == Reconciled(RApplied) then
        Some(Rendered(codec, t.b.defs[rec.serviceId], step.id, rec.ns, rec.planId, t.lives[step.id].sets))
      else None
  {
  }

  lemma ReconciledResult(codec: Codec, n: Naming, ids: set<string>, env: BrokerEnv, b: BrokerState, rec: InstanceRecord,
                         c: BrokerState, r: Response, life: Life)
    requires Disjoint(n, ids) && StableKeys(codec, n, ids, b.defs) && rec.id in ids && ReadsSucceed(env.world.reg)
    requires Stores(b.world, rec.id, rec) && Faithful(codec, n, b.world.api, rec, life)
    requires var (w, result) := Reconcile(codec, env.world, b.world, b.defs, rec);
      c == b.(world := w) && r.status == Reconciled(result)
    ensures c.defs == b.defs && OnlyOwnedBy(n, rec.id, b.world.api, c.world.api)
    ensures r.status == Reconciled(RApplied) ==> rec.serviceId in b.defs
    ensures r.status == Reconciled(RApplied) ==>
      RenderedAs(codec, n, rec.id, b, c, Rendered(codec, b.defs[rec.serviceId], rec.id, rec.ns, rec.planId, life.sets))
    ensures r.status != Reconciled(RApplied) ==> c.world.reg.records == b.world.reg.records && NothingNew(n, rec.id, b, c)
  {
    hide Reconcile, Faithful, StableKeys, Disjoint, Rendered, OnlyOwnedBy;
    ReconcileOfFaithful(codec, n, ids, env.world, b.world, b.defs, rec, life);
  }

  // --- deprovision ---

  /** The recorded references of a faithful record name its objects as they stand. */
  lemma RecordedRefsAreResolved(codec: Codec, n: Naming, ids: set<string>, api: State, rec: InstanceRecord, life: Life)
    requires Faithful(codec, n, api, rec, life) && Disjoint(n, ids) && rec.id in ids
    ensures |rec.appliedRefs| > 0 && Resolved(rec.appliedRefs, rec.ns) == rec.appliedRefs
  {
    DesiredAreNamespaced(codec, life.sd, rec.id, rec.ns, life.plan, rec.parameters);
    ResolvedNamespaced(rec.appliedRefs, rec.ns);
    assert n.keysOf(rec.serviceId, rec.id, rec.ns) != [];
  }

  /** What a deprovision of a faithful record does: it stays within the recorded objects,
      creates nothing, and when it forgets the record the objects are gone, or all still there
      if the plan retains them. */
  lemma DeprovisionOfFaithful(codec: Codec, n: Naming, ids: set<string>, env: WorldEnv, w: World, sd: ServiceDefinition,
                              id: string, stamp: string, rec: InstanceRecord, life: Life)
    requires ReadsSucceed(env.reg) && Stores(w, id, rec)
    requires Faithful(codec, n, w.api, rec, life) && Disjoint(n, ids) && id in ids
    ensures var o := Deprovision(codec, env, w, sd, rec.ns, id, stamp);
      && OnlyOwnedBy(n, id, w.api, o.world.api)
      && (forall k | k in o.world.api.objects :: k in w.api.objects)
      && (o.world.reg.records == w.reg.records || o.world.reg.records == w.reg.records - {id})
      && (id !in o.world.reg.records && !PlanRetains(sd, Some(rec)) ==> forall k | k in rec.appliedRefs :: k !in o.world.api.objects)
      && (PlanRetains(sd, Some(rec)) ==> o.world.api.objects.Keys == w.api.objects.Keys)
      && (id !in o.world.reg.records && GivesUp(sd, rec) ==> forall k | k in rec.appliedRefs :: k !in o.world.api.objects)
      && (DistinctPlanIds(sd.plans) && Keeps(sd, rec) ==> o.world.api.objects.Keys == w.api.objects.Keys)
  {
    PlanDecides(sd, rec);
    RecordedRefsAreResolved(codec, n, ids, w.api, rec, life);
    var r := Request(codec, sd, rec.ns, id, stamp);
    var o := Deprovision(codec, env, w, sd, rec.ns, id, stamp);
    assert o == Attempt(r, env, w);
    if PlanRetains(sd, Some(rec)) {
      LabelAllFrame(env.api, w.api, rec.ns, rec.appliedRefs, RetainedLabels(id, stamp));
    } else {
      AttemptEffect(r, env, w, rec);
      assert Objects(r, rec) == rec.appliedRefs;
    }
    assert SameOutside(w.api, o.world.api, KeySet(rec.appliedRefs));
    forall k | k in o.world.api.objects ensures k in w.api.objects {
      if k !in rec.appliedRefs { assert SameAt(w.api, o.world.api, k); }
    }
    ChangedKeysAreOwned(n, ids, rec.serviceId, id, rec.ns, w.api, o.world.api);
  }

  lemma DeprovisionStepIsSound(codec: Codec, n: Naming, ids: set<string>, t: Trace, step: Step)
    requires Sound(codec, n, ids, t) && Disjoint(n, ids) && Disciplined(codec, n, ids, t.b, step)
    requires step.SDeprovision?
    ensures Sound(codec, n, ids, Booked(codec, t, step))
  {
    var (c, r) := Do(codec, t.b, step);
    var w := DeprovisionCase(codec, step.env, t.b, step.id, step.service, step.stamp);
    StepKeepsOrder(codec, t.b, step);
    DeprovisionResultIsSound(codec, n, ids, t, step, c, r, w);
  }

  lemma RecordOfSoundTrace(codec: Codec, n: Naming, ids: set<string>, t: Trace, id: string)
    requires Sound(codec, n, ids, t) && id in t.b.world.reg.records
    ensures var rec := t.b.world.reg.records[id];
      Stores(t.b.world, id, rec) && rec.ns != "" && id in t.lives && Faithful(codec, n, t.b.world.api, rec, t.lives[id])
  {
    hide Faithful, StableKeys, AccountedFor;
  }

  lemma DeprovisionResultIsSound(codec: Codec, n: Naming, ids: set<string>, t: Trace, step: Step, c: BrokerState, r: Response, w: World)
    requires Sound(codec, n, ids, t) && Disjoint(n, ids) && step.SDeprovision? && step.id in ids && InOrder(c)
    requires ReadsSucceed(step.env.world.reg)
    requires step.id in t.b.world.reg.records ==> step.service in {"", t.b.world.reg.records[step.id].serviceId}
    requires
      || Unmoved(t.b, c)
      || (&& step.id in t.b.world.reg.records && ReadOnly(t.b.world, w)
          && RequestedService(step.service, Some(t.b.world.reg.records[step.id])) in t.b.defs
          && var o := Deprovision(codec, step.env.world, w, t.b.defs[RequestedService(step.service, Some(t.b.world.reg.records[step.id]))],
                                  NamespaceOf(t.b.world.reg.records[step.id]), step.id, step.stamp);
             c == t.b.(world := o.world, binds := c.binds))
    ensures Sound(codec, n, ids, Next(codec, t, step, c, r))
  {
    hide Sound, Disjoint, Faithful, OnlyOwnedBy, Deprovision, Next, InOrder, PlanRetains, NamespaceOf, RequestedService;
    var id := step.id;
    if Unmoved(t.b, c) {
      UnmovedStepIsSound(codec, n, ids, t, step, c, r);
    } else {
      RecordOfSoundTrace(codec, n, ids, t, id);
      var rec := t.b.world.reg.records[id];
      var life := t.lives[id];
      DeprovisionedResult(codec, n, ids, step, t.b, c, w, rec, life);
      if c.world.reg.records == t.b.world.reg.records {
        RefusedStepIsSound(codec, n, ids, t, step, c, r);
      } else {
        ForgottenIsSound(codec, n, ids, t, step, c, r, rec);
      }
    }
  }

  lemma DeprovisionedResult(codec: Codec, n: Naming, ids: set<string>, step: Step, b: BrokerState, c: BrokerState,
                            w: World, rec: InstanceRecord, life: Life)
    requires Disjoint(n, ids) && step.SDeprovision? && step.id in ids && ReadsSucceed(step.env.world.reg)
    requires Stores(b.world, step.id, rec) && rec.ns != "" && Faithful(codec, n, b.world.api, rec, life)
    requires step.service in {"", rec.serviceId} && ReadOnly(b.world, w)
    requires RequestedService(step.service, Some(rec)) in b.defs
    requires var o := Deprovision(codec, step.env.world, w, b.defs[RequestedService(step.service, Some(rec))], NamespaceOf(rec), step.id, step.stamp);
      c == b.(world := o.world, binds := c.binds)
    ensures c.defs == b.defs && rec.serviceId in b.defs && OnlyOwnedBy(n, step.id, b.world.api, c.world.api)
    ensures forall k | k in c.world.api.objects :: k in b.world.api.objects
    ensures c.world.reg.records == b.world.reg.records || c.world.reg.records == b.world.reg.records - {step.id}
    ensures step.id !in c.world.reg.records && !PlanRetains(b.defs[rec.serviceId], Some(rec)) ==>
      forall k | k in rec.appliedRefs :: k !in c.world.api.objects
  {
    assert RequestedService(step.service, Some(rec)) == rec.serviceId && NamespaceOf(rec) == rec.ns;
    DeprovisionOfFaithful(codec, n, ids, step.env.world, w, b.defs[rec.serviceId], step.id, step.stamp, rec, life);
  }

  lemma ForgottenIsSound(codec: Codec, n: Naming, ids: set<string>, t: Trace, step: Step, c: BrokerState, r: Response, rec: InstanceRecord)
    requires Sound(codec, n, ids, t) && Disjoint(n, ids) && step.SDeprovision? && step.id in ids && InOrder(c)
    requires Stores(t.b.world, step.id, rec) && step.service in {"", rec.serviceId} && rec.serviceId in t.b.defs
    requires c.defs == t.b.defs && c.world.reg.records == t.b.world.reg.records - {step.id}
    requires OnlyOwnedBy(n, step.id, t.b.world.api, c.world.api)
    requires forall k | k in c.world.api.objects :: k in t.b.world.api.objects
    requires !PlanRetains(t.b.defs[rec.serviceId], Some(rec)) ==> forall k | k in rec.appliedRefs :: k !in c.world.api.objects
    ensures Sound(codec, n, ids, Next(codec, t, step, c, r))
  {
    hide Desired, Faithful, NextLives, NextKept, StableKeys;
    var u := Next(codec, t, step, c, r);
    var retains := NextKeptOfForgotten(t, step, c, rec);
    ForgottenAccounts(n, step.id, t.b, c, t.kept, u.kept, rec, retains);
    AccountedFromParts(n, t, u, step.id);
    ForgottenLives(codec, n, ids, t, step, c, r);
  }

  lemma ForgottenLives(codec: Codec, n: Naming, ids: set<string>, t: Trace, step: Step, c: BrokerState, r: Response)
    requires AllFaithful(codec, n, ids, t.b, t.lives) && Disjoint(n, ids) && step.SDeprovision? && step.id in ids && InOrder(t.b)
    requires c.world.reg.records == t.b.world.reg.records - {step.id}
    requires OnlyOwnedBy(n, step.id, t.b.world.api, c.world.api)
    ensures AllFaithful(codec, n, ids, c, NextLives(codec, t, step, c, r))
  {
    hide Desired, NextLives, Faithful;
    NextLivesShape(codec, t, step, c, r);
    FaithfulFromParts(codec, n, ids, t, Next(codec, t, step, c, r), step.id);
  }

  lemma NextKeptOfForgotten(t: Trace, step: Step, c: BrokerState, rec: InstanceRecord) returns (retains: bool)
    requires step.SDeprovision? && Stores(t.b.world, step.id, rec) && step.id !in c.world.reg.records
    requires step.service in {"", rec.serviceId} && rec.serviceId in t.b.defs
    ensures retains == PlanRetains(t.b.defs[rec.serviceId], Some(rec))
    ensures NextKept(t, step, c) == if retains then t.kept + KeySet(rec.appliedRefs) else t.kept
  {
    assert ServiceOf(t.b, step.id, step.service) == rec.serviceId;
    retains := PlanRetains(t.b.defs[rec.serviceId], Some(rec));
  }

  lemma ForgottenAccounts(n: Naming, id: string, b: BrokerState, c: BrokerState, kept: set<Key>, kept': set<Key>, rec: InstanceRecord, retains: bool)
    requires AllAccountedFor(n, b, kept) && id in b.world.reg.records && b.world.reg.records[id] == rec
    requires forall k | k in c.world.api.objects :: k in b.world.api.objects
    requires kept' == if retains then kept + KeySet(rec.appliedRefs) else kept
    requires !retains ==> forall k | k in rec.appliedRefs :: k !in c.world.api.objects
    ensures forall k | k in c.world.api.objects && n.ownerOf(k) == Some(id) :: AccountedFor(n, c, kept', k)
  {
    forall k | k in c.world.api.objects && n.ownerOf(k) == Some(id) ensures AccountedFor(n, c, kept', k) {
      assert AccountedFor(n, b, kept, k);
    }
  }

  // --- bind, unbind, restart ---

  lemma OtherStepIsSound(codec: Codec, n: Naming, ids: set<string>, t: Trace, step: Step)
    requires Sound(codec, n, ids, t) && Disjoint(n, ids) && Disciplined(codec, n, ids, t.b, step)
    requires !AboutInstance(step)
    ensures Sound(codec, n, ids, Booked(codec, t, step))
  {
    StepKeepsOrder(codec, t.b, step);
    OtherStepOnlyReads(codec, t.b, step);
    var (c, r) := Do(codec, t.b, step);
    BookkeepingIsSound(codec, n, ids, t, step, c, r);
  }

  lemma OtherStepOnlyReads(codec: Codec, b: BrokerState, step: Step)
    requires !AboutInstance(step) && Readable(step)
    ensures var c := Do(codec, b, step).0;
      ReadOnly(b.world, c.world) && c.defs == if step.SReload? then step.defs else b.defs
  {
    match step
    case SBind(env, id, bid, req) => BindCase(env, b, id, bid, req);
    case SUnbind(env, id, bid, service) => UnbindCase(env, b, id, bid, service);
    case _ =>
  }

  lemma BookkeepingIsSound(codec: Codec, n: Naming, ids: set<string>, t: Trace, step: Step, c: BrokerState, r: Response)
    requires Sound(codec, n, ids, t) && !AboutInstance(step) && InOrder(c)
    requires ReadOnly(t.b.world, c.world) && StableKeys(codec, n, ids, c.defs)
    ensures Sound(codec, n, ids, Next(codec, t, step, c, r))
  {
    var u := Next(codec, t, step, c, r);
    BookkeepingShape(codec, t, step, c, r);
    assert AllFaithful(codec, n, ids, c, t.lives);
    BookkeepingAccounts(n, t.b, c, t.kept);
  }

  lemma BookkeepingShape(codec: Codec, t: Trace, step: Step, c: BrokerState, r: Response)
    requires !AboutInstance(step) && c.world.reg.records == t.b.world.reg.records && t.lives.Keys == t.b.world.reg.records.Keys
    ensures NextLives(codec, t, step, c, r) == t.lives && NextKept(t, step, c) == t.kept
  {
  }

  lemma BookkeepingAccounts(n: Naming, b: BrokerState, c: BrokerState, kept: set<Key>)
    requires AllAccountedFor(n, b, kept) && ReadOnly(b.world, c.world)
    ensures AllAccountedFor(n, c, kept)
  {
    forall k | k in c.world.api.objects ensures AccountedFor(n, c, kept, k) {
      assert AccountedFor(n, b, kept, k);
    }
  }

  lemma EveryStepIsBooked(codec: Codec, n: Naming, ids: set<string>, t: Trace, step: Step)
    requires Sound(codec, n, ids, t) && Disjoint(n, ids) && Disciplined(codec, n, ids, t.b, step)
    ensures Sound(codec, n, ids, Booked(codec, t, step))
  {
    hide Sound, Disjoint, Disciplined, Booked;
    match step
    case SProvision(_, _, _) => ProvisionStepIsSound(codec, n, ids, t, step);
    case SUpdate(_, _, _) => UpdateStepIsSound(codec, n, ids, t, step);
    case SDeprovision(_, _, _, _) => DeprovisionStepIsSound(codec, n, ids, t, step);
    case SReconcile(_, _) => ReconcileStepIsSound(codec, n, ids, t, step);
    case _ => OtherStepIsSound(codec, n, ids, t, step);
  }

  /** An object named by a record is named by the record of its owner. */
  lemma NamedByItsOwner(codec: Codec, n: Naming, ids: set<string>, t: Trace, id: string, k: Key)
    requires Sound(codec, n, ids, t) && Disjoint(n, ids)
    requires id in t.b.world.reg.records && k in t.b.world.reg.records[id].appliedRefs
    ensures n.ownerOf(k) == Some(id)
  {
    hide StableKeys, AccountedFor, Desired;
    var rec := t.b.world.reg.records[id];
    assert Faithful(codec, n, t.b.world.api, rec, t.lives[id]);
    assert k in n.keysOf(rec.serviceId, rec.id, rec.ns);
  }

  lemma StandingKeepsSound(codec: Codec, n: Naming, ids: set<string>, t: Trace)
    requires Sound(codec, n, ids, t) && Disjoint(n, ids)
    ensures Sound(codec, n, ids, t.(kept := Standing(t.b, t.kept)))
  {
    hide StableKeys, Faithful, Disjoint, InOrder;
    forall k | k in t.b.world.api.objects ensures AccountedFor(n, t.b, Standing(t.b, t.kept), k) {
      assert AccountedFor(n, t.b, t.kept, k);
      if Named(t.b, k) {
        var id :| id in t.b.world.reg.records && k in t.b.world.reg.records[id].appliedRefs;
        NamedByItsOwner(codec, n, ids, t, id, k);
      }
    }
  }

  /** Each request, reconcile, failure and restart keeps the invariant. */
  lemma EveryStepIsSound(codec: Codec, n: Naming, ids: set<string>, t: Trace, step: Step)
    requires Sound(codec, n, ids, t) && Disjoint(n, ids) && Disciplined(codec, n, ids, t.b, step)
    ensures Sound(codec, n, ids, Advance(codec, t, step))
  {
    hide Sound, Disjoint, Disciplined, Booked;
    EveryStepIsBooked(codec, n, ids, t, step);
    StandingKeepsSound(codec, n, ids, Booked(codec, t, step));
  }

  // --- whole runs ---

  lemma {:induction false} TraceFollowsRun(codec: Codec, t: Trace, steps: seq<Step>)
    ensures AdvanceAll(codec, t, steps).b == Run(codec, t.b, steps)
  {
    if steps != [] {
      TraceFollowsRun(codec, t, steps[..|steps| - 1]);
    }
  }

  /** Every run of a broker that starts sound stays sound, through failures of any call,
      operator writes to status, reconciling and restarts with changed definitions. */
  lemma {:induction false} EveryRunIsSound(codec: Codec, n: Naming, ids: set<string>, t: Trace, steps: seq<Step>)
    requires Sound(codec, n, ids, t) && Disjoint(n, ids) && DisciplinedRun(codec, n, ids, t.b, steps)
    ensures Sound(codec, n, ids, AdvanceAll(codec, t, steps))
  {
    if steps != [] {
      var init := steps[..|steps| - 1];
      forall i | 0 <= i < |init| ensures Disciplined(codec, n, ids, Run(codec, t.b, init[..i]), init[i]) {
        assert init[..i] == steps[..i];
      }
      EveryRunIsSound(codec, n, ids, t, init);
      TraceFollowsRun(codec, t, init);
      EveryStepIsSound(codec, n, ids, AdvanceAll(codec, t, init), steps[|steps| - 1]);
    }
  }
}
