/** The loops of the interleaving model are the loops of the store and of the operator client:
    one of them, run with whatever failures and strangers its environment brings, does what
    the sequential loop does in that environment, conflicts and retries included. */
module LoneLoops {
  import opened Wrappers
  import opened Json
  import opened Interleaving
  import A = Api
  import O = Operator
  import OperatorProofs
  import C = CrdStore

  lemma {:induction false} RunsCompose(intents: map<nat, Intent>, s: World, xs: seq<Step>, ys: seq<Step>)
    ensures Run(intents, s, xs + ys) == Run(intents, Run(intents, s, xs), ys)
  {
    hide Next;
    if ys == [] {
      assert xs + ys == xs;
    } else {
      var n := |ys| - 1;
      assert (xs + ys)[..|xs| + n] == xs + ys[..n];
      RunsCompose(intents, s, xs, ys[..n]);
    }
  }

  lemma RunOne(intents: map<nat, Intent>, s: World, x: Step)
    ensures Run(intents, s, [x]) == Next(intents, s, x)
  {
    hide Next;
    assert [x][..0] == [];
    assert Run(intents, s, []) == s;
  }

  /** Slot, resourceVersion and place of the one loop; the rest is bookkeeping. */
  predicate At(t: World, slot: Slot, next: nat, pc: Pc) {
    t.slot == slot && t.next == next && t.pcs.Keys == {0} && t.pcs[0] == pc && 0 in t.calls
  }

  // --- PutInstance, PutBinding, writeCredentialsSecret ---

  function CrThing(cr: C.Cr): Thing {
    Thing(cr.labels, cr.annotations, Record(cr.body), Null)
  }

  function SlotOf(s: C.CrState, k: C.CrKey): Slot {
    if k in s.objects then There(CrThing(s.objects[k]), s.objects[k].version)
    else Gone
  }

  /** Calls may fail, strangers annotate this object, and anything is collected or deleted. */
  ghost predicate About(env: C.CrEnv, k: C.CrKey) {
    forall n: nat :: env(n).Annotate? ==> env(n).key == k
  }

  /** What happens to the object before the next call. */
  function Strangers(env: C.CrEnv, s: C.CrState, k: C.CrKey): seq<Step> {
    if k in s.objects && k !in C.CrTick(env, s).objects then [Stranger(Remove)]
    else if env(s.clock).Annotate? then [Stranger(Annotate(env(s.clock).k, env(s.clock).v))]
    else []
  }

  /** One call as the machine sees it: first the stranger, then the loop's turn. */
  function CallSteps(env: C.CrEnv, s: C.CrState, k: C.CrKey): seq<Step> {
    Strangers(env, s, k) + [Turn(0, env(s.clock).CrFault?)]
  }

  lemma TickIsAStranger(env: C.CrEnv, s: C.CrState, k: C.CrKey, intents: map<nat, Intent>, t: World, pc: Pc)
    requires About(env, k) && At(t, SlotOf(s, k), s.next, pc)
    ensures At(Run(intents, t, Strangers(env, s, k)), SlotOf(C.CrTick(env, s), k), C.CrTick(env, s).next, pc)
  {
    hide Run, C.Collectable;
    assert Run(intents, t, []) == t by {
      RunNone(intents, t);
    }
    if Strangers(env, s, k) != [] {
      RunOne(intents, t, Strangers(env, s, k)[0]);
    }
  }

  lemma RunNone(intents: map<nat, Intent>, t: World)
    ensures Run(intents, t, []) == t
  {
  }

  lemma CallIsATurn(env: C.CrEnv, s: C.CrState, k: C.CrKey, intents: map<nat, Intent>, t: World, pc: Pc) returns (u: World)
    requires About(env, k) && At(t, SlotOf(s, k), s.next, pc) && 0 in intents
    ensures At(u, SlotOf(C.CrTick(env, s), k), C.CrTick(env, s).next, pc)
    ensures Run(intents, t, CallSteps(env, s, k)) == TakeTurn(intents, u, 0, env(s.clock).CrFault?)
  {
    hide C.CrTick, SlotOf, TakeTurn, Strangers;
    TickIsAStranger(env, s, k, intents, t, pc);
    u := Run(intents, t, Strangers(env, s, k));
    RunsCompose(intents, t, Strangers(env, s, k), [Turn(0, env(s.clock).CrFault?)]);
    RunOne(intents, u, Turn(0, env(s.clock).CrFault?));
  }

  lemma GetIsATurn(env: C.CrEnv, s: C.CrState, k: C.CrKey, a: nat, intents: map<nat, Intent>, t: World)
    requires About(env, k) && 0 in intents && intents[0].Put? && At(t, SlotOf(s, k), s.next, Reading(a))
    ensures var got := C.CrGet(env, s, k);
      At(Run(intents, t, CallSteps(env, s, k)), SlotOf(got.state, k), got.state.next,
         match got.result
         case Ok(cr) => Writing(a, CrThing(cr), cr.version)
         case Err(e) => if e == A.NotFound then Creating(a) else Returned(false))
  {
    hide C.CrTick, Run, CallSteps;
    var u := CallIsATurn(env, s, k, intents, t, Reading(a));
  }

  lemma CreateIsATurn(env: C.CrEnv, s: C.CrState, k: C.CrKey, initial: map<string, string>, merged: map<string, string>, body: C.Body,
                      a: nat, intents: map<nat, Intent>, t: World)
    requires About(env, k) && 0 in intents && intents[0] == Put(initial, merged, Record(body)) && At(t, SlotOf(s, k), s.next, Creating(a))
    ensures var made := C.CrCreate(env, s, k, initial, body);
      && At(Run(intents, t, CallSteps(env, s, k)), SlotOf(made.state, k), made.state.next, Returned(made.result.Ok?))
  {
    hide C.CrTick, Run, CallSteps;
    var u := CallIsATurn(env, s, k, intents, t, Creating(a));
  }

  lemma UpdateIsATurn(env: C.CrEnv, s: C.CrState, k: C.CrKey, initial: map<string, string>, merged: map<string, string>, body: C.Body,
                      a: nat, cr: C.Cr, intents: map<nat, Intent>, t: World)
    requires About(env, k) && 0 in intents && intents[0] == Put(initial, merged, Record(body))
    requires At(t, SlotOf(s, k), s.next, Writing(a, CrThing(cr), cr.version))
    ensures var put := C.CrUpdate(env, s, k, cr.(body := body, labels := cr.labels + merged));
      At(Run(intents, t, CallSteps(env, s, k)), SlotOf(put.state, k), put.state.next,
         if put.result == Err(A.Conflict) then AfterConflict(a) else Returned(put.result.Ok?))
  {
    hide C.CrTick, Run, CallSteps, AfterConflict;
    var u := CallIsATurn(env, s, k, intents, t, Writing(a, CrThing(cr), cr.version));
  }

  /** The loop from its attempt `a` on. */
  lemma {:induction false} PutCrIsALoop(env: C.CrEnv, s: C.CrState, k: C.CrKey, initial: map<string, string>, merged: map<string, string>, body: C.Body,
                                        a: nat, intents: map<nat, Intent>, t: World)
    returns (steps: seq<Step>)
    requires About(env, k) && a < RETRIES && 0 in intents && intents[0] == Put(initial, merged, Record(body))
    requires At(t, SlotOf(s, k), s.next, Reading(a))
    ensures var r := C.PutCr(env, s, k, initial, merged, body, RETRIES - a);
      At(Run(intents, t, steps), SlotOf(r.state, k), r.state.next, Returned(r.result.Ok?))
    decreases RETRIES - a
  {
    hide C.CrGet, C.CrCreate, C.CrUpdate, SlotOf, Run, CallSteps, About;
    var got := C.CrGet(env, s, k);
    GetIsATurn(env, s, k, a, intents, t);
    steps := CallSteps(env, s, k);
    if got.result.Ok? || got.result == Err(A.NotFound) {
      var t1, more := Run(intents, t, steps), CallSteps(env, got.state, k);
      RunsCompose(intents, t, steps, more);
      steps := steps + more;
      if got.result.Err? {
        CreateIsATurn(env, got.state, k, initial, merged, body, a, intents, t1);
      } else {
        var cr := got.result.value;
        UpdateIsATurn(env, got.state, k, initial, merged, body, a, cr, intents, t1);
        var put := C.CrUpdate(env, got.state, k, cr.(body := body, labels := cr.labels + merged));
        if put.result == Err(A.Conflict) {
          if a + 1 < RETRIES {
            var rest := PutCrIsALoop(env, put.state, k, initial, merged, body, a + 1, intents, Run(intents, t, steps));
            RunsCompose(intents, t, steps, rest);
            steps := steps + rest;
          } else {
            assert C.PutCr(env, put.state, k, initial, merged, body, 0) == C.CrRet(put.state, Err(A.Conflict));
          }
        }
      }
    }
  }

  // --- LabelCR ---

  function ThingOf(o: A.Obj): Thing {
    Thing(o.content.labels, o.content.annotations, Fields(o.content.fields), o.status)
  }

  function ObjSlot(s: A.State, k: A.Key): Slot {
    if k in s.objects then There(ThingOf(s.objects[k]), s.objects[k].version) else Gone
  }

  /** Calls may fail, and operators write this object's status. */
  ghost predicate AboutObj(env: A.Env, k: A.Key) {
    forall n: nat :: env(n).Quiet? || env(n).Fault? || (env(n).Touch? && env(n).key == k)
  }

  /** What stands there is what the server makes of JSON, under a resourceVersion it has given. */
  ghost predicate Kept(s: A.State, k: A.Key) {
    k in s.objects ==>
      && A.Stored(s.objects[k].content) == s.objects[k].content && Encodable(Dict(s.objects[k].content.fields))
      && s.objects[k].version < s.next
  }

  function ObjCallSteps(env: A.Env, n: nat): seq<Step> {
    (if env(n).Touch? then [Stranger(WriteStatus(env(n).status))] else []) + [Turn(0, env(n).Fault?)]
  }

  lemma ObjCallIsATurn(env: A.Env, s: A.State, k: A.Key, intents: map<nat, Intent>, t: World, pc: Pc) returns (u: World)
    requires AboutObj(env, k) && At(t, ObjSlot(s, k), s.next, pc) && 0 in intents
    ensures At(u, ObjSlot(A.Tick(env, s), k), A.Tick(env, s).next, pc)
    ensures Run(intents, t, ObjCallSteps(env, s.clock)) == TakeTurn(intents, u, 0, env(s.clock).Fault?)
  {
    hide TakeTurn;
    var strangers := if env(s.clock).Touch? then [Stranger(WriteStatus(env(s.clock).status))] else [];
    u := Run(intents, t, strangers);
    if env(s.clock).Touch? {
      RunOne(intents, t, Stranger(WriteStatus(env(s.clock).status)));
    }
    RunsCompose(intents, t, strangers, [Turn(0, env(s.clock).Fault?)]);
    RunOne(intents, u, Turn(0, env(s.clock).Fault?));
  }

  lemma TickKeeps(env: A.Env, s: A.State, k: A.Key)
    requires Kept(s, k)
    ensures Kept(A.Tick(env, s), k)
  {
  }

  lemma {:induction false} ReadIsATurn(env: A.Env, s: A.State, k: A.Key, labels: map<string, string>, a: nat, intents: map<nat, Intent>, t: World)
    requires AboutObj(env, k) && Kept(s, k) && A.ValidApiVersion(k.apiVersion) && 0 in intents && intents[0] == Label(labels)
    requires At(t, ObjSlot(s, k), s.next, Reading(a))
    ensures var got := A.GetCall(env, s, k);
      && At(Run(intents, t, ObjCallSteps(env, s.clock)), ObjSlot(got.state, k), got.state.next,
            if got.result.Ok? then Writing(a, ThingOf(got.result.value), got.result.value.version) else Returned(false))
      && Kept(got.state, k) && (got.result.Ok? ==> k in got.state.objects && got.state.objects[k] == got.result.value)
      && got.result != Err(A.Conflict)
  {
    hide A.Tick, Run, ObjCallSteps, A.Stored, Encodable, A.ValidApiVersion;
    TickKeeps(env, s, k);
    var u := ObjCallIsATurn(env, s, k, intents, t, Reading(a));
  }

  lemma {:induction false} WriteIsATurn(env: A.Env, s: A.State, k: A.Key, labels: map<string, string>, a: nat, o: A.Obj, intents: map<nat, Intent>, t: World)
    requires AboutObj(env, k) && Kept(s, k) && A.ValidApiVersion(k.apiVersion) && 0 in intents && intents[0] == Label(labels)
    requires k in s.objects && s.objects[k] == o
    requires At(t, ObjSlot(s, k), s.next, Writing(a, ThingOf(o), o.version))
    ensures var put := A.UpdateCall(env, s, A.Doc(k, o.content.(labels := o.content.labels + labels)), o.version);
      && At(Run(intents, t, ObjCallSteps(env, s.clock)), ObjSlot(put.state, k), put.state.next,
            if put.result == Err(A.Conflict) then AfterConflict(a) else Returned(put.result.Ok?))
      && Kept(put.state, k)
  {
    hide Run, ObjCallSteps, A.Stored, Encodable, A.ValidApiVersion, AfterConflict;
    TickKeeps(env, s, k);
    OperatorProofs.RelabelledIsSettled(o.content, o.content.labels + labels);
    var u := ObjCallIsATurn(env, s, k, intents, t, Writing(a, ThingOf(o), o.version));
  }

  /** The loop from its attempt `a` on. */
  lemma {:induction false} LabelOneIsALoop(env: A.Env, s: A.State, k: A.Key, labels: map<string, string>, a: nat, intents: map<nat, Intent>, t: World)
    returns (steps: seq<Step>)
    requires AboutObj(env, k) && Kept(s, k) && A.ValidApiVersion(k.apiVersion)
    requires a < RETRIES && 0 in intents && intents[0] == Label(labels)
    requires At(t, ObjSlot(s, k), s.next, Reading(a))
    ensures var r := O.LabelOne(env, s, k, labels, RETRIES - a);
      At(Run(intents, t, steps), ObjSlot(r.state, k), r.state.next, Returned(r.result.Ok?))
    decreases RETRIES - a
  {
    hide A.GetCall, A.UpdateCall, A.ValidApiVersion, Run, ObjCallSteps, Kept, ObjSlot;
    var got := A.GetCall(env, s, k);
    ReadIsATurn(env, s, k, labels, a, intents, t);
    steps := ObjCallSteps(env, s.clock);
    if got.result.Ok? {
      var o := got.result.value;
      var t1 := Run(intents, t, steps);
      WriteIsATurn(env, got.state, k, labels, a, o, intents, t1);
      var put := A.UpdateCall(env, got.state, A.Doc(k, o.content.(labels := o.content.labels + labels)), o.version);
      var t2 := Run(intents, t1, ObjCallSteps(env, got.state.clock));
      RunsCompose(intents, t, steps, ObjCallSteps(env, got.state.clock));
      steps := steps + ObjCallSteps(env, got.state.clock);
      if put.result == Err(A.Conflict) {
        if a + 1 < RETRIES {
          var rest := LabelOneIsALoop(env, put.state, k, labels, a + 1, intents, t2);
          RunsCompose(intents, t, steps, rest);
          steps := steps + rest;
        } else {
          assert O.LabelOne(env, put.state, k, labels, 0) == A.Ret(put.state, Err(A.Conflict));
        }
      }
    }
  }
}
