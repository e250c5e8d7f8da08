/** Any number of read-modify-write loops on one object of the API server, taking turns call
    by call: PutInstance, PutBinding and writeCredentialsSecret (internal/broker/crdstate.go)
    and LabelCR (internal/definition/operator.go), with strangers writing in between. */
module Interleaving {
  import opened Wrappers
  import opened Json
  import CrdStore

  // --- the object and who writes it ---

  /** What an object is about: a record of the store, or an operator's resource. */
  datatype Payload = Record(body: CrdStore.Body) | Fields(fields: Params)

  datatype Thing = Thing(labels: map<string, string>, annotations: map<string, string>, body: Payload, status: Value)

  /** What the server holds under the one key: nothing, or an object with its resourceVersion. */
  datatype Slot = Gone | There(thing: Thing, version: nat)

  /** What a loop wants: to store a record, creating its object if need be, or to add labels
      to an object that has to exist. */
  datatype Intent =
    | Put(initial: map<string, string>, merged: map<string, string>, body: Payload)
    | Label(labels: map<string, string>)

  function Change(i: Intent, t: Thing): Thing {
    match i
    case Put(_, merged, body) => t.(labels := t.labels + merged, body := body)
    case Label(labels) => t.(labels := t.labels + labels)
  }

  /** What strangers do to the object. */
  datatype Foreign = Annotate(k: string, v: string) | Relabel(k: string, v: string) | WriteStatus(status: Value) | Remove

  function Meddle(f: Foreign, t: Thing): Thing {
    match f
    case Annotate(k, v) => t.(annotations := t.annotations[k := v])
    case Relabel(k, v) => t.(labels := t.labels[k := v])
    case WriteStatus(st) => t.(status := st)
    case Remove => t
  }

  // --- the loops, one call at a time ---

  const RETRIES: nat := 5

  /** Where a loop is: about to read, about to create, about to write back what it read, or
      done. `attempt` counts the conflicts so far. */
  datatype Pc =
    | Reading(attempt: nat)
    | Creating(attempt: nat)
    | Writing(attempt: nat, read: Thing, version: nat)
    | Returned(ok: bool)

  /** What changed the object, in the order it happened. */
  datatype Event = Created(w: nat) | Updated(w: nat) | Meddled(f: Foreign)

  datatype World = World(slot: Slot, next: nat, pcs: map<nat, Pc>, log: seq<Event>, calls: map<nat, nat>)

  /** One call of loop `w`, which the server may fail, or a stranger. */
  datatype Step = Turn(w: nat, fails: bool) | Stranger(f: Foreign)

  function AfterRead(i: Intent, slot: Slot, attempt: nat): Pc {
    match slot
    case There(t, v) => Writing(attempt, t, v)
    case Gone => if i.Put? then Creating(attempt) else Returned(false)
  }

  function AfterConflict(attempt: nat): Pc {
    if attempt + 1 < RETRIES then Reading(attempt + 1) else Returned(false)
  }

  function TakeTurn(intents: map<nat, Intent>, s: World, w: nat, fails: bool): World
    requires w in s.pcs && w in intents && w in s.calls
  {
    var i := intents[w];
    var t := s.(calls := s.calls[w := s.calls[w] + 1]);
    match s.pcs[w]
    case Returned(_) => s
    case Reading(a) => t.(pcs := s.pcs[w := if fails then Returned(false) else AfterRead(i, s.slot, a)])
    case Creating(a) =>
      if fails || s.slot.There? || !i.Put? then t.(pcs := s.pcs[w := Returned(false)])
      else t.(slot := There(Thing(i.initial, map[], i.body, Null), s.next), next := s.next + 1,
              pcs := s.pcs[w := Returned(true)], log := s.log + [Created(w)])
    case Writing(a, read, v) =>
      if fails || s.slot.Gone? then t.(pcs := s.pcs[w := Returned(false)])
      else if s.slot.version != v then t.(pcs := s.pcs[w := AfterConflict(a)])
      else t.(slot := There(Change(i, read), s.next), next := s.next + 1,
              pcs := s.pcs[w := Returned(true)], log := s.log + [Updated(w)])
  }

  function Next(intents: map<nat, Intent>, s: World, step: Step): World {
    match step
    case Turn(w, fails) => if w in s.pcs && w in intents && w in s.calls then TakeTurn(intents, s, w, fails) else s
    case Stranger(f) =>
      if s.slot.Gone? then s
      else if f.Remove? then s.(slot := Gone, log := s.log + [Meddled(f)])
      else s.(slot := There(Meddle(f, s.slot.thing), s.next), next := s.next + 1, log := s.log + [Meddled(f)])
  }

  function Run(intents: map<nat, Intent>, s: World, steps: seq<Step>): World {
    if steps == [] then s else Next(intents, Run(intents, s, steps[..|steps| - 1]), steps[|steps| - 1])
  }

  /** Every loop about to make its first call. */
  ghost predicate Start(intents: map<nat, Intent>, s: World) {
    && s.log == [] && (s.slot.There? ==> s.slot.version < s.next)
    && s.pcs.Keys == intents.Keys && s.calls.Keys == intents.Keys
    && forall w | w in intents :: s.pcs[w] == Reading(0) && s.calls[w] == 0
  }

  // --- the same changes one after the other ---

  /** What one event makes of the object when nobody else is about. */
  function Apply(intents: map<nat, Intent>, before: Option<Thing>, e: Event): Option<Thing> {
    match e
    case Created(w) => if w in intents && intents[w].Put? then Some(Thing(intents[w].initial, map[], intents[w].body, Null)) else None
    case Updated(w) => if w in intents && before.Some? then Some(Change(intents[w], before.value)) else before
    case Meddled(f) => if f.Remove? || before.None? then None else Some(Meddle(f, before.value))
  }

  function Replay(intents: map<nat, Intent>, start: Option<Thing>, log: seq<Event>): Option<Thing> {
    if log == [] then start else Apply(intents, Replay(intents, start, log[..|log| - 1]), log[|log| - 1])
  }

  function Held(slot: Slot): Option<Thing> {
    if slot.Gone? then None else Some(slot.thing)
  }

  /** Creations hit nothing, changes hit something. */
  predicate Fits(before: Option<Thing>, e: Event) {
    e.Created? <==> before.None?
  }

  function Commits(log: seq<Event>, w: nat): nat {
    if log == [] then 0
    else Commits(log[..|log| - 1], w) + (if log[|log| - 1] == Created(w) || log[|log| - 1] == Updated(w) then 1 else 0)
  }

  // --- the invariant ---

  /** The place of a loop fits the server and the number of calls it has made. */
  predicate PcFits(slot: Slot, next: nat, pc: Pc, calls: nat) {
    match pc
    case Reading(a) => a < RETRIES && calls == 2 * a
    case Creating(a) => a < RETRIES && calls == 2 * a + 1
    case Writing(a, read, v) =>
      a < RETRIES && calls == 2 * a + 1 && v < next && (slot.There? && slot.version == v ==> slot.thing == read)
    case Returned(_) => calls <= 2 * RETRIES
  }

  ghost predicate Inv(intents: map<nat, Intent>, start: Option<Thing>, s: World) {
    && s.pcs.Keys == intents.Keys && s.calls.Keys == intents.Keys
    && (s.slot.There? ==> s.slot.version < s.next)
    && Held(s.slot) == Replay(intents, start, s.log)
    && (forall w | w in intents :: PcFits(s.slot, s.next, s.pcs[w], s.calls[w]))
    && (forall w | w in intents :: Commits(s.log, w) == if s.pcs[w] == Returned(true) then 1 else 0)
    && (forall n | 0 <= n < |s.log| :: Fits(Replay(intents, start, s.log[..n]), s.log[n]))
  }

  lemma LogGrows(intents: map<nat, Intent>, start: Option<Thing>, log: seq<Event>, e: Event)
    requires forall n | 0 <= n < |log| :: Fits(Replay(intents, start, log[..n]), log[n])
    requires Fits(Replay(intents, start, log), e)
    ensures var more := log + [e];
      && Replay(intents, start, more) == Apply(intents, Replay(intents, start, log), e)
      && (forall n | 0 <= n < |more| :: Fits(Replay(intents, start, more[..n]), more[n]))
    ensures forall w: nat :: Commits(log + [e], w) == Commits(log, w) + (if e == Created(w) || e == Updated(w) then 1 else 0)
  {
    hide Apply, Fits;
    var more := log + [e];
    assert more[..|log|] == log;
    forall n | 0 <= n < |more| ensures Fits(Replay(intents, start, more[..n]), more[n]) {
      if n < |log| { assert more[..n] == log[..n]; }
    }
  }

  /** A new version is one nobody has read. */
  lemma OtherLoopsStayFit(s: World, slot: Slot, next: nat, w: nat)
    requires w in s.pcs && w in s.calls && PcFits(s.slot, s.next, s.pcs[w], s.calls[w])
    requires || (slot == s.slot && next == s.next)
             || (slot == Gone && next == s.next)
             || (slot.There? && slot.version == s.next && next == s.next + 1)
    ensures PcFits(slot, next, s.pcs[w], s.calls[w])
  {
  }

  /** What one turn does to the places of the loops. */
  lemma TurnShape(intents: map<nat, Intent>, s: World, w: nat, fails: bool)
    requires w in intents && w in s.pcs && w in s.calls && PcFits(s.slot, s.next, s.pcs[w], s.calls[w])
    requires s.slot.There? ==> s.slot.version < s.next
    ensures var t := TakeTurn(intents, s, w, fails);
      && t.pcs.Keys == s.pcs.Keys && t.calls.Keys == s.calls.Keys
      && (t.slot.There? ==> t.slot.version < t.next)
      && PcFits(t.slot, t.next, t.pcs[w], t.calls[w])
      && (forall x | x in s.pcs && x != w :: t.pcs[x] == s.pcs[x])
      && (forall x | x in s.calls && x != w :: t.calls[x] == s.calls[x])
      && (|t.log| == |s.log| ==> t.log == s.log && t.slot == s.slot && t.next == s.next && (t.pcs[w] == Returned(true) <==> s.pcs[w] == Returned(true)))
      && (|t.log| != |s.log| ==> |t.log| > |s.log| && t.slot.There? && t.slot.version == s.next && t.next == s.next + 1)
  {
    hide Change;
  }

  lemma TurnKeepsInv(intents: map<nat, Intent>, start: Option<Thing>, s: World, w: nat, fails: bool)
    requires Inv(intents, start, s) && w in intents
    ensures Inv(intents, start, TakeTurn(intents, s, w, fails))
  {
    hide Replay, Commits, Fits, Apply, TakeTurn, PcFits;
    var t := TakeTurn(intents, s, w, fails);
    TurnShape(intents, s, w, fails);
    if |t.log| > |s.log| {
      FittingWrite(intents, start, s, w, fails);
      LogGrows(intents, start, s.log, t.log[|s.log|]);
    }
    forall x | x in intents ensures PcFits(t.slot, t.next, t.pcs[x], t.calls[x]) {
      if x != w { OtherLoopsStayFit(s, t.slot, t.next, x); }
    }
  }

  /** A write goes through only on top of exactly what is there. */
  lemma FittingWrite(intents: map<nat, Intent>, start: Option<Thing>, s: World, w: nat, fails: bool)
    requires Inv(intents, start, s) && w in intents
    ensures var t := TakeTurn(intents, s, w, fails);
      |t.log| > |s.log| ==>
        && t.log == s.log + [t.log[|s.log|]]
        && Fits(Held(s.slot), t.log[|s.log|])
        && Held(t.slot) == Apply(intents, Held(s.slot), t.log[|s.log|])
        && t.log[|s.log|] in {Created(w), Updated(w)} && s.pcs[w] != Returned(true) && t.pcs[w] == Returned(true)
  {
    hide Replay, Commits;
    assert PcFits(s.slot, s.next, s.pcs[w], s.calls[w]);
  }

  lemma StrangerKeepsInv(intents: map<nat, Intent>, start: Option<Thing>, s: World, f: Foreign)
    requires Inv(intents, start, s)
    ensures Inv(intents, start, Next(intents, s, Stranger(f)))
  {
    hide Replay, Commits, Meddle;
    var t := Next(intents, s, Stranger(f));
    if s.slot.There? {
      LogGrows(intents, start, s.log, Meddled(f));
    }
    forall w | w in intents ensures PcFits(t.slot, t.next, t.pcs[w], t.calls[w]) {
      OtherLoopsStayFit(s, t.slot, t.next, w);
    }
  }

  lemma {:induction false} RunKeepsInv(intents: map<nat, Intent>, s: World, steps: seq<Step>)
    requires Start(intents, s)
    ensures Inv(intents, Held(s.slot), Run(intents, s, steps))
  {
    hide Inv, TakeTurn;
    if steps == [] {
      StartHasInv(intents, s);
    } else {
      var init, last := steps[..|steps| - 1], steps[|steps| - 1];
      RunKeepsInv(intents, s, init);
      var u := Run(intents, s, init);
      match last
      case Turn(w, fails) =>
        if w in u.pcs && w in intents && w in u.calls { TurnKeepsInv(intents, Held(s.slot), u, w, fails); }
      case Stranger(f) => StrangerKeepsInv(intents, Held(s.slot), u, f);
    }
  }

  lemma StartHasInv(intents: map<nat, Intent>, s: World)
    requires Start(intents, s)
    ensures Inv(intents, Held(s.slot), s)
  {
  }

  // --- the theorems ---

  /** However the loops and the strangers interleave, the object is what the changes make of
      it one after the other, in the order in which the server accepted them. A loop that
      returns success has contributed exactly one of them, any other loop none; none makes
      more calls than five reads and five writes. */
  lemma NoChangeIsLost(intents: map<nat, Intent>, s: World, steps: seq<Step>)
    requires Start(intents, s)
    ensures var t := Run(intents, s, steps);
      && t.pcs.Keys == intents.Keys && t.calls.Keys == intents.Keys
      && Held(t.slot) == Replay(intents, Held(s.slot), t.log)
      && (forall w | w in intents :: Commits(t.log, w) == if t.pcs[w] == Returned(true) then 1 else 0)
      && (forall w | w in intents :: t.calls[w] <= 2 * RETRIES)
      && (forall n | 0 <= n < |t.log| :: t.log[n].Created? <==> Replay(intents, Held(s.slot), t.log[..n]).None?)
  {
    hide Run, Replay, Commits;
    RunKeepsInv(intents, s, steps);
    var t := Run(intents, s, steps);
    forall n | 0 <= n < |t.log| ensures t.log[n].Created? <==> Replay(intents, Held(s.slot), t.log[..n]).None? {
      assert Fits(Replay(intents, Held(s.slot), t.log[..n]), t.log[n]);
    }
    forall w | w in intents ensures t.calls[w] <= 2 * RETRIES {
      assert PcFits(t.slot, t.next, t.pcs[w], t.calls[w]);
    }
  }

  /** A loop that has not returned makes a call whenever it is its turn, so after ten turns
      it has returned. */
  lemma {:induction false} EveryLoopReturns(intents: map<nat, Intent>, s: World, steps: seq<Step>, w: nat)
    requires Start(intents, s) && w in intents
    ensures var t := Run(intents, s, steps);
      w in t.pcs && (Turns(steps, w) >= 2 * RETRIES ==> t.pcs[w].Returned?)
  {
    hide Run, Replay, Commits;
    CallsAreTurns(intents, s, steps, w);
    RunKeepsInv(intents, s, steps);
    var t := Run(intents, s, steps);
    assert PcFits(t.slot, t.next, t.pcs[w], t.calls[w]);
  }

  function Turns(steps: seq<Step>, w: nat): nat {
    if steps == [] then 0
    else Turns(steps[..|steps| - 1], w) + (if steps[|steps| - 1].Turn? && steps[|steps| - 1].w == w then 1 else 0)
  }

  lemma {:induction false} CallsAreTurns(intents: map<nat, Intent>, s: World, steps: seq<Step>, w: nat)
    requires Start(intents, s) && w in intents
    ensures var t := Run(intents, s, steps);
      w in t.pcs && w in t.calls && (t.pcs[w].Returned? || t.calls[w] == Turns(steps, w))
  {
    hide AfterRead, AfterConflict, Change, Meddle, Replay, Commits;
    if steps != [] {
      CallsAreTurns(intents, s, steps[..|steps| - 1], w);
    }
  }

  // --- what survives ---

  /** The value an event gives the label, if it gives it one. */
  function SetsLabel(intents: map<nat, Intent>, e: Event, k: string): Option<string> {
    match e
    case Created(w) => if w in intents && intents[w].Put? && k in intents[w].initial then Some(intents[w].initial[k]) else None
    case Updated(w) =>
      if w !in intents then None
      else
        var ls := if intents[w].Put? then intents[w].merged else intents[w].labels;
        if k in ls then Some(ls[k]) else None
    case Meddled(f) => if f.Relabel? && f.k == k then Some(f.v) else None
  }

  predicate Removes(e: Event) {
    e.Meddled? && e.f.Remove?
  }

  predicate Ends(e: Event) {
    e.Created? || Removes(e)
  }

  lemma {:induction false} LastLabelStands(intents: map<nat, Intent>, start: Option<Thing>, log: seq<Event>, n: nat, k: string, v: string)
    requires n < |log| && SetsLabel(intents, log[n], k) == Some(v) && Replay(intents, start, log[..n + 1]).Some?
    requires forall m | n < m < |log| :: !Ends(log[m]) && SetsLabel(intents, log[m], k) == None
    ensures var t := Replay(intents, start, log); t.Some? && k in t.value.labels && t.value.labels[k] == v
  {
    if n == |log| - 1 {
      assert log[..n + 1] == log;
    } else {
      var init := log[..|log| - 1];
      assert init[..n + 1] == log[..n + 1];
      LastLabelStands(intents, start, init, n, k, v);
      assert SetsLabel(intents, log[|log| - 1], k) == None;
    }
  }

  lemma {:induction false} LastAnnotationStands(intents: map<nat, Intent>, start: Option<Thing>, log: seq<Event>, n: nat, k: string, v: string)
    requires n < |log| && log[n] == Meddled(Annotate(k, v)) && Replay(intents, start, log[..n + 1]).Some?
    requires forall m | n < m < |log| :: !Ends(log[m]) && (log[m].Meddled? && log[m].f.Annotate? ==> log[m].f.k != k)
    ensures var t := Replay(intents, start, log); t.Some? && k in t.value.annotations && t.value.annotations[k] == v
  {
    if n == |log| - 1 {
      assert log[..n + 1] == log;
    } else {
      var init := log[..|log| - 1];
      assert init[..n + 1] == log[..n + 1];
      LastAnnotationStands(intents, start, init, n, k, v);
      assert !Ends(log[|log| - 1]);
    }
  }

  /** Whether an event stores a record. */
  predicate Stores(intents: map<nat, Intent>, e: Event) {
    !e.Meddled? && e.w in intents && intents[e.w].Put?
  }

  lemma {:induction false} LastRecordStands(intents: map<nat, Intent>, start: Option<Thing>, log: seq<Event>, n: nat)
    requires n < |log| && Stores(intents, log[n]) && Replay(intents, start, log[..n + 1]).Some?
    requires forall m | n < m < |log| :: !Ends(log[m]) && !Stores(intents, log[m])
    ensures var t := Replay(intents, start, log); t.Some? && t.value.body == intents[log[n].w].body
  {
    if n == |log| - 1 {
      assert log[..n + 1] == log;
    } else {
      var init := log[..|log| - 1];
      assert init[..n + 1] == log[..n + 1];
      LastRecordStands(intents, start, init, n);
      assert !Ends(log[|log| - 1]) && !Stores(intents, log[|log| - 1]);
    }
  }

  /** An accepted change left something behind to be changed again. */
  lemma AcceptedChangeHolds(intents: map<nat, Intent>, s: World, steps: seq<Step>, n: nat)
    requires Start(intents, s) && n < |Run(intents, s, steps).log| && !Removes(Run(intents, s, steps).log[n])
    requires var e := Run(intents, s, steps).log[n]; e.Created? ==> e.w in intents && intents[e.w].Put?
    ensures Replay(intents, Held(s.slot), Run(intents, s, steps).log[..n + 1]).Some?
  {
    hide Run, Commits;
    RunKeepsInv(intents, s, steps);
    var log := Run(intents, s, steps).log;
    assert Fits(Replay(intents, Held(s.slot), log[..n]), log[n]);
    assert log[..n + 1][..n] == log[..n];
  }

  /** A label stays as it was last set, by a loop or by a stranger, until the object is
      removed: no loop takes away a label it does not name. */
  lemma NoLabelIsLost(intents: map<nat, Intent>, s: World, steps: seq<Step>, n: nat, k: string, v: string)
    requires Start(intents, s) && n < |Run(intents, s, steps).log|
    requires var log := Run(intents, s, steps).log;
      && SetsLabel(intents, log[n], k) == Some(v)
      && forall m | n < m < |log| :: !Ends(log[m]) && SetsLabel(intents, log[m], k) == None
    ensures var t := Run(intents, s, steps); t.slot.There? && k in t.slot.thing.labels && t.slot.thing.labels[k] == v
  {
    hide Run, Replay, Commits;
    AcceptedChangeHolds(intents, s, steps, n);
    LastLabelStands(intents, Held(s.slot), Run(intents, s, steps).log, n, k, v);
    NoChangeIsLost(intents, s, steps);
  }

  /** And an annotation as the last stranger set it: no loop touches annotations at all. */
  lemma NoAnnotationIsLost(intents: map<nat, Intent>, s: World, steps: seq<Step>, n: nat, k: string, v: string)
    requires Start(intents, s) && n < |Run(intents, s, steps).log|
    requires var log := Run(intents, s, steps).log;
      && log[n] == Meddled(Annotate(k, v))
      && forall m | n < m < |log| :: !Ends(log[m]) && (log[m].Meddled? && log[m].f.Annotate? ==> log[m].f.k != k)
    ensures var t := Run(intents, s, steps); t.slot.There? && k in t.slot.thing.annotations && t.slot.thing.annotations[k] == v
  {
    hide Run, Replay, Commits;
    AcceptedChangeHolds(intents, s, steps, n);
    LastAnnotationStands(intents, Held(s.slot), Run(intents, s, steps).log, n, k, v);
    NoChangeIsLost(intents, s, steps);
  }

  /** The record last stored is the record that is there: neither labelling loops nor
      strangers put an older one back. */
  lemma NoRecordIsLost(intents: map<nat, Intent>, s: World, steps: seq<Step>, n: nat)
    requires Start(intents, s) && n < |Run(intents, s, steps).log|
    requires var log := Run(intents, s, steps).log;
      && Stores(intents, log[n])
      && forall m | n < m < |log| :: !Ends(log[m]) && !Stores(intents, log[m])
    ensures var t := Run(intents, s, steps); t.slot.There? && t.slot.thing.body == intents[t.log[n].w].body
  {
    hide Run, Replay, Commits;
    AcceptedChangeHolds(intents, s, steps, n);
    LastRecordStands(intents, Held(s.slot), Run(intents, s, steps).log, n);
    NoChangeIsLost(intents, s, steps);
  }
}
