/** The Secrets a bind projects for consumers outside the platform, and what becomes of them
    (internal/handlers/service_bindings.go). */
module Secrets {
  import opened Wrappers
  import opened Registry
  import opened Bindings
  import opened Engine
  import opened Broker
  import opened Protocol

  /** The namespace a bind or unbind works in: the instance's, or "default" when its record
      cannot be had. */
  function BindNamespace(env: BrokerEnv, b: BrokerState, id: string): string {
    if env.world.reg.readFails(b.world.reg.clock) || id !in b.world.reg.records then "default"
    else NamespaceOf(b.world.reg.records[id])
  }

  /** An old record without namespace or references is in "default". */
  lemma DefaultNamespace(rec: InstanceRecord)
    requires rec.ns == "" && rec.appliedRefs == []
    ensures NamespaceOf(rec) == "default"
  {
  }

  /** How a complete bind is answered: a binding on record is given again to the service and
      instance it belongs to and refused to any other; a new one is stored with what the
      operator offers now, and projected if the definition asks for it. What is answered, what
      is stored and what is projected are the same credentials. */
  lemma BindAnswer(env: BrokerEnv, b: BrokerState, id: string, bid: string, req: BindRequest)
    requires forall n: nat :: !env.binds.readFails(n)
    requires req.serviceId != "" && req.planId != "" && req.serviceId in b.defs
    ensures var (c, r) := HandleBind(env, b, id, bid, req);
      && (bid in b.binds.bindings ==>
            && c.secrets == b.secrets && c.binds.bindings == b.binds.bindings
            && var known := b.binds.bindings[bid];
               if known.serviceId == req.serviceId && known.instanceId == id then r == Response(Ok200, known.credentials)
               else r == Plain(Conflict409))
      && (r.status == Created201 ==>
            && bid !in b.binds.bindings && bid in c.binds.bindings && c.binds.bindings[bid].credentials == r.credentials
            && (exists n: nat :: env.offered(n) == Some(r.credentials))
            && c.secrets.secrets == if b.defs[req.serviceId].bind.projectSecret
                 then b.secrets.secrets[(BindNamespace(env, b, id), bid) := r.credentials] else b.secrets.secrets)
      && (r.status != Created201 ==> c.binds.bindings == b.binds.bindings)
      && (r.status !in {Created201, StoreError500} ==> c.secrets.secrets == b.secrets.secrets)
  {
    hide FirstNamespace;
    assert env.offered(b.binds.clock + 1).Some? || env.offered(b.binds.clock + 1).None?;
  }

  /** A bind that could not be stored may leave its Secret behind, under its own name, and
      changes no other. */
  lemma BrokenBindLeavesAtMostItsSecret(env: BrokerEnv, b: BrokerState, id: string, bid: string, req: BindRequest)
    ensures var c := HandleBind(env, b, id, bid, req).0;
      forall k | k != (BindNamespace(env, b, id), bid) ::
        (k in c.secrets.secrets <==> k in b.secrets.secrets) && (k in c.secrets.secrets ==> c.secrets.secrets[k] == b.secrets.secrets[k])
  {
    hide FirstNamespace;
  }

  /** How an unbind is answered: 410 for an unknown binding; 200 once the projected Secret, if
      the definition has one, and the record are gone; as long as the answer is another, the
      record is there to try again. */
  lemma UnbindAnswer(env: BrokerEnv, b: BrokerState, id: string, bid: string, service: string)
    requires forall n: nat :: !env.binds.readFails(n)
    ensures var (c, r) := HandleUnbind(env, b, id, bid, service);
      && (r.status == Gone410 <==> bid !in b.binds.bindings)
      && (r.status != Ok200 ==> c.binds.bindings == b.binds.bindings)
      && (r.status == Ok200 ==>
            && bid in b.binds.bindings && bid !in c.binds.bindings
            && var known := if service == "" then b.binds.bindings[bid].serviceId else service;
               && known in b.defs
               && c.secrets.secrets == if b.defs[known].bind.projectSecret
                    then b.secrets.secrets - {(BindNamespace(env, b, id), bid)} else b.secrets.secrets)
      && (r.status !in {Ok200, StoreError500} ==> c.secrets.secrets == b.secrets.secrets)
      && (forall k | k != (BindNamespace(env, b, id), bid) ::
            (k in c.secrets.secrets <==> k in b.secrets.secrets) && (k in c.secrets.secrets ==> c.secrets.secrets[k] == b.secrets.secrets[k]))
  {
    hide FirstNamespace;
  }

  /** Before that: 400 for a bind that names no service or plan, and no other; a service that is
      not in the catalogue is told so. Neither changes anything. */
  lemma IncompleteBindIsRefused(env: BrokerEnv, b: BrokerState, id: string, bid: string, req: BindRequest)
    ensures var (c, r) := HandleBind(env, b, id, bid, req);
      && (r.status == BadRequest400 <==> req.serviceId == "" || req.planId == "")
      && (r.status == BadRequest400 ==> c == b)
      && (r.status != BadRequest400 && req.serviceId !in b.defs ==> c == b && r == Plain(EngineError(ServiceUnknown)))
  {
    hide FirstNamespace;
  }

  /** No call on bindings or Secrets fails, and the operator has credentials to offer. */
  ghost predicate BindingsCalm(env: BrokerEnv) {
    forall n: nat :: !env.binds.readFails(n) && !env.binds.writeFails(n) && !env.secretFails(n) && env.offered(n).Some?
  }

  /** An undisturbed bind of a new id is answered 201, and an undisturbed unbind 200. */
  lemma CalmBindingsSucceed(env: BrokerEnv, b: BrokerState, id: string, bid: string, req: BindRequest, service: string)
    requires BindingsCalm(env)
    ensures req.serviceId != "" && req.planId != "" && req.serviceId in b.defs && bid !in b.binds.bindings ==>
      var (c, r) := HandleBind(env, b, id, bid, req);
      && r.status == Created201
      && c.binds.bindings == b.binds.bindings[bid := Binding(bid, id, req.serviceId, req.planId, req.appGuid, r.credentials, true)]
    ensures bid in b.binds.bindings && Catalogued(b, bid, service) ==> HandleUnbind(env, b, id, bid, service).1 == Plain(Ok200)
    ensures bid in b.binds.bindings && !Catalogued(b, bid, service) ==>
      HandleUnbind(env, b, id, bid, service).1 == Plain(EngineError(ServiceUnknown))
  {
    hide FirstNamespace;
  }

  /** The service the unbind speaks of, or else the binding's, is in the catalogue. */
  predicate Catalogued(b: BrokerState, bid: string, service: string)
    requires bid in b.binds.bindings
  {
    if service != "" then service in b.defs
    else b.binds.bindings[bid].serviceId != "" && b.binds.bindings[bid].serviceId in b.defs
  }

  // --- over a run ---

  /** No step but an unbind of its own touches the Secret of a stored binding. */
  lemma StepKeepsSecret(codec: Codec, b: BrokerState, step: Step, ns: string, bid: string)
    requires WellKept(b) && Readable(step) && bid in b.binds.bindings && !(step.SUnbind? && step.bid == bid)
    ensures var c := Do(codec, b, step).0;
      && ((ns, bid) in c.secrets.secrets <==> (ns, bid) in b.secrets.secrets)
      && ((ns, bid) in c.secrets.secrets ==> c.secrets.secrets[(ns, bid)] == b.secrets.secrets[(ns, bid)])
  {
    hide HandleProvision, HandleUpdate, HandleDeprovision, HandleBind, HandleUnbind, Provision, Update, Deprovision, Reconcile, BindNamespace;
    match step
    case SProvision(env, id, req) => var _, _ := ProvisionCase(codec, env, b, id, req);
    case SUpdate(env, id, req) => var _ := UpdateCase(codec, env, b, id, req);
    case SDeprovision(env, id, service, stamp) => var _ := DeprovisionCase(codec, env, b, id, service, stamp);
    case SBind(env, id, x, req) =>
      if x == bid {
        KnownBindTouchesNoSecret(env, b, id, bid, req);
      } else {
        BrokenBindLeavesAtMostItsSecret(env, b, id, x, req);
      }
    case SUnbind(env, id, x, service) => UnbindAnswer(env, b, id, x, service);
    case _ =>
  }

  lemma KnownBindTouchesNoSecret(env: BrokerEnv, b: BrokerState, id: string, bid: string, req: BindRequest)
    requires bid in b.binds.bindings && forall n: nat :: !env.binds.readFails(n)
    ensures HandleBind(env, b, id, bid, req).0.secrets == b.secrets
  {
  }

  lemma {:induction false} SecretStaysWithItsBinding(codec: Codec, b: BrokerState, steps: seq<Step>, ns: string, bid: string)
    requires WellKept(b) && AllReadable(steps) && NoUnbindOf(steps, bid) && bid in b.binds.bindings
    ensures var c := Run(codec, b, steps);
      && bid in c.binds.bindings
      && ((ns, bid) in c.secrets.secrets <==> (ns, bid) in b.secrets.secrets)
      && ((ns, bid) in c.secrets.secrets ==> c.secrets.secrets[(ns, bid)] == b.secrets.secrets[(ns, bid)])
  {
    hide Do;
    if steps != [] {
      var init := steps[..|steps| - 1];
      assert AllReadable(init) && NoUnbindOf(init, bid);
      SecretStaysWithItsBinding(codec, b, init, ns, bid);
      RunKeepsWell(codec, b, init);
      RunKeepsBinding(codec, b, init, bid);
      RunKeepsBinding(codec, b, steps, bid);
      StepKeepsSecret(codec, Run(codec, b, init), steps[|steps| - 1], ns, bid);
    }
  }

  /** What a bind has projected is there, word for word, through any run until its unbind, and
      its unbind takes it away: it works in the namespace the bind worked in. */
  lemma UnbindTakesTheSecretBack(codec: Codec, b: BrokerState, bind: BrokerEnv, id: string, bid: string, req: BindRequest,
                                 steps: seq<Step>, unbind: BrokerEnv, service: string)
    requires WellKept(b) && Readable(SBind(bind, id, bid, req)) && Readable(SUnbind(unbind, id, bid, service))
    requires id in b.world.reg.records && b.world.reg.records[id].ns != ""
    requires var (c, r) := HandleBind(bind, b, id, bid, req);
      && r.status == Created201 && req.serviceId in b.defs && b.defs[req.serviceId].bind.projectSecret
      && AllReadable(steps) && NoUnbindOf(steps, bid) && (forall i | 0 <= i < |steps| :: Listable(steps[i]))
      && var d := Run(codec, c, steps);
         && bid in d.binds.bindings
         && var known := if service == "" then d.binds.bindings[bid].serviceId else service;
            known in d.defs && d.defs[known].bind.projectSecret
    requires HandleUnbind(unbind, Run(codec, HandleBind(bind, b, id, bid, req).0, steps), id, bid, service).1.status == Ok200
    ensures var (c, r) := HandleBind(bind, b, id, bid, req);
      var d := Run(codec, c, steps);
      var key := (b.world.reg.records[id].ns, bid);
      && key in d.secrets.secrets && d.secrets.secrets[key] == r.credentials
      && key !in HandleUnbind(unbind, d, id, bid, service).0.secrets.secrets
  {
    hide HandleBind, HandleUnbind, Run;
    var c := HandleBind(bind, b, id, bid, req).0;
    BindCase(bind, b, id, bid, req);
    BindAnswerFor(bind, b, id, bid, req);
    SecretStaysWithItsBinding(codec, c, steps, b.world.reg.records[id].ns, bid);
    BoundInstanceStays(codec, c, steps, id, bid);
    UnbindAnswer(unbind, Run(codec, c, steps), id, bid, service);
  }

  lemma BindAnswerFor(env: BrokerEnv, b: BrokerState, id: string, bid: string, req: BindRequest)
    requires forall n: nat :: !env.binds.readFails(n)
    requires HandleBind(env, b, id, bid, req).1.status == Created201 && req.serviceId in b.defs && b.defs[req.serviceId].bind.projectSecret
    ensures var (c, r) := HandleBind(env, b, id, bid, req);
      c.secrets.secrets == b.secrets.secrets[(BindNamespace(env, b, id), bid) := r.credentials]
  {
    hide BindNamespace;
    assert req.serviceId != "" && req.planId != "";
    hide HandleBind;
    BindAnswer(env, b, id, bid, req);
  }
}
