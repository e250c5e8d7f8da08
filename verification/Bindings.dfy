/** The binding records and the projected binding Secrets, as the handlers reach them. */
module Bindings {
  import opened Wrappers
  import opened Json

  datatype Binding = Binding(
    id: string,
    instanceId: string,
    serviceId: string,
    planId: string,
    appGuid: string,
    credentials: Params,
    ready: bool)

  /** Which calls on the binding store fail. A failed write has no effect. */
  datatype BindEnv = BindEnv(readFails: nat -> bool, writeFails: nat -> bool, listFails: nat -> bool)

  datatype BindState = BindState(bindings: map<string, Binding>, clock: nat)

  function BindGet(env: BindEnv, s: BindState, id: string): (BindState, Option<Binding>) {
    (s.(clock := s.clock + 1),
     if env.readFails(s.clock) || id !in s.bindings then None else Some(s.bindings[id]))
  }

  function BindPut(env: BindEnv, s: BindState, b: Binding): (BindState, bool) {
    if env.writeFails(s.clock) then (s.(clock := s.clock + 1), false)
    else (BindState(s.bindings[b.id := b], s.clock + 1), true)
  }

  function BindDelete(env: BindEnv, s: BindState, id: string): (BindState, bool) {
    if env.writeFails(s.clock) then (s.(clock := s.clock + 1), false)
    else (BindState(s.bindings - {id}, s.clock + 1), true)
  }

  /** ListBindingsByInstance; None when the listing fails. */
  function BindList(env: BindEnv, s: BindState, instanceId: string): (BindState, Option<set<Binding>>) {
    (s.(clock := s.clock + 1),
     if env.listFails(s.clock) then None
     else Some(set id | id in s.bindings && s.bindings[id].instanceId == instanceId :: s.bindings[id]))
  }

  class BindingStore {
    const env: BindEnv
    var state: BindState

    constructor (env: BindEnv, state: BindState)
      ensures this.env == env && this.state == state
    {
      this.env, this.state := env, state;
    }

    method Get(id: string) returns (r: Option<Binding>)
      modifies this
      ensures (state, r) == BindGet(env, old(state), id)
    {
      var (next, got) := BindGet(env, state, id);
      state, r := next, got;
    }

    method Put(b: Binding) returns (ok: bool)
      modifies this
      ensures (state, ok) == BindPut(env, old(state), b)
    {
      var (next, done) := BindPut(env, state, b);
      state, ok := next, done;
    }

    method Delete(id: string) returns (ok: bool)
      modifies this
      ensures (state, ok) == BindDelete(env, old(state), id)
    {
      var (next, done) := BindDelete(env, state, id);
      state, ok := next, done;
    }

    method List(instanceId: string) returns (r: Option<set<Binding>>)
      modifies this
      ensures (state, r) == BindList(env, old(state), instanceId)
    {
      var (next, got) := BindList(env, state, instanceId);
      state, r := next, got;
    }
  }

  /** The Secrets projected for consumers outside the platform, by namespace and binding. */
  datatype SecretState = SecretState(secrets: map<(string, string), Params>, clock: nat)

  type SecretEnv = nat -> bool

  function SecretWrite(fails: SecretEnv, s: SecretState, ns: string, binding: string, data: Params): (SecretState, bool) {
    if fails(s.clock) then (s.(clock := s.clock + 1), false)
    else (SecretState(s.secrets[(ns, binding) := data], s.clock + 1), true)
  }

  function SecretDelete(fails: SecretEnv, s: SecretState, ns: string, binding: string): (SecretState, bool) {
    if fails(s.clock) then (s.(clock := s.clock + 1), false)
    else (SecretState(s.secrets - {(ns, binding)}, s.clock + 1), true)
  }

  class SecretStore {
    const fails: SecretEnv
    var state: SecretState

    constructor (fails: SecretEnv, state: SecretState)
      ensures this.fails == fails && this.state == state
    {
      this.fails, this.state := fails, state;
    }

    method Write(ns: string, binding: string, data: Params) returns (ok: bool)
      modifies this
      ensures (state, ok) == SecretWrite(fails, old(state), ns, binding, data)
    {
      var (next, done) := SecretWrite(fails, state, ns, binding, data);
      state, ok := next, done;
    }

    method Delete(ns: string, binding: string) returns (ok: bool)
      modifies this
      ensures (state, ok) == SecretDelete(fails, old(state), ns, binding)
    {
      var (next, done) := SecretDelete(fails, state, ns, binding);
      state, ok := next, done;
    }
  }
}
