/** The instance records, as the engine reaches them
    (InstanceRegistry in internal/definition/engine.go, internal/handlers/registry_adapter.go). */
module Registry {
  import opened Wrappers
  import opened Json
  import opened Api

  datatype InstanceRecord = InstanceRecord(
    id: string,
    serviceId: string,
    planId: string,
    ns: string,
    appliedObjects: seq<string>,
    appliedRefs: seq<Key>,
    parameters: Params,
    maintenanceVersion: string)

  /** Which of the store's calls fail. A failed write has no effect; the registry adapter
      turns a failed read into "no such record". */
  datatype RegEnv = RegEnv(readFails: nat -> bool, writeFails: nat -> bool)

  datatype RegState = RegState(records: map<string, InstanceRecord>, clock: nat)

  function RegGet(env: RegEnv, s: RegState, id: string): (RegState, Option<InstanceRecord>) {
    (s.(clock := s.clock + 1),
     if env.readFails(s.clock) || id !in s.records then None else Some(s.records[id]))
  }

  function RegPut(env: RegEnv, s: RegState, rec: InstanceRecord): (RegState, bool) {
    if env.writeFails(s.clock) then (s.(clock := s.clock + 1), false)
    else (RegState(s.records[rec.id := rec], s.clock + 1), true)
  }

  function RegDelete(env: RegEnv, s: RegState, id: string): (RegState, bool) {
    if env.writeFails(s.clock) then (s.(clock := s.clock + 1), false)
    else (RegState(s.records - {id}, s.clock + 1), true)
  }

  class InstanceRegistry {
    const env: RegEnv
    var state: RegState

    constructor (env: RegEnv, state: RegState)
      ensures this.env == env && this.state == state
    {
      this.env, this.state := env, state;
    }

    method GetInstance(id: string) returns (r: Option<InstanceRecord>)
      modifies this
      ensures (state, r) == RegGet(env, old(state), id)
    {
      var (next, got) := RegGet(env, state, id);
      state, r := next, got;
    }

    method PutInstance(rec: InstanceRecord) returns (ok: bool)
      modifies this
      ensures (state, ok) == RegPut(env, old(state), rec)
    {
      var (next, done) := RegPut(env, state, rec);
      state, ok := next, done;
    }

    method DeleteInstance(id: string) returns (ok: bool)
      modifies this
      ensures (state, ok) == RegDelete(env, old(state), id)
    {
      var (next, done) := RegDelete(env, state, id);
      state, ok := next, done;
    }
  }

  ghost predicate ReadsSucceed(env: RegEnv) {
    forall n: nat :: !env.readFails(n)
  }

  ghost predicate RegCalm(env: RegEnv, from: nat) {
    forall n: nat | n >= from :: !env.readFails(n) && !env.writeFails(n)
  }
}
