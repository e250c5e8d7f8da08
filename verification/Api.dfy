/** The Kubernetes API as the broker's client sees it: a map of objects behind calls
    that may fail, with the operators writing their status in between.

    Nothing here is code of the broker. It is the environment the broker runs against. */
module Api {
  import opened Wrappers
  import opened Json

  /** Group, version, kind, namespace and name of one object; also the ObjectRef the
      broker records. */
  datatype Key = Key(apiVersion: string, kind: string, ns: string, name: string)

  /** What a manifest says about an object: labels, annotations and every top-level
      field except apiVersion, kind, metadata and status. */
  datatype Content = Content(labels: map<string, string>, annotations: map<string, string>, fields: Params)

  datatype Doc = Doc(key: Key, content: Content)

  datatype Obj = Obj(content: Content, status: Value, uid: nat, version: nat)

  datatype ApiError = NotFound | AlreadyExists | Conflict | Failed

  /** What happens just before the broker's n-th call, or to it: nothing, the call fails
      without effect, an operator writes the status of some object, or somebody else creates
      an object where none is. */
  datatype Act = Quiet | Fault | Touch(key: Key, status: Value) | Appear(key: Key, content: Content)

  type AnyEnv = nat -> Act

  /** The broker is alone in creating objects. */
  ghost predicate Alone(env: AnyEnv) {
    forall n: nat :: !env(n).Appear?
  }

  type Env = env: AnyEnv | Alone(env) ghost witness ((n: nat) => Quiet)

  /** `clock` counts the broker's calls, `next` is the next unused uid and resourceVersion. */
  datatype State = State(objects: map<Key, Obj>, clock: nat, next: nat)

  datatype Ret<T> = Ret(state: State, result: Result<T, ApiError>)

  function Slashes(s: string): nat {
    if s == "" then 0 else (if s[0] == '/' then 1 else 0) + Slashes(s[1..])
  }

  /** schema.ParseGroupVersion accepts at most one slash. */
  predicate ValidApiVersion(s: string) {
    Slashes(s) <= 1
  }

  function Tick(env: AnyEnv, s: State): State {
    match env(s.clock)
    case Touch(k, st) =>
      if k in s.objects then
        State(s.objects[k := s.objects[k].(status := st, version := s.next)], s.clock + 1, s.next + 1)
      else
        s.(clock := s.clock + 1)
    case Appear(k, content) =>
      if k in s.objects then s.(clock := s.clock + 1)
      else State(s.objects[k := Obj(content, Null, s.next, s.next)], s.clock + 1, s.next + 1)
    case _ => s.(clock := s.clock + 1)
  }

  predicate CallFails(env: AnyEnv, s: State, k: Key) {
    env(s.clock).Fault? || !ValidApiVersion(k.apiVersion)
  }

  /** The server keeps the JSON content and hands numbers back in its own representation. */
  function Stored(c: Content): Content {
    c.(fields := map f | f in c.fields :: Served(c.fields[f]))
  }

  function GetCall(env: AnyEnv, s: State, k: Key): Ret<Obj> {
    var t := Tick(env, s);
    Ret(t, if CallFails(env, s, k) then Err(Failed)
           else if k !in t.objects then Err(NotFound)
           else Ok(t.objects[k]))
  }

  function CreateCall(env: AnyEnv, s: State, d: Doc): Ret<Unit> {
    var t := Tick(env, s);
    if CallFails(env, s, d.key) || !Encodable(Dict(d.content.fields)) then Ret(t, Err(Failed))
    else if d.key in t.objects then Ret(t, Err(AlreadyExists))
    else
      Ret(State(t.objects[d.key := Obj(Stored(d.content), Null, t.next, t.next)], t.clock, t.next + 1), Ok(Unit))
  }

  /** A write that names the resourceVersion it is based on. */
  function UpdateCall(env: AnyEnv, s: State, d: Doc, version: nat): Ret<Unit> {
    var t := Tick(env, s);
    if CallFails(env, s, d.key) || !Encodable(Dict(d.content.fields)) then Ret(t, Err(Failed))
    else if d.key !in t.objects then Ret(t, Err(NotFound))
    else if t.objects[d.key].version != version then Ret(t, Err(Conflict))
    else
      var o := t.objects[d.key].(content := Stored(d.content), version := t.next);
      Ret(State(t.objects[d.key := o], t.clock, t.next + 1), Ok(Unit))
  }

  function DeleteCall(env: AnyEnv, s: State, k: Key): Ret<Unit> {
    var t := Tick(env, s);
    if CallFails(env, s, k) then Ret(t, Err(Failed))
    else if k !in t.objects then Ret(t, Err(NotFound))
    else Ret(t.(objects := t.objects - {k}), Ok(Unit))
  }

  class Server {
    const env: AnyEnv
    var state: State

    constructor (env: AnyEnv, state: State)
      ensures this.env == env && this.state == state
    {
      this.env, this.state := env, state;
    }

    method Get(k: Key) returns (r: Result<Obj, ApiError>)
      modifies this
      ensures Ret(state, r) == GetCall(env, old(state), k)
    {
      var ret := GetCall(env, state, k);
      state, r := ret.state, ret.result;
    }

    method Create(d: Doc) returns (r: Result<Unit, ApiError>)
      modifies this
      ensures Ret(state, r) == CreateCall(env, old(state), d)
    {
      var ret := CreateCall(env, state, d);
      state, r := ret.state, ret.result;
    }

    method Update(d: Doc, version: nat) returns (r: Result<Unit, ApiError>)
      modifies this
      ensures Ret(state, r) == UpdateCall(env, old(state), d, version)
    {
      var ret := UpdateCall(env, state, d, version);
      state, r := ret.state, ret.result;
    }

    method Delete(k: Key) returns (r: Result<Unit, ApiError>)
      modifies this
      ensures Ret(state, r) == DeleteCall(env, old(state), k)
    {
      var ret := DeleteCall(env, state, k);
      state, r := ret.state, ret.result;
    }
  }

  /** The object under `k` is the same in both states, apart from its status and version,
      which belong to the operator and the server. */
  predicate SameAt(s: State, t: State, k: Key) {
    && (k in s.objects <==> k in t.objects)
    && (k in s.objects ==> s.objects[k].content == t.objects[k].content && s.objects[k].uid == t.objects[k].uid)
  }

  ghost predicate SameOutside(s: State, t: State, ks: set<Key>) {
    forall k | k !in ks :: SameAt(s, t, k)
  }

  lemma SameOutsideChains(s: State, t: State, u: State, ks: set<Key>, ls: set<Key>)
    requires SameOutside(s, t, ks) && SameOutside(t, u, ls)
    ensures SameOutside(s, u, ks + ls)
  {
    forall k | k !in ks + ls ensures SameAt(s, u, k) {
      assert SameAt(s, t, k) && SameAt(t, u, k);
    }
  }

  /** From call number `from` on nothing fails and nobody interferes. */
  ghost predicate Calm(env: Env, from: nat) {
    forall n: nat | n >= from :: env(n).Quiet?
  }

  function KeySet(ks: seq<Key>): set<Key> {
    set k | k in ks
  }
}
