/** Generic object lifecycle against arbitrary operator APIs
    (internal/definition/operator.go and the comparisons of update.go). */
module Operator {
  import opened Wrappers
  import opened Json
  import opened Api
  import opened Manifests

  /** retry.DefaultRetry. */
  const RETRIES: nat := 5

  // --- decoding ---

  /** One YAML document; an absent header field is the empty text. */
  datatype Manifest = Manifest(apiVersion: string, kind: string, ns: string, name: string, content: Content)

  type Yaml = string -> Option<Manifest>

  function OrElse(s: string, default: string): string {
    if s == "" then default else s
  }

  function DecodeOne(yaml: Yaml, text: string, apiVersion: string, kind: string, ns: string): Option<Doc> {
    match yaml(text)
    case None => None
    case Some(m) =>
      if m.name == "" then None
      else Some(Doc(Key(OrElse(m.apiVersion, apiVersion), OrElse(m.kind, kind), OrElse(m.ns, ns), m.name), m.content))
  }

  function DecodeAll(yaml: Yaml, texts: seq<string>, apiVersion: string, kind: string, ns: string): (r: Option<seq<Doc>>)
    ensures r.Some? ==> |r.value| == |texts|
  {
    if texts == [] then Some([])
    else
      match DecodeAll(yaml, texts[..|texts| - 1], apiVersion, kind, ns)
      case None => None
      case Some(docs) =>
        match DecodeOne(yaml, texts[|texts| - 1], apiVersion, kind, ns)
        case None => None
        case Some(d) => Some(docs + [d])
  }

  lemma {:induction false} DecodePrefix(yaml: Yaml, texts: seq<string>, n: nat, apiVersion: string, kind: string, ns: string)
    requires n <= |texts|
    ensures DecodeAll(yaml, texts[..n], apiVersion, kind, ns).None? ==> DecodeAll(yaml, texts, apiVersion, kind, ns).None?
    decreases |texts| - n
  {
    if n == |texts| {
      assert texts[..n] == texts;
    } else {
      assert texts[..n + 1][..n] == texts[..n];
      DecodePrefix(yaml, texts, n + 1, apiVersion, kind, ns);
    }
  }

  /** decodeManifests. */
  method DecodeManifests(yaml: Yaml, apiVersion: string, kind: string, ns: string, rendered: string) returns (r: Option<seq<Doc>>)
    ensures r == DecodeAll(yaml, Documents(rendered), apiVersion, kind, ns)
  {
    hide DecodeOne, Documents;
    var texts := SplitManifests(rendered);
    var objs: seq<Doc> := [];
    for n := 0 to |texts|
      invariant DecodeAll(yaml, texts[..n], apiVersion, kind, ns) == Some(objs)
    {
      assert texts[..n + 1][..n] == texts[..n];
      var one := DecodeOne(yaml, texts[n], apiVersion, kind, ns);
      if one.None? {
        DecodePrefix(yaml, texts, n + 1, apiVersion, kind, ns);
        return None;
      }
      objs := objs + [one.value];
    }
    assert texts[..|texts|] == texts;
    r := Some(objs);
  }

  // --- comparing ---

  function Lookup(fields: Params, f: string): Value {
    if f in fields then fields[f] else Null
  }

  /** crMatchesRendered: same labels, and every field the document names has its value. */
  predicate Carries(live: Content, want: Content) {
    live.labels == want.labels && forall f | f in want.fields :: ValuesEqual(Lookup(live.fields, f), want.fields[f])
  }

  method MapsEqual(a: map<string, string>, b: map<string, string>) returns (equal: bool)
    ensures equal <==> a == b
  {
    if |a| != |b| {
      return false;
    }
    var keys := a.Keys;
    while keys != {}
      invariant keys <= a.Keys
      invariant forall k | k in a && k !in keys :: k in b && a[k] == b[k]
      decreases |keys|
    {
      var k :| k in keys;
      keys := keys - {k};
      if k !in b || a[k] != b[k] {
        return false;
      }
    }
    SameSizeSubset(a.Keys, b.Keys);
    equal := true;
  }

  lemma {:induction false} SameSizeSubset<T>(x: set<T>, y: set<T>)
    requires x <= y && |x| == |y|
    ensures x == y
  {
    if x != {} {
      var e :| e in x;
      SameSizeSubset(x - {e}, y - {e});
    }
  }

  method CrMatchesRendered(live: Content, want: Content) returns (same: bool)
    ensures same <==> Carries(live, want)
  {
    var labels := MapsEqual(live.labels, want.labels);
    if !labels {
      return false;
    }
    var keys := want.fields.Keys;
    while keys != {}
      invariant keys <= want.fields.Keys
      invariant forall f | f in want.fields && f !in keys :: ValuesEqual(Lookup(live.fields, f), want.fields[f])
      decreases |keys|
    {
      var f :| f in keys;
      keys := keys - {f};
      if !ValuesEqual(Lookup(live.fields, f), want.fields[f]) {
        return false;
      }
    }
    same := true;
  }

  // --- applying ---

  /** One document: read, then create or overwrite, again on a version conflict. */
  function ApplyOne(env: AnyEnv, s: State, d: Doc, attempts: nat): Ret<Unit>
    decreases attempts
  {
    if attempts == 0 then Ret(s, Err(Conflict))
    else
      var got := GetCall(env, s, d.key);
      match got.result
      case Err(NotFound) =>
        var made := CreateCall(env, got.state, d);
        if made.result == Err(AlreadyExists) then Ret(made.state, Ok(Unit)) else made
      case Err(e) => Ret(got.state, Err(e))
      case Ok(existing) =>
        var put := UpdateCall(env, got.state, d, existing.version);
        if put.result == Err(Conflict) then ApplyOne(env, put.state, d, attempts - 1) else put
  }

  /** How far applying got: the objects applied so far and, if it stopped, why. */
  datatype Applied = Applied(state: State, refs: seq<Key>, error: Option<ApiError>)

  function ApplyAll(env: AnyEnv, s: State, docs: seq<Doc>): Applied {
    if docs == [] then Applied(s, [], None)
    else
      var before := ApplyAll(env, s, docs[..|docs| - 1]);
      if before.error.Some? then before
      else
        var d := docs[|docs| - 1];
        var one := ApplyOne(env, before.state, d, RETRIES);
        match one.result
        case Err(e) => Applied(one.state, before.refs, Some(e))
        case Ok(_) => Applied(one.state, before.refs + [d.key], None)
  }

  /** Whether every document is already there, with the calls this takes. An unreadable
      object counts as different. */
  function UpToDate(env: AnyEnv, s: State, docs: seq<Doc>): (State, bool) {
    if docs == [] then (s, true)
    else
      var (t, same) := UpToDate(env, s, docs[..|docs| - 1]);
      if !same then (t, false)
      else
        var d := docs[|docs| - 1];
        var got := GetCall(env, t, d.key);
        (got.state, got.result.Ok? && Carries(got.result.value.content, d.content))
  }

  /** ManifestsUpToDate on decoded documents: an empty manifest is never up to date. */
  function ManifestsUpToDateSpec(env: AnyEnv, s: State, docs: seq<Doc>): (State, bool) {
    if docs == [] then (s, false) else UpToDate(env, s, docs)
  }

  // --- deleting ---

  /** A reference without a namespace means the instance's namespace. */
  function Resolve(ref: Key, ns: string): Key {
    ref.(ns := OrElse(ref.ns, ns))
  }

  datatype Deleted = Deleted(state: State, count: nat, error: Option<ApiError>)

  function DeleteAll(env: AnyEnv, s: State, ns: string, refs: seq<Key>): Deleted {
    if refs == [] then Deleted(s, 0, None)
    else
      var before := DeleteAll(env, s, ns, refs[..|refs| - 1]);
      if before.error.Some? then before
      else
        var ref := refs[|refs| - 1];
        if !ValidApiVersion(ref.apiVersion) then before.(error := Some(Failed))
        else
          var one := DeleteCall(env, before.state, Resolve(ref, ns));
          if one.result.Err? && one.result.error != NotFound then Deleted(one.state, before.count, Some(one.result.error))
          else Deleted(one.state, before.count + 1, None)
  }

  // --- labelling ---

  /** LabelCR: merge labels into what is there, again on a version conflict. */
  function LabelOne(env: AnyEnv, s: State, k: Key, labels: map<string, string>, attempts: nat): Ret<Unit>
    decreases attempts
  {
    if attempts == 0 then Ret(s, Err(Conflict))
    else
      var got := GetCall(env, s, k);
      match got.result
      case Err(e) => Ret(got.state, Err(e))
      case Ok(o) =>
        var put := UpdateCall(env, got.state, Doc(k, o.content.(labels := o.content.labels + labels)), o.version);
        if put.result == Err(Conflict) then LabelOne(env, put.state, k, labels, attempts - 1) else put
  }

  /** markRetained: every object is tried; `failed` lists those that could not be labelled. */
  function LabelAll(env: AnyEnv, s: State, ns: string, refs: seq<Key>, labels: map<string, string>): (State, seq<Key>) {
    if refs == [] then (s, [])
    else
      var (t, failed) := LabelAll(env, s, ns, refs[..|refs| - 1], labels);
      var ref := refs[|refs| - 1];
      var one := if ValidApiVersion(ref.apiVersion) then LabelOne(env, t, Resolve(ref, ns), labels, RETRIES) else Ret(t, Err(Failed));
      (one.state, if one.result.Err? then failed + [ref] else failed)
  }

  lemma {:induction false} ApplyStops(env: AnyEnv, s: State, docs: seq<Doc>, n: nat)
    requires n <= |docs| && ApplyAll(env, s, docs[..n]).error.Some?
    ensures ApplyAll(env, s, docs) == ApplyAll(env, s, docs[..n])
    decreases |docs| - n
  {
    if n == |docs| {
      assert docs[..n] == docs;
    } else {
      assert docs[..n + 1][..n] == docs[..n];
      ApplyStops(env, s, docs, n + 1);
    }
  }

  lemma {:induction false} UpToDateStops(env: AnyEnv, s: State, docs: seq<Doc>, n: nat)
    requires n <= |docs| && !UpToDate(env, s, docs[..n]).1
    ensures UpToDate(env, s, docs) == UpToDate(env, s, docs[..n])
    decreases |docs| - n
  {
    if n == |docs| {
      assert docs[..n] == docs;
    } else {
      assert docs[..n + 1][..n] == docs[..n];
      UpToDateStops(env, s, docs, n + 1);
    }
  }

  lemma {:induction false} DeleteStops(env: AnyEnv, s: State, ns: string, refs: seq<Key>, n: nat)
    requires n <= |refs| && DeleteAll(env, s, ns, refs[..n]).error.Some?
    ensures DeleteAll(env, s, ns, refs) == DeleteAll(env, s, ns, refs[..n])
    decreases |refs| - n
  {
    if n == |refs| {
      assert refs[..n] == refs;
    } else {
      assert refs[..n + 1][..n] == refs[..n];
      DeleteStops(env, s, ns, refs, n + 1);
    }
  }

  class OperatorClient {
    const server: Server

    constructor (server: Server)
      ensures this.server == server
    {
      this.server := server;
    }

    method ApplyDoc(d: Doc) returns (r: Result<Unit, ApiError>)
      modifies server
      ensures Ret(server.state, r) == ApplyOne(server.env, old(server.state), d, RETRIES)
    {
      var attempts := RETRIES;
      while attempts > 0
        invariant ApplyOne(server.env, server.state, d, attempts) == ApplyOne(server.env, old(server.state), d, RETRIES)
      {
        var existing := server.Get(d.key);
        if existing == Err(NotFound) {
          r := server.Create(d);
          if r == Err(AlreadyExists) {
            r := Ok(Unit);
          }
          return;
        }
        if existing.Err? {
          return Err(existing.error);
        }
        r := server.Update(d, existing.value.version);
        if r != Err(Conflict) {
          return;
        }
        attempts := attempts - 1;
      }
      r := Err(Conflict);
    }

    /** ApplyManifestRefs, on decoded documents. */
    method ApplyManifestRefs(docs: seq<Doc>) returns (refs: seq<Key>, error: Option<ApiError>)
      modifies server
      ensures Applied(server.state, refs, error) == ApplyAll(server.env, old(server.state), docs)
    {
      refs := [];
      for n := 0 to |docs|
        invariant Applied(server.state, refs, None) == ApplyAll(server.env, old(server.state), docs[..n])
      {
        assert docs[..n + 1][..n] == docs[..n];
        var one := ApplyDoc(docs[n]);
        if one.Err? {
          ApplyStops(server.env, old(server.state), docs, n + 1);
          return refs, Some(one.error);
        }
        refs := refs + [docs[n].key];
      }
      assert docs[..|docs|] == docs;
      error := None;
    }

    /** ManifestsUpToDate, on decoded documents. */
    method ManifestsUpToDate(docs: seq<Doc>) returns (same: bool)
      modifies server
      ensures (server.state, same) == ManifestsUpToDateSpec(server.env, old(server.state), docs)
    {
      if |docs| == 0 {
        return false;
      }
      for n := 0 to |docs|
        invariant (server.state, true) == UpToDate(server.env, old(server.state), docs[..n])
      {
        assert docs[..n + 1][..n] == docs[..n];
        var live := server.Get(docs[n].key);
        if live.Err? {
          UpToDateStops(server.env, old(server.state), docs, n + 1);
          return false;
        }
        var matches := CrMatchesRendered(live.value.content, docs[n].content);
        if !matches {
          UpToDateStops(server.env, old(server.state), docs, n + 1);
          return false;
        }
      }
      assert docs[..|docs|] == docs;
      same := true;
    }

    /** DeleteManifestRefs; `count` is how many names it returns. */
    method DeleteManifestRefs(ns: string, refs: seq<Key>) returns (count: nat, error: Option<ApiError>)
      modifies server
      ensures Deleted(server.state, count, error) == DeleteAll(server.env, old(server.state), ns, refs)
    {
      count := 0;
      for n := 0 to |refs|
        invariant Deleted(server.state, count, None) == DeleteAll(server.env, old(server.state), ns, refs[..n])
      {
        assert refs[..n + 1][..n] == refs[..n];
        if !ValidApiVersion(refs[n].apiVersion) {
          DeleteStops(server.env, old(server.state), ns, refs, n + 1);
          return count, Some(Failed);
        }
        var one := server.Delete(Resolve(refs[n], ns));
        if one.Err? && one.error != NotFound {
          DeleteStops(server.env, old(server.state), ns, refs, n + 1);
          return count, Some(one.error);
        }
        count := count + 1;
      }
      assert refs[..|refs|] == refs;
      error := None;
    }

    method LabelCR(k: Key, labels: map<string, string>) returns (r: Result<Unit, ApiError>)
      modifies server
      ensures Ret(server.state, r) == LabelOne(server.env, old(server.state), k, labels, RETRIES)
    {
      var attempts := RETRIES;
      while attempts > 0
        invariant LabelOne(server.env, server.state, k, labels, attempts) == LabelOne(server.env, old(server.state), k, labels, RETRIES)
      {
        var obj := server.Get(k);
        if obj.Err? {
          return Err(obj.error);
        }
        var merged := obj.value.content.labels + labels;
        r := server.Update(Doc(k, obj.value.content.(labels := merged)), obj.value.version);
        if r != Err(Conflict) {
          return;
        }
        attempts := attempts - 1;
      }
      r := Err(Conflict);
    }

    /** markRetained. */
    method MarkRetained(ns: string, refs: seq<Key>, labels: map<string, string>) returns (failed: seq<Key>)
      modifies server
      ensures (server.state, failed) == LabelAll(server.env, old(server.state), ns, refs, labels)
    {
      failed := [];
      for n := 0 to |refs|
        invariant (server.state, failed) == LabelAll(server.env, old(server.state), ns, refs[..n], labels)
      {
        assert refs[..n + 1][..n] == refs[..n];
        if !ValidApiVersion(refs[n].apiVersion) {
          failed := failed + [refs[n]];
        } else {
          var one := LabelCR(Resolve(refs[n], ns), labels);
          if one.Err? {
            failed := failed + [refs[n]];
          }
        }
      }
      assert refs[..|refs|] == refs;
    }
  }
}
