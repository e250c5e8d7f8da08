/** What the operator client does to the cluster, whatever fails and whoever writes
    status in between. */
module OperatorProofs {
  import opened Wrappers
  import opened Json
  import opened Api
  import opened Operator

  lemma StoredCarries(c: Content)
    requires Encodable(Dict(c.fields))
    ensures Carries(Stored(c), c)
  {
    forall f | f in c.fields ensures ValuesEqual(Lookup(Stored(c).fields, f), c.fields[f]) {
      ServedIsTheSameJson(c.fields[f]);
    }
  }

  /** The first write of a document: created, or written over the version just read. */
  lemma WriteOneEffect(env: Env, s: State, d: Doc, version: nat)
    ensures var r := CreateCall(env, s, d);
      && SameOutside(s, r.state, if r.result.Ok? then {d.key} else {}) && s.clock <= r.state.clock
      && (r.result.Ok? ==> d.key in r.state.objects && Carries(r.state.objects[d.key].content, d.content))
      && (r.result == Err(AlreadyExists) ==> d.key in s.objects)
    ensures var r := UpdateCall(env, s, d, version);
      && SameOutside(s, r.state, if r.result.Ok? then {d.key} else {}) && s.clock <= r.state.clock
      && (r.result.Ok? ==> d.key in r.state.objects && Carries(r.state.objects[d.key].content, d.content))
  {
    hide Carries, Stored, ValidApiVersion;
    if CreateCall(env, s, d).result.Ok? || UpdateCall(env, s, d, version).result.Ok? {
      StoredCarries(d.content);
    }
  }

  lemma ReadOneEffect(env: Env, s: State, k: Key)
    ensures SameOutside(s, GetCall(env, s, k).state, {}) && s.clock <= GetCall(env, s, k).state.clock
    ensures GetCall(env, s, k).result == Err(NotFound) ==> k !in GetCall(env, s, k).state.objects
  {
  }

  /** Applying one document changes at most that object; when it succeeds the object
      carries the document, when it fails nothing has changed. */
  lemma {:induction false} ApplyOneEffect(env: Env, s: State, d: Doc, attempts: nat)
    ensures var r := ApplyOne(env, s, d, attempts);
      && SameOutside(s, r.state, {d.key})
      && (r.result.Ok? ==> d.key in r.state.objects && Carries(r.state.objects[d.key].content, d.content))
      && (r.result.Err? ==> SameOutside(s, r.state, {}))
      && s.clock <= r.state.clock
    decreases attempts
  {
    hide Carries, GetCall, CreateCall, UpdateCall;
    if attempts > 0 {
      var got := GetCall(env, s, d.key);
      ReadOneEffect(env, s, d.key);
      var last := got.state;
      if got.result.Ok? {
        WriteOneEffect(env, got.state, d, got.result.value.version);
        last := UpdateCall(env, got.state, d, got.result.value.version).state;
        if UpdateCall(env, got.state, d, got.result.value.version).result == Err(Conflict) {
          ApplyOneEffect(env, last, d, attempts - 1);
          SameOutsideChains(s, got.state, last, {}, {});
          SameOutsideChains(s, last, ApplyOne(env, last, d, attempts - 1).state, {}, {d.key});
          SameOutsideChains(s, last, ApplyOne(env, last, d, attempts - 1).state, {},
                            if ApplyOne(env, last, d, attempts - 1).result.Err? then {} else {d.key});
        }
      } else if got.result == Err(NotFound) {
        WriteOneEffect(env, got.state, d, 0);
        last := CreateCall(env, got.state, d).state;
      }
      if SameOutside(got.state, last, {}) {
        SameOutsideChains(s, got.state, last, {}, {});
      }
      SameOutsideChains(s, got.state, last, {}, {d.key});
      assert {} + {d.key} == {d.key};
    }
  }

  function Keys(docs: seq<Doc>): (ks: seq<Key>)
    ensures |ks| == |docs| && forall i | 0 <= i < |docs| :: ks[i] == docs[i].key
  {
    seq(|docs|, i requires 0 <= i < |docs| => docs[i].key)
  }

  predicate Distinct(ks: seq<Key>) {
    forall i, j | 0 <= i < j < |ks| :: ks[i] != ks[j]
  }

  ghost predicate CarriesAll(s: State, docs: seq<Doc>) {
    forall i | 0 <= i < |docs| :: docs[i].key in s.objects && Carries(s.objects[docs[i].key].content, docs[i].content)
  }

  /** What ApplyAll leaves behind when it has got through `refs`. */
  ghost predicate AppliedPrefix(s: State, docs: seq<Doc>, a: Applied) {
    && |a.refs| <= |docs| && a.refs == Keys(docs)[..|a.refs|]
    && (a.error.None? <==> |a.refs| == |docs|)
    && SameOutside(s, a.state, KeySet(a.refs))
    && (forall k | k in a.refs :: k in a.state.objects)
    && (Distinct(Keys(docs)) ==> CarriesAll(a.state, docs[..|a.refs|]))
    && s.clock <= a.state.clock
  }

  /** Applying a manifest gets through a prefix of it, touches nothing else, and leaves
      every object of that prefix carrying its document. */
  lemma {:induction false} ApplyAllEffect(env: Env, s: State, docs: seq<Doc>)
    ensures AppliedPrefix(s, docs, ApplyAll(env, s, docs))
  {
    hide ApplyOne, Carries, SameOutside, CarriesAll, Distinct;
    if docs == [] {
      NothingApplied(s);
    } else {
      var n := |docs| - 1;
      var d, before := docs[n], ApplyAll(env, s, docs[..n]);
      ApplyAllEffect(env, s, docs[..n]);
      assert Keys(docs[..n]) == Keys(docs)[..n];
      if before.error.Some? {
        assert docs[..n][..|before.refs|] == docs[..|before.refs|];
        assert Keys(docs)[..n][..|before.refs|] == Keys(docs)[..|before.refs|];
        DistinctPrefix(Keys(docs), n);
      } else {
        assert docs[..n][..n] == docs[..n];
        assert before.refs == Keys(docs)[..n];
        ApplyAllStep(env, s, docs, before);
      }
    }
  }

  lemma NothingApplied(s: State)
    ensures AppliedPrefix(s, [], Applied(s, [], None))
  {
  }

  lemma DistinctPrefix(ks: seq<Key>, n: nat)
    requires n <= |ks|
    ensures Distinct(ks) ==> Distinct(ks[..n])
  {
  }

  lemma ApplyAllStep(env: Env, s: State, docs: seq<Doc>, before: Applied)
    requires docs != [] && before == ApplyAll(env, s, docs[..|docs| - 1]) && before.error.None?
    requires AppliedPrefix(s, docs[..|docs| - 1], before) && before.refs == Keys(docs)[..|docs| - 1]
    ensures AppliedPrefix(s, docs, ApplyAll(env, s, docs))
  {
    hide AppliedPrefix, Carries, ApplyOne, SameOutside;
    var d, a := docs[|docs| - 1], ApplyAll(env, s, docs);
    ApplyOneEffect(env, before.state, d, RETRIES);
    if a.error.None? {
      OneMoreApplied(s, docs, before, a);
    } else {
      NoMoreApplied(s, docs, before, a);
    }
  }

  lemma NoMoreApplied(s: State, docs: seq<Doc>, before: Applied, a: Applied)
    requires docs != [] && before.error.None? && a.error.Some?
    requires AppliedPrefix(s, docs[..|docs| - 1], before) && before.refs == Keys(docs)[..|docs| - 1]
    requires a.refs == before.refs && SameOutside(before.state, a.state, {}) && before.state.clock <= a.state.clock
    ensures AppliedPrefix(s, docs, a)
  {
    hide Carries, CarriesAll, Distinct;
    var n := |docs| - 1;
    assert docs[..n][..n] == docs[..n] && Keys(docs[..n]) == Keys(docs)[..n];
    SameOutsideChains(s, before.state, a.state, KeySet(before.refs), {});
    assert KeySet(before.refs) + {} == KeySet(before.refs);
    forall k | k in a.refs ensures k in a.state.objects {
      assert SameAt(before.state, a.state, k);
    }
    if Distinct(Keys(docs)) {
      DistinctPrefix(Keys(docs), n);
      CarriesAllIsStable(before.state, a.state, docs[..n], {});
    }
  }

  lemma CarriesAllIsStable(s: State, t: State, docs: seq<Doc>, changed: set<Key>)
    requires CarriesAll(s, docs) && SameOutside(s, t, changed)
    requires forall i | 0 <= i < |docs| :: docs[i].key !in changed
    ensures CarriesAll(t, docs)
  {
    forall i | 0 <= i < |docs| ensures docs[i].key in t.objects && Carries(t.objects[docs[i].key].content, docs[i].content) {
      assert SameAt(s, t, docs[i].key);
    }
  }

  lemma CarriesAllSplits(s: State, docs: seq<Doc>)
    requires docs != []
    ensures CarriesAll(s, docs) <==>
      && CarriesAll(s, docs[..|docs| - 1])
      && docs[|docs| - 1].key in s.objects
      && Carries(s.objects[docs[|docs| - 1].key].content, docs[|docs| - 1].content)
  {
    var n := |docs| - 1;
    if CarriesAll(s, docs) {
      assert forall i | 0 <= i < n :: docs[..n][i] == docs[i];
    }
    if CarriesAll(s, docs[..n]) {
      assert forall i | 0 <= i < n :: docs[i] == docs[..n][i];
    }
  }

  lemma OneMoreApplied(s: State, docs: seq<Doc>, before: Applied, a: Applied)
    requires docs != [] && before.error.None? && a.error.None?
    requires AppliedPrefix(s, docs[..|docs| - 1], before) && before.refs == Keys(docs)[..|docs| - 1]
    requires var d := docs[|docs| - 1];
      && a.refs == before.refs + [d.key]
      && SameOutside(before.state, a.state, {d.key})
      && d.key in a.state.objects && Carries(a.state.objects[d.key].content, d.content)
      && before.state.clock <= a.state.clock
    ensures AppliedPrefix(s, docs, a)
  {
    hide Carries, CarriesAll, Distinct;
    var n := |docs| - 1;
    var d := docs[n];
    SameOutsideChains(s, before.state, a.state, KeySet(before.refs), {d.key});
    assert KeySet(a.refs) == KeySet(before.refs) + {d.key};
    assert a.refs == Keys(docs) && docs[..|a.refs|] == docs;
    forall k | k in a.refs ensures k in a.state.objects {
      if k != d.key { assert SameAt(before.state, a.state, k); }
    }
    if Distinct(Keys(docs)) {
      assert Keys(docs[..n]) == Keys(docs)[..n] && docs[..n][..n] == docs[..n];
      DistinctPrefix(Keys(docs), n);
      OneMoreCarried(docs, before.state, a.state);
    }
  }

  lemma OneMoreCarried(docs: seq<Doc>, before: State, after: State)
    requires docs != [] && Distinct(Keys(docs)) && CarriesAll(before, docs[..|docs| - 1])
    requires var d := docs[|docs| - 1];
      SameOutside(before, after, {d.key}) && d.key in after.objects && Carries(after.objects[d.key].content, d.content)
    ensures CarriesAll(after, docs)
  {
    hide Carries, CarriesAll;
    var n := |docs| - 1;
    forall i | 0 <= i < n ensures docs[..n][i].key !in {docs[n].key} {
      assert Keys(docs)[i] != Keys(docs)[n];
    }
    CarriesAllIsStable(before, after, docs[..n], {docs[n].key});
    CarriesAllSplits(after, docs);
  }

  /** Every object holds exactly its document, as the server keeps it. */
  ghost predicate StoresAll(s: State, docs: seq<Doc>) {
    forall i | 0 <= i < |docs| :: docs[i].key in s.objects && s.objects[docs[i].key].content == Stored(docs[i].content)
  }

  lemma {:induction false} ApplyOneStores(env: Env, s: State, d: Doc, attempts: nat)
    ensures var r := ApplyOne(env, s, d, attempts);
      r.result.Ok? ==> d.key in r.state.objects && r.state.objects[d.key].content == Stored(d.content)
    decreases attempts
  {
    hide Stored, Encodable, ValidApiVersion;
    if attempts > 0 {
      var got := GetCall(env, s, d.key);
      if got.result.Ok? {
        var put := UpdateCall(env, got.state, d, got.result.value.version);
        if put.result == Err(Conflict) {
          ApplyOneStores(env, put.state, d, attempts - 1);
        }
      }
    }
  }

  /** A manifest that was written is there word for word, not merely carried. */
  lemma {:induction false} ApplyAllStores(env: Env, s: State, docs: seq<Doc>)
    requires Distinct(Keys(docs)) && ApplyAll(env, s, docs).error.None?
    ensures StoresAll(ApplyAll(env, s, docs).state, docs)
  {
    hide ApplyOne, Stored, Distinct;
    if docs != [] {
      var n := |docs| - 1;
      assert Keys(docs[..n]) == Keys(docs)[..n];
      DistinctPrefix(Keys(docs), n);
      ApplyAllStores(env, s, docs[..n]);
      var before := ApplyAll(env, s, docs[..n]);
      ApplyOneStores(env, before.state, docs[n], RETRIES);
      ApplyOneEffect(env, before.state, docs[n], RETRIES);
      StoresAllGrows(before.state, ApplyAll(env, s, docs).state, docs);
    }
  }

  lemma StoresAllGrows(before: State, after: State, docs: seq<Doc>)
    requires docs != [] && Distinct(Keys(docs)) && StoresAll(before, docs[..|docs| - 1])
    requires var d := docs[|docs| - 1];
      SameOutside(before, after, {d.key}) && d.key in after.objects && after.objects[d.key].content == Stored(d.content)
    ensures StoresAll(after, docs)
  {
    hide Stored;
    var n := |docs| - 1;
    forall i | 0 <= i < n ensures docs[i].key in after.objects && after.objects[docs[i].key].content == Stored(docs[i].content) {
      assert docs[..n][i] == docs[i] && Keys(docs)[i] != Keys(docs)[n];
      assert SameAt(before, after, docs[i].key);
    }
  }

  /** Comparing writes nothing, and says "up to date" only of a cluster that carries every
      document. */
  lemma {:induction false} UpToDateIsReadOnlyAndSound(env: Env, s: State, docs: seq<Doc>)
    ensures var (t, same) := UpToDate(env, s, docs);
      SameOutside(s, t, {}) && (same ==> CarriesAll(s, docs)) && s.clock <= t.clock
  {
    if docs != [] {
      var n := |docs| - 1;
      var (t, same) := UpToDate(env, s, docs[..n]);
      UpToDateIsReadOnlyAndSound(env, s, docs[..n]);
      if same {
        var got := GetCall(env, t, docs[n].key);
        SameOutsideChains(s, t, got.state, {}, {});
        assert SameAt(s, got.state, docs[n].key);
        forall i | 0 <= i < n
          ensures docs[i].key in s.objects && Carries(s.objects[docs[i].key].content, docs[i].content)
        {
          assert docs[..n][i] == docs[i];
        }
      }
    }
  }

  predicate Reachable(docs: seq<Doc>) {
    forall i | 0 <= i < |docs| ::
      ValidApiVersion(docs[i].key.apiVersion) && Encodable(Dict(docs[i].content.fields))
  }

  /** With no interference the comparison is complete, and leaves the objects untouched. */
  lemma {:induction false} UpToDateIsComplete(env: Env, s: State, docs: seq<Doc>)
    requires Calm(env, s.clock) && Reachable(docs)
    ensures var (t, same) := UpToDate(env, s, docs);
      t.objects == s.objects && t.next == s.next && s.clock <= t.clock && (same <==> CarriesAll(s, docs))
  {
    if docs != [] {
      var n := |docs| - 1;
      UpToDateIsComplete(env, s, docs[..n]);
      CarriesAllSplits(s, docs);
      var (t, same) := UpToDate(env, s, docs[..n]);
      assert env(t.clock).Quiet? && ValidApiVersion(docs[n].key.apiVersion);
    }
  }

  /** With no interference every document can be applied. */
  lemma {:induction false} CalmApplySucceeds(env: Env, s: State, docs: seq<Doc>)
    requires Calm(env, s.clock) && Reachable(docs)
    ensures ApplyAll(env, s, docs).error.None?
  {
    if docs != [] {
      var n := |docs| - 1;
      CalmApplySucceeds(env, s, docs[..n]);
      ApplyAllEffect(env, s, docs[..n]);
      CalmApplyOneSucceeds(env, ApplyAll(env, s, docs[..n]).state, docs[n]);
    }
  }

  lemma CalmApplyOneSucceeds(env: Env, s: State, d: Doc)
    requires Calm(env, s.clock) && ValidApiVersion(d.key.apiVersion) && Encodable(Dict(d.content.fields))
    ensures ApplyOne(env, s, d, RETRIES).result.Ok?
  {
    var got := GetCall(env, s, d.key);
    assert env(s.clock).Quiet? && env(got.state.clock).Quiet?;
  }

  /** The objects that a list of references names. */
  function Resolved(refs: seq<Key>, ns: string): (ks: seq<Key>)
    ensures |ks| == |refs| && forall i | 0 <= i < |refs| :: ks[i] == Resolve(refs[i], ns)
  {
    seq(|refs|, i requires 0 <= i < |refs| => Resolve(refs[i], ns))
  }

  /** Deleting got through a prefix of the references: those objects are gone, all others are
      as they were. */
  ghost predicate DeletedPrefix(s: State, ks: seq<Key>, d: Deleted) {
    && d.count <= |ks| && (d.error.None? <==> d.count == |ks|)
    && SameOutside(s, d.state, KeySet(ks[..d.count]))
    && (forall k | k in ks[..d.count] :: k !in d.state.objects)
    && s.clock <= d.state.clock
  }

  lemma {:induction false} DeleteAllEffect(env: Env, s: State, ns: string, refs: seq<Key>)
    ensures DeletedPrefix(s, Resolved(refs, ns), DeleteAll(env, s, ns, refs))
  {
    if refs != [] {
      var n := |refs| - 1;
      var before := DeleteAll(env, s, ns, refs[..n]);
      DeleteAllEffect(env, s, ns, refs[..n]);
      var ks := Resolved(refs, ns);
      assert Resolved(refs[..n], ns) == ks[..n];
      if before.error.Some? {
        assert ks[..n][..before.count] == ks[..before.count];
      } else {
        var k := Resolve(refs[n], ns);
        var one := DeleteCall(env, before.state, k);
        if ValidApiVersion(refs[n].apiVersion) {
          DeleteCallEffect(env, before.state, k);
        }
        OneMoreDeleted(s, ks, before, DeleteAll(env, s, ns, refs));
      }
    }
  }

  lemma DeleteCallEffect(env: Env, s: State, k: Key)
    ensures var r := DeleteCall(env, s, k);
      && SameOutside(s, r.state, {k}) && s.clock <= r.state.clock
      && (r.result.Ok? || r.result == Err(NotFound) ==> k !in r.state.objects)
      && (r.result.Err? ==> SameOutside(s, r.state, {}))
  {
  }

  lemma OneMoreDeleted(s: State, ks: seq<Key>, before: Deleted, d: Deleted)
    requires ks != [] && DeletedPrefix(s, ks[..|ks| - 1], before) && before.error.None?
    requires before.state.clock <= d.state.clock
    requires if d.error.Some? then d.count == before.count && SameOutside(before.state, d.state, {})
             else d.count == |ks| && SameOutside(before.state, d.state, {ks[|ks| - 1]}) && ks[|ks| - 1] !in d.state.objects
    ensures DeletedPrefix(s, ks, d)
  {
    var n := |ks| - 1;
    assert ks[..n][..n] == ks[..n] && ks[..|ks|] == ks == ks[..n] + [ks[n]];
    var changed: set<Key> := if d.error.None? then {ks[n]} else {};
    SameOutsideChains(s, before.state, d.state, KeySet(ks[..n]), changed);
    assert KeySet(ks[..d.count]) == KeySet(ks[..n]) + changed;
    forall x | x in ks[..d.count] ensures x !in d.state.objects {
      assert x in changed || SameAt(before.state, d.state, x);
    }
  }

  lemma {:induction false} CalmDeleteSucceeds(env: Env, s: State, ns: string, refs: seq<Key>)
    requires Calm(env, s.clock) && forall k | k in refs :: ValidApiVersion(k.apiVersion)
    ensures DeleteAll(env, s, ns, refs).error.None?
  {
    if refs != [] {
      var n := |refs| - 1;
      CalmDeleteSucceeds(env, s, ns, refs[..n]);
      DeleteAllEffect(env, s, ns, refs[..n]);
    }
  }

  /** Every stored object is in the server's own representation. */
  ghost predicate Settled(s: State) {
    forall k | k in s.objects :: Stored(s.objects[k].content) == s.objects[k].content
  }

  lemma StoredIsSettled(c: Content)
    ensures Stored(Stored(c)) == Stored(c)
  {
    forall f | f in c.fields ensures Served(Served(c.fields[f])) == Served(c.fields[f]) {
      ServedIsIdempotent(c.fields[f]);
    }
    assert Stored(Stored(c)).fields == Stored(c).fields;
  }

  lemma RelabelledIsSettled(c: Content, labels: map<string, string>)
    requires Stored(c) == c
    ensures Stored(c.(labels := labels)) == c.(labels := labels)
  {
    assert Stored(c.(labels := labels)).fields == Stored(c).fields;
  }

  /** What labelling may have done to an object: merged the labels in, and nothing else. */
  predicate AtMostLabelled(before: Obj, after: Obj, labels: map<string, string>) {
    && after.uid == before.uid
    && (after.content == before.content || after.content == before.content.(labels := before.content.labels + labels))
  }

  /** One round of labelling: read, merge, write back. */
  function LabelOnce(env: Env, s: State, k: Key, labels: map<string, string>): Ret<Unit> {
    var got := GetCall(env, s, k);
    match got.result
    case Err(e) => Ret(got.state, Err(e))
    case Ok(o) => UpdateCall(env, got.state, Doc(k, o.content.(labels := o.content.labels + labels)), o.version)
  }

  ghost predicate MergedOrUntouched(s: State, r: Ret<Unit>, k: Key, labels: map<string, string>) {
    && Settled(r.state) && SameOutside(s, r.state, if r.result.Ok? then {k} else {})
    && (r.result.Ok? ==>
          && k in s.objects && k in r.state.objects
          && r.state.objects[k].uid == s.objects[k].uid
          && r.state.objects[k].content == s.objects[k].content.(labels := s.objects[k].content.labels + labels))
  }

  lemma TickKeepsSettled(env: Env, s: State)
    requires Settled(s)
    ensures Settled(Tick(env, s)) && SameOutside(s, Tick(env, s), {})
  {
  }

  /** A write replaces the content of one existing object, or nothing. */
  lemma UpdateCallEffect(env: Env, s: State, d: Doc, version: nat)
    requires Settled(s)
    ensures var r := UpdateCall(env, s, d, version);
      && Settled(r.state)
      && (r.result.Err? ==> SameOutside(s, r.state, {}))
      && (r.result.Ok? ==>
            && SameOutside(s, r.state, {d.key}) && d.key in s.objects && d.key in r.state.objects
            && r.state.objects[d.key].uid == s.objects[d.key].uid
            && r.state.objects[d.key].content == Stored(d.content))
  {
    TickKeepsSettled(env, s);
    StoredIsSettled(d.content);
    assert SameAt(s, Tick(env, s), d.key);
  }

  lemma LabelOnceEffect(env: Env, s: State, k: Key, labels: map<string, string>)
    requires Settled(s)
    ensures MergedOrUntouched(s, LabelOnce(env, s, k, labels), k, labels)
  {
    var got := GetCall(env, s, k);
    TickKeepsSettled(env, s);
    if got.result.Ok? {
      var o := got.result.value;
      assert SameAt(s, got.state, k);
      var d := Doc(k, o.content.(labels := o.content.labels + labels));
      UpdateCallEffect(env, got.state, d, o.version);
      RelabelledIsSettled(o.content, o.content.labels + labels);
      var put := UpdateCall(env, got.state, d, o.version);
      SameOutsideChains(s, got.state, put.state, {}, if put.result.Ok? then {k} else {});
      assert {} + {k} == {k};
    }
  }

  /** Labelling deletes nothing, creates nothing and changes no other field; a success has
      merged the labels, a failure has changed nothing. */
  lemma {:induction false} LabelOneEffect(env: Env, s: State, k: Key, labels: map<string, string>, attempts: nat)
    requires Settled(s)
    ensures MergedOrUntouched(s, LabelOne(env, s, k, labels, attempts), k, labels)
    decreases attempts
  {
    if attempts > 0 {
      var once := LabelOnce(env, s, k, labels);
      LabelOnceEffect(env, s, k, labels);
      if once.result == Err(Conflict) {
        LabelOneEffect(env, once.state, k, labels, attempts - 1);
        var r := LabelOne(env, once.state, k, labels, attempts - 1);
        var changed: set<Key> := if r.result.Ok? then {k} else {};
        SameOutsideChains(s, once.state, r.state, {}, changed);
        assert {} + changed == changed;
        assert SameAt(s, once.state, k);
      }
    }
  }

  ghost predicate OnlyLabelled(s: State, t: State, labels: map<string, string>) {
    && s.objects.Keys == t.objects.Keys
    && forall k | k in s.objects :: AtMostLabelled(s.objects[k], t.objects[k], labels)
  }

  lemma MergingTwiceIsMergingOnce(a: map<string, string>, b: map<string, string>)
    ensures a + b + b == a + b
  {
  }

  /** Marking retained objects leaves every object in place with all its labels, whatever
      fails; objects that are not reported as failed carry the labels. */
  lemma {:induction false} LabelAllEffect(env: Env, s: State, ns: string, refs: seq<Key>, labels: map<string, string>)
    requires Settled(s)
    ensures var (t, failed) := LabelAll(env, s, ns, refs, labels);
      && Settled(t) && OnlyLabelled(s, t, labels)
      && (forall k | k in Resolved(refs, ns) && k !in Resolved(failed, ns) :: Labelled(t, k, labels))
  {
    if refs != [] {
      var n := |refs| - 1;
      LabelAllEffect(env, s, ns, refs[..n], labels);
      LabelAllStep(env, s, ns, refs, labels);
    }
  }

  ghost predicate Labelled(t: State, k: Key, labels: map<string, string>) {
    k in t.objects && forall l | l in labels :: l in t.objects[k].content.labels && t.objects[k].content.labels[l] == labels[l]
  }

  lemma AtMostLabelledTwice(a: Obj, b: Obj, c: Obj, labels: map<string, string>)
    requires AtMostLabelled(a, b, labels) && AtMostLabelled(b, c, labels)
    ensures AtMostLabelled(a, c, labels)
  {
    MergingTwiceIsMergingOnce(a.content.labels, labels);
  }

  lemma OnlyLabelledMore(s: State, t: State, r: Ret<Unit>, k: Key, labels: map<string, string>)
    requires OnlyLabelled(s, t, labels) && MergedOrUntouched(t, r, k, labels)
    ensures OnlyLabelled(s, r.state, labels)
  {
    forall x ensures x in t.objects <==> x in r.state.objects {
      if x != k || r.result.Err? { assert SameAt(t, r.state, x); }
    }
    forall x | x in s.objects ensures AtMostLabelled(s.objects[x], r.state.objects[x], labels) {
      if x != k || r.result.Err? { assert SameAt(t, r.state, x); }
      AtMostLabelledTwice(s.objects[x], t.objects[x], r.state.objects[x], labels);
    }
  }

  lemma LabelAllStep(env: Env, s: State, ns: string, refs: seq<Key>, labels: map<string, string>)
    requires Settled(s) && refs != []
    requires var (t, failed) := LabelAll(env, s, ns, refs[..|refs| - 1], labels);
      && Settled(t) && OnlyLabelled(s, t, labels)
      && (forall k | k in Resolved(refs[..|refs| - 1], ns) && k !in Resolved(failed, ns) :: Labelled(t, k, labels))
    ensures var (t, failed) := LabelAll(env, s, ns, refs, labels);
      && Settled(t) && OnlyLabelled(s, t, labels)
      && (forall k | k in Resolved(refs, ns) && k !in Resolved(failed, ns) :: Labelled(t, k, labels))
  {
    var n := |refs| - 1;
    var ref := refs[n];
    var (t, failed) := LabelAll(env, s, ns, refs[..n], labels);
    var k := Resolve(ref, ns);
    var one := if ValidApiVersion(ref.apiVersion) then LabelOne(env, t, k, labels, RETRIES) else Ret(t, Err(Failed));
    if ValidApiVersion(ref.apiVersion) {
      LabelOneEffect(env, t, k, labels, RETRIES);
    }
    assert MergedOrUntouched(t, one, k, labels);
    OnlyLabelledMore(s, t, one, k, labels);
    LabelledMore(t, one, ns, refs, failed, labels);
  }

  lemma LabelledMore(t: State, one: Ret<Unit>, ns: string, refs: seq<Key>, failed: seq<Key>, labels: map<string, string>)
    requires refs != [] && MergedOrUntouched(t, one, Resolve(refs[|refs| - 1], ns), labels)
    requires forall k | k in Resolved(refs[..|refs| - 1], ns) && k !in Resolved(failed, ns) :: Labelled(t, k, labels)
    ensures var failed' := if one.result.Err? then failed + [refs[|refs| - 1]] else failed;
      forall k | k in Resolved(refs, ns) && k !in Resolved(failed', ns) :: Labelled(one.state, k, labels)
  {
    var n := |refs| - 1;
    var failed' := if one.result.Err? then failed + [refs[n]] else failed;
    var k := Resolve(refs[n], ns);
    assert Resolved(refs, ns) == Resolved(refs[..n], ns) + [k];
    assert Resolved(failed', ns) == if one.result.Err? then Resolved(failed, ns) + [k] else Resolved(failed, ns);
    forall x | x in Resolved(refs, ns) && x !in Resolved(failed', ns) ensures Labelled(one.state, x, labels) {
      if x != k || one.result.Err? {
        assert SameAt(t, one.state, x);
      }
    }
  }
}
