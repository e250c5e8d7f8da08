/** Records that share nothing with their callers (internal/broker/deepcopy.go and the
    store that uses it, internal/broker/statestore.go). The maps and slices of Go's
    map[string]interface{}, and the structs of records, are objects on the heap here. */
module DeepCopies {
  import opened Wrappers
  import opened Json

  /** An interface{} of decoded JSON: a scalar, or a reference to a map or a slice. */
  datatype Ref = Scalar(v: Value) | At(node: Node)

  /** A Go map or slice, or a struct with its fields as entries. What hangs below it may be shared, but not in a cycle. */
  class Node {
    var isMap: bool
    var fields: map<string, Ref>
    var elems: seq<Ref>
    ghost var Repr: set<object>

    constructor (isMap: bool, fields: map<string, Ref>, elems: seq<Ref>, ghost heap: set<object>)
      ensures this.isMap == isMap && this.fields == fields && this.elems == elems && Repr == {this} + heap
    {
      this.isMap, this.fields, this.elems, Repr := isMap, fields, elems, {this} + heap;
    }

    ghost predicate Below(r: Ref)
      reads this, Repr
    {
      r.At? ==> r.node in Repr && r.node.Repr < Repr && this !in r.node.Repr
    }

    ghost predicate Valid()
      reads this, Repr
      decreases Repr
    {
      && this in Repr
      && (forall k | k in fields :: Below(fields[k]) && (fields[k].At? ==> fields[k].node.Valid()))
      && (forall i | 0 <= i < |elems| :: Below(elems[i]) && (elems[i].At? ==> elems[i].node.Valid()))
    }

    /** The JSON value the node stands for. */
    ghost function Abs(): Value
      requires Valid()
      reads this, Repr
      decreases Repr, |elems| + 1
    {
      if isMap then Dict(map k | k in fields :: if fields[k].At? then fields[k].node.Abs() else fields[k].v)
      else List(AbsElems(|elems|))
    }

    ghost function AbsElems(n: nat): (r: seq<Value>)
      requires Valid() && n <= |elems|
      reads this, Repr
      decreases Repr, n
      ensures |r| == n
    {
      if n == 0 then [] else
        AbsElems(n - 1) + [if elems[n - 1].At? then elems[n - 1].node.Abs() else elems[n - 1].v]
    }
  }

  ghost predicate Whole(r: Ref)
    reads if r.At? then {r.node} else {}
    reads if r.At? then r.node.Repr else {}
  {
    r.At? ==> r.node.Valid()
  }

  ghost function Abs(r: Ref): Value
    requires Whole(r)
    reads if r.At? then {r.node} else {}
    reads if r.At? then r.node.Repr else {}
  {
    if r.At? then r.node.Abs() else r.v
  }

  ghost function Heap(r: Ref): set<object>
    reads if r.At? then {r.node} else {}
  {
    if r.At? then r.node.Repr else {}
  }

  /** deepCopyValue: the same JSON in objects nobody else has. */
  method DeepCopyValue(r: Ref) returns (c: Ref)
    requires Whole(r)
    ensures Whole(c) && Abs(c) == Abs(r)
    ensures fresh(Heap(c))
    decreases Heap(r), 3
  {
    if r.Scalar? {
      c := r;
    } else if r.node.isMap {
      var n := DeepCopyMap(r.node);
      c := At(n);
    } else {
      var n := DeepCopySlice(r.node);
      c := At(n);
    }
  }

  /** `c` lives entirely in `heap`. */
  ghost predicate Within(c: Ref, heap: set<object>)
    reads if c.At? then {c.node} else {}
  {
    c.At? ==> c.node in heap && c.node.Repr <= heap
  }

  /** `c` stands for `v`. */
  ghost predicate StandsFor(c: Ref, v: Value)
    reads if c.At? then {c.node} else {}
    reads if c.At? then c.node.Repr else {}
  {
    Whole(c) && Abs(c) == v
  }

  method DeepCopyMap(m: Node) returns (out: Node)
    requires m.Valid() && m.isMap
    ensures out.Valid() && fresh(out.Repr) && out.Abs() == m.Abs()
    decreases m.Repr, 2
  {
    hide *;
    MapKeys(m);
    ghost var want := m.Abs().fields;
    var copies: map<string, Ref> := map[];
    ghost var heap: set<object> := {};
    NothingCopied(want);
    var keys := m.fields.Keys;
    while keys != {}
      invariant m.Abs() == Dict(want) && fresh(heap) && AllCopied(copies, want, heap)
      invariant keys <= m.fields.Keys && forall x | x in m.fields :: x in keys || x in copies
      decreases |keys|
    {
      var k :| k in keys;
      keys := keys - {k};
      copies, heap := CopyEntry(m, k, copies, want, heap);
    }
    assert copies.Keys == want.Keys by { CopiedKeys(copies, want, heap); }
    out := NewMap(copies, want, heap);
  }

  lemma CopiedKeys(copies: map<string, Ref>, want: map<string, Value>, heap: set<object>)
    requires AllCopied(copies, want, heap) && forall x | x in want :: x in copies
    ensures copies.Keys == want.Keys
  {
  }

  method NewMap(copies: map<string, Ref>, ghost want: map<string, Value>, ghost heap: set<object>) returns (out: Node)
    requires copies.Keys == want.Keys && AllCopied(copies, want, heap)
    ensures fresh(out) && out.Repr == {out} + heap && out.isMap && out.fields == copies
    ensures out.Valid() && out.Abs() == Dict(want)
  {
    hide AllCopied;
    out := new Node(true, copies, [], heap);
    MapIsWhole(out, want, heap);
  }

  lemma MapKeys(m: Node)
    requires m.Valid() && m.isMap
    ensures m.Abs().Dict? && m.Abs().fields.Keys == m.fields.Keys
  {
  }

  /** One entry of a map, added to the copies made so far, which live in `heap`. */
  method CopyEntry(m: Node, k: string, copies: map<string, Ref>, ghost want: map<string, Value>, ghost heap: set<object>)
    returns (more: map<string, Ref>, ghost wider: set<object>)
    requires m.Valid() && m.isMap && k in m.fields && m.Abs() == Dict(want)
    requires AllCopied(copies, want, heap)
    ensures (forall x :: x in more <==> x in copies || x == k) && AllCopied(more, want, wider)
    ensures forall x | x in copies && x != k :: more[x] == copies[x]
    ensures fresh(wider - heap)
    decreases m.Repr, 1
  {
    hide AllCopied;
    MapKeys(m);
    var c := DeepCopyValue(m.fields[k]);
    OneMoreCopied(copies, want, heap, k, c);
    more, wider := copies[k := c], heap + Heap(c);
  }

  /** Every copy made so far stands for its value and lives in `heap`. */
  ghost predicate AllCopied(copies: map<string, Ref>, want: map<string, Value>, heap: set<object>)
    reads heap
  {
    && copies.Keys <= want.Keys
    && (forall k | k in copies && copies[k].At? :: copies[k].node in heap && copies[k].node.Repr <= heap)
    && (forall k | k in copies :: StandsFor(copies[k], want[k]))
  }

  lemma NothingCopied(want: map<string, Value>)
    ensures AllCopied(map[], want, {})
  {
  }

  lemma OneMoreCopied(copies: map<string, Ref>, want: map<string, Value>, heap: set<object>, k: string, c: Ref)
    requires AllCopied(copies, want, heap) && k in want && Whole(c) && Abs(c) == want[k]
    ensures AllCopied(copies[k := c], want, heap + Heap(c))
  {
  }

  lemma MapIsWhole(out: Node, want: map<string, Value>, heap: set<object>)
    requires out.isMap && out.elems == [] && out.Repr == {out} + heap && out !in heap && out.fields.Keys == want.Keys
    requires AllCopied(out.fields, want, heap)
    ensures out.Valid() && out.Abs() == Dict(want)
  {
    assert out.Abs().fields == want;
  }

  method DeepCopySlice(l: Node) returns (out: Node)
    requires l.Valid() && !l.isMap
    ensures out.Valid() && fresh(out.Repr) && out.Abs() == l.Abs()
    decreases l.Repr, 2
  {
    var copies: seq<Ref> := [];
    ghost var want, heap: set<object> := l.AbsElems(|l.elems|), {};
    for n := 0 to |l.elems|
      invariant l.AbsElems(|l.elems|) == want
      invariant fresh(heap) && |copies| == n
      invariant forall i | 0 <= i < n :: Within(copies[i], heap) && StandsFor(copies[i], want[i])
    {
      hide *;
      var c := CopyElem(l, n);
      SliceWithin(copies, heap, c);
      heap := heap + Heap(c);
      copies := copies + [c];
    }
    out := new Node(false, map[], copies, heap);
    SliceIsWhole(out, want, heap);
  }

  /** The copy of one element of a slice. */
  method CopyElem(l: Node, n: nat) returns (c: Ref)
    requires l.Valid() && !l.isMap && n < |l.elems|
    ensures StandsFor(c, l.AbsElems(|l.elems|)[n])
    ensures fresh(Heap(c)) && Within(c, Heap(c))
    decreases l.Repr, 1
  {
    ElemsAt(l, |l.elems|);
    c := DeepCopyValue(l.elems[n]);
  }

  lemma SliceWithin(copies: seq<Ref>, heap: set<object>, c: Ref)
    requires Within(c, Heap(c)) && forall i | 0 <= i < |copies| :: Within(copies[i], heap)
    ensures Within(c, heap + Heap(c)) && forall i | 0 <= i < |copies| :: Within(copies[i], heap + Heap(c))
  {
  }

  lemma SliceIsWhole(out: Node, want: seq<Value>, heap: set<object>)
    requires !out.isMap && out.fields == map[] && out.Repr == {out} + heap && out !in heap && |out.elems| == |want|
    requires forall i | 0 <= i < |want| :: Within(out.elems[i], heap) && StandsFor(out.elems[i], want[i])
    ensures out.Valid() && out.Abs() == List(want)
  {
    ElemsAt(out, |want|);
    assert out.AbsElems(|want|) == want;
  }

  lemma {:induction false} ElemsAt(l: Node, n: nat)
    requires l.Valid() && n <= |l.elems|
    ensures forall i | 0 <= i < n :: Whole(l.elems[i]) && l.AbsElems(n)[i] == Abs(l.elems[i])
  {
    if n > 0 {
      ElemsAt(l, n - 1);
    }
  }

  // --- records ---

  datatype Kind = AnInstance | ABinding

  /** The fields of a record that refer to other objects. */
  function RefFields(kind: Kind): set<string> {
    match kind
    case AnInstance => {"Parameters", "AppliedObjects", "AppliedRefs"}
    case ABinding => {"Parameters", "Credentials", "VolumeMounts"}
  }

  /** A record: these fields may refer to other objects, and no others do. */
  ghost predicate Shaped(kind: Kind, r: Ref)
    reads if r.At? then {r.node} else {}
  {
    && r.At? && r.node.isMap && RefFields(kind) <= r.node.fields.Keys
    && forall k | k in r.node.fields && r.node.fields[k].At? :: k in RefFields(kind)
  }

  /** What assigning a struct copies by itself. */
  function Flat(fields: map<string, Ref>): map<string, Ref> {
    map k | k in fields && fields[k].Scalar? :: fields[k]
  }

  lemma FlatIsCopied(m: Node, want: map<string, Value>)
    requires m.Valid() && m.isMap && m.Abs() == Dict(want)
    ensures AllCopied(Flat(m.fields), want, {})
  {
  }

  /** Copying these three fields copies a record of that shape. */
  lemma NothingIsForgotten(kind: Kind, m: Node, want: map<string, Value>, copies: map<string, Ref>, heap: set<object>)
    requires m.Valid() && Shaped(kind, At(m)) && m.Abs() == Dict(want) && AllCopied(copies, want, heap)
    requires forall k | k in m.fields && k !in RefFields(kind) :: k in copies && copies[k] == m.fields[k]
    requires RefFields(kind) <= copies.Keys
    ensures copies.Keys == want.Keys
    ensures forall k | k in copies && copies[k].At? :: k in RefFields(kind)
  {
    MapKeys(m);
  }

  /** Instance.DeepCopy. */
  method DeepCopyInstance(i: Node) returns (out: Node)
    requires i.Valid() && Shaped(AnInstance, At(i))
    ensures out.Valid() && fresh(out.Repr) && out.Abs() == i.Abs() && Shaped(AnInstance, At(out))
  {
    hide AllCopied, Node.Valid, Node.Abs;
    MapKeys(i);
    ghost var want := i.Abs().fields;
    FlatIsCopied(i, want);
    var copies := Flat(i.fields);
    ghost var heap: set<object> := {};
    copies, heap := CopyEntry(i, "Parameters", copies, want, heap);
    copies, heap := CopyEntry(i, "AppliedObjects", copies, want, heap);
    copies, heap := CopyEntry(i, "AppliedRefs", copies, want, heap);
    NothingIsForgotten(AnInstance, i, want, copies, heap);
    out := NewMap(copies, want, heap);
  }

  /** Binding.DeepCopy. */
  method DeepCopyBinding(b: Node) returns (out: Node)
    requires b.Valid() && Shaped(ABinding, At(b))
    ensures out.Valid() && fresh(out.Repr) && out.Abs() == b.Abs() && Shaped(ABinding, At(out))
  {
    hide AllCopied, Node.Valid, Node.Abs;
    MapKeys(b);
    ghost var want := b.Abs().fields;
    FlatIsCopied(b, want);
    var copies := Flat(b.fields);
    ghost var heap: set<object> := {};
    copies, heap := CopyEntry(b, "Parameters", copies, want, heap);
    copies, heap := CopyEntry(b, "Credentials", copies, want, heap);
    copies, heap := CopyEntry(b, "VolumeMounts", copies, want, heap);
    NothingIsForgotten(ABinding, b, want, copies, heap);
    out := NewMap(copies, want, heap);
  }

  method DeepCopyRecord(kind: Kind, r: Ref) returns (c: Ref)
    requires Whole(r) && Shaped(kind, r)
    ensures Whole(c) && Abs(c) == Abs(r) && fresh(Heap(c)) && Shaped(kind, c)
  {
    hide Shaped;
    ShapedIsAt(kind, r);
    var n: Node;
    match kind {
      case AnInstance => n := DeepCopyInstance(r.node);
      case ABinding => n := DeepCopyBinding(r.node);
    }
    c := At(n);
  }

  lemma ShapedIsAt(kind: Kind, r: Ref)
    requires Shaped(kind, r)
    ensures r.At?
  {
  }

  // --- the store ---

  /** One of the memory store's two maps, the instances or the bindings. */
  class Shelf {
    const kind: Kind
    var records: map<string, Ref>
    ghost var Contents: map<string, Value>
    ghost var Own: set<object>

    /** The stored records are those of `Contents` and live in objects of the store's own. */
    ghost predicate Valid()
      reads this, Own
    {
      this !in Own && records.Keys == Contents.Keys && AllCopied(records, Contents, Own) && AllShaped(kind, records, Own)
    }

    constructor (kind: Kind)
      ensures Valid() && this.kind == kind && Contents == map[] && Own == {}
    {
      this.kind, records, Contents, Own := kind, map[], map[], {};
    }

    /** PutInstance, PutBinding. */
    method Put(id: string, p: Ref)
      requires Valid() && Whole(p) && Shaped(kind, p)
      modifies this
      ensures Valid() && Contents == old(Contents)[id := old(Abs(p))]
      ensures fresh(Own - old(Own))
    {
      hide AllCopied, AllShaped, Shaped;
      ghost var v := Abs(p);
      var c := DeepCopyRecord(kind, p);
      OneMoreStored(records, Contents, Own, id, c, v);
      OneMoreShaped(kind, records, Contents, Own, id, c);
      records := records[id := c];
      Contents, Own := Contents[id := v], Own + Heap(c);
    }

    /** GetInstance, GetBinding. */
    method Get(id: string) returns (r: Option<Ref>)
      requires Valid()
      ensures r.Some? <==> id in Contents
      ensures r.Some? ==> Whole(r.value) && Abs(r.value) == Contents[id] && Shaped(kind, r.value)
      ensures r.Some? ==> fresh(Heap(r.value)) && Heap(r.value) !! Own
    {
      hide *;
      RecordIsThere(this, id);
      if id !in records {
        return None;
      }
      var c := DeepCopyRecord(kind, records[id]);
      r := Some(c);
    }
  }

  lemma RecordIsThere(shelf: Shelf, id: string)
    requires shelf.Valid()
    ensures id in shelf.records <==> id in shelf.Contents
    ensures id in shelf.records ==>
      && Whole(shelf.records[id]) && Abs(shelf.records[id]) == shelf.Contents[id] && Shaped(shelf.kind, shelf.records[id])
  {
  }

  ghost predicate AllShaped(kind: Kind, records: map<string, Ref>, heap: set<object>)
    reads heap
  {
    forall id | id in records :: records[id].At? && records[id].node in heap && Shaped(kind, records[id])
  }

  lemma OneMoreStored(copies: map<string, Ref>, want: map<string, Value>, heap: set<object>, k: string, c: Ref, v: Value)
    requires AllCopied(copies, want, heap) && Whole(c) && Abs(c) == v
    ensures AllCopied(copies[k := c], want[k := v], heap + Heap(c))
  {
  }

  lemma OneMoreShaped(kind: Kind, copies: map<string, Ref>, want: map<string, Value>, heap: set<object>, k: string, c: Ref)
    requires AllShaped(kind, copies, heap) && Whole(c) && Shaped(kind, c)
    ensures AllShaped(kind, copies[k := c], heap + Heap(c))
  {
  }

  /** Go code that writes over a map or a slice. */
  datatype Write = Write(node: Node, fields: map<string, Ref>, elems: seq<Ref>)

  /** Objects of the store's own that nobody wrote to stand for what they stood for. */
  twostate lemma OwnIsUntouched(shelf: Shelf)
    requires old(shelf.Valid()) && unchanged(shelf) && unchanged(shelf.Own)
    ensures shelf.Valid() && shelf.Contents == old(shelf.Contents)
  {
  }

  method WriteAll(shelf: Shelf, writes: seq<Write>)
    requires shelf.Valid() && forall i | 0 <= i < |writes| :: writes[i].node !in shelf.Own
    modifies set i | 0 <= i < |writes| :: writes[i].node
    ensures unchanged(shelf) && shelf.Valid()
  {
    hide *;
    for n := 0 to |writes|
      invariant unchanged(shelf) && unchanged(shelf.Own)
    {
      var w := writes[n];
      w.node.fields, w.node.elems := w.fields, w.elems;
    }
    OwnIsUntouched(shelf);
  }

  /** What a caller does to the record it has put, or to one it was given, does not reach
      the store. It may write over any objects, the record's own at every depth among them,
      except the store's, and the store hands nobody a reference to those. */
  method CallerWritesAfterPut(shelf: Shelf, id: string, p: Ref, writes: seq<Write>, fields: map<string, Ref>) returns (given: Option<Ref>)
    requires shelf.Valid() && Whole(p) && Shaped(shelf.kind, p)
    requires forall i | 0 <= i < |writes| :: writes[i].node !in shelf.Own
    modifies shelf, set i | 0 <= i < |writes| :: writes[i].node
    ensures shelf.Valid() && shelf.Contents == old(shelf.Contents)[id := old(Abs(p))]
    ensures given.Some? && Whole(given.value) && Abs(given.value) == old(Abs(p))
    ensures fresh(Heap(given.value)) && Heap(given.value) !! shelf.Own
  {
    hide *;
    shelf.Put(id, p);
    WriteAll(shelf, writes);
    var first := shelf.Get(id);
    if first.Some? && first.value.At? {
      NodeIsInItsHeap(first.value);
      var overwritten := [Write(first.value.node, fields, [])];
      assert forall i | 0 <= i < |overwritten| :: overwritten[i].node == first.value.node;
      WriteAll(shelf, overwritten);
    }
    given := shelf.Get(id);
  }

  lemma NodeIsInItsHeap(r: Ref)
    requires Whole(r) && r.At?
    ensures r.node in Heap(r)
  {
  }
}
