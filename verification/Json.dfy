/** The dynamic values that parameters, manifests and credentials are made of
    (Go's `interface{}`), and the comparison the broker uses on them. */
module Json {

  /** `Unencodable` stands for anything encoding/json refuses, such as a NaN. */
  datatype Value =
    | Null
    | Bool(b: bool)
    | Int(n: int)
    | Float(r: real)
    | Str(s: string)
    | List(elems: seq<Value>)
    | Dict(fields: map<string, Value>)
    | Unencodable

  type Params = map<string, Value>

  predicate Encodable(v: Value) {
    match v
    case Unencodable => false
    case List(es) => forall i | 0 <= i < |es| :: Encodable(es[i])
    case Dict(fs) => forall k | k in fs :: Encodable(fs[k])
    case _ => true
  }

  /** What a JSON round trip makes of a value: every number comes back as a float. */
  function Normal(v: Value): Value {
    match v
    case Int(n) => Float(n as real)
    case List(es) => List(seq(|es|, i requires 0 <= i < |es| => Normal(es[i])))
    case Dict(fs) => Dict(map k | k in fs :: Normal(fs[k]))
    case _ => v
  }

  /** valuesEqual: compare after normalising; what cannot be encoded is never equal. */
  predicate ValuesEqual(a: Value, b: Value) {
    Encodable(a) && Encodable(b) && Normal(a) == Normal(b)
  }

  /** ParamsEqual: no parameters and empty parameters are the same thing. */
  predicate ParamsEqual(a: Params, b: Params) {
    (|a| == 0 && |b| == 0) || ValuesEqual(Dict(a), Dict(b))
  }

  /** An independent reading of "the same JSON": same shape, numbers compared by
      value whatever their representation. Nothing is normalised here. */
  predicate SameJson(a: Value, b: Value) {
    match a
    case Null => b.Null?
    case Bool(x) => b == Bool(x)
    case Str(x) => b == Str(x)
    case Int(m) => (b.Int? && b.n == m) || (b.Float? && b.r == m as real)
    case Float(x) => (b.Float? && b.r == x) || (b.Int? && b.n as real == x)
    case List(xs) =>
      b.List? && |xs| == |b.elems| && forall i | 0 <= i < |xs| :: SameJson(xs[i], b.elems[i])
    case Dict(fs) =>
      b.Dict? && fs.Keys == b.fields.Keys && forall k | k in fs :: SameJson(fs[k], b.fields[k])
    case Unencodable => false
  }

  lemma ListsEqualPointwise(xs: seq<Value>, ys: seq<Value>)
    ensures ValuesEqual(List(xs), List(ys)) <==> |xs| == |ys| && forall i | 0 <= i < |xs| :: ValuesEqual(xs[i], ys[i])
  {
    var nx, ny := Normal(List(xs)).elems, Normal(List(ys)).elems;
    assert |nx| == |xs| && |ny| == |ys|;
    assert forall i | 0 <= i < |xs| :: nx[i] == Normal(xs[i]);
    assert forall i | 0 <= i < |ys| :: ny[i] == Normal(ys[i]);
    if |xs| == |ys| && forall i | 0 <= i < |xs| :: ValuesEqual(xs[i], ys[i]) {
      assert nx == ny;
      assert Encodable(List(xs)) && Encodable(List(ys));
    }
  }

  lemma DictsEqualPointwise(f: Params, g: Params)
    ensures ValuesEqual(Dict(f), Dict(g)) <==> f.Keys == g.Keys && forall k | k in f :: ValuesEqual(f[k], g[k])
  {
    var nf, ng := Normal(Dict(f)).fields, Normal(Dict(g)).fields;
    assert nf.Keys == f.Keys && ng.Keys == g.Keys;
    assert forall k | k in f :: nf[k] == Normal(f[k]);
    assert forall k | k in g :: ng[k] == Normal(g[k]);
    if f.Keys == g.Keys && forall k | k in f :: ValuesEqual(f[k], g[k]) {
      assert nf == ng;
      assert Encodable(Dict(f)) && Encodable(Dict(g));
    }
  }

  /** Normalising and comparing decides exactly structural sameness with numeric
      equality on numbers. */
  lemma {:induction false} ValuesEqualDecidesSameJson(a: Value, b: Value)
    ensures ValuesEqual(a, b) <==> SameJson(a, b)
    decreases a
  {
    match a
    case List(xs) =>
      if b.List? {
        ListsEqualPointwise(xs, b.elems);
        forall i | 0 <= i < |xs| && |xs| == |b.elems| ensures ValuesEqual(xs[i], b.elems[i]) <==> SameJson(xs[i], b.elems[i]) {
          ValuesEqualDecidesSameJson(xs[i], b.elems[i]);
        }
      }
    case Dict(fs) =>
      if b.Dict? {
        DictsEqualPointwise(fs, b.fields);
        forall k | k in fs && k in b.fields ensures ValuesEqual(fs[k], b.fields[k]) <==> SameJson(fs[k], b.fields[k]) {
          ValuesEqualDecidesSameJson(fs[k], b.fields[k]);
        }
      }
    case _ =>
  }

  /** The comparison is an equivalence on everything that can be encoded, and
      reflexive nowhere else. */
  lemma ValuesEqualIsAnEquivalence(a: Value, b: Value, c: Value)
    ensures ValuesEqual(a, a) <==> Encodable(a)
    ensures ValuesEqual(a, b) ==> ValuesEqual(b, a)
    ensures ValuesEqual(a, b) && ValuesEqual(b, c) ==> ValuesEqual(a, c)
    ensures forall n: int, r: real :: ValuesEqual(Int(n), Float(r)) <==> n as real == r
  {
    forall n: int, r: real ensures ValuesEqual(Int(n), Float(r)) <==> n as real == r {
      ValuesEqualDecidesSameJson(Int(n), Float(r));
    }
  }

  lemma {:induction false} NormalIsIdempotent(v: Value)
    ensures Normal(Normal(v)) == Normal(v)
    ensures Encodable(Normal(v)) <==> Encodable(v)
  {
    match v
    case List(es) =>
      forall i | 0 <= i < |es| ensures Normal(Normal(es[i])) == Normal(es[i]) && (Encodable(Normal(es[i])) <==> Encodable(es[i])) {
        NormalIsIdempotent(es[i]);
      }
      var n := Normal(v).elems;
      assert forall i | 0 <= i < |es| :: n[i] == Normal(es[i]);
      assert Normal(Normal(v)).elems == n;
    case Dict(fs) =>
      forall k | k in fs ensures Normal(Normal(fs[k])) == Normal(fs[k]) && (Encodable(Normal(fs[k])) <==> Encodable(fs[k])) {
        NormalIsIdempotent(fs[k]);
      }
      var n := Normal(v).fields;
      assert n.Keys == fs.Keys && forall k | k in fs :: n[k] == Normal(fs[k]);
      assert Normal(Normal(v)).fields == n;
    case _ =>
  }

  /** How the API server hands a stored value back: a whole number comes back as
      an int64 even when it was sent as a float. */
  function Served(v: Value): Value {
    match v
    case Float(x) => if x == x.Floor as real then Int(x.Floor) else v
    case List(es) => List(seq(|es|, i requires 0 <= i < |es| => Served(es[i])))
    case Dict(fs) => Dict(map k | k in fs :: Served(fs[k]))
    case _ => v
  }

  lemma {:induction false} ServedKeepsEncodable(v: Value)
    ensures Encodable(Served(v)) <==> Encodable(v)
  {
    match v
    case List(es) =>
      var s := Served(v).elems;
      forall i | 0 <= i < |es| ensures Encodable(s[i]) <==> Encodable(es[i]) {
        assert s[i] == Served(es[i]);
        ServedKeepsEncodable(es[i]);
      }
    case Dict(fs) =>
      var s := Served(v).fields;
      forall k | k in fs ensures Encodable(s[k]) <==> Encodable(fs[k]) {
        assert s[k] == Served(fs[k]);
        ServedKeepsEncodable(fs[k]);
      }
    case _ =>
  }

  lemma {:induction false} ServedKeepsNormal(v: Value)
    ensures Normal(Served(v)) == Normal(v)
  {
    match v
    case List(es) =>
      var s := Served(v).elems;
      forall i | 0 <= i < |es| ensures Normal(s[i]) == Normal(es[i]) {
        assert s[i] == Served(es[i]);
        ServedKeepsNormal(es[i]);
      }
      assert Normal(Served(v)).elems == Normal(v).elems;
    case Dict(fs) =>
      var s := Served(v).fields;
      forall k | k in fs ensures Normal(s[k]) == Normal(fs[k]) {
        assert s[k] == Served(fs[k]);
        ServedKeepsNormal(fs[k]);
      }
      assert Normal(Served(v)).fields == Normal(v).fields;
    case _ =>
  }

  /** The server changes representations, never JSON content. */
  lemma ServedIsTheSameJson(v: Value)
    ensures ValuesEqual(Served(v), v) <==> Encodable(v)
  {
    ServedKeepsEncodable(v);
    ServedKeepsNormal(v);
  }

  lemma {:induction false} ServedIsIdempotent(v: Value)
    ensures Served(Served(v)) == Served(v)
  {
    match v
    case List(es) =>
      var s := Served(v).elems;
      assert |s| == |es| && forall i | 0 <= i < |es| :: s[i] == Served(es[i]);
      forall i | 0 <= i < |es| ensures Served(s[i]) == s[i] {
        ServedIsIdempotent(es[i]);
      }
      assert Served(Served(v)).elems == s;
    case Dict(fs) =>
      var s := Served(v).fields;
      assert s.Keys == fs.Keys && forall k | k in fs :: s[k] == Served(fs[k]);
      forall k | k in fs ensures Served(s[k]) == s[k] {
        ServedIsIdempotent(fs[k]);
      }
      assert Served(Served(v)).fields == s;
    case _ =>
  }
}
