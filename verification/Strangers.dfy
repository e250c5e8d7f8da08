/** Applying a manifest while others create objects too (ApplyManifestRefs in
    internal/definition/operator.go): a create that finds the object already there counts as
    success, and nothing has been written. */
module Strangers {
  import opened Wrappers
  import opened Json
  import opened Api
  import opened Operator
  import opened OperatorProofs

  /** What the others alone have made of the cluster by the time of the broker's n-th call. */
  function Ticks(env: AnyEnv, s: State, n: nat): State {
    if n == 0 then s else Tick(env, Ticks(env, s, n - 1))
  }

  lemma {:induction false} TicksAdd(env: AnyEnv, s: State, m: nat, n: nat)
    ensures Ticks(env, Ticks(env, s, m), n) == Ticks(env, s, m + n)
  {
    if n > 0 {
      TicksAdd(env, s, m, n - 1);
    }
  }

  lemma {:induction false} TicksMove(env: AnyEnv, s: State, m: nat, n: nat)
    requires m <= n
    ensures Ticks(env, s, n).clock == s.clock + n
    ensures forall k | k in Ticks(env, s, m).objects ::
      && k in Ticks(env, s, n).objects && Ticks(env, s, n).objects[k].content == Ticks(env, s, m).objects[k].content
  {
    if n > m {
      TicksMove(env, s, m, n - 1);
    } else if n > 0 {
      TicksMove(env, s, m - 1, n - 1);
    }
  }

  /** Just before the n-th call somebody else created the object. */
  predicate Beaten(env: AnyEnv, s: State, k: Key, n: nat) {
    n > 0 && env(s.clock + n - 1).Appear? && env(s.clock + n - 1).key == k && k !in Ticks(env, s, n - 1).objects
  }

  lemma NotBeatenOnceThere(env: AnyEnv, s: State, k: Key, m: nat, n: nat)
    requires k in Ticks(env, s, m).objects && m < n
    ensures !Beaten(env, s, k, n)
  {
    TicksMove(env, s, m, n - 1);
  }

  lemma BeatenByAppearing(env: AnyEnv, s: State, k: Key, n: nat)
    requires n > 0 && k !in Ticks(env, s, n - 1).objects
    ensures Beaten(env, s, k, n) <==> k in Ticks(env, s, n).objects
    ensures Beaten(env, s, k, n) ==> Ticks(env, s, n).objects[k].content == env(s.clock + n - 1).content
  {
    TicksMove(env, s, n - 1, n - 1);
  }

  /** The document written over what the others have left: status and uid of an object that
      was there stay. */
  function Put(u: State, d: Doc): Obj {
    if d.key in u.objects then u.objects[d.key].(content := Stored(d.content), version := u.next)
    else Obj(Stored(d.content), Null, u.next, u.next)
  }

  /** Whatever others do, applying a document is one write at its last call, on top of all
      they have done by then, or no write at all. There is none if it fails, and none if
      somebody else created the object just before that call. */
  lemma {:induction false} ApplyOneIsOneWrite(env: AnyEnv, s: State, d: Doc, attempts: nat) returns (n: nat)
    ensures var r := ApplyOne(env, s, d, attempts);
      var u := Ticks(env, s, n);
      if r.result.Err? || Beaten(env, s, d.key, n) then r.state == u
      else r.state == State(u.objects[d.key := Put(u, d)], u.clock, u.next + 1)
    ensures ApplyOne(env, s, d, attempts).result.Ok? ==> Encodable(Dict(d.content.fields))
                                                         || Beaten(env, s, d.key, n)
    ensures n <= 2 * attempts
    decreases attempts
  {
    hide Stored, Encodable, ValidApiVersion, Tick, Beaten;
    n := 0;
    assert Ticks(env, s, 0) == s && !Beaten(env, s, d.key, 0) by { NeverBeatenAtOnce(env, s, d.key); }
    if attempts > 0 {
      var got := GetCall(env, s, d.key);
      n := 1;
      assert Ticks(env, s, 1) == Tick(env, Ticks(env, s, 0)) == got.state;
      TicksMove(env, s, 1, 1);
      if got.result.Ok? {
        n := 2;
        assert Ticks(env, s, 2) == Tick(env, got.state);
        NotBeatenOnceThere(env, s, d.key, 1, 2);
        var put := UpdateCall(env, got.state, d, got.result.value.version);
        if put.result == Err(Conflict) {
          var more := ApplyOneIsOneWrite(env, put.state, d, attempts - 1);
          TicksAdd(env, s, 2, more);
          TicksMove(env, s, 1, 2);
          NotBeatenOnceThere(env, s, d.key, 1, 2 + more);
          if more == 0 {
            NeverBeatenAtOnce(env, put.state, d.key);
          } else {
            NotBeatenOnceThere(env, put.state, d.key, 0, more);
          }
          n := 2 + more;
        }
      } else if got.result == Err(NotFound) {
        n := 2;
        assert Ticks(env, s, 2) == Tick(env, got.state);
        BeatenByAppearing(env, s, d.key, 2);
      }
    }
  }

  lemma NeverBeatenAtOnce(env: AnyEnv, s: State, k: Key)
    ensures !Beaten(env, s, k, 0)
  {
  }

  /** When a success carries the document: exactly when nobody else created the object just
      before the broker would have, or what they created carries it anyway. */
  lemma SuccessCarriesIff(env: AnyEnv, s: State, d: Doc, attempts: nat) returns (n: nat)
    requires ApplyOne(env, s, d, attempts).result.Ok?
    ensures var t := ApplyOne(env, s, d, attempts).state;
      && t.clock == s.clock + n && d.key in t.objects
      && (Beaten(env, s, d.key, n) ==> t.objects[d.key].content == env(t.clock - 1).content)
      && (Carries(t.objects[d.key].content, d.content)
          <==> !Beaten(env, s, d.key, n) || Carries(env(t.clock - 1).content, d.content))
  {
    hide ApplyOne, Carries, Stored, Beaten;
    n := ApplyOneIsOneWrite(env, s, d, attempts);
    TicksMove(env, s, n, n);
    if Beaten(env, s, d.key, n) {
      BeatenIsTheirs(env, s, d.key, n);
    } else {
      StoredCarries(d.content);
    }
  }

  lemma BeatenIsTheirs(env: AnyEnv, s: State, k: Key, n: nat)
    requires Beaten(env, s, k, n)
    ensures k in Ticks(env, s, n).objects && Ticks(env, s, n).objects[k].content == env(s.clock + n - 1).content
  {
    BeatenByAppearing(env, s, k, n);
  }

  /** It happens: the object that somebody else puts there between the read and the create
      stays as it is, and success is reported. */
  lemma BeatenIsReportedAsSuccess(s: State, d: Doc, c: Content)
    requires d.key !in s.objects && ValidApiVersion(d.key.apiVersion) && Encodable(Dict(d.content.fields))
    ensures var env: AnyEnv := n => if n == s.clock + 1 then Appear(d.key, c) else Quiet;
      var r := ApplyOne(env, s, d, RETRIES);
      r.result.Ok? && d.key in r.state.objects && r.state.objects[d.key].content == c
  {
    hide Encodable, ValidApiVersion;
  }

  /** Somebody else created the object at one of the calls from `from` to `to`. */
  ghost predicate Appeared(env: AnyEnv, k: Key, c: Content, from: nat, to: nat) {
    exists n: nat :: from <= n < to && env(n) == Appear(k, c)
  }

  /** What a manifest that was applied without an error leaves at each of its objects: its
      document, or what somebody else created there meanwhile. */
  ghost predicate CarriedOrTheirs(env: AnyEnv, from: nat, t: State, d: Doc) {
    && d.key in t.objects
    && (Carries(t.objects[d.key].content, d.content) || Appeared(env, d.key, t.objects[d.key].content, from, t.clock))
  }

  lemma {:induction false} AppliedOrTheirs(env: AnyEnv, s: State, docs: seq<Doc>)
    requires Distinct(Keys(docs)) && ApplyAll(env, s, docs).error.None?
    ensures s.clock <= ApplyAll(env, s, docs).state.clock
    ensures forall i | 0 <= i < |docs| :: CarriedOrTheirs(env, s.clock, ApplyAll(env, s, docs).state, docs[i])
  {
    hide ApplyOne, Carries, CarriedOrTheirs;
    if docs != [] {
      var m := |docs| - 1;
      var before, d := ApplyAll(env, s, docs[..m]).state, docs[m];
      assert forall i | 0 <= i < m :: Keys(docs)[i] == Keys(docs[..m])[i];
      AppliedOrTheirs(env, s, docs[..m]);
      var after := ApplyOne(env, before, d, RETRIES).state;
      OneMoreCarried(env, s.clock, before, d);
      forall i | 0 <= i < m ensures CarriedOrTheirs(env, s.clock, after, docs[i]) {
        assert docs[..m][i] == docs[i] && Keys(docs)[i] != Keys(docs)[m];
        StaysCarried(env, s.clock, before, d, docs[i]);
      }
    }
  }

  lemma OneMoreCarried(env: AnyEnv, from: nat, s: State, d: Doc)
    requires from <= s.clock && ApplyOne(env, s, d, RETRIES).result.Ok?
    ensures s.clock <= ApplyOne(env, s, d, RETRIES).state.clock
    ensures CarriedOrTheirs(env, from, ApplyOne(env, s, d, RETRIES).state, d)
  {
    hide ApplyOne, Carries;
    var n := SuccessCarriesIff(env, s, d, RETRIES);
    var t := ApplyOne(env, s, d, RETRIES).state;
    if Beaten(env, s, d.key, n) {
      assert env(t.clock - 1) == Appear(d.key, t.objects[d.key].content);
    }
  }

  lemma StaysCarried(env: AnyEnv, from: nat, s: State, d: Doc, other: Doc)
    requires from <= s.clock && other.key != d.key && CarriedOrTheirs(env, from, s, other)
    ensures CarriedOrTheirs(env, from, ApplyOne(env, s, d, RETRIES).state, other)
  {
    hide ApplyOne, Carries, Beaten, Stored;
    var n := ApplyOneIsOneWrite(env, s, d, RETRIES);
    TicksMove(env, s, 0, n);
    var t := ApplyOne(env, s, d, RETRIES).state;
    assert t.objects[other.key].content == s.objects[other.key].content;
    if Appeared(env, other.key, s.objects[other.key].content, from, s.clock) {
      var m: nat :| from <= m < s.clock && env(m) == Appear(other.key, s.objects[other.key].content);
      assert env(m) == Appear(other.key, t.objects[other.key].content);
    }
  }
}
