/** How much interference the three retry loops stand: five attempts of two calls each
    (retry.DefaultRetry in internal/definition/operator.go and internal/broker/crdstate.go). */
module Retries {
  import opened Wrappers
  import opened Json
  import opened Api
  import opened Operator
  import opened Answers
  import C = CrdStore
  import Strangers

  /** No call fails, and from call number `from` on nobody interferes. */
  ghost predicate QuietFrom(env: AnyEnv, from: nat) {
    (forall n: nat :: !env(n).Fault?) && forall n: nat | n >= from :: env(n).Quiet?
  }

  lemma {:induction false} ApplyGetsThrough(env: AnyEnv, s: State, d: Doc, attempts: nat)
    requires attempts > 0 && QuietFrom(env, s.clock + 2 * (attempts - 1))
    requires ValidApiVersion(d.key.apiVersion) && Encodable(Dict(d.content.fields))
    ensures ApplyOne(env, s, d, attempts).result.Ok?
    decreases attempts
  {
    hide ValidApiVersion, Encodable, Stored;
    var got := GetCall(env, s, d.key);
    if got.result.Ok? {
      var put := UpdateCall(env, got.state, d, got.result.value.version);
      if put.result == Err(Conflict) {
        assert attempts > 1;
        ApplyGetsThrough(env, put.state, d, attempts - 1);
      }
    }
  }

  /** Applying a document succeeds although the operator, or anybody who creates the object,
      comes in between before any of the first eight calls, and never makes more than ten. */
  lemma ApplySurvivesFourConflicts(env: AnyEnv, s: State, d: Doc)
    ensures QuietFrom(env, s.clock + 8) && ValidApiVersion(d.key.apiVersion) && Encodable(Dict(d.content.fields)) ==>
      ApplyOne(env, s, d, RETRIES).result.Ok?
    ensures ApplyOne(env, s, d, RETRIES).state.clock <= s.clock + 10
  {
    hide ApplyOne, ValidApiVersion, Encodable, QuietFrom, Strangers.Beaten, Strangers.Ticks;
    if QuietFrom(env, s.clock + 8) && ValidApiVersion(d.key.apiVersion) && Encodable(Dict(d.content.fields)) {
      QuietLater(env, s.clock + 8, s.clock + 2 * (RETRIES - 1));
      ApplyGetsThrough(env, s, d, RETRIES);
    }
    var n := Strangers.ApplyOneIsOneWrite(env, s, d, RETRIES);
    Strangers.TicksMove(env, s, n, n);
  }

  lemma QuietLater(env: AnyEnv, from: nat, later: nat)
    requires QuietFrom(env, from) && from <= later
    ensures QuietFrom(env, later)
  {
  }

  lemma {:induction false} LabelGetsThrough(env: Env, s: State, k: Key, labels: map<string, string>, attempts: nat)
    requires attempts > 0 && QuietFrom(env, s.clock + 2 * (attempts - 1)) && ValidApiVersion(k.apiVersion) && Markable(s, k)
    ensures LabelOne(env, s, k, labels, attempts).result.Ok?
    decreases attempts
  {
    hide ValidApiVersion, Encodable, Stored;
    var got := GetCall(env, s, k);
    var o := got.result.value;
    var put := UpdateCall(env, got.state, Doc(k, o.content.(labels := o.content.labels + labels)), o.version);
    if put.result == Err(Conflict) {
      assert attempts > 1;
      LabelGetsThrough(env, put.state, k, labels, attempts - 1);
    }
  }

  lemma {:induction false} LabelCalls(env: Env, s: State, k: Key, labels: map<string, string>, attempts: nat)
    ensures LabelOne(env, s, k, labels, attempts).state.clock <= s.clock + 2 * attempts
    decreases attempts
  {
    hide Stored, Encodable, ValidApiVersion;
    if attempts > 0 {
      var got := GetCall(env, s, k);
      if got.result.Ok? {
        var o := got.result.value;
        LabelCalls(env, UpdateCall(env, got.state, Doc(k, o.content.(labels := o.content.labels + labels)), o.version).state, k, labels, attempts - 1);
      }
    }
  }

  /** So does labelling an object that is there. */
  lemma LabelSurvivesFourConflicts(env: Env, s: State, k: Key, labels: map<string, string>)
    ensures QuietFrom(env, s.clock + 8) && ValidApiVersion(k.apiVersion) && Markable(s, k) ==> LabelOne(env, s, k, labels, RETRIES).result.Ok?
    ensures LabelOne(env, s, k, labels, RETRIES).state.clock <= s.clock + 10
  {
    hide LabelOne, ValidApiVersion, Markable, QuietFrom;
    if QuietFrom(env, s.clock + 8) && ValidApiVersion(k.apiVersion) && Markable(s, k) {
      QuietLater(env, s.clock + 8, s.clock + 2 * (RETRIES - 1));
      LabelGetsThrough(env, s, k, labels, RETRIES);
    }
    LabelCalls(env, s, k, labels, RETRIES);
  }

  /** No call fails and nothing is removed; from call number `from` on nobody annotates. */
  ghost predicate StillFrom(env: C.CrEnv, from: nat) {
    (forall n: nat :: env(n).Still? || env(n).Annotate?) && forall n: nat | n >= from :: env(n).Still?
  }

  lemma {:induction false} PutGetsThrough(env: C.CrEnv, s: C.CrState, k: C.CrKey, initial: map<string, string>, merged: map<string, string>, body: C.Body, attempts: nat)
    requires attempts > 0 && StillFrom(env, s.clock + 2 * (attempts - 1))
    ensures C.PutCr(env, s, k, initial, merged, body, attempts).result.Ok?
    decreases attempts
  {
    var got := C.CrGet(env, s, k);
    if got.result.Ok? {
      var cr := got.result.value;
      var put := C.CrUpdate(env, got.state, k, cr.(body := body, labels := cr.labels + merged));
      if put.result == Err(Conflict) {
        assert attempts > 1;
        PutGetsThrough(env, put.state, k, initial, merged, body, attempts - 1);
      }
    }
  }

  lemma {:induction false} PutCalls(env: C.CrEnv, s: C.CrState, k: C.CrKey, initial: map<string, string>, merged: map<string, string>, body: C.Body, attempts: nat)
    ensures C.PutCr(env, s, k, initial, merged, body, attempts).state.clock <= s.clock + 2 * attempts
    decreases attempts
  {
    hide C.Act;
    if attempts > 0 {
      var got := C.CrGet(env, s, k);
      if got.result.Ok? {
        var cr := got.result.value;
        PutCalls(env, C.CrUpdate(env, got.state, k, cr.(body := body, labels := cr.labels + merged)).state, k, initial, merged, body, attempts - 1);
      }
    }
  }

  /** So do the writes of the store. */
  lemma PutSurvivesFourConflicts(env: C.CrEnv, s: C.CrState, k: C.CrKey, initial: map<string, string>, merged: map<string, string>, body: C.Body)
    ensures StillFrom(env, s.clock + 8) ==> C.PutCr(env, s, k, initial, merged, body, C.CR_RETRIES).result.Ok?
    ensures C.PutCr(env, s, k, initial, merged, body, C.CR_RETRIES).state.clock <= s.clock + 10
  {
    hide C.PutCr, StillFrom;
    if StillFrom(env, s.clock + 8) {
      StillLater(env, s.clock + 8, s.clock + 2 * (C.CR_RETRIES - 1));
      PutGetsThrough(env, s, k, initial, merged, body, C.CR_RETRIES);
    }
    PutCalls(env, s, k, initial, merged, body, C.CR_RETRIES);
  }

  lemma StillLater(env: C.CrEnv, from: nat, later: nat)
    requires StillFrom(env, from) && from <= later
    ensures StillFrom(env, later)
  {
  }
}
