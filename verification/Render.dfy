/** Overlaying parameters and rendering the provision template
    (internal/definition/render.go). */
module Render {
  import opened Json

  /** A Go map of parameters: a reference that several holders may share. */
  class GoMap {
    var m: Params

    constructor ()
      ensures m == map[]
    {
      m := map[];
    }
  }

  /** The contents behind a possibly nil map. */
  function Contents(g: GoMap?): Params
    reads g
  {
    if g == null then map[] else g.m
  }

  /** What overlay means on contents: the sent keys win, the others stay. */
  function Overlay(base: Params, over: Params): Params {
    base + over
  }

  /** `out` is `was` with the entries of `over` outside `keys` put in. */
  ghost predicate CopiedSoFar(was: Params, over: Params, keys: set<string>, out: Params) {
    && (forall k :: k in out <==> k in was || (k in over && k !in keys))
    && (forall k | k in out :: out[k] == if k in over && k !in keys then over[k] else was[k])
  }

  lemma NothingCopied(was: Params, over: Params)
    ensures CopiedSoFar(was, over, over.Keys, was)
  {
  }

  lemma CopyOneMore(was: Params, over: Params, keys: set<string>, out: Params, k: string)
    requires CopiedSoFar(was, over, keys, out) && k in keys && k in over
    ensures CopiedSoFar(was, over, keys - {k}, out[k := over[k]])
  {
  }

  lemma CopiedAll(was: Params, over: Params, out: Params)
    requires CopiedSoFar(was, over, {}, out)
    ensures out == Overlay(was, over)
  {
  }

  /** One of overlay's two copying loops. */
  method CopyInto(dst: GoMap, src: GoMap)
    requires dst != src
    modifies dst
    ensures dst.m == Overlay(old(dst.m), src.m)
  {
    hide CopiedSoFar, Overlay;
    ghost var was := dst.m;
    NothingCopied(was, src.m);
    var keys := src.m.Keys;
    while keys != {}
      invariant keys <= src.m.Keys
      invariant CopiedSoFar(was, src.m, keys, dst.m)
      decreases |keys|
    {
      var k :| k in keys;
      CopyOneMore(was, src.m, keys, dst.m, k);
      keys := keys - {k};
      dst.m := dst.m[k := src.m[k]];
    }
    CopiedAll(was, src.m, dst.m);
  }

  /** overlay. The result is a map of its own (or nil when both are empty), so writing
      to it later can never reach the loaded definition or the stored record; neither
      argument is written to, since there is no modifies clause. */
  method OverlayMaps(base: GoMap?, over: GoMap?) returns (out: GoMap?)
    ensures Contents(out) == Overlay(Contents(base), Contents(over))
    ensures out == null <==> Contents(base) == map[] && Contents(over) == map[]
    ensures out != null ==> fresh(out)
  {
    if |Contents(base)| == 0 && |Contents(over)| == 0 {
      return null;
    }
    var made := new GoMap();
    if base != null {
      CopyInto(made, base);
    }
    if over != null {
      CopyInto(made, over);
    }
    out := made;
  }

  /** Left-to-right overlay of a list of parameter sets. */
  function OverlayList(sets: seq<Params>): Params {
    if sets == [] then map[] else Overlay(OverlayList(sets[..|sets| - 1]), sets[|sets| - 1])
  }

  /** Overlaying is associative, so merging a PATCH into the stored parameters and merging
      all PATCHes first come to the same; sending the same PATCH twice adds nothing. */
  lemma OverlayLaws(a: Params, b: Params, c: Params)
    ensures Overlay(Overlay(a, b), c) == Overlay(a, Overlay(b, c))
    ensures Overlay(Overlay(a, b), b) == Overlay(a, b)
    ensures Overlay(a, map[]) == a && Overlay(map[], a) == a
  {
  }

  /** The dot available inside a template. */
  datatype TemplateData = TemplateData(instanceId: string, safeName: string, plan: Params, parameters: Params)
}
