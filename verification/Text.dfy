/** The few string operations of Go's `strings` package that the broker relies on. */
module Text {

  predicate HasPrefix(s: string, p: string) {
    |p| <= |s| && forall i | 0 <= i < |p| :: s[i] == p[i]
  }

  /** The two sets of characters the broker trims. */
  datatype CutSet = Dashes | Spaces

  /** unicode.IsSpace. */
  predicate IsSpace(c: char) {
    || '\t' <= c <= '\r' || c == ' ' || c == '\U{0085}' || c == '\U{00A0}'
    || c == '\U{1680}' || '\U{2000}' <= c <= '\U{200A}'
    || c == '\U{2028}' || c == '\U{2029}' || c == '\U{202F}' || c == '\U{205F}' || c == '\U{3000}'
  }

  predicate Cuts(set_: CutSet, c: char) {
    match set_
    case Dashes => c == '-'
    case Spaces => IsSpace(c)
  }

  /** The first position from `lo` on that is not cut. */
  function First(s: string, cut: CutSet, lo: nat): (r: nat)
    requires lo <= |s|
    ensures lo <= r <= |s|
    decreases |s| - lo
  {
    if lo < |s| && Cuts(cut, s[lo]) then First(s, cut, lo + 1) else lo
  }

  lemma FirstIsFirst(s: string, cut: CutSet, lo: nat)
    requires lo <= |s|
    ensures var r := First(s, cut, lo);
      (r < |s| ==> !Cuts(cut, s[r])) && forall i | lo <= i < r :: Cuts(cut, s[i])
    decreases |s| - lo
  {
  }

  /** The end of what remains of s[lo..hi] once its tail is cut. */
  function Last(s: string, cut: CutSet, lo: nat, hi: nat): (r: nat)
    requires lo <= hi <= |s|
    ensures lo <= r <= hi
  {
    if lo < hi && Cuts(cut, s[hi - 1]) then Last(s, cut, lo, hi - 1) else hi
  }

  lemma LastIsLast(s: string, cut: CutSet, lo: nat, hi: nat)
    requires lo <= hi <= |s|
    ensures var r := Last(s, cut, lo, hi);
      (lo < r ==> !Cuts(cut, s[r - 1])) && forall i | r <= i < hi :: Cuts(cut, s[i])
  {
  }

  /** strings.Trim and strings.TrimSpace. */
  function Trim(s: string, cut: CutSet): string {
    var lo := First(s, cut, 0);
    s[lo..Last(s, cut, lo, |s|)]
  }

  predicate Trimmed(s: string, cut: CutSet) {
    s != "" ==> !Cuts(cut, s[0]) && !Cuts(cut, s[|s| - 1])
  }

  /** Trimming yields a trimmed string, and leaves a trimmed string alone. */
  lemma TrimIsProjection(s: string, cut: CutSet)
    ensures Trimmed(Trim(s, cut), cut)
    ensures Trimmed(s, cut) ==> Trim(s, cut) == s
    ensures Trim(s, cut) == "" <==> forall i | 0 <= i < |s| :: Cuts(cut, s[i])
  {
    FirstIsFirst(s, cut, 0);
    LastIsLast(s, cut, First(s, cut, 0), |s|);
  }

  /** A trimmed string comes back when it is padded with cut characters in front. */
  lemma TrimPadded(pre: string, s: string, cut: CutSet)
    requires Trimmed(s, cut) && s != ""
    requires forall i | 0 <= i < |pre| :: Cuts(cut, pre[i])
    ensures Trim(pre + s, cut) == s
  {
    var t := pre + s;
    FirstIsFirst(t, cut, 0);
    LastIsLast(t, cut, First(t, cut, 0), |t|);
    assert t[|pre|] == s[0] && t[|t| - 1] == s[|s| - 1];
    assert forall i | 0 <= i < |pre| :: t[i] == pre[i];
  }
}
