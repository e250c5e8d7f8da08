/** Slicing a rendered multi-document manifest (SplitManifests in
    internal/definition/render.go). */
module Manifests {
  import opened Text

  const SEPARATOR := "\n---"

  predicate SeparatorAt(s: string, i: int) {
    0 <= i && i + 4 <= |s| && s[i] == '\n' && s[i + 1] == '-' && s[i + 2] == '-' && s[i + 3] == '-'
  }

  ghost predicate SeparatorFree(s: string) {
    forall i: int :: !SeparatorAt(s, i)
  }

  /** The position of the first separator, or |s|. */
  function FirstSeparator(s: string): (i: nat)
    ensures i <= |s|
    ensures i < |s| ==> SeparatorAt(s, i)
    decreases |s|
  {
    if SeparatorAt(s, 0) then 0
    else if s == "" then 0
    else FirstSeparator(s[1..]) + 1
  }

  lemma FirstSeparatorIsFirst(s: string, j: int)
    requires SeparatorAt(s, j)
    ensures FirstSeparator(s) <= j
    decreases |s|
  {
    if j > 0 {
      FirstSeparatorIsFirst(s[1..], j - 1);
    }
  }

  /** strings.Split(s, "\n---"). */
  function Split(s: string): (parts: seq<string>)
    ensures |parts| > 0
    decreases |s|
  {
    var i := FirstSeparator(s);
    if i == |s| then [s] else [s[..i]] + Split(s[i + 4..])
  }

  /** What one part contributes: nothing when it is blank. */
  function Kept(part: string): seq<string> {
    var d := Trim(part, Spaces);
    if d == "" then [] else [d]
  }

  function Keep(parts: seq<string>): seq<string> {
    if parts == [] then [] else Keep(parts[..|parts| - 1]) + Kept(parts[|parts| - 1])
  }

  function Documents(s: string): seq<string> {
    Keep(Split(s))
  }

  /** SplitManifests: blank documents are dropped, the others are trimmed. */
  method SplitManifests(s: string) returns (docs: seq<string>)
    ensures docs == Documents(s)
  {
    docs := KeepDocuments(Split(s));
  }

  method KeepDocuments(parts: seq<string>) returns (docs: seq<string>)
    ensures docs == Keep(parts)
  {
    docs := [];
    for n := 0 to |parts|
      invariant docs == Keep(parts[..n])
    {
      assert parts[..n + 1][..n] == parts[..n];
      var d := Trim(parts[n], Spaces);
      if d != "" {
        docs := docs + [d];
      }
    }
    assert parts[..|parts|] == parts;
  }

  ghost predicate CleanDocument(d: string) {
    d != "" && Trimmed(d, Spaces) && SeparatorFree(d)
  }

  lemma {:induction false} SplitPartsAreSeparatorFree(s: string)
    ensures forall p | p in Split(s) :: SeparatorFree(p)
    decreases |s|
  {
    var i := FirstSeparator(s);
    if i < |s| {
      var head := s[..i];
      forall j: int ensures !SeparatorAt(head, j) {
        if SeparatorAt(s, j) { FirstSeparatorIsFirst(s, j); }
      }
      SplitPartsAreSeparatorFree(s[i + 4..]);
    } else {
      forall j: int ensures !SeparatorAt(s, j) {
        if SeparatorAt(s, j) { FirstSeparatorIsFirst(s, j); }
      }
    }
  }

  lemma SubstringIsSeparatorFree(s: string, lo: nat, hi: nat)
    requires SeparatorFree(s) && lo <= hi <= |s|
    ensures SeparatorFree(s[lo..hi])
  {
    forall j: int ensures !SeparatorAt(s[lo..hi], j) {
      assert !SeparatorAt(s, lo + j);
    }
  }

  lemma TrimmedPartIsClean(p: string)
    requires SeparatorFree(p) && Trim(p, Spaces) != ""
    ensures CleanDocument(Trim(p, Spaces))
  {
    TrimIsProjection(p, Spaces);
    var lo := First(p, Spaces, 0);
    SubstringIsSeparatorFree(p, lo, Last(p, Spaces, lo, |p|));
  }

  lemma {:induction false} KeepIsClean(parts: seq<string>)
    requires forall p | p in parts :: SeparatorFree(p)
    ensures forall d | d in Keep(parts) :: CleanDocument(d)
  {
    if parts != [] {
      var last := parts[|parts| - 1];
      if Trim(last, Spaces) != "" {
        TrimmedPartIsClean(last);
      }
      KeepIsClean(parts[..|parts| - 1]);
    }
  }

  /** Whatever the template rendered, every document handed on is non-empty, trimmed and
      holds no separator. */
  lemma EveryDocumentIsClean(s: string)
    ensures forall d | d in Documents(s) :: CleanDocument(d)
  {
    SplitPartsAreSeparatorFree(s);
    KeepIsClean(Split(s));
  }

  /** Documents joined by a separator line of their own. */
  function Join(docs: seq<string>): string {
    if docs == [] then ""
    else if |docs| == 1 then docs[0]
    else docs[0] + SEPARATOR + ("\n" + Join(docs[1..]))
  }

  ghost predicate Joinable(d: string) {
    CleanDocument(d) && !HasPrefix(d, "---")
  }

  /** No separator straddles either end of a clean document: none starts before the
      newline that follows it. */
  lemma NoEarlySeparator(s: string, lo: nat, d: string)
    requires CleanDocument(d)
    requires lo == 0 || (lo == 1 && !HasPrefix(d, "---"))
    requires lo + |d| <= |s| && forall k | 0 <= k < |d| :: s[lo + k] == d[k]
    requires lo + |d| < |s| ==> s[lo + |d|] == '\n'
    ensures forall j: int | j < lo + |d| :: !SeparatorAt(s, j)
  {
    forall j: int | j < lo + |d| ensures !SeparatorAt(s, j) {
      if j < lo {
        assert "---" == ['-', '-', '-'];
      } else {
        assert !SeparatorAt(d, j - lo);
        assert s[j] == d[j - lo];
        assert !IsSpace(d[|d| - 1]);
      }
    }
  }

  lemma SeparatorAfterDocument(d: string, pre: string, rest: string)
    requires CleanDocument(d)
    requires pre == "" || (pre == "\n" && !HasPrefix(d, "---"))
    ensures FirstSeparator(pre + d + SEPARATOR + rest) == |pre| + |d|
    ensures FirstSeparator(pre + d) == |pre| + |d|
  {
    var s := pre + d + SEPARATOR + rest;
    assert SeparatorAt(s, |pre| + |d|);
    FirstSeparatorIsFirst(s, |pre| + |d|);
    NoEarlySeparator(s, |pre|, d);
    NoEarlySeparator(pre + d, |pre|, d);
  }

  /** Splitting recovers exactly the documents that were joined, in order. */
  lemma SplitInvertsJoin(docs: seq<string>)
    requires forall d | d in docs :: Joinable(d)
    ensures Documents(Join(docs)) == docs
  {
    if docs == [] {
      assert Split("") == [""];
      assert Keep([""]) == [];
    } else {
      SplitInvertsPaddedJoin(docs, "");
      assert "" + Join(docs) == Join(docs);
    }
  }

  lemma KeptPadded(d: string, pre: string)
    requires Joinable(d)
    requires pre == "" || pre == "\n"
    ensures Kept(pre + d) == [d]
  {
    TrimPadded(pre, d, Spaces);
  }

  lemma {:induction false} KeepCons(p: string, rest: seq<string>)
    ensures Keep([p] + rest) == Kept(p) + Keep(rest)
  {
    var all := [p] + rest;
    if rest == [] {
      assert all[..0] == [] && all[0] == p;
    } else {
      assert all[..|all| - 1] == [p] + rest[..|rest| - 1];
      assert all[|all| - 1] == rest[|rest| - 1];
      KeepCons(p, rest[..|rest| - 1]);
    }
  }

  lemma Regroup(a: string, b: string, c: string, d: string)
    ensures a + (b + c + d) == a + b + c + d
  {
  }

  lemma {:induction false} SplitInvertsPaddedJoin(docs: seq<string>, pre: string)
    requires docs != [] && forall d | d in docs :: Joinable(d)
    requires pre == "" || pre == "\n"
    ensures Documents(pre + Join(docs)) == docs
    decreases |docs|
  {
    var d := docs[0];
    assert Joinable(d);
    KeptPadded(d, pre);
    if |docs| == 1 {
      SplitLast(d, pre);
      KeepCons(pre + d, []);
      assert [pre + d] + [] == [pre + d] && docs == [d];
    } else {
      var rest := "\n" + Join(docs[1..]);
      SplitFirst(d, pre, rest);
      Regroup(pre, d, SEPARATOR, rest);
      SplitInvertsPaddedJoin(docs[1..], "\n");
      KeepCons(pre + d, Split(rest));
      assert [d] + docs[1..] == docs;
    }
  }

  lemma SplitLast(d: string, pre: string)
    requires Joinable(d)
    requires pre == "" || pre == "\n"
    ensures Split(pre + d) == [pre + d]
  {
    SeparatorAfterDocument(d, pre, "");
  }

  lemma SplitFirst(d: string, pre: string, rest: string)
    requires Joinable(d)
    requires pre == "" || pre == "\n"
    ensures Split(pre + d + SEPARATOR + rest) == [pre + d] + Split(rest)
  {
    var s := pre + d + SEPARATOR + rest;
    SeparatorAfterDocument(d, pre, rest);
    var i := |pre| + |d|;
    assert s[..i] == pre + d;
    assert s[i + 4..] == rest;
  }

  // --- leading separators ---

  predicate DashesAt(s: string, j: int) {
    0 <= j && j + 3 <= |s| && s[j] == '-' && s[j + 1] == '-' && s[j + 2] == '-'
  }

  /** From `lo` on: white space, then three dashes that are not a separator themselves. */
  ghost predicate OpensWithDashes(s: string, lo: nat) {
    exists j: nat :: lo <= j && DashesAt(s, j) && (forall i | lo <= i < j :: IsSpace(s[i])) && (j > lo ==> s[j - 1] != '\n')
  }

  /** The text itself, or what follows one of its separators, opens with three dashes. */
  ghost predicate DashesLead(s: string) {
    OpensWithDashes(s, 0) || exists i: int :: SeparatorAt(s, i) && OpensWithDashes(s, i + 4)
  }

  /** Reading from `lo` on is reading the rest of the text. */
  lemma OpensInTheRest(s: string, lo: nat, k: nat)
    requires lo + k <= |s|
    ensures OpensWithDashes(s, lo + k) <==> OpensWithDashes(s[lo..], k)
  {
    var t := s[lo..];
    if OpensWithDashes(s, lo + k) {
      var j: nat :| lo + k <= j && DashesAt(s, j) && (forall i | lo + k <= i < j :: IsSpace(s[i])) && (j > lo + k ==> s[j - 1] != '\n');
      assert DashesAt(t, j - lo) && forall i | k <= i < j - lo :: t[i] == s[lo + i];
    }
    if OpensWithDashes(t, k) {
      var j: nat :| k <= j && DashesAt(t, j) && (forall i | k <= i < j :: IsSpace(t[i])) && (j > k ==> t[j - 1] != '\n');
      assert DashesAt(s, j + lo) && forall i | lo + k <= i < j + lo :: s[i] == t[i - lo];
    }
  }

  lemma PartOpens(p: string, j: nat)
    requires DashesAt(p, j) && forall k | 0 <= k < j :: IsSpace(p[k])
    ensures HasPrefix(Trim(p, Spaces), "---")
  {
    hide IsSpace;
    FirstIsFirst(p, Spaces, 0);
    assert !IsSpace('-') by { DashIsNoSpace(); }
    var lo := First(p, Spaces, 0);
    assert !Cuts(Spaces, p[j]) && lo == j;
    LastIsLast(p, Spaces, lo, |p|);
    assert !Cuts(Spaces, p[j + 1]) && !Cuts(Spaces, p[j + 2]);
    assert "---" == ['-', '-', '-'];
  }

  lemma DashIsNoSpace()
    ensures !IsSpace('-')
  {
  }

  lemma PartOpened(p: string) returns (j: nat)
    requires HasPrefix(Trim(p, Spaces), "---")
    ensures DashesAt(p, j) && forall k | 0 <= k < j :: IsSpace(p[k])
  {
    hide IsSpace;
    FirstIsFirst(p, Spaces, 0);
    j := First(p, Spaces, 0);
    var d := Trim(p, Spaces);
    assert "---" == ['-', '-', '-'];
    assert d[0] == p[j] && d[1] == p[j + 1] && d[2] == p[j + 2];
    forall k | 0 <= k < j ensures IsSpace(p[k]) {
      assert Cuts(Spaces, p[k]);
    }
  }

  lemma DashesStayInFirstPart(s: string, j: nat)
    requires DashesAt(s, j) && (forall k | 0 <= k < j :: IsSpace(s[k])) && (j > 0 ==> s[j - 1] != '\n')
    ensures j + 3 <= FirstSeparator(s)
  {
    hide FirstSeparator;
  }

  lemma NoSeparatorBefore(s: string, j: nat)
    requires j < FirstSeparator(s)
    ensures !SeparatorAt(s, j - 1)
  {
    if SeparatorAt(s, j - 1) {
      FirstSeparatorIsFirst(s, j - 1);
    }
  }

  /** The first part gives a document with leading dashes exactly when the text opens with
      them. */
  lemma FirstPartOpens(s: string)
    ensures HasPrefix(Trim(s[..FirstSeparator(s)], Spaces), "---") <==> OpensWithDashes(s, 0)
  {
    hide FirstSeparator, Trim, IsSpace, HasPrefix;
    var p := s[..FirstSeparator(s)];
    if HasPrefix(Trim(p, Spaces), "---") {
      var j := PartOpened(p);
      assert DashesAt(s, j) && forall k | 0 <= k < j :: s[k] == p[k];
      assert j > 0 ==> !SeparatorAt(s, j - 1) by { NoSeparatorBefore(s, j); }
      assert OpensWithDashes(s, 0);
    }
    if OpensWithDashes(s, 0) {
      var j: nat :| DashesAt(s, j) && (forall k | 0 <= k < j :: IsSpace(s[k])) && (j > 0 ==> s[j - 1] != '\n');
      DashesStayInFirstPart(s, j);
      PartOpens(p, j);
    }
  }

  ghost predicate SomePartOpens(parts: seq<string>) {
    exists p | p in parts :: HasPrefix(Trim(p, Spaces), "---")
  }

  lemma {:induction false} SplitPartsOpen(s: string)
    ensures SomePartOpens(Split(s)) <==> DashesLead(s)
    decreases |s|
  {
    hide FirstSeparator, Trim, OpensWithDashes;
    var i := FirstSeparator(s);
    FirstPartOpens(s);
    if i == |s| {
      assert s[..i] == s;
      forall j: int ensures !SeparatorAt(s, j) {
        if SeparatorAt(s, j) { FirstSeparatorIsFirst(s, j); }
      }
      assert s in Split(s);
    } else {
      var rest := s[i + 4..];
      SplitPartsOpen(rest);
      LaterSeparators(s, i);
      assert [s[..i]] + Split(rest) == Split(s);
      assert s[..i] in Split(s);
      assert forall p | p in Split(s) :: p == s[..i] || p in Split(rest);
      assert forall p | p in Split(rest) :: p in Split(s);
    }
  }

  /** No two separators overlap, so those after the first are the separators of the rest. */
  lemma LaterSeparators(s: string, i: nat)
    requires SeparatorAt(s, i) && i == FirstSeparator(s)
    ensures DashesLead(s) <==> OpensWithDashes(s, 0) || DashesLead(s[i + 4..])
  {
    hide FirstSeparator, OpensWithDashes;
    var rest := s[i + 4..];
    OpensInTheRest(s, i + 4, 0);
    if DashesLead(rest) && !OpensWithDashes(rest, 0) {
      var k: int :| SeparatorAt(rest, k) && OpensWithDashes(rest, k + 4);
      OpensInTheRest(s, i + 4, k + 4);
      assert SeparatorAt(s, i + 4 + k);
    }
    if DashesLead(s) && !OpensWithDashes(s, 0) {
      var k: int :| SeparatorAt(s, k) && OpensWithDashes(s, k + 4);
      FirstSeparatorIsFirst(s, k);
      if k > i {
        assert k >= i + 4;
        assert SeparatorAt(rest, k - i - 4);
        OpensInTheRest(s, i + 4, k - i);
      }
    }
  }

  lemma {:induction false} KeptPartsOpen(parts: seq<string>)
    ensures SomePartOpens(parts) <==> exists d | d in Keep(parts) :: HasPrefix(d, "---")
  {
    hide Trim;
    if parts != [] {
      var init, last := parts[..|parts| - 1], parts[|parts| - 1];
      KeptPartsOpen(init);
      assert parts == init + [last];
      assert forall p | p in parts :: p in init || p == last;
    }
  }

  /** The comment on SplitManifests says no returned document carries a leading "---".
      Exactly when that is so: neither the text nor what follows one of its separators is
      white space followed by three dashes. */
  lemma LeadingDashesSurviveIff(s: string)
    ensures (exists d | d in Documents(s) :: HasPrefix(d, "---")) <==> DashesLead(s)
  {
    SplitPartsOpen(s);
    KeptPartsOpen(Split(s));
  }

  /** Two ways to fail. A manifest that opens with a separator line keeps it. */
  lemma LeadingSeparatorSurvives()
    ensures Documents("---\na") == ["---\na"]
  {
    var s := "---\na";
    assert s == ['-', '-', '-', '\n', 'a'];
    assert SeparatorFree(s);
    assert FirstSeparator(s) == |s|;
    TrimIsProjection(s, Spaces);
    assert Keep([s]) == [s];
  }

  /** And a line of six dashes between two documents leaves three on the second. */
  lemma LongSeparatorSurvives()
    ensures exists d | d in Documents("a\n------\nb") :: HasPrefix(d, "---")
  {
    hide Documents;
    var t := "a\n------\nb";
    assert t == ['a', '\n', '-', '-', '-', '-', '-', '-', '\n', 'b'];
    assert SeparatorAt(t, 1) && DashesAt(t, 5);
    assert OpensWithDashes(t, 5);
    LeadingDashesSurviveIff(t);
  }
}
