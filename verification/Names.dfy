/** Kubernetes object names derived from platform-chosen ids
    (internal/definition/render.go and internal/broker/crdstate.go). */
module Names {
  import opened Text

  const MAX_LEN := 63
  const PREFIX := "osb-"

  predicate IsHexDigit(c: char) {
    '0' <= c <= '9' || 'a' <= c <= 'f'
  }

  /** The first four bytes of a SHA-256, in hexadecimal. */
  type Hex8 = s: string | |s| == 8 && forall i | 0 <= i < |s| :: IsHexDigit(s[i]) witness seq(8, _ => '0')

  /** The first 24 bytes of a SHA-256, in hexadecimal. */
  type Hex48 = s: string | |s| == 48 && forall i | 0 <= i < |s| :: IsHexDigit(s[i])
    witness seq(48, _ => '0')

  predicate IsAlnum(c: char) {
    'a' <= c <= 'z' || '0' <= c <= '9'
  }

  predicate IsLabelChar(c: char) {
    IsAlnum(c) || c == '-'
  }

  /** RFC 1123 section 2.1, as Kubernetes reads it for labels. */
  predicate IsDns1123Label(s: string) {
    && 1 <= |s| <= MAX_LEN
    && (forall i | 0 <= i < |s| :: IsLabelChar(s[i]))
    && IsAlnum(s[0]) && IsAlnum(s[|s| - 1])
  }

  /** strings.ToLower on one rune. Only 'İ' and the Kelvin sign lower to ASCII from
      outside ASCII; every other rune stays outside and ends up as a dash anyway. */
  function ToLower(c: char): char {
    if 'A' <= c <= 'Z' then (c as int - 'A' as int + 'a' as int) as char
    else if c == '\U{0130}' then 'i'
    else if c == '\U{212A}' then 'k'
    else c
  }

  function CleanChar(c: char): char {
    if IsAlnum(ToLower(c)) then ToLower(c) else '-'
  }

  /** The id, lower-cased, with everything outside [a-z0-9] replaced by a dash. */
  function Cleaned(id: string): (r: string)
    ensures |r| == |id| && forall i | 0 <= i < |id| :: r[i] == CleanChar(id[i])
  {
    seq(|id|, i requires 0 <= i < |id| => CleanChar(id[i]))
  }

  function Prefixed(trimmed: string): string {
    if HasPrefix(trimmed, PREFIX) then trimmed
    else if trimmed == "" then PREFIX + "instance"
    else PREFIX + trimmed
  }

  /** The name before the length limit is applied. */
  function FullName(id: string): string {
    Prefixed(Trim(Cleaned(id), Dashes))
  }

  /** The over-long name cut to leave room for a dash and the hash suffix. */
  function Shortened(name: string, suffix: Hex8): string
    requires |name| > MAX_LEN
  {
    Trim(name[..MAX_LEN - |suffix| - 1], Dashes) + "-" + suffix
  }

  function Sanitize(id: string, hash: string -> Hex8): string {
    var name := FullName(id);
    if |name| > MAX_LEN then Shortened(name, hash(id)) else name
  }

  /** The prefix put back after cutting. */
  function Reprefixed(name: string): string {
    if |name| < |PREFIX| then PREFIX else PREFIX + Trim(name[|PREFIX|..], Dashes)
  }

  /** SanitizeInstanceName. `reprefixed` reports whether the final branch, which puts
      the prefix back after cutting, was taken: it never is. */
  method SanitizeInstanceName(id: string, hash: string -> Hex8) returns (name: string, reprefixed: bool)
    ensures name == Sanitize(id, hash)
    ensures !reprefixed
  {
    var b: string := "";
    for n := 0 to |id|
      invariant b == Cleaned(id)[..n]
    {
      var r := ToLower(id[n]);
      if 'a' <= r <= 'z' || '0' <= r <= '9' {
        b := b + [r];
      } else {
        b := b + ['-'];
      }
    }
    assert b == Cleaned(id);
    var trimmed := Trim(b, Dashes);
    if HasPrefix(trimmed, PREFIX) {
      name := trimmed;
    } else if trimmed == "" {
      name := PREFIX + "instance";
    } else {
      name := PREFIX + trimmed;
    }
    reprefixed := false;
    if |name| > MAX_LEN {
      FullNameIsPrefixed(id);
      ShortenedIsALabel(name, hash(id));
      var suffix := hash(id);
      var cut := name[..MAX_LEN - |suffix| - 1];
      name := Trim(cut, Dashes) + "-" + suffix;
      if !HasPrefix(name, PREFIX) {
        reprefixed := true;
        name := Reprefixed(name);
      }
    }
  }

  lemma CleanedAreLabelChars(id: string)
    ensures forall i | 0 <= i < |Cleaned(id)| :: IsLabelChar(Cleaned(id)[i])
    ensures (forall i | 0 <= i < |id| :: IsLabelChar(id[i])) ==> Cleaned(id) == id
  {
  }

  lemma TrimmedCleanId(id: string)
    ensures var t := Trim(Cleaned(id), Dashes);
      (forall i | 0 <= i < |t| :: IsLabelChar(t[i])) && (t != "" ==> IsAlnum(t[0]) && IsAlnum(t[|t| - 1]))
  {
    CleanedAreLabelChars(id);
    TrimIsProjection(Cleaned(id), Dashes);
  }

  /** A name before cutting is prefixed, made of label characters and ends in one that
      may end a label. */
  predicate PrefixedName(n: string) {
    && HasPrefix(n, PREFIX) && |n| > |PREFIX|
    && (forall i | 0 <= i < |n| :: IsLabelChar(n[i]))
    && IsAlnum(n[|n| - 1])
  }

  lemma PrefixedIsPrefixed(t: string)
    requires forall i | 0 <= i < |t| :: IsLabelChar(t[i])
    requires t != "" ==> IsAlnum(t[|t| - 1])
    ensures PrefixedName(Prefixed(t))
  {
    assert PREFIX == ['o', 's', 'b', '-'];
    if HasPrefix(t, PREFIX) {
      assert t[3] == PREFIX[3];
    } else if t != "" {
      var n := PREFIX + t;
      assert forall i | 4 <= i < |n| :: n[i] == t[i - 4];
      assert n[0] == 'o' && n[1] == 's' && n[2] == 'b' && n[3] == '-';
    }
  }

  lemma FullNameIsPrefixed(id: string)
    ensures PrefixedName(FullName(id))
  {
    TrimmedCleanId(id);
    PrefixedIsPrefixed(Trim(Cleaned(id), Dashes));
  }

  lemma ShortenedIsALabel(n: string, suffix: Hex8)
    requires PrefixedName(n) && |n| > MAX_LEN
    ensures IsDns1123Label(Shortened(n, suffix)) && HasPrefix(Shortened(n, suffix), PREFIX)
  {
    assert PREFIX == ['o', 's', 'b', '-'];
    assert n[0] == PREFIX[0] && n[1] == PREFIX[1] && n[2] == PREFIX[2] && n[3] == PREFIX[3];
    var cut := n[..54];
    assert !Cuts(Dashes, cut[0]) && !Cuts(Dashes, cut[2]);
    var t := Trim(cut, Dashes);
    FirstIsFirst(cut, Dashes, 0);
    LastIsLast(cut, Dashes, First(cut, Dashes, 0), |cut|);
    assert t == cut[..|t|] && |t| >= 3;
    var s := t + "-" + suffix;
    assert s[|s| - 1] == suffix[7] && IsHexDigit(suffix[7]);
    assert forall i | 0 <= i < |t| :: s[i] == n[i];
    assert s[|t|] == '-';
    assert forall i | |t| < i < |s| :: s[i] == suffix[i - |t| - 1];
  }

  /** Every id, however hostile, becomes a valid `osb-` label. */
  lemma SanitizedNameIsALabel(id: string, hash: string -> Hex8)
    ensures IsDns1123Label(Sanitize(id, hash)) && HasPrefix(Sanitize(id, hash), PREFIX)
    ensures |Sanitize(id, hash)| <= 63 && HasPrefix(Sanitize(id, hash), "osb-")
  {
    FullNameIsPrefixed(id);
    if |FullName(id)| > MAX_LEN {
      ShortenedIsALabel(FullName(id), hash(id));
    }
  }

  /** Sending an already sanitized name again changes nothing. */
  lemma SanitizeIsIdempotent(id: string, hash: string -> Hex8)
    ensures Sanitize(Sanitize(id, hash), hash) == Sanitize(id, hash)
  {
    var s := Sanitize(id, hash);
    SanitizedNameIsALabel(id, hash);
    CleanedAreLabelChars(s);
    TrimIsProjection(s, Dashes);
    assert FullName(s) == s;
  }

  /** An id that is already in the shape object names have, leaving room for the prefix. */
  predicate PlainId(id: string) {
    && 1 <= |id| <= MAX_LEN - |PREFIX|
    && (forall i | 0 <= i < |id| :: IsLabelChar(id[i]))
    && Trimmed(id, Dashes)
    && !HasPrefix(id, PREFIX)
  }

  lemma PlainIdIsPrefixed(id: string, hash: string -> Hex8)
    requires PlainId(id)
    ensures Sanitize(id, hash) == PREFIX + id
  {
    CleanedAreLabelChars(id);
    TrimIsProjection(id, Dashes);
  }

  /** Plain ids are kept readable, so different ones never share a name. */
  lemma SanitizeIsInjectiveOnPlainIds(a: string, b: string, hash: string -> Hex8)
    requires PlainId(a) && PlainId(b)
    ensures Sanitize(a, hash) == Sanitize(b, hash) <==> a == b
  {
    PlainIdIsPrefixed(a, hash);
    PlainIdIsPrefixed(b, hash);
    assert (PREFIX + a)[|PREFIX|..] == a && (PREFIX + b)[|PREFIX|..] == b;
  }

  predicate AsciiAlnum(c: char) {
    'a' <= c <= 'z' || 'A' <= c <= 'Z' || '0' <= c <= '9'
  }

  /** What the characters of a short id become: letters lose their case, digits stay, and
      anything else of ASCII is a dash. */
  lemma SanitizedCharacters(id: string, hash: string -> Hex8, i: nat)
    requires 1 <= |id| <= MAX_LEN - |PREFIX| && AsciiAlnum(id[0]) && AsciiAlnum(id[|id| - 1]) && i < |id|
    ensures var name := Sanitize(id, hash);
      |name| >= |id| &&
      var c := name[|name| - |id| + i];
      && ('A' <= id[i] <= 'Z' ==> c as int == id[i] as int + 32)
      && ('a' <= id[i] <= 'z' || '0' <= id[i] <= '9' ==> c == id[i])
      && (id[i] as int < 128 && !AsciiAlnum(id[i]) ==> c == '-')
  {
    var t := Cleaned(id);
    assert Trim(t, Dashes) == t by {
      assert IsAlnum(t[0]) && IsAlnum(t[|t| - 1]);
      TrimIsProjection(t, Dashes);
    }
    assert t[i] == CleanChar(id[i]);
    hide Cleaned, Trim, CleanChar, ToLower, IsAlnum;
    PrefixKeepsCharacters(t, i);
    CleanedCharacter(id[i]);
  }

  lemma PrefixKeepsCharacters(t: string, i: nat)
    requires i < |t|
    ensures var n := Prefixed(t); |t| <= |n| <= |t| + |PREFIX| && n[|n| - |t| + i] == t[i]
  {
  }

  lemma CleanedCharacter(c: char)
    ensures 'A' <= c <= 'Z' ==> CleanChar(c) as int == c as int + 32
    ensures 'a' <= c <= 'z' || '0' <= c <= '9' ==> CleanChar(c) == c
    ensures c as int < 128 && !AsciiAlnum(c) ==> CleanChar(c) == '-'
  {
  }

  /** What follows the prefix in a name before the length limit. */
  function BareName(id: string): string {
    var t := Trim(Cleaned(id), Dashes);
    if HasPrefix(t, PREFIX) then t[|PREFIX|..] else if t == "" then "instance" else t
  }

  predicate TooLong(id: string) {
    |FullName(id)| > MAX_LEN
  }

  /** What is left of an over-long name in front of its hash. */
  function CutName(id: string): string
    requires TooLong(id)
  {
    Trim(FullName(id)[..MAX_LEN - 9], Dashes)
  }

  /** When two ids share a name. Neither shortened: they agree after cleaning, trimming and
      taking off the prefix, the empty id counting as "instance". Both shortened: they agree
      up to the cut and in the hash. One shortened: the other is literally its result. */
  predicate Collide(a: string, b: string, hash: string -> Hex8) {
    if TooLong(a) && TooLong(b) then CutName(a) == CutName(b) && hash(a) == hash(b)
    else if TooLong(a) then PREFIX + BareName(b) == CutName(a) + "-" + hash(a)
    else if TooLong(b) then PREFIX + BareName(a) == CutName(b) + "-" + hash(b)
    else BareName(a) == BareName(b)
  }

  lemma SanitizedNamesCollideIff(a: string, b: string, hash: string -> Hex8)
    ensures Sanitize(a, hash) == Sanitize(b, hash) <==> Collide(a, b, hash)
  {
    hide FullName, BareName, Trim;
    NameIsPrefixAndBareName(a);
    NameIsPrefixAndBareName(b);
    if TooLong(a) && TooLong(b) {
      SameTail(CutName(a), hash(a), CutName(b), hash(b));
    }
    assert (PREFIX + BareName(a))[|PREFIX|..] == BareName(a) && (PREFIX + BareName(b))[|PREFIX|..] == BareName(b);
  }

  lemma SameTail(x: string, h: Hex8, y: string, k: Hex8)
    ensures x + "-" + h == y + "-" + k <==> x == y && h == k
  {
    var s, t := x + "-" + h, y + "-" + k;
    assert s[|s| - 8..] == h && t[|t| - 8..] == k;
    assert s[..|s| - 9] == x && t[..|t| - 9] == y;
  }

  lemma NameIsPrefixAndBareName(id: string)
    ensures FullName(id) == PREFIX + BareName(id)
  {
    var t := Trim(Cleaned(id), Dashes);
    if HasPrefix(t, PREFIX) {
      assert t == PREFIX + t[|PREFIX|..];
    }
  }

  /** The empty id collides with "instance": the non-emptiness in PlainId is needed. */
  lemma EmptyIdCollides(hash: string -> Hex8)
    ensures Sanitize("", hash) == Sanitize("instance", hash)
  {
    PlainIdIsPrefixed("instance", hash);
  }

  /** So does an id that already carries the prefix, by design of the idempotence. */
  lemma PrefixedIdCollides(id: string, hash: string -> Hex8)
    requires PlainId(id)
    ensures Sanitize(PREFIX + id, hash) == Sanitize(id, hash)
  {
    PlainIdIsPrefixed(id, hash);
    SanitizeIsIdempotent(id, hash);
  }

  /** resourceName: a valid label is used as it is, anything else is hashed. */
  function ResourceName(id: string, sha: string -> Hex48): string {
    if IsDns1123Label(id) then id else PREFIX + sha(id)
  }

  predicate LooksHashed(id: string) {
    |id| == 52 && PREFIX <= id && forall i | 4 <= i < 52 :: IsHexDigit(id[i])
  }

  lemma HashedShape(h: Hex48)
    ensures var n := PREFIX + h;
      IsDns1123Label(n) && LooksHashed(n) && n[4..] == h
  {
    var n := PREFIX + h;
    assert forall i | 4 <= i < 52 :: n[i] == h[i - 4];
    assert n[0] == 'o' && n[1] == 's' && n[2] == 'b' && n[3] == '-';
  }

  /** Names of stored records are always valid and collide only through the hash: two
      ids share a name exactly when they are equal, or both are hashed to the same
      digest, or one of them is literally the hashed name of the other. */
  lemma ResourceNamesCollideOnlyThroughTheHash(a: string, b: string, sha: string -> Hex48)
    ensures IsDns1123Label(ResourceName(a, sha))
    ensures ResourceName(a, sha) == ResourceName(b, sha) <==>
      || a == b
      || (!IsDns1123Label(a) && !IsDns1123Label(b) && sha(a) == sha(b))
      || (IsDns1123Label(a) && LooksHashed(a) && !IsDns1123Label(b) && a[4..] == sha(b))
      || (IsDns1123Label(b) && LooksHashed(b) && !IsDns1123Label(a) && b[4..] == sha(a))
  {
    HashedShape(sha(a));
    HashedShape(sha(b));
    if LooksHashed(a) { assert a == PREFIX + a[4..]; }
    if LooksHashed(b) { assert b == PREFIX + b[4..]; }
  }
}
