/**
 * internal/selfupdate/version.go: release versions and their precedence, proved to be that
 * of Semantic Versioning 2.0.0, section 11.
 */
module Version {
  import opened Wrappers
  import opened Text
  import opened Decimal
  import opened Sorting

  datatype SemanticVersion = SemanticVersion(raw: string, major: nat, minor: nat, patch: nat, prerelease: seq<string>)

  const MAX_UINT64: nat := 0xffff_ffff_ffff_ffff

  // ---------------------------------------------------------------- parsing

  predicate ForbiddenChar(c: char) {
    c == '+' || c == '/' || c == '\\' || c == ' ' || c == '\t' || c == '\r' || c == '\n'
  }

  /** A core component: canonical decimal digits that fit 64 bits. */
  predicate ValidNumber(s: string) {
    Canonical(s) && Value(s) <= MAX_UINT64
  }

  predicate IdentifierChar(c: char) {
    IsDigit(c) || 'A' <= c <= 'Z' || 'a' <= c <= 'z' || c == '-'
  }

  predicate ValidIdentifier(s: string) {
    && s != ""
    && (forall i :: 0 <= i < |s| ==> IdentifierChar(s[i]))
    && (AllDigits(s) ==> Canonical(s))
  }

  /** The dot-separated parts before the first dash. */
  function CoreParts(raw: string): seq<string>
    requires raw != ""
  {
    SplitOn(raw[1..][..IndexOf(raw[1..], '-')], '.')
  }

  /** The dot-separated parts after the first dash; none without a dash. */
  function PrereleaseParts(raw: string): seq<string>
    requires raw != ""
  {
    var rest := raw[1..];
    var dash := IndexOf(rest, '-');
    if dash == |rest| then [] else SplitOn(rest[dash + 1..], '.')
  }

  /** The accepted spellings: vMAJOR.MINOR.PATCH with an optional -PRERELEASE. */
  function ParseVersion(raw: string): Option<SemanticVersion> {
    if raw == "" || raw[0] != 'v' || exists i :: 0 <= i < |raw| && ForbiddenChar(raw[i]) then None
    else
      var core, ids := CoreParts(raw), PrereleaseParts(raw);
      if |core| != 3 || !ValidNumber(core[0]) || !ValidNumber(core[1]) || !ValidNumber(core[2]) then None
      else if exists i :: 0 <= i < |ids| && !ValidIdentifier(ids[i]) then None
      else Some(SemanticVersion(raw, Value(core[0]), Value(core[1]), Value(core[2]), ids))
  }

  /** parseVersion, with its loops over components, identifiers and characters. */
  method ParseVersionLoop(raw: string) returns (r: Option<SemanticVersion>)
    ensures r == ParseVersion(raw)
  {
    if raw == "" || raw[0] != 'v' { return None; }
    for i := 0 to |raw|
      invariant forall k :: 0 <= k < i ==> !ForbiddenChar(raw[k])
    {
      if ForbiddenChar(raw[i]) { return None; }
    }
    var rest := raw[1..];
    var dash := IndexOf(rest, '-');
    var core := SplitOn(rest[..dash], '.');
    if |core| != 3 { return None; }
    var parts := ReadCore(core);
    if parts.None? { return None; }
    var ids: seq<string> := [];
    if dash < |rest| {
      var read := ReadPrerelease(SplitOn(rest[dash + 1..], '.'));
      if read.None? { return None; }
      ids := read.value;
    }
    return Some(SemanticVersion(raw, parts.value[0], parts.value[1], parts.value[2], ids));
  }

  method ReadCore(core: seq<string>) returns (r: Option<seq<nat>>)
    requires |core| == 3
    ensures r.Some? <==> ValidNumber(core[0]) && ValidNumber(core[1]) && ValidNumber(core[2])
    ensures r.Some? ==> r.value == [Value(core[0]), Value(core[1]), Value(core[2])]
  {
    var parts: seq<nat> := [];
    for i := 0 to 3
      invariant |parts| == i
      invariant forall k :: 0 <= k < i ==> ValidNumber(core[k]) && parts[k] == Value(core[k])
    {
      if core[i] == "" || (|core[i]| > 1 && core[i][0] == '0') { return None; }
      if !AllDigits(core[i]) || Value(core[i]) > MAX_UINT64 { return None; }
      parts := parts + [Value(core[i])];
    }
    return Some(parts);
  }

  method ReadPrerelease(ids: seq<string>) returns (r: Option<seq<string>>)
    ensures r == if exists i :: 0 <= i < |ids| && !ValidIdentifier(ids[i]) then None else Some(ids)
  {
    var prerelease: seq<string> := [];
    for i := 0 to |ids|
      invariant prerelease == ids[..i]
      invariant forall k :: 0 <= k < i ==> ValidIdentifier(ids[k])
    {
      var valid := CheckIdentifier(ids[i]);
      if !valid { return None; }
      prerelease := prerelease + [ids[i]];
    }
    assert ids[..|ids|] == ids;
    return Some(prerelease);
  }

  method CheckIdentifier(identifier: string) returns (valid: bool)
    ensures valid <==> ValidIdentifier(identifier)
  {
    if identifier == "" { return false; }
    var numeric := true;
    for i := 0 to |identifier|
      invariant forall k :: 0 <= k < i ==> IdentifierChar(identifier[k])
      invariant numeric <==> forall k :: 0 <= k < i ==> IsDigit(identifier[k])
    {
      if !IdentifierChar(identifier[i]) { return false; }
      if !IsDigit(identifier[i]) { numeric := false; }
    }
    return !(numeric && |identifier| > 1 && identifier[0] == '0');
  }

  // ---------------------------------------------------------------- precedence

  /** Section 11.4: identifiers of digits compare numerically, others in ASCII order, and
      numeric identifiers come first. */
  predicate IdentifierBelow(a: string, b: string)
  {
    if AllDigits(a) && AllDigits(b) then Value(a) < Value(b)
    else if AllDigits(a) then true
    else if AllDigits(b) then false
    else Less(a, b)
  }

  /** Section 11.4: the first difference decides; with none, the longer list is higher. */
  predicate ListBelow(a: seq<string>, b: seq<string>) {
    if b == [] then false
    else if a == [] then true
    else if a[0] == b[0] then ListBelow(a[1..], b[1..])
    else IdentifierBelow(a[0], b[0])
  }

  /** Sections 11.2 and 11.3: the core numbers, then a prerelease below its release. */
  predicate Below(v: SemanticVersion, w: SemanticVersion) {
    if v.major != w.major then v.major < w.major
    else if v.minor != w.minor then v.minor < w.minor
    else if v.patch != w.patch then v.patch < w.patch
    else if v.prerelease == [] then false
    else if w.prerelease == [] then true
    else ListBelow(v.prerelease, w.prerelease)
  }

  /** The fields parseVersion leaves. */
  predicate Parsed(v: SemanticVersion) {
    forall i :: 0 <= i < |v.prerelease| ==> ValidIdentifier(v.prerelease[i])
  }

  function NumericIdentifier(s: string): bool {
    s != "" && AllDigits(s)
  }

  /** The source's comparison of two different identifiers, by length and text. */
  method CompareIdentifiers(a: string, b: string) returns (r: int)
    requires a != b && ValidIdentifier(a) && ValidIdentifier(b)
    ensures r == -1 || r == 1
    ensures r == -1 <==> IdentifierBelow(a, b)
    ensures r == 1 <==> IdentifierBelow(b, a)
  {
    IdentifierTrichotomy(a, b);
    IdentifierAsymmetric(a, b);
    var aNumber, bNumber := NumericIdentifier(a), NumericIdentifier(b);
    if aNumber && bNumber {
      CanonicalOrder(a, b);
      return if |a| < |b| || (|a| == |b| && Less(a, b)) then -1 else 1;
    }
    if aNumber { return -1; }
    if bNumber { return 1; }
    return if Less(a, b) then -1 else 1;
  }

  lemma ListBelowSkip(a: seq<string>, b: seq<string>, i: nat)
    requires i <= |a| && i <= |b| && a[..i] == b[..i]
    ensures ListBelow(a, b) <==> ListBelow(a[i..], b[i..])
  {
    if i > 0 {
      assert a[0] == a[..i][0] && b[0] == b[..i][0];
      assert a[1..][..i - 1] == a[..i][1..] && b[1..][..i - 1] == b[..i][1..];
      ListBelowSkip(a[1..], b[1..], i - 1);
      assert a[1..][i - 1..] == a[i..] && b[1..][i - 1..] == b[i..];
    }
  }

  /** compare, as the source runs it, computes Semantic Versioning precedence. */
  method Compare(v: SemanticVersion, other: SemanticVersion) returns (r: int)
    requires Parsed(v) && Parsed(other)
    ensures r == -1 || r == 0 || r == 1
    ensures r == -1 <==> Below(v, other)
    ensures r == 1 <==> Below(other, v)
    ensures r == 0 <==> (v.major, v.minor, v.patch, v.prerelease) ==
                        (other.major, other.minor, other.patch, other.prerelease)
  {
    var pairs := [(v.major, other.major), (v.minor, other.minor), (v.patch, other.patch)];
    for i := 0 to 3
      invariant i > 0 ==> v.major == other.major
      invariant i > 1 ==> v.minor == other.minor
      invariant i > 2 ==> v.patch == other.patch
    {
      if pairs[i].0 < pairs[i].1 { return -1; }
      if pairs[i].0 > pairs[i].1 { return 1; }
    }
    var p, q := v.prerelease, other.prerelease;
    if |p| == 0 && |q| == 0 { return 0; }
    if |p| == 0 { return 1; }
    if |q| == 0 { return -1; }
    var i := 0;
    while i < |p| && i < |q|
      invariant 0 <= i <= |p| && i <= |q|
      invariant p[..i] == q[..i]
    {
      ListBelowSkip(p, q, i);
      ListBelowSkip(q, p, i);
      if p[i] != q[i] {
        assert p != q;
        r := CompareIdentifiers(p[i], q[i]);
        return;
      }
      i := i + 1;
    }
    ListBelowSkip(p, q, i);
    ListBelowSkip(q, p, i);
    if |p| < |q| { return -1; }
    if |p| > |q| { return 1; }
    assert p[..i] == p && q[..i] == q;
    return 0;
  }

  // ---------------------------------------------------------------- a total order

  lemma LessAsymmetric(a: string, b: string)
    requires Less(a, b)
    ensures !Less(b, a)
  {
    if Less(b, a) { LessTransitive(a, b, a); LessIrreflexive(a); }
  }

  lemma IdentifierAsymmetric(a: string, b: string)
    ensures !(IdentifierBelow(a, b) && IdentifierBelow(b, a))
  {
    if Less(a, b) { LessAsymmetric(a, b); }
  }

  lemma IdentifierTrichotomy(a: string, b: string)
    requires ValidIdentifier(a) && ValidIdentifier(b)
    ensures a == b || IdentifierBelow(a, b) || IdentifierBelow(b, a)
  {
    LessTotal(a, b);
    if AllDigits(a) && AllDigits(b) { CanonicalOrder(a, b); }
  }

  lemma IdentifierTransitive(a: string, b: string, c: string)
    requires IdentifierBelow(a, b) && IdentifierBelow(b, c)
    ensures IdentifierBelow(a, c)
  {
    if !AllDigits(a) && !AllDigits(b) && !AllDigits(c) { LessTransitive(a, b, c); }
  }

  lemma {:induction false} ListAsymmetric(a: seq<string>, b: seq<string>)
    ensures !(ListBelow(a, b) && ListBelow(b, a))
  {
    if a != [] && b != [] {
      if a[0] == b[0] { ListAsymmetric(a[1..], b[1..]); } else { IdentifierAsymmetric(a[0], b[0]); }
    }
  }

  lemma {:induction false} ListTrichotomy(a: seq<string>, b: seq<string>)
    requires (forall i :: 0 <= i < |a| ==> ValidIdentifier(a[i])) && (forall i :: 0 <= i < |b| ==> ValidIdentifier(b[i]))
    ensures a == b || ListBelow(a, b) || ListBelow(b, a)
  {
    if a != [] && b != [] {
      if a[0] == b[0] {
        ListTrichotomy(a[1..], b[1..]);
        assert a == [a[0]] + a[1..] && b == [b[0]] + b[1..];
      } else {
        IdentifierTrichotomy(a[0], b[0]);
      }
    }
  }

  lemma {:induction false} ListTransitive(a: seq<string>, b: seq<string>, c: seq<string>)
    requires ListBelow(a, b) && ListBelow(b, c)
    ensures ListBelow(a, c)
  {
    if a != [] {
      if a[0] == b[0] && b[0] == c[0] {
        ListTransitive(a[1..], b[1..], c[1..]);
      } else if a[0] != b[0] && b[0] != c[0] {
        IdentifierTransitive(a[0], b[0], c[0]);
        if a[0] == c[0] { IdentifierAsymmetric(a[0], b[0]); }
      }
    }
  }

  /** Precedence is a strict total order on the fields of parsed versions. */
  lemma PrecedenceIsTotalOrder(u: SemanticVersion, v: SemanticVersion, w: SemanticVersion)
    requires Parsed(u) && Parsed(v) && Parsed(w)
    ensures !(Below(u, v) && Below(v, u))
    ensures Below(u, v) && Below(v, w) ==> Below(u, w)
    ensures Below(u, v) || Below(v, u) ||
            (u.major, u.minor, u.patch, u.prerelease) == (v.major, v.minor, v.patch, v.prerelease)
  {
    ListAsymmetric(u.prerelease, v.prerelease);
    ListTrichotomy(u.prerelease, v.prerelease);
    if Below(u, v) && Below(v, w) && ListBelow(u.prerelease, v.prerelease) && ListBelow(v.prerelease, w.prerelease) {
      ListTransitive(u.prerelease, v.prerelease, w.prerelease);
    }
  }

  // ---------------------------------------------------------------- canonical spelling

  lemma ParsedVersion(raw: string)
    requires ParseVersion(raw).Some?
    ensures Parsed(ParseVersion(raw).value) && ParseVersion(raw).value.raw == raw
  {
  }

  /** A string is its parts joined again. */
  lemma PartsRejoin(raw: string)
    requires raw != "" && raw[0] == 'v'
    ensures raw == ['v'] + JoinWith(CoreParts(raw), '.') +
                   (if PrereleaseParts(raw) == [] then "" else ['-'] + JoinWith(PrereleaseParts(raw), '.'))
  {
    var rest := raw[1..];
    var dash := IndexOf(rest, '-');
    JoinOfSplit(rest[..dash], '.');
    if dash < |rest| {
      JoinOfSplit(rest[dash + 1..], '.');
      assert raw == ['v'] + rest[..dash] + (['-'] + rest[dash + 1..]);
    } else {
      assert raw == ['v'] + rest[..dash] + "";
    }
  }

  /** The canonical spelling leaves no freedom: equal fields mean equal text. */
  lemma ParsingIsInjective(raw: string, raw': string)
    requires ParseVersion(raw).Some? && ParseVersion(raw').Some?
    requires var v, w := ParseVersion(raw).value, ParseVersion(raw').value;
             (v.major, v.minor, v.patch, v.prerelease) == (w.major, w.minor, w.patch, w.prerelease)
    ensures raw == raw'
  {
    ParsedIsPrinted(raw);
    ParsedIsPrinted(raw');
  }

  /** On accepted strings the comparison is zero exactly on equal strings. */
  lemma EqualPrecedenceMeansEqualText(raw: string, raw': string)
    requires ParseVersion(raw).Some? && ParseVersion(raw').Some?
    ensures var v, w := ParseVersion(raw).value, ParseVersion(raw').value;
            !Below(v, w) && !Below(w, v) <==> raw == raw'
  {
    var v, w := ParseVersion(raw).value, ParseVersion(raw').value;
    PrecedenceIsTotalOrder(v, w, w);
    if !Below(v, w) && !Below(w, v) { ParsingIsInjective(raw, raw'); }
  }

  // ---------------------------------------------------------------- the accepted texts

  /** A version as its specification writes it. */
  function VersionText(major: nat, minor: nat, patch: nat, prerelease: seq<string>): string {
    "v" + Itoa(major) + "." + Itoa(minor) + "." + Itoa(patch)
    + (if prerelease == [] then "" else "-" + JoinWith(prerelease, '.'))
  }

  predicate InRange(major: nat, minor: nat, patch: nat) {
    major <= MAX_UINT64 && minor <= MAX_UINT64 && patch <= MAX_UINT64
  }

  predicate AllValid(ids: seq<string>) {
    forall i :: 0 <= i < |ids| ==> ValidIdentifier(ids[i])
  }

  function Core(major: nat, minor: nat, patch: nat): seq<string> {
    [Itoa(major), Itoa(minor), Itoa(patch)]
  }

  lemma JoinThree(x: string, y: string, z: string, c: char)
    ensures JoinWith([x, y, z], c) == x + [c] + y + [c] + z
  {
    var parts := [x, y, z];
    assert parts[1..] == [y, z] && [y, z][1..] == [z];
    assert JoinWith([y, z], c) == y + [c] + z;
    assert x + [c] + (y + [c] + z) == x + [c] + y + [c] + z;
  }

  /** The text is the joined core after its first letter, then the joined identifiers. */
  lemma TextJoined(major: nat, minor: nat, patch: nat, ids: seq<string>)
    ensures VersionText(major, minor, patch, ids) ==
            ['v'] + (JoinWith(Core(major, minor, patch), '.') + (if ids == [] then "" else ['-'] + JoinWith(ids, '.')))
  {
    var tail := if ids == [] then "" else ['-'] + JoinWith(ids, '.');
    JoinThree(Itoa(major), Itoa(minor), Itoa(patch), '.');
    Reassociate(Itoa(major), Itoa(minor), Itoa(patch), tail);
  }

  lemma Reassociate(x: string, y: string, z: string, tail: string)
    ensures "v" + x + "." + y + "." + z + tail == ['v'] + ((x + ['.'] + y + ['.'] + z) + tail)
  {
  }

  lemma CoreHoldsDigits(major: nat, minor: nat, patch: nat, x: char)
    requires !IsDigit(x)
    ensures NoneHolds(Core(major, minor, patch), x)
  {
    ItoaRoundTrip(major);
    ItoaRoundTrip(minor);
    ItoaRoundTrip(patch);
  }

  lemma IdentifiersHold(ids: seq<string>, x: char)
    requires AllValid(ids) && !IdentifierChar(x)
    ensures NoneHolds(ids, x)
  {
    forall i | 0 <= i < |ids| ensures x !in ids[i] { assert ValidIdentifier(ids[i]); }
  }

  /** A text without identifiers, cut into its core. */
  lemma PlainParts(core: seq<string>, raw: string, dot: char, dash: char)
    requires dot == '.' && dash == '-' && core != [] && NoneHolds(core, dot) && NoneHolds(core, dash)
    requires raw == ['v'] + JoinWith(core, dot)
    ensures CoreParts(raw) == core && PrereleaseParts(raw) == []
  {
    var text := JoinWith(core, dot);
    JoinChars(core, dot, dash);
    IndexAfter(text, dash, "");
    SplitOfJoin(core, dot);
    assert raw[1..] == text && text[..|text|] == text;
  }

  /** A text with identifiers, cut at its first dash. */
  lemma DashedParts(core: seq<string>, ids: seq<string>, raw: string, dot: char, dash: char)
    requires dot == '.' && dash == '-' && core != [] && NoneHolds(core, dot) && NoneHolds(core, dash)
    requires ids != [] && NoneHolds(ids, dot) && raw == ['v'] + (JoinWith(core, dot) + (['-'] + JoinWith(ids, dot)))
    ensures CoreParts(raw) == core && PrereleaseParts(raw) == ids
  {
    var text, rest := JoinWith(core, dot), JoinWith(ids, dot);
    JoinChars(core, dot, dash);
    IndexAfter(text, dash, rest);
    SplitOfJoin(core, dot);
    SplitOfJoin(ids, dot);
    assert raw[1..] == text + [dash] + rest;
    assert (text + [dash] + rest)[..|text|] == text && (text + [dash] + rest)[|text| + 1..] == rest;
  }

  lemma TextParts(major: nat, minor: nat, patch: nat, ids: seq<string>)
    requires AllValid(ids)
    ensures var raw := VersionText(major, minor, patch, ids);
            raw != "" && raw[0] == 'v' && CoreParts(raw) == Core(major, minor, patch) && PrereleaseParts(raw) == ids
  {
    var raw, core := VersionText(major, minor, patch, ids), Core(major, minor, patch);
    TextJoined(major, minor, patch, ids);
    CoreHoldsDigits(major, minor, patch, '.');
    CoreHoldsDigits(major, minor, patch, '-');
    if ids == [] {
      assert ['v'] + (JoinWith(core, '.') + "") == ['v'] + JoinWith(core, '.');
      PlainParts(core, raw, '.', '-');
    } else {
      IdentifiersHold(ids, '.');
      DashedParts(core, ids, raw, '.', '-');
    }
  }

  lemma TextHasNone(major: nat, minor: nat, patch: nat, ids: seq<string>, x: char)
    requires AllValid(ids) && ForbiddenChar(x)
    ensures x !in VersionText(major, minor, patch, ids)
  {
    CoreHoldsDigits(major, minor, patch, x);
    JoinChars(Core(major, minor, patch), '.', x);
    IdentifiersHold(ids, x);
    JoinChars(ids, '.', x);
    TextJoined(major, minor, patch, ids);
  }

  /** Every version in range is accepted as it is written, and read as what it says. */
  lemma PrintedIsParsed(major: nat, minor: nat, patch: nat, ids: seq<string>)
    requires InRange(major, minor, patch) && AllValid(ids)
    ensures var raw := VersionText(major, minor, patch, ids);
            ParseVersion(raw) == Some(SemanticVersion(raw, major, minor, patch, ids))
  {
    var raw := VersionText(major, minor, patch, ids);
    TextParts(major, minor, patch, ids);
    forall i | 0 <= i < |raw| ensures !ForbiddenChar(raw[i]) {
      if ForbiddenChar(raw[i]) { TextHasNone(major, minor, patch, ids, raw[i]); }
    }
    ItoaRoundTrip(major);
    ItoaRoundTrip(minor);
    ItoaRoundTrip(patch);
  }

  lemma ItoaOfValue(s: string)
    requires Canonical(s)
    ensures Itoa(Value(s)) == s
  {
    ItoaRoundTrip(Value(s));
    CanonicalOrder(Itoa(Value(s)), s);
  }

  /** What acceptance says about the parts. */
  lemma AcceptedParts(raw: string)
    requires ParseVersion(raw).Some?
    ensures raw != "" && raw[0] == 'v' && |CoreParts(raw)| == 3
    ensures var v, core := ParseVersion(raw).value, CoreParts(raw);
            && v.raw == raw && v.prerelease == PrereleaseParts(raw) && AllValid(v.prerelease)
            && ValidNumber(core[0]) && ValidNumber(core[1]) && ValidNumber(core[2])
            && v.major == Value(core[0]) && v.minor == Value(core[1]) && v.patch == Value(core[2])
  {
  }

  lemma CoreOfValues(core: seq<string>)
    requires |core| == 3 && Canonical(core[0]) && Canonical(core[1]) && Canonical(core[2])
    ensures Core(Value(core[0]), Value(core[1]), Value(core[2])) == core
  {
    var x, y, z := core[0], core[1], core[2];
    ItoaOfValue(x);
    ItoaOfValue(y);
    ItoaOfValue(z);
    ThreeParts(core, x, y, z);
    CoreIs(Value(x), Value(y), Value(z), x, y, z);
  }

  lemma ThreeParts(core: seq<string>, x: string, y: string, z: string)
    requires |core| == 3 && core[0] == x && core[1] == y && core[2] == z
    ensures core == [x, y, z]
  {
  }

  lemma CoreIs(major: nat, minor: nat, patch: nat, x: string, y: string, z: string)
    requires Itoa(major) == x && Itoa(minor) == y && Itoa(patch) == z
    ensures Core(major, minor, patch) == [x, y, z]
  {
  }

  /** Only such texts are accepted. */
  lemma ParsedIsPrinted(raw: string)
    requires ParseVersion(raw).Some?
    ensures var v := ParseVersion(raw).value;
            && InRange(v.major, v.minor, v.patch) && AllValid(v.prerelease)
            && raw == VersionText(v.major, v.minor, v.patch, v.prerelease)
  {
    AcceptedParts(raw);
    CoreOfValues(CoreParts(raw));
    PartsRejoin(raw);
    var v := ParseVersion(raw).value;
    TextJoined(v.major, v.minor, v.patch, v.prerelease);
    var tail := if v.prerelease == [] then "" else ['-'] + JoinWith(v.prerelease, '.');
    Joined(JoinWith(CoreParts(raw), '.'), tail);
  }

  lemma Joined(core: string, tail: string)
    ensures ['v'] + core + tail == ['v'] + (core + tail)
  {
  }

  /** The precedence of two versions as they are written: numbers from the left, then a
      prerelease below its release, then the identifiers. */
  lemma PrecedenceOfTexts(a: nat, b: nat, c: nat, ids: seq<string>, a': nat, b': nat, c': nat, ids': seq<string>)
    requires InRange(a, b, c) && AllValid(ids) && InRange(a', b', c') && AllValid(ids')
    ensures var v, w := ParseVersion(VersionText(a, b, c, ids)), ParseVersion(VersionText(a', b', c', ids'));
            && v.Some? && w.Some?
            && (Below(v.value, w.value) <==>
                  || a < a' || (a == a' && b < b') || (a == a' && b == b' && c < c')
                  || ((a, b, c) == (a', b', c') && ids != [] && (ids' == [] || ListBelow(ids, ids'))))
  {
    PrintedIsParsed(a, b, c, ids);
    PrintedIsParsed(a', b', c', ids');
  }

  // ---------------------------------------------------------------- the running build

  /** currentVersion: development builds do not update themselves. */
  function CurrentVersion(raw: string): Option<SemanticVersion> {
    match ParseVersion(raw)
    case None => None
    case Some(v) =>
      if exists i :: 0 <= i < |v.prerelease| && EqualFold(v.prerelease[i], "dev") then None else Some(v)
  }
}
