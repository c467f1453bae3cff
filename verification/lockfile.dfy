/**
 * internal/lockfile/lockfile.go: the immutable image lockfile, its printer, its parser and
 * the validated, atomic write.
 */
module LockFile {
  import opened Wrappers
  import opened Text
  import opened Toml
  import opened Decimal
  import opened Sorting
  import opened PrintedLines
  import R = Registry
  import A = AtomicIo

  const MAX_LOCK_VERSION: int := 2
  const EVIDENCE_VERSION: int := 1

  type GoInt = x: int | -0x8000_0000_0000_0000 <= x <= 0x7fff_ffff_ffff_ffff

  datatype Evidence = Evidence(
    version: GoInt, mechanism: string, repository: string, digest: string, signer: string, issuer: string,
    bundle: string, verifiedAt: string, verifier: string, verifierHash: string, fingerprint: string)

  datatype Entry = Entry(configured: string, resolved: string, digest: string, trust: Option<Evidence>)

  datatype Lock = Lock(version: GoInt, images: map<string, Entry>)

  const NoEvidence: Evidence := Evidence(0, "", "", "", "", "", "", "", "", "", "")
  const NoEntry: Entry := Entry("", "", "", None)

  predicate IsId(s: string) {
    s != "" && forall c :: c in s ==> '0' <= c <= '9' || 'a' <= c <= 'f'
  }

  /** The truncated hash that names a section. */
  type Id = s: string | IsId(s) witness "0"

  const SHA256_PREFIX := "sha256:"

  /** What the format takes from other packages: the section name of an image (a truncated
      SHA-256), the canonical repository of a reference that is no local image ID (policy), whether a text parses as
      an issuer URL (net/url), and the printable characters (strconv). */
  datatype Env = Env(id: string -> Id, canonical: string -> Option<string>, issuerUrl: string -> bool, shown: Printable)

  datatype Fault =
    | LineTooLong | NotKeyValue | UnsupportedSection | EmptySection | DuplicateSection | VersionMissing
    | UnsupportedTopKey | DuplicateVersion | UnsupportedVersion | DuplicateKey | BadValue | UnsupportedKey
    | Incomplete | IdMismatch | DuplicateImage | BadImageId | DigestMismatch | LocalTrust | BadRepositoryDigest
    | RepositoryMismatch | TrustNeedsVersion2 | BadEvidence

  // ---------------------------------------------------------------- numbers

  /** strconv.Atoi, with its sign. */
  function AtoiSigned(s: string): Option<GoInt> {
    if s != "" && s[0] == '-' then
      var digits := s[1..];
      if digits == "" || !AllDigits(digits) || Value(digits) > R.MAX_INT + 1 then None
      else
        var n: GoInt := -(Value(digits) as int);
        Some(n)
    else
      match R.Atoi(s) case None => None case Some(v) => Some(v)
  }

  function ItoaSigned(n: int): string {
    if n < 0 then "-" + Itoa(-n) else Itoa(n)
  }

  lemma AtoiItoa(n: GoInt)
    ensures AtoiSigned(ItoaSigned(n)) == Some(n)
  {
    var m: int := n;
    var k: nat := if m < 0 then -m else m;
    ItoaRoundTrip(k);
    if m < 0 { MinusDigits(Itoa(k), k); } else { PlainDigits(Itoa(k), k); }
  }

  lemma MinusDigits(digits: string, k: nat)
    requires digits != "" && AllDigits(digits) && Value(digits) == k && 0 < k <= R.MAX_INT + 1
    ensures var n: int := -(k as int); AtoiSigned("-" + digits) == Some(n)
  {
    assert ("-" + digits)[1..] == digits;
  }

  lemma PlainDigits(digits: string, k: nat)
    requires digits != "" && AllDigits(digits) && Value(digits) == k && k <= R.MAX_INT
    ensures AtoiSigned(digits) == Some(k)
  {
    assert digits[0] != '-' && digits[0] != '+';
  }

  // ---------------------------------------------------------------- references

  predicate IsHex(c: char) {
    '0' <= c <= '9' || 'a' <= c <= 'f' || 'A' <= c <= 'F'
  }

  /** policy.CanonicalRepository: a local image ID has none. */
  function CanonicalRepository(env: Env, ref: string): Option<string> {
    if SHA256_PREFIX <= Trim(Lower(ref)) then None else env.canonical(ref)
  }

  predicate ValidImageId(s: string) {
    |s| == 71 && SHA256_PREFIX <= s && forall i :: 7 <= i < 71 ==> IsHex(s[i])
  }

  predicate ValidSha256Hex(s: string) {
    |s| == 64 && forall i :: 0 <= i < 64 ==> '0' <= s[i] <= '9' || 'a' <= s[i] <= 'f'
  }

  function LastIndex(s: string, c: char): int {
    match R.LastIndexOf(s, c) case None => -1 case Some(i) => i
  }

  predicate HasTag(repo: string) {
    LastIndex(repo, ':') > LastIndex(repo, '/')
  }

  /** imageRepository: without digest and tag. */
  function ImageRepository(ref: string): string {
    var name := ref[..IndexOf(ref, '@')];
    var colon := LastIndex(name, ':');
    if HasTag(name) && 0 <= colon <= |name| then name[..colon] else name
  }

  const HUBS: seq<string> := ["docker.io/", "index.docker.io/", "registry-1.docker.io/"]
  const LIBRARY := "library/"

  function WithoutHub(repo: string): string {
    if HUBS[0] <= repo then repo[|HUBS[0]|..]
    else if HUBS[1] <= repo then repo[|HUBS[1]|..]
    else if HUBS[2] <= repo then repo[|HUBS[2]|..]
    else repo
  }

  /** canonicalRepository: Docker Hub's aliases folded away. */
  function HubName(repo: string): string {
    var name := WithoutHub(repo);
    if LIBRARY <= name && '/' !in name[|LIBRARY|..] then name[|LIBRARY|..] else name
  }

  /** splitImmutableRepositoryDigest */
  function SplitDigest(env: Env, ref: string): Option<(string, string)> {
    var i := IndexOf(ref, '@');
    if i == |ref| || '@' in ref[i + 1..] then None
    else
      var repo, digest := ref[..i], ref[i + 1..];
      if repo == "" || !ValidImageId(digest) || HasTag(repo) || CanonicalRepository(env, repo).None? then None
      else Some((repo, digest))
  }

  predicate SameRepository(env: Env, configured: string, ref: string) {
    SplitDigest(env, ref).Some? && HubName(SplitDigest(env, ref).value.0) == HubName(ImageRepository(configured))
  }

  /** matchRepoDigest: the first digest of the configured repository. */
  method MatchRepoDigest(env: Env, configured: string, digests: seq<string>) returns (r: Option<string>)
    ensures r.Some? ==> r.value in digests && SameRepository(env, configured, r.value)
    ensures r.None? <==> (forall i :: 0 <= i < |digests| ==> !SameRepository(env, configured, digests[i]))
    ensures forall i :: 0 <= i < |digests| && SameRepository(env, configured, digests[i]) ==>
              exists j :: 0 <= j <= i && r == Some(digests[j])
  {
    var want := HubName(ImageRepository(configured));
    var wanted := ref => SplitDigest(env, ref).Some? && HubName(SplitDigest(env, ref).value.0) == want;
    assert forall ref :: wanted(ref) == SameRepository(env, configured, ref);
    var k := FirstWanted(digests, wanted);
    if k == |digests| { return None; }
    return Some(digests[k]);
  }

  method FirstWanted(digests: seq<string>, wanted: string -> bool) returns (k: nat)
    ensures k <= |digests| && (k < |digests| ==> wanted(digests[k])) && forall i :: 0 <= i < k ==> !wanted(digests[i])
  {
    for i := 0 to |digests|
      invariant forall j :: 0 <= j < i ==> !wanted(digests[j])
    {
      if wanted(digests[i]) { return i; }
    }
    return |digests|;
  }

  // ---------------------------------------------------------------- entry checks

  predicate ValidText(s: string) {
    s != "" && Utf8Length(s) <= 1024 && forall i :: 0 <= i < |s| ==> s[i] >= ' ' && s[i] as int != 0x7f
  }

  function Number(s: string): nat {
    if AllDigits(s) then Value(s) else 0
  }

  function DaysIn(year: nat, month: nat): nat {
    if month == 2 then if year % 4 == 0 && (year % 100 != 0 || year % 400 == 0) then 29 else 28
    else if month == 4 || month == 6 || month == 9 || month == 11 then 30
    else 31
  }

  /** RFC 3339 in UTC to the second, as time.Format prints it: 2006-01-02T15:04:05Z. */
  predicate UtcSeconds(s: string) {
    && |s| == 20
    && s[4] == '-' && s[7] == '-' && s[10] == 'T' && s[13] == ':' && s[16] == ':' && s[19] == 'Z'
    && AllDigits(s[..4]) && AllDigits(s[5..7]) && AllDigits(s[8..10])
    && AllDigits(s[11..13]) && AllDigits(s[14..16]) && AllDigits(s[17..19])
    && 1 <= Number(s[5..7]) <= 12
    && 1 <= Number(s[8..10]) <= DaysIn(Number(s[..4]), Number(s[5..7]))
    && Number(s[11..13]) < 24 && Number(s[14..16]) < 60 && Number(s[17..19]) < 60
  }

  /** A keyless signer with an issuer, or the hash of a key without one. */
  predicate SignerOk(env: Env, t: Evidence) {
    && ValidText(t.signer)
    && ((t.mechanism == "keyless" && ValidText(t.issuer) && env.issuerUrl(t.issuer))
        || (t.mechanism == "key" && t.issuer == "" && ValidSha256Hex(t.signer)))
  }

  /** What a lockfile may claim about the verification of an image. */
  predicate EvidenceOk(env: Env, configured: string, repository: string, digest: string, t: Evidence) {
    && t.version == EVIDENCE_VERSION
    && CanonicalRepository(env, configured) == Some(t.repository)
    && CanonicalRepository(env, repository) == Some(t.repository)
    && t.digest == digest && ValidImageId(t.digest)
    && SignerOk(env, t)
    && ValidSha256Hex(t.bundle)
    && UtcSeconds(t.verifiedAt)
    && t.verifier == "cosign"
    && ValidSha256Hex(t.verifierHash) && ValidSha256Hex(t.fingerprint)
  }

  /** The checks of `flush` on what an entry pins. */
  function PinFault(env: Env, version: int, e: Entry): Option<Fault> {
    if SHA256_PREFIX <= e.resolved then
      if !ValidImageId(e.resolved) then Some(BadImageId)
      else if e.digest != e.resolved then Some(DigestMismatch)
      else if e.trust.Some? then Some(LocalTrust)
      else None
    else
      match SplitDigest(env, e.resolved)
      case None => Some(BadRepositoryDigest)
      case Some(split) =>
        if e.digest != split.1 then Some(DigestMismatch)
        else if !SameRepository(env, e.configured, e.resolved) then Some(RepositoryMismatch)
        else if e.trust.None? then None
        else if version < 2 then Some(TrustNeedsVersion2)
        else if !EvidenceOk(env, e.configured, split.0, e.digest, e.trust.value) then Some(BadEvidence)
        else None
  }

  predicate Complete(e: Entry) {
    e.configured != "" && e.resolved != "" && e.digest != ""
  }

  predicate EntryOk(env: Env, version: int, e: Entry) {
    Complete(e) && PinFault(env, version, e) == None
  }

  /** Everything `flush` checks, in its order. */
  function FlushFault(env: Env, version: int, images: map<string, Entry>, key: string, e: Entry): Option<Fault> {
    if !Complete(e) then Some(Incomplete)
    else if key != env.id(e.configured) then Some(IdMismatch)
    else if e.configured in images then Some(DuplicateImage)
    else PinFault(env, version, e)
  }

  // ---------------------------------------------------------------- fields

  datatype Field =
    | Configured | Resolved | Digest | EvidenceVersion | Mechanism | Repository | EvidenceDigest | Signer | Issuer
    | Bundle | VerifiedAt | Verifier | VerifierHash | Fingerprint

  function FieldName(f: Field): string {
    match f
    case Configured => "configured"
    case Resolved => "resolved"
    case Digest => "digest"
    case EvidenceVersion => "evidence_version"
    case Mechanism => "evidence_mechanism"
    case Repository => "evidence_repository"
    case EvidenceDigest => "evidence_digest"
    case Signer => "evidence_signer"
    case Issuer => "evidence_issuer"
    case Bundle => "evidence_bundle_sha256"
    case VerifiedAt => "evidence_verified_at"
    case Verifier => "evidence_verifier"
    case VerifierHash => "evidence_verifier_sha256"
    case Fingerprint => "evidence_policy_fingerprint"
  }

  const FIELDS: seq<Field> := [Configured, Resolved, Digest, EvidenceVersion, Mechanism, Repository, EvidenceDigest, Signer,
                               Issuer, Bundle, VerifiedAt, Verifier, VerifierHash, Fingerprint]

  function FieldFrom(fields: seq<Field>, key: string): Option<Field> {
    if fields == [] then None else if FieldName(fields[0]) == key then Some(fields[0]) else FieldFrom(fields[1..], key)
  }

  /** The field a key names. */
  function FieldOf(key: string): Option<Field> {
    FieldFrom(FIELDS, key)
  }

  /** ensureTrustEvidence */
  function TrustOf(e: Entry): Evidence {
    if e.trust.None? then NoEvidence else e.trust.value
  }

  function SetEvidence(t: Evidence, f: Field, v: string): Evidence {
    match f
    case Mechanism => t.(mechanism := v)
    case Repository => t.(repository := v)
    case EvidenceDigest => t.(digest := v)
    case Signer => t.(signer := v)
    case Issuer => t.(issuer := v)
    case Bundle => t.(bundle := v)
    case VerifiedAt => t.(verifiedAt := v)
    case Verifier => t.(verifier := v)
    case VerifierHash => t.(verifierHash := v)
    case Fingerprint => t.(fingerprint := v)
    case _ => t
  }

  function SetText(e: Entry, f: Field, v: string): Entry {
    match f
    case Configured => e.(configured := v)
    case Resolved => e.(resolved := v)
    case Digest => e.(digest := v)
    case _ => e.(trust := Some(SetEvidence(TrustOf(e), f, v)))
  }

  /** Read one value into its field. */
  function SetField(e: Entry, f: Field, value: string): Option<Entry> {
    if f == EvidenceVersion then
      match AtoiSigned(value)
      case None => None
      case Some(n) => Some(e.(trust := Some(TrustOf(e).(version := n))))
    else
      match ParseQuoted(value) case None => None case Some(v) => Some(SetText(e, f, v))
  }

  // ---------------------------------------------------------------- the line parser

  datatype Open = Closed | Open(key: string, entry: Entry, seen: set<Field>)

  /** What has been read; version 0 means that lock_version has not been seen. */
  datatype State =
    | Reading(version: nat, sections: set<string>, images: map<string, Entry>, cur: Open)
    | Rejected(fault: Fault)

  const Start: State := Reading(0, {}, map[], Closed)

  datatype Item = TooLong | Blank | Header(section: string) | Words | Assign(key: string, value: string)

  function ItemOf(line: string): Item {
    if line == "" then Blank
    else if |line| >= 2 && line[0] == '[' && line[|line| - 1] == ']' then Header(Trim(line[1..|line| - 1]))
    else
      var eq := IndexOf(line, '=');
      if eq == |line| then Words else Assign(Trim(line[..eq]), Trim(line[eq + 1..]))
  }

  function Read(raw: string): Item {
    if !FitsScanner(raw) then TooLong else ItemOf(R.Meaning(R.ScanToken(raw)))
  }

  function Items(lines: seq<string>): (items: seq<Item>)
    ensures |items| == |lines|
  {
    seq(|lines|, i requires 0 <= i < |lines| => Read(lines[i]))
  }

  function Flush(env: Env, st: State): State {
    if st.Rejected? || st.cur.Closed? then st
    else
      match FlushFault(env, st.version, st.images, st.cur.key, st.cur.entry)
      case Some(fault) => Rejected(fault)
      case None => st.(images := st.images[st.cur.entry.configured := st.cur.entry])
  }

  const IMAGES := "images."

  function StepHeader(st: State, section: string): State {
    if st.Rejected? then st
    else if st.version == 0 then Rejected(VersionMissing)
    else if !(IMAGES <= section) then Rejected(UnsupportedSection)
    else
      var key := section[|IMAGES|..];
      if key == "" then Rejected(EmptySection)
      else if key in st.sections then Rejected(DuplicateSection)
      else st.(sections := st.sections + {key}, cur := Open(key, NoEntry, {}))
  }

  const LOCK_VERSION := "lock_version"

  function StepTop(st: State, key: string, value: string): State
    requires st.Reading?
  {
    if key != LOCK_VERSION then Rejected(UnsupportedTopKey)
    else if st.version != 0 then Rejected(DuplicateVersion)
    else
      match AtoiSigned(value)
      case None => Rejected(UnsupportedVersion)
      case Some(v) => if v < 1 || v > MAX_LOCK_VERSION then Rejected(UnsupportedVersion) else st.(version := v)
  }

  function StepField(st: State, key: string, value: string): State
    requires st.Reading? && st.cur.Open?
  {
    match FieldOf(key)
    case None => Rejected(if ParseQuoted(value).None? then BadValue else UnsupportedKey)
    case Some(f) =>
      if f in st.cur.seen then Rejected(DuplicateKey)
      else
        match SetField(st.cur.entry, f, value)
        case None => Rejected(BadValue)
        case Some(e) => st.(cur := Open(st.cur.key, e, st.cur.seen + {f}))
  }

  function Step(env: Env, st: State, item: Item): State {
    if st.Rejected? then st
    else
      match item
      case TooLong => Rejected(LineTooLong)
      case Blank => st
      case Header(section) => StepHeader(Flush(env, st), section)
      case Words => Rejected(NotKeyValue)
      case Assign(key, value) => if st.cur.Closed? then StepTop(st, key, value) else StepField(st, key, value)
  }

  function Run(env: Env, st: State, items: seq<Item>): State
    decreases |items|
  {
    if items == [] then st else Run(env, Step(env, st, items[0]), items[1..])
  }

  function Finish(env: Env, st: State): Result<Lock, Fault> {
    var done := Flush(env, st);
    if done.Rejected? then Err(done.fault)
    else if done.version == 0 then Err(VersionMissing)
    else if done.version > MAX_LOCK_VERSION then Err(UnsupportedVersion)
    else Ok(Lock(done.version, done.images))
  }

  function ParseLock(env: Env, text: string): Result<Lock, Fault> {
    Finish(env, Run(env, Start, Items(SplitAfter(text))))
  }

  // ---------------------------------------------------------------- the parser's loop

  /** containsControl */
  method ContainsControl(value: string) returns (found: bool)
    ensures found <==> exists i :: 0 <= i < |value| && (value[i] < ' ' || value[i] as int == 0x7f)
  {
    for i := 0 to |value|
      invariant forall k :: 0 <= k < i ==> value[k] >= ' ' && value[k] as int != 0x7f
    {
      if value[i] < ' ' || value[i] as int == 0x7f { return true; }
    }
    return false;
  }

  method ValidateText(value: string) returns (ok: bool)
    ensures ok <==> ValidText(value)
  {
    var control := ContainsControl(value);
    return value != "" && Utf8Length(value) <= 1024 && !control;
  }

  method ValidateSigner(env: Env, t: Evidence) returns (ok: bool)
    ensures ok <==> SignerOk(env, t)
  {
    ok := ValidateText(t.signer);
    if !ok { return; }
    match t.mechanism {
      case "keyless" =>
        ok := ValidateText(t.issuer);
        return ok && env.issuerUrl(t.issuer);
      case "key" => return t.issuer == "" && ValidSha256Hex(t.signer);
      case _ => return false;
    }
  }

  /** validateImageTrustEvidence, check by check. */
  method ValidateEvidence(env: Env, configured: string, repository: string, digest: string, t: Evidence) returns (ok: bool)
    ensures ok <==> EvidenceOk(env, configured, repository, digest, t)
  {
    if t.version != EVIDENCE_VERSION { return false; }
    var wanted := CanonicalRepository(env, configured);
    if wanted.None? { return false; }
    var resolved := CanonicalRepository(env, repository);
    if resolved.None? { return false; }
    if t.repository != wanted.value || t.repository != resolved.value { return false; }
    if t.digest != digest || !ValidImageId(t.digest) { return false; }
    var signed := ValidateSigner(env, t);
    if !signed { return false; }
    if !ValidSha256Hex(t.bundle) { return false; }
    if !UtcSeconds(t.verifiedAt) { return false; }
    if t.verifier != "cosign" { return false; }
    if !ValidSha256Hex(t.verifierHash) { return false; }
    return ValidSha256Hex(t.fingerprint);
  }

  /** The `flush` closure. */
  method FlushEntry(env: Env, version: nat, images: map<string, Entry>, cur: Open, ghost sections: set<string>)
    returns (fault: Option<Fault>, next: map<string, Entry>)
    ensures Flush(env, Reading(version, sections, images, cur)) ==
            if fault.Some? then Rejected(fault.value) else Reading(version, sections, next, cur)
  {
    fault, next := None, images;
    if cur.Closed? { return; }
    var e := cur.entry;
    if e.configured == "" || e.resolved == "" || e.digest == "" { return Some(Incomplete), images; }
    if cur.key != env.id(e.configured) { return Some(IdMismatch), images; }
    if e.configured in images { return Some(DuplicateImage), images; }
    if SHA256_PREFIX <= e.resolved {
      if !ValidImageId(e.resolved) { return Some(BadImageId), images; }
      if e.digest != e.resolved { return Some(DigestMismatch), images; }
      if e.trust.Some? { return Some(LocalTrust), images; }
    } else {
      var split := SplitDigest(env, e.resolved);
      if split.None? { return Some(BadRepositoryDigest), images; }
      if e.digest != split.value.1 { return Some(DigestMismatch), images; }
      var matched := MatchRepoDigest(env, e.configured, [e.resolved]);
      assert [e.resolved][0] == e.resolved;
      if matched != Some(e.resolved) { return Some(RepositoryMismatch), images; }
      if e.trust.Some? {
        if version < 2 { return Some(TrustNeedsVersion2), images; }
        var valid := ValidateEvidence(env, e.configured, split.value.0, e.digest, e.trust.value);
        if !valid { return Some(BadEvidence), images; }
      }
    }
    next := images[e.configured := e];
  }

  /** A section header, after the flush. */
  method OpenSection(version: nat, sections0: set<string>, images: map<string, Entry>, cur0: Open, section: string)
    returns (fault: Option<Fault>, sections: set<string>, cur: Open)
    ensures StepHeader(Reading(version, sections0, images, cur0), section) ==
            if fault.Some? then Rejected(fault.value) else Reading(version, sections, images, cur)
  {
    fault, sections, cur := None, sections0, cur0;
    if version == 0 { return Some(VersionMissing), sections, cur; }
    if !(IMAGES <= section) { return Some(UnsupportedSection), sections, cur; }
    var key := section[|IMAGES|..];
    if key == "" { return Some(EmptySection), sections, cur; }
    if key in sections { return Some(DuplicateSection), sections, cur; }
    sections, cur := sections + {key}, Open(key, NoEntry, {});
  }

  /** A key line: lock_version before the first section, a field of the open entry after it. */
  method ReadKey(version0: nat, sections: set<string>, images: map<string, Entry>, cur0: Open, key: string, value: string)
    returns (fault: Option<Fault>, version: nat, cur: Open)
    ensures var st := Reading(version0, sections, images, cur0);
            (if cur0.Closed? then StepTop(st, key, value) else StepField(st, key, value)) ==
            if fault.Some? then Rejected(fault.value) else Reading(version, sections, images, cur)
    ensures version0 <= MAX_LOCK_VERSION ==> version <= MAX_LOCK_VERSION
  {
    fault, version, cur := None, version0, cur0;
    if cur.Closed? {
      if key != LOCK_VERSION { return Some(UnsupportedTopKey), version, cur; }
      if version != 0 { return Some(DuplicateVersion), version, cur; }
      var v := AtoiSigned(value);
      if v.None? || v.value < 1 || v.value > MAX_LOCK_VERSION { return Some(UnsupportedVersion), version, cur; }
      version := v.value;
    } else {
      var field := FieldOf(key);
      if field.None? { return Some(if ParseQuoted(value).None? then BadValue else UnsupportedKey), version, cur; }
      if field.value in cur.seen { return Some(DuplicateKey), version, cur; }
      var e := SetField(cur.entry, field.value, value);
      if e.None? { return Some(BadValue), version, cur; }
      cur := Open(cur.key, e.value, cur.seen + {field.value});
    }
  }

  method ReadHeader(env: Env, version: nat, sections0: set<string>, images0: map<string, Entry>, cur0: Open, section: string)
    returns (fault: Option<Fault>, sections: set<string>, images: map<string, Entry>, cur: Open)
    ensures Step(env, Reading(version, sections0, images0, cur0), Header(section)) ==
            if fault.Some? then Rejected(fault.value) else Reading(version, sections, images, cur)
  {
    sections, cur := sections0, cur0;
    fault, images := FlushEntry(env, version, images0, cur, sections);
    if fault.Some? { return; }
    fault, sections, cur := OpenSection(version, sections, images, cur, section);
  }

  /** The body of the loop, for one line. */
  method ReadLine(env: Env, raw: string, version0: nat, sections0: set<string>, images0: map<string, Entry>, cur0: Open)
    returns (fault: Option<Fault>, version: nat, sections: set<string>, images: map<string, Entry>, cur: Open)
    requires version0 <= MAX_LOCK_VERSION
    ensures Step(env, Reading(version0, sections0, images0, cur0), Read(raw)) ==
            if fault.Some? then Rejected(fault.value) else Reading(version, sections, images, cur)
    ensures version <= MAX_LOCK_VERSION
  {
    fault, version, sections, images, cur := None, version0, sections0, images0, cur0;
    match Read(raw) {
      case TooLong => fault := Some(LineTooLong);
      case Blank =>
      case Header(section) => fault, sections, images, cur := ReadHeader(env, version, sections, images, cur, section);
      case Words => fault := Some(NotKeyValue);
      case Assign(key, value) => fault, version, cur := ReadKey(version, sections, images, cur, key, value);
    }
  }

  /** parseLockFile as the source runs it. */
  method ParseLoop(env: Env, text: string) returns (r: Result<Lock, Fault>)
    ensures r == ParseLock(env, text)
  {
    var lines := R.Tokens(text);
    TokensSuffice(env, text);
    ghost var items := Items(lines);
    var version: nat, images: map<string, Entry>, cur: Open, seenSections: set<string> := 0, map[], Closed, {};
    for i := 0 to |lines|
      invariant version <= MAX_LOCK_VERSION
      invariant Run(env, Start, items) == Run(env, Reading(version, seenSections, images, cur), items[i..])
    {
      assert items[i..][1..] == items[i + 1..];
      var fault: Option<Fault>;
      fault, version, seenSections, images, cur := ReadLine(env, lines[i], version, seenSections, images, cur);
      if fault.Some? {
        RunRejected(env, Rejected(fault.value), items[i + 1..]);
        return Err(fault.value);
      }
    }
    var fault, flushed := FlushEntry(env, version, images, cur, seenSections);
    if fault.Some? { return Err(fault.value); }
    if version == 0 { return Err(VersionMissing); }
    return Ok(Lock(version, flushed));
  }

  // ---------------------------------------------------------------- the printer

  /** The text an entry holds in a field. */
  function TextOf(e: Entry, f: Field): string {
    var t := TrustOf(e);
    match f
    case Configured => e.configured
    case Resolved => e.resolved
    case Digest => e.digest
    case EvidenceVersion => ""
    case Mechanism => t.mechanism
    case Repository => t.repository
    case EvidenceDigest => t.digest
    case Signer => t.signer
    case Issuer => t.issuer
    case Bundle => t.bundle
    case VerifiedAt => t.verifiedAt
    case Verifier => t.verifier
    case VerifierHash => t.verifierHash
    case Fingerprint => t.fingerprint
  }

  function Printed(env: Env, e: Entry, f: Field): string {
    if f == EvidenceVersion then ItoaSigned(TrustOf(e).version) else Quote(env.shown, TextOf(e, f))
  }

  /** The fields printed for an entry from the `n`-th on: no evidence without trust, no
      issuer when it is empty. */
  function OrderFrom(e: Entry, n: nat): seq<Field>
    decreases |FIELDS| - n
  {
    if n >= |FIELDS| || (n == 3 && e.trust.None?) then []
    else if FIELDS[n] == Issuer && TrustOf(e).issuer == "" then OrderFrom(e, n + 1)
    else [FIELDS[n]] + OrderFrom(e, n + 1)
  }

  function PrintFields(env: Env, e: Entry, order: seq<Field>): (fields: seq<(Field, string)>)
    ensures |fields| == |order|
  {
    seq(|order|, i requires 0 <= i < |order| => (order[i], Printed(env, e, order[i])))
  }

  function FieldsOf(env: Env, e: Entry): seq<(Field, string)> {
    PrintFields(env, e, OrderFrom(e, 0))
  }

  function FieldLines(fields: seq<(Field, string)>): (lines: seq<string>)
    ensures |lines| == |fields|
  {
    seq(|fields|, i requires 0 <= i < |fields| => AssignLine(FieldName(fields[i].0), fields[i].1))
  }

  function EntryLines(env: Env, key: string, e: Entry): seq<string> {
    ["\n", HeaderLine(IMAGES + env.id(key))] + FieldLines(FieldsOf(env, e))
  }

  const ABOUT := " container-bin immutable image lockfile"
  const ORIGIN := " Generated by cb lock / cb update."
  const ADVICE := " Do not edit by hand."
  const COMMENT1 := CommentLine(ABOUT)
  const COMMENT2 := CommentLine(ORIGIN + ADVICE)

  function TopLines(version: int): seq<string> {
    [COMMENT1, COMMENT2, AssignLine(LOCK_VERSION, ItoaSigned(version))]
  }

  function ImageLines(env: Env, keys: seq<string>, images: map<string, Entry>): seq<string>
    requires forall i :: 0 <= i < |keys| ==> keys[i] in images
  {
    if keys == [] then [] else ImageLines(env, keys[..|keys| - 1], images) + EntryLines(env, keys[|keys| - 1], images[keys[|keys| - 1]])
  }

  /** The lines of the printed lock, images in ascending order. */
  ghost function Lines(env: Env, lf: Lock): seq<string> {
    TopLines(lf.version) + ImageLines(env, SortedSeq(lf.images.Keys), lf.images)
  }

  ghost function Render(env: Env, lf: Lock): string {
    Concat(Lines(env, lf))
  }

  lemma ImageLinesStep(env: Env, keys: seq<string>, images: map<string, Entry>, i: nat)
    requires i < |keys| && forall i :: 0 <= i < |keys| ==> keys[i] in images
    ensures ImageLines(env, keys[..i + 1], images) ==
            ImageLines(env, keys[..i], images) + EntryLines(env, keys[i], images[keys[i]])
  {
    assert keys[..i + 1][..i] == keys[..i];
  }

  method PrintImages(env: Env, keys: seq<string>, images: map<string, Entry>) returns (text: string)
    requires forall i :: 0 <= i < |keys| ==> keys[i] in images
    ensures text == Concat(ImageLines(env, keys, images))
  {
    text := "";
    for i := 0 to |keys|
      invariant text == Concat(ImageLines(env, keys[..i], images))
    {
      ImageLinesStep(env, keys, images, i);
      ConcatAppend(ImageLines(env, keys[..i], images), EntryLines(env, keys[i], images[keys[i]]));
      text := text + Concat(EntryLines(env, keys[i], images[keys[i]]));
    }
    assert keys[..|keys|] == keys;
  }

  /** render as the source runs it: keys collected in any order, sorted, printed into a builder. */
  method RenderLoop(env: Env, lf: Lock) returns (text: string)
    ensures text == Render(env, lf)
  {
    var keys := SortedElements(lf.images.Keys);
    EnumerationUnique(keys, SortedSeq(lf.images.Keys), lf.images.Keys);
    forall i | 0 <= i < |keys| ensures keys[i] in lf.images { assert keys[i] in keys; }
    var images := PrintImages(env, keys, lf.images);
    ConcatAppend(TopLines(lf.version), ImageLines(env, keys, lf.images));
    return Concat(TopLines(lf.version)) + images;
  }

  // ---------------------------------------------------------------- lemmas on runs

  lemma {:induction false} RunRejected(env: Env, st: State, items: seq<Item>)
    requires st.Rejected?
    ensures Run(env, st, items) == st
    decreases |items|
  {
    if items != [] { RunRejected(env, Step(env, st, items[0]), items[1..]); }
  }

  lemma {:induction false} RunAppend(env: Env, st: State, a: seq<Item>, b: seq<Item>)
    ensures Run(env, st, a + b) == Run(env, Run(env, st, a), b)
    decreases |a|
  {
    if a == [] {
      assert a + b == b;
    } else {
      assert (a + b)[1..] == a[1..] + b;
      RunAppend(env, Step(env, st, a[0]), a[1..], b);
    }
  }

  lemma RunTrailingBlank(env: Env, st: State, lines: seq<string>)
    ensures Run(env, st, Items(lines + [""])) == Run(env, st, Items(lines))
  {
    assert R.Meaning("") == "";
    assert R.ScanToken("") == "";
    assert Items(lines + [""]) == Items(lines) + [Blank];
    RunAppend(env, st, Items(lines), [Blank]);
    var end := Run(env, st, Items(lines));
    assert Run(env, end, [Blank]) == Run(env, Step(env, end, Blank), [Blank][1..]);
  }

  lemma TokensSuffice(env: Env, text: string)
    ensures Run(env, Start, Items(R.Tokens(text))) == Run(env, Start, Items(SplitAfter(text)))
  {
    var lines := SplitAfter(text);
    if lines[|lines| - 1] == "" {
      assert lines == R.Tokens(text) + [""];
      RunTrailingBlank(env, Start, R.Tokens(text));
    }
  }

  // ---------------------------------------------------------------- reading printed lines

  lemma FieldNames(f: Field)
    ensures FieldOf(FieldName(f)) == Some(f)
  {
    FieldFound(FIELDS, f);
  }

  lemma FieldNamesDiffer(f: Field, g: Field)
    requires FieldName(f) == FieldName(g)
    ensures f == g
  {
    match f
    case Configured => case Resolved => case Digest => case EvidenceVersion => case Mechanism => case Repository =>
    case EvidenceDigest => case Signer => case Issuer => case Bundle => case VerifiedAt => case Verifier =>
    case VerifierHash => case Fingerprint =>
  }

  lemma {:induction false} FieldFound(fields: seq<Field>, f: Field)
    requires f in fields
    ensures FieldFrom(fields, FieldName(f)) == Some(f)
  {
    if FieldName(fields[0]) == FieldName(f) {
      FieldNamesDiffer(fields[0], f);
    } else {
      FieldFound(fields[1..], f);
    }
  }

  lemma FieldNameIsKey(f: Field)
    ensures PlainKey(FieldName(f))
  {
  }

  lemma ReadAssign(key: string, value: string)
    requires PlainKey(key) && ClosedValue(value) && FitsScanner(AssignLine(key, value))
    ensures Read(AssignLine(key, value)) == Assign(key, value)
  {
    R.MeaningOfToken(AssignLine(key, value));
    RenderedLine(key, value);
    RenderedKey(key, value);
    RenderedParts(key, value);
    assert key[0] in key;
  }

  lemma HeaderItem(section: string)
    requires Trimmed(section)
    ensures ItemOf("[" + section + "]") == Header(section)
  {
    var line := "[" + section + "]";
    assert line[1..|line| - 1] == section;
    TrimTrimmed(section);
  }

  lemma ReadHeaderLine(section: string)
    requires Trimmed(section) && '"' !in section && '#' !in section
    requires FitsScanner(HeaderLine(section))
    ensures Read(HeaderLine(section)) == Header(section)
  {
    R.MeaningOfToken(HeaderLine(section));
    HeaderMeaning(section);
    HeaderItem(section);
  }

  lemma SectionIsPlain(id: Id)
    ensures var section := IMAGES + id;
            Trimmed(section) && '"' !in section && '#' !in section && '\n' !in section && IMAGES <= section
            && section[|IMAGES|..] == id
  {
    var section := IMAGES + id;
    assert section[|section| - 1] == id[|id| - 1] && id[|id| - 1] in id;
  }

  lemma PlainIsClosed(s: string)
    requires s != "" && forall c :: c in s ==> c == '-' || IsDigit(c)
    ensures ClosedValue(s) && '\n' !in s
  {
    assert s[|s| - 1] in s && s[0] in s;
    PlainText(s);
  }

  lemma ItoaIsClosed(n: int)
    ensures ClosedValue(ItoaSigned(n)) && '\n' !in ItoaSigned(n)
  {
    var k: nat := if n < 0 then -n else n;
    ItoaRoundTrip(k);
    assert forall c :: c in Itoa(k) ==> IsDigit(c);
    PlainIsClosed(ItoaSigned(n));
  }

  // ---------------------------------------------------------------- one entry

  /** What the fields of a section make of an entry, or nothing when one is refused. */
  function SetAll(cur: Open, fields: seq<(Field, string)>): (r: Option<Open>)
    requires cur.Open?
    ensures r.Some? ==> r.value.Open?
    decreases |fields|
  {
    if fields == [] then Some(cur)
    else if fields[0].0 in cur.seen then None
    else
      match SetField(cur.entry, fields[0].0, fields[0].1)
      case None => None
      case Some(e) => SetAll(Open(cur.key, e, cur.seen + {fields[0].0}), fields[1..])
  }

  function Rank(f: Field): nat {
    match f
    case Configured => 0 case Resolved => 1 case Digest => 2 case EvidenceVersion => 3 case Mechanism => 4
    case Repository => 5 case EvidenceDigest => 6 case Signer => 7 case Issuer => 8 case Bundle => 9
    case VerifiedAt => 10 case Verifier => 11 case VerifierHash => 12 case Fingerprint => 13
  }

  /** The part of an entry that its first `n` fields determine. */
  function Masked(e: Entry, n: nat): Entry {
    Entry(if n > 0 then e.configured else "", if n > 1 then e.resolved else "", if n > 2 then e.digest else "",
          if n > 3 && e.trust.Some? then Some(MaskedEvidence(e.trust.value, n)) else None)
  }

  function MaskedEvidence(t: Evidence, n: nat): Evidence {
    Evidence(t.version, if n > 4 then t.mechanism else "", if n > 5 then t.repository else "",
             if n > 6 then t.digest else "", if n > 7 then t.signer else "", if n > 8 then t.issuer else "",
             if n > 9 then t.bundle else "", if n > 10 then t.verifiedAt else "", if n > 11 then t.verifier else "",
             if n > 12 then t.verifierHash else "", if n > 13 then t.fingerprint else "")
  }

  lemma SetMasked(e: Entry, f: Field)
    requires Rank(f) > 3 ==> e.trust.Some?
    requires f != EvidenceVersion
    ensures SetText(Masked(e, Rank(f)), f, TextOf(e, f)) == Masked(e, Rank(f) + 1)
  {
  }

  lemma SetPrinted(env: Env, e: Entry, f: Field)
    requires Rank(f) >= 3 ==> e.trust.Some?
    ensures SetField(Masked(e, Rank(f)), f, Printed(env, e, f)) == Some(Masked(e, Rank(f) + 1))
  {
    if f == EvidenceVersion {
      AtoiItoa(TrustOf(e).version);
    } else {
      ParseQuotedQuote(env.shown, TextOf(e, f));
      SetMasked(e, f);
    }
  }

  lemma RankOfField(n: nat)
    requires n < |FIELDS|
    ensures Rank(FIELDS[n]) == n
  {
  }

  lemma SetAllStep(env: Env, cur: Open, e: Entry, next: Entry, f: Field, rest: seq<Field>)
    requires cur.Open? && f !in cur.seen && SetField(cur.entry, f, Printed(env, e, f)) == Some(next)
    ensures SetAll(cur, PrintFields(env, e, [f] + rest)) ==
            SetAll(Open(cur.key, next, cur.seen + {f}), PrintFields(env, e, rest))
  {
    var fields := PrintFields(env, e, [f] + rest);
    assert fields[0] == (f, Printed(env, e, f));
    assert fields[1..] == PrintFields(env, e, rest);
  }

  lemma MaskedByAll(e: Entry, n: nat)
    requires n >= |FIELDS| || (n == 3 && e.trust.None?)
    ensures Masked(e, n) == e && OrderFrom(e, n) == []
  {
  }

  lemma MaskedSkip(e: Entry)
    requires TrustOf(e).issuer == ""
    ensures Masked(e, 9) == Masked(e, 8)
  {
  }

  /** The printed fields of an entry, read into an empty one, give the entry back. */
  lemma {:induction false} SetAllFields(env: Env, key: string, e: Entry, n: nat, seen: set<Field>)
    requires n <= |FIELDS| && (forall f :: f in seen ==> Rank(f) < n) && (e.trust.None? ==> n <= 3)
    ensures var r := SetAll(Open(key, Masked(e, n), seen), PrintFields(env, e, OrderFrom(e, n)));
            r.Some? && r.value.key == key && r.value.entry == e
    decreases |FIELDS| - n
  {
    if n == |FIELDS| || (n == 3 && e.trust.None?) {
      MaskedByAll(e, n);
      assert PrintFields(env, e, []) == [];
    } else {
      var f := FIELDS[n];
      RankOfField(n);
      if f == Issuer && TrustOf(e).issuer == "" {
        MaskedSkip(e);
        SetAllFields(env, key, e, n + 1, seen);
      } else {
        SetPrinted(env, e, f);
        SetAllStep(env, Open(key, Masked(e, n), seen), e, Masked(e, n + 1), f, OrderFrom(e, n + 1));
        SetAllFields(env, key, e, n + 1, seen + {f});
      }
    }
  }

  lemma SetWholeEntry(env: Env, key: string, e: Entry)
    ensures var r := SetAll(Open(key, NoEntry, {}), FieldsOf(env, e));
            r.Some? && r.value.key == key && r.value.entry == e
  {
    assert Masked(e, 0) == NoEntry;
    SetAllFields(env, key, e, 0, {});
  }

  // ---------------------------------------------------------------- a section

  function FieldItems(fields: seq<(Field, string)>): (items: seq<Item>)
    ensures |items| == |fields|
  {
    seq(|fields|, i requires 0 <= i < |fields| => Assign(FieldName(fields[i].0), fields[i].1))
  }

  lemma {:induction false} RunFields(env: Env, st: State, fields: seq<(Field, string)>)
    requires st.Reading? && st.cur.Open? && SetAll(st.cur, fields).Some?
    ensures Run(env, st, FieldItems(fields)) == st.(cur := SetAll(st.cur, fields).value)
    decreases |fields|
  {
    if fields != [] {
      var f := fields[0].0;
      FieldNames(f);
      var e := SetField(st.cur.entry, f, fields[0].1).value;
      assert FieldItems(fields)[1..] == FieldItems(fields[1..]);
      RunFields(env, st.(cur := Open(st.cur.key, e, st.cur.seen + {f})), fields[1..]);
    }
  }

  lemma ReadField(env: Env, e: Entry, f: Field)
    requires FitsScanner(AssignLine(FieldName(f), Printed(env, e, f)))
    ensures Read(AssignLine(FieldName(f), Printed(env, e, f))) == Assign(FieldName(f), Printed(env, e, f))
  {
    FieldNameIsKey(f);
    if f == EvidenceVersion { ItoaIsClosed(TrustOf(e).version); } else { QuoteIsClosed(env.shown, TextOf(e, f)); }
    ReadAssign(FieldName(f), Printed(env, e, f));
  }

  lemma ReadFields(env: Env, e: Entry, order: seq<Field>)
    requires AllFit(FieldLines(PrintFields(env, e, order)))
    ensures Items(FieldLines(PrintFields(env, e, order))) == FieldItems(PrintFields(env, e, order))
  {
    var fields := PrintFields(env, e, order);
    forall i | 0 <= i < |fields| ensures Read(FieldLines(fields)[i]) == FieldItems(fields)[i] {
      assert FitsScanner(FieldLines(fields)[i]);
      ReadField(env, e, order[i]);
    }
  }

  lemma ReadNewline()
    ensures Read("\n") == Blank
  {
    assert WithoutNewline("\n") == "" && R.ScanToken("\n") == "";
    assert R.Meaning("") == "";
  }

  lemma ReadImageHeader(id: Id)
    requires FitsScanner(HeaderLine(IMAGES + id))
    ensures Read(HeaderLine(IMAGES + id)) == Header(IMAGES + id)
  {
    SectionIsPlain(id);
    ReadHeaderLine(IMAGES + id);
  }

  lemma ItemsAppend(a: seq<string>, b: seq<string>)
    ensures Items(a + b) == Items(a) + Items(b)
  {
  }

  lemma ReadEntry(env: Env, key: string, e: Entry)
    requires AllFit(EntryLines(env, key, e))
    ensures Items(EntryLines(env, key, e)) == [Blank, Header(IMAGES + env.id(key))] + FieldItems(FieldsOf(env, e))
  {
    var h := HeaderLine(IMAGES + env.id(key));
    var fields := FieldLines(FieldsOf(env, e));
    AllFitAppend(["\n", h], fields);
    ItemsAppend(["\n", h], fields);
    ReadFields(env, e, OrderFrom(e, 0));
    ReadHead("\n", h, env.id(key));
  }

  lemma ReadHead(newline: string, header: string, id: Id)
    requires newline == "\n" && header == HeaderLine(IMAGES + id) && AllFit([newline, header])
    ensures Items([newline, header]) == [Blank, Header(IMAGES + id)]
  {
    assert FitsScanner([newline, header][1]);
    ReadNewline();
    ReadImageHeader(id);
  }

  /** What an open section of a printed entry leaves for its `flush`. */
  predicate Holds(cur: Open, id: string, e: Entry) {
    cur.Open? && cur.key == id && cur.entry == e
  }

  lemma StepImageHeader(env: Env, st: State, id: Id)
    requires st.Reading? && st.version > 0
    ensures var flushed := Flush(env, st);
            Step(env, st, Header(IMAGES + id)) ==
            if flushed.Rejected? then flushed
            else if id in st.sections then Rejected(DuplicateSection)
            else flushed.(sections := st.sections + {id}, cur := Open(id, NoEntry, {}))
  {
    SectionIsPlain(id);
    FlushKeeps(env, st);
  }

  lemma RunSection(env: Env, st: State, id: Id, e: Entry)
    requires st.Reading? && st.version > 0
    ensures var end, flushed := Run(env, st, [Blank, Header(IMAGES + id)] + FieldItems(FieldsOf(env, e))), Flush(env, st);
            if flushed.Reading? && id !in st.sections then
              end.Reading? && Holds(end.cur, id, e) && end == flushed.(sections := st.sections + {id}, cur := end.cur)
            else end.Rejected?
  {
    var items := FieldItems(FieldsOf(env, e));
    var header := Header(IMAGES + id);
    assert [Blank, header] + items == [Blank] + ([header] + items);
    RunCons(env, st, Blank, [header] + items);
    RunCons(env, st, header, items);
    StepImageHeader(env, st, id);
    var begun := Step(env, st, header);
    if begun.Rejected? {
      RunRejected(env, begun, items);
    } else {
      SetWholeEntry(env, id, e);
      RunFields(env, begun, FieldsOf(env, e));
    }
  }

  /** Reading one printed section: the section before it is flushed, its own id must be
      new, and then it stands open with exactly its entry. */
  lemma RunEntry(env: Env, st: State, key: string, e: Entry)
    requires st.Reading? && st.version > 0
    ensures var end, flushed := Run(env, st, Items(EntryLines(env, key, e))), Flush(env, st);
            if AllFit(EntryLines(env, key, e)) && flushed.Reading? && env.id(key) !in st.sections then
              && end.Reading? && end.version == st.version && end.images == flushed.images
              && end.sections == st.sections + {env.id(key)} && Holds(end.cur, env.id(key), e)
            else end.Rejected?
  {
    var lines := EntryLines(env, key, e);
    if AllFit(lines) {
      ReadEntry(env, key, e);
      RunSection(env, st, env.id(key), e);
      FlushKeeps(env, st);
    } else {
      var i :| 0 <= i < |lines| && !FitsScanner(lines[i]);
      RunTooLong(env, st, Items(lines), i);
    }
  }

  lemma RunCons(env: Env, st: State, item: Item, items: seq<Item>)
    ensures Run(env, st, [item] + items) == Run(env, Step(env, st, item), items)
  {
    assert ([item] + items)[1..] == items;
  }

  lemma FlushKeeps(env: Env, st: State)
    requires st.Reading?
    ensures var f := Flush(env, st); f.Reading? ==> f.version == st.version && f.sections == st.sections && f.cur == st.cur
  {
  }

  lemma RunTooLong(env: Env, st: State, items: seq<Item>, i: nat)
    requires i < |items| && items[i] == TooLong
    ensures Run(env, st, items).Rejected?
  {
    assert items == items[..i] + ([TooLong] + items[i + 1..]);
    RunAppend(env, st, items[..i], [TooLong] + items[i + 1..]);
    var mid := Run(env, st, items[..i]);
    RunCons(env, mid, TooLong, items[i + 1..]);
    RunRejected(env, Step(env, mid, TooLong), items[i + 1..]);
  }

  // ---------------------------------------------------------------- all sections

  function Only(images: map<string, Entry>, keys: seq<string>): map<string, Entry> {
    map k | k in images && k in keys :: images[k]
  }

  predicate ListsSome(keys: seq<string>, images: map<string, Entry>) {
    && (forall i :: 0 <= i < |keys| ==> keys[i] in images)
    && (forall i, j :: 0 <= i < j < |keys| ==> keys[i] != keys[j])
  }

  predicate DistinctIds(env: Env, keys: seq<string>) {
    forall i, j :: 0 <= i < j < |keys| ==> env.id(keys[i]) != env.id(keys[j])
  }

  predicate Filed(env: Env, version: int, k: string, e: Entry) {
    e.configured == k && EntryOk(env, version, e)
  }

  predicate AllFiled(env: Env, version: int, images: map<string, Entry>, keys: seq<string>) {
    forall i :: 0 <= i < |keys| && keys[i] in images ==> Filed(env, version, keys[i], images[keys[i]])
  }

  /** No image is filed under a name whose section it would share without being it: the
      truncated hash is injective on the names in use. */
  predicate Unconfused(env: Env, images: map<string, Entry>) {
    forall k :: k in images && env.id(k) == env.id(images[k].configured) ==> images[k].configured == k
  }

  function Ids(env: Env, keys: seq<string>): set<string> {
    set i | 0 <= i < |keys| :: env.id(keys[i])
  }

  /** The parser after the sections of `keys`: the last one is still open. */
  predicate Standing(env: Env, version: nat, images: map<string, Entry>, keys: seq<string>, st: State)
    requires ListsSome(keys, images)
  {
    && st.Reading? && st.version == version && st.sections == Ids(env, keys)
    && if keys == [] then st.cur == Closed && st.images == map[]
       else
         var last := keys[|keys| - 1];
         st.images == Only(images, keys[..|keys| - 1]) && Holds(st.cur, env.id(last), images[last])
  }

  lemma FlushStanding(env: Env, version: nat, images: map<string, Entry>, keys: seq<string>, st: State)
    requires ListsSome(keys, images) && Standing(env, version, images, keys, st) && Unconfused(env, images)
    ensures var done := Flush(env, st);
            if keys == [] || Filed(env, version, keys[|keys| - 1], images[keys[|keys| - 1]])
            then done == st.(images := Only(images, keys)) else done.Rejected?
  {
    if keys == [] {
      assert Only(images, keys) == map[];
    } else {
      var last := keys[|keys| - 1];
      assert last !in keys[..|keys| - 1];
      FlushHolding(env, st, last, images[last]);
      OnlyStep(images, keys);
    }
  }

  lemma FlushHolding(env: Env, st: State, k: string, e: Entry)
    requires st.Reading? && Holds(st.cur, env.id(k), e) && k !in st.images
    requires env.id(k) == env.id(e.configured) ==> e.configured == k
    ensures Flush(env, st) == (if Filed(env, st.version, k, e) then st.(images := st.images[k := e]) else Flush(env, st))
    ensures !Filed(env, st.version, k, e) ==> Flush(env, st).Rejected?
  {
  }

  lemma OnlyStep(images: map<string, Entry>, keys: seq<string>)
    requires keys != [] && keys[|keys| - 1] in images
    ensures Only(images, keys) == Only(images, keys[..|keys| - 1])[keys[|keys| - 1] := images[keys[|keys| - 1]]]
  {
    assert keys == keys[..|keys| - 1] + [keys[|keys| - 1]];
  }

  lemma IdsStep(env: Env, keys: seq<string>)
    requires keys != []
    ensures Ids(env, keys) == Ids(env, keys[..|keys| - 1]) + {env.id(keys[|keys| - 1])}
    ensures DistinctIds(env, keys) <==>
            DistinctIds(env, keys[..|keys| - 1]) && env.id(keys[|keys| - 1]) !in Ids(env, keys[..|keys| - 1])
  {
    var init, last := keys[..|keys| - 1], keys[|keys| - 1];
    assert keys == init + [last];
    forall x ensures x in Ids(env, keys) <==> x in Ids(env, init) || x == env.id(last) {
      if x in Ids(env, init) {
        var i :| 0 <= i < |init| && env.id(init[i]) == x;
        assert keys[i] == init[i];
      }
    }
    if DistinctIds(env, init) && env.id(last) !in Ids(env, init) {
      forall i, j | 0 <= i < j < |keys| ensures env.id(keys[i]) != env.id(keys[j]) {
        assert keys[i] == init[i] && env.id(init[i]) in Ids(env, init);
      }
    }
  }

  lemma RunLines(env: Env, st: State, a: seq<string>, b: seq<string>)
    ensures Run(env, st, Items(a + b)) == Run(env, Run(env, st, Items(a)), Items(b))
  {
    assert Items(a + b) == Items(a) + Items(b);
    RunAppend(env, st, Items(a), Items(b));
  }

  /** What reading the sections of `keys` needs: lines that fit, distinct ids, and every
      entry but the last (not yet flushed) in order. */
  predicate Readable(env: Env, version: nat, images: map<string, Entry>, keys: seq<string>)
    requires ListsSome(keys, images)
  {
    && AllFit(ImageLines(env, keys, images)) && DistinctIds(env, keys)
    && (keys != [] ==> AllFiled(env, version, images, keys[..|keys| - 1]))
  }

  lemma ReadableStep(env: Env, version: nat, images: map<string, Entry>, keys: seq<string>)
    requires ListsSome(keys, images) && keys != []
    ensures ListsSome(keys[..|keys| - 1], images)
    ensures var init, last := keys[..|keys| - 1], keys[|keys| - 1];
            Readable(env, version, images, keys) <==>
            (Readable(env, version, images, init) && AllFit(EntryLines(env, last, images[last]))
             && env.id(last) !in Ids(env, init)
             && (init == [] || Filed(env, version, init[|init| - 1], images[init[|init| - 1]])))
  {
    var init, last := keys[..|keys| - 1], keys[|keys| - 1];
    IdsStep(env, keys);
    AllFitAppend(ImageLines(env, init, images), EntryLines(env, last, images[last]));
    AllFiledStep(env, version, images, init);
  }

  lemma AllFiledStep(env: Env, version: int, images: map<string, Entry>, keys: seq<string>)
    requires keys != [] ==> keys[|keys| - 1] in images
    ensures keys == [] ==> AllFiled(env, version, images, keys)
    ensures keys != [] ==>
              var k := |keys| - 1;
              AllFiled(env, version, images, keys) <==>
              AllFiled(env, version, images, keys[..k]) && Filed(env, version, keys[k], images[keys[k]])
  {
    if keys != [] {
      var k := |keys| - 1;
      assert keys == keys[..k] + [keys[k]];
      AllFiledAppend(env, version, images, keys[..k], keys[k]);
    }
  }

  lemma AllFiledAppend(env: Env, version: int, images: map<string, Entry>, keys: seq<string>, k: string)
    requires k in images
    ensures AllFiled(env, version, images, keys + [k]) <==>
            AllFiled(env, version, images, keys) && Filed(env, version, k, images[k])
  {
    var all := keys + [k];
    if AllFiled(env, version, images, all) {
      forall i | 0 <= i < |keys| && keys[i] in images ensures Filed(env, version, keys[i], images[keys[i]]) {
        assert all[i] == keys[i];
      }
      assert all[|keys|] == k;
    }
  }

  lemma {:induction false} RunImages(env: Env, version: nat, images: map<string, Entry>, keys: seq<string>)
    requires version > 0 && ListsSome(keys, images) && Unconfused(env, images)
    ensures var end := Run(env, Reading(version, {}, map[], Closed), Items(ImageLines(env, keys, images)));
            if Readable(env, version, images, keys) then Standing(env, version, images, keys, end) else end.Rejected?
    decreases |keys|
  {
    var begin := Reading(version, {}, map[], Closed);
    if keys == [] {
      assert Items(ImageLines(env, keys, images)) == [];
    } else {
      var init, last := keys[..|keys| - 1], keys[|keys| - 1];
      ReadableStep(env, version, images, keys);
      RunImages(env, version, images, init);
      RunLines(env, begin, ImageLines(env, init, images), EntryLines(env, last, images[last]));
      var mid := Run(env, begin, Items(ImageLines(env, init, images)));
      RunOneMore(env, version, images, keys, mid);
    }
  }

  lemma RunOneMore(env: Env, version: nat, images: map<string, Entry>, keys: seq<string>, mid: State)
    requires version > 0 && ListsSome(keys, images) && Unconfused(env, images) && keys != []
    requires ListsSome(keys[..|keys| - 1], images)
    requires if Readable(env, version, images, keys[..|keys| - 1])
             then Standing(env, version, images, keys[..|keys| - 1], mid) else mid.Rejected?
    ensures var end := Run(env, mid, Items(EntryLines(env, keys[|keys| - 1], images[keys[|keys| - 1]])));
            if Readable(env, version, images, keys) then Standing(env, version, images, keys, end) else end.Rejected?
  {
    var init, last := keys[..|keys| - 1], keys[|keys| - 1];
    ReadableStep(env, version, images, keys);
    if mid.Rejected? {
      RunRejected(env, mid, Items(EntryLines(env, last, images[last])));
    } else {
      FlushStanding(env, version, images, init, mid);
      RunEntry(env, mid, last, images[last]);
      IdsStep(env, keys);
    }
  }

  // ---------------------------------------------------------------- printing and parsing are inverse

  lemma ReadComment(line: string)
    requires line != "" && line[0] == '#' && FitsScanner(line)
    ensures Read(line) == Blank
  {
    R.MeaningOfToken(line);
    assert StripComment(line) == "";
  }

  lemma RunTop(env: Env, version: GoInt)
    ensures var end := Run(env, Start, Items(TopLines(version)));
            if AllFit(TopLines(version)) && 1 <= version <= MAX_LOCK_VERSION
            then end == Reading(version, {}, map[], Closed) else end.Rejected?
  {
    ItoaIsClosed(version);
    assert PlainKey(LOCK_VERSION);
    AtoiItoa(version);
    RunThree(env, COMMENT1, COMMENT2, LOCK_VERSION, ItoaSigned(version));
  }

  lemma RunBlank(env: Env, st: State, line: string, rest: seq<string>)
    requires line != "" && line[0] == '#' && st.Reading?
    ensures Run(env, st, Items([line] + rest)) ==
            if FitsScanner(line) then Run(env, st, Items(rest)) else Rejected(LineTooLong)
  {
    ItemsAppend([line], rest);
    assert Items([line]) == [Read(line)];
    RunCons(env, st, Read(line), Items(rest));
    if FitsScanner(line) { ReadComment(line); } else { RunRejected(env, Rejected(LineTooLong), Items(rest)); }
  }

  /** Two comments and a line: what the line says is all that is read. */
  lemma RunThree(env: Env, c: string, d: string, key: string, value: string)
    requires c != "" && c[0] == '#' && d != "" && d[0] == '#' && PlainKey(key) && ClosedValue(value)
    ensures var lines := [c, d, AssignLine(key, value)];
            Run(env, Start, Items(lines)) ==
            if AllFit(lines) then StepTop(Start, key, value) else Rejected(LineTooLong)
  {
    var line := AssignLine(key, value);
    assert [c, d, line] == [c] + [d, line];
    RunBlank(env, Start, c, [d, line]);
    RunTwo(env, d, key, value);
    FitsCons(c, [d, line]);
  }

  lemma RunTwo(env: Env, d: string, key: string, value: string)
    requires d != "" && d[0] == '#' && PlainKey(key) && ClosedValue(value)
    ensures var lines := [d, AssignLine(key, value)];
            Run(env, Start, Items(lines)) ==
            if AllFit(lines) then StepTop(Start, key, value) else Rejected(LineTooLong)
  {
    var line := AssignLine(key, value);
    assert [d, line] == [d] + [line];
    RunBlank(env, Start, d, [line]);
    RunOneAssign(env, key, value);
    FitsCons(d, [line]);
    FitsCons(line, []);
  }

  lemma FitsCons(line: string, rest: seq<string>)
    ensures AllFit([line] + rest) <==> FitsScanner(line) && AllFit(rest)
  {
    var lines := [line] + rest;
    assert lines[0] == line && forall i :: 0 <= i < |rest| ==> lines[i + 1] == rest[i];
  }

  lemma RunOneAssign(env: Env, key: string, value: string)
    requires PlainKey(key) && ClosedValue(value)
    ensures Run(env, Start, Items([AssignLine(key, value)])) ==
            if FitsScanner(AssignLine(key, value)) then StepTop(Start, key, value) else Rejected(LineTooLong)
  {
    var line := AssignLine(key, value);
    assert Items([line]) == [Read(line)] + [];
    RunCons(env, Start, Read(line), []);
    if FitsScanner(line) { ReadAssign(key, value); }
  }

  /** What a lock must satisfy for its printed form to be accepted. */
  ghost predicate Committable(env: Env, lf: Lock) {
    && 1 <= lf.version <= MAX_LOCK_VERSION
    && AllFit(Lines(env, lf))
    && (forall k, l :: k in lf.images && l in lf.images && k != l ==> env.id(k) != env.id(l))
    && (forall k :: k in lf.images ==> Filed(env, lf.version, k, lf.images[k]))
  }

  lemma LinesAreLines(env: Env, lf: Lock)
    ensures forall i :: 0 <= i < |Lines(env, lf)| ==> Terminated(Lines(env, lf)[i])
  {
    var keys := SortedSeq(lf.images.Keys);
    assert forall i :: 0 <= i < |keys| ==> keys[i] in keys;
    TopAreLines(lf.version);
    ImagesAreLines(env, keys, lf.images);
  }

  lemma AboutIsPlain()
    ensures '\n' !in ABOUT
  {
  }

  lemma OriginIsPlain()
    ensures '\n' !in ORIGIN
  {
  }

  lemma AdviceIsPlain()
    ensures '\n' !in ADVICE
  {
  }

  lemma TopAreLines(version: int)
    ensures AllTerminated(TopLines(version))
  {
    ItoaIsClosed(version);
    AssignIsLine(LOCK_VERSION, ItoaSigned(version));
    AboutIsPlain();
    TextIsLine("#" + ABOUT);
    OriginIsPlain();
    AdviceIsPlain();
    TextIsLine("#" + (ORIGIN + ADVICE));
  }

  lemma EntryAreLines(env: Env, key: string, e: Entry)
    ensures AllTerminated(EntryLines(env, key, e))
  {
    SectionIsPlain(env.id(key));
    HeaderIsLine(IMAGES + env.id(key));
    FieldsAreLines(env, e, OrderFrom(e, 0));
  }

  lemma FieldsAreLines(env: Env, e: Entry, order: seq<Field>)
    ensures AllTerminated(FieldLines(PrintFields(env, e, order)))
  {
    forall i | 0 <= i < |order| ensures Terminated(FieldLines(PrintFields(env, e, order))[i]) {
      FieldIsLine(env, e, order[i]);
    }
  }

  lemma FieldIsLine(env: Env, e: Entry, f: Field)
    ensures Terminated(AssignLine(FieldName(f), Printed(env, e, f)))
  {
    FieldNameIsKey(f);
    if f == EvidenceVersion { ItoaIsClosed(TrustOf(e).version); } else { QuoteIsClosed(env.shown, TextOf(e, f)); }
    AssignIsLine(FieldName(f), Printed(env, e, f));
  }

  lemma {:induction false} ImagesAreLines(env: Env, keys: seq<string>, images: map<string, Entry>)
    requires forall i :: 0 <= i < |keys| ==> keys[i] in images
    ensures AllTerminated(ImageLines(env, keys, images))
  {
    if keys != [] {
      ImagesAreLines(env, keys[..|keys| - 1], images);
      EntryAreLines(env, keys[|keys| - 1], images[keys[|keys| - 1]]);
    }
  }

  lemma CommittableByKeys(env: Env, lf: Lock, keys: seq<string>)
    requires Enumerates(keys, lf.images.Keys) && lf.version >= 0
    ensures (forall k, l :: k in lf.images && l in lf.images && k != l ==> env.id(k) != env.id(l)) <==> DistinctIds(env, keys)
    ensures (forall k :: k in lf.images ==> Filed(env, lf.version, k, lf.images[k])) <==>
            AllFiled(env, lf.version, lf.images, keys)
  {
    SortedIsDistinct(keys, lf.images.Keys);
    if DistinctIds(env, keys) {
      forall k, l | k in lf.images && l in lf.images && k != l ensures env.id(k) != env.id(l) {
        assert k in keys && l in keys;
      }
    }
    if AllFiled(env, lf.version, lf.images, keys) {
      forall k | k in lf.images ensures Filed(env, lf.version, k, lf.images[k]) {
        assert k in keys;
      }
    }
  }

  /** The lines of a printed lock are the ones the parser sees. */
  lemma ParseOfLines(env: Env, lf: Lock)
    ensures ParseLock(env, Render(env, lf)) == Finish(env, Run(env, Start, Items(Lines(env, lf))))
  {
    LinesAreLines(env, lf);
    SplitConcat(Lines(env, lf));
    RunTrailingBlank(env, Start, Lines(env, lf));
  }

  lemma CommittableIff(env: Env, lf: Lock, keys: seq<string>)
    requires keys == SortedSeq(lf.images.Keys) && lf.version >= 0 && forall i :: 0 <= i < |keys| ==> keys[i] in lf.images
    ensures Committable(env, lf) <==>
            (1 <= lf.version <= MAX_LOCK_VERSION && AllFit(TopLines(lf.version))
             && AllFit(ImageLines(env, keys, lf.images)) && DistinctIds(env, keys)
             && AllFiled(env, lf.version, lf.images, keys))
  {
    AllFitAppend(TopLines(lf.version), ImageLines(env, keys, lf.images));
    CommittableByKeys(env, lf, keys);
  }

  /** The printer and the parser are inverse: the printed form of a lock is accepted exactly
      when the lock is committable, and then it reads back as the same lock. */
  lemma ParseRender(env: Env, lf: Lock)
    requires Unconfused(env, lf.images)
    ensures if Committable(env, lf) then ParseLock(env, Render(env, lf)) == Ok(lf)
            else ParseLock(env, Render(env, lf)).Err?
  {
    var keys := SortedSeq(lf.images.Keys);
    SortedIsDistinct(keys, lf.images.Keys);
    var top, body := TopLines(lf.version), ImageLines(env, keys, lf.images);
    ParseOfLines(env, lf);
    RunLines(env, Start, top, body);
    RunTop(env, lf.version);
    var mid := Run(env, Start, Items(top));
    if mid.Rejected? {
      RunRejected(env, mid, Items(body));
      if Committable(env, lf) { CommittableIff(env, lf, keys); }
    } else {
      CommittableIff(env, lf, keys);
      RunImages(env, lf.version, lf.images, keys);
      FinishImages(env, lf, keys, Run(env, mid, Items(body)));
    }
  }

  lemma FinishImages(env: Env, lf: Lock, keys: seq<string>, end: State)
    requires 1 <= lf.version <= MAX_LOCK_VERSION && Unconfused(env, lf.images)
    requires Enumerates(keys, lf.images.Keys) && ListsSome(keys, lf.images)
    requires if Readable(env, lf.version, lf.images, keys) then Standing(env, lf.version, lf.images, keys, end) else end.Rejected?
    ensures var ok := AllFit(ImageLines(env, keys, lf.images)) && DistinctIds(env, keys)
                      && AllFiled(env, lf.version, lf.images, keys);
            if ok then Finish(env, end) == Ok(lf) else Finish(env, end).Err?
  {
    AllFiledStep(env, lf.version, lf.images, keys);
    if end.Reading? {
      FlushStanding(env, lf.version, lf.images, keys, end);
      OnlyAll(lf.images, keys);
      FinishOf(env, lf.version, end);
    }
  }

  lemma FinishOf(env: Env, version: nat, st: State)
    requires st.Reading? && st.version == version && 1 <= version <= MAX_LOCK_VERSION
    ensures Finish(env, st) ==
            if Flush(env, st).Rejected? then Err(Flush(env, st).fault) else Ok(Lock(version, Flush(env, st).images))
  {
    FlushKeeps(env, st);
  }

  lemma OnlyAll(images: map<string, Entry>, keys: seq<string>)
    requires Enumerates(keys, images.Keys)
    ensures Only(images, keys) == images
  {
  }

  // ---------------------------------------------------------------- new entries

  datatype Inspection = Inspection(id: string, repoDigests: seq<string>)

  /** An immutable repository digest never reads as a local image ID. */
  lemma RepositoryIsNoImageId(env: Env, ref: string)
    requires SplitDigest(env, ref).Some?
    ensures !(SHA256_PREFIX <= ref)
  {
    var repo := SplitDigest(env, ref).value.0;
    if SHA256_PREFIX <= ref {
      ImageIdHasNoRepository(env, ref, repo);
    }
  }

  lemma ImageIdHasNoRepository(env: Env, ref: string, repo: string)
    requires SHA256_PREFIX <= ref && repo <= ref && (|repo| < |ref| ==> ref[|repo|] == '@')
    ensures CanonicalRepository(env, repo) == None || |repo| < |SHA256_PREFIX|
    ensures |repo| >= |SHA256_PREFIX|
  {
    assert forall k :: 0 <= k < |SHA256_PREFIX| ==> SHA256_PREFIX[k] == ref[k] && SHA256_PREFIX[k] != '@';
    if |repo| >= |SHA256_PREFIX| {
      LowerKeepsPrefix(repo);
      PrefixOfTrim(Lower(repo), SHA256_PREFIX);
    }
  }

  lemma LowerKeepsPrefix(repo: string)
    requires SHA256_PREFIX <= repo
    ensures SHA256_PREFIX <= Lower(repo)
  {
    assert forall k :: 0 <= k < |SHA256_PREFIX| ==> LowerChar(SHA256_PREFIX[k]) == SHA256_PREFIX[k] == repo[k];
  }

  /** repositoryLockEntry: whatever digests Docker reports, an entry made from them passes
      every check the parser will make, and one is made exactly when some digest matches. */
  method RepositoryLockEntry(env: Env, configured: string, inspected: Inspection) returns (r: Option<Entry>)
    requires configured != ""
    ensures r.Some? <==> exists i :: 0 <= i < |inspected.repoDigests| && SameRepository(env, configured, inspected.repoDigests[i])
    ensures r.Some? ==> Filed(env, 1, configured, r.value) && r.value.resolved in inspected.repoDigests
  {
    if |inspected.repoDigests| == 0 { return None; }
    var resolved := MatchRepoDigest(env, configured, inspected.repoDigests);
    if resolved.None? { return None; }
    var split := SplitDigest(env, resolved.value);
    RepositoryIsNoImageId(env, resolved.value);
    return Some(Entry(configured, resolved.value, split.value.1, None));
  }

  /** localLockEntry */
  method LocalLockEntry(env: Env, configured: string, inspected: Inspection) returns (r: Option<Entry>)
    requires configured != ""
    ensures r.Some? <==> ValidImageId(inspected.id)
    ensures r.Some? ==> Filed(env, 1, configured, r.value) && r.value.resolved == inspected.id
  {
    if !ValidImageId(inspected.id) { return None; }
    return Some(Entry(configured, inspected.id, inspected.id, None));
  }

  // ---------------------------------------------------------------- the validated write

  datatype Written = Refused | Committed | NotWritten | Cut

  /** The version a lock is written with. */
  function Versioned(lf: Lock): Lock {
    if lf.version == 0 then lf.(version := 1) else lf
  }

  /** WriteMode: what it refuses is exactly what would not read back, and nothing is touched;
      what it commits is what the file then holds; in a reliable directory everything else is
      committed. */
  method WriteMode(env: Env, dir: A.Directory, lf: Option<Lock>, perm: nat) returns (w: Written)
    requires A.Settled(dir.files)
    requires lf.Some? ==> Unconfused(env, lf.value.images)
    modifies dir
    ensures w.Refused? <==> lf.None? || perm == 0 || perm >= 0x200 || !Committable(env, Versioned(lf.value))
    ensures w.Refused? ==> dir.files == old(dir.files)
    ensures w.Committed? ==> A.Logical(dir.files) == Some(Render(env, Versioned(lf.value))) && A.Settled(dir.files)
    ensures w.NotWritten? ==> A.Logical(dir.files) == old(A.Logical(dir.files))
    ensures w.Cut? ==> A.Logical(dir.files) == old(A.Logical(dir.files))
                       || A.Logical(dir.files) == Some(Render(env, Versioned(lf.value)))
    ensures dir.reliable ==> w.Refused? || w.Committed?
  {
    if lf.None? || perm >= 0x200 || perm == 0 { return Refused; }
    var lock := Versioned(lf.value);
    if lock.version < 1 || lock.version > MAX_LOCK_VERSION { return Refused; }
    var data := RenderLoop(env, lock);
    ParseRender(env, lock);
    var parsed := ParseLoop(env, data);
    if parsed.Err? { return Refused; }
    var o := dir.WriteFile(data);
    return match o case Done => Committed case Failed => NotWritten case Crashed => Cut;
  }

  /** What loading answers: no file is no lock, a file that does not parse is an error. */
  function LoadSpec(env: Env, content: Option<string>): Option<Option<Lock>> {
    match content
    case None => Some(None)
    case Some(text) => match ParseLock(env, text) case Ok(lf) => Some(Some(lf)) case Err(_) => None
  }

  /** Load: an interrupted write is recovered from, and the answer is that of the content. */
  method Load(env: Env, dir: A.Directory) returns (o: A.Loading<Option<Lock>>)
    modifies dir`files
    ensures o.Loaded? ==> o.result == LoadSpec(env, old(A.Logical(dir.files)))
    ensures A.Logical(dir.files) == old(A.Logical(dir.files))
    ensures old(A.Settled(dir.files)) ==> A.Settled(dir.files)
    ensures dir.reliable ==> o.Loaded?
  {
    if A.Primary !in dir.files {
      var r := dir.RecoverFromBackup(s => ParseLock(env, s).Ok?);
      if r.Interrupted? { return A.LoadCrashed; }
      if r.IoError? { return A.LoadFailed; }
      if r.BadBackup? { return A.Loaded(None); }
      if r.NothingToDo? { return A.Loaded(Some(None)); }
    }
    var reading := dir.Chance();
    if reading.Crashes? { return A.LoadCrashed; }
    if reading.Fails? { return A.LoadFailed; }
    var parsed := ParseLoop(env, dir.files[A.Primary]);
    return A.Loaded(if parsed.Ok? then Some(Some(parsed.value)) else None);
  }

  /** What a write commits is what the next load returns. */
  method WriteThenLoad(env: Env, dir: A.Directory, lf: Lock, perm: nat) returns (w: Written, o: A.Loading<Option<Lock>>)
    requires A.Settled(dir.files) && Unconfused(env, lf.images)
    modifies dir
    ensures w.Committed? && o.Loaded? ==> o.result == Some(Some(Versioned(lf)))
    ensures dir.reliable ==> o.Loaded? && (w.Committed? || w.Refused?)
  {
    w := WriteMode(env, dir, Some(lf), perm);
    ParseRender(env, Versioned(lf));
    o := Load(env, dir);
  }
}
