/**
 * internal/aclaudit/model.go: the limited Windows ACL audit. A path is its sequence of
 * case-folded components, volume first; the empty sequence is no absolute path.
 */
module AclAudit {
  import opened Wrappers
  import opened Decimal
  import opened Toml
  import opened Sorting
  import D = Descriptor

  const MAX_OBJECTS: nat := 256
  const MAX_DEPTH: nat := 64
  const MAX_LINES: nat := 24

  type Path = seq<string>

  datatype Asset = Asset(path: Path, name: string)

  datatype Request = Request(directory: Path, assets: seq<Asset>, optionalAssets: seq<Asset>)

  datatype Snapshot = Snapshot(identity: string, resolved: Path, filesystem: string, directory: bool, reparse: nat,
                               security: D.Descriptor)

  datatype Scope = Scope(updater: string, profile: Path, qualified: bool, anchor: Snapshot)

  datatype Outcome = Seen(node: Snapshot) | NotExist | Failed

  // ---------------------------------------------------------------- the report

  datatype Diagnostic = Diagnostic(status: string, message: string)

  /** Findings and gaps, both bounded, with the number of findings in full. */
  class Report {
    var findings: seq<string>
    var incomplete: seq<string>
    var objects: nat
    var candidates: nat

    predicate Valid()
      reads this
    {
      && |findings| == (if candidates < MAX_LINES then candidates else MAX_LINES - 1)
      && |incomplete| <= MAX_LINES
      && (candidates >= MAX_LINES ==> incomplete != [])
    }

    /** Nothing found and nothing left open. */
    predicate Clean()
      reads this
    {
      candidates == 0 && incomplete == []
    }

    constructor ()
      ensures Valid() && Clean() && objects == 0
    {
      findings, incomplete, objects, candidates := [], [], 0, 0;
    }

    method Missing(reason: string)
      requires Valid()
      modifies this`incomplete
      ensures Valid() && incomplete != []
      ensures incomplete == old(incomplete) || incomplete == old(incomplete) + [reason]
      ensures reason in incomplete || |incomplete| == MAX_LINES
    {
      for i := 0 to |incomplete|
        invariant forall j :: 0 <= j < i ==> incomplete[j] != reason
      {
        if incomplete[i] == reason { return; }
      }
      if |incomplete| < MAX_LINES { incomplete := incomplete + [reason]; }
    }

    /** Missing, when there is something to report. */
    method Flag(wrong: bool, reason: string) returns (bad: bool)
      requires Valid()
      modifies this`incomplete
      ensures Valid() && bad == wrong
      ensures if wrong then incomplete != [] else incomplete == old(incomplete)
      ensures old(incomplete) != [] ==> incomplete != []
    {
      if wrong { Missing(reason); }
      return wrong;
    }

    method Candidate(reason: string)
      requires Valid()
      modifies this`findings, this`candidates, this`incomplete
      ensures Valid() && candidates == old(candidates) + 1
      ensures old(candidates) < MAX_LINES - 1 ==> findings == old(findings) + [reason] && incomplete == old(incomplete)
    {
      candidates := candidates + 1;
      if |findings| < MAX_LINES - 1 {
        findings := findings + [reason];
      } else {
        var limit := "candidate output limit reached";
        var known := false;
        for i := 0 to |incomplete|
          invariant known ==> incomplete != []
        {
          if incomplete[i] == limit { known := true; }
        }
        if !known && |incomplete| < MAX_LINES { incomplete := incomplete + [limit]; }
      }
    }

    /** Diagnostics: at most 24 lines, in order the sorted findings, as many of the sorted gaps
        as fit, and a verdict, which is "ok" exactly when nothing was found, nothing is missing
        and something was inspected. */
    method Diagnostics() returns (lines: seq<Diagnostic>)
      requires Valid()
      ensures 0 < |lines| <= MAX_LINES
      ensures (exists i :: 0 <= i < |lines| && lines[i].status == "ok") <==> (Clean() && objects > 0)
      ensures Shows(lines, Sorted(findings), Sorted(incomplete))
    {
      var found, gaps := Sorted(findings), Sorted(incomplete);
      SortedSorts(findings);
      SortedSorts(incomplete);
      var shown := if objects == 0 && |gaps| == 0 then ["no objects inspected"] else gaps;
      lines := ShowReport(found, shown, candidates);
    }
  }

  /** All findings, in order, then the gaps, in order, as far as the last line but one. */
  predicate Shows(lines: seq<Diagnostic>, found: seq<string>, gaps: seq<string>) {
    && |found| <= |lines| && (forall i :: 0 <= i < |found| ==> lines[i] == Found(found, i))
    && (|found| + |gaps| <= |lines| || MAX_LINES - 1 <= |lines|)
    && forall i :: |found| <= i < |found| + |gaps| && i < MAX_LINES - 1 ==> lines[i] == Gap(gaps, i - |found|)
  }

  method ShowReport(found: seq<string>, gaps: seq<string>, candidates: nat) returns (lines: seq<Diagnostic>)
    requires |found| <= MAX_LINES - 1 && (candidates == 0 ==> found == [])
    ensures 0 < |lines| <= MAX_LINES
    ensures (exists i :: 0 <= i < |lines| && lines[i].status == "ok") <==> (gaps == [] && candidates == 0)
    ensures Shows(lines, found, gaps)
  {
    lines := ShowFindings(found);
    if |gaps| != 0 {
      lines := ShowGaps(lines, gaps);
      lines := lines + [Diagnostic("warn", GapText(SCAN + ": candidates and gaps"))];
    } else if candidates != 0 {
      lines := lines + [Diagnostic("warn", SCAN + ": candidate findings")];
    } else {
      lines := lines + [Diagnostic("ok", SCAN + ": no candidate authority found")];
      assert lines[|lines| - 1].status == "ok";
    }
  }

  method ShowFindings(found: seq<string>) returns (lines: seq<Diagnostic>)
    requires |found| <= MAX_LINES - 1
    ensures |lines| == |found| && forall i :: 0 <= i < |found| ==> lines[i] == Found(found, i)
  {
    lines := [];
    for i := 0 to |found|
      invariant |lines| == i && forall j :: 0 <= j < i ==> lines[j] == Found(found, j)
    {
      if |lines| >= MAX_LINES - 1 { break; }
      lines := lines + [Found(found, i)];
    }
  }

  /** The gaps after the findings, as many as leave room for the last line. */
  method ShowGaps(found: seq<Diagnostic>, gaps: seq<string>) returns (lines: seq<Diagnostic>)
    requires |found| <= MAX_LINES - 1
    ensures |found| <= |lines| <= MAX_LINES - 1 && lines[..|found|] == found
    ensures |lines| == |found| + |gaps| || |lines| == MAX_LINES - 1 < |found| + |gaps|
    ensures forall i :: |found| <= i < |lines| ==> lines[i] == Gap(gaps, i - |found|)
  {
    lines := found;
    for i := 0 to |gaps|
      invariant |found| <= |lines| <= MAX_LINES - 1 && lines[..|found|] == found
      invariant |lines| == |found| + i || |lines| == MAX_LINES - 1 < |found| + i
      invariant forall j :: |found| <= j < |lines| ==> lines[j] == Gap(gaps, j - |found|)
    {
      if |lines| >= MAX_LINES - 1 { return; }
      lines := lines + [Gap(gaps, i)];
    }
  }

  function Found(findings: seq<string>, i: int): Diagnostic {
    Diagnostic("warn", FindingText(if 0 <= i < |findings| then findings[i] else ""))
  }

  function Gap(gaps: seq<string>, i: int): Diagnostic {
    Diagnostic("warn", GapText(if 0 <= i < |gaps| then gaps[i] else ""))
  }

  const SCAN := "limited Windows ACL scan"

  function FindingText(f: string): string {
    "Windows ACL candidate: " + f
  }

  function GapText(r: string): string {
    "ancestor ACL coverage incomplete: " + r
  }

  // ---------------------------------------------------------------- one object

  const SYSTEM := "S-1-5-18"
  const ADMINISTRATORS := "S-1-5-32-544"

  predicate Trusted(sid: string, updater: string) {
    sid != "" && (sid == updater || sid == SYSTEM || sid == ADMINISTRATORS)
  }

  predicate KnownIdentity(sid: string, updater: string) {
    || Trusted(sid, updater)
    || sid == "S-1-1-0" || sid == "S-1-5-11" || sid == "S-1-5-32-545" || sid == "S-1-5-19" || sid == "S-1-5-20"
    || sid == "S-1-5-4" || sid == "S-1-5-7"
  }

  /** A bit outside 0xf01f01ff. */
  predicate UnknownBits(mask: nat) {
    mask / 0x200 % 0x80 != 0 || mask / 0x20_0000 % 0x80 != 0
  }

  const GENERIC_ALL: nat := 0x1000_0000
  const GENERIC_WRITE: nat := 0x4000_0000

  /** The write rights of a mask, named as they are reported. */
  function Rights(mask: nat, directory: bool): seq<string> {
    var all := D.Bit(mask, GENERIC_ALL);
    var write := all || D.Bit(mask, GENERIC_WRITE);
    (if all || D.Bit(mask, 0x4_0000) then ["WRITE_DAC"] else [])
    + (if all || D.Bit(mask, 0x8_0000) then ["WRITE_OWNER"] else [])
    + (if all || D.Bit(mask, 0x1_0000) then ["object DELETE"] else [])
    + (if directory then
         (if all || D.Bit(mask, 0x40) then ["parent DELETE_CHILD"] else [])
         + (if write || D.Bit(mask, 2) || D.Bit(mask, 4) then ["child creation only"] else [])
       else if write || D.Bit(mask, 2) || D.Bit(mask, 4) then ["file content write/append"] else [])
    + (if write || D.Bit(mask, 0x10) || D.Bit(mask, 0x100) then ["attributes write"] else [])
  }

  predicate InheritOnly(a: D.Ace) {
    D.Bit(a.flags, 8)
  }

  // -------------------- what the classification means

  /** No bit of the mask lets its holder write content or append (1, 2), write attributes
      (4, 8), delete (16), replace the access rules (18) or the owner (19), use a generic
      right that includes those (28, 30), or, in a directory, delete what it holds (6). */
  predicate WritesNothing(mask: nat, directory: bool) {
    && mask / 0x2 % 2 == 0 && mask / 0x4 % 2 == 0
    && mask / 0x10 % 2 == 0 && mask / 0x100 % 2 == 0
    && mask / 0x1_0000 % 2 == 0 && mask / 0x4_0000 % 2 == 0 && mask / 0x8_0000 % 2 == 0
    && mask / 0x1000_0000 % 2 == 0 && mask / 0x4000_0000 % 2 == 0
    && (directory ==> mask / 0x40 % 2 == 0)
  }

  /** The updater, the local system and the administrators. */
  predicate MayWrite(sid: string, updater: string) {
    sid != "" && (sid == updater || sid == "S-1-5-18" || sid == "S-1-5-32-544")
  }

  /** Those, and everyone, authenticated, local users, the two services, interactive, anonymous. */
  predicate IsUnderstood(sid: string, updater: string) {
    || MayWrite(sid, updater)
    || sid in {"S-1-1-0", "S-1-5-11", "S-1-5-32-545", "S-1-5-19", "S-1-5-20", "S-1-5-4", "S-1-5-7"}
  }

  /** An allowing or denying entry of known flags and rights that, unless it only is to be
      inherited, speaks of an identity that is understood and allows nobody else to write. */
  predicate Harmless(a: D.Ace, directory: bool, updater: string) {
    && (a.kind == 0 || a.kind == 1) && a.flags < 0x20
    && a.mask % 0x1_0000 < 0x200 && a.mask / 0x1_0000 % 0x1000 < 0x20
    && (a.flags / 8 % 2 == 0 ==>
          && IsUnderstood(a.sid, updater)
          && (a.kind == 0 && !MayWrite(a.sid, updater) ==> WritesNothing(a.mask, directory)))
  }

  /** Owned by one who may write, with a list of access rules, all harmless. */
  predicate Quiet(node: Snapshot, updater: string) {
    && MayWrite(node.security.owner, updater)
    && !node.security.nullDacl
    && forall i :: 0 <= i < |node.security.aces| ==> Harmless(node.security.aces[i], node.directory, updater)
  }

  /** An entry that lets someone else write. */
  predicate Grants(a: D.Ace, directory: bool, updater: string) {
    a.kind == 0 && a.flags / 8 % 2 == 0 && !MayWrite(a.sid, updater) && !WritesNothing(a.mask, directory)
  }

  function Granting(aces: seq<D.Ace>, directory: bool, updater: string): nat {
    if aces == [] then 0
    else Granting(aces[..|aces| - 1], directory, updater) + if Grants(aces[|aces| - 1], directory, updater) then 1 else 0
  }

  /** The findings an object gives: a foreign owner, no list of access rules, or each entry
      that lets someone else write. */
  function Concerns(node: Snapshot, updater: string): nat {
    (if MayWrite(node.security.owner, updater) then 0 else 1)
    + if node.security.nullDacl then 1 else Granting(node.security.aces, node.directory, updater)
  }

  lemma RightsAreWrites(mask: nat, directory: bool)
    ensures Rights(mask, directory) == [] <==> WritesNothing(mask, directory)
  {
  }

  /** The bits that are not looked for are those from 9 to 15 and from 21 to 27. */
  lemma UnknownBitsAreHigh(mask: nat)
    ensures !UnknownBits(mask) <==> mask % 0x1_0000 < 0x200 && mask / 0x1_0000 % 0x1000 < 0x20
  {
    LowWord(mask);
    HighWord(mask);
  }

  lemma LowWord(n: nat)
    ensures n / 0x200 % 0x80 == 0 <==> n % 0x1_0000 < 0x200
  {
    var q, r := n / 0x200, n % 0x200;
    var high, low := q / 0x80, 0x200 * (q % 0x80) + r;
    assert n == 0x1_0000 * high + low && 0 <= low < 0x1_0000;
    assert n % 0x1_0000 == low;
  }

  lemma HighWord(n: nat)
    ensures n / 0x20_0000 % 0x80 == 0 <==> n / 0x1_0000 % 0x1000 < 0x20
  {
    var m := n / 0x1_0000;
    assert n / 0x20_0000 == m / 0x20;
    var q, r := m / 0x20, m % 0x20;
    var high, low := q / 0x80, 0x20 * (q % 0x80) + r;
    assert m == 0x1000 * high + low && 0 <= low < 0x1000;
    assert m % 0x1000 == low;
  }

  function Join(parts: seq<string>): string {
    Toml.Join(parts, ", ")
  }

  function AceText(tag: string, index: nat, a: D.Ace): string {
    tag + ": ACE[" + Itoa(index) + "] SID " + a.sid + " type=0x" + Hex(a.kind, 2) + " flags=0x" + Hex(a.flags, 2)
    + " mask=0x" + Hex(a.mask, 8)
  }

  /** One entry of classify's loop. */
  method ClassifyAce(r: Report, tag: string, index: nat, a: D.Ace, directory: bool, updater: string)
    requires r.Valid()
    modifies r`findings, r`candidates, r`incomplete
    ensures r.Valid()
    ensures r.candidates == old(r.candidates) + if Grants(a, directory, updater) then 1 else 0
    ensures old(r.incomplete) != [] ==> r.incomplete != []
    ensures r.Clean() <==> old(r.Clean()) && Harmless(a, directory, updater)
  {
    UnknownBitsAreHigh(a.mask);
    if UnknownBits(a.mask) { r.Missing(tag + ": unsupported access-mask bits"); }
    if a.kind != 0 && a.kind != 1 {
      r.Missing(AceText(tag, index, a) + " unsupported type");
      return;
    }
    if a.flags >= 0x20 { r.Missing(AceText(tag, index, a) + " unsupported flags"); }
    if InheritOnly(a) { return; }
    ClassifyGrant(r, tag, index, a, directory, updater);
  }

  /** An entry that applies to the object itself. */
  method ClassifyGrant(r: Report, tag: string, index: nat, a: D.Ace, directory: bool, updater: string)
    requires r.Valid() && (a.kind == 0 || a.kind == 1) && a.flags / 8 % 2 == 0
    modifies r`findings, r`candidates, r`incomplete
    ensures r.Valid()
    ensures r.candidates == old(r.candidates) + if Grants(a, directory, updater) then 1 else 0
    ensures old(r.incomplete) != [] ==> r.incomplete != []
    ensures r.Clean() <==> old(r.Clean()) && IsUnderstood(a.sid, updater) && !Grants(a, directory, updater)
  {
    if !KnownIdentity(a.sid, updater) { r.Missing(tag + ": ACE SID " + a.sid + " outside qualified identity model"); }
    if a.kind != 0 || Trusted(a.sid, updater) { return; }
    ReportRights(r, AceText(tag, index, a), a.mask, directory);
  }

  method ReportRights(r: Report, tag: string, mask: nat, directory: bool)
    requires r.Valid()
    modifies r`findings, r`candidates, r`incomplete
    ensures r.Valid()
    ensures r.candidates == old(r.candidates) + if WritesNothing(mask, directory) then 0 else 1
    ensures old(r.incomplete) != [] ==> r.incomplete != []
    ensures r.Clean() <==> old(r.Clean()) && WritesNothing(mask, directory)
  {
    RightsAreWrites(mask, directory);
    var rights := Rights(mask, directory);
    if |rights| != 0 { r.Candidate(tag + ": " + Join(rights)); }
  }

  /** classify: the report stays clean exactly on quiet objects, and counts every concern. */
  method Classify(r: Report, tag: string, node: Snapshot, updater: string)
    requires r.Valid()
    modifies r`findings, r`candidates, r`incomplete
    ensures r.Valid()
    ensures r.candidates == old(r.candidates) + Concerns(node, updater)
    ensures old(r.incomplete) != [] ==> r.incomplete != []
    ensures r.Clean() <==> old(r.Clean()) && Quiet(node, updater)
  {
    ClassifyOwner(r, tag, node.security.owner, updater);
    if node.security.nullDacl {
      r.Candidate(tag + ": null/absent DACL permits broad discretionary access");
      r.Missing(tag + ": null/absent DACL");
      return;
    }
    ClassifyAces(r, tag, node.security.aces, node.directory, updater);
  }

  method ClassifyOwner(r: Report, tag: string, owner: string, updater: string)
    requires r.Valid()
    modifies r`findings, r`candidates, r`incomplete
    ensures r.Valid()
    ensures r.candidates == old(r.candidates) + if MayWrite(owner, updater) then 0 else 1
    ensures old(r.incomplete) != [] ==> r.incomplete != []
    ensures r.Clean() <==> old(r.Clean()) && MayWrite(owner, updater)
  {
    if Trusted(owner, updater) { return; }
    r.Candidate(tag + ": owner SID " + owner + " may control the DACL");
    if !KnownIdentity(owner, updater) { r.Missing(tag + ": owner identity outside qualified model"); }
  }

  method ClassifyAces(r: Report, tag: string, aces: seq<D.Ace>, directory: bool, updater: string)
    requires r.Valid()
    modifies r`findings, r`candidates, r`incomplete
    ensures r.Valid()
    ensures r.candidates == old(r.candidates) + Granting(aces, directory, updater)
    ensures old(r.incomplete) != [] ==> r.incomplete != []
    ensures r.Clean() <==> old(r.Clean()) && forall i :: 0 <= i < |aces| ==> Harmless(aces[i], directory, updater)
  {
    for index := 0 to |aces|
      invariant r.Valid()
      invariant r.candidates == old(r.candidates) + Granting(aces[..index], directory, updater)
      invariant old(r.incomplete) != [] ==> r.incomplete != []
      invariant r.Clean() <==> old(r.Clean()) && forall i :: 0 <= i < index ==> Harmless(aces[i], directory, updater)
    {
      assert aces[..index + 1][..index] == aces[..index];
      ClassifyAce(r, tag, index, aces[index], directory, updater);
    }
    assert aces[..|aces|] == aces;
  }

  /** sameSnapshot: field by field, entry by entry, which is equality. */
  method SameSnapshot(a: Snapshot, b: Snapshot) returns (same: bool)
    ensures same <==> a == b
  {
    if a.identity != b.identity || a.resolved != b.resolved || a.filesystem != b.filesystem || a.directory != b.directory
       || a.reparse != b.reparse || a.security.owner != b.security.owner || a.security.control != b.security.control
       || a.security.nullDacl != b.security.nullDacl || a.security.hash != b.security.hash
       || |a.security.aces| != |b.security.aces|
    {
      return false;
    }
    for i := 0 to |a.security.aces|
      invariant forall j :: 0 <= j < i ==> a.security.aces[j] == b.security.aces[j]
    {
      if a.security.aces[i] != b.security.aces[i] { return false; }
    }
    return true;
  }

  // ---------------------------------------------------------------- what a scan must establish

  /** One native read and its answer. The same path may answer differently each time. */
  datatype Event = Event(path: Path, answer: Outcome)

  /** The installation, the required assets, then the optional ones. */
  function Targets(req: Request): seq<Asset> {
    [Asset(req.directory, "installation")] + req.assets + req.optionalAssets
  }

  function OptionalPaths(req: Request): set<Path> {
    set i | 0 <= i < |req.optionalAssets| :: req.optionalAssets[i].path
  }

  predicate Within(path: Path, root: Path) {
    root <= path
  }

  predicate QualifiedScope(req: Request, scope: Scope) {
    scope.qualified && scope.updater != "" && scope.profile != [] && Within(req.directory, scope.profile)
    && req.directory != scope.profile
  }

  /** What one reading of a path must show. */
  predicate GoodNode(req: Request, scope: Scope, p: Path, node: Snapshot) {
    Quiet(node, scope.updater) && InPlace(req, scope, p, node) && RightKind(req, p, node)
  }

  /** The first target whose chain passes through `p`. */
  predicate FirstOn(req: Request, p: Path, a: nat) {
    a < |Targets(req)| && p <= Targets(req)[a].path && forall b :: 0 <= b < a ==> !(p <= Targets(req)[b].path)
  }

  /** At distance `i` from the `a`-th target: above it stand directories, and a managed asset
      is none itself. */
  predicate KindAt(i: nat, a: nat, node: Snapshot) {
    if i > 0 then node.directory else a > 0 ==> !node.directory
  }

  /** The kind is judged where the path is met first. */
  predicate RightKind(req: Request, p: Path, node: Snapshot) {
    forall a :: 0 <= a < |Targets(req)| && FirstOn(req, p, a) ==> KindAt(|Targets(req)[a].path| - |p|, a, node)
  }

  /** Local NTFS, unredirected, identified, and at the path it was asked for; the installation
      belongs to the updater and is still the object that was qualified. */
  predicate InPlace(req: Request, scope: Scope, p: Path, node: Snapshot) {
    && node.filesystem == "NTFS" && node.reparse == 0 && node.resolved == p && node.identity != ""
    && (p == req.directory ==> node.security.owner == scope.updater && (scope.anchor.identity != "" ==> node == scope.anchor))
  }

  /** Read twice, the same both times, and good. */
  ghost predicate Covered(req: Request, scope: Scope, first: seq<Event>, second: seq<Event>, p: Path) {
    exists node :: Event(p, Seen(node)) in first && Event(p, Seen(node)) in second && GoodNode(req, scope, p, node)
  }

  predicate Gone(first: seq<Event>, second: seq<Event>, p: Path) {
    Event(p, NotExist) in first && Event(p, NotExist) in second
  }

  /** The path is covered, or it lies at or under an optional target, not after the `a`-th,
      that was absent both times. */
  ghost predicate Accounted(req: Request, scope: Scope, first: seq<Event>, second: seq<Event>, a: nat, p: Path) {
    || Covered(req, scope, first, second, p)
    || exists b :: 0 <= b <= a && b < |Targets(req)| && Targets(req)[b].path <= p
                   && Targets(req)[b].path in OptionalPaths(req) && Gone(first, second, Targets(req)[b].path)
  }

  /** Every ancestor of every target is accounted for. */
  ghost predicate Sound(req: Request, scope: Scope, first: seq<Event>, second: seq<Event>) {
    && QualifiedScope(req, scope)
    && forall a, k :: 0 <= a < |Targets(req)| && 1 <= k <= |Targets(req)[a].path| ==>
         Accounted(req, scope, first, second, a, Targets(req)[a].path[..k])
  }

  predicate ValidName(name: string) {
    0 < |name| <= 80 && forall i :: 0 <= i < |name| ==> ' ' <= name[i] <= '~'
  }

  // ---------------------------------------------------------------- a world that stands still

  type World = Path -> Outcome

  /** Every proper ancestor of `p` is there. */
  ghost predicate ClearAbove(w: World, p: Path) {
    forall j :: 1 <= j < |p| ==> w(p[..j]).Seen?
  }

  /** The paths a scan comes to see. */
  ghost function Reach(req: Request, w: World): set<Path> {
    set a, k | 0 <= a < |Targets(req)| && 1 <= k <= |Targets(req)[a].path|
               && ClearAbove(w, Targets(req)[a].path[..k]) && w(Targets(req)[a].path[..k]).Seen? ::
      Targets(req)[a].path[..k]
  }

  ghost function AcesOf(w: World, p: Path): nat {
    match w(p) case Seen(node) => |node.security.aces| case _ => 0
  }

  ghost function Aces(w: World, paths: set<Path>): nat {
    if paths == {} then 0
    else var p :| p in paths; AcesOf(w, p) + Aces(w, paths - {p})
  }

  /** A target with a printable name, inside the installation, and not too deep. */
  predicate TargetOk(req: Request, target: Asset) {
    ValidName(target.name) && target.path != [] && Within(target.path, req.directory) && |target.path| <= MAX_DEPTH
  }

  /** A path that can be looked at is good, or it is a target up to the `a`-th that is absent
      and optional. */
  ghost predicate PathOk(req: Request, scope: Scope, w: World, a: nat, p: Path) {
    ClearAbove(w, p) ==>
      match w(p)
      case Seen(node) => GoodNode(req, scope, p, node)
      case NotExist => p in OptionalPaths(req) && exists b :: 0 <= b <= a && b < |Targets(req)| && Targets(req)[b].path == p
      case Failed => false
  }

  ghost predicate Lost(req: Request, w: World) {
    exists a :: 0 <= a < |Targets(req)| && Targets(req)[a].path != [] && ClearAbove(w, Targets(req)[a].path) && !w(Targets(req)[a].path).Seen?
  }

  /** What a scan of a world that stands still must find to be content: an installation that
      qualifies, nothing wrong on the way to any target, and no limit exceeded. */
  ghost predicate Passes(req: Request, scope: Scope, w: World) {
    && QualifiedScope(req, scope) && |req.assets| + |req.optionalAssets| <= MAX_OBJECTS
    && AllOk(req, |Targets(req)|) && PathsOk(req, scope, w) && WithinLimits(req, w)
  }

  ghost predicate AllOk(req: Request, n: nat) {
    forall a :: 0 <= a < n && a < |Targets(req)| ==> TargetOk(req, Targets(req)[a])
  }

  ghost predicate PathsOk(req: Request, scope: Scope, w: World) {
    forall a, k :: 0 <= a < |Targets(req)| && 1 <= k <= |Targets(req)[a].path| ==>
      PathOk(req, scope, w, a, Targets(req)[a].path[..k])
  }

  /** At most 256 objects with at most 4096 entries; one object less when something is absent. */
  ghost predicate WithinLimits(req: Request, w: World) {
    && |Reach(req, w)| <= MAX_OBJECTS && (Lost(req, w) ==> |Reach(req, w)| < MAX_OBJECTS)
    && Aces(w, Reach(req, w)) <= D.MAX_ACES
  }

  lemma {:induction false} AcesWithout(w: World, paths: set<Path>, p: Path)
    requires p in paths
    ensures Aces(w, paths) == AcesOf(w, p) + Aces(w, paths - {p})
    decreases |paths|
  {
    var q :| q in paths && Aces(w, paths) == AcesOf(w, q) + Aces(w, paths - {q});
    if q != p {
      AcesWithout(w, paths - {q}, p);
      AcesWithout(w, paths - {p}, q);
      assert paths - {q} - {p} == paths - {p} - {q};
    }
  }

  lemma {:induction false} AcesGrow(w: World, some: set<Path>, all: set<Path>)
    requires some <= all
    ensures Aces(w, some) <= Aces(w, all) && |some| <= |all|
    decreases |some|
  {
    if some != {} {
      var p :| p in some;
      AcesWithout(w, some, p);
      AcesWithout(w, all, p);
      AcesGrow(w, some - {p}, all - {p});
    }
  }

  // -------------------- what a scan knows half way

  ghost predicate PrefixesSeen(seen: set<Path>, p: Path) {
    forall j :: 1 <= j < |p| ==> p[..j] in seen
  }

  /** What was seen lies on the way to a target, and so does everything above it. */
  ghost predicate Rooted(req: Request, seen: set<Path>) {
    forall p :: p in seen ==>
      p != [] && PrefixesSeen(seen, p) && exists a :: 0 <= a < |Targets(req)| && p <= Targets(req)[a].path
  }

  /** Everything above what is absent was seen. */
  ghost predicate PrefixesOfAbsent(seen: set<Path>, absent: set<Path>) {
    forall p :: p in absent ==> PrefixesSeen(seen, p)
  }

  ghost predicate Earlier(req: Request, seen: set<Path>, absent: set<Path>, a: nat) {
    forall b :: 0 <= b < a && b < |Targets(req)| ==> TargetReached(req, seen, absent, b)
  }

  ghost predicate Follows(w: World, seen: map<Path, Snapshot>, absent: set<Path>, aces: nat) {
    && (forall p :: p in seen ==> w(p) == Seen(seen[p]))
    && Stays(w, absent)
    && aces == Aces(w, seen.Keys)
  }

  /** The books of a scan; in a world that stands still and passes they never show a fault. */
  ghost predicate Tally(req: Request, scope: Scope, world: Option<World>, seen: map<Path, Snapshot>, absent: set<Path>,
                        blocked: set<Path>, aces: nat, clean: bool) {
    && absent <= blocked && seen.Keys !! absent && [] !in absent && Rooted(req, seen.Keys)
    && PrefixesOfAbsent(seen.Keys, absent)
    && |seen| <= MAX_OBJECTS && (clean ==> aces <= D.MAX_ACES)
    && (world.Some? ==> Follows(world.value, seen, absent, aces))
    && (world.Some? && Passes(req, scope, world.value) ==> clean && blocked <= absent)
  }

  /** The scan stands before `p` on its way to the `a`-th target. */
  ghost predicate Before(req: Request, seen: set<Path>, a: nat, p: Path) {
    a < |Targets(req)| && p != [] && p <= Targets(req)[a].path && PrefixesSeen(seen, p)
  }

  /** A path that is met now was on the way to no target before. */
  lemma MetFirst(req: Request, seen: set<Path>, absent: set<Path>, a: nat, p: Path)
    requires Before(req, seen, a, p) && Earlier(req, seen, absent, a)
    requires p !in seen && p !in absent && seen !! absent && [] !in absent
    ensures FirstOn(req, p, a)
  {
    forall b | 0 <= b < a ensures !(p <= Targets(req)[b].path) {
      if p <= Targets(req)[b].path {
        ReachedBefore(req, seen, absent, b, p);
        assert false;
      }
    }
  }

  /** On the way to a target that was reached, what is below seen directories was seen or is absent. */
  lemma ReachedBefore(req: Request, seen: set<Path>, absent: set<Path>, b: nat, p: Path)
    requires b < |Targets(req)| && TargetReached(req, seen, absent, b)
    requires p != [] && p <= Targets(req)[b].path && PrefixesSeen(seen, p) && seen !! absent && [] !in absent
    ensures p in seen || p in absent
  {
    assert Targets(req)[b].path[..|p|] == p;
    assert AtOrAfter(req, seen, absent, b, p);
    if p !in seen {
      var c :| 0 <= c <= b && Targets(req)[c].path <= p && Targets(req)[c].path in absent;
      PrefixIsSeen(seen, p, Targets(req)[c].path);
    }
  }

  lemma PrefixIsSeen(seen: set<Path>, p: Path, q: Path)
    requires PrefixesSeen(seen, p) && q <= p && q != []
    ensures q == p || q in seen
  {
    assert q == p[..|q|];
  }

  lemma OnlyFirst(req: Request, p: Path, a: nat, node: Snapshot)
    requires FirstOn(req, p, a)
    ensures RightKind(req, p, node) <==> KindAt(|Targets(req)[a].path| - |p|, a, node)
  {
    forall b: nat | b < |Targets(req)| && FirstOn(req, p, b) ensures a == b { OneFirst(req, p, a, b); }
  }

  lemma OneFirst(req: Request, p: Path, a: nat, b: nat)
    requires FirstOn(req, p, a) && FirstOn(req, p, b)
    ensures a == b
  {
  }

  lemma SeenIsReach(req: Request, w: World, seen: map<Path, Snapshot>, absent: set<Path>, aces: nat)
    requires Rooted(req, seen.Keys) && Follows(w, seen, absent, aces)
    ensures seen.Keys <= Reach(req, w)
  {
    forall p | p in seen ensures p in Reach(req, w) {
      var a :| 0 <= a < |Targets(req)| && p <= Targets(req)[a].path;
      InReach(req, w, a, p);
    }
  }

  lemma InReach(req: Request, w: World, a: nat, p: Path)
    requires a < |Targets(req)| && p != [] && p <= Targets(req)[a].path && ClearAbove(w, p) && w(p).Seen?
    ensures p in Reach(req, w)
  {
    assert Targets(req)[a].path[..|p|] == p;
  }

  /** In a world that passes, the next path to be looked at gives no cause for complaint. */
  lemma MayVisit(req: Request, scope: Scope, w: World, seen: map<Path, Snapshot>, absent: set<Path>, blocked: set<Path>,
                 aces: nat, a: nat, p: Path)
    requires Tally(req, scope, Some(w), seen, absent, blocked, aces, true) && Passes(req, scope, w)
    requires Before(req, seen.Keys, a, p) && Earlier(req, seen.Keys, absent, a) && p !in seen && p !in absent
    ensures |seen| < MAX_OBJECTS
    ensures match w(p)
            case Seen(node) => GoodNode(req, scope, p, node) && aces + |node.security.aces| <= D.MAX_ACES
            case NotExist => p == Targets(req)[a].path && p in OptionalPaths(req)
            case Failed => false
  {
    assert ClearAbove(w, p);
    assert Targets(req)[a].path[..|p|] == p;
    assert PathOk(req, scope, w, a, p);
    SeenIsReach(req, w, seen, absent, aces);
    if w(p).Seen? {
      InReach(req, w, a, p);
      AcesWithout(w, seen.Keys + {p}, p);
      assert seen.Keys + {p} - {p} == seen.Keys;
      AcesGrow(w, seen.Keys + {p}, Reach(req, w));
    } else {
      AcesGrow(w, seen.Keys, Reach(req, w));
      AbsentIsTarget(req, scope, w, seen.Keys, absent, a, p);
    }
  }

  /** One more object on the books. */
  lemma TallySeen(req: Request, scope: Scope, world: Option<World>, seen: map<Path, Snapshot>, absent: set<Path>,
                  blocked: set<Path>, aces: nat, clean: bool, a: nat, p: Path, node: Snapshot, blocked1: set<Path>, clean1: bool)
    requires Tally(req, scope, world, seen, absent, blocked, aces, clean)
    requires Before(req, seen.Keys, a, p) && p !in seen && p !in blocked && |seen| < MAX_OBJECTS
    requires world.Some? ==> world.value(p) == Seen(node)
    requires blocked <= blocked1 && (clean1 ==> aces + |node.security.aces| <= D.MAX_ACES)
    requires world.Some? && Passes(req, scope, world.value) ==> clean1 && blocked1 == blocked
    ensures Tally(req, scope, world, seen[p := node], absent, blocked1, aces + |node.security.aces|, clean1)
  {
    var more := seen[p := node];
    assert more.Keys == seen.Keys + {p};
    if world.Some? {
      AcesWithout(world.value, more.Keys, p);
      assert more.Keys - {p} == seen.Keys;
    }
  }

  lemma AbsentIsTarget(req: Request, scope: Scope, w: World, seen: set<Path>, absent: set<Path>, a: nat, p: Path)
    requires Before(req, seen, a, p) && Earlier(req, seen, absent, a) && p !in seen && p !in absent
    requires seen !! absent && [] !in absent && ClearAbove(w, p) && !w(p).Seen? && PathOk(req, scope, w, a, p)
    ensures p == Targets(req)[a].path && Lost(req, w)
  {
    MetFirst(req, seen, absent, a, p);
    var b :| 0 <= b <= a && b < |Targets(req)| && Targets(req)[b].path == p;
    assert p <= Targets(req)[b].path;
  }

  datatype Verdict = Continue | Stop | Abort

  class Scan {
    const report: Report
    /** The answers of every read, if they do not change while the scan runs. */
    const world: Option<World>
    var seen: map<Path, Snapshot>
    var tags: map<Path, string>
    var blocked: set<Path>
    var absent: map<Path, Asset>
    var aceCount: nat
    ghost var log: seq<Event>

    constructor (world0: Option<World>)
      ensures fresh(report) && report.Valid() && report.Clean() && report.objects == 0 && world == world0
      ensures seen == map[] && blocked == {} && absent == map[] && aceCount == 0 && log == []
    {
      report := new Report();
      world := world0;
      seen, tags, blocked, absent, aceCount, log := map[], map[], {}, map[], 0, [];
    }

    /** The native inspection: any answer at any time, unless the world stands still. */
    method Read(p: Path) returns (answer: Outcome)
      modifies this`log
      ensures log == old(log) + [Event(p, answer)]
      ensures world.Some? ==> answer == world.value(p)
    {
      answer := *;
      if world.Some? { answer := world.value(p); }
      log := log + [Event(p, answer)];
    }

    /** The deadline may pass at any moment of a changing world. */
    method Expired() returns (b: bool)
      ensures b ==> world.None?
    {
      b := *;
      b := b && world.None?;
    }

    method NoTime()
      requires report.Valid()
      modifies report`incomplete
      ensures report.Valid() && report.incomplete != []
    {
      report.Missing("audit time limit reached");
    }

    method TooMany()
      requires report.Valid()
      modifies report`incomplete
      ensures report.Valid() && report.incomplete != []
    {
      report.Missing("object count limit reached");
    }

    method TooManyAces()
      requires report.Valid()
      modifies report`incomplete
      ensures report.Valid() && report.incomplete != []
    {
      report.Missing("ACE count limit reached");
    }

    method Uninspected(tag: string)
      requires report.Valid()
      modifies report`incomplete
      ensures report.Valid() && report.incomplete != []
    {
      report.Missing(tag + ": native metadata/security inspection failed");
    }

    method Changed(tag: string)
      requires report.Valid()
      modifies report`incomplete
      ensures report.Valid() && report.incomplete != []
    {
      report.Missing(tag + ": object identity or security descriptor changed during inspection");
    }

    ghost predicate SeenLogged()
      reads this`seen, this`tags, this`log
    {
      forall p :: p in seen ==> Event(p, Seen(seen[p])) in log && p in tags
    }

    /** Only optional targets up to the `a`-th are recorded as absent. */
    ghost predicate AbsentLogged(req: Request, a: nat)
      reads this`absent, this`log
    {
      forall p :: p in absent ==>
        Event(p, NotExist) in log && absent[p].path == p && p in OptionalPaths(req)
        && exists b :: 0 <= b <= a && b < |Targets(req)| && Targets(req)[b].path == p
    }

    ghost predicate SeenGood(req: Request, scope: Scope)
      reads this`seen
    {
      forall p :: p in seen ==> GoodNode(req, scope, p, seen[p])
    }

    /** What holds at every moment of the first pass, up to and including target `a`. */
    ghost predicate Inv(req: Request, scope: Scope, a: nat)
      reads this, report
    {
      && report.Valid()
      && report.objects == |seen|
      && SeenLogged() && AbsentLogged(req, a)
      && (report.incomplete == [] ==> blocked <= absent.Keys)
      && (report.Clean() ==> SeenGood(req, scope))
      && Booked(req, scope)
    }

    ghost predicate Booked(req: Request, scope: Scope)
      reads this, report
    {
      Tally(req, scope, world, seen, absent.Keys, blocked, aceCount, report.Clean())
    }

    /** The scan stands before `p`, at distance `i` from the `a`-th target, which is met first. */
    ghost predicate At(req: Request, a: nat, p: Path, i: nat)
      reads this, report
    {
      && Before(req, seen.Keys, a, p) && |p| + i == |Targets(req)[a].path|
      && (report.incomplete == [] ==> Earlier(req, seen.Keys, absent.Keys, a))
    }

    /** The scan has only learned more. */
    twostate predicate Grows()
      reads this, report
    {
      && (forall p :: p in old(seen) ==> p in seen)
      && (forall p :: p in old(absent) ==> p in absent)
      && (old(report.incomplete) != [] ==> report.incomplete != [])
      && old(report.candidates) <= report.candidates
    }

    /** The checks on a freshly read object. */
    method Inspect(req: Request, scope: Scope, p: Path, node: Snapshot, tag: string, i: nat, targetIndex: nat)
      returns (bad: bool)
      requires report.Valid()
      modifies report`findings, report`candidates, report`incomplete
      ensures report.Valid() && report.candidates >= old(report.candidates)
      ensures old(report.incomplete) != [] ==> report.incomplete != []
      ensures report.Clean() <==>
                old(report.Clean()) && Quiet(node, scope.updater) && InPlace(req, scope, p, node) && KindAt(i, targetIndex, node)
      ensures bad ==> report.incomplete != []
    {
      Classify(report, tag, node, scope.updater);
      bad := InspectPlace(req, scope, p, node, tag, i, targetIndex);
    }

    method InspectPlace(req: Request, scope: Scope, p: Path, node: Snapshot, tag: string, i: nat, targetIndex: nat)
      returns (bad: bool)
      requires report.Valid()
      modifies report`incomplete
      ensures report.Valid()
      ensures old(report.incomplete) != [] ==> report.incomplete != []
      ensures report.incomplete == [] <==>
                old(report.incomplete) == [] && InPlace(req, scope, p, node) && KindAt(i, targetIndex, node)
      ensures bad ==> report.incomplete != []
    {
      InspectInstallation(req, scope, p, node);
      var disk := report.Flag(node.filesystem != "NTFS", tag + ": filesystem is not qualified local NTFS");
      var link := report.Flag(node.reparse != 0, tag + ": redirection object/target chain not qualified");
      var moved := report.Flag(node.resolved != p, tag + ": resolved path identity differs; target chain not qualified");
      var unknown := report.Flag(node.identity == "", tag + ": native object identity unavailable");
      var shape := InspectKind(node, tag, i, targetIndex);
      bad := disk || link || moved || unknown || shape;
    }

    method InspectInstallation(req: Request, scope: Scope, p: Path, node: Snapshot)
      requires report.Valid()
      modifies report`incomplete
      ensures report.Valid()
      ensures old(report.incomplete) != [] ==> report.incomplete != []
      ensures report.incomplete == [] <==>
                && old(report.incomplete) == []
                && (p == req.directory ==>
                      node.security.owner == scope.updater && (scope.anchor.identity != "" ==> node == scope.anchor))
    {
      if p != req.directory { return; }
      var foreign := report.Flag(node.security.owner != scope.updater,
                                 "installation owner does not validate the updater SID");
      if scope.anchor.identity != "" {
        var same := SameSnapshot(scope.anchor, node);
        var changed := report.Flag(!same, "installation identity/security changed after updater qualification");
      }
    }

    method InspectKind(node: Snapshot, tag: string, i: nat, targetIndex: nat) returns (bad: bool)
      requires report.Valid()
      modifies report`incomplete
      ensures report.Valid()
      ensures old(report.incomplete) != [] ==> report.incomplete != []
      ensures bad <==> !KindAt(i, targetIndex, node)
      ensures report.incomplete == [] <==> old(report.incomplete) == [] && !bad
    {
      var shape := report.Flag(i > 0 && !node.directory, tag + ": ancestor is not a directory");
      var kind := report.Flag(i == 0 && targetIndex > 0 && node.directory, tag + ": managed file is a directory");
      bad := shape || kind;
    }

    /** One path of a chain; `i` is its distance from the target. */
    method Visit(req: Request, scope: Scope, target: Asset, targetIndex: nat, p: Path, i: nat) returns (v: Verdict)
      requires targetIndex < |Targets(req)| && Targets(req)[targetIndex] == target && Inv(req, scope, targetIndex)
      requires At(req, targetIndex, p, i)
      modifies this, report
      ensures Inv(req, scope, targetIndex) && Grows()
      ensures v.Continue? ==> p in seen
      ensures v.Stop? ==> report.incomplete != [] || p in absent
      ensures v.Abort? ==> report.incomplete != []
    {
      var late := Expired();
      if late { NoTime(); return Abort; }
      if p in blocked { return Stop; }
      if p in seen { return Continue; }
      MayVisitNow(req, scope, targetIndex, p, i);
      if |seen| >= MAX_OBJECTS { TooMany(); return Abort; }
      var tag := if i == 0 then target.name else target.name + " ancestor[" + Itoa(i) + "]";
      v := Open(req, scope, target, targetIndex, p, i, tag);
    }

    ghost predicate Hopeful(req: Request, scope: Scope)
    {
      world.Some? && Passes(req, scope, world.value)
    }

    lemma MayVisitNow(req: Request, scope: Scope, a: nat, p: Path, i: nat)
      requires Booked(req, scope) && At(req, a, p, i) && p !in seen && p !in blocked
      ensures Hopeful(req, scope) ==>
                && |seen| < MAX_OBJECTS
                && match world.value(p)
                   case Seen(node) => GoodNode(req, scope, p, node) && aceCount + |node.security.aces| <= D.MAX_ACES
                   case NotExist => i == 0 && p in OptionalPaths(req)
                   case Failed => false
    {
      if Hopeful(req, scope) { MayVisit(req, scope, world.value, seen, absent.Keys, blocked, aceCount, a, p); }
    }

    /** Read a path for the first time. */
    method Open(req: Request, scope: Scope, target: Asset, targetIndex: nat, p: Path, i: nat, tag: string) returns (v: Verdict)
      requires targetIndex < |Targets(req)| && Targets(req)[targetIndex] == target && Inv(req, scope, targetIndex)
      requires p !in seen && p !in blocked && |seen| < MAX_OBJECTS && At(req, targetIndex, p, i)
      modifies this, report
      ensures Inv(req, scope, targetIndex) && Grows()
      ensures v.Continue? ==> p in seen
      ensures v.Stop? ==> report.incomplete != [] || p in absent
      ensures v.Abort? ==> report.incomplete != []
    {
      MayVisitNow(req, scope, targetIndex, p, i);
      var answer := Read(p);
      if answer.Seen? {
        v := Record(req, scope, targetIndex, p, i, answer.node, tag);
      } else {
        v := Stop;
        var gone := i == 0 && p in OptionalPaths(req) && answer.NotExist?;
        if !gone { Uninspected(tag); }
        Close(req, scope, targetIndex, target, p, gone);
      }
    }

    /** The path cannot be entered: it is absent, or it could not be inspected. */
    method Close(req: Request, scope: Scope, targetIndex: nat, target: Asset, p: Path, gone: bool)
      requires targetIndex < |Targets(req)| && Targets(req)[targetIndex] == target && Inv(req, scope, targetIndex)
      requires p != [] && p !in seen && PrefixesSeen(seen.Keys, p)
      requires if gone then p == target.path && p in OptionalPaths(req) && Event(p, NotExist) in log
                            && (world.Some? ==> world.value(p) == NotExist)
               else report.incomplete != []
      modifies this`absent, this`blocked
      ensures Inv(req, scope, targetIndex) && Grows() && (gone ==> p in absent)
    {
      if gone { absent := absent[p := target]; }
      blocked := blocked + {p};
    }

    /** The object is known and inspected. */
    method Record(req: Request, scope: Scope, targetIndex: nat, p: Path, i: nat, node: Snapshot, tag: string) returns (v: Verdict)
      requires targetIndex < |Targets(req)| && Inv(req, scope, targetIndex)
      requires p !in seen && p !in blocked && |seen| < MAX_OBJECTS && At(req, targetIndex, p, i)
      requires Event(p, Seen(node)) in log && (world.Some? ==> world.value(p) == Seen(node))
      modifies this, report
      ensures Inv(req, scope, targetIndex) && Grows()
      ensures v.Continue? ==> p in seen
      ensures v.Stop? || v.Abort? ==> report.incomplete != []
    {
      MayVisitNow(req, scope, targetIndex, p, i);
      NewIsFirst(req, scope, targetIndex, p, i, node);
      Remember(req, scope, targetIndex, p, i, node, tag);
      if aceCount > D.MAX_ACES {
        GiveUp(req, scope, targetIndex, p, i);
        return Abort;
      }
      v := Judge(req, scope, targetIndex, p, i, tag);
    }

    /** The object at `p` is on the books, and has not been judged. */
    ghost predicate Pending(req: Request, scope: Scope, a: nat, p: Path, i: nat)
      reads this, report
    {
      && p in seen && p !in blocked && |seen| <= MAX_OBJECTS && |seen[p].security.aces| <= aceCount
      && Before(req, seen.Keys - {p}, a, p)
      && (world.Some? ==> world.value(p) == Seen(seen[p]))
      && (Hopeful(req, scope) ==> GoodNode(req, scope, p, seen[p]) && aceCount <= D.MAX_ACES)
      && (report.incomplete == [] ==> (RightKind(req, p, seen[p]) <==> KindAt(i, a, seen[p])))
      && Tally(req, scope, world, seen - {p}, absent.Keys, blocked, aceCount - |seen[p].security.aces|, report.Clean())
    }

    lemma Settle(req: Request, scope: Scope, a: nat, p: Path, i: nat, blocked0: set<Path>, clean0: bool)
      requires p in seen && p !in blocked0 && |seen| <= MAX_OBJECTS && |seen[p].security.aces| <= aceCount
      requires Before(req, seen.Keys - {p}, a, p)
      requires world.Some? ==> world.value(p) == Seen(seen[p])
      requires Tally(req, scope, world, seen - {p}, absent.Keys, blocked0, aceCount - |seen[p].security.aces|, clean0)
      requires blocked0 <= blocked && (report.Clean() ==> aceCount <= D.MAX_ACES)
      requires Hopeful(req, scope) ==> report.Clean() && blocked == blocked0
      ensures Booked(req, scope)
    {
      assert seen == (seen - {p})[p := seen[p]];
      assert (seen - {p}).Keys == seen.Keys - {p};
      TallySeen(req, scope, world, seen - {p}, absent.Keys, blocked0, aceCount - |seen[p].security.aces|, clean0,
                a, p, seen[p], blocked, report.Clean());
    }

    /** The object just recorded has one entry too many. */
    method GiveUp(req: Request, scope: Scope, targetIndex: nat, p: Path, i: nat)
      requires targetIndex < |Targets(req)| && InvBut(req, scope, targetIndex, p) && Pending(req, scope, targetIndex, p, i)
      requires aceCount > D.MAX_ACES
      modifies report`incomplete
      ensures Inv(req, scope, targetIndex) && report.incomplete != []
    {
      ghost var clean0 := report.Clean();
      TooManyAces();
      Settle(req, scope, targetIndex, p, i, blocked, clean0);
    }

    /** classify and the checks beside it, on the object just recorded. */
    method Judge(req: Request, scope: Scope, targetIndex: nat, p: Path, i: nat, tag: string) returns (v: Verdict)
      requires targetIndex < |Targets(req)| && InvBut(req, scope, targetIndex, p) && Pending(req, scope, targetIndex, p, i)
      requires aceCount <= D.MAX_ACES
      modifies this`blocked, report`findings, report`candidates, report`incomplete
      ensures Inv(req, scope, targetIndex) && Grows()
      ensures v.Stop? ==> report.incomplete != []
      ensures !v.Abort?
    {
      ghost var blocked0, clean0 := blocked, report.Clean();
      var bad := Inspect(req, scope, p, seen[p], tag, i, targetIndex);
      assert Tally(req, scope, world, seen - {p}, absent.Keys, blocked0, aceCount - |seen[p].security.aces|, clean0);
      v := Continue;
      if bad {
        blocked := blocked + {p};
        v := Stop;
      }
      Settle(req, scope, targetIndex, p, i, blocked0, clean0);
    }

    lemma NewIsFirst(req: Request, scope: Scope, a: nat, p: Path, i: nat, node: Snapshot)
      requires Booked(req, scope) && At(req, a, p, i) && p !in seen && p !in blocked
      ensures report.incomplete == [] ==> (RightKind(req, p, node) <==> KindAt(i, a, node))
    {
      if report.incomplete == [] {
        MetFirst(req, seen.Keys, absent.Keys, a, p);
        OnlyFirst(req, p, a, node);
      }
    }

    /** Inv, before the object at `p` has been judged. */
    ghost predicate InvBut(req: Request, scope: Scope, a: nat, p: Path)
      reads this, report
    {
      && report.Valid()
      && report.objects == |seen|
      && SeenLogged() && AbsentLogged(req, a)
      && (report.incomplete == [] ==> blocked <= absent.Keys)
      && (report.Clean() ==> forall q :: q in seen && q != p ==> GoodNode(req, scope, q, seen[q]))
    }

    method Remember(req: Request, scope: Scope, targetIndex: nat, p: Path, i: nat, node: Snapshot, tag: string)
      requires targetIndex < |Targets(req)| && Inv(req, scope, targetIndex)
      requires p !in seen && p !in blocked && |seen| < MAX_OBJECTS && Before(req, seen.Keys, targetIndex, p)
      requires Event(p, Seen(node)) in log && (world.Some? ==> world.value(p) == Seen(node))
      requires Hopeful(req, scope) ==> GoodNode(req, scope, p, node) && aceCount + |node.security.aces| <= D.MAX_ACES
      requires report.incomplete == [] ==> (RightKind(req, p, node) <==> KindAt(i, targetIndex, node))
      modifies this`seen, this`tags, this`aceCount, report`objects
      ensures InvBut(req, scope, targetIndex, p) && seen == old(seen)[p := node] && Pending(req, scope, targetIndex, p, i)
    {
      report.objects := report.objects + 1;
      seen := seen[p := node];
      tags := tags[p := tag];
      aceCount := aceCount + |node.security.aces|;
      NowPending(req, scope, targetIndex, p, i, old(seen), old(aceCount));
    }

    lemma NowPending(req: Request, scope: Scope, a: nat, p: Path, i: nat, seen0: map<Path, Snapshot>, aces0: nat)
      requires p in seen && p !in seen0 && seen == seen0[p := seen[p]] && aceCount == aces0 + |seen[p].security.aces|
      requires p !in blocked && |seen0| < MAX_OBJECTS && Before(req, seen0.Keys, a, p)
      requires world.Some? ==> world.value(p) == Seen(seen[p])
      requires Hopeful(req, scope) ==> GoodNode(req, scope, p, seen[p]) && aceCount <= D.MAX_ACES
      requires report.incomplete == [] ==> (RightKind(req, p, seen[p]) <==> KindAt(i, a, seen[p]))
      requires Tally(req, scope, world, seen0, absent.Keys, blocked, aces0, report.Clean())
      ensures Pending(req, scope, a, p, i)
    {
      assert seen - {p} == seen0 && seen.Keys - {p} == seen0.Keys;
    }

    /** One chain, root first. */
    method Walk(req: Request, scope: Scope, target: Asset, targetIndex: nat) returns (abort: bool)
      requires targetIndex < |Targets(req)| && Targets(req)[targetIndex] == target && Inv(req, scope, targetIndex)
      requires report.incomplete == [] ==> Earlier(req, seen.Keys, absent.Keys, targetIndex)
      modifies this, report
      ensures Inv(req, scope, targetIndex) && Grows()
      ensures abort ==> report.incomplete != []
      ensures report.incomplete == [] ==>
                |target.path| <= MAX_DEPTH && WayReached(seen.Keys, absent.Keys, target.path, |target.path|)
    {
      var path := target.path;
      if |path| > MAX_DEPTH {
        HopeTarget(req, scope, targetIndex);
        report.Missing("ancestor depth limit reached");
        return false;
      }
      for k := 1 to |path| + 1
        invariant Inv(req, scope, targetIndex) && Grows()
        invariant PathsSeen(seen.Keys, path, k)
        invariant report.incomplete == [] ==> Earlier(req, seen.Keys, absent.Keys, targetIndex)
      {
        ghost var seen0, absent0 := seen.Keys, absent.Keys;
        StandsBefore(req, seen.Keys, targetIndex, k);
        var v := Visit(req, scope, target, targetIndex, path[..k], |path| - k);
        EarlierStays(req, seen0, absent0, seen.Keys, absent.Keys, targetIndex);
        if v.Abort? { return true; }
        if v.Stop? {
          if report.incomplete == [] { AllBelow(seen.Keys, absent.Keys, path, k); }
          return false;
        }
        OneFurther(seen0, seen.Keys, path, k);
      }
      AllOfIt(seen.Keys, absent.Keys, path);
      return false;
    }

    lemma HopeTarget(req: Request, scope: Scope, a: nat)
      requires a < |Targets(req)|
      ensures Hopeful(req, scope) ==> TargetOk(req, Targets(req)[a])
    {
    }

    /** One target: a label and a place that qualify, then its chain. */
    method TakeTarget(req: Request, scope: Scope, a: nat) returns (abort: bool)
      requires a < |Targets(req)| && Inv(req, scope, a)
      requires report.incomplete == [] ==> Earlier(req, seen.Keys, absent.Keys, a)
      modifies this, report
      ensures Inv(req, scope, a) && Grows()
      ensures abort ==> report.incomplete != []
      ensures report.incomplete == [] ==> TargetOk(req, Targets(req)[a]) && TargetReached(req, seen.Keys, absent.Keys, a)
    {
      var target := Targets(req)[a];
      HopeTarget(req, scope, a);
      if !ValidName(target.name) {
        report.Missing("invalid asset diagnostic label");
        return false;
      }
      if target.path == [] || !Within(target.path, req.directory) {
        report.Missing("managed asset outside qualified installation");
        return false;
      }
      abort := Walk(req, scope, target, a);
      if report.incomplete == [] { WayIsTarget(req, a); }
    }

    /** The targets before the `a`-th qualify and were reached. */
    ghost predicate Done(req: Request, a: nat)
      reads this, report
    {
      report.incomplete == [] ==> AllOk(req, a) && Earlier(req, seen.Keys, absent.Keys, a)
    }

    method Advance(req: Request, scope: Scope, a: nat) returns (abort: bool)
      requires a < |Targets(req)| && Inv(req, scope, a) && Done(req, a)
      modifies this, report
      ensures Inv(req, scope, a + 1)
      ensures if abort then report.incomplete != [] else Done(req, a + 1)
    {
      ghost var seen0, absent0 := seen.Keys, absent.Keys;
      abort := TakeTarget(req, scope, a);
      EarlierStays(req, seen0, absent0, seen.Keys, absent.Keys, a);
      AbsentLater(req, a);
    }

    /** The loop over the targets. */
    method FirstPass(req: Request, scope: Scope) returns (abort: bool)
      requires Inv(req, scope, 0) && QualifiedScope(req, scope)
      modifies this, report
      ensures Inv(req, scope, |Targets(req)|)
      ensures if abort then report.incomplete != [] else Done(req, |Targets(req)|)
    {
      for a := 0 to |Targets(req)|
        invariant Inv(req, scope, a) && Done(req, a)
      {
        abort := Advance(req, scope, a);
        if abort {
          AbsentByEnd(req, a + 1);
          return;
        }
      }
      abort := false;
    }

    lemma AbsentByEnd(req: Request, a: nat)
      requires AbsentLogged(req, a)
      ensures AbsentLogged(req, |Targets(req)|)
    {
    }

    lemma AbsentLater(req: Request, a: nat)
      requires AbsentLogged(req, a)
      ensures AbsentLogged(req, a + 1)
    {
    }

    /** What was absent on the way to a target was a target before it, or it itself. */
    lemma WayIsTarget(req: Request, a: nat)
      requires a < |Targets(req)| && AbsentLogged(req, a)
      requires WayReached(seen.Keys, absent.Keys, Targets(req)[a].path, |Targets(req)[a].path|)
      ensures TargetReached(req, seen.Keys, absent.Keys, a)
    {
      var path := Targets(req)[a].path;
      forall k | 1 <= k <= |path| ensures AtOrAfter(req, seen.Keys, absent.Keys, a, path[..k]) {
        assert Reached(seen.Keys, absent.Keys, path[..k]);
      }
    }

    method RecheckOne(key: Path) returns (ghost answer: Outcome)
      requires report.Valid() && key in seen && key in tags
      modifies this`log, report`incomplete
      ensures report.Valid() && log == old(log) + [Event(seen[key].resolved, answer)]
      ensures old(report.incomplete) != [] ==> report.incomplete != []
      ensures report.incomplete == [] ==> answer == Seen(seen[key])
      ensures world.Some? && world.value(seen[key].resolved) == Seen(seen[key]) && old(report.incomplete) == [] ==>
                report.incomplete == []
    {
      var now := Read(seen[key].resolved);
      answer := now;
      var same := false;
      if now.Seen? { same := SameSnapshot(seen[key], now.node); }
      if !same { Changed(tags[key]); }
    }

    /** The second look at every object, in any order. */
    method Recheck() returns (ghost second: seq<Event>)
      requires report.Valid() && SeenLogged()
      modifies this`log, report`incomplete
      ensures report.Valid() && log == old(log) + second
      ensures old(report.incomplete) != [] ==> report.incomplete != []
      ensures report.incomplete == [] ==> SeenAgain(seen, {}, second)
      ensures world.Some? && Stands(world.value, seen) && old(report.incomplete) == [] ==> report.incomplete == []
    {
      var todo := seen.Keys;
      assert forall p :: p in seen ==> p in tags;
      second := [];
      while todo != {}
        invariant todo <= seen.Keys && report.Valid() && log == old(log) + second
        invariant old(report.incomplete) != [] ==> report.incomplete != []
        invariant report.incomplete == [] ==> SeenAgain(seen, todo, second)
        invariant world.Some? && Stands(world.value, seen) && old(report.incomplete) == [] ==> report.incomplete == []
        decreases |todo|
      {
        var late := Expired();
        if late { NoTime(); return; }
        var key :| key in todo;
        ghost var answer := RecheckOne(key);
        if report.incomplete == [] { SeenOneMore(seen, todo, second, key); }
        todo := todo - {key};
        second := second + [Event(seen[key].resolved, answer)];
      }
    }

    method RecheckOneAbsent(scope: Scope, key: Path) returns (abort: bool, ghost event: Event)
      requires report.Valid() && key in absent && absent[key].path == key
      modifies this`log, this`aceCount, report
      ensures report.Valid() && log == old(log) + [event]
      ensures report.Clean() ==> old(report.Clean()) && event == Event(key, NotExist) && report.objects == old(report.objects)
      ensures abort ==> report.incomplete != []
      ensures world.Some? && world.value(key) == NotExist && old(report.Clean()) ==> report.Clean()
    {
      var answer := Read(absent[key].path);
      event := Event(key, answer);
      abort := JudgeAppeared(scope, absent[key].name, answer);
    }

    /** The second look at what was absent, in any order. */
    method RecheckAbsent(scope: Scope) returns (ghost second: seq<Event>)
      requires report.Valid() && forall p :: p in absent ==> absent[p].path == p
      modifies this`log, this`aceCount, report
      ensures report.Valid() && log == old(log) + second
      ensures report.Clean() ==> old(report.Clean())
      ensures report.Clean() ==> AbsentAgain(absent.Keys, second)
      ensures report.Clean() ==> report.objects == old(report.objects) && (absent == map[] || report.objects < MAX_OBJECTS)
      ensures world.Some? && Stays(world.value, absent.Keys) && old(report.Clean())
              && (absent == map[] || old(report.objects) < MAX_OBJECTS) ==>
                report.Clean()
    {
      var todo := absent.Keys;
      second := [];
      while todo != {}
        invariant todo <= absent.Keys && report.Valid() && log == old(log) + second
        invariant report.Clean() ==> old(report.Clean())
        invariant report.Clean() ==> AbsentAgain(absent.Keys - todo, second)
        invariant report.Clean() ==> report.objects == old(report.objects) && (todo == absent.Keys || report.objects < MAX_OBJECTS)
        invariant world.Some? && Stays(world.value, absent.Keys) && old(report.Clean())
                  && (absent == map[] || old(report.objects) < MAX_OBJECTS) ==>
                    report.Clean()
        decreases |todo|
      {
        var late := Expired();
        if late { NoTime(); return; }
        if report.objects >= MAX_OBJECTS { TooMany(); return; }
        var key :| key in todo;
        var abort: bool;
        ghost var event: Event;
        abort, event := RecheckOneAbsent(scope, key);
        AbsentOneMore(absent.Keys, todo, second, key, event);
        todo := todo - {key};
        second := second + [event];
        if abort { return; }
      }
    }

    /** An optional asset that is there now leaves the report incomplete. */
    method JudgeAppeared(scope: Scope, tag: string, answer: Outcome) returns (abort: bool)
      requires report.Valid()
      modifies this`aceCount, report
      ensures report.Valid() && (report.Clean() <==> old(report.Clean()) && answer.NotExist?)
      ensures report.Clean() ==> report.objects == old(report.objects)
      ensures abort ==> report.incomplete != []
    {
      abort := false;
      if answer.Seen? {
        report.objects := report.objects + 1;
        aceCount := aceCount + |answer.node.security.aces|;
        if aceCount > D.MAX_ACES { TooManyAces(); return true; }
        Classify(report, tag, answer.node, scope.updater);
      }
      if !answer.NotExist? { report.Missing(tag + ": optional asset appeared or inspection failed during recheck"); }
    }

    /** run: whatever the reads answer and whenever the deadline passes, a clean report means
        that the whole installation was read twice, unchanged, and found good. In a world that
        stands still the report is clean exactly when the installation passes. */
    method Run(req: Request, scope: Scope)
      requires report.Valid() && report.Clean() && report.objects == 0
      requires seen == map[] && blocked == {} && absent == map[] && aceCount == 0 && log == []
      modifies this, report
      ensures report.Valid()
      ensures report.Clean() ==> report.objects > 0 && exists first, second :: log == first + second && Sound(req, scope, first, second)
      ensures world.Some? ==> (report.Clean() <==> Passes(req, scope, world.value))
    {
      if !QualifiedScope(req, scope) {
        report.Missing("installation is not a qualified per-user scope");
        return;
      }
      if |req.assets| + |req.optionalAssets| > MAX_OBJECTS {
        report.Missing("managed-asset count limit reached");
        return;
      }
      TallyStart(req, scope, world);
      var abort := FirstPass(req, scope);
      if abort { return; }
      SecondPass(req, scope);
    }

    /** A first pass that found everything in order. */
    ghost predicate Passed(req: Request, scope: Scope)
      reads this, report
    {
      report.Clean() && Inv(req, scope, |Targets(req)|) && Done(req, |Targets(req)|)
    }

    /** What it leaves to the second pass: the installation's root was seen, everything is
        logged, and in a world that stands still only the limit on what was absent is open. */
    lemma AfterFirstPass(req: Request, scope: Scope)
      requires Passed(req, scope) && QualifiedScope(req, scope) && |req.assets| + |req.optionalAssets| <= MAX_OBJECTS
      ensures report.objects > 0 && Noted(req, scope, seen, absent.Keys, log)
      ensures Earlier(req, seen.Keys, absent.Keys, |Targets(req)|)
      ensures world.Some? ==>
                && Stands(world.value, seen) && Stays(world.value, absent.Keys)
                && (Passes(req, scope, world.value) <==> absent == map[] || report.objects < MAX_OBJECTS)
    {
      RootIsSeen(req, scope, seen.Keys, absent.Keys);
      if world.Some? { CleanPasses(req, scope, world.value, seen, absent.Keys, blocked, aceCount); }
    }

    /** Both rechecks, and the verdict. */
    method SecondPass(req: Request, scope: Scope)
      requires Inv(req, scope, |Targets(req)|) && Done(req, |Targets(req)|)
      requires QualifiedScope(req, scope) && |req.assets| + |req.optionalAssets| <= MAX_OBJECTS
      modifies this`log, this`aceCount, report
      ensures report.Valid()
      ensures report.Clean() ==>
                report.objects > 0 && exists second :: log == old(log) + second && Sound(req, scope, old(log), second)
      ensures world.Some? ==> (report.Clean() <==> Passes(req, scope, world.value))
    {
      if report.Clean() { AfterFirstPass(req, scope); }
      LookAgain(req, scope);
    }

    method LookAgain(req: Request, scope: Scope)
      requires report.Valid() && SeenLogged() && (forall p :: p in absent ==> absent[p].path == p)
      requires QualifiedScope(req, scope)
      requires report.Clean() ==>
                 && report.objects > 0 && Noted(req, scope, seen, absent.Keys, log)
                 && Earlier(req, seen.Keys, absent.Keys, |Targets(req)|)
                 && (world.Some? ==> Stands(world.value, seen) && Stays(world.value, absent.Keys))
      modifies this`log, this`aceCount, report
      ensures report.Valid()
      ensures report.Clean() ==>
                report.objects > 0 && exists second :: log == old(log) + second && Sound(req, scope, old(log), second)
      ensures report.Clean() ==> old(report.Clean())
      ensures world.Some? && old(report.Clean()) ==>
                (report.Clean() <==> absent == map[] || old(report.objects) < MAX_OBJECTS)
    {
      ghost var first := log;
      ghost var second := Recheck();
      ghost var third := RecheckAbsent(scope);
      if report.objects == 0 { report.Missing("no objects inspected"); }
      if report.Clean() {
        SoundAtEnd(req, scope, seen, absent.Keys, first, second, third);
        assert log == first + (second + third);
      }
    }
  }

  /** What was seen is good and logged, and so is what was absent, and optional. */
  ghost predicate Noted(req: Request, scope: Scope, seen: map<Path, Snapshot>, absent: set<Path>, first: seq<Event>) {
    && (forall p :: p in seen ==> Event(p, Seen(seen[p])) in first && GoodNode(req, scope, p, seen[p]))
    && (forall p :: p in absent ==> Event(p, NotExist) in first && p in OptionalPaths(req))
  }

  lemma RootIsSeen(req: Request, scope: Scope, seen: set<Path>, absent: set<Path>)
    requires QualifiedScope(req, scope) && Earlier(req, seen, absent, |Targets(req)|)
    ensures seen != {}
  {
    assert TargetReached(req, seen, absent, 0);
    var p := req.directory[..1];
    assert AtOrAfter(req, seen, absent, 0, p);
  }

  /** Each object answers the same at the path it gave. */
  ghost predicate Stands(w: World, seen: map<Path, Snapshot>) {
    forall p :: p in seen ==> w(seen[p].resolved) == Seen(seen[p])
  }

  ghost predicate Stays(w: World, absent: set<Path>) {
    forall p :: p in absent ==> w(p) == NotExist
  }

  lemma TallyStart(req: Request, scope: Scope, world: Option<World>)
    ensures Tally(req, scope, world, map[], {}, {}, 0, true)
  {
  }

  /** What a clean first pass of a world that stands still has seen is all there is to see. */
  lemma CleanPasses(req: Request, scope: Scope, w: World, seen: map<Path, Snapshot>, absent: set<Path>, blocked: set<Path>,
                    aces: nat)
    requires Tally(req, scope, Some(w), seen, absent, blocked, aces, true) && AreTargets(req, absent)
    requires Earlier(req, seen.Keys, absent, |Targets(req)|)
    requires forall p :: p in seen ==> GoodNode(req, scope, p, seen[p])
    ensures PathsOk(req, scope, w)
    ensures WithinLimits(req, w) <==> absent == {} || |seen| < MAX_OBJECTS
  {
    CleanLimits(req, w, seen, absent, aces);
    forall a, k | 0 <= a < |Targets(req)| && 1 <= k <= |Targets(req)[a].path|
      ensures PathOk(req, scope, w, a, Targets(req)[a].path[..k])
    {
      AllPathsOk(req, scope, w, seen, absent, aces, a, Targets(req)[a].path[..k]);
    }
  }

  lemma CleanLimits(req: Request, w: World, seen: map<Path, Snapshot>, absent: set<Path>, aces: nat)
    requires Rooted(req, seen.Keys) && Follows(w, seen, absent, aces) && [] !in absent
    requires Earlier(req, seen.Keys, absent, |Targets(req)|) && PrefixesOfAbsent(seen.Keys, absent) && AreTargets(req, absent)
    requires |seen| <= MAX_OBJECTS && aces <= D.MAX_ACES
    ensures WithinLimits(req, w) <==> absent == {} || |seen| < MAX_OBJECTS
  {
    SeenIsReach(req, w, seen, absent, aces);
    ReachIsSeen(req, w, seen, absent, aces);
    LostIsAbsent(req, w, seen, absent, aces);
    assert Reach(req, w) == seen.Keys;
  }

  /** What is absent are targets, and optional. */
  ghost predicate AreTargets(req: Request, absent: set<Path>) {
    forall p :: p in absent ==> p in OptionalPaths(req) && exists a :: 0 <= a < |Targets(req)| && Targets(req)[a].path == p
  }

  /** On a clear way the path itself was seen, or is absent. */
  lemma ClearIsReached(req: Request, w: World, seen: map<Path, Snapshot>, absent: set<Path>, aces: nat, a: nat, p: Path)
    returns (c: nat)
    requires Follows(w, seen, absent, aces) && [] !in absent && Earlier(req, seen.Keys, absent, |Targets(req)|)
    requires a < |Targets(req)| && p != [] && p <= Targets(req)[a].path && ClearAbove(w, p)
    ensures p in seen || (c <= a && Targets(req)[c].path == p && p in absent)
  {
    c := 0;
    assert TargetReached(req, seen.Keys, absent, a);
    assert Targets(req)[a].path[..|p|] == p;
    assert AtOrAfter(req, seen.Keys, absent, a, p);
    if p !in seen {
      c :| 0 <= c <= a && c < |Targets(req)| && Targets(req)[c].path <= p && Targets(req)[c].path in absent;
      ClearPrefix(w, p, Targets(req)[c].path);
    }
  }

  lemma ClearPrefix(w: World, p: Path, q: Path)
    requires ClearAbove(w, p) && q <= p && q != [] && !w(q).Seen?
    ensures q == p
  {
    assert q == p[..|q|];
  }

  lemma ReachIsSeen(req: Request, w: World, seen: map<Path, Snapshot>, absent: set<Path>, aces: nat)
    requires Follows(w, seen, absent, aces) && [] !in absent && Earlier(req, seen.Keys, absent, |Targets(req)|)
    ensures Reach(req, w) <= seen.Keys
  {
    forall p | p in Reach(req, w) ensures p in seen {
      var a, k :| 0 <= a < |Targets(req)| && 1 <= k <= |Targets(req)[a].path| && p == Targets(req)[a].path[..k]
                  && ClearAbove(w, Targets(req)[a].path[..k]) && w(Targets(req)[a].path[..k]).Seen?;
      var c := ClearIsReached(req, w, seen, absent, aces, a, p);
    }
  }

  lemma LostIsAbsent(req: Request, w: World, seen: map<Path, Snapshot>, absent: set<Path>, aces: nat)
    requires Follows(w, seen, absent, aces) && [] !in absent && Earlier(req, seen.Keys, absent, |Targets(req)|)
    requires PrefixesOfAbsent(seen.Keys, absent) && AreTargets(req, absent)
    ensures Lost(req, w) <==> absent != {}
  {
    if Lost(req, w) {
      var a :| 0 <= a < |Targets(req)| && Targets(req)[a].path != [] && ClearAbove(w, Targets(req)[a].path) && !w(Targets(req)[a].path).Seen?;
      var c := ClearIsReached(req, w, seen, absent, aces, a, Targets(req)[a].path);
    }
    if absent != {} {
      var p :| p in absent;
      var a :| 0 <= a < |Targets(req)| && Targets(req)[a].path == p;
      assert PrefixesSeen(seen.Keys, p);
      assert ClearAbove(w, p);
    }
  }

  lemma AllPathsOk(req: Request, scope: Scope, w: World, seen: map<Path, Snapshot>, absent: set<Path>, aces: nat, a: nat, p: Path)
    requires Follows(w, seen, absent, aces) && [] !in absent && Earlier(req, seen.Keys, absent, |Targets(req)|)
    requires forall q :: q in seen ==> GoodNode(req, scope, q, seen[q])
    requires AreTargets(req, absent)
    requires a < |Targets(req)| && p != [] && p <= Targets(req)[a].path
    ensures PathOk(req, scope, w, a, p)
  {
    if ClearAbove(w, p) { var c := ClearIsReached(req, w, seen, absent, aces, a, p); }
  }

  /** Every object but those in `todo` answered the same again. */
  ghost predicate SeenAgain(seen: map<Path, Snapshot>, todo: set<Path>, second: seq<Event>) {
    forall p :: p in seen && p !in todo ==> Event(seen[p].resolved, Seen(seen[p])) in second
  }

  lemma SeenOneMore(seen: map<Path, Snapshot>, todo: set<Path>, second: seq<Event>, key: Path)
    requires key in seen && SeenAgain(seen, todo, second)
    ensures SeenAgain(seen, todo - {key}, second + [Event(seen[key].resolved, Seen(seen[key]))])
  {
    var more := second + [Event(seen[key].resolved, Seen(seen[key]))];
    assert more[|second|] in more;
  }

  ghost predicate AbsentAgain(absent: set<Path>, second: seq<Event>) {
    forall p :: p in absent ==> Event(p, NotExist) in second
  }

  lemma AbsentOneMore(absent: set<Path>, todo: set<Path>, second: seq<Event>, key: Path, event: Event)
    requires key in todo
    ensures event == Event(key, NotExist) && AbsentAgain(absent - todo, second) ==>
              AbsentAgain(absent - (todo - {key}), second + [event])
  {
    var more := second + [event];
    assert more[|second|] in more;
  }

  /** `p` was read, or lies at or under a target, not after the `a`-th, that was absent. */
  ghost predicate AtOrAfter(req: Request, seen: set<Path>, absent: set<Path>, a: nat, p: Path) {
    p in seen || exists b :: 0 <= b <= a && b < |Targets(req)| && Targets(req)[b].path <= p && Targets(req)[b].path in absent
  }

  ghost predicate TargetReached(req: Request, seen: set<Path>, absent: set<Path>, a: nat)
    requires a < |Targets(req)|
  {
    var path := Targets(req)[a].path;
    forall k :: 1 <= k <= |path| ==> AtOrAfter(req, seen, absent, a, path[..k])
  }

  lemma TargetStays(req: Request, seen0: set<Path>, absent0: set<Path>, seen: set<Path>, absent: set<Path>, a: nat)
    requires a < |Targets(req)| && seen0 <= seen && absent0 <= absent && TargetReached(req, seen0, absent0, a)
    ensures TargetReached(req, seen, absent, a)
  {
    var path := Targets(req)[a].path;
    forall k | 1 <= k <= |path| ensures AtOrAfter(req, seen, absent, a, path[..k]) {
      assert AtOrAfter(req, seen0, absent0, a, path[..k]);
    }
  }

  /** The path itself was read, or something at or above it is absent. */
  ghost predicate Reached(seen: set<Path>, absent: set<Path>, p: Path) {
    p in seen || exists q :: q in absent && q <= p
  }

  /** The first `k - 1` steps of the way are seen. */
  ghost predicate PathsSeen(seen: set<Path>, path: Path, k: nat)
    requires k <= |path| + 1
  {
    forall j :: 1 <= j < k ==> path[..j] in seen
  }

  lemma StandsBefore(req: Request, seen: set<Path>, a: nat, k: nat)
    requires a < |Targets(req)| && 1 <= k <= |Targets(req)[a].path| && PathsSeen(seen, Targets(req)[a].path, k)
    ensures Before(req, seen, a, Targets(req)[a].path[..k])
  {
    var path := Targets(req)[a].path;
    forall j | 1 <= j < k ensures path[..k][..j] in seen { assert path[..k][..j] == path[..j]; }
  }

  lemma OneFurther(seen0: set<Path>, seen: set<Path>, path: Path, k: nat)
    requires 1 <= k <= |path| && seen0 <= seen && PathsSeen(seen0, path, k) && path[..k] in seen
    ensures PathsSeen(seen, path, k + 1)
  {
    forall j | 1 <= j < k + 1 ensures path[..j] in seen { assert j < k ==> path[..j] in seen0; }
  }

  lemma AllOfIt(seen: set<Path>, absent: set<Path>, path: Path)
    requires PathsSeen(seen, path, |path| + 1)
    ensures WayReached(seen, absent, path, |path|)
  {
    forall j | 1 <= j <= |path| ensures Reached(seen, absent, path[..j]) { assert path[..j] in seen; }
  }

  lemma EarlierStays(req: Request, seen0: set<Path>, absent0: set<Path>, seen: set<Path>, absent: set<Path>, a: nat)
    requires seen0 <= seen && absent0 <= absent
    ensures Earlier(req, seen0, absent0, a) ==> Earlier(req, seen, absent, a)
  {
    if Earlier(req, seen0, absent0, a) {
      forall b | 0 <= b < a && b < |Targets(req)| ensures TargetReached(req, seen, absent, b) {
        TargetStays(req, seen0, absent0, seen, absent, b);
      }
    }
  }

  /** Everything on the way to a target is reached. */
  ghost predicate WayReached(seen: set<Path>, absent: set<Path>, path: Path, n: nat)
    requires n <= |path|
  {
    forall k :: 1 <= k <= n ==> Reached(seen, absent, path[..k])
  }

  lemma AllBelow(seen: set<Path>, absent: set<Path>, path: Path, k: nat)
    requires 1 <= k <= |path| && PathsSeen(seen, path, k) && path[..k] in absent
    ensures WayReached(seen, absent, path, |path|)
  {
    forall j | 1 <= j <= |path| ensures Reached(seen, absent, path[..j]) {
      if j < k { assert path[..j] in seen; } else { assert path[..k] <= path[..j]; }
    }
  }

  /** The two passes together account for every ancestor of every target. */
  lemma SoundAtEnd(req: Request, scope: Scope, seen: map<Path, Snapshot>, absent: set<Path>,
                   first: seq<Event>, second: seq<Event>, third: seq<Event>)
    requires QualifiedScope(req, scope) && Noted(req, scope, seen, absent, first)
    requires SeenAgain(seen, {}, second) && AbsentAgain(absent, third)
    requires Earlier(req, seen.Keys, absent, |Targets(req)|)
    ensures Sound(req, scope, first, second + third)
  {
    forall a, k | 0 <= a < |Targets(req)| && 1 <= k <= |Targets(req)[a].path|
      ensures Accounted(req, scope, first, second + third, a, Targets(req)[a].path[..k])
    {
      var p := Targets(req)[a].path[..k];
      assert TargetReached(req, seen.Keys, absent, a);
      assert AtOrAfter(req, seen.Keys, absent, a, p);
      if p in seen {
        assert Covered(req, scope, first, second + third, p);
      } else {
        var b :| 0 <= b <= a && b < |Targets(req)| && Targets(req)[b].path <= p && Targets(req)[b].path in absent;
        assert Gone(first, second + third, Targets(req)[b].path);
      }
    }
  }

  /** The installation and the required assets, when no optional asset is one of them: every
      ancestor of theirs was read twice, unchanged and good. */
  lemma RequiredAreCovered(req: Request, scope: Scope, first: seq<Event>, second: seq<Event>, a: nat, k: nat)
    requires Sound(req, scope, first, second)
    requires a <= |req.assets| && 1 <= k <= |Targets(req)[a].path|
    requires forall b :: 0 <= b <= |req.assets| ==> Targets(req)[b].path !in OptionalPaths(req)
    ensures Covered(req, scope, first, second, Targets(req)[a].path[..k])
  {
    assert Accounted(req, scope, first, second, a, Targets(req)[a].path[..k]);
  }

  // ---------------------------------------------------------------- a required asset that is not covered

  const VOLUME: Path := ["c:"]
  const HOME: Path := ["c:", "home"]
  const INSTALLED: Path := ["c:", "home", "cb"]
  const SHIM: Path := ["c:", "home", "cb", "shim"]

  const UPDATER: string := "S-1-5-21"

  /** An asset that is required and also listed as optional. */
  const BOTH: Request := Request(INSTALLED, [Asset(SHIM, "shim")], [Asset(SHIM, "shim")])

  function GoodDirectory(p: Path): Snapshot {
    Snapshot("id", p, "NTFS", true, 0, D.Descriptor(UPDATER, 0x8004, false, [], []))
  }

  const PERSONAL: Scope := Scope(UPDATER, HOME, true, GoodDirectory([]).(identity := ""))

  /** The reads of a scan that finds the directories good and the asset absent. */
  const ABSENT_LOG: seq<Event> := [
    Event(VOLUME, Seen(GoodDirectory(VOLUME))), Event(HOME, Seen(GoodDirectory(HOME))),
    Event(INSTALLED, Seen(GoodDirectory(INSTALLED))), Event(SHIM, NotExist)]

  lemma GoodDirectoryIsGood(p: Path)
    requires p != SHIM
    ensures GoodNode(BOTH, PERSONAL, p, GoodDirectory(p))
  {
  }

  /** Both passes may see the same, and everything is accounted for; yet the required asset
      was never there to be inspected. */
  lemma AbsentRequiredAsset()
    ensures Sound(BOTH, PERSONAL, ABSENT_LOG, ABSENT_LOG) && BOTH.assets[0].path == SHIM
    ensures !Covered(BOTH, PERSONAL, ABSENT_LOG, ABSENT_LOG, SHIM)
  {
    var targets := Targets(BOTH);
    assert targets == [Asset(INSTALLED, "installation"), Asset(SHIM, "shim"), Asset(SHIM, "shim")];
    assert BOTH.optionalAssets[0].path == SHIM && SHIM in OptionalPaths(BOTH);
    forall a, k | 0 <= a < |targets| && 1 <= k <= |targets[a].path|
      ensures Accounted(BOTH, PERSONAL, ABSENT_LOG, ABSENT_LOG, a, targets[a].path[..k])
    {
      AbsentAccounted(a, k);
    }
  }

  lemma AbsentAccounted(a: nat, k: nat)
    requires a < |Targets(BOTH)| && 1 <= k <= |Targets(BOTH)[a].path|
    ensures Accounted(BOTH, PERSONAL, ABSENT_LOG, ABSENT_LOG, a, Targets(BOTH)[a].path[..k])
  {
    var p := Targets(BOTH)[a].path[..k];
    if p != SHIM { GoodDirectoryIsGood(p); }
    if k == 1 {
      assert p == VOLUME && ABSENT_LOG[0] in ABSENT_LOG;
    } else if k == 2 {
      assert p == HOME && ABSENT_LOG[1] in ABSENT_LOG;
    } else if k == 3 {
      assert p == INSTALLED && ABSENT_LOG[2] in ABSENT_LOG;
    } else {
      assert p == SHIM && ABSENT_LOG[3] in ABSENT_LOG;
      assert Targets(BOTH)[a].path <= p && BOTH.optionalAssets[0].path == SHIM;
    }
  }
}
