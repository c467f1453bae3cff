/**
 * internal/pathmap/pathmap.go: which arguments of a Windows command line are host paths, and
 * where in the container they are found again. A host path is its volume and its components,
 * cleaned and case-folded.
 */
module PathMap {
  import opened Wrappers
  import opened Text
  import opened Decimal
  import R = Registry
  import Toml

  datatype HostPath = HostPath(volume: string, parts: seq<string>)

  datatype Kind = Directory | PlainFile | Missing | Unreadable

  /** The questions put to the host: the canonical form of an absolute path and of a path
      relative to the working directory, whether the latter exists, and what a path is. */
  datatype Host = Host(
    absolute: string -> Option<HostPath>, relative: string -> Option<HostPath>, present: string -> bool,
    kind: HostPath -> Kind)

  predicate CleanPath(p: HostPath) {
    forall i :: 0 <= i < |p.parts| ==> '/' !in p.parts[i]
  }

  /** Canonical paths are clean. */
  ghost predicate HostOk(host: Host) {
    forall s :: (host.absolute(s).Some? ==> CleanPath(host.absolute(s).value))
                && (host.relative(s).Some? ==> CleanPath(host.relative(s).value))
  }

  datatype Fault = NotCanonical | Unstatable | NotADirectory | NoAncestor | MissingArgument

  // ---------------------------------------------------------------- which arguments are paths

  predicate EndsWith(s: string, suffix: string) {
    |suffix| <= |s| && s[|s| - |suffix|..] == suffix
  }

  predicate HasPackagePatternSuffix(s: string) {
    EndsWith(s, "...") &&
    var prefix := s[..|s| - 3];
    prefix == "" || EndsWith(prefix, "/") || EndsWith(prefix, "\\")
  }

  predicate IsWindowsAbsPath(s: string) {
    |s| >= 3 && ('A' <= s[0] <= 'Z' || 'a' <= s[0] <= 'z') && s[1] == ':' && (s[2] == '\\' || s[2] == '/')
  }

  predicate IsExplicitRelPath(s: string) {
    ".\\" <= s || "..\\" <= s || "./" <= s || "../" <= s
  }

  predicate IsFlag(s: string) {
    s != "" && s[0] == '-'
  }

  function Canonical(p: Option<HostPath>): Result<Option<HostPath>, Fault> {
    match p case None => Err(NotCanonical) case Some(h) => Ok(Some(h))
  }

  /** resolveWindowsPathArgMode: the host path an argument names, if it names one. */
  function ResolveArg(host: Host, arg: string, force: bool): Result<Option<HostPath>, Fault> {
    if HasPackagePatternSuffix(arg) then Ok(None)
    else if IsWindowsAbsPath(arg) then Canonical(host.absolute(arg))
    else if IsExplicitRelPath(arg) || (force && !IsFlag(arg) && arg != "") then Canonical(host.relative(arg))
    else if '\\' in arg && '\r' !in arg && '\n' !in arg && '\t' !in arg && host.present(arg) then Canonical(host.relative(arg))
    else Ok(None)
  }

  // -------------------- what that comes to, character by character

  predicate IsSlash(c: char) {
    c == '/' || c == '\\'
  }

  /** Ends in three dots that are the whole or follow a slash: a package pattern. */
  predicate IsPattern(arg: string) {
    var n := |arg|;
    n >= 3 && arg[n - 1] == '.' && arg[n - 2] == '.' && arg[n - 3] == '.' && (n == 3 || IsSlash(arg[n - 4]))
  }

  /** Begins with one or two dots and a slash. */
  predicate IsDotted(arg: string) {
    || (|arg| >= 2 && arg[0] == '.' && IsSlash(arg[1]))
    || (|arg| >= 3 && arg[0] == '.' && arg[1] == '.' && IsSlash(arg[2]))
  }

  predicate IsDrive(arg: string) {
    |arg| >= 3 && (('a' <= arg[0] <= 'z') || ('A' <= arg[0] <= 'Z')) && arg[1] == ':' && IsSlash(arg[2])
  }

  lemma PatternChars(arg: string)
    ensures HasPackagePatternSuffix(arg) <==> IsPattern(arg)
  {
    var n := |arg|;
    if n >= 3 {
      assert arg[n - 3..] == "..." <==> arg[n - 3] == '.' && arg[n - 2] == '.' && arg[n - 1] == '.';
      var prefix := arg[..n - 3];
      if n > 3 {
        SlashEnds(prefix);
        assert prefix[|prefix| - 1] == arg[n - 4];
      }
    }
  }

  lemma SlashEnds(prefix: string)
    requires prefix != ""
    ensures EndsWith(prefix, "/") || EndsWith(prefix, "\\") <==> IsSlash(prefix[|prefix| - 1])
  {
    assert prefix[|prefix| - 1..] == [prefix[|prefix| - 1]];
  }

  lemma DottedChars(arg: string)
    ensures IsExplicitRelPath(arg) <==> IsDotted(arg)
  {
    if |arg| >= 2 { assert arg[..2] == [arg[0], arg[1]]; }
    if |arg| >= 3 { assert arg[..3] == [arg[0], arg[1], arg[2]]; }
  }

  /** A package pattern stays. Otherwise an absolute path is one, a path that begins with dots
      and a slash is one, a forced argument is one unless it is empty or an option, and any
      other is one only if it holds a backslash, no line break or tab, and is there. */
  lemma WhichArePaths(host: Host, arg: string, force: bool)
    ensures IsPattern(arg) ==> ResolveArg(host, arg, force) == Ok(None)
    ensures !IsPattern(arg) && IsDrive(arg) ==> ResolveArg(host, arg, force) == Canonical(host.absolute(arg))
    ensures !IsPattern(arg) && !IsDrive(arg) && (IsDotted(arg) || (force && arg != "" && arg[0] != '-')) ==>
              ResolveArg(host, arg, force) == Canonical(host.relative(arg))
    ensures !IsPattern(arg) && !IsDrive(arg) && !IsDotted(arg) && (force ==> arg == "" || arg[0] == '-') ==>
              ResolveArg(host, arg, force) ==
              if '\\' in arg && '\r' !in arg && '\n' !in arg && '\t' !in arg && host.present(arg)
              then Canonical(host.relative(arg)) else Ok(None)
  {
    PatternChars(arg);
    DottedChars(arg);
  }

  // ---------------------------------------------------------------- where a path is mounted

  predicate IsUnder(root: HostPath, p: HostPath) {
    root.volume == p.volume && root.parts <= p.parts
  }

  function Parent(p: HostPath): HostPath {
    if p.parts == [] then p else HostPath(p.volume, p.parts[..|p.parts| - 1])
  }

  function Ancestor(p: HostPath, n: nat): HostPath
    requires n <= |p.parts|
  {
    HostPath(p.volume, p.parts[..n])
  }

  /** The directory to mount: the path itself, the parent of a file, or, for a path that does
      not exist, the nearest ancestor that does. */
  predicate NearestDirectory(host: Host, p: HostPath, source: HostPath) {
    match host.kind(p)
    case Directory => source == p
    case PlainFile => source == Parent(p)
    case Unreadable => false
    case Missing =>
      exists n :: 0 <= n < |p.parts| && source == Ancestor(p, n) && host.kind(source) == Directory
                  && forall m :: n < m <= |p.parts| ==> host.kind(Ancestor(p, m)) == Missing
  }

  /** externalMountRoot: it finds the nearest usable directory, and fails only when there is none. */
  method ExternalMountRoot(host: Host, p: HostPath) returns (r: Result<HostPath, Fault>)
    ensures r.Ok? ==> NearestDirectory(host, p, r.value) && IsUnder(r.value, p)
    ensures r.Err? ==> forall n :: 0 <= n <= |p.parts| ==> !NearestDirectory(host, p, Ancestor(p, n))
  {
    match host.kind(p) {
      case Directory => return Ok(p);
      case PlainFile => return Ok(Parent(p));
      case Unreadable => return Err(Unstatable);
      case Missing =>
    }
    assert Ancestor(p, |p.parts|) == p;
    var n: nat := if |p.parts| == 0 then 0 else |p.parts| - 1;
    while true
      invariant n <= |p.parts|
      invariant forall m :: n < m <= |p.parts| ==> host.kind(Ancestor(p, m)) == Missing
      decreases n
    {
      var candidate := Ancestor(p, n);
      match host.kind(candidate) {
        case Directory =>
          assert n < |p.parts|;
          return Ok(candidate);
        case PlainFile =>
          NoneBeyond(host, p, n);
          return Err(NotADirectory);
        case Unreadable =>
          NoneBeyond(host, p, n);
          return Err(Unstatable);
        case Missing =>
      }
      if n == 0 {
        NoneBeyond(host, p, 0);
        return Err(NoAncestor);
      }
      n := n - 1;
    }
  }

  /** Below an ancestor that is no directory nothing can be the nearest one. */
  lemma NoneBeyond(host: Host, p: HostPath, n: nat)
    requires n <= |p.parts| && host.kind(p) == Missing && host.kind(Ancestor(p, n)) != Directory
    requires forall m :: n < m <= |p.parts| ==> host.kind(Ancestor(p, m)) == Missing
    requires host.kind(Ancestor(p, n)) == Missing ==> n == 0
    ensures forall m :: 0 <= m <= |p.parts| ==> !NearestDirectory(host, p, Ancestor(p, m))
  {
  }

  // ---------------------------------------------------------------- container paths

  datatype Mount = Mount(source: HostPath, target: string)

  const MOUNTS := "/cb/mounts/"

  function TargetOf(n: nat): string {
    MOUNTS + Itoa(n)
  }

  /** A path below a container directory. */
  function Place(base: string, parts: seq<string>): string {
    if parts == [] then base else base + "/" + Toml.Join(parts, "/")
  }

  /** The components of a container path below `base`, if it is there. */
  function StripBase(base: string, s: string): Option<seq<string>> {
    if s == base then Some([]) else if base + "/" <= s then Some(SplitOn(s[|base| + 1..], '/')) else None
  }

  function UnmapMounts(mounts: seq<Mount>, s: string): Option<HostPath> {
    if mounts == [] then None
    else
      match UnmapMounts(mounts[..|mounts| - 1], s)
      case Some(h) => Some(h)
      case None =>
        var m := mounts[|mounts| - 1];
        match StripBase(m.target, s)
        case None => None
        case Some(parts) => Some(HostPath(m.source.volume, m.source.parts + parts))
  }

  /** Reading a container path back on the host, through the workspace mount and the others. */
  function Unmap(workspace: string, root: HostPath, mounts: seq<Mount>, s: string): Option<HostPath> {
    match StripBase(workspace, s)
    case Some(parts) => Some(HostPath(root.volume, root.parts + parts))
    case None => UnmapMounts(mounts, s)
  }

  lemma {:induction false} SplitJoin(parts: seq<string>)
    requires parts != [] && forall i :: 0 <= i < |parts| ==> '/' !in parts[i]
    ensures SplitOn(Toml.Join(parts, "/"), '/') == parts
    decreases |parts|
  {
    Toml.JoinSplit(parts, "/");
    var s := Toml.Join(parts, "/");
    var head := parts[0];
    if |parts| == 1 {
      assert s == head;
      assert IndexOf(s, '/') == |s| by { assert forall k :: 0 <= k < |s| ==> s[k] in s; }
      assert parts == [head];
    } else {
      var rest := Toml.Join(parts[1..], "/");
      assert s == head + "/" + rest;
      assert s[|head|] == '/' && forall k :: 0 <= k < |head| ==> s[k] == head[k] && head[k] in head;
      assert IndexOf(s, '/') == |head|;
      assert s[..|head|] == head && s[|head| + 1..] == rest;
      SplitJoin(parts[1..]);
      assert parts == [head] + parts[1..];
    }
  }

  lemma StripPlace(base: string, parts: seq<string>)
    requires forall i :: 0 <= i < |parts| ==> '/' !in parts[i]
    ensures StripBase(base, Place(base, parts)) == Some(parts)
  {
    if parts != [] {
      var s := Place(base, parts);
      assert s[|base| + 1..] == Toml.Join(parts, "/");
      SplitJoin(parts);
    }
  }

  /** Neither directory is, or lies below, the other. */
  predicate Independent(a: string, b: string) {
    a != b && !(a + "/" <= b) && !(b + "/" <= a)
  }

  lemma PlacePrefix(base: string, parts: seq<string>)
    ensures Place(base, parts) == base || base + "/" <= Place(base, parts)
  {
  }

  lemma StripOther(a: string, b: string, parts: seq<string>)
    requires Independent(a, b)
    ensures StripBase(b, Place(a, parts)) == None
  {
    PlacePrefix(a, parts);
    var s := Place(a, parts);
    if b + "/" <= s { PrefixOfBoth(a, b, s); }
  }

  lemma PrefixOfBoth(a: string, b: string, s: string)
    requires (s == a || a + "/" <= s) && b + "/" <= s
    ensures !Independent(a, b)
  {
    if |b| + 1 <= |a| {
      assert a == s[..|a|];
      assert (b + "/") == s[..|b| + 1] == a[..|b| + 1];
    } else if |b| == |a| {
      assert a == s[..|a|] && b == s[..|b|];
    } else {
      assert b == s[..|b|] && a + "/" == s[..|a| + 1] == b[..|a| + 1];
    }
  }

  // ---------------------------------------------------------------- the mount list

  lemma {:induction false} ItoaPlain(n: nat)
    ensures '/' !in Itoa(n) && Itoa(n) != ""
  {
    ItoaRoundTrip(n);
    assert forall i :: 0 <= i < |Itoa(n)| ==> IsDigit(Itoa(n)[i]);
  }

  lemma NumberedApart(base: string, a: string, b: string)
    requires a != b && '/' !in a && '/' !in b
    ensures Independent(base + a, base + b)
  {
    var x, y := base + a, base + b;
    assert a == x[|base|..] && b == y[|base|..];
    assert forall k :: |base| <= k < |x| ==> x[k] == a[k - |base|] && a[k - |base|] in a;
    assert forall k :: |base| <= k < |y| ==> y[k] == b[k - |base|] && b[k - |base|] in b;
    if x + "/" <= y { SlashAfter(x, y); }
    if y + "/" <= x { SlashAfter(y, x); }
  }

  lemma SlashAfter(x: string, y: string)
    requires x + "/" <= y
    ensures |x| < |y| && y[|x|] == '/'
  {
    assert y[|x|] == (x + "/")[|x|];
  }

  lemma TargetsApart(i: nat, j: nat)
    requires i != j
    ensures Independent(TargetOf(i), TargetOf(j))
  {
    ItoaPlain(i);
    ItoaPlain(j);
    ItoaRoundTrip(i);
    ItoaRoundTrip(j);
    NumberedApart(MOUNTS, Itoa(i), Itoa(j));
  }

  /** The workspace is `/workspace` or a directory in it. */
  predicate WorkspaceOk(workspace: string) {
    "/workspace" <= workspace
  }

  lemma WorkspaceApart(workspace: string, i: nat)
    requires WorkspaceOk(workspace)
    ensures Independent(workspace, TargetOf(i))
  {
    assert workspace[1] == 'w' && TargetOf(i)[1] == 'c';
  }

  /** Mounts are numbered in order and no directory is mounted twice. */
  predicate MountsOk(mounts: seq<Mount>) {
    && (forall i :: 0 <= i < |mounts| ==> mounts[i].target == TargetOf(i))
    && (forall i, j :: 0 <= i < j < |mounts| ==> mounts[i].source != mounts[j].source)
  }

  /** The index by source agrees with the list. */
  predicate IndexOk(mounts: seq<Mount>, bySource: map<HostPath, string>) {
    && (forall i :: 0 <= i < |mounts| ==> mounts[i].source in bySource && bySource[mounts[i].source] == mounts[i].target)
    && (forall k :: k in bySource ==> exists i :: 0 <= i < |mounts| && mounts[i].source == k)
  }

  lemma {:induction false} UnmapMountsAt(mounts: seq<Mount>, i: nat, parts: seq<string>)
    requires i < |mounts| && MountsOk(mounts)
    requires forall j :: 0 <= j < |parts| ==> '/' !in parts[j]
    ensures UnmapMounts(mounts, Place(mounts[i].target, parts)) ==
            Some(HostPath(mounts[i].source.volume, mounts[i].source.parts + parts))
    decreases |mounts|
  {
    var k := |mounts| - 1;
    var s := Place(mounts[i].target, parts);
    if i < k {
      UnmapMountsAt(mounts[..k], i, parts);
    } else {
      NoneMatches(mounts[..k], i, parts);
      StripPlace(mounts[i].target, parts);
    }
  }

  lemma {:induction false} NoneMatches(mounts: seq<Mount>, i: nat, parts: seq<string>)
    requires i >= |mounts| && forall j :: 0 <= j < |mounts| ==> mounts[j].target == TargetOf(j)
    ensures UnmapMounts(mounts, Place(TargetOf(i), parts)) == None
    decreases |mounts|
  {
    if mounts != [] {
      var k := |mounts| - 1;
      NoneMatches(mounts[..k], i, parts);
      TargetsApart(i, k);
      StripOther(TargetOf(i), TargetOf(k), parts);
    }
  }

  lemma RestIsClean(h: HostPath, n: nat)
    requires CleanPath(h) && n <= |h.parts|
    ensures var rest := h.parts[n..]; forall i :: 0 <= i < |rest| ==> '/' !in rest[i]
  {
    var rest := h.parts[n..];
    forall i | 0 <= i < |rest| ensures '/' !in rest[i] {
      assert rest[i] == h.parts[n + i];
    }
  }

  /** A path in the workspace reads back through the workspace, */
  lemma UnmapWorkspace(workspace: string, root: HostPath, mounts: seq<Mount>, h: HostPath)
    requires IsUnder(root, h) && CleanPath(h)
    ensures Unmap(workspace, root, mounts, Place(workspace, h.parts[|root.parts|..])) == Some(h)
  {
    var rest := h.parts[|root.parts|..];
    RestIsClean(h, |root.parts|);
    StripPlace(workspace, rest);
    assert h == HostPath(root.volume, root.parts + rest);
  }

  /** and any other through its mount. */
  lemma UnmapMounted(workspace: string, root: HostPath, mounts: seq<Mount>, i: nat, h: HostPath)
    requires WorkspaceOk(workspace) && MountsOk(mounts) && i < |mounts| && IsUnder(mounts[i].source, h) && CleanPath(h)
    ensures var source := mounts[i].source;
            Unmap(workspace, root, mounts, Place(mounts[i].target, h.parts[|source.parts|..])) == Some(h)
  {
    var source := mounts[i].source;
    var rest := h.parts[|source.parts|..];
    RestIsClean(h, |source.parts|);
    WorkspaceApart(workspace, i);
    IndependentBothWays(workspace, TargetOf(i));
    StripOther(TargetOf(i), workspace, rest);
    UnmapMountsAt(mounts, i, rest);
    assert source.parts + rest == h.parts;
  }

  lemma IndependentBothWays(a: string, b: string)
    ensures Independent(a, b) == Independent(b, a)
  {
  }

  /** More mounts do not change what an argument reads back to. */
  lemma UnmapStays(workspace: string, root: HostPath, mounts: seq<Mount>, m: Mount, s: string)
    requires Unmap(workspace, root, mounts, s).Some?
    ensures Unmap(workspace, root, mounts + [m], s) == Unmap(workspace, root, mounts, s)
  {
    assert (mounts + [m])[..|mounts|] == mounts;
  }

  // ---------------------------------------------------------------- mapping one argument

  /** What mapping an argument must achieve. */
  ghost predicate MapsTo(host: Host, workspace: string, root: HostPath, mounts: seq<Mount>, arg: string, force: bool, out: string) {
    match ResolveArg(host, arg, force)
    case Err(_) => false
    case Ok(None) => out == arg
    case Ok(Some(h)) => Unmap(workspace, root, mounts, out) == Some(h)
  }

  /** An argument that cannot be mapped. */
  ghost predicate Unmappable(host: Host, root: HostPath, arg: string, force: bool) {
    match ResolveArg(host, arg, force)
    case Err(_) => true
    case Ok(None) => false
    case Ok(Some(h)) => !IsUnder(root, h) && forall n :: 0 <= n <= |h.parts| ==> !NearestDirectory(host, h, Ancestor(h, n))
  }

  /** Each mounted directory is the nearest one to some path outside the workspace. */
  ghost predicate Justified(host: Host, root: HostPath, source: HostPath) {
    exists h :: NearestDirectory(host, h, source) && IsUnder(source, h) && !IsUnder(root, h)
  }

  lemma AddMount(mounts: seq<Mount>, bySource: map<HostPath, string>, source: HostPath)
    requires MountsOk(mounts) && IndexOk(mounts, bySource) && source !in bySource
    ensures var target := TargetOf(|mounts|);
            MountsOk(mounts + [Mount(source, target)]) && IndexOk(mounts + [Mount(source, target)], bySource[source := target])
  {
    var m := Mount(source, TargetOf(|mounts|));
    assert forall i :: 0 <= i < |mounts| ==> mounts[i].source != source;
    AddToList(mounts, m);
    AddToIndex(mounts, bySource, m);
  }

  lemma AddToList(mounts: seq<Mount>, m: Mount)
    requires MountsOk(mounts) && m.target == TargetOf(|mounts|)
    requires forall i :: 0 <= i < |mounts| ==> mounts[i].source != m.source
    ensures MountsOk(mounts + [m])
  {
  }

  lemma AddToIndex(mounts: seq<Mount>, bySource: map<HostPath, string>, m: Mount)
    requires IndexOk(mounts, bySource) && forall i :: 0 <= i < |mounts| ==> mounts[i].source != m.source
    ensures IndexOk(mounts + [m], bySource[m.source := m.target])
  {
    var more := mounts + [m];
    assert more[|mounts|] == m;
    forall k | k in bySource ensures exists i :: 0 <= i < |more| && more[i].source == k {
      var i :| 0 <= i < |mounts| && mounts[i].source == k;
      assert more[i].source == k;
    }
  }

  class Mapper {
    const host: Host
    const root: HostPath
    const workspaceRoot: string
    var mounts: seq<Mount>
    var mountBySource: map<HostPath, string>

    constructor (host0: Host, root0: HostPath, workspaceRoot0: string)
      ensures host == host0 && root == root0 && workspaceRoot == workspaceRoot0 && mounts == [] && mountBySource == map[]
    {
      host, root, workspaceRoot, mounts, mountBySource := host0, root0, workspaceRoot0, [], map[];
    }

    ghost predicate Valid()
      reads this
    {
      && HostOk(host) && WorkspaceOk(workspaceRoot) && MountsOk(mounts) && IndexOk(mounts, mountBySource)
      && forall i :: 0 <= i < |mounts| ==> Justified(host, root, mounts[i].source)
    }

    /** The mount of a source, added on its first use. */
    method MountFor(source: HostPath) returns (ghost index: nat, target: string)
      requires Valid() && Justified(host, root, source)
      modifies this`mounts, this`mountBySource
      ensures Valid() && index < |mounts| && mounts[index] == Mount(source, target)
      ensures mounts == old(mounts) || exists m :: mounts == old(mounts) + [m]
    {
      if source in mountBySource {
        target := mountBySource[source];
        index :| 0 <= index < |mounts| && mounts[index].source == source;
      } else {
        target := TargetOf(|mounts|);
        index := |mounts|;
        AddMount(mounts, mountBySource, source);
        mountBySource := mountBySource[source := target];
        mounts := mounts + [Mount(source, target)];
      }
    }

    /** mapArg */
    method MapArg(arg: string, force: bool) returns (r: Result<string, Fault>)
      requires Valid()
      modifies this`mounts, this`mountBySource
      ensures Valid()
      ensures mounts == old(mounts) || exists m :: mounts == old(mounts) + [m]
      ensures r.Ok? ==> MapsTo(host, workspaceRoot, root, mounts, arg, force, r.value)
      ensures r.Err? <==> Unmappable(host, root, arg, force)
      ensures r.Err? ==> mounts == old(mounts)
    {
      var resolved := ResolveArg(host, arg, force);
      if resolved.Err? { return Err(resolved.error); }
      if resolved.value.None? { return Ok(arg); }
      var h := resolved.value.value;
      assert CleanPath(h);
      if IsUnder(root, h) {
        UnmapWorkspace(workspaceRoot, root, mounts, h);
        return Ok(Place(workspaceRoot, h.parts[|root.parts|..]));
      }
      var source := ExternalMountRoot(host, h);
      if source.Err? { return Err(source.error); }
      ghost var index;
      var target;
      index, target := MountFor(source.value);
      UnmapMounted(workspaceRoot, root, mounts, index, h);
      UnderIsAncestor(source.value, h);
      return Ok(Place(target, h.parts[|source.value.parts|..]));
    }
  }

  lemma UnderIsAncestor(source: HostPath, h: HostPath)
    requires IsUnder(source, h)
    ensures source == Ancestor(h, |source.parts|)
  {
  }

  // ---------------------------------------------------------------- joining split options

  /** The argument is `opt=` for a path option of the tool. */
  predicate IsBareOption(options: seq<string>, arg: string) {
    exists i :: 0 <= i < |options| && arg == options[i] + "="
  }

  /** NormalizeToolArgs on Windows: a bare `opt=` before the first `--` swallows its successor. */
  function Normalize(options: seq<string>, args: seq<string>): seq<string>
    decreases |args|
  {
    if args == [] || args[0] == "--" then args
    else if IsBareOption(options, args[0]) && |args| > 1 then [args[0] + args[1]] + Normalize(options, args[2..])
    else [args[0]] + Normalize(options, args[1..])
  }

  method FindBareOption(options: seq<string>, arg: string) returns (found: bool)
    ensures found <==> IsBareOption(options, arg)
  {
    for i := 0 to |options|
      invariant forall j :: 0 <= j < i ==> arg != options[j] + "="
    {
      if arg == options[i] + "=" { return true; }
    }
    return false;
  }

  lemma NormalizeStep(options: seq<string>, args: seq<string>, i: nat)
    requires i < |args|
    ensures Normalize(options, args[i..]) ==
            if args[i] == "--" then args[i..]
            else if IsBareOption(options, args[i]) && i + 1 < |args|
              then [args[i] + args[i + 1]] + Normalize(options, args[i + 2..])
            else [args[i]] + Normalize(options, args[i + 1..])
  {
    var rest := args[i..];
    assert rest[0] == args[i] && rest[1..] == args[i + 1..];
    if i + 1 < |args| { assert rest[1] == args[i + 1] && rest[2..] == args[i + 2..]; }
  }

  /** normalizeToolArgsForHost */
  method NormalizeLoop(windows: bool, options: seq<string>, args: seq<string>) returns (out: seq<string>)
    ensures out == if windows then Normalize(options, args) else args
  {
    if windows { out := JoinOptions(options, args); } else { out := args; }
  }

  /** The next output element and how many arguments it takes, or the end of the options. */
  method JoinOne(options: seq<string>, args: seq<string>, i: nat) returns (stop: bool, next: string, taken: nat)
    requires i < |args|
    ensures 1 <= taken <= |args| - i
    ensures Normalize(options, args[i..]) == if stop then args[i..] else [next] + Normalize(options, args[i + taken..])
  {
    NormalizeStep(options, args, i);
    stop, next, taken := args[i] == "--", args[i], 1;
    if stop { return; }
    var bare := FindBareOption(options, args[i]);
    if bare && i + 1 < |args| { next, taken := args[i] + args[i + 1], 2; }
  }

  lemma Shift(out: seq<string>, next: string, tail: seq<string>)
    ensures out + ([next] + tail) == (out + [next]) + tail
  {
  }

  method JoinOptions(options: seq<string>, args: seq<string>) returns (out: seq<string>)
    ensures out == Normalize(options, args)
  {
    out := [];
    var i := 0;
    assert args[0..] == args;
    ghost var all := Normalize(options, args);
    ghost var tail := all;
    while i < |args|
      invariant 0 <= i <= |args|
      invariant out + tail == all && tail == Normalize(options, args[i..])
    {
      var stop, next, taken := JoinOne(options, args, i);
      if stop { return out + args[i..]; }
      tail := Normalize(options, args[i + taken..]);
      Shift(out, next, tail);
      out := out + [next];
      i := i + taken;
    }
    assert tail == [];
  }

  /** Joining loses no character and moves none. */
  lemma {:induction false} NormalizeKeepsText(options: seq<string>, args: seq<string>)
    ensures Concat(Normalize(options, args)) == Concat(args)
    decreases |args|
  {
    if args == [] || args[0] == "--" {
    } else if IsBareOption(options, args[0]) && |args| > 1 {
      NormalizeKeepsText(options, args[2..]);
      assert args[1..][1..] == args[2..];
      var head := [args[0] + args[1]];
      assert (head + Normalize(options, args[2..]))[1..] == Normalize(options, args[2..]);
    } else {
      NormalizeKeepsText(options, args[1..]);
      assert ([args[0]] + Normalize(options, args[1..]))[1..] == Normalize(options, args[1..]);
    }
  }

  /** Neither a bare option nor the end of the options. */
  predicate Passive(options: seq<string>, args: seq<string>) {
    forall i :: 0 <= i < |args| ==> args[i] != "--" && !IsBareOption(options, args[i])
  }

  lemma {:induction false} NormalizePassive(options: seq<string>, pre: seq<string>, rest: seq<string>)
    requires Passive(options, pre)
    ensures Normalize(options, pre + rest) == pre + Normalize(options, rest)
    decreases |pre|
  {
    if pre == [] {
      assert pre + rest == rest;
    } else {
      assert (pre + rest)[0] == pre[0] && (pre + rest)[1..] == pre[1..] + rest;
      NormalizePassive(options, pre[1..], rest);
      assert pre == [pre[0]] + pre[1..];
    }
  }

  /** Which arguments are joined: a bare `opt=` with the one after it, each pair once, up to the
      first `--`; a bare option at the very end stays alone. */
  lemma JoinsPairs(options: seq<string>, k: nat, pre: seq<string>, value: string, rest: seq<string>)
    requires Passive(options, pre) && k < |options|
    ensures Normalize(options, pre) == pre
    ensures Normalize(options, pre + ["--"] + rest) == pre + ["--"] + rest
    ensures Normalize(options, pre + [options[k] + "="]) == pre + [options[k] + "="]
    ensures Normalize(options, pre + [options[k] + "=", value] + rest) ==
            pre + [(options[k] + "=") + value] + Normalize(options, rest)
  {
    PassiveStays(options, pre);
    DashesStop(options, pre, "--", rest);
    NotDashes(options[k], "--");
    LastStays(options, pre, options[k] + "=");
    JoinsPair(options, pre, options[k] + "=", value, rest);
  }

  lemma NotDashes(option: string, dashes: string)
    requires dashes == "--"
    ensures option + "=" != dashes
  {
    assert (option + "=")[|option|] == '=';
  }

  lemma PassiveStays(options: seq<string>, pre: seq<string>)
    requires Passive(options, pre)
    ensures Normalize(options, pre) == pre
  {
    NormalizePassive(options, pre, []);
    assert pre + [] == pre;
  }

  lemma DashesStop(options: seq<string>, pre: seq<string>, dashes: string, rest: seq<string>)
    requires Passive(options, pre) && dashes == "--"
    ensures Normalize(options, pre + [dashes] + rest) == pre + [dashes] + rest
  {
    AfterPassive(options, pre, [dashes], rest);
    assert pre + ([dashes] + rest) == pre + [dashes] + rest;
  }

  lemma LastStays(options: seq<string>, pre: seq<string>, bare: string)
    requires Passive(options, pre)
    ensures Normalize(options, pre + [bare]) == pre + [bare]
  {
    NormalizePassive(options, pre, [bare]);
    assert [bare][1..] == [];
  }

  lemma JoinsPair(options: seq<string>, pre: seq<string>, bare: string, value: string, rest: seq<string>)
    requires Passive(options, pre) && IsBareOption(options, bare) && bare != "--"
    ensures Normalize(options, pre + [bare, value] + rest) == pre + [bare + value] + Normalize(options, rest)
  {
    AfterPassive(options, pre, [bare, value], rest);
    var args := [bare, value] + rest;
    assert args[0] == bare && args[1] == value && args[2..] == rest;
    assert pre + ([bare + value] + Normalize(options, rest)) == pre + [bare + value] + Normalize(options, rest);
  }

  lemma AfterPassive(options: seq<string>, pre: seq<string>, mid: seq<string>, rest: seq<string>)
    requires Passive(options, pre)
    ensures Normalize(options, pre + mid + rest) == pre + Normalize(options, mid + rest)
  {
    NormalizePassive(options, pre, mid + rest);
    assert pre + (mid + rest) == pre + mid + rest;
  }

  // ---------------------------------------------------------------- mapping a command line

  /** What is done with one argument: kept as it is, or its text after `prefix` mapped. */
  datatype Action = Keep | Map(prefix: string, payload: string, force: bool)

  /** Whether the next argument must be a path, and whether path options still count. */
  datatype Phase = Phase(forceNext: bool, forcedOptions: bool)

  /** The first path option of the form `opt=` the argument starts with. */
  function OptionPrefix(options: seq<string>, arg: string): (r: Option<string>)
    ensures r.Some? ==> r.value <= arg
  {
    if options == [] then None
    else if options[0] + "=" <= arg then Some(options[0] + "=")
    else OptionPrefix(options[1..], arg)
  }

  predicate LastEnabled(t: R.Tool, args: seq<string>) {
    t.pathLast && (t.pathLastIfAny == [] || exists i :: 0 <= i < |args| && args[i] in t.pathLastIfAny)
  }

  /** anyArgPresent */
  method AnyPresent(args: seq<string>, needles: seq<string>) returns (found: bool)
    ensures found <==> exists i :: 0 <= i < |args| && args[i] in needles
  {
    for i := 0 to |args|
      invariant forall k :: 0 <= k < i ==> args[k] !in needles
    {
      if args[i] in needles { return true; }
    }
    return false;
  }

  function ActionFor(t: R.Tool, args: seq<string>, phase: Phase, i: nat): Action
    requires i < |args|
  {
    var arg := args[i];
    if phase.forceNext then Map("", arg, true)
    else if arg == "--" || (phase.forcedOptions && arg in t.pathNext) then Keep
    else
      match if phase.forcedOptions then OptionPrefix(t.pathEquals, arg) else None
      case Some(prefix) => Map(prefix, arg[|prefix|..], true)
      case None => Map("", arg, phase.forcedOptions && LastEnabled(t, args) && i == |args| - 1 && !IsFlag(arg))
  }

  function NextPhase(t: R.Tool, phase: Phase, arg: string): Phase {
    if phase.forceNext then phase.(forceNext := false)
    else if arg == "--" then phase.(forcedOptions := false)
    else if phase.forcedOptions && arg in t.pathNext then phase.(forceNext := true)
    else phase
  }

  function PhaseAt(t: R.Tool, args: seq<string>, i: nat): Phase
    requires i <= |args|
  {
    if i == 0 then Phase(false, true) else NextPhase(t, PhaseAt(t, args, i - 1), args[i - 1])
  }

  function ActionAt(t: R.Tool, args: seq<string>, i: nat): Action
    requires i < |args|
  {
    ActionFor(t, args, PhaseAt(t, args, i), i)
  }

  /** From `k` to `i` stand options that take a path as their value, and no such right before. */
  predicate InRun(t: R.Tool, args: seq<string>, k: nat, i: nat) {
    && k <= i <= |args|
    && (forall j :: 0 <= j < i ==> args[j] != "--")
    && (forall j :: k <= j < i ==> args[j] in t.pathNext)
    && (k > 0 ==> args[k - 1] !in t.pathNext)
  }

  /** Of adjacent path options every second is the value of the one before it. */
  lemma {:induction false} PhaseReads(t: R.Tool, args: seq<string>, k: nat, i: nat)
    requires InRun(t, args, k, i)
    ensures PhaseAt(t, args, i) == Phase((i - k) % 2 == 1, true)
    decreases i
  {
    if k < i {
      PhaseReads(t, args, k, i - 1);
    } else if i > 0 {
      var start := RunStart(t, args, i - 1);
      PhaseReads(t, args, start, i - 1);
    }
  }

  lemma {:induction false} RunStart(t: R.Tool, args: seq<string>, i: nat) returns (k: nat)
    requires i <= |args| && forall j :: 0 <= j < i ==> args[j] != "--"
    ensures InRun(t, args, k, i)
  {
    if i > 0 && args[i - 1] in t.pathNext { k := RunStart(t, args, i - 1); } else { k := i; }
  }

  /** Before the first `--`: what is done with an argument that follows a run of path options
      starting at `k`. */
  lemma ActionReads(t: R.Tool, args: seq<string>, k: nat, i: nat)
    requires i < |args| && InRun(t, args, k, i)
    ensures (i - k) % 2 == 1 ==> ActionAt(t, args, i) == Map("", args[i], true)
    ensures (i - k) % 2 == 0 && (args[i] == "--" || args[i] in t.pathNext) ==> ActionAt(t, args, i) == Keep
    ensures (i - k) % 2 == 0 && args[i] != "--" && args[i] !in t.pathNext ==>
              forall m: nat, payload :: FirstMatch(t.pathEquals, args[i], m, payload) ==>
                ActionAt(t, args, i) == Map(t.pathEquals[m] + "=", payload, true)
    ensures (i - k) % 2 == 0 && args[i] != "--" && args[i] !in t.pathNext && NoMatch(t.pathEquals, args[i]) ==>
              ActionAt(t, args, i) ==
              Map("", args[i], t.pathLast && (t.pathLastIfAny == [] || exists j :: 0 <= j < |args| && args[j] in t.pathLastIfAny)
                               && i == |args| - 1 && !("-" <= args[i]))
  {
    PhaseReads(t, args, k, i);
    if NoMatch(t.pathEquals, args[i]) { NoOption(t.pathEquals, args[i]); }
    forall m: nat, payload | FirstMatch(t.pathEquals, args[i], m, payload)
      ensures OptionPrefix(t.pathEquals, args[i]) == Some(t.pathEquals[m] + "=")
      ensures args[i][|t.pathEquals[m] + "="|..] == payload
    {
      FirstOption(t.pathEquals, args[i], m);
    }
  }

  /** The argument is `opt=payload` for the `m`-th option and for none before it. */
  predicate FirstMatch(options: seq<string>, arg: string, m: nat, payload: string) {
    m < |options| && arg == options[m] + "=" + payload && NoMatch(options[..m], arg)
  }

  predicate NoMatch(options: seq<string>, arg: string) {
    forall n :: 0 <= n < |options| ==> !(options[n] + "=" <= arg)
  }

  lemma {:induction false} NoOption(options: seq<string>, arg: string)
    requires NoMatch(options, arg)
    ensures OptionPrefix(options, arg) == None
    decreases |options|
  {
    if options != [] { NoOption(options[1..], arg); }
  }

  lemma NoMatchTail(options: seq<string>, arg: string)
    requires options != [] && NoMatch(options, arg)
    ensures NoMatch(options[1..], arg)
  {
  }

  lemma {:induction false} FirstOption(options: seq<string>, arg: string, m: nat)
    requires m < |options| && options[m] + "=" <= arg && NoMatch(options[..m], arg)
    ensures OptionPrefix(options, arg) == Some(options[m] + "=")
    decreases m
  {
    if m > 0 {
      var rest := options[1..];
      assert options[..m][0] == options[0];
      assert options[..m][1..] == rest[..m - 1];
      NoMatchTail(options[..m], arg);
      FirstOption(rest, arg, m - 1);
    }
  }

  /** After a `--` that is no option's value nothing is forced any more. */
  lemma {:induction false} AfterDashes(t: R.Tool, args: seq<string>, k: nat, d: nat, i: nat)
    requires InRun(t, args, k, d) && (d - k) % 2 == 0 && d < i < |args| && args[d] == "--"
    ensures PhaseAt(t, args, i) == Phase(false, false)
    ensures ActionAt(t, args, i) == if args[i] == "--" then Keep else Map("", args[i], false)
    decreases i
  {
    if i == d + 1 { PhaseReads(t, args, k, d); } else { AfterDashes(t, args, k, d, i - 1); }
  }

  /** What must come out for one argument. */
  ghost predicate ArgMapped(host: Host, workspace: string, root: HostPath, mounts: seq<Mount>, action: Action, arg: string, out: string) {
    match action
    case Keep => out == arg
    case Map(prefix, payload, force) =>
      arg == prefix + payload && prefix <= out && MapsTo(host, workspace, root, mounts, payload, force, out[|prefix|..])
  }

  ghost predicate Blocks(host: Host, root: HostPath, action: Action) {
    action.Map? && Unmappable(host, root, action.payload, action.force)
  }

  lemma MappedStays(host: Host, workspace: string, root: HostPath, before: seq<Mount>, mounts: seq<Mount>, action: Action,
                    arg: string, out: string)
    requires ArgMapped(host, workspace, root, before, action, arg, out)
    requires mounts == before || exists m :: mounts == before + [m]
    ensures ArgMapped(host, workspace, root, mounts, action, arg, out)
  {
    if mounts != before && action.Map? {
      var m :| mounts == before + [m];
      var mapped := out[|action.prefix|..];
      if Unmap(workspace, root, before, mapped).Some? { UnmapStays(workspace, root, before, m, mapped); }
    }
  }

  lemma ActionSplits(t: R.Tool, args: seq<string>, i: nat)
    requires i < |args|
    ensures var action := ActionAt(t, args, i); action.Map? ==> args[i] == action.prefix + action.payload
  {
    assert "" + args[i] == args[i];
  }

  /** The search through the `opt=` options. */
  method FindOption(options: seq<string>, arg: string) returns (r: Option<string>)
    ensures r == OptionPrefix(options, arg)
  {
    assert options[0..] == options;
    for i := 0 to |options|
      invariant OptionPrefix(options, arg) == OptionPrefix(options[i..], arg)
    {
      assert options[i..][0] == options[i] && options[i..][1..] == options[i + 1..];
      if options[i] + "=" <= arg { return Some(options[i] + "="); }
    }
    return None;
  }

  /** One turn of the loop: what to do, and the flags afterwards. */
  method Decide(t: R.Tool, args: seq<string>, i: nat, forceNext: bool, forcedOptions: bool)
    returns (action: Action, forceNext': bool, forcedOptions': bool)
    requires i < |args|
    ensures action == ActionFor(t, args, Phase(forceNext, forcedOptions), i)
    ensures Phase(forceNext', forcedOptions') == NextPhase(t, Phase(forceNext, forcedOptions), args[i])
  {
    var arg := args[i];
    forceNext', forcedOptions' := forceNext, forcedOptions;
    if forceNext { return Map("", arg, true), false, forcedOptions; }
    if arg == "--" { return Keep, false, false; }
    if forcedOptions && arg in t.pathNext { return Keep, true, forcedOptions; }
    if forcedOptions {
      var prefix := FindOption(t.pathEquals, arg);
      if prefix.Some? { return Map(prefix.value, arg[|prefix.value|..], true), forceNext, forcedOptions; }
    }
    var present := AnyPresent(args, t.pathLastIfAny);
    var lastEnabled := t.pathLast && (|t.pathLastIfAny| == 0 || present);
    action := Map("", arg, forcedOptions && lastEnabled && i == |args| - 1 && !("-" <= arg));
  }

  /** Do it. */
  method Apply(pm: Mapper, action: Action, arg: string) returns (r: Result<string, Fault>)
    requires pm.Valid() && (action.Map? ==> arg == action.prefix + action.payload)
    modifies pm`mounts, pm`mountBySource
    ensures pm.Valid()
    ensures pm.mounts == old(pm.mounts) || exists m :: pm.mounts == old(pm.mounts) + [m]
    ensures r.Ok? ==> ArgMapped(pm.host, pm.workspaceRoot, pm.root, pm.mounts, action, arg, r.value)
    ensures r.Err? <==> Blocks(pm.host, pm.root, action)
  {
    if action.Keep? { return Ok(arg); }
    var v := pm.MapArg(action.payload, action.force);
    if v.Err? { return v; }
    var out := action.prefix + v.value;
    assert out[|action.prefix|..] == v.value;
    return Ok(out);
  }

  /** What is done with every argument. */
  function Actions(t: R.Tool, args: seq<string>): (actions: seq<Action>)
    ensures |actions| == |args|
  {
    seq(|args|, i requires 0 <= i < |args| => ActionAt(t, args, i))
  }

  /** The first arguments are mapped as they must be. */
  ghost predicate MappedUpTo(host: Host, workspace: string, root: HostPath, mounts: seq<Mount>, actions: seq<Action>,
                             args: seq<string>, mapped: seq<string>)
    requires |mapped| <= |args| == |actions|
  {
    forall j :: 0 <= j < |mapped| ==> ArgMapped(host, workspace, root, mounts, actions[j], args[j], mapped[j])
  }

  lemma MappedMore(host: Host, workspace: string, root: HostPath, before: seq<Mount>, mounts: seq<Mount>, actions: seq<Action>,
                   args: seq<string>, mapped: seq<string>, out: string)
    requires |mapped| < |args| == |actions| && MappedUpTo(host, workspace, root, before, actions, args, mapped)
    requires mounts == before || exists m :: mounts == before + [m]
    requires ArgMapped(host, workspace, root, mounts, actions[|mapped|], args[|mapped|], out)
    ensures MappedUpTo(host, workspace, root, mounts, actions, args, mapped + [out])
  {
    var more := mapped + [out];
    forall j | 0 <= j < |more| ensures ArgMapped(host, workspace, root, mounts, actions[j], args[j], more[j]) {
      if j < |mapped| {
        MappedStays(host, workspace, root, before, mounts, actions[j], args[j], mapped[j]);
      }
    }
  }

  /** Some argument among the first `n` names a path that cannot be mapped. */
  ghost predicate SomeBlocks(host: Host, root: HostPath, actions: seq<Action>, n: nat)
    requires n <= |actions|
  {
    exists i :: 0 <= i < n && Blocks(host, root, actions[i])
  }

  lemma BlocksStep(host: Host, root: HostPath, actions: seq<Action>, n: nat)
    requires n < |actions|
    ensures SomeBlocks(host, root, actions, n + 1) <==> SomeBlocks(host, root, actions, n) || Blocks(host, root, actions[n])
    ensures Blocks(host, root, actions[n]) ==> SomeBlocks(host, root, actions, |actions|)
  {
  }

  /** One turn of the loop, on the next argument. */
  method Turn(pm: Mapper, t: R.Tool, args: seq<string>, i: nat, forceNext: bool, forcedOptions: bool, ghost action: Action)
    returns (r: Result<string, Fault>, forceNext': bool, forcedOptions': bool)
    requires pm.Valid() && i < |args| && Phase(forceNext, forcedOptions) == PhaseAt(t, args, i)
    requires action == ActionAt(t, args, i)
    modifies pm`mounts, pm`mountBySource
    ensures pm.Valid() && Phase(forceNext', forcedOptions') == PhaseAt(t, args, i + 1)
    ensures pm.mounts == old(pm.mounts) || exists m :: pm.mounts == old(pm.mounts) + [m]
    ensures r.Err? <==> Blocks(pm.host, pm.root, action)
    ensures r.Ok? ==> ArgMapped(pm.host, pm.workspaceRoot, pm.root, pm.mounts, action, args[i], r.value)
  {
    ActionSplits(t, args, i);
    var decided;
    decided, forceNext', forcedOptions' := Decide(t, args, i, forceNext, forcedOptions);
    r := Apply(pm, decided, args[i]);
  }

  /** MapToolArgs on Windows: every argument that names a host path reads back, through the
      workspace and the returned mounts, to that path; all others are untouched. It fails
      exactly when some path cannot be mapped or a path option lacks its argument. */
  method MapToolArgs(host: Host, t: R.Tool, root: HostPath, workspaceRoot: string, userArgs: seq<string>)
    returns (r: Result<(seq<string>, seq<Mount>), Fault>)
    requires HostOk(host) && WorkspaceOk(workspaceRoot)
    ensures var args := Normalize(t.pathEquals, userArgs);
            var actions := Actions(t, args);
            && (r.Err? <==> PhaseAt(t, args, |args|).forceNext || SomeBlocks(host, root, actions, |args|))
            && (r.Ok? ==> Mapped(host, workspaceRoot, root, actions, args, r.value.0, r.value.1))
  {
    var args := NormalizeLoop(true, t.pathEquals, userArgs);
    var pm := new Mapper(host, root, workspaceRoot);
    r := MapAll(pm, t, args, Actions(t, args));
  }

  /** The whole result: every argument as it must be, the mounts distinct and justified. */
  ghost predicate Mapped(host: Host, workspace: string, root: HostPath, actions: seq<Action>, args: seq<string>,
                         mapped: seq<string>, mounts: seq<Mount>)
    requires |args| == |actions|
  {
    && |mapped| == |args| && MountsOk(mounts)
    && MappedUpTo(host, workspace, root, mounts, actions, args, mapped)
    && forall i :: 0 <= i < |mounts| ==> Justified(host, root, mounts[i].source)
  }

  method MapAll(pm: Mapper, t: R.Tool, args: seq<string>, ghost actions: seq<Action>)
    returns (r: Result<(seq<string>, seq<Mount>), Fault>)
    requires pm.Valid() && pm.mounts == [] && actions == Actions(t, args)
    modifies pm`mounts, pm`mountBySource
    ensures r.Err? <==> PhaseAt(t, args, |args|).forceNext || SomeBlocks(pm.host, pm.root, actions, |args|)
    ensures r.Ok? ==> Mapped(pm.host, pm.workspaceRoot, pm.root, actions, args, r.value.0, r.value.1)
  {
    var mapped, forceNext := MapEach(pm, t, args, actions);
    if mapped.Err? { return Err(mapped.error); }
    if forceNext { return Err(MissingArgument); }
    return Ok((mapped.value, pm.mounts));
  }

  /** The loop. */
  method MapEach(pm: Mapper, t: R.Tool, args: seq<string>, ghost actions: seq<Action>)
    returns (r: Result<seq<string>, Fault>, forceNext: bool)
    requires pm.Valid() && actions == Actions(t, args)
    modifies pm`mounts, pm`mountBySource
    ensures pm.Valid() && (r.Err? <==> SomeBlocks(pm.host, pm.root, actions, |args|))
    ensures r.Ok? ==> |r.value| == |args| && forceNext == PhaseAt(t, args, |args|).forceNext
                      && MappedUpTo(pm.host, pm.workspaceRoot, pm.root, pm.mounts, actions, args, r.value)
  {
    var mapped: seq<string> := [];
    var forcedOptions := true;
    forceNext := false;
    for i := 0 to |args|
      invariant pm.Valid() && |mapped| == i
      invariant Phase(forceNext, forcedOptions) == PhaseAt(t, args, i)
      invariant !SomeBlocks(pm.host, pm.root, actions, i)
      invariant MappedUpTo(pm.host, pm.workspaceRoot, pm.root, pm.mounts, actions, args, mapped)
    {
      var more;
      more, forceNext, forcedOptions := MapNext(pm, t, args, mapped, forceNext, forcedOptions, actions);
      if more.Err? { return more, forceNext; }
      mapped := more.value;
    }
    return Ok(mapped), forceNext;
  }

  method MapNext(pm: Mapper, t: R.Tool, args: seq<string>, mapped: seq<string>, forceNext: bool, forcedOptions: bool,
                 ghost actions: seq<Action>)
    returns (r: Result<seq<string>, Fault>, forceNext': bool, forcedOptions': bool)
    requires pm.Valid() && actions == Actions(t, args) && |mapped| < |args|
    requires Phase(forceNext, forcedOptions) == PhaseAt(t, args, |mapped|)
    requires !SomeBlocks(pm.host, pm.root, actions, |mapped|)
    requires MappedUpTo(pm.host, pm.workspaceRoot, pm.root, pm.mounts, actions, args, mapped)
    modifies pm`mounts, pm`mountBySource
    ensures pm.Valid() && Phase(forceNext', forcedOptions') == PhaseAt(t, args, |mapped| + 1)
    ensures r.Err? ==> SomeBlocks(pm.host, pm.root, actions, |args|)
    ensures r.Ok? ==> |r.value| == |mapped| + 1 && !SomeBlocks(pm.host, pm.root, actions, |mapped| + 1)
                      && MappedUpTo(pm.host, pm.workspaceRoot, pm.root, pm.mounts, actions, args, r.value)
  {
    BlocksStep(pm.host, pm.root, actions, |mapped|);
    ghost var before := pm.mounts;
    var v;
    v, forceNext', forcedOptions' := Turn(pm, t, args, |mapped|, forceNext, forcedOptions, actions[|mapped|]);
    if v.Err? { r := Err(v.error); return; }
    MappedMore(pm.host, pm.workspaceRoot, pm.root, before, pm.mounts, actions, args, mapped, v.value);
    r := Ok(mapped + [v.value]);
  }

  // ---------------------------------------------------------------- the workspace directory

  function ReplaceSlashes(s: string): string {
    seq(|s|, i requires 0 <= i < |s| => if s[i] == '/' then '_' else s[i])
  }

  lemma NoSlashes(s: string)
    ensures '/' !in s ==> ReplaceSlashes(s) == s
  {
    if '/' !in s { assert forall i :: 0 <= i < |s| ==> s[i] in s; }
  }

  /** WorkspaceRootFor: one fixed directory, or one segment below it for stateful tools. */
  function WorkspaceRootFor(t: R.Tool, root: HostPath): (workspace: string)
    ensures WorkspaceOk(workspace)
    ensures StripBase("/workspace", workspace).Some? && |StripBase("/workspace", workspace).value| <= 1
    ensures workspace == "/workspace" <==> t.provider != "stateful"
    ensures t.provider == "stateful" && CleanPath(root) && root.parts != [] && root.parts[|root.parts| - 1] !in ["", "."] ==>
              StripBase("/workspace", workspace) == Some([root.parts[|root.parts| - 1]])
  {
    if t.provider != "stateful" then "/workspace"
    else
      var last := if root.parts == [] then "" else root.parts[|root.parts| - 1];
      var base := if last in ["", "."] then "project" else ReplaceSlashes(last);
      NoSlashes(last);
      assert '/' !in base;
      WorkspaceSegment("/workspace", base);
      "/workspace" + "/" + base
  }

  lemma WorkspaceSegment(dir: string, base: string)
    requires '/' !in base
    ensures StripBase(dir, dir + "/" + base) == Some([base]) && dir <= dir + "/" + base
  {
    var one := [base];
    assert Place(dir, one) == dir + "/" + base;
    StripPlace(dir, one);
  }
}
