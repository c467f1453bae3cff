/**
 * The volume and mount entries of a tool profile (internal/registry/registry.go): what the
 * two splitting rules make of an entry as its documentation writes it.
 */
module MountSpecs {
  import opened Wrappers
  import opened Text
  import opened Registry

  /** An absolute container path of the given segments. */
  function PathText(segments: seq<string>): string {
    "/" + JoinWith(segments, '/')
  }

  /** A segment that `path.Clean` keeps. */
  predicate PlainSegment(s: string) {
    s != "" && s != "." && s != ".." && '/' !in s
  }

  predicate PlainSegments(segments: seq<string>) {
    segments != [] && forall i :: 0 <= i < |segments| ==> PlainSegment(segments[i])
  }

  lemma PathSplits(segments: seq<string>, slash: char)
    requires PlainSegments(segments) && slash == '/'
    ensures SplitOn(PathText(segments), slash) == [""] + segments
  {
    var nothing, rest := "", JoinWith(segments, slash);
    assert NoneHolds(segments, slash);
    SplitOfJoin(segments, slash);
    SplitOnce(nothing, slash, rest);
    assert PathText(segments) == nothing + [slash] + rest;
  }

  lemma {:induction false} CleanPlain(segments: seq<string>)
    requires forall i :: 0 <= i < |segments| ==> PlainSegment(segments[i])
    ensures CleanSegments(segments) == segments
  {
    if segments != [] { CleanPlain(segments[1..]); }
  }

  /** Empty segments and single dots do not matter. */
  lemma {:induction false} CleanSkips(a: seq<string>, dot: string, b: seq<string>)
    requires dot == "" || dot == "."
    ensures CleanSegments(a + [dot] + b) == CleanSegments(a + b)
  {
    if a == [] {
      assert a + [dot] + b == [dot] + b && a + b == b;
    } else {
      assert (a + [dot] + b)[1..] == a[1..] + [dot] + b && (a + b)[1..] == a[1..] + b;
      CleanSkips(a[1..], dot, b);
    }
  }

  lemma PathCleans(segments: seq<string>)
    requires PlainSegments(segments)
    ensures CleanSegments([""] + segments) == segments && ".." !in [""] + segments
  {
    CleanPlain(segments);
    assert ([""] + segments)[1..] == segments;
  }

  /** The first colon before a slash separates what holds none from what follows. */
  lemma {:induction false} SeparatorAfter(s: string, rest: string)
    requires rest != "" && rest[0] == '/'
    requires forall i :: 0 <= i < |s| - 1 ==> !(s[i] == ':' && s[i + 1] == '/')
    ensures MountSeparator(s + ":" + rest) == |s|
  {
    if s == "" {
      assert s + ":" + rest == ":" + rest;
    } else {
      var t := s[1..];
      assert (s + ":" + rest)[1..] == t + ":" + rest;
      forall i | 0 <= i < |t| - 1 ensures !(t[i] == ':' && t[i + 1] == '/') {
        assert t[i] == s[i + 1] && t[i + 1] == s[i + 2];
      }
      SeparatorAfter(t, rest);
    }
  }

  /** NAME:/path names the path, unless that belongs to the Python provider. */
  lemma VolumeReads(name: string, segments: seq<string>)
    requires ValidToolName(name) && PlainSegments(segments)
    ensures VolumeTarget(name + ":" + PathText(segments)) ==
            if ["venv"] <= segments || ["root", ".cache", "pip"] <= segments then None else Some(segments)
  {
    var path := PathText(segments);
    assert forall i :: 0 <= i < |name| ==> NameChar(name[i]);
    SeparatorAfter(name, path);
    VolumeParts(name, path, segments);
  }

  lemma VolumeParts(name: string, path: string, segments: seq<string>)
    requires ValidToolName(name) && PlainSegments(segments) && path == PathText(segments)
    requires MountSeparator(name + ":" + path) == |name|
    ensures VolumeTarget(name + ":" + path) ==
            if ["venv"] <= segments || ["root", ".cache", "pip"] <= segments then None else Some(segments)
  {
    var spec := name + ":" + path;
    assert spec[..|name|] == name && spec[|name| + 1..] == path;
    PathSplits(segments, '/');
    PathCleans(segments);
    PythonPaths(segments);
  }

  lemma PythonPaths(path: seq<string>)
    ensures UnderAny(PYTHON_PATHS, path) <==> ["venv"] <= path || ["root", ".cache", "pip"] <= path
  {
    assert PYTHON_PATHS[0] == ["venv"] && PYTHON_PATHS[1] == ["root", ".cache", "pip"];
  }

  /** The four places no mount may claim. */
  lemma ManagedPaths(path: seq<string>)
    ensures UnderAny(MANAGED_PATHS, path) <==>
            ["workspace"] <= path || ["cb"] <= path || ["venv"] <= path || ["root", ".cache", "pip"] <= path
  {
    assert MANAGED_PATHS[0] == ["workspace"] && MANAGED_PATHS[1] == ["cb"] && MANAGED_PATHS[2] == ["venv"]
           && MANAGED_PATHS[3] == ["root", ".cache", "pip"];
  }

  lemma {:induction false} LastAfter(s: string, c: char, rest: string)
    requires c !in rest
    ensures LastIndexOf(s + [c] + rest, c) == Some(|s|)
    decreases |rest|
  {
    var text := s + [c] + rest;
    if rest == "" {
      assert text == s + [c];
    } else {
      assert text[..|text| - 1] == s + [c] + rest[..|rest| - 1];
      assert forall x :: x in rest[..|rest| - 1] ==> x in rest;
      assert rest[|rest| - 1] in rest;
      LastAfter(s, c, rest[..|rest| - 1]);
    }
  }

  /** A host path that an entry can name: the profile directory or a drive, and below. */
  predicate HostSource(source: string) {
    && ',' !in source
    && (forall i :: 0 <= i < |source| - 1 ==> !(source[i] == ':' && source[i + 1] == '/'))
    && (source == "%USERPROFILE%"
        || ("%USERPROFILE%\\" <= source && '%' !in source[14..])
        || (|source| >= 3 && ('A' <= source[0] <= 'Z' || 'a' <= source[0] <= 'z') && source[1] == ':' && source[2] == '\\'
            && '%' !in source))
  }

  /** SOURCE:/path:ro or SOURCE:/path:rw names the path. */
  lemma HostMountReads(source: string, segments: seq<string>, mode: string)
    requires HostSource(source) && PlainSegments(segments) && (mode == "ro" || mode == "rw")
    requires forall i :: 0 <= i < |segments| ==> ',' !in segments[i] && ':' !in segments[i]
    ensures HostMountTarget(source + ":" + (PathText(segments) + ":" + mode)) == Some(segments)
  {
    var path := PathText(segments);
    SeparatorAfter(source, path + ":" + mode);
    LastAfter(path, ':', mode);
    assert NoneHolds(segments, ',') && NoneHolds(segments, ':');
    JoinChars(segments, '/', ',');
    JoinChars(segments, '/', ':');
    PathSplits(segments, '/');
    PathCleans(segments);
    SourceIsValid(source);
    MountParts(source, path, mode, [""] + segments, segments);
  }

  lemma MountParts(source: string, path: string, mode: string, parts: seq<string>, segments: seq<string>)
    requires source != "" && ',' !in source && ValidHostMountSource(source) && segments != []
    requires path != "" && path[0] == '/' && ',' !in path && ':' !in path && (mode == "ro" || mode == "rw")
    requires SplitOn(path, '/') == parts && CleanSegments(parts) == segments && ".." !in parts
    requires MountSeparator(source + ":" + (path + ":" + mode)) == |source|
    requires LastIndexOf(path + ":" + mode, ':') == Some(|path|)
    ensures HostMountTarget(source + ":" + (path + ":" + mode)) == Some(segments)
  {
    Halves(source, path + ":" + mode);
    Halves(path, mode);
  }

  lemma Halves(a: string, b: string)
    ensures var s := a + ":" + b; s[..|a|] == a && s[|a| + 1..] == b
  {
  }

  lemma SourceIsValid(source: string)
    requires HostSource(source)
    ensures source != "" && ValidHostMountSource(source)
  {
    var profile := "%USERPROFILE%";
    if profile <= source {
      assert source[0] == '%' && '%' in source;
      if source != profile {
        assert source[|profile|] == '\\';
        assert source[|profile|..] == ['\\'] + source[14..];
      }
    }
  }
}
