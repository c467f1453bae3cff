/**
 * internal/pythonenv/bootstrap.py: replacing the interpreter links of a Python environment by
 * copies of the image's interpreter, in a way that survives being cut at any point.
 */
module PythonEnv {
  import opened Wrappers

  /** An entry of the environment's bin directory, one of the migration's temporary files
      there, another entry of the environment's root (its lock aside), or anything outside. */
  datatype Path = Bin(name: string) | Temp(id: nat) | InRoot(name: string) | Outside(name: string)

  datatype Node = File(bytes: string, executable: bool) | Link(target: Path)

  type Files = map<Path, Node>

  // ---------------------------------------------------------------- resolving links

  /** Path.resolve(strict=True): the file at the end of the links, unless the chain breaks
      or loops. */
  function Follow(fs: Files, p: Path, visited: set<Path>): Option<Path>
    decreases fs.Keys - visited
  {
    if p !in fs || p in visited then None
    else if fs[p].File? then Some(p)
    else Follow(fs, fs[p].target, visited + {p})
  }

  function Resolve(fs: Files, p: Path): Option<Path> {
    Follow(fs, p, {})
  }

  /** Replacing one link by a file diverts the chains through it to that file and changes no other. */
  lemma {:induction false} FollowAfterRepair(fs: Files, a: Path, copy: Node, p: Path, visited: set<Path>)
    requires a in fs && fs[a].Link? && copy.File? && Follow(fs, p, visited).Some?
    ensures Follow(fs[a := copy], p, visited) == Follow(fs, p, visited) || Follow(fs[a := copy], p, visited) == Some(a)
    decreases fs.Keys - visited
  {
    if p != a && fs[p].Link? { FollowAfterRepair(fs, a, copy, fs[p].target, visited + {p}); }
  }

  /** Chains that arrive do not pass through a path that is not there. */
  lemma {:induction false} FollowIgnores(fs: Files, t: Path, node: Node, p: Path, visited: set<Path>)
    requires t !in fs && Follow(fs, p, visited).Some?
    ensures Follow(fs[t := node], p, visited) == Follow(fs, p, visited)
    decreases fs.Keys - visited
  {
    if fs[p].Link? { FollowIgnores(fs, t, node, fs[p].target, visited + {p}); }
  }

  // ---------------------------------------------------------------- what validation accepts

  datatype Image = Image(path: Path, bytes: string, executable: bool, aliases: seq<string>)

  /** A file with the interpreter's content and mode. */
  function Copy(image: Image): Node {
    File(image.bytes, image.executable)
  }

  /** The image's interpreter is an ordinary file outside the environment; its aliases are
      distinct names, `python` among them. */
  predicate ImageOk(image: Image) {
    && image.path.Outside?
    && "python" in image.aliases
    && forall i, j :: 0 <= i < j < |image.aliases| ==> image.aliases[i] != image.aliases[j]
  }

  predicate IsLinked(fs: Files, name: string) {
    Bin(name) in fs && fs[Bin(name)].Link?
  }

  /** The link leads to the image's interpreter, or to an alias that already holds its bytes. */
  predicate GoodTarget(fs: Files, image: Image, t: Path) {
    || t == image.path
    || (t.Bin? && t.name in image.aliases && t in fs && fs[t].File? && fs[t].bytes == image.bytes)
  }

  predicate GoodLink(fs: Files, image: Image, name: string) {
    Resolve(fs, Bin(name)).Some? && GoodTarget(fs, image, Resolve(fs, Bin(name)).value)
  }

  /** What the validation loop checks. */
  predicate Validates(fs: Files, image: Image) {
    forall i :: 0 <= i < |image.aliases| && IsLinked(fs, image.aliases[i]) ==> GoodLink(fs, image, image.aliases[i])
  }

  ghost predicate Listed(names: set<string>, listed: seq<string>) {
    forall n :: n in names <==> n in listed
  }

  function LinkedAliases(fs: Files, image: Image): set<string> {
    set i | 0 <= i < |image.aliases| && IsLinked(fs, image.aliases[i]) :: image.aliases[i]
  }

  /** Repairing one alias keeps every other link good. */
  lemma RepairKeepsValid(fs: Files, image: Image, name: string)
    requires ImageOk(image) && Validates(fs, image) && name in image.aliases && IsLinked(fs, name)
    ensures Validates(fs[Bin(name) := Copy(image)], image)
    ensures LinkedAliases(fs[Bin(name) := Copy(image)], image) == LinkedAliases(fs, image) - {name}
  {
    var fixed := fs[Bin(name) := Copy(image)];
    forall i | 0 <= i < |image.aliases| && IsLinked(fixed, image.aliases[i])
      ensures GoodLink(fixed, image, image.aliases[i])
    {
      var other := image.aliases[i];
      assert IsLinked(fs, other) && GoodLink(fs, image, other);
      FollowAfterRepair(fs, Bin(name), Copy(image), Bin(other), {});
    }
  }

  lemma TempKeepsValid(fs: Files, image: Image, t: Path, node: Node)
    requires ImageOk(image) && Validates(fs, image) && t.Temp? && t !in fs
    ensures Validates(fs[t := node], image) && LinkedAliases(fs[t := node], image) == LinkedAliases(fs, image)
  {
    forall i | 0 <= i < |image.aliases| && IsLinked(fs[t := node], image.aliases[i])
      ensures GoodLink(fs[t := node], image, image.aliases[i])
    {
      assert IsLinked(fs, image.aliases[i]) && GoodLink(fs, image, image.aliases[i]);
      FollowIgnores(fs, t, node, Bin(image.aliases[i]), {});
    }
  }

  /** From `before` to `now` only linked aliases changed, each into a copy of the interpreter;
      temporary files may have come. */
  predicate OnlyRepairs(before: Files, now: Files, image: Image) {
    && (forall p :: p in before ==>
          p in now && (now[p] == before[p] || (p.Bin? && p.name in LinkedAliases(before, image) && now[p] == Copy(image))))
    && (forall p :: p in now && p !in before ==> p.Temp?)
  }

  lemma RepairsCompose(a: Files, b: Files, c: Files, image: Image)
    requires ImageOk(image) && OnlyRepairs(a, b, image) && OnlyRepairs(b, c, image)
    ensures OnlyRepairs(a, c, image)
  {
    forall n | n in LinkedAliases(b, image) ensures n in LinkedAliases(a, image) {
      var i :| 0 <= i < |image.aliases| && IsLinked(b, image.aliases[i]) && image.aliases[i] == n;
      assert Bin(n) in a ==> b[Bin(n)] == a[Bin(n)] || b[Bin(n)] == Copy(image);
    }
  }

  lemma FreshTemp(s: set<Path>) returns (id: nat)
    ensures forall k: nat :: k >= id ==> Temp(k) !in s
  {
    if s == {} {
      id := 0;
    } else {
      var p :| p in s;
      var rest := FreshTemp(s - {p});
      id := if p.Temp? && p.id >= rest then p.id + 1 else rest;
      forall k: nat | k >= id ensures Temp(k) !in s {
        assert Temp(k) !in s - {p};
      }
    }
  }

  // ---------------------------------------------------------------- the migration

  datatype Fate = Succeeds | Raises | Killed

  datatype Outcome = Done | Failed | Cut

  /** Whether `python` will be a file that can be run once the links are copies. */
  predicate PythonUsable(fs: Files, image: Image) {
    && Bin("python") in fs
    && match fs[Bin("python")]
       case Link(_) => image.executable
       case File(_, executable) => executable
  }

  /** The environment's root holds nothing. */
  predicate Empty(fs: Files) {
    forall p :: p in fs ==> p.Outside?
  }

  /** A bin directory with an executable `python` and no links. */
  predicate OnlyCopies(bin: map<string, Node>) {
    && (forall n :: n in bin ==> bin[n].File?)
    && "python" in bin && bin["python"].executable
  }

  /** The files after `bin` and `others` were written below the root. */
  function Overlaid(fs: Files, bin: map<string, Node>, others: map<string, Node>): Files {
    map p: Path | p in fs.Keys + (set n | n in bin :: Bin(n)) + (set n | n in others :: InRoot(n)) ::
      if p.Bin? && p.name in bin then bin[p.name]
      else if p.InRoot? && p.name in others then others[p.name]
      else if p in fs then fs[p] else File("", false)
  }

  lemma OverlaidIsUsable(fs: Files, bin: map<string, Node>, others: map<string, Node>, image: Image)
    requires OnlyCopies(bin)
    ensures PythonUsable(Overlaid(fs, bin, others), image)
    ensures Empty(fs) ==> forall n :: Bin(n) in Overlaid(fs, bin, others) ==> Overlaid(fs, bin, others)[Bin(n)].File?
  {
    var made := Overlaid(fs, bin, others);
    assert made[Bin("python")] == bin["python"];
  }

  /** An environment; in a reliable one no call fails and no run is killed. */
  class Environment {
    var fs: Files
    const image: Image
    const reliable: bool

    constructor (initial: Files, image0: Image, reliable0: bool)
      requires ImageOk(image0)
      ensures fs == initial && image == image0 && reliable == reliable0
    {
      fs, image, reliable := initial, image0, reliable0;
    }

    method Chance() returns (f: Fate)
      ensures reliable ==> f.Succeeds?
    {
      f := *;
      if reliable { f := Succeeds; }
    }

    /** The loop that collects the links, refusing any that does not lead to the interpreter. */
    method CollectLinks() returns (links: Option<seq<string>>)
      requires ImageOk(image)
      ensures links.Some? <==> Validates(fs, image)
      ensures links.Some? ==>
                Listed(LinkedAliases(fs, image), links.value)
                && forall i, j :: 0 <= i < j < |links.value| ==> links.value[i] != links.value[j]
    {
      var found: seq<string> := [];
      for k := 0 to |image.aliases|
        invariant forall i :: 0 <= i < k && IsLinked(fs, image.aliases[i]) ==> GoodLink(fs, image, image.aliases[i])
        invariant forall n :: n in found <==> exists i :: 0 <= i < k && IsLinked(fs, image.aliases[i]) && image.aliases[i] == n
        invariant forall i, j :: 0 <= i < j < |found| ==> found[i] != found[j]
      {
        var name := image.aliases[k];
        if !IsLinked(fs, name) { continue; }
        if !GoodLink(fs, image, name) { return None; }
        assert name !in found;
        found := found + [name];
      }
      return Some(found);
    }

    /** Copy to a temporary file and rename it over the link; raising removes the temporary
        file, being killed may leave it. */
    method Repair(name: string) returns (o: Outcome)
      requires ImageOk(image) && Validates(fs, image) && name in LinkedAliases(fs, image)
      modifies this`fs
      ensures Validates(fs, image) && OnlyRepairs(old(fs), fs, image)
      ensures LinkedAliases(fs, image) <= LinkedAliases(old(fs), image)
      ensures o.Done? ==> fs == old(fs)[Bin(name) := Copy(image)]
                          && LinkedAliases(fs, image) == LinkedAliases(old(fs), image) - {name}
      ensures o.Failed? ==> fs == old(fs)
      ensures reliable ==> o.Done?
    {
      RepairKeepsValid(fs, image, name);
      var made := Chance();
      if !made.Succeeds? { return if made.Raises? then Failed else Cut; }
      ghost var id := FreshTemp(fs.Keys);
      assert Temp(id) !in fs;
      var k: nat :| Temp(k) !in fs;
      var temporary := Temp(k);
      ghost var before := fs;
      TempKeepsValid(before, image, temporary, File("", false));
      TempKeepsValid(before, image, temporary, Copy(image));
      fs := fs[temporary := File("", false)];
      var copied := Chance();
      if copied.Killed? { return Cut; }
      if copied.Succeeds? {
        fs := fs[temporary := Copy(image)];
        assert fs == before[temporary := Copy(image)];
        var renamed := Chance();
        if renamed.Killed? { return Cut; }
        if renamed.Succeeds? {
          fs := (fs - {temporary})[Bin(name) := Copy(image)];
          assert fs == before[Bin(name) := Copy(image)];
          return Done;
        }
      }
      var cleaned := Chance();
      if !cleaned.Succeeds? { return Cut; }
      fs := fs - {temporary};
      assert fs == before;
      return Failed;
    }

    /** The replacing loop: cut anywhere, it leaves a state that validates again, with fewer
        links for every one replaced. */
    method RepairAll(links: seq<string>) returns (o: Outcome, ghost replaced: nat)
      requires ImageOk(image) && Validates(fs, image)
      requires Listed(LinkedAliases(fs, image), links)
      requires forall i, j :: 0 <= i < j < |links| ==> links[i] != links[j]
      modifies this`fs
      ensures Validates(fs, image) && OnlyRepairs(old(fs), fs, image)
      ensures o.Done? ==> LinkedAliases(fs, image) == {}
      ensures replaced <= |LinkedAliases(old(fs), image)|
      ensures o.Failed? ==> |LinkedAliases(fs, image)| == |LinkedAliases(old(fs), image)| - replaced
      ensures |LinkedAliases(fs, image)| <= |LinkedAliases(old(fs), image)| - replaced
      ensures !o.Cut? ==> fs.Keys == old(fs).Keys
      ensures reliable ==> o.Done?
    {
      replaced := 0;
      for i := 0 to |links|
        invariant Validates(fs, image) && OnlyRepairs(old(fs), fs, image)
        invariant Listed(LinkedAliases(fs, image), links[i..])
        invariant fs.Keys == old(fs).Keys
        invariant replaced == i && |LinkedAliases(fs, image)| == |LinkedAliases(old(fs), image)| - replaced
      {
        assert links[i..] == [links[i]] + links[i + 1..];
        ListedHead(LinkedAliases(fs, image), links[i], links[i..]);
        ghost var before := fs;
        o := Repair(links[i]);
        RepairsCompose(old(fs), before, fs, image);
        if !o.Done? {
          SubsetSize(LinkedAliases(fs, image), LinkedAliases(before, image));
          return;
        }
        assert links[i] !in links[i + 1..];
        OneLess(LinkedAliases(before, image), links[i], links[i..], links[i + 1..]);
        replaced := replaced + 1;
      }
      assert links[|links|..] == [];
      ListedNone(LinkedAliases(fs, image));
      o := Done;
    }

    /** `python -m venv --copies`: whatever it does, it does inside the root. A reliable one
        leaves an executable `python` and files only in the bin directory. */
    method CreateEnvironment() returns (o: Outcome)
      modifies this`fs
      ensures reliable ==> o.Done? && PythonUsable(fs, image)
      ensures reliable && Empty(old(fs)) ==> forall n :: Bin(n) in fs ==> fs[Bin(n)].File?
      ensures forall p: Path :: p.Outside? ==> (p in fs <==> p in old(fs))
      ensures forall p: Path :: p.Outside? && p in fs ==> fs[p] == old(fs)[p]
    {
      assert OnlyCopies(map["python" := File("", true)]);
      var made: map<string, Node> :| reliable ==> OnlyCopies(made);
      var others: map<string, Node> := *;
      var outcome: Outcome := *;
      ghost var root := fs;
      fs := Overlaid(fs, made, others);
      if reliable {
        OverlaidIsUsable(root, made, others, image);
        outcome := Done;
      }
      return outcome;
    }

    /** prepare, on a state that has an interpreter: refused untouched unless it validates;
        otherwise the links become copies one by one, every intermediate state validates, and
        completion leaves no link and no temporary file. In a reliable environment it completes
        exactly when the state validates and its interpreter can be run, and on an empty root. */
    method Prepare() returns (o: Outcome)
      requires ImageOk(image) && image.path in fs && fs[image.path] == Copy(image)
      modifies this`fs
      ensures image.path in fs && fs[image.path] == Copy(image)
      ensures Bin("python") in old(fs) ==>
                && OnlyRepairs(old(fs), fs, image)
                && (!Validates(old(fs), image) ==> o.Failed? && fs == old(fs))
                && (Validates(old(fs), image) ==> Validates(fs, image))
                && |LinkedAliases(fs, image)| <= |LinkedAliases(old(fs), image)|
                && (o.Done? ==> forall n :: n in LinkedAliases(old(fs), image) ==> fs[Bin(n)] == Copy(image))
      ensures o.Done? ==> LinkedAliases(fs, image) == {} && Bin("python") in fs
                          && fs[Bin("python")].File? && fs[Bin("python")].executable
      ensures Bin("python") !in old(fs) && !Empty(old(fs)) ==> o.Failed? && fs == old(fs)
      ensures Bin("python") in old(fs) && o.Done? ==> fs.Keys == old(fs).Keys
      ensures reliable && Bin("python") in old(fs) ==>
                (o.Done? <==> Validates(old(fs), image) && PythonUsable(old(fs), image))
      ensures reliable && Empty(old(fs)) ==> o.Done?
    {
      if Bin("python") !in fs {
        if !Empty(fs) { return Failed; }
        o := CreateEnvironment();
        if !o.Done? { return; }
      }
      ghost var start := fs;
      var links := CollectLinks();
      if links.None? { return Failed; }
      ghost var replaced;
      o, replaced := RepairAll(links.value);
      if !o.Done? { return; }
      NoLinkLeft(start, fs, image);
      if Bin("python") in start { PythonAfter(start, fs, image); }
      var usable := PythonIsUsable();
      if !usable { return Failed; }
    }

    /** interpreter.is_file() and executable */
    method PythonIsUsable() returns (usable: bool)
      requires ImageOk(image) && LinkedAliases(fs, image) == {}
      ensures usable <==> Bin("python") in fs && fs[Bin("python")].File? && fs[Bin("python")].executable
    {
      LinkedIff(fs, image, "python");
      var p := Resolve(fs, Bin("python"));
      return p.Some? && p.value in fs && fs[p.value].File? && fs[p.value].executable;
    }

    /** Any number of runs, each cut wherever it is cut: the state stays valid, nothing but
        linked aliases ever changes, and a run that completes leaves all of them copies. */
    method Runs(n: nat) returns (done: bool)
      requires ImageOk(image) && image.path in fs && fs[image.path] == Copy(image)
      requires Bin("python") in fs && Validates(fs, image)
      modifies this`fs
      ensures Validates(fs, image) && OnlyRepairs(old(fs), fs, image)
      ensures done ==> forall a :: a in LinkedAliases(old(fs), image) ==> fs[Bin(a)] == Copy(image)
      ensures reliable && PythonUsable(old(fs), image) && n > 0 ==> done
    {
      done := false;
      for i := 0 to n
        invariant image.path in fs && fs[image.path] == Copy(image) && Bin("python") in fs
        invariant Validates(fs, image) && OnlyRepairs(old(fs), fs, image)
        invariant done ==> LinkedAliases(fs, image) == {}
        invariant reliable && PythonUsable(old(fs), image) ==> PythonUsable(fs, image) && (i > 0 ==> done)
      {
        ghost var before := fs;
        var o := Prepare();
        RepairsCompose(old(fs), before, fs, image);
        NoLinkReturns(before, fs, image);
        if PythonUsable(before, image) { StaysUsable(before, fs, image); }
        done := done || o.Done?;
      }
      NoLinkLeft(old(fs), fs, image);
    }
  }

  lemma ListedHead(names: set<string>, name: string, listed: seq<string>)
    requires Listed(names, listed) && name in listed
    ensures name in names
  {
  }

  lemma ListedNone(names: set<string>)
    requires Listed(names, [])
    ensures names == {}
  {
  }

  lemma OneLess(before: set<string>, gone: string, listed: seq<string>, rest: seq<string>)
    requires Listed(before, listed)
    requires listed == [gone] + rest && gone !in rest
    ensures |before - {gone}| == |before| - 1
    ensures Listed(before - {gone}, rest)
  {
    assert gone in listed;
    assert before == before - {gone} + {gone};
    forall n ensures n in before - {gone} <==> n in rest {
      assert n in listed <==> n == gone || n in rest;
    }
  }

  lemma LinkedIff(fs: Files, image: Image, name: string)
    requires name in image.aliases
    ensures IsLinked(fs, name) <==> name in LinkedAliases(fs, image)
  {
  }

  /** When its links are copies, `python` can be run exactly if it was going to be. */
  lemma PythonAfter(a: Files, b: Files, image: Image)
    requires ImageOk(image) && OnlyRepairs(a, b, image) && Bin("python") in a && LinkedAliases(b, image) == {}
    ensures PythonUsable(a, image) <==> Bin("python") in b && b[Bin("python")].File? && b[Bin("python")].executable
  {
    LinkedIff(b, image, "python");
    LinkedIff(a, image, "python");
  }

  lemma StaysUsable(a: Files, b: Files, image: Image)
    requires ImageOk(image) && OnlyRepairs(a, b, image) && PythonUsable(a, image)
    ensures PythonUsable(b, image)
  {
    LinkedIff(a, image, "python");
  }

  lemma NoLinkReturns(a: Files, b: Files, image: Image)
    requires OnlyRepairs(a, b, image)
    ensures LinkedAliases(b, image) <= LinkedAliases(a, image)
  {
    forall n | n in LinkedAliases(b, image) ensures n in LinkedAliases(a, image) {
      var i :| 0 <= i < |image.aliases| && IsLinked(b, image.aliases[i]) && image.aliases[i] == n;
      assert Bin(n) in a;
    }
  }

  lemma NoLinkLeft(a: Files, b: Files, image: Image)
    requires OnlyRepairs(a, b, image)
    ensures LinkedAliases(b, image) == {} ==> forall n :: n in LinkedAliases(a, image) ==> b[Bin(n)] == Copy(image)
  {
    forall n | n in LinkedAliases(a, image) && LinkedAliases(b, image) == {} ensures b[Bin(n)] == Copy(image) {
      var i :| 0 <= i < |image.aliases| && IsLinked(a, image.aliases[i]) && image.aliases[i] == n;
      assert !IsLinked(b, image.aliases[i]) || n in LinkedAliases(b, image);
    }
  }

  lemma SubsetSize(a: set<string>, b: set<string>)
    requires a <= b
    ensures |a| <= |b|
  {
    if a != {} {
      var x :| x in a;
      SubsetSize(a - {x}, b - {x});
    }
  }
}
