/**
 * internal/selfupdate/apply.go: the transaction that replaces cb.exe and every managed shim,
 * or puts the old bytes back. The directory maps names to inodes and inodes to bytes, since
 * shims may be hard links to cb.exe. SHA-256 is taken to be injective, so a digest is the
 * bytes themselves. Names are compared after case folding, and are folded here.
 */
module SelfUpdate {
  import opened Wrappers
  import opened Octets
  import opened Registry
  import opened Sorting
  import opened Version

  type Inode = nat

  /** A file of the installation directory, the staged release, the private recovery copy,
      or a temporary file. */
  datatype Path = Entry(name: string) | Staged | Recovery | Temp(id: nat)

  const EXE: Path := Entry("cb.exe")
  const MAX_BINARY_SIZE: nat := 100 * 1024 * 1024

  /** How far the file operations can be relied on. Arbitrary: a call may fail or claim
      success and leave its destination old, new, garbage or gone, under a new inode or
      written in place, which every hard link to it then sees. FailAtomic: it does what it
      reports, and a failure changes nothing. Reliable: it does not fail. */
  datatype Trust = Arbitrary | FailAtomic | Reliable

  datatype Verified = Verified(target: string, digest: Bytes, installedVersion: string, installedDigest: Bytes)

  /** How apply ends, apart from the removal of the rollback directory. */
  datatype Ending = Updated | Refused | Restored | RecoveryKept

  /** The names a transaction may touch, and the inodes they may be bound to: the given ones
      and those made from `since` on. */
  datatype Region = Region(names: set<Path>, inodes: set<Inode>, since: Inode)

  /** One run of the smoke test: the bytes every name held when it began, and its answer. */
  datatype Test = Test(held: map<Path, Bytes>, passed: bool)

  /** The file holds the given bytes when the test begins. */
  predicate TestedWith(t: Test, p: Path, b: Bytes) {
    p in t.held && t.held[p] == b
  }

  class Host {
    const trust: Trust
    const hardlinks: bool
    var dir: map<Path, Inode>
    var data: map<Inode, Bytes>
    var nextInode: Inode
    ghost var tests: seq<Test>

    constructor (trust: Trust, hardlinks: bool, dir: map<Path, Inode>, data: map<Inode, Bytes>, nextInode: Inode)
      requires forall p :: p in dir ==> dir[p] in data
      requires forall i :: i in data ==> i < nextInode
      ensures this.trust == trust && this.hardlinks == hardlinks
      ensures this.dir == dir && this.data == data && Valid() && tests == []
    {
      this.trust, this.hardlinks := trust, hardlinks;
      this.dir, this.data, this.nextInode, this.tests := dir, data, nextInode, [];
    }

    predicate Valid()
      reads this
    {
      && (forall p :: p in dir ==> dir[p] in data)
      && (forall i :: i in data ==> i < nextInode)
    }

    function BytesAt(p: Path): Option<Bytes>
      reads this
    {
      if p in dir && dir[p] in data then Some(data[dir[p]]) else None
    }

    predicate Holds(p: Path, b: Bytes)
      reads this
    {
      BytesAt(p) == Some(b)
    }

    /** What every name holds. */
    ghost function AllBytes(): map<Path, Bytes>
      reads this
    {
      map p | p in dir && dir[p] in data :: data[dir[p]]
    }

    /** Nothing but the listed names may change hands, and no inode is written in place. */
    twostate predicate OnlyNames(names: set<Path>)
      reads this
    {
      && (forall p :: p !in names ==> (p in dir <==> p in old(dir)) && (p in dir ==> dir[p] == old(dir)[p]))
      && (forall i :: i in old(data) ==> i in data && data[i] == old(data)[i])
      && Valid()
    }

    /** The names of the region are bound inside it. */
    predicate Within(region: Region)
      reads this
    {
      && Valid() && region.since <= nextInode
      && forall p :: p in region.names && p in dir ==> dir[p] in region.inodes || dir[p] >= region.since
    }

    /** A name the region cannot reach: not one of its names, nor linked to one of its inodes. */
    predicate Beyond(p: Path, region: Region)
      reads this
    {
      p !in region.names && (p in dir ==> dir[p] !in region.inodes && dir[p] < region.since)
    }

    /** Whatever happened, it happened inside the region. */
    twostate predicate Confined(region: Region)
      reads this
    {
      && Within(region)
      && (forall p :: old(Beyond(p, region)) ==> Beyond(p, region) && BytesAt(p) == old(BytesAt(p)))
    }

    /** Only the listed names may hold other bytes than before. */
    twostate predicate OnlyBytes(names: set<Path>)
      reads this
    {
      forall p :: p !in names ==> BytesAt(p) == old(BytesAt(p))
    }

    method Chance() returns (b: bool)
    {
      b := *;
    }

    /** A call that fails only where calls may fail. */
    method Works() returns (b: bool)
      ensures trust.Reliable? ==> b
    {
      b := *;
      if trust.Reliable? { b := true; }
    }

    /** Bind a name to a new file. */
    method Place(p: Path, content: Bytes)
      requires Valid()
      modifies this`dir, this`data, this`nextInode
      ensures OnlyNames({p}) && Holds(p, content) && dir[p] == old(nextInode) && nextInode == old(nextInode) + 1
    {
      data := data[nextInode := content];
      dir := dir[p := nextInode];
      nextInode := nextInode + 1;
    }

    /** applyFileDigest: it may fail, but does not lie. */
    method Digest(p: Path) returns (r: Option<Bytes>)
      requires Valid()
      ensures r.Some? ==> r == BytesAt(p)
      ensures trust.Reliable? ==> r == BytesAt(p)
    {
      var ok := Chance();
      r := if ok || trust.Reliable? then BytesAt(p) else None;
    }

    /** requireApplyDigest. */
    method Require(p: Path, want: Bytes) returns (ok: bool)
      requires Valid()
      ensures ok ==> Holds(p, want)
      ensures trust.Reliable? ==> (ok <==> Holds(p, want))
    {
      var digest := Digest(p);
      ok := digest == Some(want);
    }

    method RequireAll(shims: seq<string>, want: Bytes) returns (ok: bool)
      requires Valid()
      ensures ok ==> forall s :: s in shims ==> Holds(Entry(s), want)
      ensures trust.Reliable? ==> (ok <==> forall s :: s in shims ==> Holds(Entry(s), want))
    {
      ok := true;
      for i := 0 to |shims|
        invariant ok ==> forall k :: 0 <= k < i ==> Holds(Entry(shims[k]), want)
        invariant trust.Reliable? ==> (ok <==> forall k :: 0 <= k < i ==> Holds(Entry(shims[k]), want))
      {
        var same := Require(Entry(shims[i]), want);
        if !same { ok := false; }
      }
    }

    /** What an unreliable operation may make of one name: remove it, bind it to a new file,
        write its file in place, or nothing. */
    method Damage(p: Path, ghost region: Region)
      requires Within(region) && p in region.names
      modifies this`dir, this`data, this`nextInode
      ensures Confined(region)
      ensures forall q :: q != p && old(BytesAt(q)) != old(BytesAt(p)) ==> BytesAt(q) == old(BytesAt(q))
      ensures BytesAt(p) == old(BytesAt(p)) ==> forall q :: BytesAt(q) == old(BytesAt(q))
    {
      var content: Bytes, gone: bool, kept: bool, inPlace: bool := *, *, *, *;
      if gone {
        dir := dir - {p};
      } else if kept {
      } else if inPlace && p in dir {
        data := data[dir[p] := content];
      } else {
        Place(p, content);
      }
    }

    /** The transaction's injected replace. */
    method Replace(source: Path, destination: Path, preferHardlink: bool, ghost region: Region) returns (ok: bool)
      requires Within(region) && source != destination && destination in region.names
      requires preferHardlink ==> source in region.names
      modifies this`dir, this`data, this`nextInode
      ensures Confined(region)
      ensures forall p :: p != destination && old(BytesAt(p)) != old(BytesAt(destination)) ==> BytesAt(p) == old(BytesAt(p))
      ensures BytesAt(destination) == old(BytesAt(destination)) ==> forall p :: BytesAt(p) == old(BytesAt(p))
      ensures !trust.Arbitrary? ==> OnlyNames({destination})
      ensures trust.FailAtomic? && !ok ==> BytesAt(destination) == old(BytesAt(destination))
      ensures !trust.Arbitrary? && ok ==> old(BytesAt(source)).Some? && BytesAt(destination) == old(BytesAt(source))
      ensures trust.Reliable? && old(BytesAt(source)).Some? ==> ok
      ensures trust.Reliable? && hardlinks && preferHardlink && ok ==> LinkMade(source, destination)
    {
      if trust.Arbitrary? {
        ok := *;
        Damage(destination, region);
      } else {
        ok := ReplaceWhole(source, destination, preferHardlink, region);
      }
    }

    /** The destination is the source's file. */
    twostate predicate LinkMade(source: Path, destination: Path)
      reads this
    {
      source in old(dir) && destination in dir && dir[destination] == old(dir)[source]
    }

    /** The name is a name of the file cb.exe is. */
    predicate SameFile(p: Path)
      reads this
    {
      EXE in dir && p in dir && dir[p] == dir[EXE]
    }

    /** Only this name may hold other bytes than before, or be another file. */
    twostate predicate OnlyChanged(shim: Path)
      reads this
    {
      forall p :: p != shim ==> BytesAt(p) == old(BytesAt(p)) && (SameFile(p) <==> old(SameFile(p)))
    }

    /** Every one of the files is the file cb.exe is. */
    predicate SharesExe(files: set<Path>)
      reads this
    {
      forall p :: p in files ==> SameFile(p)
    }

    /** What became of a shim that held the new bytes: a reliable rollback gives it the old
        ones, as another name of cb.exe once that is restored. */
    twostate predicate RolledBack(shim: Path, managementRestored: bool, oldBytes: Bytes, newBytes: Bytes)
      reads this
    {
      old(Holds(shim, newBytes)) ==>
        && (Holds(shim, oldBytes) || Holds(shim, newBytes))
        && (trust.Reliable? ==> Holds(shim, oldBytes))
        && (trust.Reliable? && hardlinks && managementRestored ==> SameFile(shim))
    }

    /** A replacement that does what it reports: by a hard link or by a new file. */
    method ReplaceWhole(source: Path, destination: Path, preferHardlink: bool, ghost region: Region) returns (ok: bool)
      requires Within(region) && source != destination && destination in region.names && !trust.Arbitrary?
      requires preferHardlink ==> source in region.names
      modifies this`dir, this`data, this`nextInode
      ensures Confined(region) && OnlyNames({destination})
      ensures !ok ==> trust.FailAtomic? || old(BytesAt(source)).None?
      ensures !ok ==> forall p :: BytesAt(p) == old(BytesAt(p))
      ensures ok ==> old(BytesAt(source)).Some? && BytesAt(destination) == old(BytesAt(source))
      ensures trust.Reliable? && hardlinks && preferHardlink && ok ==> LinkMade(source, destination)
    {
      var works := Works();
      if source !in dir || !works { return false; }
      var link := Works();
      if preferHardlink && hardlinks && link {
        dir := dir[destination := dir[source]];
      } else {
        Place(destination, data[dir[source]]);
      }
      ok := true;
    }

    /** Exactly one smoke test has run. */
    twostate predicate RanOnce()
      reads this
    {
      |tests| == |old(tests)| + 1 && tests[..|old(tests)|] == old(tests)
    }

    /** The one smoke test that has run passed on the new cb.exe, and, when replacements do
        what they report, on the new bytes of every managed file. */
    twostate predicate PassedOnNew(managed: set<Path>, newBytes: Bytes)
      reads this
    {
      && RanOnce() && LastTest().passed && TestedWith(LastTest(), EXE, newBytes)
      && (!trust.Arbitrary? ==> forall p :: p in managed ==> TestedWith(LastTest(), p, newBytes))
    }

    ghost function LastTest(): Test
      reads this
      requires tests != []
    {
      tests[|tests| - 1]
    }

    /** The transaction's injected smoke test: running the new program may, for all the
        transaction knows, disturb the managed files, which is why they are checked again. */
    method Smoke(ghost region: Region, managed: set<Path>) returns (ok: bool)
      requires Within(region) && managed == region.names
      modifies this
      ensures Confined(region)
      ensures !trust.Arbitrary? ==> dir == old(dir) && data == old(data)
      ensures tests == old(tests) + [Test(old(AllBytes()), ok)]
    {
      ok := *;
      tests := tests + [Test(AllBytes(), ok)];
      if trust.Arbitrary? {
        var todo := managed;
        while todo != {}
          invariant todo <= managed && Confined(region) && tests == old(tests) + [Test(old(AllBytes()), ok)]
          decreases |todo|
        {
          var p :| p in todo;
          todo := todo - {p};
          Damage(p, region);
        }
      }
    }

    // -------------------------------------------------------------- rollback

    /** The files rollback may touch are those holding the new bytes when it starts. */
    twostate predicate OthersUntouched(newBytes: Bytes)
      reads this
    {
      forall p :: !old(Holds(p, newBytes)) ==> BytesAt(p) == old(BytesAt(p))
    }

    /** rollback. A nil return means every file holds the old bytes. A file that does not
        hold the new bytes, whether already old, foreign or missing, is never written, not
        even through a hard link. */
    method Rollback(shims: seq<string>, ghost region: Region, oldBytes: Bytes, newBytes: Bytes) returns (ok: bool)
      requires Within(region) && oldBytes != newBytes && Holds(Recovery, oldBytes) && Beyond(Recovery, region)
      requires region.names == {EXE} + Names(shims) && "cb.exe" !in shims
      modifies this`dir, this`data, this`nextInode
      ensures Confined(region) && Holds(Recovery, oldBytes) && OthersUntouched(newBytes)
      ensures ok ==> forall p :: p in region.names ==> Holds(p, oldBytes)
      ensures !trust.Arbitrary? ==> OnlyBytes(region.names)
      ensures !trust.Arbitrary? ==>
                forall p :: p in region.names && old(Holds(p, newBytes)) ==> Holds(p, oldBytes) || Holds(p, newBytes)
      ensures trust.Reliable? ==> (ok <==> forall p :: p in region.names ==> old(Holds(p, oldBytes) || Holds(p, newBytes)))
      ensures trust.Reliable? && hardlinks && old(AllHold(region.names, newBytes)) ==> SharesExe(region.names)
    {
      var managementRestored;
      ok, managementRestored := RollbackExe(region, oldBytes, newBytes);
      var done := RollbackShims(shims, region, managementRestored, oldBytes, newBytes);
      if !done { ok := false; }
      if ok {
        var exe := Require(EXE, oldBytes);
        var all := RequireAll(shims, oldBytes);
        ok := exe && all;
      }
    }

    /** The first half of rollback: the management executable. */
    method RollbackExe(ghost region: Region, oldBytes: Bytes, newBytes: Bytes) returns (ok: bool, managementRestored: bool)
      requires Within(region) && oldBytes != newBytes && Holds(Recovery, oldBytes) && Beyond(Recovery, region)
      requires EXE in region.names
      modifies this`dir, this`data, this`nextInode
      ensures Confined(region) && OthersUntouched(newBytes)
      ensures managementRestored ==> Holds(EXE, oldBytes)
      ensures !trust.Arbitrary? ==> OnlyBytes({EXE})
      ensures !trust.Arbitrary? && old(Holds(EXE, newBytes)) ==> Holds(EXE, oldBytes) || Holds(EXE, newBytes)
      ensures trust.Reliable? ==> (ok <==> old(Holds(EXE, oldBytes) || Holds(EXE, newBytes)))
      ensures trust.Reliable? && old(Holds(EXE, newBytes)) ==> Holds(EXE, oldBytes) && managementRestored
      ensures trust.Reliable? ==> OnlyNames({EXE})
    {
      ok, managementRestored := true, false;
      var digest := Digest(EXE);
      if digest.None? { return false, false; }
      if digest == Some(oldBytes) { return true, true; }
      if digest != Some(newBytes) { return false, false; }
      ok := Replace(Recovery, EXE, false, region);
      var restored := Digest(EXE);
      if restored != Some(oldBytes) { ok := false; } else { managementRestored := true; }
    }

    /** The body of rollback's shim loop. */
    method RollbackShim(shim: Path, ghost region: Region, managementRestored: bool, oldBytes: Bytes, newBytes: Bytes)
      returns (ok: bool)
      requires Within(region) && oldBytes != newBytes && Holds(Recovery, oldBytes) && Beyond(Recovery, region)
      requires shim in region.names && EXE in region.names && shim != EXE
      requires managementRestored ==> Holds(EXE, oldBytes)
      modifies this`dir, this`data, this`nextInode
      ensures Confined(region) && OthersUntouched(newBytes)
      ensures !trust.Arbitrary? ==> OnlyChanged(shim) && RolledBack(shim, managementRestored, oldBytes, newBytes)
      ensures !old(Holds(shim, newBytes)) ==> dir == old(dir) && data == old(data)
      ensures trust.Reliable? ==> (ok <==> old(Holds(shim, oldBytes) || Holds(shim, newBytes)))
    {
      var digest := Digest(shim);
      if digest.None? { return false; }
      if digest == Some(oldBytes) { return true; }
      if digest != Some(newBytes) { return false; }
      ok := Replace(if managementRestored then EXE else Recovery, shim, managementRestored, region);
    }

    /** The shim loop of rollback: a failure is remembered, and the loop goes on. */
    method RollbackShims(shims: seq<string>, ghost region: Region, managementRestored: bool,
                         oldBytes: Bytes, newBytes: Bytes) returns (ok: bool)
      requires Within(region) && oldBytes != newBytes && Holds(Recovery, oldBytes) && Beyond(Recovery, region)
      requires region.names == {EXE} + Names(shims) && "cb.exe" !in shims
      requires managementRestored ==> Holds(EXE, oldBytes)
      modifies this`dir, this`data, this`nextInode
      ensures Confined(region) && Holds(Recovery, oldBytes) && OthersUntouched(newBytes)
      ensures !trust.Arbitrary? ==> OnlyBytes(Names(shims))
      ensures !trust.Arbitrary? ==>
                forall p :: p in Names(shims) ==> RolledBack(p, managementRestored, oldBytes, newBytes)
      ensures trust.Reliable? ==>
                (ok <==> forall p :: p in Names(shims) ==> old(Holds(p, oldBytes) || Holds(p, newBytes)))
    {
      ok := true;
      ghost var done: set<Path> := {};
      for i := 0 to |shims|
        invariant Confined(region) && Holds(Recovery, oldBytes)
        invariant managementRestored ==> Holds(EXE, oldBytes)
        invariant done == Names(shims[..i])
        invariant OthersUntouched(newBytes)
        invariant !trust.Arbitrary? ==> OnlyBytes(done)
        invariant !trust.Arbitrary? ==> forall p :: p in done ==> RolledBack(p, managementRestored, oldBytes, newBytes)
        invariant trust.Reliable? ==> (ok <==> forall p :: p in done ==> old(Holds(p, oldBytes) || Holds(p, newBytes)))
      {
        var shim := Entry(shims[i]);
        NamesStep(shims, i);
        assert shims[i] in shims;
        var restored := RollbackShim(shim, region, managementRestored, oldBytes, newBytes);
        done := done + {shim};
        if !restored { ok := false; }
      }
      assert shims[..|shims|] == shims;
    }

    // -------------------------------------------------------------- replaceManagedFile

    /** replaceManagedFile: link or copy to a temporary name, then rename over the
        destination. Every call in it may fail. It does what it reports, and a failure leaves
        the destination as it was: the FailAtomic contract of the injected replace. It does not
        fail when no call does; the destination becomes a hard link where that is asked for and
        possible, and a file of its own where it is not asked for. */
    method ReplaceManagedFile(source: Path, destination: Path, preferHardlink: bool, tmp: Path) returns (ok: bool)
      requires Valid() && source != destination && tmp != source && tmp != destination && tmp !in dir
      modifies this`dir, this`data, this`nextInode
      ensures OnlyNames({destination, tmp})
      ensures ok ==> old(BytesAt(source)).Some? && BytesAt(destination) == old(BytesAt(source))
      ensures !ok ==> BytesAt(destination) == old(BytesAt(destination))
      ensures trust.Reliable? && old(BytesAt(source)).Some? ==> ok && tmp !in dir
      ensures trust.Reliable? && ok && preferHardlink && hardlinks ==> dir[destination] == old(dir)[source]
      ensures ok && !preferHardlink ==> forall p :: p != destination && p in dir ==> dir[p] != dir[destination]
    {
      var named := ReserveName(tmp);
      if !named { return false; }
      ok := LinkOrCopy(source, destination, preferHardlink, tmp);
      var _ := TryRemove(tmp);
    }

    /** os.CreateTemp, used only to find an unused name. */
    method ReserveName(tmp: Path) returns (ok: bool)
      requires Valid() && tmp !in dir
      modifies this`dir, this`data, this`nextInode
      ensures OnlyNames({tmp})
      ensures ok ==> tmp !in dir
      ensures trust.Reliable? ==> ok
    {
      var created := Works();
      if !created { return false; }
      Place(tmp, []);
      var closed := Works();
      var removed := TryRemove(tmp);
      return closed && removed;
    }

    method LinkOrCopy(source: Path, destination: Path, preferHardlink: bool, tmp: Path) returns (ok: bool)
      requires Valid() && source != destination && tmp != source && tmp != destination && tmp !in dir
      modifies this`dir, this`data, this`nextInode
      ensures OnlyNames({destination, tmp})
      ensures ok ==> old(BytesAt(source)).Some? && BytesAt(destination) == old(BytesAt(source))
      ensures !ok ==> BytesAt(destination) == old(BytesAt(destination))
      ensures trust.Reliable? && old(BytesAt(source)).Some? ==> ok
      ensures trust.Reliable? && ok && preferHardlink && hardlinks ==> dir[destination] == old(dir)[source]
      ensures ok && !preferHardlink ==> forall p :: p != destination && p in dir ==> dir[p] != dir[destination]
    {
      if preferHardlink {
        var linked := Works();
        if linked && hardlinks && source in dir {
          dir := dir[tmp := dir[source]];
          ok := MoveOver(tmp, destination);
          return;
        }
      }
      var copied := CopyTo(source, tmp);
      if !copied { return false; }
      ghost var before := dir;
      ok := MoveOver(tmp, destination);
      assert forall p :: p != destination && p in dir && ok ==> p in before && dir[p] == before[p] && p != tmp;
    }

    method TryRemove(p: Path) returns (ok: bool)
      requires Valid()
      modifies this`dir, this`data, this`nextInode
      ensures OnlyNames({p})
      ensures dir == if ok then old(dir) - {p} else old(dir)
      ensures trust.Reliable? ==> ok
    {
      var works := Works();
      if works { dir := dir - {p}; }
      ok := works;
    }

    /** copyApplyFile: on failure the target may be missing or partial. */
    method CopyTo(source: Path, target: Path) returns (ok: bool)
      requires Valid() && source != target
      modifies this`dir, this`data, this`nextInode
      ensures OnlyNames({target})
      ensures ok ==> old(BytesAt(source)).Some? && BytesAt(target) == old(BytesAt(source))
      ensures ok ==> forall p :: p != target && p in dir ==> dir[p] != dir[target]
      ensures trust.Reliable? && old(BytesAt(source)).Some? ==> ok
    {
      var works := Works();
      if source !in dir { return false; }
      var content := data[dir[source]];
      if works {
        Place(target, content);
        return true;
      }
      var n := Cut(|content|);
      Place(target, content[..n]);
      return false;
    }

    method Cut(limit: nat) returns (n: nat)
      ensures n <= limit
    {
      n := *;
      if n > limit { n := limit; }
    }

    /** The rename that replaces an existing file. */
    method MoveOver(tmp: Path, destination: Path) returns (ok: bool)
      requires Valid() && tmp in dir && tmp != destination
      modifies this`dir, this`data, this`nextInode
      ensures OnlyNames({tmp, destination})
      ensures ok ==> BytesAt(destination) == old(BytesAt(tmp))
      ensures !ok ==> dir == old(dir) && data == old(data)
      ensures trust.Reliable? ==> ok
      ensures ok ==> dir == (old(dir) - {tmp})[destination := old(dir)[tmp]] && data == old(data)
    {
      var works := Works();
      if works { dir := (dir - {tmp})[destination := dir[tmp]]; }
      ok := works;
    }

    // -------------------------------------------------------------- apply

    /** discoverManagedShims: every shim-named file with cb.exe's bytes, by hard link or copy. */
    method DiscoverManagedShims(listing: seq<string>, oldBytes: Bytes) returns (r: Option<seq<string>>)
      requires Valid() && Holds(EXE, oldBytes)
      ensures r.Some? ==>
                Enumerates(r.value, set s | s in listing && IsShimName(s) && Holds(Entry(s), oldBytes))
      ensures trust.Reliable? ==> r.Some?
    {
      var found: set<string> := {};
      for i := 0 to |listing|
        invariant found == set s | s in listing[..i] && IsShimName(s) && Holds(Entry(s), oldBytes)
      {
        var name := listing[i];
        assert listing[..i + 1] == listing[..i] + [name];
        if !IsShimName(name) { continue; }
        var inspected := Works();
        if !inspected { return None; }
        if Entry(name) !in dir { continue; }
        if dir[Entry(name)] == dir[EXE] {
          found := found + {name};
          continue;
        }
        if |data[dir[Entry(name)]]| != |oldBytes| { continue; }
        var digest := Digest(Entry(name));
        if digest.None? { return None; }
        if digest.value == oldBytes { found := found + {name}; }
      }
      assert listing[..|listing|] == listing;
      var sorted := SortedElements(found);
      return Some(sorted);
    }

    /** Every managed file holds the given bytes. */
    predicate AllHold(managed: set<Path>, b: Bytes)
      reads this
    {
      forall p :: p in managed ==> Holds(p, b)
    }

    /** Every managed file is old or new. */
    predicate OldOrNew(managed: set<Path>, oldBytes: Bytes, newBytes: Bytes)
      reads this
    {
      forall p :: p in managed ==> Holds(p, oldBytes) || Holds(p, newBytes)
    }

    /** The part of apply after the recovery copy is in place: replace, verify, test, verify
        again; on any failure after the first change, roll back. */
    method Mutate(shims: seq<string>, ghost region: Region, oldBytes: Bytes, newBytes: Bytes) returns (ending: Ending)
      requires Within(region) && oldBytes != newBytes && Holds(Staged, newBytes)
      requires region.names == {EXE} + Names(shims) && "cb.exe" !in shims
      requires AllHold(region.names, oldBytes) && Holds(Recovery, oldBytes) && Beyond(Recovery, region) && Distinct(shims)
      modifies this
      ensures Confined(region) && Holds(Recovery, oldBytes)
      ensures ending.Updated? ==> AllHold(region.names, newBytes) && PassedOnNew(region.names, newBytes)
      ensures ending.Refused? ==> tests == old(tests)
      ensures ending.Refused? || ending.Restored? ==> AllHold(region.names, oldBytes)
      ensures !trust.Arbitrary? ==> OnlyBytes(region.names) && OldOrNew(region.names, oldBytes, newBytes)
      ensures trust.Reliable? ==> RanOnce() && ending == if LastTest().passed then Updated else Restored
      ensures trust.Reliable? && hardlinks ==> SharesExe(region.names)
    {
      var intact := Require(EXE, oldBytes);
      if !intact { return Refused; }
      var replaced := Replace(Staged, EXE, false, region);
      if !replaced {
        var digest := Digest(EXE);
        if digest == Some(oldBytes) { return Refused; }
        ending := Fail(shims, region, oldBytes, newBytes);
        return;
      }
      var updated := Proceed(shims, region, oldBytes, newBytes);
      if updated { return Updated; }
      ending := Fail(shims, region, oldBytes, newBytes);
    }

    /** After cb.exe was replaced: verify it, replace the shims, smoke test, verify everything. */
    method Proceed(shims: seq<string>, ghost region: Region, oldBytes: Bytes, newBytes: Bytes) returns (ok: bool)
      requires Within(region) && oldBytes != newBytes && Holds(Recovery, oldBytes) && Beyond(Recovery, region)
      requires region.names == {EXE} + Names(shims) && "cb.exe" !in shims
      requires !trust.Arbitrary? ==> OldOrNew(region.names, oldBytes, newBytes)
      requires Distinct(shims) && (trust.Reliable? ==> Holds(EXE, newBytes) && AllHold(Names(shims), oldBytes))
      modifies this
      ensures Confined(region)
      ensures ok ==> AllHold(region.names, newBytes) && PassedOnNew(region.names, newBytes)
      ensures !trust.Arbitrary? ==> OnlyBytes(region.names) && OldOrNew(region.names, oldBytes, newBytes)
      ensures trust.Reliable? ==> RanOnce() && ok == LastTest().passed && AllHold(region.names, newBytes)
      ensures trust.Reliable? && hardlinks ==> SharesExe(region.names)
    {
      ok := Require(EXE, newBytes);
      if !ok { return; }
      ok := UpdateShims(shims, region, oldBytes, newBytes);
      if !ok { return; }
      ok := Smoke(region, {EXE} + Names(shims));
      if !ok { return; }
      ok := Require(EXE, newBytes);
      if !ok { return; }
      ok := RequireAll(shims, newBytes);
    }

    /** The shim loop of apply. */
    method UpdateShims(shims: seq<string>, ghost region: Region, oldBytes: Bytes, newBytes: Bytes) returns (ok: bool)
      requires Within(region) && oldBytes != newBytes && Holds(EXE, newBytes)
      requires region.names == {EXE} + Names(shims) && "cb.exe" !in shims
      requires !trust.Arbitrary? ==> OldOrNew(region.names, oldBytes, newBytes)
      requires Distinct(shims) && (trust.Reliable? ==> AllHold(Names(shims), oldBytes))
      modifies this`dir, this`data, this`nextInode
      ensures Confined(region) && Holds(EXE, newBytes)
      ensures !trust.Arbitrary? ==> OnlyBytes(region.names) && OldOrNew(region.names, oldBytes, newBytes)
      ensures !trust.Arbitrary? && ok ==> AllHold(Names(shims), newBytes)
      ensures trust.Reliable? ==> ok && (hardlinks ==> SharesExe(Names(shims)))
    {
      for i := 0 to |shims|
        invariant Confined(region) && Holds(EXE, newBytes)
        invariant !trust.Arbitrary? ==> OnlyBytes(region.names) && OldOrNew(region.names, oldBytes, newBytes)
        invariant !trust.Arbitrary? ==> forall k :: 0 <= k < i ==> Holds(Entry(shims[k]), newBytes)
        invariant trust.Reliable? ==> forall k :: i <= k < |shims| ==> Holds(Entry(shims[k]), oldBytes)
        invariant trust.Reliable? && hardlinks ==> SharesExe(Names(shims[..i]))
      {
        assert shims[i] in shims;
        NamesStep(shims, i);
        var replaced := UpdateShim(Entry(shims[i]), region, oldBytes, newBytes);
        if !replaced { return false; }
      }
      assert shims[..|shims|] == shims;
      return true;
    }

    /** The body of apply's shim loop. */
    method UpdateShim(shim: Path, ghost region: Region, oldBytes: Bytes, newBytes: Bytes) returns (ok: bool)
      requires Within(region) && oldBytes != newBytes && Holds(EXE, newBytes)
      requires EXE in region.names && shim in region.names && shim != EXE
      modifies this`dir, this`data, this`nextInode
      ensures Confined(region) && Holds(EXE, newBytes)
      ensures !trust.Arbitrary? ==> (BytesAt(shim) == old(BytesAt(shim)) || Holds(shim, newBytes))
      ensures !trust.Arbitrary? && ok ==> Holds(shim, newBytes)
      ensures trust.Reliable? && old(Holds(shim, oldBytes)) ==> ok
      ensures !trust.Arbitrary? ==> OnlyChanged(shim)
      ensures trust.Reliable? && hardlinks && ok ==> SameFile(shim)
    {
      var intact := Require(shim, oldBytes);
      if !intact { return false; }
      ok := Replace(EXE, shim, true, region);
    }

    /** The closure `fail` once something has changed. */
    method Fail(shims: seq<string>, ghost region: Region, oldBytes: Bytes, newBytes: Bytes) returns (ending: Ending)
      requires Within(region) && oldBytes != newBytes && Holds(Recovery, oldBytes) && Beyond(Recovery, region)
      requires region.names == {EXE} + Names(shims) && "cb.exe" !in shims
      modifies this`dir, this`data, this`nextInode
      ensures Confined(region) && Holds(Recovery, oldBytes) && OthersUntouched(newBytes)
      ensures ending.Restored? || ending.RecoveryKept?
      ensures ending.Restored? ==> AllHold(region.names, oldBytes)
      ensures !trust.Arbitrary? ==> OnlyBytes(region.names)
      ensures !trust.Arbitrary? && old(OldOrNew(region.names, oldBytes, newBytes)) ==>
                OldOrNew(region.names, oldBytes, newBytes)
      ensures trust.Reliable? && old(OldOrNew(region.names, oldBytes, newBytes)) ==> ending.Restored?
      ensures trust.Reliable? && hardlinks && old(AllHold(region.names, newBytes)) ==> SharesExe(region.names)
    {
      var rolledBack := Rollback(shims, region, oldBytes, newBytes);
      return if rolledBack then Restored else RecoveryKept;
    }

    /** Create the private recovery copy and check it. */
    method MakeRecovery(oldBytes: Bytes, canceled: bool) returns (ok: bool)
      requires Valid() && Holds(EXE, oldBytes) && Recovery !in dir
      modifies this`dir, this`data, this`nextInode
      ensures OnlyNames({Recovery})
      ensures ok ==> Holds(Recovery, oldBytes) && forall p :: p != Recovery && p in dir ==> dir[p] != dir[Recovery]
      ensures canceled ==> !ok
      ensures trust.Reliable? && !canceled ==> ok
    {
      var restricted := Works();
      if !restricted { return false; }
      var copied := CopyTo(EXE, Recovery);
      if !copied { return false; }
      restricted := Works();
      if !restricted { return false; }
      var same := Require(Recovery, oldBytes);
      return same && !canceled;
    }

    /** The deferred removal of the rollback directory. */
    method RemoveRollbackDirectory() returns (ok: bool)
      requires Valid()
      modifies this`dir, this`data, this`nextInode
      ensures OnlyNames({Recovery})
      ensures ok ==> Recovery !in dir
      ensures trust.Reliable? ==> ok
    {
      ok := Works();
      var partly := Chance();
      if ok || partly { dir := dir - {Recovery}; }
    }

    /** The checks of apply that precede any change to the directory. */
    method Precheck(verified: Verified, layoutOk: bool) returns (r: Option<(Bytes, Bytes)>)
      requires Valid()
      ensures r.Some? ==> Holds(EXE, r.value.0) && Holds(Staged, r.value.1) && r.value.0 != r.value.1
      ensures r.Some? ==> r.value == (verified.installedDigest, verified.digest)
      ensures r.Some? ==> PrecheckPasses(verified, layoutOk)
      ensures trust.Reliable? ==> (r.Some? <==> PrecheckPasses(verified, layoutOk))
    {
      if !layoutOk { return None; }
      var target := ParseVersion(verified.target);
      if target.None? { return None; }
      ParsedVersion(verified.target);
      var staged := Digest(Staged);
      if staged != Some(verified.digest) { return None; }
      var installed := Digest(EXE);
      if installed.None? { return None; }
      if |installed.value| == 0 || |installed.value| > MAX_BINARY_SIZE { return None; }
      if installed.value != verified.installedDigest { return None; }
      var current := CurrentVersion(verified.installedVersion);
      if current.None? { return None; }
      ParsedVersion(verified.installedVersion);
      ParsedVersion(current.value.raw);
      var order := Compare(current.value, target.value);
      EqualPrecedenceMeansEqualText(verified.installedVersion, verified.target);
      if order == 0 { return None; }
      if installed == staged { return None; }
      return Some((installed.value, staged.value));
    }

    predicate PrecheckPasses(verified: Verified, layoutOk: bool)
      reads this
    {
      && layoutOk && ParseVersion(verified.target).Some? && CurrentVersion(verified.installedVersion).Some?
      && verified.target != verified.installedVersion
      && Holds(Staged, verified.digest) && Holds(EXE, verified.installedDigest)
      && 0 < |verified.installedDigest| <= MAX_BINARY_SIZE && verified.installedDigest != verified.digest
    }

    /** The files the transaction answers for: cb.exe and every shim holding its bytes. */
    function Managed(listing: seq<string>, oldBytes: Bytes): set<Path>
      reads this
    {
      {EXE} + set s | s in listing && IsShimName(s) && Holds(Entry(s), oldBytes) :: Entry(s)
    }

    /** The name is a hard link to a managed file. */
    predicate Linked(p: Path, managed: set<Path>)
      reads this
    {
      p in dir && exists q :: q in managed && q in dir && dir[q] == dir[p]
    }

    /** What a transaction may change besides its recovery copy: the managed files, and, when
        a replacement writes in place, the other names linked to them. */
    twostate predicate OnlyManaged(managed: set<Path>)
      reads this
    {
      forall p :: p != Recovery && p !in managed && !(trust.Arbitrary? && old(Linked(p, managed))) ==>
        BytesAt(p) == old(BytesAt(p))
    }

    /** apply. With no other writer and whatever the replacements and the smoke test do:
        a nil return means cb.exe and every managed shim hold the staged bytes; an error means
        every managed file holds the bytes it held, or the recovery copy is kept and holds
        them, or the update is complete and only the rollback directory could not be removed.
        When replacements do what they report, every managed file is old or new in any case.
        A nil return is earned by one smoke test that passed on the new cb.exe; when every call
        works, the transaction updates exactly if the test passes, and otherwise restores. */
    method Apply(listing: seq<string>, verified: Verified, layoutOk: bool, canceled: bool)
      returns (ending: Ending, failed: bool)
      requires Valid() && Recovery !in dir
      modifies this
      ensures Valid()
      ensures !failed ==> ending.Updated? && Recovery !in dir
      ensures ending.Updated? ==> AllHold(old(Managed(listing, verified.installedDigest)), verified.digest)
                                  && PassedOnNew(old(Managed(listing, verified.installedDigest)), verified.digest)
      ensures !old(PrecheckPasses(verified, layoutOk)) || canceled ==> ending.Refused?
      ensures ending.Refused? ==> failed && tests == old(tests)
      ensures ending.Refused? || ending.Restored? ==>
                forall p :: p in old(Managed(listing, verified.installedDigest)) ==> BytesAt(p) == old(BytesAt(p))
      ensures ending.RecoveryKept? ==> failed && Holds(Recovery, verified.installedDigest)
                                       && old(Holds(EXE, verified.installedDigest))
      ensures !trust.Arbitrary? ==>
                forall p :: p in old(Managed(listing, verified.installedDigest)) ==>
                  BytesAt(p) == old(BytesAt(p)) || Holds(p, verified.digest)
      ensures OnlyManaged(old(Managed(listing, verified.installedDigest)))
      ensures trust.Reliable? ==> Recovery !in dir && (failed <==> !ending.Updated?)
      ensures trust.Reliable? && old(PrecheckPasses(verified, layoutOk)) && !canceled ==>
                && RanOnce() && ending == (if LastTest().passed then Updated else Restored)
                && (hardlinks ==> SharesExe(old(Managed(listing, verified.installedDigest))))
    {
      var checked := Precheck(verified, layoutOk);
      if checked.None? { return Refused, true; }
      ending, failed := ApplyChecked(listing, checked.value.0, checked.value.1, canceled);
    }

    /** apply from the discovery of the managed shims on. */
    method ApplyChecked(listing: seq<string>, oldBytes: Bytes, newBytes: Bytes, canceled: bool)
      returns (ending: Ending, failed: bool)
      requires Valid() && Recovery !in dir && oldBytes != newBytes && Holds(EXE, oldBytes) && Holds(Staged, newBytes)
      modifies this
      ensures Valid()
      ensures !failed ==> ending.Updated? && Recovery !in dir
      ensures ending.Updated? ==> AllHold(old(Managed(listing, oldBytes)), newBytes)
                                  && PassedOnNew(old(Managed(listing, oldBytes)), newBytes)
      ensures canceled ==> ending.Refused?
      ensures ending.Refused? ==> failed && tests == old(tests)
      ensures ending.Refused? || ending.Restored? ==> AllHold(old(Managed(listing, oldBytes)), oldBytes)
      ensures ending.RecoveryKept? ==> failed && Holds(Recovery, oldBytes)
      ensures !trust.Arbitrary? ==> OldOrNew(old(Managed(listing, oldBytes)), oldBytes, newBytes)
      ensures OnlyManaged(old(Managed(listing, oldBytes)))
      ensures trust.Reliable? ==> Recovery !in dir && (failed <==> !ending.Updated?)
      ensures trust.Reliable? && !canceled ==> RanOnce() && ending == if LastTest().passed then Updated else Restored
      ensures trust.Reliable? && hardlinks && !canceled ==> SharesExe(old(Managed(listing, oldBytes)))
    {
      var discovered := DiscoverManagedShims(listing, oldBytes);
      if discovered.None? { return Refused, true; }
      assert Managed(listing, oldBytes) == {EXE} + Names(discovered.value);
      SortedIsDistinct(discovered.value, set s | s in listing && IsShimName(s) && Holds(Entry(s), oldBytes));
      ending, failed := ApplyTo(discovered.value, Managed(listing, oldBytes), oldBytes, newBytes, canceled);
    }

    /** The inodes of the managed files, and all made from now on. */
    ghost function RegionOf(managed: set<Path>): Region
      reads this
      requires Valid()
    {
      Region(managed, set p | p in managed && p in dir :: dir[p], nextInode)
    }

    /** apply from the creation of the rollback directory to its deferred removal. */
    method ApplyTo(shims: seq<string>, ghost managed: set<Path>, oldBytes: Bytes, newBytes: Bytes, canceled: bool)
      returns (ending: Ending, failed: bool)
      requires Valid() && oldBytes != newBytes && Holds(Staged, newBytes) && Recovery !in dir
      requires managed == {EXE} + Names(shims) && "cb.exe" !in shims && AllHold(managed, oldBytes) && Distinct(shims)
      modifies this
      ensures Valid()
      ensures !failed ==> ending.Updated? && Recovery !in dir
      ensures ending.Updated? ==> AllHold(managed, newBytes) && PassedOnNew(managed, newBytes)
      ensures ending.Refused? ==> tests == old(tests)
      ensures canceled ==> ending.Refused?
      ensures ending.Refused? || ending.Restored? ==> AllHold(managed, oldBytes)
      ensures ending.RecoveryKept? ==> failed && Holds(Recovery, oldBytes)
      ensures !trust.Arbitrary? ==> OldOrNew(managed, oldBytes, newBytes)
      ensures OnlyManaged(managed)
      ensures trust.Reliable? ==> Recovery !in dir && (failed <==> !ending.Updated?)
      ensures trust.Reliable? && !canceled ==> RanOnce() && ending == if LastTest().passed then Updated else Restored
      ensures trust.Reliable? && hardlinks && !canceled ==> SharesExe(managed)
    {
      var made := Works();
      if !made { return Refused, true; }
      ending := RecoverableMutate(shims, managed, oldBytes, newBytes, canceled);
      failed := !ending.Updated?;
      if !ending.RecoveryKept? {
        var removed := RemoveRollbackDirectory();
        if !removed { failed := true; }
      }
    }

    /** The recovery copy first; without it nothing is changed. */
    method RecoverableMutate(shims: seq<string>, ghost managed: set<Path>, oldBytes: Bytes, newBytes: Bytes, canceled: bool)
      returns (ending: Ending)
      requires Valid() && oldBytes != newBytes && Holds(Staged, newBytes) && Recovery !in dir
      requires managed == {EXE} + Names(shims) && "cb.exe" !in shims && AllHold(managed, oldBytes) && Distinct(shims)
      modifies this
      ensures Valid() && OnlyManaged(managed)
      ensures ending.Updated? ==> AllHold(managed, newBytes) && PassedOnNew(managed, newBytes)
      ensures ending.Refused? ==> tests == old(tests)
      ensures canceled ==> ending.Refused?
      ensures ending.Refused? || ending.Restored? ==> AllHold(managed, oldBytes)
      ensures ending.RecoveryKept? ==> Holds(Recovery, oldBytes)
      ensures !trust.Arbitrary? ==> OldOrNew(managed, oldBytes, newBytes)
      ensures trust.Reliable? && !canceled ==> RanOnce() && ending == if LastTest().passed then Updated else Restored
      ensures trust.Reliable? && hardlinks && !canceled ==> SharesExe(managed)
    {
      ghost var linked := set p | p in dir && Linked(p, managed);
      var ready := MakeRecovery(oldBytes, canceled);
      if !ready { return Refused; }
      assert forall p :: p != Recovery && Linked(p, managed) ==> p in linked;
      ending := MutateFrom(shims, managed, oldBytes, newBytes);
    }

    /** Mutate in the region of the managed files; the recovery copy lies beyond it. */
    method MutateFrom(shims: seq<string>, ghost managed: set<Path>, oldBytes: Bytes, newBytes: Bytes) returns (ending: Ending)
      requires Valid() && oldBytes != newBytes && Holds(Staged, newBytes)
      requires managed == {EXE} + Names(shims) && "cb.exe" !in shims && Distinct(shims)
      requires AllHold(managed, oldBytes) && Holds(Recovery, oldBytes) && !Linked(Recovery, managed)
      modifies this
      ensures Valid() && Holds(Recovery, oldBytes) && OnlyManaged(managed)
      ensures ending.Updated? ==> AllHold(managed, newBytes) && PassedOnNew(managed, newBytes)
      ensures ending.Refused? ==> tests == old(tests)
      ensures ending.Refused? || ending.Restored? ==> AllHold(managed, oldBytes)
      ensures !trust.Arbitrary? ==> OldOrNew(managed, oldBytes, newBytes)
      ensures trust.Reliable? ==> RanOnce() && ending == if LastTest().passed then Updated else Restored
      ensures trust.Reliable? && hardlinks ==> SharesExe(managed)
    {
      ghost var region := RegionOf(managed);
      assert forall p :: p !in managed && !Linked(p, managed) ==> Beyond(p, region);
      ending := Mutate(shims, region, oldBytes, newBytes);
    }
  }

  /** NAME.exe where NAME is a valid tool name that is not reserved. */
  predicate IsShimName(name: string) {
    && |name| > 4 && name[|name| - 4..] == ".exe" && name != "cb.exe"
    && ValidToolName(name[..|name| - 4]) && !ReservedToolName(name[..|name| - 4])
  }

  predicate Distinct(shims: seq<string>) {
    forall i, j :: 0 <= i < j < |shims| ==> shims[i] != shims[j]
  }

  function Names(shims: seq<string>): set<Path> {
    set s | s in shims :: Entry(s)
  }

  lemma NamesStep(shims: seq<string>, i: nat)
    requires i < |shims|
    ensures Names(shims[..i + 1]) == Names(shims[..i]) + {Entry(shims[i])}
  {
    assert shims[..i + 1] == shims[..i] + [shims[i]];
  }
}
