/**
 * internal/atomicio/atomicio.go and the loaders that recover from its backup
 * (internal/registry/file.go): crash-safe replacement of a file. Every effect on the
 * directory may succeed, fail, or be preceded by a crash, chosen arbitrarily, unless the
 * directory is reliable: then nothing fails but the removal or the renaming of a missing file.
 */
module AtomicIo {
  import opened Wrappers
  import opened Registry
  import opened Text

  /** The file, its backup, and the uniquely named temporary files. */
  datatype Name = Primary | Backup | Temp(id: nat)

  datatype Fate = Succeeds | Fails | Crashes

  datatype Outcome = Done | Failed | Crashed

  datatype Recovery = Recovered | NothingToDo | BadBackup | IoError | Interrupted

  datatype Loading<R> = Loaded(result: Option<R>) | LoadFailed | LoadCrashed

  /** The content a reader ends up with: the file, or its backup while the file is missing. */
  function Logical(files: map<Name, string>): Option<string> {
    if Primary in files then Some(files[Primary])
    else if Backup in files then Some(files[Backup])
    else None
  }

  /** A write may start when the file is present or there is no backup to lose. */
  predicate Settled(files: map<Name, string>) {
    Primary in files || Backup !in files
  }

  class Directory {
    const reliable: bool
    var files: map<Name, string>
    var nextTemp: nat

    constructor (reliable: bool, initial: map<Name, string>)
      requires Settled(initial)
      ensures this.reliable == reliable && files == initial
    {
      this.reliable, files, nextTemp := reliable, initial, 0;
    }

    method Chance() returns (f: Fate)
      ensures reliable ==> f.Succeeds?
    {
      f := *;
      if reliable { f := Succeeds; }
    }

    method Remove(name: Name) returns (f: Fate)
      modifies this`files
      ensures reliable ==> (f.Succeeds? <==> name in old(files)) && !f.Crashes?
      ensures f.Succeeds? ==> name in old(files) && files == old(files) - {name}
      ensures !f.Succeeds? ==> files == old(files)
    {
      f := Chance();
      if f.Succeeds? {
        if name !in files { return Fails; }
        files := files - {name};
      }
    }

    /** Renaming replaces the target. */
    method Rename(from: Name, to: Name) returns (f: Fate)
      requires from != to
      modifies this`files
      ensures reliable ==> (f.Succeeds? <==> from in old(files)) && !f.Crashes?
      ensures f.Succeeds? ==> from in old(files) && files == (old(files) - {from})[to := old(files)[from]]
      ensures !f.Succeeds? ==> files == old(files)
    {
      f := Chance();
      if f.Succeeds? {
        if from !in files { return Fails; }
        files := (files - {from})[to := files[from]];
      }
    }

    /** Create, fill, sync, close and chmod the temporary file. */
    method PrepareTemp(data: string) returns (f: Fate, tmp: Name)
      modifies this
      ensures tmp.Temp?
      ensures reliable ==> f.Succeeds?
      ensures f.Succeeds? ==> tmp in files && files[tmp] == data && files.Keys == old(files).Keys + {tmp}
      ensures forall n: Name :: !n.Temp? ==> (n in files <==> n in old(files))
      ensures forall n: Name :: !n.Temp? && n in files ==> files[n] == old(files)[n]
    {
      f := Chance();
      tmp := Temp(nextTemp);
      if !f.Succeeds? { return; }
      nextTemp := nextTemp + 1;
      files := files[tmp := ""];
      f := Chance();
      if f.Succeeds? {
        files := files[tmp := data];
        f := Chance();
      }
      if f.Fails? {
        var cleanup := Remove(tmp);
        if cleanup.Crashes? { f := Crashes; }
      }
    }

    /** WriteFile. A nil return means the new content is in place, an error return that the
        old content still is what a reader gets, and a crash leaves one of the two. In a
        reliable directory every write returns nil and leaves the new content and no litter. */
    method WriteFile(data: string) returns (o: Outcome)
      requires Settled(files)
      modifies this
      ensures o.Done? ==> Logical(files) == Some(data) && Settled(files)
      ensures o.Failed? ==> Logical(files) == old(Logical(files))
      ensures o.Crashed? ==> Logical(files) == Some(data) || Logical(files) == old(Logical(files))
      ensures reliable ==> o.Done? && Primary in files && Backup !in files && files.Keys <= old(files).Keys + {Primary}
    {
      var prepared, tmp := PrepareTemp(data);
      if prepared.Crashes? { return Crashed; }
      if prepared.Fails? { return Failed; }
      o := SwapIn(tmp);
      if o.Failed? {
        var cleanup := Remove(tmp);
        if cleanup.Crashes? { return Crashed; }
      }
    }

    /** The second half of WriteFile: move the old file aside, the new one in. */
    method SwapIn(tmp: Name) returns (o: Outcome)
      requires Settled(files) && tmp.Temp? && tmp in files
      modifies this`files
      ensures o.Done? ==> Logical(files) == Some(old(files)[tmp]) && Settled(files)
      ensures o.Failed? ==> Logical(files) == old(Logical(files))
      ensures o.Crashed? ==> Logical(files) == Some(old(files)[tmp]) || Logical(files) == old(Logical(files))
      ensures reliable ==> o.Done? && files.Keys == old(files).Keys - {tmp, Backup} + {Primary}
    {
      var removed := Remove(Backup);
      if removed.Crashes? { return Crashed; }
      if Primary in files {
        var aside := Rename(Primary, Backup);
        if aside.Crashes? { return Crashed; }
        if aside.Fails? { return Failed; }
      }
      var moved := Rename(tmp, Primary);
      if moved.Crashes? { return Crashed; }
      if moved.Fails? {
        var back := Rename(Backup, Primary);
        return if back.Crashes? then Crashed else Failed;
      }
      var tidy := Remove(Backup);
      return if tidy.Crashes? then Crashed else Done;
    }

    /** RecoverFromBackup, with the validation its caller supplies. */
    method RecoverFromBackup(validate: string -> bool) returns (r: Recovery)
      modifies this`files
      ensures Logical(files) == old(Logical(files))
      ensures r.Recovered? ==> Primary !in old(files) && Primary in files && validate(files[Primary])
      ensures r.NothingToDo? ==> files == old(files) && Settled(files)
      ensures r.BadBackup? ==> files == old(files) && Primary !in files && Backup in files && !validate(files[Backup])
      ensures r.IoError? ==> files == old(files)
      ensures old(Settled(files)) ==> Settled(files)
      ensures reliable ==> r == Recoverable(old(files), validate)
    {
      if Primary in files { return NothingToDo; }
      if Backup in files {
        var reading := Chance();
        if reading.Crashes? { return Interrupted; }
        if reading.Fails? { return IoError; }
        if !validate(files[Backup]) { return BadBackup; }
        var renamed := Rename(Backup, Primary);
        if renamed.Crashes? { return Interrupted; }
        if renamed.Fails? { return IoError; }
        var after := Chance();
        if after.Crashes? { return Interrupted; }
        return Recovered;
      }
      return NothingToDo;
    }

    /** loadPath: both modes answer from the same content. Recovery changes where the content
        lives, never what it is; the read-only mode changes nothing. */
    method LoadPath<R>(recoverBackup: bool, authenticate: Option<string> -> bool,
                       parse: string -> Option<R>, default: R) returns (o: Loading<R>)
      requires parse("").None?
      modifies this`files
      ensures o.Loaded? ==> o.result == LoadSpec(old(files), authenticate, parse, default)
      ensures Logical(files) == old(Logical(files))
      ensures !recoverBackup ==> files == old(files)
      ensures recoverBackup && o.Loaded? && o.result.Some? ==> Settled(files)
      ensures old(Settled(files)) ==> Settled(files)
      ensures reliable ==> o.Loaded?
    {
      var reading := Chance();
      if reading.Crashes? { return LoadCrashed; }
      if Primary in files && reading.Fails? { return LoadFailed; }
      var data: string;
      if Primary in files {
        data := files[Primary];
      } else {
        if !authenticate(None) { return Loaded(None); }
        if recoverBackup {
          var r := RecoverFromBackup(s => s != "" && parse(s).Some?);
          if r.Interrupted? { return LoadCrashed; }
          if r.IoError? { return LoadFailed; }
          if r.BadBackup? { return Loaded(None); }
          if r.NothingToDo? { return Loaded(Some(default)); }
          reading := Chance();
          if reading.Crashes? { return LoadCrashed; }
          if reading.Fails? { return LoadFailed; }
          data := files[Primary];
        } else {
          if Backup !in files { return Loaded(Some(default)); }
          reading := Chance();
          if reading.Crashes? { return LoadCrashed; }
          if reading.Fails? { return LoadFailed; }
          data := files[Backup];
        }
      }
      if !authenticate(Some(data)) { return Loaded(None); }
      return Loaded(parse(data));
    }
  }

  /** What recovery finds when nothing fails. */
  function Recoverable(files: map<Name, string>, validate: string -> bool): Recovery {
    if Primary in files || Backup !in files then NothingToDo
    else if validate(files[Backup]) then Recovered
    else BadBackup
  }

  /** What loading yields on a given directory when nothing fails. */
  function LoadSpec<R>(files: map<Name, string>, authenticate: Option<string> -> bool,
                       parse: string -> Option<R>, default: R): Option<R>
  {
    if Primary !in files && !authenticate(None) then None
    else
      match Logical(files)
      case None => Some(default)
      case Some(data) => if authenticate(Some(data)) then parse(data) else None
  }

  /** The registry parser meets the loader's one demand: an empty file is no registry. */
  lemma EmptyTextIsRejected()
    ensures ParseTOML("") == Err(NoTools)
  {
    ReadEmpty();
    assert SplitAfter("") == [""];
    assert Items([""]) == [Blank];
    RunOne(Start, Blank);
  }

  // ---------------------------------------------------------------- whole runs

  datatype Op = Write(data: string) | Read

  /** What an observer of a run records: the fate of each write, and for each load that
      answered the content it stands for with the answer, an error being none. */
  datatype Event =
    | Wrote(data: string)
    | WriteFailed(data: string)
    | WriteCut(data: string)
    | Saw(value: Option<string>, answer: Option<int>)

  /** The values an atomic register may hold after these events: a completed write fixes
      the value, a failed one changes nothing, an interrupted one may or may not have taken
      effect, and a read settles which. */
  function Possible(initial: Option<string>, log: seq<Event>): set<Option<string>> {
    if log == [] then {initial} else After(Possible(initial, log[..|log| - 1]), log[|log| - 1])
  }

  function After(before: set<Option<string>>, e: Event): set<Option<string>> {
    if e.Wrote? then {Some(e.data)}
    else if e.WriteFailed? then before
    else if e.WriteCut? then before + {Some(e.data)}
    else before * {e.value}
  }

  /** Every read of the run saw a value the register could hold. */
  predicate Linearizable(initial: Option<string>, log: seq<Event>) {
    forall i :: 0 <= i < |log| && log[i].Saw? ==> log[i].value in Possible(initial, log[..i])
  }

  /** What loading a given content answers: the default without a file, else what it parses to. */
  function Answer(value: Option<string>, parse: string -> Option<int>, default: int): Option<int> {
    match value case None => Some(default) case Some(text) => parse(text)
  }

  /** Every load answered for the content it stands for. */
  predicate Answered(log: seq<Event>, parse: string -> Option<int>, default: int) {
    forall i :: 0 <= i < |log| && log[i].Saw? ==> log[i].answer == Answer(log[i].value, parse, default)
  }

  lemma PossibleStep(initial: Option<string>, log: seq<Event>, e: Event)
    ensures Possible(initial, log + [e]) == After(Possible(initial, log), e)
  {
    assert (log + [e])[..|log|] == log;
  }

  lemma LinearizableStep(initial: Option<string>, log: seq<Event>, e: Event)
    requires Linearizable(initial, log)
    requires e.Saw? ==> e.value in Possible(initial, log)
    ensures Linearizable(initial, log + [e])
  {
    forall i | 0 <= i < |log + [e]| && (log + [e])[i].Saw?
      ensures (log + [e])[i].value in Possible(initial, (log + [e])[..i])
    {
      assert (log + [e])[..i] == log[..i];
      assert log[..|log|] == log;
    }
  }

  /** One operation of a reliable directory: the load answers for the value, and a write that
      follows a good load takes effect. */
  function TurnEvents(value: Option<string>, op: Op, parse: string -> Option<int>, default: int): seq<Event> {
    var answer := Answer(value, parse, default);
    if op.Write? && answer.Some? then [Saw(value, answer), Wrote(op.data)] else [Saw(value, answer)]
  }

  function TurnValue(value: Option<string>, op: Op, parse: string -> Option<int>, default: int): Option<string> {
    if op.Write? && Answer(value, parse, default).Some? then Some(op.data) else value
  }

  /** The run of a reliable directory. */
  function Sequential(value: Option<string>, ops: seq<Op>, parse: string -> Option<int>, default: int): seq<Event>
    decreases |ops|
  {
    if ops == [] then []
    else TurnEvents(value, ops[0], parse, default) + Sequential(TurnValue(value, ops[0], parse, default), ops[1..], parse, default)
  }

  lemma SequentialTurn(value: Option<string>, ops: seq<Op>, i: nat, parse: string -> Option<int>, default: int, log: seq<Event>)
    requires i < |ops|
    ensures log + Sequential(value, ops[i..], parse, default) ==
            log + TurnEvents(value, ops[i], parse, default)
            + Sequential(TurnValue(value, ops[i], parse, default), ops[i + 1..], parse, default)
  {
    assert ops[i..][1..] == ops[i + 1..];
  }

  /** One operation: it loads, recovering if needed, and a write follows only a load that
      succeeded. */
  method Turn(dir: Directory, op: Op, parse: string -> Option<int>, default: int, ghost initial: Option<string>,
              log0: seq<Event>) returns (log: seq<Event>)
    requires parse("").None?
    requires Linearizable(initial, log0) && Answered(log0, parse, default) && Logical(dir.files) in Possible(initial, log0)
    modifies dir
    ensures Linearizable(initial, log) && Answered(log, parse, default) && Logical(dir.files) in Possible(initial, log)
    ensures dir.reliable ==> log == log0 + TurnEvents(old(Logical(dir.files)), op, parse, default)
    ensures dir.reliable ==> Logical(dir.files) == TurnValue(old(Logical(dir.files)), op, parse, default)
  {
    log := log0;
    var loaded := dir.LoadPath(true, _ => true, parse, default);
    if !loaded.Loaded? { return; }
    var saw := Saw(Logical(dir.files), loaded.result);
    PossibleStep(initial, log, saw);
    LinearizableStep(initial, log, saw);
    log := log + [saw];
    if op.Write? && loaded.result.Some? {
      var o := dir.WriteFile(op.data);
      var e := match o case Done => Wrote(op.data) case Failed => WriteFailed(op.data) case Crashed => WriteCut(op.data);
      PossibleStep(initial, log, e);
      LinearizableStep(initial, log, e);
      log := log + [e];
    }
  }

  /** Any run. Crashes may cut any operation anywhere; the next one starts from the directory
      they left. The file behaves as an atomic register throughout, and every answer is that
      of the value it then holds. In a reliable directory the run is the sequential one. */
  method Session(dir: Directory, ops: seq<Op>, parse: string -> Option<int>, default: int) returns (log: seq<Event>)
    requires parse("").None?
    modifies dir
    ensures Linearizable(old(Logical(dir.files)), log) && Answered(log, parse, default)
    ensures Logical(dir.files) in Possible(old(Logical(dir.files)), log)
    ensures dir.reliable ==> log == Sequential(old(Logical(dir.files)), ops, parse, default)
  {
    log := [];
    ghost var initial := Logical(dir.files);
    assert ops[0..] == ops;
    for i := 0 to |ops|
      invariant Linearizable(initial, log) && Answered(log, parse, default)
      invariant Logical(dir.files) in Possible(initial, log)
      invariant dir.reliable ==>
                  Sequential(initial, ops, parse, default) == log + Sequential(Logical(dir.files), ops[i..], parse, default)
    {
      SequentialTurn(Logical(dir.files), ops, i, parse, default, log);
      log := Turn(dir, ops[i], parse, default, initial, log);
    }
  }
}
