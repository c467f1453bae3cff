/**
 * internal/projectconfig/projectconfig.go, lines 487-669: the store of trusted project
 * overlays, its printer, its parser and the bounded reader in front of it.
 */
module TrustStore {
  import opened Wrappers
  import opened Text
  import opened Toml
  import opened Decimal
  import opened Sorting
  import opened PrintedLines
  import R = Registry

  const TRUST_SCHEMA: nat := 1
  const MAX_FILE_SIZE: nat := 0x10_0000

  datatype Entry = Entry(root: string, digest: string, tools: seq<string>)

  type Store = map<string, Entry>

  const NoEntry: Entry := Entry("", "", [])

  /** What the format takes from other packages: the section name of a root (its SHA-256),
      whether a path is absolute and clean (path/filepath), and the printable characters. */
  datatype Env = Env(rootId: string -> string, cleanRoot: string -> bool, shown: Printable)

  datatype Fault =
    | LineTooLong | MalformedHeader | UnsupportedSection | BadSectionId | DuplicateSection | NotKeyValue
    | UnsupportedTopKey | UnsupportedVersion | DuplicateKey | UnsupportedKey | BadValue | VersionMissing | InvalidEntry

  predicate ValidDigest(s: string) {
    |s| == 64 && forall i :: 0 <= i < |s| ==> '0' <= s[i] <= '9' || 'a' <= s[i] <= 'f'
  }

  predicate Sorted(names: seq<string>) {
    forall i, j :: 0 <= i < j < |names| ==> !Less(names[j], names[i])
  }

  /** What an entry must be: named by its root, with sorted, distinct, valid tools. */
  predicate EntryOk(env: Env, id: string, e: Entry) {
    && ValidDigest(id) && env.rootId(e.root) == id
    && env.cleanRoot(e.root)
    && ValidDigest(e.digest)
    && e.tools != [] && Sorted(e.tools)
    && (forall i :: 0 <= i < |e.tools| ==> R.ValidToolName(e.tools[i]) && !R.ReservedToolName(e.tools[i]))
    && (forall i, j :: 0 <= i < j < |e.tools| ==> e.tools[i] != e.tools[j])
  }

  predicate Valid(env: Env, store: Store) {
    forall id :: id in store ==> EntryOk(env, id, store[id])
  }

  // ---------------------------------------------------------------- the line parser

  datatype Item = TooLong | Blank | BadHeader | Header(section: string) | Words | Assign(key: string, value: string)

  function ItemOf(line: string): Item {
    if line == "" then Blank
    else
      match HeaderOf(line)
      case Malformed => BadHeader
      case Section(section) => Header(section)
      case NotHeader =>
        var eq := IndexOf(line, '=');
        if eq == |line| then Words else Assign(Trim(line[..eq]), Trim(line[eq + 1..]))
  }

  function Read(raw: string): Item {
    if !FitsScanner(raw) then TooLong else ItemOf(R.Meaning(R.ScanToken(raw)))
  }

  function Items(lines: seq<string>): (items: seq<Item>)
    ensures |items| == |lines|
  {
    seq(|lines|, i requires 0 <= i < |lines| => Read(lines[i]))
  }

  datatype State =
    | Reading(seenVersion: bool, entries: Store, current: string, seen: set<string>)
    | Rejected(fault: Fault)

  const Start: State := Reading(false, map[], "", {})

  const PROJECTS := "projects."

  function StepHeader(st: State, section: string): State
    requires st.Reading?
  {
    if !(PROJECTS <= section) then Rejected(UnsupportedSection)
    else
      var id := section[|PROJECTS|..];
      if !ValidDigest(id) then Rejected(BadSectionId)
      else if id in st.entries then Rejected(DuplicateSection)
      else st.(entries := st.entries[id := NoEntry], current := id, seen := {})
  }

  function StepTop(st: State, key: string, value: string): State
    requires st.Reading?
  {
    if key != TRUST_VERSION || st.seenVersion then Rejected(UnsupportedTopKey)
    else if R.Atoi(value) != Some(TRUST_SCHEMA) then Rejected(UnsupportedVersion)
    else st.(seenVersion := true)
  }

  function SetField(e: Entry, key: string, value: string): Result<Entry, Fault> {
    if key == "root" then
      match ParseQuoted(value) case None => Err(BadValue) case Some(v) => Ok(e.(root := v))
    else if key == "overlay_sha256" then
      match ParseQuoted(value) case None => Err(BadValue) case Some(v) => Ok(e.(digest := v))
    else if key == "tools" then
      match ParseStringArray(value) case None => Err(BadValue) case Some(v) => Ok(e.(tools := v))
    else Err(UnsupportedKey)
  }

  function EntryAt(entries: Store, id: string): Entry {
    if id in entries then entries[id] else NoEntry
  }

  function StepField(st: State, key: string, value: string): State
    requires st.Reading?
  {
    if key in st.seen then Rejected(DuplicateKey)
    else
      match SetField(EntryAt(st.entries, st.current), key, value)
      case Err(fault) => Rejected(fault)
      case Ok(e) => st.(entries := st.entries[st.current := e], seen := st.seen + {key})
  }

  function Step(st: State, item: Item): State {
    if st.Rejected? then st
    else
      match item
      case TooLong => Rejected(LineTooLong)
      case Blank => st
      case BadHeader => Rejected(MalformedHeader)
      case Header(section) => StepHeader(st, section)
      case Words => Rejected(NotKeyValue)
      case Assign(key, value) => if st.current == "" then StepTop(st, key, value) else StepField(st, key, value)
  }

  function Run(st: State, items: seq<Item>): State
    decreases |items|
  {
    if items == [] then st else Run(Step(st, items[0]), items[1..])
  }

  function Finish(env: Env, st: State): Result<Store, Fault> {
    if st.Rejected? then Err(st.fault)
    else if !st.seenVersion then Err(VersionMissing)
    else if !Valid(env, st.entries) then Err(InvalidEntry)
    else Ok(st.entries)
  }

  function ParseStore(env: Env, text: string): Result<Store, Fault> {
    Finish(env, Run(Start, Items(SplitAfter(text))))
  }

  // ---------------------------------------------------------------- the parser's loop

  method ReadLine(raw: string, seenVersion0: bool, entries0: Store, current0: string, seen0: set<string>)
    returns (fault: Option<Fault>, seenVersion: bool, entries: Store, current: string, seen: set<string>)
    ensures Step(Reading(seenVersion0, entries0, current0, seen0), Read(raw)) ==
            if fault.Some? then Rejected(fault.value) else Reading(seenVersion, entries, current, seen)
  {
    fault, seenVersion, entries, current, seen := None, seenVersion0, entries0, current0, seen0;
    match Read(raw) {
      case TooLong => fault := Some(LineTooLong);
      case Blank =>
      case BadHeader => fault := Some(MalformedHeader);
      case Header(section) =>
        if !(PROJECTS <= section) { fault := Some(UnsupportedSection); return; }
        var id := section[|PROJECTS|..];
        if !ValidDigest(id) { fault := Some(BadSectionId); return; }
        if id in entries { fault := Some(DuplicateSection); return; }
        entries, current, seen := entries[id := NoEntry], id, {};
      case Words => fault := Some(NotKeyValue);
      case Assign(key, value) =>
        if current == "" {
          if key != TRUST_VERSION || seenVersion { fault := Some(UnsupportedTopKey); return; }
          if R.Atoi(value) != Some(TRUST_SCHEMA) { fault := Some(UnsupportedVersion); return; }
          seenVersion := true;
        } else {
          if key in seen { fault := Some(DuplicateKey); return; }
          var e := SetField(EntryAt(entries, current), key, value);
          if e.Err? { fault := Some(e.error); return; }
          entries, seen := entries[current := e.value], seen + {key};
        }
    }
  }

  /** sort.StringsAreSorted */
  method AreSorted(names: seq<string>) returns (sorted: bool)
    ensures sorted <==> Sorted(names)
  {
    for i := 0 to |names|
      invariant forall j, k :: 0 <= j < k < i ==> !Less(names[k], names[j])
    {
      if i == 0 { continue; }
      if Less(names[i], names[i - 1]) { return false; }
      forall j | 0 <= j < i ensures !Less(names[i], names[j]) { NotLessTrans(names[j], names[i - 1], names[i]); }
    }
    return true;
  }

  lemma NotLessTrans(a: string, b: string, c: string)
    requires (a == b || !Less(b, a)) && !Less(c, b)
    ensures !Less(c, a)
  {
    LessTotal(a, b);
    if Less(c, a) && Less(a, b) { LessTransitive(c, a, b); }
  }

  /** The tools of an entry are valid, not reserved, and each named once. */
  method ToolsAreValid(names: seq<string>) returns (ok: bool)
    ensures ok <==> (forall i :: 0 <= i < |names| ==> R.ValidToolName(names[i]) && !R.ReservedToolName(names[i]))
                    && forall i, j :: 0 <= i < j < |names| ==> names[i] != names[j]
  {
    var seen: set<string> := {};
    for i := 0 to |names|
      invariant forall n :: n in seen <==> n in names[..i]
      invariant forall k :: 0 <= k < i ==> R.ValidToolName(names[k]) && !R.ReservedToolName(names[k])
      invariant forall j, k :: 0 <= j < k < i ==> names[j] != names[k]
    {
      if !R.ValidToolName(names[i]) || R.ReservedToolName(names[i]) || names[i] in seen { return false; }
      assert names[..i + 1] == names[..i] + [names[i]];
      assert forall j :: 0 <= j < i ==> names[j] in names[..i];
      seen := seen + {names[i]};
    }
    return true;
  }

  /** validateEntry, check by check. */
  method ValidateEntry(env: Env, id: string, e: Entry) returns (ok: bool)
    ensures ok <==> EntryOk(env, id, e)
  {
    if !ValidDigest(id) || env.rootId(e.root) != id { return false; }
    if !env.cleanRoot(e.root) { return false; }
    if !ValidDigest(e.digest) { return false; }
    if |e.tools| == 0 { return false; }
    var sorted := AreSorted(e.tools);
    if !sorted { return false; }
    ok := ToolsAreValid(e.tools);
  }

  /** The loop over the finished entries, taken in any order. */
  method Validate(env: Env, store: Store) returns (ok: bool)
    ensures ok == Valid(env, store)
  {
    var todo := store.Keys;
    while todo != {}
      invariant todo <= store.Keys
      invariant forall id :: id in store.Keys - todo ==> EntryOk(env, id, store[id])
      decreases |todo|
    {
      var id :| id in todo;
      var valid := ValidateEntry(env, id, store[id]);
      if !valid { return false; }
      todo := todo - {id};
    }
    return true;
  }

  /** parseStore as the source runs it. */
  method ParseLoop(env: Env, text: string) returns (r: Result<Store, Fault>)
    ensures r == ParseStore(env, text)
  {
    var lines := R.Tokens(text);
    TokensSuffice(text);
    ghost var items := Items(lines);
    var seenVersion, entries: Store, current, seen: set<string> := false, map[], "", {};
    for i := 0 to |lines|
      invariant Run(Start, items) == Run(Reading(seenVersion, entries, current, seen), items[i..])
    {
      assert items[i..][1..] == items[i + 1..];
      var fault: Option<Fault>;
      fault, seenVersion, entries, current, seen := ReadLine(lines[i], seenVersion, entries, current, seen);
      if fault.Some? {
        RunRejected(Rejected(fault.value), items[i + 1..]);
        return Err(fault.value);
      }
    }
    if !seenVersion { return Err(VersionMissing); }
    var ok := Validate(env, entries);
    return if ok then Ok(entries) else Err(InvalidEntry);
  }

  // ---------------------------------------------------------------- the printer

  const TRUST_VERSION := "trust_version"
  const VERSION_LINE := AssignLine(TRUST_VERSION, Itoa(TRUST_SCHEMA))

  function RootLine(env: Env, e: Entry): string {
    AssignLine("root", Quote(env.shown, e.root))
  }

  function DigestLine(env: Env, e: Entry): string {
    AssignLine("overlay_sha256", Quote(env.shown, e.digest))
  }

  function ToolsLine(env: Env, e: Entry): string {
    AssignLine("tools", Array(env.shown, e.tools))
  }

  function EntryLines(env: Env, id: string, e: Entry): seq<string> {
    ["\n", HeaderLine(PROJECTS + id), RootLine(env, e), DigestLine(env, e), ToolsLine(env, e)]
  }

  function AllLines(env: Env, ids: seq<string>, store: Store): seq<string>
    requires forall i :: 0 <= i < |ids| ==> ids[i] in store
  {
    if ids == [] then [VERSION_LINE]
    else AllLines(env, ids[..|ids| - 1], store) + EntryLines(env, ids[|ids| - 1], store[ids[|ids| - 1]])
  }

  ghost function Lines(env: Env, store: Store): seq<string> {
    AllLines(env, SortedSeq(store.Keys), store)
  }

  /** marshalStore as the source runs it: an invalid entry is refused, the others are
      printed in ascending order of their ids. */
  method MarshalStore(env: Env, store: Store) returns (r: Option<string>)
    ensures r == if Valid(env, store) then Some(Concat(Lines(env, store))) else None
  {
    var ok := Validate(env, store);
    if !ok { return None; }
    var ids := SortedElements(store.Keys);
    EnumerationUnique(ids, SortedSeq(store.Keys), store.Keys);
    SortedIsDistinct(ids, store.Keys);
    var text := PrintEntries(env, ids, store);
    return Some(text);
  }

  lemma AllLinesStep(env: Env, ids: seq<string>, store: Store, i: nat)
    requires i < |ids| && forall i :: 0 <= i < |ids| ==> ids[i] in store
    ensures AllLines(env, ids[..i + 1], store) == AllLines(env, ids[..i], store) + EntryLines(env, ids[i], store[ids[i]])
  {
    assert ids[..i + 1][..i] == ids[..i];
  }

  method PrintEntries(env: Env, ids: seq<string>, store: Store) returns (text: string)
    requires forall i :: 0 <= i < |ids| ==> ids[i] in store
    ensures text == Concat(AllLines(env, ids, store))
  {
    text := VERSION_LINE;
    assert Concat([VERSION_LINE]) == VERSION_LINE + Concat([VERSION_LINE][1..]);
    for i := 0 to |ids|
      invariant text == Concat(AllLines(env, ids[..i], store))
    {
      AllLinesStep(env, ids, store, i);
      ConcatAppend(AllLines(env, ids[..i], store), EntryLines(env, ids[i], store[ids[i]]));
      text := text + Concat(EntryLines(env, ids[i], store[ids[i]]));
    }
    assert ids[..|ids|] == ids;
  }

  // ---------------------------------------------------------------- lemmas on runs

  lemma {:induction false} RunRejected(st: State, items: seq<Item>)
    requires st.Rejected?
    ensures Run(st, items) == st
    decreases |items|
  {
    if items != [] { RunRejected(Step(st, items[0]), items[1..]); }
  }

  lemma {:induction false} RunAppend(st: State, a: seq<Item>, b: seq<Item>)
    ensures Run(st, a + b) == Run(Run(st, a), b)
    decreases |a|
  {
    if a == [] {
      assert a + b == b;
    } else {
      assert (a + b)[1..] == a[1..] + b;
      RunAppend(Step(st, a[0]), a[1..], b);
    }
  }

  lemma RunLines(st: State, a: seq<string>, b: seq<string>)
    ensures Run(st, Items(a + b)) == Run(Run(st, Items(a)), Items(b))
  {
    assert Items(a + b) == Items(a) + Items(b);
    RunAppend(st, Items(a), Items(b));
  }

  lemma RunLine(st: State, line: string)
    ensures Run(st, Items([line])) == Step(st, Read(line))
  {
    var items := Items([line]);
    assert items[1..] == [];
  }

  lemma RunTrailingBlank(st: State, lines: seq<string>)
    ensures Run(st, Items(lines + [""])) == Run(st, Items(lines))
  {
    RunLines(st, lines, [""]);
    RunLine(Run(st, Items(lines)), "");
    assert R.Meaning("") == "" && R.ScanToken("") == "";
  }

  lemma TokensSuffice(text: string)
    ensures Run(Start, Items(R.Tokens(text))) == Run(Start, Items(SplitAfter(text)))
  {
    var lines := SplitAfter(text);
    if lines[|lines| - 1] == "" {
      assert lines == R.Tokens(text) + [""];
      RunTrailingBlank(Start, R.Tokens(text));
    }
  }

  lemma RunTooLong(st: State, lines: seq<string>, i: nat)
    requires i < |lines| && !FitsScanner(lines[i])
    ensures Run(st, Items(lines)).Rejected?
  {
    assert lines == lines[..i] + ([lines[i]] + lines[i + 1..]);
    RunLines(st, lines[..i], [lines[i]] + lines[i + 1..]);
    var mid := Run(st, Items(lines[..i]));
    RunLines(mid, [lines[i]], lines[i + 1..]);
    RunLine(mid, lines[i]);
    RunRejected(Step(mid, TooLong), Items(lines[i + 1..]));
  }

  // ---------------------------------------------------------------- reading printed lines

  lemma ReadAssign(key: string, value: string)
    requires PlainKey(key) && ClosedValue(value) && FitsScanner(AssignLine(key, value))
    ensures Read(AssignLine(key, value)) == Assign(key, value)
  {
    R.MeaningOfToken(AssignLine(key, value));
    AssignMeaning(key, value);
    RenderedKey(key, value);
    RenderedParts(key, value);
  }

  lemma ReadNewline()
    ensures Read("\n") == Blank
  {
    assert WithoutNewline("\n") == "" && R.ScanToken("\n") == "";
    assert R.Meaning("") == "";
  }

  lemma ReadHeaderLine(section: string)
    requires PlainSection(section) && FitsScanner(HeaderLine(section))
    ensures Read(HeaderLine(section)) == Header(section)
  {
    R.MeaningOfToken(HeaderLine(section));
    HeaderMeaning(section);
    ItemOfHeader(section);
  }

  lemma ItemOfHeader(section: string)
    requires PlainSection(section)
    ensures ItemOf("[" + section + "]") == Header(section)
  {
    HeaderOfPlain(section);
  }

  lemma SectionOfId(id: string)
    requires ValidDigest(id)
    ensures PlainSection(PROJECTS + id) && PROJECTS <= PROJECTS + id && (PROJECTS + id)[|PROJECTS|..] == id
  {
    assert forall c :: c in id ==> '0' <= c <= '9' || 'a' <= c <= 'f';
  }

  lemma PlainKeys()
    ensures PlainKey("root") && PlainKey("overlay_sha256") && PlainKey("tools") && PlainKey(TRUST_VERSION)
  {
  }

  // ---------------------------------------------------------------- one entry

  /** The parser inside the section of `id`, holding `e` so far. */
  predicate Inside(st: State, entries: Store, id: string, e: Entry, seen: set<string>) {
    st == Reading(true, entries[id := e], id, seen)
  }

  lemma StepAssign(st: State, entries: Store, id: string, e: Entry, seen: set<string>, key: string, value: string, next: Entry)
    requires Inside(st, entries, id, e, seen) && id != "" && key !in seen && SetField(e, key, value) == Ok(next)
    ensures Inside(Step(st, Assign(key, value)), entries, id, next, seen + {key})
  {
    FieldAssigned(st, entries, id, e, seen, key, value, next);
  }

  lemma FieldAssigned(st: State, entries: Store, id: string, e: Entry, seen: set<string>, key: string, value: string, next: Entry)
    requires Inside(st, entries, id, e, seen) && key !in seen && SetField(e, key, value) == Ok(next)
    ensures Inside(StepField(st, key, value), entries, id, next, seen + {key})
  {
    assert EntryAt(st.entries, st.current) == e;
    assert entries[id := e][id := next] == entries[id := next];
  }

  lemma SetQuoted(env: Env, e: Entry, key: string, v: string)
    requires key == "root" || key == "overlay_sha256"
    ensures SetField(e, key, Quote(env.shown, v)) == Ok(if key == "root" then e.(root := v) else e.(digest := v))
  {
    ParseQuotedQuote(env.shown, v);
  }

  lemma SetTools(env: Env, e: Entry, xs: seq<string>)
    ensures SetField(e, "tools", Array(env.shown, xs)) == Ok(e.(tools := xs))
  {
    ParseArrayArray(env.shown, xs);
  }

  lemma RunKey(st: State, entries: Store, id: string, e: Entry, seen: set<string>, key: string, value: string, next: Entry)
    requires Inside(st, entries, id, e, seen) && id != "" && key !in seen && SetField(e, key, value) == Ok(next)
    requires PlainKey(key) && ClosedValue(value) && FitsScanner(AssignLine(key, value))
    ensures Inside(Step(st, Read(AssignLine(key, value))), entries, id, next, seen + {key})
  {
    ReadAssign(key, value);
    StepAssign(st, entries, id, e, seen, key, value, next);
  }

  lemma RunRoot(env: Env, st: State, entries: Store, id: string, e: Entry)
    requires Inside(st, entries, id, NoEntry, {}) && id != "" && FitsScanner(RootLine(env, e))
    ensures Inside(Step(st, Read(RootLine(env, e))), entries, id, Entry(e.root, "", []), {"root"})
  {
    PlainKeys();
    QuoteIsClosed(env.shown, e.root);
    SetQuoted(env, NoEntry, "root", e.root);
    RunKey(st, entries, id, NoEntry, {}, "root", Quote(env.shown, e.root), Entry(e.root, "", []));
    assert {} + {"root"} == {"root"};
  }

  lemma RunDigest(env: Env, st: State, entries: Store, id: string, e: Entry)
    requires Inside(st, entries, id, Entry(e.root, "", []), {"root"}) && id != "" && FitsScanner(DigestLine(env, e))
    ensures Inside(Step(st, Read(DigestLine(env, e))), entries, id, Entry(e.root, e.digest, []), {"root", "overlay_sha256"})
  {
    PlainKeys();
    QuoteIsClosed(env.shown, e.digest);
    SetQuoted(env, Entry(e.root, "", []), "overlay_sha256", e.digest);
    RunKey(st, entries, id, Entry(e.root, "", []), {"root"}, "overlay_sha256", Quote(env.shown, e.digest),
           Entry(e.root, e.digest, []));
    assert {"root"} + {"overlay_sha256"} == {"root", "overlay_sha256"};
  }

  lemma RunTools(env: Env, st: State, entries: Store, id: string, e: Entry)
    requires Inside(st, entries, id, Entry(e.root, e.digest, []), {"root", "overlay_sha256"}) && id != ""
    requires FitsScanner(ToolsLine(env, e))
    ensures exists seen :: Inside(Step(st, Read(ToolsLine(env, e))), entries, id, e, seen)
  {
    PlainKeys();
    ArrayIsClosed(env.shown, e.tools);
    SetTools(env, Entry(e.root, e.digest, []), e.tools);
    RunKey(st, entries, id, Entry(e.root, e.digest, []), {"root", "overlay_sha256"}, "tools", Array(env.shown, e.tools), e);
  }

  lemma RunHeader(st: State, entries: Store, id: string)
    requires st.Reading? && st.seenVersion && st.entries == entries && ValidDigest(id) && id !in entries
    requires FitsScanner(HeaderLine(PROJECTS + id))
    ensures Inside(Step(st, Read(HeaderLine(PROJECTS + id))), entries, id, NoEntry, {})
  {
    SectionOfId(id);
    ReadHeaderLine(PROJECTS + id);
  }

  lemma RunFive(st: State, a: string, b: string, c: string, d: string, e: string)
    ensures Run(st, Items([a, b, c, d, e])) ==
            Step(Step(Step(Step(Step(st, Read(a)), Read(b)), Read(c)), Read(d)), Read(e))
  {
    assert [a, b, c, d, e] == [a] + ([b] + ([c] + ([d] + [e])));
    RunLines(st, [a], [b] + ([c] + ([d] + [e])));
    RunLine(st, a);
    var st1 := Step(st, Read(a));
    RunLines(st1, [b], [c] + ([d] + [e]));
    RunLine(st1, b);
    var st2 := Step(st1, Read(b));
    RunLines(st2, [c], [d] + [e]);
    RunLine(st2, c);
    var st3 := Step(st2, Read(c));
    RunLines(st3, [d], [e]);
    RunLine(st3, d);
    RunLine(Step(st3, Read(d)), e);
  }

  lemma EntryLinesFit(env: Env, id: string, e: Entry)
    requires AllFit(EntryLines(env, id, e))
    ensures FitsScanner(HeaderLine(PROJECTS + id)) && FitsScanner(RootLine(env, e))
    ensures FitsScanner(DigestLine(env, e)) && FitsScanner(ToolsLine(env, e))
  {
    var lines := EntryLines(env, id, e);
    assert FitsScanner(lines[1]) && FitsScanner(lines[2]) && FitsScanner(lines[3]) && FitsScanner(lines[4]);
  }

  lemma RunEntry(env: Env, st: State, entries: Store, id: string, e: Entry)
    requires st.Reading? && st.seenVersion && st.entries == entries && ValidDigest(id) && id !in entries
    requires AllFit(EntryLines(env, id, e))
    ensures var end := Run(st, Items(EntryLines(env, id, e)));
            end.Reading? && end.seenVersion && end.entries == entries[id := e]
  {
    EntryLinesFit(env, id, e);
    RunFive(st, "\n", HeaderLine(PROJECTS + id), RootLine(env, e), DigestLine(env, e), ToolsLine(env, e));
    ReadNewline();
    RunHeader(st, entries, id);
    var st1 := Step(st, Read(HeaderLine(PROJECTS + id)));
    RunRoot(env, st1, entries, id, e);
    var st2 := Step(st1, Read(RootLine(env, e)));
    RunDigest(env, st2, entries, id, e);
    RunTools(env, Step(st2, Read(DigestLine(env, e))), entries, id, e);
  }

  // ---------------------------------------------------------------- printing and parsing are inverse

  function Only(store: Store, ids: seq<string>): Store {
    map id | id in store && id in ids :: store[id]
  }

  lemma OnlyStep(store: Store, ids: seq<string>)
    requires ids != [] && ids[|ids| - 1] in store
    ensures Only(store, ids) == Only(store, ids[..|ids| - 1])[ids[|ids| - 1] := store[ids[|ids| - 1]]]
  {
    assert ids == ids[..|ids| - 1] + [ids[|ids| - 1]];
  }

  lemma NumberReads(n: nat)
    requires n <= R.MAX_INT
    ensures R.Atoi(Itoa(n)) == Some(n) && ClosedValue(Itoa(n)) && '\n' !in Itoa(n)
  {
    ItoaRoundTrip(n);
    var s := Itoa(n);
    assert s[0] in s && s[|s| - 1] in s && forall c :: c in s ==> IsDigit(c);
    PlainText(s);
  }

  lemma VersionLineReads()
    requires FitsScanner(VERSION_LINE)
    ensures Step(Start, Read(VERSION_LINE)) == Reading(true, map[], "", {})
  {
    PlainKeys();
    NumberReads(TRUST_SCHEMA);
    ReadAssign(TRUST_VERSION, Itoa(TRUST_SCHEMA));
  }

  lemma {:induction false} RunEntries(env: Env, store: Store, ids: seq<string>)
    requires forall i :: 0 <= i < |ids| ==> ids[i] in store && ValidDigest(ids[i])
    requires forall i, j :: 0 <= i < j < |ids| ==> ids[i] != ids[j]
    requires AllFit(AllLines(env, ids, store))
    ensures var end := Run(Start, Items(AllLines(env, ids, store)));
            end.Reading? && end.seenVersion && end.entries == Only(store, ids)
    decreases |ids|
  {
    if ids == [] {
      assert FitsScanner(AllLines(env, ids, store)[0]);
      RunLine(Start, VERSION_LINE);
      VersionLineReads();
    } else {
      var init, last := ids[..|ids| - 1], ids[|ids| - 1];
      var lines := EntryLines(env, last, store[last]);
      AllFitAppend(AllLines(env, init, store), lines);
      RunEntries(env, store, init);
      RunLines(Start, AllLines(env, init, store), lines);
      assert last !in init;
      RunEntry(env, Run(Start, Items(AllLines(env, init, store))), Only(store, init), last, store[last]);
      OnlyStep(store, ids);
    }
  }

  lemma EntryAreLines(env: Env, id: string, e: Entry)
    requires ValidDigest(id)
    ensures AllTerminated(EntryLines(env, id, e))
  {
    PlainKeys();
    SectionOfId(id);
    HeaderIsLine(PROJECTS + id);
    QuoteIsClosed(env.shown, e.root);
    AssignIsLine("root", Quote(env.shown, e.root));
    QuoteIsClosed(env.shown, e.digest);
    AssignIsLine("overlay_sha256", Quote(env.shown, e.digest));
    ArrayIsClosed(env.shown, e.tools);
    AssignIsLine("tools", Array(env.shown, e.tools));
  }

  lemma {:induction false} AllAreLines(env: Env, ids: seq<string>, store: Store)
    requires forall i :: 0 <= i < |ids| ==> ids[i] in store && ValidDigest(ids[i])
    ensures AllTerminated(AllLines(env, ids, store))
    decreases |ids|
  {
    if ids == [] {
      PlainKeys();
      NumberReads(TRUST_SCHEMA);
      AssignIsLine(TRUST_VERSION, Itoa(TRUST_SCHEMA));
    } else {
      AllAreLines(env, ids[..|ids| - 1], store);
      EntryAreLines(env, ids[|ids| - 1], store[ids[|ids| - 1]]);
    }
  }

  /** Printing a valid store and parsing it gives the store back, as long as the scanner can
      take every line; otherwise the printed text is refused. */
  lemma ParseMarshal(env: Env, store: Store)
    requires Valid(env, store)
    ensures var text := Concat(Lines(env, store));
            if AllFit(Lines(env, store)) then ParseStore(env, text) == Ok(store) else ParseStore(env, text).Err?
  {
    var ids := SortedSeq(store.Keys);
    SortedIsDistinct(ids, store.Keys);
    ParseOfLines(env, store, ids);
    var lines := AllLines(env, ids, store);
    if AllFit(lines) {
      RunEntries(env, store, ids);
      assert Only(store, ids) == store;
    } else {
      var i :| 0 <= i < |lines| && !FitsScanner(lines[i]);
      RunTooLong(Start, lines, i);
    }
  }

  lemma ParseOfLines(env: Env, store: Store, ids: seq<string>)
    requires forall i :: 0 <= i < |ids| ==> ids[i] in store && ValidDigest(ids[i])
    ensures ParseStore(env, Concat(AllLines(env, ids, store))) == Finish(env, Run(Start, Items(AllLines(env, ids, store))))
  {
    var lines := AllLines(env, ids, store);
    AllAreLines(env, ids, store);
    SplitConcat(lines);
    RunTrailingBlank(Start, lines);
  }

  // ---------------------------------------------------------------- saving and loading

  /** readBounded in front of parseStore. */
  function ReadBack(env: Env, text: string): Option<Store> {
    if Utf8Length(text) > MAX_FILE_SIZE then None
    else match ParseStore(env, text) case Err(_) => None case Ok(store) => Some(store)
  }

  /** Saving does not look at sizes, loading does: a saved store loads back, as itself,
      exactly when its text fits both bounds. */
  lemma SavedLoadsBack(env: Env, store: Store)
    requires Valid(env, store)
    ensures var lines := Lines(env, store);
            ReadBack(env, Concat(lines)) ==
            if Utf8Length(Concat(lines)) <= MAX_FILE_SIZE && AllFit(lines) then Some(store) else None
  {
    ParseMarshal(env, store);
  }

  // -------------------- a valid store that does not load back

  /** A valid name of a tool, as long as one likes. */
  function LongName(n: nat): string {
    seq(n, _ => 'a')
  }

  const ZEROS: string := seq(64, _ => '0')

  /** One trusted project with one tool of a very long name. */
  function LongStore(env: Env, root: string): Store {
    map[env.rootId(root) := Entry(root, ZEROS, [LongName(MAX_SCAN_TOKEN)])]
  }

  lemma LongNameIsValid(n: nat)
    requires n > 100
    ensures R.ValidToolName(LongName(n)) && !R.ReservedToolName(LongName(n))
  {
  }

  lemma {:induction false} QuoteIsLonger(shown: Printable, s: string)
    ensures |QuoteBody(shown, s)| >= |s|
  {
    if s != "" { QuoteIsLonger(shown, s[1..]); }
  }

  lemma {:induction false} BytesAreMore(s: string)
    ensures Utf8Length(s) >= |s|
  {
    if s != "" { BytesAreMore(s[1..]); }
  }

  lemma LongLineDoesNotFit(line: string)
    requires |line| > MAX_SCAN_TOKEN
    ensures !FitsScanner(line)
  {
    BytesAreMore(WithoutNewline(line));
  }

  lemma ToolsLineIsLong(env: Env, e: Entry, name: string)
    requires e.tools == [name]
    ensures |ToolsLine(env, e)| > |name|
  {
    QuoteIsLonger(env.shown, name);
    assert QuoteAll(env.shown, e.tools) == [Quote(env.shown, name)];
  }

  /** A store that is valid, is saved, and never loads again: its tools line fills the scanner. */
  lemma LongNameIsLost(env: Env, root: string)
    requires env.cleanRoot(root) && ValidDigest(env.rootId(root))
    ensures var store := LongStore(env, root);
            Valid(env, store) && !AllFit(Lines(env, store)) && ReadBack(env, Concat(Lines(env, store))) == None
  {
    var store, id := LongStore(env, root), env.rootId(root);
    var e := store[id];
    LongNameIsValid(MAX_SCAN_TOKEN);
    SavedLoadsBack(env, store);
    var ids := SortedSeq(store.Keys);
    SortedIsDistinct(ids, store.Keys);
    assert id in ids;
    var i :| 0 <= i < |ids| && ids[i] == id;
    ToolsLineIsLong(env, e, LongName(MAX_SCAN_TOKEN));
    LongLineDoesNotFit(ToolsLine(env, e));
    LastLineCounts(env, ids, store, i);
  }

  /** Every tools line is one of the lines. */
  lemma {:induction false} LastLineCounts(env: Env, ids: seq<string>, store: Store, i: nat)
    requires i < |ids| && forall j :: 0 <= j < |ids| ==> ids[j] in store
    requires !FitsScanner(ToolsLine(env, store[ids[i]]))
    ensures !AllFit(AllLines(env, ids, store))
    decreases |ids|
  {
    var init, last := ids[..|ids| - 1], ids[|ids| - 1];
    var lines := EntryLines(env, last, store[last]);
    AllFitAppend(AllLines(env, init, store), lines);
    if i == |ids| - 1 {
      assert !FitsScanner(lines[4]);
    } else {
      LastLineCounts(env, init, store, i);
    }
  }
}
